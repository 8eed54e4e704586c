/** Solvency inside the entry points: what any foreign code finds, at every point at which it gets to run. */
module InFlight {
  import opened Bytes
  import opened Custody
  import opened CustodyInvariant
  import opened CustodyLog
  import opened Interference
  import opened RouterTypes
  import opened Settlement
  import opened Wrappers

  // What the router holds beyond its books, or short of them, in one token.
  function Bonus(at: Address, credit: int, token: Address): int
  {
    if token == at then credit else 0
  }

  /** A moment inside an entry point that began in `s`: the router is locked, nobody may debit it, one intent
      has the status written so far, and compared with the start its surplus has changed by at least `credit`
      in one token and has not fallen in any other. */
  ghost predicate Underway(d: Deployment, s: State, m: State, id: Word, status: Status, at: Address, credit: int)
  {
    && m.locked && Grantless(m.ledger, d.self) && Catalogued(d, m)
    && id in s.intents && id in m.intents && m.intents[id] == s.intents[id].(status := status)
    && (forall token: Address :: Surplus(d, m, token) >= Surplus(d, s, token) + Bonus(at, credit, token))
  }

  /** Then the router can pay all its debts, give or take that credit, and no guarded entry point lets
      anybody in, at any time. */
  lemma UnderwayIsSolvent(d: Deployment, s: State, m: State, id: Word, status: Status, at: Address, credit: int)
    requires Solvent(d, s) && Underway(d, s, m, id, status, at, credit)
    ensures forall token: Address ::
        m.ledger.Balance(token, d.self) >= FundedSum(m.intents, token) + Bonus(at, credit, token)
    ensures forall now: nat, c: Call | Guarded(c) :: Exec(d, now, m, c) == m
  {
    forall token: Address
      ensures m.ledger.Balance(token, d.self) >= FundedSum(m.intents, token) + Bonus(at, credit, token)
    {
      assert Surplus(d, s, token) >= 0;
      assert Surplus(d, m, token) >= Surplus(d, s, token) + Bonus(at, credit, token);
    }
    forall now: nat, c: Call | Guarded(c)
      ensures Exec(d, now, m, c) == m
    {
      LockBlocks(d, now, m, c);
    }
  }

  // ---------------------------------------------------------------- from one moment to the next

  lemma DriftUnderway(d: Deployment, s: State, m: State, m': State, id: Word, status: Status, at: Address, credit: int)
    requires Underway(d, s, m, id, status, at, credit) && Drift(d, m, m', [])
    ensures Underway(d, s, m', id, status, at, credit)
  {
    forall token: Address
      ensures Surplus(d, m', token) >= Surplus(d, s, token) + Bonus(at, credit, token)
    {
      ExtendedSum(m.intents, m'.intents, token);
      assert m'.ledger.Balance(token, d.self) >= m.ledger.Balance(token, d.self) + Net(d, [], token);
      assert Surplus(d, m, token) >= Surplus(d, s, token) + Bonus(at, credit, token);
    }
  }

  lemma ScriptUnderway(d: Deployment, now: nat, s: State, m: State, calls: seq<Call>, id: Word, status: Status,
                       at: Address, credit: int)
    requires Underway(d, s, m, id, status, at, credit)
    ensures Underway(d, s, Run(d, now, m, calls), id, status, at, credit)
  {
    ScriptDrifts(d, now, m, calls);
    DriftUnderway(d, s, m, Run(d, now, m, calls), id, status, at, credit);
  }

  /** A movement the router orders shifts the credit by what it takes or brings. */
  lemma MoveUnderway(d: Deployment, s: State, m: State, from: Address, to: Address, amount: nat, id: Word,
                     status: Status, at: Address, credit: int, after: int)
    requires Underway(d, s, m, id, status, at, credit) && from != d.adapter
    requires MoveUnits(m, d.self, at, from, to, amount).Done?
    requires after <= credit + Delta(d, Move(at, from, to, amount), at)
    ensures Underway(d, s, MoveUnits(m, d.self, at, from, to, amount).state, id, status, at, after)
  {
    var m' := MoveUnits(m, d.self, at, from, to, amount).state;
    OwnMoveDrifts(d, m, at, from, to, amount);
    forall token: Address
      ensures Surplus(d, m', token) >= Surplus(d, s, token) + Bonus(at, after, token)
    {
      OwnMoveBalances(d, m, at, from, to, amount, token);
      assert Surplus(d, m, token) >= Surplus(d, s, token) + Bonus(at, credit, token);
    }
  }

  /** A token call the router makes: before its units move, and after. */
  lemma CallUnderway(d: Deployment, now: nat, s: State, m: State, from: Address, to: Address, amount: nat,
                     before: seq<Call>, calls: seq<Call>, id: Word, status: Status, at: Address, credit: int,
                     after: int)
    requires Underway(d, s, m, id, status, at, credit) && from != d.adapter
    requires after <= credit + Delta(d, Move(at, from, to, amount), at)
    ensures Underway(d, s, Run(d, now, m, calls), id, status, at, credit)
    ensures var moved := MoveUnits(Run(d, now, m, before), d.self, at, from, to, amount);
      moved.Done? ==> Underway(d, s, Run(d, now, moved.state, calls), id, status, at, after)
  {
    ScriptUnderway(d, now, s, m, calls, id, status, at, credit);
    ScriptUnderway(d, now, s, m, before, id, status, at, credit);
    var moved := MoveUnits(Run(d, now, m, before), d.self, at, from, to, amount);
    if moved.Done? {
      MoveUnderway(d, s, Run(d, now, m, before), from, to, amount, id, status, at, credit, after);
      ScriptUnderway(d, now, s, moved.state, calls, id, status, at, after);
    }
  }

  lemma LockUnderway(d: Deployment, s: State, id: Word, at: Address)
    requires Grantless(s.ledger, d.self) && Catalogued(d, s) && id in s.intents
    ensures Underway(d, s, s.(locked := true), id, s.intents[id].status, at, 0)
  {
    SameCatalogue(d, s, s.(locked := true));
  }

  /** The status write, before the units that go with it have moved. */
  lemma WriteUnderway(d: Deployment, s: State, id: Word, status: Status)
    requires Grantless(s.ledger, d.self) && Catalogued(d, s) && id in s.intents && status != Missing
    ensures var i := s.intents[id];
      Underway(d, s, s.(locked := true).SetStatus(id, status), id, status, i.tokenIn,
               Due(i, i.tokenIn) - Due(i.(status := status), i.tokenIn))
  {
    var i, m := s.intents[id], s.(locked := true).SetStatus(id, status);
    LockedWrite(d, s, id, status);
    forall token: Address
      ensures Surplus(d, m, token)
        >= Surplus(d, s, token) + Bonus(i.tokenIn, Due(i, i.tokenIn) - Due(i.(status := status), i.tokenIn), token)
    {
      FundedSumUpdate(s.intents, id, i.(status := status), token);
    }
  }

  // ---------------------------------------------------------------- funding and cancelling

  /** While a deposit is pulled, by either funding path, the state `s` being the one in which the intent was
      just created or found: marked Funded, the router is short of at most the amount until it arrives,
      then of nothing. */
  lemma SolventWhileFunding(d: Deployment, now: nat, s: State, id: Word, hook: Hook, calls: seq<Call>)
    requires Inv(d, s) && id in s.intents && s.intents[id].status == Created
    ensures var i, m := s.intents[id], s.(locked := true).SetStatus(id, Funded);
      && Underway(d, s, Run(d, now, m, calls), id, Funded, i.tokenIn, 0 - i.amount)
      && var moved := MoveUnits(Run(d, now, m, hook.before), d.self, i.tokenIn, i.owner, d.self, i.amount);
      moved.Done? ==> Underway(d, s, Run(d, now, moved.state, calls), id, Funded, i.tokenIn, 0)
  {
    var i, m := s.intents[id], s.(locked := true).SetStatus(id, Funded);
    assert Recorded(d, s, id);
    WriteUnderway(d, s, id, Funded);
    CallUnderway(d, now, s, m, i.owner, d.self, i.amount, hook.before, calls, id, Funded, i.tokenIn, 0 - i.amount, 0);
  }

  /** While a refund is paid: already Cancelled, the router holds the amount on top until it leaves, and is
      never short of anything. */
  lemma SolventWhileCancelling(d: Deployment, now: nat, s: State, id: Word, hook: Hook, calls: seq<Call>)
    requires Inv(d, s) && id in s.intents && s.intents[id].status == Funded
    ensures var i, m := s.intents[id], s.(locked := true).SetStatus(id, Cancelled);
      && Underway(d, s, Run(d, now, m, calls), id, Cancelled, i.tokenIn, i.amount)
      && var moved := MoveUnits(Run(d, now, m, hook.before), d.self, i.tokenIn, d.self, i.owner, i.amount);
      moved.Done? ==> Underway(d, s, Run(d, now, moved.state, calls), id, Cancelled, i.tokenIn, 0)
  {
    var i, m := s.intents[id], s.(locked := true).SetStatus(id, Cancelled);
    WriteUnderway(d, s, id, Cancelled);
    assert Recorded(d, s, id);
    CallUnderway(d, now, s, m, d.self, i.owner, i.amount, hook.before, calls, id, Cancelled, i.tokenIn, i.amount, 0);
  }

  // ---------------------------------------------------------------- executing

  /** While the input is handed over: still Funded, nothing is missing until the amount leaves, then at most
      the amount. */
  lemma SolventWhileHandingOver(d: Deployment, now: nat, s: State, a: RouteAuthorization, x: Externals,
                                calls: seq<Call>)
    requires Inv(d, s) && s.Intent(a.intentId).status == Funded
    ensures var i, locked := s.intents[a.intentId], s.(locked := true);
      && Underway(d, s, Run(d, now, locked, calls), a.intentId, Funded, i.tokenIn, 0)
      && var moved := MoveUnits(Run(d, now, locked, x.input.before), d.self, i.tokenIn, d.self, a.adapter, i.amount);
      moved.Done? ==> Underway(d, s, Run(d, now, moved.state, calls), a.intentId, Funded, i.tokenIn, 0 - i.amount)
  {
    var i := s.intents[a.intentId];
    LockUnderway(d, s, a.intentId, i.tokenIn);
    CallUnderway(d, now, s, s.(locked := true), d.self, a.adapter, i.amount, x.input.before, calls, a.intentId, Funded,
                 i.tokenIn, 0, 0 - i.amount);
  }

  /** What the adapter finds when it is called: a locked router, short of at most the amount, in its token. */
  lemma HandedUnderway(d: Deployment, now: nat, s: State, a: RouteAuthorization, x: Externals)
    requires Inv(d, s) && s.Intent(a.intentId).status == Funded && HandOver(d, now, s, a, x).Done?
    ensures var i, handed := s.intents[a.intentId], HandOver(d, now, s, a, x).state;
      && Underway(d, s, handed, a.intentId, Funded, i.tokenIn, 0 - i.amount)
      && !handed.adapterLocked && Grantless(handed.ledger, d.adapter)
  {
    var i, locked := s.intents[a.intentId], s.(locked := true);
    SolventWhileHandingOver(d, now, s, a, x, x.input.after);
    SameCatalogue(d, s, locked);
    TokenCallDrifts(d, now, locked, i.tokenIn, d.self, a.adapter, i.amount, x.input);
  }

  /** Inside an adapter this project does not know, whatever it has run so far: still Funded, short of at
      most the amount handed over. */
  lemma SolventInForeignAdapter(d: Deployment, now: nat, s: State, a: RouteAuthorization, x: Externals,
                                calls: seq<Call>)
    requires Inv(d, s) && s.Intent(a.intentId).status == Funded && HandOver(d, now, s, a, x).Done?
    ensures var i := s.intents[a.intentId];
      Underway(d, s, Run(d, now, HandOver(d, now, s, a, x).state, calls), a.intentId, Funded, i.tokenIn, 0 - i.amount)
  {
    var i := s.intents[a.intentId];
    HandedUnderway(d, now, s, a, x);
    ScriptUnderway(d, now, s, HandOver(d, now, s, a, x).state, calls, a.intentId, Funded, i.tokenIn, 0 - i.amount);
  }

  /** The moments inside the V2 adapter at which foreign code runs: before its approval takes effect, in the
      venue, after the approval is cleared, and around its own transfer of the output. */
  datatype Point = Approving | Venue | Clearing | Sending | Forwarded(tokenOut: Address, amountOut: nat)

  /** The state foreign code starts from there, if the adapter gets there. */
  function StartOf(d: Deployment, now: nat, s: State, tokenIn: Address, amountIn: Word, callee: Callee,
                   p: Point): Option<State>
  {
    var shut := s.(adapterLocked := true);
    var asked := Run(d, now, shut, callee.approving);
    match p
    case Approving => Some(shut)
    case Venue => Some(asked.(ledger := asked.ledger.Approve(tokenIn, d.adapter, d.exchange, amountIn)))
    case Clearing => Some(Ventured(d, now, asked, tokenIn, amountIn, callee.calls))
    case Sending => Some(Swapped(d, now, s, tokenIn, amountIn, callee))
    case Forwarded(tokenOut, amountOut) =>
      match MoveUnits(Run(d, now, Swapped(d, now, s, tokenIn, amountIn, callee), callee.output.before), d.adapter,
                      tokenOut, d.adapter, d.self, amountOut)
      case Done(moved) => Some(moved)
      case Revert(_) => None
  }

  lemma ShutUnderway(d: Deployment, s: State, m: State, id: Word, status: Status, at: Address, credit: int)
    requires Underway(d, s, m, id, status, at, credit)
    ensures Underway(d, s, m.(adapterLocked := true), id, status, at, credit)
  {
    SameCatalogue(d, m, m.(adapterLocked := true));
    forall token: Address
      ensures Surplus(d, m.(adapterLocked := true), token) >= Surplus(d, s, token) + Bonus(at, credit, token)
    {
      assert Surplus(d, m, token) >= Surplus(d, s, token) + Bonus(at, credit, token);
    }
  }

  /** The adapter's approval is none of the router's. */
  lemma ApprovedUnderway(d: Deployment, s: State, m: State, tokenIn: Address, amountIn: Word, id: Word, status: Status,
                         at: Address, credit: int)
    requires Underway(d, s, m, id, status, at, credit) && d.self != d.adapter
    ensures Underway(d, s, m.(ledger := m.ledger.Approve(tokenIn, d.adapter, d.exchange, amountIn)), id, status, at,
                     credit)
  {
    var m' := m.(ledger := m.ledger.Approve(tokenIn, d.adapter, d.exchange, amountIn));
    SameCatalogue(d, m, m');
    ApproveShrunk(m.ledger, tokenIn, d.adapter, d.exchange, amountIn, d.self);
    GrantlessKept(m.ledger, m'.ledger, d.self);
    forall token: Address
      ensures Surplus(d, m', token) >= Surplus(d, s, token) + Bonus(at, credit, token)
    {
      assert Surplus(d, m, token) >= Surplus(d, s, token) + Bonus(at, credit, token);
    }
  }

  /** Units the adapter sends to the router take nothing from it. */
  lemma ReceiptUnderway(d: Deployment, s: State, m: State, tokenOut: Address, amount: nat, id: Word, status: Status,
                        at: Address, credit: int)
    requires Underway(d, s, m, id, status, at, credit) && d.self != d.adapter
    requires MoveUnits(m, d.adapter, tokenOut, d.adapter, d.self, amount).Done?
    ensures Underway(d, s, MoveUnits(m, d.adapter, tokenOut, d.adapter, d.self, amount).state, id, status, at, credit)
  {
    var m' := MoveUnits(m, d.adapter, tokenOut, d.adapter, d.self, amount).state;
    SameCatalogue(d, m, m');
    GrantlessAfterMove(m, d.adapter, tokenOut, d.adapter, d.self, amount, d.self);
    forall token: Address
      ensures Surplus(d, m', token) >= Surplus(d, s, token) + Bonus(at, credit, token)
    {
      assert Surplus(d, m, token) >= Surplus(d, s, token) + Bonus(at, credit, token);
    }
  }

  lemma StartUnderway(d: Deployment, now: nat, s: State, m: State, tokenIn: Address, amountIn: Word, callee: Callee,
                      p: Point, id: Word, status: Status, at: Address, credit: int)
    requires Underway(d, s, m, id, status, at, credit) && d.self != d.adapter && Grantless(m.ledger, d.adapter)
    ensures var start := StartOf(d, now, m, tokenIn, amountIn, callee, p);
      start.Some? ==> Underway(d, s, start.value, id, status, at, credit)
  {
    var shut := m.(adapterLocked := true);
    ShutUnderway(d, s, m, id, status, at, credit);
    ScriptUnderway(d, now, s, shut, callee.approving, id, status, at, credit);
    match p {
      case Approving =>
      case Venue =>
        ApprovedUnderway(d, s, Run(d, now, shut, callee.approving), tokenIn, amountIn, id, status, at, credit);
      case Clearing =>
        ScriptSparesAdapter(d, now, shut, callee.approving);
        var asked := Run(d, now, shut, callee.approving);
        VentureDrifts(d, now, asked, tokenIn, amountIn, callee.calls);
        DriftUnderway(d, s, asked, Ventured(d, now, asked, tokenIn, amountIn, callee.calls), id, status, at, credit);
      case Sending =>
        SwappedUnderway(d, now, s, m, tokenIn, amountIn, callee, id, status, at, credit);
      case Forwarded(tokenOut, amountOut) =>
        var swapped := Swapped(d, now, m, tokenIn, amountIn, callee);
        SwappedUnderway(d, now, s, m, tokenIn, amountIn, callee, id, status, at, credit);
        ScriptUnderway(d, now, s, swapped, callee.output.before, id, status, at, credit);
        if MoveUnits(Run(d, now, swapped, callee.output.before), d.adapter, tokenOut, d.adapter, d.self,
                     amountOut).Done? {
          ReceiptUnderway(d, s, Run(d, now, swapped, callee.output.before), tokenOut, amountOut, id, status, at,
                          credit);
        }
    }
  }

  lemma SwappedUnderway(d: Deployment, now: nat, s: State, m: State, tokenIn: Address, amountIn: Word, callee: Callee,
                        id: Word, status: Status, at: Address, credit: int)
    requires Underway(d, s, m, id, status, at, credit) && d.self != d.adapter && Grantless(m.ledger, d.adapter)
    ensures Underway(d, s, Swapped(d, now, m, tokenIn, amountIn, callee), id, status, at, credit)
  {
    ShutUnderway(d, s, m, id, status, at, credit);
    SwapDrifts(d, now, m, tokenIn, amountIn, callee);
    DriftUnderway(d, s, m.(adapterLocked := true), Swapped(d, now, m, tokenIn, amountIn, callee), id, status, at,
                  credit);
  }

  /** Inside the V2 adapter, at every point at which a token or the venue runs code, whatever has run so far:
      still Funded, the router short of at most the amount handed over. */
  lemma SolventInV2Adapter(d: Deployment, now: nat, s: State, a: RouteAuthorization, x: Externals, p: Point,
                           calls: seq<Call>)
    requires Inv(d, s) && s.Intent(a.intentId).status == Funded && HandOver(d, now, s, a, x).Done?
    ensures var i := s.intents[a.intentId];
      var start := StartOf(d, now, HandOver(d, now, s, a, x).state, i.tokenIn, i.amount, x.callee, p);
      start.Some? ==> Underway(d, s, Run(d, now, start.value, calls), a.intentId, Funded, i.tokenIn, 0 - i.amount)
  {
    var i, handed := s.intents[a.intentId], HandOver(d, now, s, a, x).state;
    HandedUnderway(d, now, s, a, x);
    StartUnderway(d, now, s, handed, i.tokenIn, i.amount, x.callee, p, a.intentId, Funded, i.tokenIn, 0 - i.amount);
    var start := StartOf(d, now, handed, i.tokenIn, i.amount, x.callee, p);
    if start.Some? {
      ScriptUnderway(d, now, s, start.value, calls, a.intentId, Funded, i.tokenIn, 0 - i.amount);
    }
  }

  /** Everything measured is surplus once the intent is marked Executed. */
  lemma ExecutedUnderway(d: Deployment, s: State, back: State, a: RouteAuthorization, amountOut: nat)
    requires a.intentId in s.intents && s.intents[a.intentId].status == Funded && a.adapter != d.self
    requires var i := s.intents[a.intentId];
      Drift(d, s.(locked := true), back, [Move(i.tokenIn, d.self, a.adapter, i.amount)])
    requires amountOut == back.ledger.Balance(a.tokenOut, d.self) - Baseline(d, s, a)
    ensures Underway(d, s, back.SetStatus(a.intentId, Executed), a.intentId, Executed, a.tokenOut, amountOut)
  {
    var i, m := s.intents[a.intentId], back.SetStatus(a.intentId, Executed);
    var hand := Move(i.tokenIn, d.self, a.adapter, i.amount);
    assert a.intentId in s.(locked := true).intents;
    StatusCatalogued(d, back, m, a.intentId, Executed);
    SingleMove(d, hand);
    forall token: Address
      ensures Surplus(d, m, token) >= Surplus(d, s, token) + Bonus(a.tokenOut, amountOut, token)
    {
      ExtendedSum(s.intents, back.intents, token);
      FundedSumUpdate(back.intents, a.intentId, back.intents[a.intentId].(status := Executed), token);
      assert back.ledger.Balance(token, d.self) >= s.ledger.Balance(token, d.self) + Net(d, [hand], token);
    }
  }

  /** While the output is paid to the owner: already Executed, the router holds all of it on top until it
      leaves, and is never short of anything. */
  lemma SolventWhilePaying(d: Deployment, now: nat, s: State, a: RouteAuthorization, data: Bytes, x: Externals,
                           calls: seq<Call>)
    requires Inv(d, s) && s.Intent(a.intentId).status == Funded
    requires HandOver(d, now, s, a, x).Done? && Returned(d, now, s, a, data, x).AdapterDone?
      && AmountOut(d, now, s, a, data, x) >= 0
    ensures var i, m := s.intents[a.intentId], Returned(d, now, s, a, data, x).state.SetStatus(a.intentId, Executed);
      var amountOut := AmountOut(d, now, s, a, data, x);
      && Underway(d, s, Run(d, now, m, calls), a.intentId, Executed, a.tokenOut, amountOut)
      && var moved := MoveUnits(Run(d, now, m, x.output.before), d.self, a.tokenOut, d.self, i.owner, amountOut);
      moved.Done? ==> Underway(d, s, Run(d, now, moved.state, calls), a.intentId, Executed, a.tokenOut, 0)
  {
    var i, back := s.intents[a.intentId], Returned(d, now, s, a, data, x).state;
    var amountOut: nat := AmountOut(d, now, s, a, data, x);
    BackDrifts(d, now, s, a, data, x, back);
    ExecutedUnderway(d, s, back, a, amountOut);
    assert Recorded(d, s, a.intentId);
    CallUnderway(d, now, s, back.SetStatus(a.intentId, Executed), d.self, i.owner, amountOut, x.output.before, calls,
                 a.intentId, Executed, a.tokenOut, amountOut, 0);
  }
}
