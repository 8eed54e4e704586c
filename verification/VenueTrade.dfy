/** The trade inside the V2 adapter, told by the ledger: what the venue may take, and what an honest one brings. */
module VenueTrade {
  import opened Abi
  import opened Admission
  import opened Bytes
  import opened Custody
  import opened CustodyInvariant
  import opened CustodyTheorems
  import opened InFlight
  import opened Interference
  import opened RouterTypes
  import opened Settlement
  import opened V2Settlement
  import opened Wrappers

  /** The adapter takes calldata from the router exactly when no execution is under way, it decodes to a route in
      time, of two to four tokens, from the input token to another one, with a minimum. */
  lemma RouteAdmitted(d: Deployment, now: nat, s: State, sender: Address, tokenIn: Address, data: Bytes)
    ensures V2Guard(d, now, s, sender, tokenIn, data).Ok? <==>
      && !s.adapterLocked && sender == d.self && DecodeRoute(data).Some?
      && var r := DecodeRoute(data).value;
      && now <= r.deadline && 2 <= |r.path| <= 4 && r.amountOutMin > 0
      && r.path[0] == tokenIn && r.path[|r.path| - 1] !in {0, tokenIn}
    ensures V2Guard(d, now, s, sender, tokenIn, data).Ok? ==>
      Some(V2Guard(d, now, s, sender, tokenIn, data).value) == DecodeRoute(data)
  {
  }

  // ---------------------------------------------------------------- what the venue may take

  /** Of one token, the holder has granted `amount` to one spender and nothing to anybody else. */
  ghost predicate GrantedOnly(l: Ledger, token: Address, holder: Address, spender: Address, amount: nat)
  {
    forall who: Address :: l.Allowance(token, holder, who) == if who == spender then amount else 0
  }

  /** When the venue's calls start, it alone may take input from the adapter, at most the amount, and nobody may
      take anything else; when they are over, that grant is withdrawn before any other code runs. */
  lemma VenueFinds(d: Deployment, now: nat, s: State, tokenIn: Address, amountIn: Word, callee: Callee)
    returns (m: State, after: State)
    requires s.locked && d.self != d.adapter
    requires Grantless(s.ledger, d.self) && Grantless(s.ledger, d.adapter) && Catalogued(d, s)
    ensures StartOf(d, now, s, tokenIn, amountIn, callee, Venue) == Some(m) && m.locked && m.adapterLocked
    ensures Catalogued(d, m)
    ensures GrantedOnly(m.ledger, tokenIn, d.adapter, d.exchange, amountIn)
    ensures forall token: Address :: token != tokenIn ==> NoGrant(m.ledger, token, d.adapter)
    ensures forall token: Address :: m.ledger.Balance(token, d.adapter) >= s.ledger.Balance(token, d.adapter)
    ensures after.ledger == Run(d, now, m, callee.calls).ledger.Approve(tokenIn, d.adapter, d.exchange, 0)
    ensures after == Run(d, now, m, callee.calls).(ledger := after.ledger)
    ensures Swapped(d, now, s, tokenIn, amountIn, callee) == Run(d, now, after, callee.clearing)
  {
    var shut := s.(adapterLocked := true);
    var asked := Run(d, now, shut, callee.approving);
    SameCatalogue(d, s, shut);
    RunStable(d, now, shut, callee.approving);
    ScriptSparesAdapter(d, now, shut, callee.approving);
    m := asked.(ledger := asked.ledger.Approve(tokenIn, d.adapter, d.exchange, amountIn));
    SameCatalogue(d, asked, m);
    after := Ventured(d, now, asked, tokenIn, amountIn, callee.calls);
    forall token: Address, who: Address
      ensures m.ledger.Allowance(token, d.adapter, who) == if token == tokenIn && who == d.exchange then amountIn else 0
    {
      assert NoGrant(asked.ledger, token, d.adapter);
      assert asked.ledger.Allowance(token, d.adapter, who) == 0;
    }
  }

  /** So it is in every execution: the venue of a V2 execution finds itself granted just the intent's amount. */
  lemma VenueOfExecution(d: Deployment, now: nat, s: State, a: RouteAuthorization, x: Externals)
    returns (m: State, after: State)
    requires Reachable(d, s) && s.Intent(a.intentId).status == Funded && HandOver(d, now, s, a, x).Done?
    ensures var i, handed := s.Intent(a.intentId), HandOver(d, now, s, a, x).state;
      && StartOf(d, now, handed, i.tokenIn, i.amount, x.callee, Venue) == Some(m)
      && GrantedOnly(m.ledger, i.tokenIn, d.adapter, d.exchange, i.amount)
      && (forall token: Address :: token != i.tokenIn ==> NoGrant(m.ledger, token, d.adapter))
      && after == Run(d, now, m, x.callee.calls).(ledger := after.ledger)
      && NoGrant(after.ledger, i.tokenIn, d.adapter)
      && Swapped(d, now, handed, i.tokenIn, i.amount, x.callee) == Run(d, now, after, x.callee.clearing)
  {
    ReachableInv(d, s);
    HandedSound(d, now, s, a, x);
    var i, handed := s.Intent(a.intentId), HandOver(d, now, s, a, x).state;
    m, after := VenueFinds(d, now, handed, i.tokenIn, i.amount, x.callee);
    RunStable(d, now, m, x.callee.calls);
    var ran := Run(d, now, m, x.callee.calls);
    forall who: Address
      ensures after.ledger.Allowance(i.tokenIn, d.adapter, who) == 0
    {
      assert ran.ledger.Allowance(i.tokenIn, d.adapter, who) <= m.ledger.Allowance(i.tokenIn, d.adapter, who);
    }
  }

  /** What the holder keeps beyond what it still grants. */
  function Kept(l: Ledger, token: Address, holder: Address, spender: Address): int
  {
    l.Balance(token, holder) - l.Allowance(token, holder, spender)
  }

  /** Only one spender is granted anything, and not without limit. */
  ghost predicate Limited(l: Ledger, token: Address, holder: Address, spender: Address)
  {
    l.Allowance(token, holder, spender) < UNLIMITED
    && GrantedOnly(l, token, holder, spender, l.Allowance(token, holder, spender))
  }

  lemma SameGrants(l: Ledger, l': Ledger, at: Address, holder: Address, spender: Address)
    requires Limited(l, at, holder, spender)
    requires forall who: Address :: l'.Allowance(at, holder, who) == l.Allowance(at, holder, who)
    ensures Limited(l', at, holder, spender)
  {
    forall who: Address
      ensures l'.Allowance(at, holder, who) == if who == spender then l'.Allowance(at, holder, spender) else 0
    {
      assert l.Allowance(at, holder, who) == if who == spender then l.Allowance(at, holder, spender) else 0;
    }
  }

  lemma MoveSpends(s: State, operator: Address, token: Address, from: Address, to: Address, amount: nat, at: Address,
                   holder: Address, spender: Address)
    requires operator != holder && Limited(s.ledger, at, holder, spender)
    requires MoveUnits(s, operator, token, from, to, amount).Done?
    ensures var l' := MoveUnits(s, operator, token, from, to, amount).state.ledger;
      Limited(l', at, holder, spender) && Kept(l', at, holder, spender) >= Kept(s.ledger, at, holder, spender)
  {
    var l := s.ledger;
    var l' := MoveUnits(s, operator, token, from, to, amount).state.ledger;
    assert l.Allowance(at, holder, operator) == if operator == spender then l.Allowance(at, holder, spender) else 0;
    forall who: Address
      ensures l'.Allowance(at, holder, who) == if who == spender then l'.Allowance(at, holder, spender) else 0
    {
      assert l.Allowance(at, holder, who) == if who == spender then l.Allowance(at, holder, spender) else 0;
      MoveAllowances(s, operator, token, from, to, amount, at, holder, who);
    }
    MoveAllowances(s, operator, token, from, to, amount, at, holder, spender);
    MoveBalances(s, operator, token, from, to, amount, at, holder);
  }

  lemma SimpleSpends(d: Deployment, now: nat, s: State, c: Call, at: Address)
    requires !Guarded(c) && !c.Frame? && Limited(s.ledger, at, d.adapter, d.exchange)
    requires Attempt(d, now, s, c).Done?
    ensures var l' := Attempt(d, now, s, c).state.ledger;
      Limited(l', at, d.adapter, d.exchange)
      && Kept(l', at, d.adapter, d.exchange) >= Kept(s.ledger, at, d.adapter, d.exchange)
  {
    match c {
      case TokenTransferFrom(caller, token, from, to, amount) =>
        MoveSpends(s, caller, token, from, to, amount, at, d.adapter, d.exchange);
      case TokenMove(caller, token, to, amount) =>
        MoveSpends(s, caller, token, caller, to, amount, at, d.adapter, d.exchange);
      case TokenApprove(caller, token, spender, amount) =>
        SameGrants(s.ledger, s.ledger.Approve(token, caller, spender, amount), at, d.adapter, d.exchange);
      case TokenMint(_, token, to, amount) =>
        SameGrants(s.ledger, s.ledger.Credit(token, to, amount), at, d.adapter, d.exchange);
      case _ =>
    }
  }

  lemma {:induction false} ExecSpends(d: Deployment, now: nat, s: State, c: Call, at: Address)
    requires s.locked && Catalogued(d, s) && Limited(s.ledger, at, d.adapter, d.exchange)
    ensures var l' := Exec(d, now, s, c).ledger;
      Limited(l', at, d.adapter, d.exchange)
      && Kept(l', at, d.adapter, d.exchange) >= Kept(s.ledger, at, d.adapter, d.exchange)
    decreases c, 1
  {
    if Guarded(c) {
      LockBlocks(d, now, s, c);
    } else if Attempt(d, now, s, c).Done? {
      if c.Frame? {
        RunSpends(d, now, s, c.calls, at);
      } else {
        SimpleSpends(d, now, s, c, at);
      }
    }
  }

  /** Whatever a locked script does, it takes no more from the adapter than it uses up of its grant. */
  lemma {:induction false} RunSpends(d: Deployment, now: nat, s: State, calls: seq<Call>, at: Address)
    requires s.locked && Catalogued(d, s) && Limited(s.ledger, at, d.adapter, d.exchange)
    ensures var l' := Run(d, now, s, calls).ledger;
      Limited(l', at, d.adapter, d.exchange)
      && Kept(l', at, d.adapter, d.exchange) >= Kept(s.ledger, at, d.adapter, d.exchange)
    decreases calls, 0
  {
    if calls != [] {
      var mid := Exec(d, now, s, calls[0]);
      ExecSpends(d, now, s, calls[0], at);
      ExecStable(d, now, s, calls[0]);
      RunSpends(d, now, mid, calls[1..], at);
    }
  }

  // Where an allowance of 2^256 - 1 means no limit, the balance itself is one, as long as it fits a word.
  predicate Countable(l: Ledger, token: Address, holder: Address, amount: Word)
  {
    amount < UNLIMITED || l.Balance(token, holder) <= UNLIMITED
  }

  /** Whatever code the venue and the token run during a swap, the adapter loses at most the amount of its input
      token, and none of any other token. */
  lemma VenueTakesAtMost(d: Deployment, now: nat, s: State, tokenIn: Address, amountIn: Word, callee: Callee,
                         token: Address)
    requires s.locked && d.self != d.adapter
    requires Grantless(s.ledger, d.self) && Grantless(s.ledger, d.adapter) && Catalogued(d, s)
    requires Countable(s.ledger, tokenIn, d.adapter, amountIn)
    ensures Swapped(d, now, s, tokenIn, amountIn, callee).ledger.Balance(token, d.adapter)
      >= s.ledger.Balance(token, d.adapter) - if token == tokenIn then amountIn else 0
  {
    SwapDrifts(d, now, s, tokenIn, amountIn, callee);
    if token == tokenIn && amountIn < UNLIMITED {
      var m, after := VenueFinds(d, now, s, tokenIn, amountIn, callee);
      assert m.ledger.Allowance(tokenIn, d.adapter, d.exchange) == amountIn;
      RunSpends(d, now, m, callee.calls, tokenIn);
      ClearedSpares(d, now, m, after, tokenIn, callee);
    }
  }

  lemma ClearedSpares(d: Deployment, now: nat, m: State, after: State, tokenIn: Address, callee: Callee)
    requires m.locked && Catalogued(d, m)
      && Limited(Run(d, now, m, callee.calls).ledger, tokenIn, d.adapter, d.exchange)
    requires after.ledger == Run(d, now, m, callee.calls).ledger.Approve(tokenIn, d.adapter, d.exchange, 0)
    requires after == Run(d, now, m, callee.calls).(ledger := after.ledger)
    ensures Run(d, now, after, callee.clearing).ledger.Balance(tokenIn, d.adapter)
      >= Run(d, now, m, callee.calls).ledger.Balance(tokenIn, d.adapter)
  {
    var ran := Run(d, now, m, callee.calls);
    RunStable(d, now, m, callee.calls);
    SameCatalogue(d, ran, after);
    RunStable(d, now, after, callee.clearing);
    assert NoGrant(after.ledger, tokenIn, d.adapter) by {
      forall who: Address
        ensures after.ledger.Allowance(tokenIn, d.adapter, who) == 0
      {
        assert ran.ledger.Allowance(tokenIn, d.adapter, who)
            == if who == d.exchange then ran.ledger.Allowance(tokenIn, d.adapter, d.exchange) else 0;
      }
    }
  }

  // What a token call takes from and brings to the adapter, at least.
  lemma CallSpares(d: Deployment, now: nat, s: State, operator: Address, token: Address, from: Address, to: Address,
                   amount: nat, hook: Hook, t: Address)
    requires s.locked && Catalogued(d, s) && Grantless(s.ledger, d.adapter)
    requires CallToken(d, now, s, operator, token, from, to, amount, hook).Done?
    requires operator != d.adapter ==> from != d.adapter
    ensures CallToken(d, now, s, operator, token, from, to, amount, hook).state.ledger.Balance(t, d.adapter)
      >= s.ledger.Balance(t, d.adapter) + if t == token then Shift(from, to, amount, d.adapter) else 0
  {
    var s1 := Run(d, now, s, hook.before);
    var s2 := MoveUnits(s1, operator, token, from, to, amount).state;
    RunStable(d, now, s, hook.before);
    ScriptSparesAdapter(d, now, s, hook.before);
    MoveBalances(s1, operator, token, from, to, amount, t, d.adapter);
    GrantlessAfterMove(s1, operator, token, from, to, amount, d.adapter);
    SameCatalogue(d, s1, s2);
    ScriptSparesAdapter(d, now, s2, hook.after);
  }

  lemma TradeSpares(d: Deployment, now: nat, s: State, tokenIn: Address, amountIn: Word, data: Bytes, callee: Callee,
                    t: Address)
    requires s.locked && d.self != d.adapter
    requires Grantless(s.ledger, d.self) && Grantless(s.ledger, d.adapter) && Catalogued(d, s)
    requires Countable(s.ledger, tokenIn, d.adapter, amountIn)
    requires V2Step(d, now, s, d.self, tokenIn, amountIn, data, callee).AdapterDone?
    ensures V2Step(d, now, s, d.self, tokenIn, amountIn, data, callee).state.ledger.Balance(t, d.adapter)
      >= s.ledger.Balance(t, d.adapter) - if t == tokenIn then amountIn else 0
  {
    var r, swapped, measured, sent := V2Forwards(d, now, s, tokenIn, amountIn, data, callee);
    var tokenOut := r.path[|r.path| - 1];
    SwapDrifts(d, now, s, tokenIn, amountIn, callee);
    VenueTakesAtMost(d, now, s, tokenIn, amountIn, callee, t);
    CallSpares(d, now, swapped, d.adapter, tokenOut, d.adapter, d.self, measured, callee.output, t);
  }

  /** An execution through the V2 adapter, whatever tokens and venue do in it, leaves the adapter with no less of
      any token than it held before: what it spends is the amount it was handed, and what it forwards it gained. */
  lemma AdapterKeepsItsOwn(d: Deployment, now: nat, s: State, a: RouteAuthorization, signature: Bytes, data: Bytes,
                           x: Externals, t: Address)
    requires Reachable(d, s) && a.adapter == d.adapter
    requires ExecuteStep(d, now, s, a, signature, data, x).Done?
    requires HandOver(d, now, s, a, x).Done? ==>
      Countable(HandOver(d, now, s, a, x).state.ledger, s.Intent(a.intentId).tokenIn, d.adapter,
                s.Intent(a.intentId).amount)
    ensures ExecuteStep(d, now, s, a, signature, data, x).state.ledger.Balance(t, d.adapter)
      >= s.ledger.Balance(t, d.adapter)
  {
    ReachableInv(d, s);
    var back, amountOut := ExecuteUnfolds(d, now, s, a, signature, data, x);
    var i, handed := s.intents[a.intentId], HandOver(d, now, s, a, x).state;
    SameCatalogue(d, s, s.(locked := true));
    CallSpares(d, now, s.(locked := true), d.self, i.tokenIn, d.self, d.adapter, i.amount, x.input, t);
    HandedSound(d, now, s, a, x);
    ReturnedByV2(d, now, s, a, data, x);
    TradeSpares(d, now, handed, i.tokenIn, i.amount, data, x.callee, t);
    PayoutSpares(d, now, s, a, data, x, back, amountOut, t);
  }

  lemma PayoutSpares(d: Deployment, now: nat, s: State, a: RouteAuthorization, data: Bytes, x: Externals, back: State,
                     amountOut: nat, t: Address)
    requires Inv(d, s) && a.intentId in s.intents && s.intents[a.intentId].status == Funded
    requires HandOver(d, now, s, a, x).Done? && Returned(d, now, s, a, data, x).AdapterDone?
    requires back == Returned(d, now, s, a, data, x).state && Payout(d, now, back, a, amountOut, x.output).Done?
    ensures Payout(d, now, back, a, amountOut, x.output).state.ledger.Balance(t, d.adapter)
      >= back.ledger.Balance(t, d.adapter)
  {
    var i := s.intents[a.intentId];
    BackDrifts(d, now, s, a, data, x, back);
    assert a.intentId in s.(locked := true).intents && Recorded(d, s, a.intentId);
    PayoutSends(d, now, back, a, amountOut, x.output);
    StatusCatalogued(d, back, back.SetStatus(a.intentId, Executed), a.intentId, Executed);
    CallSpares(d, now, back.SetStatus(a.intentId, Executed), d.self, a.tokenOut, d.self, i.owner, amountOut, x.output,
               t);
  }

  // ---------------------------------------------------------------- an honest venue

  const SILENT := Hook([], [], false)

  /** The venue pulls the amount it was asked to swap and sends what it gives for it. */
  function Swapping(d: Deployment, tokenIn: Address, amountIn: Word, tokenOut: Address, out: Word): seq<Call>
  {
    [TokenTransferFrom(d.exchange, tokenIn, d.adapter, d.exchange, amountIn),
     TokenMove(d.exchange, tokenOut, d.adapter, out)]
  }

  // What the tokens record of that.
  function Swaps(d: Deployment, tokenIn: Address, amountIn: Word, tokenOut: Address, out: Word): (es: seq<Event>)
    ensures |es| == 2
  {
    [Transfer(d.exchange, tokenIn, d.adapter, d.exchange, amountIn),
     Transfer(d.exchange, tokenOut, d.exchange, d.adapter, out)]
  }

  function HonestCallee(d: Deployment, tokenIn: Address, amountIn: Word, tokenOut: Address, out: Word): Callee
  {
    Callee([], Swapping(d, tokenIn, amountIn, tokenOut, out), [], tokenOut, SILENT, false)
  }

  function HonestExternals(d: Deployment, a: RouteAuthorization, out: Word): Externals
  {
    Externals(SILENT, HonestCallee(d, a.tokenIn, a.maximumAmount, a.tokenOut, out), SILENT)
  }

  /** All that two movements, one in each token, do to the balances. */
  ghost predicate Exchanged(l: Ledger, l': Ledger, tokenIn: Address, from: Address, mid: Address, amountIn: nat,
                            tokenOut: Address, to: Address, out: nat)
  {
    forall t: Address, who: Address ::
      l'.Balance(t, who) == l.Balance(t, who)
        + (if t == tokenIn then Shift(from, mid, amountIn, who)
           else if t == tokenOut then Shift(mid, to, out, who) else 0)
  }

  ghost predicate SameAllowances(l: Ledger, l': Ledger)
  {
    forall t: Address, who: Address, spender: Address :: l'.Allowance(t, who, spender) == l.Allowance(t, who, spender)
  }

  lemma RunTwo(d: Deployment, now: nat, s: State, x: Call, y: Call)
    ensures Run(d, now, s, [x, y]) == Exec(d, now, Exec(d, now, s, x), y)
  {
    assert [x, y][1..] == [y] && [y][1..] == [];
    assert Run(d, now, s, [x, y]) == Run(d, now, Exec(d, now, s, x), [y]);
  }

  lemma SilentSwap(d: Deployment, now: nat, s: State, tokenIn: Address, amountIn: Word, callee: Callee)
    returns (m: State, ran: State)
    requires callee.approving == [] && callee.clearing == []
    ensures m == s.(adapterLocked := true, ledger := s.ledger.Approve(tokenIn, d.adapter, d.exchange, amountIn))
    ensures ran == Run(d, now, m, callee.calls)
    ensures Swapped(d, now, s, tokenIn, amountIn, callee)
      == ran.(ledger := ran.ledger.Approve(tokenIn, d.adapter, d.exchange, 0))
  {
    var shut := s.(adapterLocked := true);
    m := shut.(ledger := shut.ledger.Approve(tokenIn, d.adapter, d.exchange, amountIn));
    ran := Run(d, now, m, callee.calls);
    assert Run(d, now, shut, callee.approving) == shut;
    var ventured := Ventured(d, now, shut, tokenIn, amountIn, callee.calls);
    assert Run(d, now, ventured, callee.clearing) == ventured;
  }

  lemma PullAndSend(d: Deployment, now: nat, m: State, tokenIn: Address, amountIn: Word, tokenOut: Address, out: Word)
    returns (pulled: State, ran: State)
    requires d.exchange !in {d.self, d.adapter} && tokenIn != tokenOut
    requires m.ledger.Balance(tokenIn, d.adapter) >= amountIn && m.ledger.Balance(tokenOut, d.exchange) >= out
    requires m.ledger.Allowance(tokenIn, d.adapter, d.exchange) >= amountIn
    ensures ran == Run(d, now, m, Swapping(d, tokenIn, amountIn, tokenOut, out))
    ensures MovedBy(m.ledger, pulled.ledger, d.exchange, tokenIn, d.adapter, d.exchange, amountIn)
    ensures MovedBy(pulled.ledger, ran.ledger, d.exchange, tokenOut, d.exchange, d.adapter, out)
    ensures ran == m.(ledger := ran.ledger, events := m.events + Swaps(d, tokenIn, amountIn, tokenOut, out))
  {
    var script := Swapping(d, tokenIn, amountIn, tokenOut, out);
    var pull, send := script[0], script[1];
    RunTwo(d, now, m, pull, send);
    MoveExact(m, d.exchange, tokenIn, d.adapter, d.exchange, amountIn);
    pulled := MoveUnits(m, d.exchange, tokenIn, d.adapter, d.exchange, amountIn).state;
    MoveExact(pulled, d.exchange, tokenOut, d.exchange, d.adapter, out);
    assert Exec(d, now, m, pull) == pulled;
    ran := Exec(d, now, pulled, send);
    assert ran == MoveUnits(pulled, d.exchange, tokenOut, d.exchange, d.adapter, out).state;
    var recorded := Swaps(d, tokenIn, amountIn, tokenOut, out);
    assert m.events + [recorded[0]] + [recorded[1]] == m.events + [recorded[0], recorded[1]];
  }

  lemma BothWays(l: Ledger, l0: Ledger, l1: Ledger, l2: Ledger, l3: Ledger, tokenIn: Address, holder: Address,
                 venue: Address, amountIn: Word, tokenOut: Address, out: Word)
    requires holder != venue && tokenIn != tokenOut && NoGrant(l, tokenIn, holder)
    requires l0 == l.Approve(tokenIn, holder, venue, amountIn)
    requires MovedBy(l0, l1, venue, tokenIn, holder, venue, amountIn)
    requires MovedBy(l1, l2, venue, tokenOut, venue, holder, out)
    requires l3 == l2.Approve(tokenIn, holder, venue, 0)
    ensures Exchanged(l, l3, tokenIn, holder, venue, amountIn, tokenOut, holder, out)
    ensures SameAllowances(l, l3)
  {
    forall t: Address, who: Address
      ensures l3.Balance(t, who) == l.Balance(t, who)
        + (if t == tokenIn then Shift(holder, venue, amountIn, who)
           else if t == tokenOut then Shift(venue, holder, out, who) else 0)
    {
      assert l1.Balance(t, who)
          == l0.Balance(t, who) + if t == tokenIn then Shift(holder, venue, amountIn, who) else 0;
      assert l2.Balance(t, who) == l1.Balance(t, who) + if t == tokenOut then Shift(venue, holder, out, who) else 0;
    }
    forall t: Address, who: Address, spender: Address
      ensures l3.Allowance(t, who, spender) == l.Allowance(t, who, spender)
    {
      assert l.Allowance(tokenIn, holder, venue) == 0;
    }
  }

  /** Inside the adapter, the two movements an honest venue makes: the grant is just what the first needs. */
  lemma HonestSwap(d: Deployment, now: nat, s: State, tokenIn: Address, amountIn: Word, tokenOut: Address, out: Word)
    returns (w: State)
    requires d.exchange !in {d.self, d.adapter} && tokenIn != tokenOut
    requires Grantless(s.ledger, d.adapter)
    requires s.ledger.Balance(tokenIn, d.adapter) >= amountIn && s.ledger.Balance(tokenOut, d.exchange) >= out
    ensures w == Swapped(d, now, s, tokenIn, amountIn, HonestCallee(d, tokenIn, amountIn, tokenOut, out))
    ensures w == s.(adapterLocked := true, ledger := w.ledger,
                    events := s.events + Swaps(d, tokenIn, amountIn, tokenOut, out))
    ensures Exchanged(s.ledger, w.ledger, tokenIn, d.adapter, d.exchange, amountIn, tokenOut, d.adapter, out)
    ensures SameAllowances(s.ledger, w.ledger)
  {
    var m, ran := SilentSwap(d, now, s, tokenIn, amountIn, HonestCallee(d, tokenIn, amountIn, tokenOut, out));
    w := ran.(ledger := ran.ledger.Approve(tokenIn, d.adapter, d.exchange, 0));
    var pulled, ran' := PullAndSend(d, now, m, tokenIn, amountIn, tokenOut, out);
    assert NoGrant(s.ledger, tokenIn, d.adapter);
    BothWays(s.ledger, m.ledger, pulled.ledger, ran.ledger, w.ledger, tokenIn, d.adapter, d.exchange, amountIn,
             tokenOut, out);
  }

  lemma SilentCall(d: Deployment, now: nat, s: State, operator: Address, token: Address, from: Address, to: Address,
                   amount: nat)
    ensures CallToken(d, now, s, operator, token, from, to, amount, SILENT)
      == MoveUnits(s, operator, token, from, to, amount)
  {
  }

  lemma GuardedTrade(d: Deployment, now: nat, s: State, a: RouteAuthorization, amountIn: Word, data: Bytes,
                     callee: Callee)
    requires !s.adapterLocked && Agrees(a, data) && a.tokenOut != 0 && now <= a.deadline && a.tokenIn != a.tokenOut
    ensures V2Step(d, now, s, d.self, a.tokenIn, amountIn, data, callee)
      == Trade(d, now, s, a.tokenIn, amountIn, a.tokenOut, a.minimumOutput, callee)
  {
    V2Trades(d, now, s, a.tokenIn, amountIn, data, callee);
    V2GuardPasses(d, now, s, a, data);
  }

  // The adapter measures `out`, and passes it on if it is enough.
  lemma OutMeasured(d: Deployment, now: nat, s: State, tokenIn: Address, amountIn: Word, tokenOut: Address,
                    minimum: nat, callee: Callee, w: State, out: nat)
    requires !callee.reverts && callee.output == SILENT
    requires w == Swapped(d, now, s, tokenIn, amountIn, callee)
    requires w.ledger.Balance(tokenOut, d.adapter) == s.ledger.Balance(tokenOut, d.adapter) + out
    ensures Trade(d, now, s, tokenIn, amountIn, tokenOut, minimum, callee) ==
      if out < minimum then AdapterRevert(InvalidOutput)
      else Sent(MoveUnits(w, d.adapter, tokenOut, d.adapter, d.self, out), tokenOut)
  {
    TradeUnfolds(d, now, s, tokenIn, amountIn, tokenOut, minimum, callee);
    SilentCall(d, now, w, d.adapter, tokenOut, d.adapter, d.self, out);
  }

  /** The adapter's turn with an honest venue: it succeeds exactly when the venue sends the minimum, and then the
      router has what was sent. */
  lemma HonestReturn(d: Deployment, now: nat, s: State, a: RouteAuthorization, amountIn: Word, data: Bytes, out: Word)
    returns (w: State, back: State)
    requires d.exchange !in {d.self, d.adapter} && d.self != d.adapter && a.tokenIn != a.tokenOut
    requires !s.adapterLocked && Agrees(a, data) && a.tokenOut != 0 && now <= a.deadline
    requires Grantless(s.ledger, d.adapter)
    requires s.ledger.Balance(a.tokenIn, d.adapter) >= amountIn && s.ledger.Balance(a.tokenOut, d.exchange) >= out
    ensures var o := V2Step(d, now, s, d.self, a.tokenIn, amountIn, data,
                            HonestCallee(d, a.tokenIn, amountIn, a.tokenOut, out));
      o == if out >= a.minimumOutput then AdapterDone(back, a.tokenOut) else AdapterRevert(InvalidOutput)
    ensures Exchanged(s.ledger, w.ledger, a.tokenIn, d.adapter, d.exchange, amountIn, a.tokenOut, d.adapter, out)
    ensures SameAllowances(s.ledger, w.ledger)
    ensures MovedBy(w.ledger, back.ledger, d.adapter, a.tokenOut, d.adapter, d.self, out)
    ensures back == s.(ledger := back.ledger,
                       events := s.events + Swaps(d, a.tokenIn, amountIn, a.tokenOut, out)
                                 + [Transfer(d.adapter, a.tokenOut, d.adapter, d.self, out)])
  {
    var callee := HonestCallee(d, a.tokenIn, amountIn, a.tokenOut, out);
    w := HonestSwap(d, now, s, a.tokenIn, amountIn, a.tokenOut, out);
    assert w.ledger.Balance(a.tokenOut, d.adapter) == s.ledger.Balance(a.tokenOut, d.adapter) + out;
    GuardedTrade(d, now, s, a, amountIn, data, callee);
    OutMeasured(d, now, s, a.tokenIn, amountIn, a.tokenOut, a.minimumOutput, callee, w, out);
    MoveExact(w, d.adapter, a.tokenOut, d.adapter, d.self, out);
    back := MoveUnits(w, d.adapter, a.tokenOut, d.adapter, d.self, out).state.(adapterLocked := false);
  }

  /** What an honest execution leaves: the amount in the venue, its output with the owner, the intent executed,
      six lines in the log, and no other change. */
  ghost predicate HonestlySettled(d: Deployment, s: State, a: RouteAuthorization, out: Word, s': State)
    requires a.intentId in s.intents
  {
    var i := s.intents[a.intentId];
    && Exchanged(s.ledger, s'.ledger, i.tokenIn, d.self, d.exchange, i.amount, a.tokenOut, i.owner, out)
    && SameAllowances(s.ledger, s'.ledger)
    && s' == s.(intents := s.intents[a.intentId := i.(status := Executed)], ledger := s'.ledger,
                events := s.events + [Transfer(d.self, i.tokenIn, d.self, d.adapter, i.amount)]
                          + Swaps(d, i.tokenIn, i.amount, a.tokenOut, out)
                          + [Transfer(d.adapter, a.tokenOut, d.adapter, d.self, out)]
                          + [Transfer(d.self, a.tokenOut, d.self, i.owner, out)]
                          + [IntentExecuted(a.intentId, a.adapter, a.tokenOut, i.amount, out)])
  }

  lemma HonestHandOver(d: Deployment, now: nat, s: State, a: RouteAuthorization, x: Externals)
    returns (handed: State)
    requires Inv(d, s) && s.Intent(a.intentId).status == Funded && a.adapter != d.self && x.input == SILENT
    ensures HandOver(d, now, s, a, x) == Done(handed)
    ensures var i := s.intents[a.intentId];
      && MovedBy(s.ledger, handed.ledger, d.self, i.tokenIn, d.self, a.adapter, i.amount)
      && handed == s.(locked := true, ledger := handed.ledger,
                      events := s.events + [Transfer(d.self, i.tokenIn, d.self, a.adapter, i.amount)])
  {
    var i := s.intents[a.intentId];
    HandOverSucceeds(d, now, s, a, x);
    SilentCall(d, now, s.(locked := true), d.self, i.tokenIn, d.self, a.adapter, i.amount);
    MoveExact(s.(locked := true), d.self, i.tokenIn, d.self, a.adapter, i.amount);
    handed := HandOver(d, now, s, a, x).state;
  }

  lemma HonestPayout(d: Deployment, now: nat, s: State, a: RouteAuthorization, amountOut: nat)
    requires a.intentId in s.intents && s.ledger.Balance(a.tokenOut, d.self) >= amountOut >= a.minimumOutput
    ensures var i, o := s.intents[a.intentId], Payout(d, now, s, a, amountOut, SILENT);
      && o.Done?
      && MovedBy(s.ledger, o.state.ledger, d.self, a.tokenOut, d.self, i.owner, amountOut)
      && o.state == s.(locked := false, intents := s.intents[a.intentId := i.(status := Executed)],
                       ledger := o.state.ledger,
                       events := s.events + [Transfer(d.self, a.tokenOut, d.self, i.owner, amountOut)]
                                 + [IntentExecuted(a.intentId, a.adapter, a.tokenOut, i.amount, amountOut)])
  {
    var i, m := s.intents[a.intentId], s.SetStatus(a.intentId, Executed);
    SilentCall(d, now, m, d.self, a.tokenOut, d.self, i.owner, amountOut);
    MoveExact(m, d.self, a.tokenOut, d.self, i.owner, amountOut);
  }

  lemma Through(d: Deployment, l: Ledger, l1: Ledger, l2: Ledger, l3: Ledger, l4: Ledger, tokenIn: Address,
                amountIn: Word, tokenOut: Address, out: Word, owner: Address)
    requires tokenIn != tokenOut
    requires MovedBy(l, l1, d.self, tokenIn, d.self, d.adapter, amountIn)
    requires Exchanged(l1, l2, tokenIn, d.adapter, d.exchange, amountIn, tokenOut, d.adapter, out)
    requires SameAllowances(l1, l2)
    requires MovedBy(l2, l3, d.adapter, tokenOut, d.adapter, d.self, out)
    requires MovedBy(l3, l4, d.self, tokenOut, d.self, owner, out)
    ensures Exchanged(l, l4, tokenIn, d.self, d.exchange, amountIn, tokenOut, owner, out)
    ensures SameAllowances(l, l4)
  {
    forall t: Address, who: Address
      ensures l4.Balance(t, who) == l.Balance(t, who)
        + (if t == tokenIn then Shift(d.self, d.exchange, amountIn, who)
           else if t == tokenOut then Shift(d.exchange, owner, out, who) else 0)
    {
      assert l1.Balance(t, who)
          == l.Balance(t, who) + if t == tokenIn then Shift(d.self, d.adapter, amountIn, who) else 0;
      assert l3.Balance(t, who) == l2.Balance(t, who) + if t == tokenOut then Shift(d.adapter, d.self, out, who) else 0;
      assert l4.Balance(t, who) == l3.Balance(t, who) + if t == tokenOut then Shift(d.self, owner, out, who) else 0;
    }
  }

  lemma OutputUntouched(d: Deployment, s: State, a: RouteAuthorization, handed: Ledger, w: Ledger, back: Ledger,
                        amountIn: Word, out: Word)
    requires a.tokenIn == s.Intent(a.intentId).tokenIn != a.tokenOut && d.exchange !in {d.self, d.adapter}
      && d.self != d.adapter
    requires MovedBy(s.ledger, handed, d.self, a.tokenIn, d.self, d.adapter, amountIn)
    requires Exchanged(handed, w, a.tokenIn, d.adapter, d.exchange, amountIn, a.tokenOut, d.adapter, out)
    requires MovedBy(w, back, d.adapter, a.tokenOut, d.adapter, d.self, out)
    ensures back.Balance(a.tokenOut, d.self) == Baseline(d, s, a) + out
    ensures Baseline(d, s, a) >= 0
  {
    assert handed.Balance(a.tokenOut, d.self) == s.ledger.Balance(a.tokenOut, d.self);
    assert w.Balance(a.tokenOut, d.self) == handed.Balance(a.tokenOut, d.self);
  }

  // The events in between.
  function TradeLog(d: Deployment, s: State, a: RouteAuthorization, i: Intent, out: Word): seq<Event>
  {
    s.events + [Transfer(d.self, i.tokenIn, d.self, d.adapter, i.amount)]
      + Swaps(d, i.tokenIn, i.amount, a.tokenOut, out)
    + [Transfer(d.adapter, a.tokenOut, d.adapter, d.self, out)]
  }

  lemma HonestFinish(d: Deployment, now: nat, s: State, a: RouteAuthorization, handed: Ledger, w: Ledger, back: State,
                     out: Word)
    requires a.intentId in s.intents && !s.locked && a.adapter == d.adapter && d.exchange !in {d.self, d.adapter}
      && d.self != d.adapter
    requires a.tokenIn == s.intents[a.intentId].tokenIn != a.tokenOut && out >= a.minimumOutput
    requires a.maximumAmount == s.intents[a.intentId].amount
    requires MovedBy(s.ledger, handed, d.self, a.tokenIn, d.self, d.adapter, a.maximumAmount)
    requires Exchanged(handed, w, a.tokenIn, d.adapter, d.exchange, a.maximumAmount, a.tokenOut, d.adapter, out)
    requires SameAllowances(handed, w) && MovedBy(w, back.ledger, d.adapter, a.tokenOut, d.adapter, d.self, out)
    requires back == s.(locked := true, ledger := back.ledger,
                        events := TradeLog(d, s, a, s.intents[a.intentId], out))
    ensures var o := Finish(d, now, s.ledger.Balance(a.tokenOut, d.self), a, back, a.tokenOut, SILENT);
      o.Done? && HonestlySettled(d, s, a, out, o.state)
  {
    OutputUntouched(d, s, a, handed, w, back.ledger, a.maximumAmount, out);
    HonestPayout(d, now, back, a, out);
    FinishPays(d, now, s, a, back, a.tokenOut, SILENT);
    Through(d, s.ledger, handed, w, back.ledger, Payout(d, now, back, a, out, SILENT).state.ledger, a.tokenIn,
            a.maximumAmount, a.tokenOut, out, s.intents[a.intentId].owner);
  }

  /** Past the guard, step by step. */
  lemma HonestProceeds(d: Deployment, now: nat, s: State, a: RouteAuthorization, data: Bytes, out: Word)
    requires Inv(d, s) && a.adapter == d.adapter && d.exchange !in {d.self, d.adapter}
    requires s.Intent(a.intentId).status == Funded && now <= a.deadline && a.tokenOut != 0
    requires a.tokenIn == s.Intent(a.intentId).tokenIn && a.maximumAmount == s.Intent(a.intentId).amount
    requires Agrees(a, data) && a.tokenOut != a.tokenIn && s.ledger.Balance(a.tokenOut, d.exchange) >= out
    ensures var o := Proceed(d, now, s, a, data, HonestExternals(d, a, out));
      && (o.Done? <==> out >= a.minimumOutput)
      && (o.Done? ==> HonestlySettled(d, s, a, out, o.state))
  {
    var x := HonestExternals(d, a, out);
    var handed := HonestHandOver(d, now, s, a, x);
    HandedSound(d, now, s, a, x);
    var w, back := HonestReturn(d, now, handed, a, a.maximumAmount, data, out);
    ReturnedByV2(d, now, s, a, data, x);
    ProceedUnfolds(d, now, s, a, data, x);
    if out >= a.minimumOutput {
      HonestFinish(d, now, s, a, handed.ledger, w.ledger, back, out);
    }
  }

  /** An authorized V2 execution with tokens that run no code of their own and an honest venue, which takes what it
      was granted and sends `out` of what it holds, succeeds exactly when that is the minimum at least; then the
      amount has gone from the router to the venue, `out` from the venue to the owner, and nothing else changed. */
  lemma HonestTrade(d: Deployment, now: nat, s: State, a: RouteAuthorization, signature: Bytes, data: Bytes, out: Word)
    requires Reachable(d, s) && a.adapter == d.adapter && d.exchange !in {d.self, d.adapter}
    requires Admitted(d, now, s, a, signature, data) && Agrees(a, data) && a.tokenOut != a.tokenIn
    requires s.ledger.Balance(a.tokenOut, d.exchange) >= out
    ensures var o := ExecuteStep(d, now, s, a, signature, data, HonestExternals(d, a, out));
      && (o.Done? <==> out >= a.minimumOutput)
      && (o.Done? ==> HonestlySettled(d, s, a, out, o.state))
  {
    ReachableInv(d, s);
    GuardExact(d, now, s, a, signature, data);
    PastGuard(d, now, s, a, signature, data, HonestExternals(d, a, out));
    HonestProceeds(d, now, s, a, data, out);
  }
}
