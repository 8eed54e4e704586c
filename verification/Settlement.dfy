/** The four guarded entry points and the adapter, seen from outside: one intent changes status, one
    announcement is made, exactly the movements it claims take place, and no surplus is ever spent. */
module Settlement {
  import opened Abi
  import opened Bytes
  import opened Custody
  import opened CustodyLog
  import opened Interference
  import opened MapSums
  import opened RouterTypes
  import opened Wrappers

  // What one movement does to the router's balance of a token.
  function Delta(d: Deployment, m: Move, token: Address): int
  {
    if m.token != token then 0
    else (if m.to == d.self then m.units else 0) - (if m.from == d.self then m.units else 0)
  }

  function Net(d: Deployment, moves: seq<Move>, token: Address): int
  {
    if moves == [] then 0 else Net(d, moves[..|moves| - 1], token) + Delta(d, moves[|moves| - 1], token)
  }

  /** Everything but the router's own writes to intents: foreign code ran, and the router ordered `moves`. */
  ghost predicate Drift(d: Deployment, s: State, s': State, moves: seq<Move>)
  {
    && s'.locked == s.locked && s'.adapterLocked == s.adapterLocked
    && Extended(s.intents, s'.intents)
    && Grantless(s'.ledger, d.self)
    && (Grantless(s.ledger, d.adapter) ==> Grantless(s'.ledger, d.adapter))
    && (forall token: Address ::
          s'.ledger.Balance(token, d.self) >= s.ledger.Balance(token, d.self) + Net(d, moves, token))
    && RouterMoves(d, s'.events) == RouterMoves(d, s.events) + moves
    && Announcements(s'.events) == Announcements(s.events)
    && StoriesKept(s, s')
    && Signers(s.events) <= Signers(s'.events)
    && (SignerKnown(s) ==> SignerKnown(s'))
    && Catalogued(d, s')
  }

  lemma {:induction false} NetAppend(d: Deployment, a: seq<Move>, b: seq<Move>, token: Address)
    ensures Net(d, a + b, token) == Net(d, a, token) + Net(d, b, token)
  {
    if b == [] {
      assert a + b == a;
    } else {
      NetAppend(d, a, b[..|b| - 1], token);
      assert (a + b)[..|a + b| - 1] == a + b[..|b| - 1];
    }
  }

  lemma DriftTransitive(d: Deployment, s0: State, s1: State, s2: State, a: seq<Move>, b: seq<Move>)
    requires Drift(d, s0, s1, a) && Drift(d, s1, s2, b)
    ensures Drift(d, s0, s2, a + b)
  {
    forall token: Address
      ensures s2.ledger.Balance(token, d.self) >= s0.ledger.Balance(token, d.self) + Net(d, a + b, token)
    {
      NetAppend(d, a, b, token);
      assert s2.ledger.Balance(token, d.self) >= s1.ledger.Balance(token, d.self) + Net(d, b, token);
      assert s1.ledger.Balance(token, d.self) >= s0.ledger.Balance(token, d.self) + Net(d, a, token);
    }
    StoriesTransitive(s0, s1, s2);
  }

  lemma StoriesTransitive(s0: State, s1: State, s2: State)
    requires StoriesKept(s0, s1) && StoriesKept(s1, s2)
    requires Extended(s0.intents, s1.intents) && Extended(s1.intents, s2.intents)
    ensures StoriesKept(s0, s2)
  {
    forall id: Word
      ensures Story(s2.events, id) == Story(s0.events, id) +
        if id in s2.intents && id !in s0.intents then [IntentCreated(id, s2.intents[id])] else []
    {
      assert Story(s1.events, id) == Story(s0.events, id) +
        if id in s1.intents && id !in s0.intents then [IntentCreated(id, s1.intents[id])] else [];
    }
  }

  lemma StableDrifts(d: Deployment, s: State, s': State)
    requires Stable(d, s, s') && Frozen(s.ledger, s'.ledger, d.adapter)
    requires Grantless(s.ledger, d.self) && Catalogued(d, s)
    ensures Drift(d, s, s', [])
  {
    GrantlessKept(s.ledger, s'.ledger, d.self);
    if Grantless(s.ledger, d.adapter) {
      GrantlessKept(s.ledger, s'.ledger, d.adapter);
    }
    forall token: Address
      ensures s'.ledger.Balance(token, d.self) >= s.ledger.Balance(token, d.self)
    {
      assert NoGrant(s.ledger, token, d.self);
    }
  }

  lemma ScriptDrifts(d: Deployment, now: nat, s: State, calls: seq<Call>)
    requires s.locked && Grantless(s.ledger, d.self) && Catalogued(d, s)
    ensures Drift(d, s, Run(d, now, s, calls), [])
  {
    RunStable(d, now, s, calls);
    StableDrifts(d, s, Run(d, now, s, calls));
  }

  lemma GrantlessAfterMove(s: State, operator: Address, token: Address, from: Address, to: Address, amount: nat,
                           who: Address)
    requires MoveUnits(s, operator, token, from, to, amount).Done?
    ensures Grantless(s.ledger, who) ==> Grantless(MoveUnits(s, operator, token, from, to, amount).state.ledger, who)
  {
    MoveShrunk(s, operator, token, from, to, amount, who);
    if Grantless(s.ledger, who) {
      GrantlessKept(s.ledger, MoveUnits(s, operator, token, from, to, amount).state.ledger, who);
    }
  }

  lemma SingleMove(d: Deployment, m: Move)
    ensures forall token: Address :: Net(d, [m], token) == Delta(d, m, token)
  {
    assert [m][..0] == [];
  }

  lemma OwnMoveBalances(d: Deployment, s: State, token: Address, from: Address, to: Address, amount: nat, t: Address)
    requires MoveUnits(s, d.self, token, from, to, amount).Done?
    ensures MoveUnits(s, d.self, token, from, to, amount).state.ledger.Balance(t, d.self)
      == s.ledger.Balance(t, d.self) + Delta(d, Move(token, from, to, amount), t)
  {
  }

  lemma OwnMoveLog(d: Deployment, s: State, token: Address, from: Address, to: Address, amount: nat)
    requires MoveUnits(s, d.self, token, from, to, amount).Done?
    ensures var s' := MoveUnits(s, d.self, token, from, to, amount).state;
      && RouterMoves(d, s'.events) == RouterMoves(d, s.events) + [Move(token, from, to, amount)]
      && Announcements(s'.events) == Announcements(s.events)
      && StoriesKept(s, s')
      && Signers(s'.events) == Signers(s.events)
  {
    Logged(d, s.events, Transfer(d.self, token, from, to, amount));
  }

  lemma OwnMoveBooks(d: Deployment, s: State, token: Address, from: Address, to: Address, amount: nat)
    requires MoveUnits(s, d.self, token, from, to, amount).Done?
    ensures var s', m := MoveUnits(s, d.self, token, from, to, amount).state, Move(token, from, to, amount);
      forall t: Address :: s'.ledger.Balance(t, d.self) >= s.ledger.Balance(t, d.self) + Net(d, [m], t)
  {
    SingleMove(d, Move(token, from, to, amount));
    forall t: Address
      ensures MoveUnits(s, d.self, token, from, to, amount).state.ledger.Balance(t, d.self)
        >= s.ledger.Balance(t, d.self) + Net(d, [Move(token, from, to, amount)], t)
    {
      OwnMoveBalances(d, s, token, from, to, amount, t);
    }
  }

  /** The bare movement inside a token call the router makes: to pull, or to send its own. */
  lemma OwnMoveDrifts(d: Deployment, s: State, token: Address, from: Address, to: Address, amount: nat)
    requires Grantless(s.ledger, d.self) && Catalogued(d, s)
    requires MoveUnits(s, d.self, token, from, to, amount).Done?
    requires from != d.adapter
    ensures Drift(d, s, MoveUnits(s, d.self, token, from, to, amount).state, [Move(token, from, to, amount)])
  {
    var s' := MoveUnits(s, d.self, token, from, to, amount).state;
    OwnMoveLog(d, s, token, from, to, amount);
    OwnMoveBooks(d, s, token, from, to, amount);
    SameCatalogue(d, s, s');
    GrantlessAfterMove(s, d.self, token, from, to, amount, d.self);
    GrantlessAfterMove(s, d.self, token, from, to, amount, d.adapter);
  }

  /** A token call the router makes under its lock, hooks included. */
  lemma TokenCallDrifts(d: Deployment, now: nat, s: State, token: Address, from: Address, to: Address, amount: nat,
                        hook: Hook)
    requires s.locked && Grantless(s.ledger, d.self) && Catalogued(d, s) && from != d.adapter
    requires CallToken(d, now, s, d.self, token, from, to, amount, hook).Done?
    ensures Drift(d, s, CallToken(d, now, s, d.self, token, from, to, amount, hook).state,
                  [Move(token, from, to, amount)])
  {
    var s1 := Run(d, now, s, hook.before);
    var s2 := MoveUnits(s1, d.self, token, from, to, amount).state;
    var s3 := Run(d, now, s2, hook.after);
    var moves := [Move(token, from, to, amount)];
    ScriptDrifts(d, now, s, hook.before);
    OwnMoveDrifts(d, s1, token, from, to, amount);
    ScriptDrifts(d, now, s2, hook.after);
    DriftTransitive(d, s, s1, s2, [], moves);
    DriftTransitive(d, s, s2, s3, moves, []);
    assert [] + moves == moves && moves + [] == moves;
  }

  // ---------------------------------------------------------------- the adapter

  /** The adapter's account keeps its guard through other people's code. */
  lemma ScriptSparesAdapter(d: Deployment, now: nat, s: State, calls: seq<Call>)
    requires s.locked && Grantless(s.ledger, d.adapter) && Catalogued(d, s)
    ensures var s' := Run(d, now, s, calls);
      && Grantless(s'.ledger, d.adapter)
      && forall token: Address :: s'.ledger.Balance(token, d.adapter) >= s.ledger.Balance(token, d.adapter)
  {
    var s' := Run(d, now, s, calls);
    RunStable(d, now, s, calls);
    GrantlessKept(s.ledger, s'.ledger, d.adapter);
    forall token: Address
      ensures s'.ledger.Balance(token, d.adapter) >= s.ledger.Balance(token, d.adapter)
    {
      assert NoGrant(s.ledger, token, d.adapter);
    }
  }

  /** The venue's turn: whatever it does, only tokenIn was at its disposal, and nothing is left granted. */
  lemma VentureDrifts(d: Deployment, now: nat, s: State, tokenIn: Address, amountIn: Word, calls: seq<Call>)
    requires s.locked && Grantless(s.ledger, d.self) && Grantless(s.ledger, d.adapter) && Catalogued(d, s)
    requires d.self != d.adapter
    ensures var s' := Ventured(d, now, s, tokenIn, amountIn, calls);
      && Drift(d, s, s', [])
      && Grantless(s'.ledger, d.adapter)
      && forall token: Address ::
        token != tokenIn ==> s'.ledger.Balance(token, d.adapter) >= s.ledger.Balance(token, d.adapter)
  {
    var approved := s.(ledger := s.ledger.Approve(tokenIn, d.adapter, d.exchange, amountIn));
    var after := Run(d, now, approved, calls);
    var s' := Ventured(d, now, s, tokenIn, amountIn, calls);
    SameCatalogue(d, s, approved);
    ApproveShrunk(s.ledger, tokenIn, d.adapter, d.exchange, amountIn, d.self);
    GrantlessKept(s.ledger, approved.ledger, d.self);
    RunStable(d, now, approved, calls);
    ScriptDrifts(d, now, approved, calls);
    SameCatalogue(d, after, s');
    ApproveShrunk(after.ledger, tokenIn, d.adapter, d.exchange, 0, d.self);
    GrantlessKept(after.ledger, s'.ledger, d.self);
    forall token: Address
      ensures NoGrant(s'.ledger, token, d.adapter)
      ensures token != tokenIn ==> s'.ledger.Balance(token, d.adapter) >= s.ledger.Balance(token, d.adapter)
    {
      ClearedGrant(s.ledger, approved.ledger, after.ledger, d, token, tokenIn, amountIn);
    }
  }

  /** The same with the input token's own code around both approvals. */
  lemma SwapDrifts(d: Deployment, now: nat, s: State, tokenIn: Address, amountIn: Word, callee: Callee)
    requires s.locked && Grantless(s.ledger, d.self) && Grantless(s.ledger, d.adapter) && Catalogued(d, s)
    requires d.self != d.adapter
    ensures var s' := Swapped(d, now, s, tokenIn, amountIn, callee);
      && Drift(d, s.(adapterLocked := true), s', [])
      && Grantless(s'.ledger, d.adapter)
      && forall token: Address ::
        token != tokenIn ==> s'.ledger.Balance(token, d.adapter) >= s.ledger.Balance(token, d.adapter)
  {
    var shut := s.(adapterLocked := true);
    var asked := Run(d, now, shut, callee.approving);
    var ventured := Ventured(d, now, asked, tokenIn, amountIn, callee.calls);
    SameCatalogue(d, s, shut);
    ScriptDrifts(d, now, shut, callee.approving);
    ScriptSparesAdapter(d, now, shut, callee.approving);
    VentureDrifts(d, now, asked, tokenIn, amountIn, callee.calls);
    ScriptDrifts(d, now, ventured, callee.clearing);
    ScriptSparesAdapter(d, now, ventured, callee.clearing);
    DriftTransitive(d, shut, asked, ventured, [], []);
    DriftTransitive(d, shut, ventured, Run(d, now, ventured, callee.clearing), [], []);
  }

  lemma ClearedGrant(l: Ledger, approved: Ledger, after: Ledger, d: Deployment, token: Address, tokenIn: Address,
                     amountIn: Word)
    requires NoGrant(l, token, d.adapter)
    requires approved == l.Approve(tokenIn, d.adapter, d.exchange, amountIn)
    requires Frozen(approved, after, d.adapter)
    ensures NoGrant(after.Approve(tokenIn, d.adapter, d.exchange, 0), token, d.adapter)
    ensures token != tokenIn ==> after.Balance(token, d.adapter) >= l.Balance(token, d.adapter)
  {
    forall spender: Address
      ensures after.Approve(tokenIn, d.adapter, d.exchange, 0).Allowance(token, d.adapter, spender) == 0
      ensures token != tokenIn ==> approved.Allowance(token, d.adapter, spender) == 0
    {
      assert l.Allowance(token, d.adapter, spender) == 0;
      assert after.Allowance(token, d.adapter, spender) <= approved.Allowance(token, d.adapter, spender);
    }
    assert token != tokenIn ==> NoGrant(approved, token, d.adapter);
  }

  /** A transfer the adapter orders, hooks included: the router is no poorer and announces nothing. */
  lemma AdapterTransferDrifts(d: Deployment, now: nat, s: State, token: Address, amount: nat, hook: Hook)
    requires s.locked && Grantless(s.ledger, d.self) && Grantless(s.ledger, d.adapter) && Catalogued(d, s)
    requires d.self != d.adapter
    requires CallToken(d, now, s, d.adapter, token, d.adapter, d.self, amount, hook).Done?
    ensures var s' := CallToken(d, now, s, d.adapter, token, d.adapter, d.self, amount, hook).state;
      && Drift(d, s, s', [])
      && s'.ledger.Balance(token, d.self) >= s.ledger.Balance(token, d.self) + amount
      && s'.ledger.Balance(token, d.adapter) >= s.ledger.Balance(token, d.adapter) - amount
  {
    var s1 := Run(d, now, s, hook.before);
    var s2 := MoveUnits(s1, d.adapter, token, d.adapter, d.self, amount).state;
    var s3 := Run(d, now, s2, hook.after);
    RunStable(d, now, s, hook.before);
    ScriptDrifts(d, now, s, hook.before);
    assert NoGrant(s.ledger, token, d.adapter) && NoGrant(s.ledger, token, d.self);
    MoveStable(d, s1, d.adapter, token, d.adapter, d.self, amount);
    GrantlessAfterMove(s1, d.adapter, token, d.adapter, d.self, amount, d.self);
    GrantlessAfterMove(s1, d.adapter, token, d.adapter, d.self, amount, d.adapter);
    assert Drift(d, s1, s2, []) by {
      forall t: Address
        ensures s2.ledger.Balance(t, d.self) >= s1.ledger.Balance(t, d.self)
      {
        assert NoGrant(s1.ledger, t, d.self);
      }
    }
    RunStable(d, now, s2, hook.after);
    ScriptDrifts(d, now, s2, hook.after);
    DriftTransitive(d, s, s1, s2, [], []);
    DriftTransitive(d, s, s2, s3, [], []);
    assert NoGrant(s2.ledger, token, d.adapter) && NoGrant(s2.ledger, token, d.self);
  }

  /** What a successful execution measured. */
  function V2Amount(d: Deployment, now: nat, s: State, tokenIn: Address, amountIn: Word, data: Bytes,
                    callee: Callee): int
    requires V2Guard(d, now, s, d.self, tokenIn, data).Ok?
  {
    var path := V2Guard(d, now, s, d.self, tokenIn, data).value.path;
    Swapped(d, now, s, tokenIn, amountIn, callee).ledger.Balance(path[|path| - 1], d.adapter)
      - s.ledger.Balance(path[|path| - 1], d.adapter)
  }

  /** What a trade is, once the swapped state is known. */
  lemma TradeUnfolds(d: Deployment, now: nat, s: State, tokenIn: Address, amountIn: Word, tokenOut: Address,
                     minimum: nat, callee: Callee)
    ensures var swapped := Swapped(d, now, s, tokenIn, amountIn, callee);
      var gained := swapped.ledger.Balance(tokenOut, d.adapter) - s.ledger.Balance(tokenOut, d.adapter);
      Trade(d, now, s, tokenIn, amountIn, tokenOut, minimum, callee) ==
        if callee.reverts then AdapterRevert(CalleeFailure)
        else if gained < 0 then AdapterRevert(Arithmetic)
        else if gained < minimum then AdapterRevert(InvalidOutput)
        else Sent(CallToken(d, now, swapped, d.adapter, tokenOut, d.adapter, d.self, gained, callee.output), tokenOut)
  {
    if !callee.reverts {
      assert Trade(d, now, s, tokenIn, amountIn, tokenOut, minimum, callee)
          == PassOn(d, now, s.ledger.Balance(tokenOut, d.adapter), Swapped(d, now, s, tokenIn, amountIn, callee),
                    tokenOut, minimum, callee.output);
    }
  }

  lemma V2GuardSays(d: Deployment, now: nat, s: State, tokenIn: Address, data: Bytes)
    ensures var g := V2Guard(d, now, s, d.self, tokenIn, data);
      g.Ok? ==> !s.adapterLocked && g.value.path[|g.value.path| - 1] != tokenIn && g.value.amountOutMin > 0
  {
  }

  lemma TradeForwards(d: Deployment, now: nat, s: State, swapped: State, tokenIn: Address, amountIn: Word,
                      tokenOut: Address, minimum: nat, callee: Callee)
    returns (amountOut: nat, sent: State)
    requires swapped == Swapped(d, now, s, tokenIn, amountIn, callee)
    requires Trade(d, now, s, tokenIn, amountIn, tokenOut, minimum, callee).AdapterDone?
    ensures amountOut == swapped.ledger.Balance(tokenOut, d.adapter) - s.ledger.Balance(tokenOut, d.adapter) >= minimum
    ensures CallToken(d, now, swapped, d.adapter, tokenOut, d.adapter, d.self, amountOut, callee.output) == Done(sent)
    ensures Trade(d, now, s, tokenIn, amountIn, tokenOut, minimum, callee)
      == AdapterDone(sent.(adapterLocked := false), tokenOut)
  {
    TradeUnfolds(d, now, s, tokenIn, amountIn, tokenOut, minimum, callee);
    amountOut := swapped.ledger.Balance(tokenOut, d.adapter) - s.ledger.Balance(tokenOut, d.adapter);
    sent := CallToken(d, now, swapped, d.adapter, tokenOut, d.adapter, d.self, amountOut, callee.output).state;
  }

  // The adapter's return once its own transfer is done.
  function Sent(o: Outcome, tokenOut: Address): AdapterOutcome
  {
    match o
    case Revert(e) => AdapterRevert(e)
    case Done(forwarded) => AdapterDone(forwarded.(adapterLocked := false), tokenOut)
  }

  lemma V2Trades(d: Deployment, now: nat, s: State, tokenIn: Address, amountIn: Word, data: Bytes, callee: Callee)
    ensures V2Step(d, now, s, d.self, tokenIn, amountIn, data, callee) ==
      match V2Guard(d, now, s, d.self, tokenIn, data)
      case Err(e) => AdapterRevert(e)
      case Ok(r) => Trade(d, now, s, tokenIn, amountIn, r.path[|r.path| - 1], r.amountOutMin, callee)
  {
  }

  /** A successful adapter execution: the decoded route, the swapped state, what was measured and sent. */
  lemma V2Forwards(d: Deployment, now: nat, s: State, tokenIn: Address, amountIn: Word, data: Bytes, callee: Callee)
    returns (r: V2Route, swapped: State, amountOut: nat, sent: State)
    requires V2Step(d, now, s, d.self, tokenIn, amountIn, data, callee).AdapterDone?
    ensures !s.adapterLocked && V2Guard(d, now, s, d.self, tokenIn, data) == Ok(r)
    ensures swapped == Swapped(d, now, s, tokenIn, amountIn, callee)
    ensures amountOut == V2Amount(d, now, s, tokenIn, amountIn, data, callee) >= r.amountOutMin > 0
    ensures var tokenOut := r.path[|r.path| - 1];
      && tokenOut != tokenIn
      && CallToken(d, now, swapped, d.adapter, tokenOut, d.adapter, d.self, amountOut, callee.output) == Done(sent)
      && V2Step(d, now, s, d.self, tokenIn, amountIn, data, callee)
        == AdapterDone(sent.(adapterLocked := false), tokenOut)
  {
    V2Trades(d, now, s, tokenIn, amountIn, data, callee);
    V2GuardSays(d, now, s, tokenIn, data);
    r := V2Guard(d, now, s, d.self, tokenIn, data).value;
    swapped := Swapped(d, now, s, tokenIn, amountIn, callee);
    amountOut, sent := TradeForwards(d, now, s, swapped, tokenIn, amountIn, r.path[|r.path| - 1], r.amountOutMin,
                                     callee);
  }

  lemma AdapterUnlocks(d: Deployment, s: State, t: State)
    requires Drift(d, s.(adapterLocked := true), t, []) && !s.adapterLocked
    ensures Drift(d, s, t.(adapterLocked := false), [])
  {
    SameCatalogue(d, t, t.(adapterLocked := false));
  }

  /** The V2 adapter's whole execution, seen from the router's books. */
  lemma V2Drifts(d: Deployment, now: nat, s: State, tokenIn: Address, amountIn: Word, data: Bytes, callee: Callee)
    requires s.locked && Grantless(s.ledger, d.self) && Grantless(s.ledger, d.adapter) && Catalogued(d, s)
    requires d.self != d.adapter
    requires V2Step(d, now, s, d.self, tokenIn, amountIn, data, callee).AdapterDone?
    ensures Drift(d, s, V2Step(d, now, s, d.self, tokenIn, amountIn, data, callee).state, [])
  {
    var r := V2Guard(d, now, s, d.self, tokenIn, data).value;
    TradeDrifts(d, now, s, tokenIn, amountIn, r.path[|r.path| - 1], r.amountOutMin, callee);
  }

  lemma TradeDrifts(d: Deployment, now: nat, s: State, tokenIn: Address, amountIn: Word, tokenOut: Address,
                    minimum: nat, callee: Callee)
    requires s.locked && Grantless(s.ledger, d.self) && Grantless(s.ledger, d.adapter) && Catalogued(d, s)
    requires d.self != d.adapter && !s.adapterLocked
    requires Trade(d, now, s, tokenIn, amountIn, tokenOut, minimum, callee).AdapterDone?
    ensures Drift(d, s, Trade(d, now, s, tokenIn, amountIn, tokenOut, minimum, callee).state, [])
  {
    var swapped := SwapSound(d, now, s, tokenIn, amountIn, callee);
    var amountOut, sent := TradeForwards(d, now, s, swapped, tokenIn, amountIn, tokenOut, minimum, callee);
    ForwardDrifts(d, now, s, swapped, tokenOut, amountOut, callee.output, sent);
  }

  /** The swap's drift under its own name. */
  lemma SwapSound(d: Deployment, now: nat, s: State, tokenIn: Address, amountIn: Word, callee: Callee)
    returns (swapped: State)
    requires s.locked && Grantless(s.ledger, d.self) && Grantless(s.ledger, d.adapter) && Catalogued(d, s)
    requires d.self != d.adapter
    ensures swapped == Swapped(d, now, s, tokenIn, amountIn, callee)
    ensures Drift(d, s.(adapterLocked := true), swapped, []) && Grantless(swapped.ledger, d.adapter)
  {
    swapped := Swapped(d, now, s, tokenIn, amountIn, callee);
    SwapDrifts(d, now, s, tokenIn, amountIn, callee);
  }

  /** The adapter forwards what it gained and unlocks. */
  lemma ForwardDrifts(d: Deployment, now: nat, s: State, swapped: State, tokenOut: Address, amountOut: nat,
                      output: Hook, sent: State)
    requires s.locked && !s.adapterLocked && d.self != d.adapter
    requires Drift(d, s.(adapterLocked := true), swapped, []) && Grantless(swapped.ledger, d.adapter)
    requires CallToken(d, now, swapped, d.adapter, tokenOut, d.adapter, d.self, amountOut, output) == Done(sent)
    ensures Drift(d, s, sent.(adapterLocked := false), [])
  {
    AdapterTransferDrifts(d, now, swapped, tokenOut, amountOut, output);
    DriftTransitive(d, s.(adapterLocked := true), swapped, sent, [], []);
    AdapterUnlocks(d, s, sent);
  }

  /** The adapter's balance of the output token never falls, and the router's rises by at least what was
      measured, which is at least the minimum in the calldata. */
  lemma V2Gains(d: Deployment, now: nat, s: State, tokenIn: Address, amountIn: Word, data: Bytes, callee: Callee)
    requires s.locked && Grantless(s.ledger, d.self) && Grantless(s.ledger, d.adapter) && Catalogued(d, s)
    requires d.self != d.adapter
    requires V2Step(d, now, s, d.self, tokenIn, amountIn, data, callee).AdapterDone?
    ensures V2Guard(d, now, s, d.self, tokenIn, data).Ok?
    ensures var AdapterDone(s', tokenOut) := V2Step(d, now, s, d.self, tokenIn, amountIn, data, callee);
      var measured := V2Amount(d, now, s, tokenIn, amountIn, data, callee);
      && tokenOut != tokenIn
      && measured >= V2Guard(d, now, s, d.self, tokenIn, data).value.amountOutMin > 0
      && s'.ledger.Balance(tokenOut, d.adapter) >= s.ledger.Balance(tokenOut, d.adapter)
      && s'.ledger.Balance(tokenOut, d.self) >= s.ledger.Balance(tokenOut, d.self) + measured
  {
    var r, swapped, measured, sent := V2Forwards(d, now, s, tokenIn, amountIn, data, callee);
    ForwardGains(d, now, s, tokenIn, amountIn, callee, r.path[|r.path| - 1], swapped, measured, sent);
  }

  lemma ForwardGains(d: Deployment, now: nat, s: State, tokenIn: Address, amountIn: Word, callee: Callee,
                     tokenOut: Address, swapped: State, measured: nat, sent: State)
    requires s.locked && Grantless(s.ledger, d.self) && Grantless(s.ledger, d.adapter) && Catalogued(d, s)
    requires d.self != d.adapter && tokenOut != tokenIn && swapped == Swapped(d, now, s, tokenIn, amountIn, callee)
    requires measured == swapped.ledger.Balance(tokenOut, d.adapter) - s.ledger.Balance(tokenOut, d.adapter)
    requires CallToken(d, now, swapped, d.adapter, tokenOut, d.adapter, d.self, measured, callee.output) == Done(sent)
    ensures sent.ledger.Balance(tokenOut, d.adapter) >= s.ledger.Balance(tokenOut, d.adapter)
    ensures sent.ledger.Balance(tokenOut, d.self) >= s.ledger.Balance(tokenOut, d.self) + measured
  {
    SwapDrifts(d, now, s, tokenIn, amountIn, callee);
    AdapterTransferDrifts(d, now, swapped, tokenOut, measured, callee.output);
    assert swapped.ledger.Balance(tokenOut, d.self) >= s.ledger.Balance(tokenOut, d.self) + Net(d, [], tokenOut);
  }

  /** The output token of a successful execution is the last of the decoded path. */
  lemma V2Output(d: Deployment, now: nat, s: State, tokenIn: Address, amountIn: Word, data: Bytes, callee: Callee)
    requires V2Step(d, now, s, d.self, tokenIn, amountIn, data, callee).AdapterDone?
    ensures V2Guard(d, now, s, d.self, tokenIn, data).Ok? && DecodeRoute(data).Some?
    ensures var r := DecodeRoute(data).value;
      && V2Guard(d, now, s, d.self, tokenIn, data).value == r
      && 2 <= |r.path| <= 4
      && V2Step(d, now, s, d.self, tokenIn, amountIn, data, callee).tokenOut == r.path[|r.path| - 1] != tokenIn
  {
    var r, swapped, measured, sent := V2Forwards(d, now, s, tokenIn, amountIn, data, callee);
  }

  lemma AdapterDrifts(d: Deployment, now: nat, s: State, adapter: Address, tokenIn: Address, amount: Word,
                      data: Bytes, callee: Callee)
    requires s.locked && !s.adapterLocked && d.self != d.adapter
    requires Grantless(s.ledger, d.self) && Grantless(s.ledger, d.adapter) && Catalogued(d, s)
    requires CallAdapter(d, now, s, adapter, tokenIn, amount, data, callee).AdapterDone?
    ensures adapter != d.self
    ensures Drift(d, s, CallAdapter(d, now, s, adapter, tokenIn, amount, data, callee).state, [])
  {
    if adapter == d.adapter {
      V2Drifts(d, now, s, tokenIn, amount, data, callee);
    } else {
      ScriptDrifts(d, now, s, callee.calls);
    }
  }

  // ---------------------------------------------------------------- guarded entry points

  /** One intent moves to `status` and one announcement is made of exactly what was moved; nobody's
      surplus in the router shrinks, in any token. */
  ghost predicate Settled(d: Deployment, s: State, s': State, id: Word, status: Status, e: Event)
  {
    && Settling(e) && e.id == id
    && Rewritten(s.intents, s'.intents, id, status)
    && StoriesTold(s, s', e)
    && Booked(d, s, s', id, e)
    && Sound(d, s, s')
    && (forall token: Address :: Surplus(d, s', token) >= Surplus(d, s, token))
  }

  /** The log gained one announcement, and the movements it claims. */
  ghost predicate Booked(d: Deployment, s: State, s': State, id: Word, e: Event)
    requires id in s.intents
  {
    && Announcements(s'.events) == Announcements(s.events) + [e]
    && RouterMoves(d, s'.events) == RouterMoves(d, s.events) + Claimed(d, e, s.intents[id])
  }

  ghost predicate Sound(d: Deployment, s: State, s': State)
  {
    && !s'.locked && s'.adapterLocked == s.adapterLocked
    && Grantless(s'.ledger, d.self) && (Grantless(s.ledger, d.adapter) ==> Grantless(s'.ledger, d.adapter))
    && Signers(s.events) <= Signers(s'.events)
    && (SignerKnown(s) ==> SignerKnown(s'))
    && Catalogued(d, s')
  }

  ghost predicate Rewritten(intents: map<Word, Intent>, intents': map<Word, Intent>, id: Word, status: Status)
  {
    && id in intents && id in intents' && intents'[id] == intents[id].(status := status)
    && (forall j | j in intents && j != id :: j in intents' && intents'[j] == intents[j])
    && (forall j | j in intents' && j !in intents :: intents'[j].status == Created)
  }

  ghost predicate StoriesTold(s: State, s': State, e: Event)
    requires Settling(e)
  {
    forall id: Word :: Story(s'.events, id) == Story(s.events, id) + Told(s, s', e, id)
  }

  lemma ExtendedSum(a: map<Word, Intent>, b: map<Word, Intent>, token: Address)
    requires Extended(a, b)
    ensures FundedSum(a, token) == FundedSum(b, token)
  {
    assert FundedAmounts(a, token) == FundedAmounts(b, token);
  }

  lemma StatusCatalogued(d: Deployment, s: State, s': State, id: Word, status: Status)
    requires Catalogued(d, s) && id in s.intents && status != Missing
    requires s'.intents == s.intents[id := s.intents[id].(status := status)]
    requires s'.nextIntentNonce == s.nextIntentNonce
    ensures Catalogued(d, s')
  {
    forall j: Word
      ensures Recorded(d, s', j)
    {
      assert Recorded(d, s, j);
    }
    forall j: Word, k: Word
      ensures Distinguished(s', j, k)
    {
      assert Distinguished(s, j, k);
    }
    forall who: Address, n: Uint64
      ensures Held(s', who, n)
    {
      HeldStill(s, s', who, n, id, status);
    }
  }

  lemma HeldStill(s: State, s': State, who: Address, n: Uint64, id: Word, status: Status)
    requires Held(s, who, n) && id in s.intents
    requires s'.intents == s.intents[id := s.intents[id].(status := status)]
    requires s'.nextIntentNonce == s.nextIntentNonce
    ensures Held(s', who, n)
  {
    if n < s.Nonce(who) {
      var j :| j in s.intents && s.intents[j].owner == who && s.intents[j].nonce == n;
      assert j in s'.intents && s'.intents[j].owner == who && s'.intents[j].nonce == n;
    }
  }

  /** The frame of every guarded entry point: foreign code and movements before the status write, more
      after it, then the announcement. All but the balances is settled here. */
  lemma Bracket(d: Deployment, s: State, a: State, b: State, id: Word, status: Status, e: Event,
                before: seq<Move>, after: seq<Move>)
    requires id in s.intents && status != Missing && Settling(e) && e.id == id
    requires Drift(d, s.(locked := true), a, before)
    requires Drift(d, a.SetStatus(id, status), b, after)
    requires before + after == Claimed(d, e, s.intents[id])
    ensures var s' := b.Emit(e).(locked := false);
      && Rewritten(s.intents, s'.intents, id, status)
      && StoriesTold(s, s', e)
      && Booked(d, s, s', id, e)
      && Sound(d, s, s')
  {
    var s' := b.Emit(e).(locked := false);
    BracketIntents(s, a, b, id, status);
    assert StoriesTold(s, s', e) by {
      Logged(d, b.events, e);
      BracketStories(s, a, b, s', id, status, e);
    }
    BracketBooks(d, s, a, b, id, e, before, after);
    BracketSound(d, s, a, b, id, status, e, before, after);
  }

  lemma BracketBooks(d: Deployment, s: State, a: State, b: State, id: Word, e: Event, before: seq<Move>,
                     after: seq<Move>)
    requires id in s.intents && Settling(e)
    requires RouterMoves(d, a.events) == RouterMoves(d, s.events) + before
    requires RouterMoves(d, b.events) == RouterMoves(d, a.events) + after
    requires Announcements(b.events) == Announcements(s.events)
    requires before + after == Claimed(d, e, s.intents[id])
    ensures Booked(d, s, b.Emit(e).(locked := false), id, e)
  {
    Logged(d, b.events, e);
    var x := RouterMoves(d, s.events);
    assert x + before + after == x + (before + after);
  }

  lemma BracketSound(d: Deployment, s: State, a: State, b: State, id: Word, status: Status, e: Event,
                     before: seq<Move>, after: seq<Move>)
    requires Settling(e)
    requires Drift(d, s.(locked := true), a, before) && Drift(d, a.SetStatus(id, status), b, after)
    ensures Sound(d, s, b.Emit(e).(locked := false))
  {
    Logged(d, b.events, e);
    SameCatalogue(d, b, b.Emit(e).(locked := false));
  }

  lemma BracketIntents(s: State, a: State, b: State, id: Word, status: Status)
    requires id in s.intents && Extended(s.intents, a.intents) && Extended(a.SetStatus(id, status).intents, b.intents)
    ensures Rewritten(s.intents, b.intents, id, status)
  {
    assert a.Intent(id) == s.intents[id];
    var m := a.SetStatus(id, status);
    assert id in m.intents;
    forall j | j in s.intents && j != id
      ensures j in b.intents && b.intents[j] == s.intents[j]
    {
      assert j in m.intents;
    }
    forall j | j in b.intents && j !in s.intents
      ensures b.intents[j].status == Created
    {
      assert j in m.intents ==> j in a.intents;
    }
  }

  lemma BracketStories(s: State, a: State, b: State, s': State, id: Word, status: Status, e: Event)
    requires id in s.intents && Settling(e) && e.id == id
    requires Extended(s.intents, a.intents) && Extended(a.SetStatus(id, status).intents, b.intents)
    requires StoriesKept(s, a) && StoriesKept(a.SetStatus(id, status), b)
    requires s'.intents == b.intents
    requires forall j: Word :: Story(s'.events, j) == Story(b.events, j) + if e.id == j then [e] else []
    ensures StoriesTold(s, s', e)
  {
    forall j: Word
      ensures Story(s'.events, j) == Story(s.events, j) + Told(s, s', e, j)
    {
      StoryAcross(s, a, a.SetStatus(id, status), b, e, j);
    }
  }

  // What one settlement adds to the story of each intent.
  function Told(s: State, s': State, e: Event, id: Word): seq<Event>
    requires Settling(e)
  {
    if id in s'.intents && id !in s.intents then [IntentCreated(id, s'.intents[id])]
    else if id == e.id then [e] else []
  }

  lemma StoryAcross(s: State, a: State, m: State, b: State, e: Event, j: Word)
    requires Settling(e) && e.id in s.intents && m.events == a.events
    requires StoriesKept(s, a) && StoriesKept(m, b)
    requires j in s.intents ==> j in m.intents
    requires j in m.intents ==>
      j in b.intents && (j !in s.intents ==> j in a.intents && a.intents[j] == m.intents[j] == b.intents[j])
    requires j !in m.intents ==> j !in a.intents
    ensures Story(b.events, j) + (if e.id == j then [e] else []) == Story(s.events, j) + Told(s, b, e, j)
  {
    assert Story(b.events, j) == Story(m.events, j) +
      if j in b.intents && j !in m.intents then [IntentCreated(j, b.intents[j])] else [];
    assert Story(a.events, j) == Story(s.events, j) +
      if j in a.intents && j !in s.intents then [IntentCreated(j, a.intents[j])] else [];
  }

  /** What the router owes changes, over such a frame, by what that one intent is due. */
  lemma BracketSum(s: State, a: State, b: State, id: Word, status: Status, token: Address)
    requires id in s.intents && Extended(s.intents, a.intents) && Extended(a.SetStatus(id, status).intents, b.intents)
    ensures FundedSum(b.intents, token)
      == FundedSum(s.intents, token) - Due(s.intents[id], token) + Due(s.intents[id].(status := status), token)
  {
    ExtendedSum(s.intents, a.intents, token);
    FundedSumUpdate(a.intents, id, a.intents[id].(status := status), token);
    ExtendedSum(a.SetStatus(id, status).intents, b.intents, token);
  }

  lemma LockDrifts(d: Deployment, s: State)
    requires Grantless(s.ledger, d.self) && Catalogued(d, s)
    ensures Drift(d, s.(locked := true), s.(locked := true), [])
  {
    SameCatalogue(d, s, s.(locked := true));
  }

  /** An entry point that writes the status first and then makes at most one token call. */
  lemma StatusFirst(d: Deployment, s: State, b: State, id: Word, status: Status, e: Event)
    requires Grantless(s.ledger, d.self) && Catalogued(d, s)
    requires id in s.intents && status != Missing && Settling(e) && e.id == id
    requires Drift(d, s.(locked := true).SetStatus(id, status), b, Claimed(d, e, s.intents[id]))
    requires forall token: Address ::
      Net(d, Claimed(d, e, s.intents[id]), token)
        >= Due(s.intents[id].(status := status), token) - Due(s.intents[id], token)
    ensures Settled(d, s, b.Emit(e).(locked := false), id, status, e)
  {
    var a, moves := s.(locked := true), Claimed(d, e, s.intents[id]);
    LockDrifts(d, s);
    assert [] + moves == moves;
    Bracket(d, s, a, b, id, status, e, [], moves);
    forall token: Address
      ensures Surplus(d, b.Emit(e).(locked := false), token) >= Surplus(d, s, token)
    {
      BracketSum(s, a, b, id, status, token);
      assert b.ledger.Balance(token, d.self) >= s.ledger.Balance(token, d.self) + Net(d, moves, token);
    }
  }

  lemma LockedWrite(d: Deployment, s: State, id: Word, status: Status)
    requires Catalogued(d, s) && id in s.intents && status != Missing
    ensures Catalogued(d, s.(locked := true).SetStatus(id, status))
  {
    SameCatalogue(d, s, s.(locked := true));
    StatusCatalogued(d, s.(locked := true), s.(locked := true).SetStatus(id, status), id, status);
  }

  /** Funding, by either path. */
  lemma DepositSettles(d: Deployment, now: nat, s: State, id: Word, hook: Hook)
    requires d.self != d.adapter && Grantless(s.ledger, d.self) && Catalogued(d, s)
    requires id in s.intents && s.intents[id].status == Created
    requires Pull(d, now, s.(locked := true), id, hook).Done?
    ensures var paid, e := Pull(d, now, s.(locked := true), id, hook).state, IntentFunded(id, s.intents[id].amount);
      && paid.Intent(id) == s.intents[id].(status := Funded)
      && Settled(d, s, paid.Emit(e).(locked := false), id, Funded, e)
  {
    var i, m := s.intents[id], s.(locked := true).SetStatus(id, Funded);
    assert Recorded(d, s, id);
    LockedWrite(d, s, id, Funded);
    TokenCallDrifts(d, now, m, i.tokenIn, i.owner, d.self, i.amount, hook);
    SingleMove(d, Move(i.tokenIn, i.owner, d.self, i.amount));
    var b := CallToken(d, now, m, d.self, i.tokenIn, i.owner, d.self, i.amount, hook).state;
    assert id in m.intents;
    StatusFirst(d, s, b, id, Funded, IntentFunded(id, i.amount));
  }

  function Refund(i: Intent): Word
  {
    if i.status == Funded then i.amount else 0
  }

  /** A cancellation, refunding what a funded intent holds. */
  lemma CancelSettles(d: Deployment, now: nat, s: State, caller: Address, id: Word, hook: Hook)
    requires d.self != d.adapter && Grantless(s.ledger, d.self) && Catalogued(d, s)
    requires CancelStep(d, now, s, caller, id, hook).Done?
    ensures id in s.intents && s.intents[id].owner == caller
    ensures s.intents[id].status == Created || s.intents[id].status == Funded
    ensures Settled(d, s, CancelStep(d, now, s, caller, id, hook).state, id, Cancelled,
                    IntentCancelled(id, Refund(s.intents[id])))
  {
    var i := s.Intent(id);
    assert Recorded(d, s, id);
    LockedWrite(d, s, id, Cancelled);
    var m := s.(locked := true).SetStatus(id, Cancelled);
    if Refund(i) == 0 {
      LockDrifts(d, m);
      StatusFirst(d, s, m, id, Cancelled, IntentCancelled(id, 0));
    } else {
      TokenCallDrifts(d, now, m, i.tokenIn, d.self, i.owner, i.amount, hook);
      SingleMove(d, Move(i.tokenIn, d.self, i.owner, i.amount));
      var b := CallToken(d, now, m, d.self, i.tokenIn, d.self, i.owner, i.amount, hook).state;
      StatusFirst(d, s, b, id, Cancelled, IntentCancelled(id, i.amount));
    }
  }

  // ---------------------------------------------------------------- executeIntent

  /** The state once the input has been handed to the adapter. */
  function HandOver(d: Deployment, now: nat, s: State, a: RouteAuthorization, x: Externals): Outcome
  {
    var i := s.Intent(a.intentId);
    CallToken(d, now, s.(locked := true), d.self, i.tokenIn, d.self, a.adapter, i.amount, x.input)
  }

  /** The adapter's turn after that. */
  function Returned(d: Deployment, now: nat, s: State, a: RouteAuthorization, data: Bytes, x: Externals): AdapterOutcome
    requires HandOver(d, now, s, a, x).Done?
  {
    var i := s.Intent(a.intentId);
    CallAdapter(d, now, HandOver(d, now, s, a, x).state, a.adapter, i.tokenIn, i.amount, data, x.callee)
  }

  /** The balance of the output token that is not output of this execution. */
  function Baseline(d: Deployment, s: State, a: RouteAuthorization): int
  {
    var i := s.Intent(a.intentId);
    s.ledger.Balance(a.tokenOut, d.self) - if a.tokenOut == i.tokenIn then i.amount else 0
  }

  /** Under the lock, neither the hand-over nor the adapter can lower any of the router's balances
      beyond the amount handed over, or touch a stored intent. */
  lemma ReturnedDrifts(d: Deployment, now: nat, s: State, a: RouteAuthorization, data: Bytes, x: Externals)
    requires d.self != d.adapter && !s.adapterLocked
    requires Grantless(s.ledger, d.self) && Grantless(s.ledger, d.adapter) && Catalogued(d, s)
    requires HandOver(d, now, s, a, x).Done? && Returned(d, now, s, a, data, x).AdapterDone?
    ensures var i := s.Intent(a.intentId);
      && a.adapter != d.self
      && Drift(d, s.(locked := true), Returned(d, now, s, a, data, x).state,
               [Move(i.tokenIn, d.self, a.adapter, i.amount)])
  {
    var i := s.Intent(a.intentId);
    var locked, handed := s.(locked := true), HandOver(d, now, s, a, x).state;
    var move := Move(i.tokenIn, d.self, a.adapter, i.amount);
    SameCatalogue(d, s, locked);
    TokenCallDrifts(d, now, locked, i.tokenIn, d.self, a.adapter, i.amount, x.input);
    AdapterDrifts(d, now, handed, a.adapter, i.tokenIn, i.amount, data, x.callee);
    DriftTransitive(d, locked, handed, Returned(d, now, s, a, data, x).state, [move], []);
    assert [move] + [] == [move];
  }

  /** The subtractions executeIntent checks never underflow: solvency covers the first, and nothing but
      the router's own transfer can lower its balance before the second. */
  lemma MeasuresSafely(d: Deployment, now: nat, s: State, a: RouteAuthorization, data: Bytes, x: Externals)
    requires d.self != d.adapter && !s.adapterLocked
    requires Grantless(s.ledger, d.self) && Grantless(s.ledger, d.adapter) && Catalogued(d, s)
    requires s.Intent(a.intentId).status == Funded && Surplus(d, s, s.Intent(a.intentId).tokenIn) >= 0
    requires HandOver(d, now, s, a, x).Done? && Returned(d, now, s, a, data, x).AdapterDone?
    ensures 0 <= Baseline(d, s, a) <= Returned(d, now, s, a, data, x).state.ledger.Balance(a.tokenOut, d.self)
  {
    var i := s.Intent(a.intentId);
    var back := Returned(d, now, s, a, data, x).state;
    var move := Move(i.tokenIn, d.self, a.adapter, i.amount);
    ReturnedDrifts(d, now, s, a, data, x);
    SingleMove(d, move);
    assert back.ledger.Balance(a.tokenOut, d.self) >= s.ledger.Balance(a.tokenOut, d.self) + Net(d, [move], a.tokenOut);
    SumAtLeast(FundedAmounts(s.intents, i.tokenIn), a.intentId);
  }

  /** What the router relies on when an execution starts. */
  ghost predicate Sturdy(d: Deployment, s: State, id: Word)
  {
    && d.self != d.adapter && !s.adapterLocked
    && Grantless(s.ledger, d.self) && Grantless(s.ledger, d.adapter) && Catalogued(d, s)
    && id in s.intents
  }

  /** However often the intent is read again after foreign code ran, it reads the same. */
  lemma RereadsAlike(d: Deployment, now: nat, s: State, a: RouteAuthorization, data: Bytes, x: Externals)
    requires Sturdy(d, s, a.intentId) && HandOver(d, now, s, a, x).Done?
    ensures HandOver(d, now, s, a, x).state.Intent(a.intentId) == s.intents[a.intentId]
    ensures Returned(d, now, s, a, data, x).AdapterDone? ==>
      Returned(d, now, s, a, data, x).state.Intent(a.intentId) == s.intents[a.intentId]
  {
    var i, locked := s.intents[a.intentId], s.(locked := true);
    SameCatalogue(d, s, locked);
    TokenCallDrifts(d, now, locked, i.tokenIn, d.self, a.adapter, i.amount, x.input);
    assert a.intentId in locked.intents;
    if Returned(d, now, s, a, data, x).AdapterDone? {
      ReturnedDrifts(d, now, s, a, data, x);
    }
  }

  /** The state a successful execution pays out from, and the amount. */
  lemma ExecuteUnfolds(d: Deployment, now: nat, s: State, a: RouteAuthorization, signature: Bytes, data: Bytes,
                       x: Externals)
    returns (back: State, amountOut: nat)
    requires ExecuteStep(d, now, s, a, signature, data, x).Done? && Sturdy(d, s, a.intentId)
    ensures ExecuteGuard(d, now, s, a, signature, data).None?
    ensures HandOver(d, now, s, a, x).Done? && Returned(d, now, s, a, data, x) == AdapterDone(back, a.tokenOut)
    ensures amountOut == back.ledger.Balance(a.tokenOut, d.self) - Baseline(d, s, a) >= a.minimumOutput
    ensures ExecuteStep(d, now, s, a, signature, data, x) == Payout(d, now, back, a, amountOut, x.output)
  {
    PastGuard(d, now, s, a, signature, data, x);
    back, amountOut := ProceedDone(d, now, s, a, data, x);
  }

  lemma ProceedDone(d: Deployment, now: nat, s: State, a: RouteAuthorization, data: Bytes, x: Externals)
    returns (back: State, amountOut: nat)
    requires Proceed(d, now, s, a, data, x).Done? && Sturdy(d, s, a.intentId)
    ensures HandOver(d, now, s, a, x).Done? && Returned(d, now, s, a, data, x) == AdapterDone(back, a.tokenOut)
    ensures amountOut == back.ledger.Balance(a.tokenOut, d.self) - Baseline(d, s, a) >= a.minimumOutput
    ensures Proceed(d, now, s, a, data, x) == Payout(d, now, back, a, amountOut, x.output)
  {
    var returned := ProceedFinishes(d, now, s, a, data, x);
    back := returned.state;
    amountOut := FinishDone(d, now, s, a, back, returned.tokenOut, x.output);
  }

  /** A successful execution comes to the finish, from the state the adapter returned. */
  lemma ProceedFinishes(d: Deployment, now: nat, s: State, a: RouteAuthorization, data: Bytes, x: Externals)
    returns (back: AdapterOutcome)
    requires Sturdy(d, s, a.intentId)
    requires Proceed(d, now, s, a, data, x).Done?
      || (HandOver(d, now, s, a, x).Done? && Returned(d, now, s, a, data, x).AdapterDone?)
    ensures HandOver(d, now, s, a, x).Done? && Returned(d, now, s, a, data, x).AdapterDone?
    ensures back == Returned(d, now, s, a, data, x) && back.state.Intent(a.intentId) == s.Intent(a.intentId)
    ensures Proceed(d, now, s, a, data, x)
      == Finish(d, now, s.ledger.Balance(a.tokenOut, d.self), a, back.state, back.tokenOut, x.output)
  {
    ProceedUnfolds(d, now, s, a, data, x);
    back := Returned(d, now, s, a, data, x);
  }

  lemma FundedPastGuard(d: Deployment, now: nat, s: State, a: RouteAuthorization, signature: Bytes, data: Bytes,
                        x: Externals)
    requires ExecuteStep(d, now, s, a, signature, data, x).Done? && Catalogued(d, s)
    ensures !s.locked && a.intentId in s.intents && s.intents[a.intentId].status == Funded && Recorded(d, s, a.intentId)
  {
    PastGuard(d, now, s, a, signature, data, x);
  }

  lemma PastGuard(d: Deployment, now: nat, s: State, a: RouteAuthorization, signature: Bytes, data: Bytes, x: Externals)
    ensures var guard := ExecuteGuard(d, now, s, a, signature, data);
      ExecuteStep(d, now, s, a, signature, data, x)
        == if guard.Some? then Revert(guard.value) else Proceed(d, now, s, a, data, x)
  {
  }

  /** Past the guard, an execution is its hand-over, the adapter's turn and the finish, for the intent as it
      was read at first; and whatever the adapter did, the intent still reads so. */
  lemma ProceedUnfolds(d: Deployment, now: nat, s: State, a: RouteAuthorization, data: Bytes, x: Externals)
    requires Sturdy(d, s, a.intentId)
    ensures Proceed(d, now, s, a, data, x) ==
      match HandOver(d, now, s, a, x)
      case Revert(e) => Revert(e)
      case Done(_) =>
        match Returned(d, now, s, a, data, x)
        case AdapterRevert(e) => Revert(e)
        case AdapterDone(back, tokenOut) =>
          Finish(d, now, s.ledger.Balance(a.tokenOut, d.self), a, back, tokenOut, x.output)
    ensures HandOver(d, now, s, a, x).Done? && Returned(d, now, s, a, data, x).AdapterDone? ==>
      Returned(d, now, s, a, data, x).state.Intent(a.intentId) == s.intents[a.intentId]
  {
    if HandOver(d, now, s, a, x).Done? {
      RereadsAlike(d, now, s, a, data, x);
    }
  }

  lemma FinishDone(d: Deployment, now: nat, s: State, a: RouteAuthorization, back: State, tokenOut: Address,
                   output: Hook)
    returns (amountOut: nat)
    requires back.Intent(a.intentId) == s.Intent(a.intentId)
    requires Finish(d, now, s.ledger.Balance(a.tokenOut, d.self), a, back, tokenOut, output).Done?
    ensures tokenOut == a.tokenOut
      && amountOut == back.ledger.Balance(a.tokenOut, d.self) - Baseline(d, s, a) >= a.minimumOutput
    ensures Finish(d, now, s.ledger.Balance(a.tokenOut, d.self), a, back, tokenOut, output)
      == Payout(d, now, back, a, amountOut, output)
  {
    FinishPays(d, now, s, a, back, tokenOut, output);
    amountOut := back.ledger.Balance(a.tokenOut, d.self) - Baseline(d, s, a);
  }

  lemma MeasuredIs(d: Deployment, s: State, a: RouteAuthorization, back: State, tokenOut: Address)
    requires back.Intent(a.intentId) == s.Intent(a.intentId)
    ensures var amountOut := back.ledger.Balance(a.tokenOut, d.self) - Baseline(d, s, a);
      Measured(d, s.ledger.Balance(a.tokenOut, d.self), a, back, tokenOut) ==
        if tokenOut != a.tokenOut then Err(InvalidOutput)
        else if Baseline(d, s, a) < 0 || amountOut < 0 then Err(Arithmetic)
        else Ok(amountOut)
  {
  }

  lemma PaidEnough(d: Deployment, now: nat, s: State, a: RouteAuthorization, amountOut: nat, hook: Hook)
    requires Payout(d, now, s, a, amountOut, hook).Done?
    ensures amountOut >= a.minimumOutput
  {
  }

  lemma FinishPays(d: Deployment, now: nat, s: State, a: RouteAuthorization, back: State, tokenOut: Address,
                   output: Hook)
    requires back.Intent(a.intentId) == s.Intent(a.intentId)
    ensures var amountOut := back.ledger.Balance(a.tokenOut, d.self) - Baseline(d, s, a);
      Finish(d, now, s.ledger.Balance(a.tokenOut, d.self), a, back, tokenOut, output) ==
        if tokenOut != a.tokenOut then Revert(InvalidOutput)
        else if Baseline(d, s, a) < 0 || amountOut < 0 then Revert(Arithmetic)
        else Payout(d, now, back, a, amountOut, output)
    ensures Finish(d, now, s.ledger.Balance(a.tokenOut, d.self), a, back, tokenOut, output).Done? ==>
      tokenOut == a.tokenOut && back.ledger.Balance(a.tokenOut, d.self) - Baseline(d, s, a) >= a.minimumOutput
  {
    var amountOut := back.ledger.Balance(a.tokenOut, d.self) - Baseline(d, s, a);
    MeasuredIs(d, s, a, back, tokenOut);
    if Finish(d, now, s.ledger.Balance(a.tokenOut, d.self), a, back, tokenOut, output).Done? {
      PaidEnough(d, now, back, a, amountOut, output);
    }
  }

  function AmountOut(d: Deployment, now: nat, s: State, a: RouteAuthorization, data: Bytes, x: Externals): int
    requires HandOver(d, now, s, a, x).Done? && Returned(d, now, s, a, data, x).AdapterDone?
  {
    Returned(d, now, s, a, data, x).state.ledger.Balance(a.tokenOut, d.self) - Baseline(d, s, a)
  }

  /** Paying out everything above the baseline spends no surplus. */
  lemma PayoutSurplus(d: Deployment, s: State, back: State, b: State, a: RouteAuthorization, amountOut: nat,
                      token: Address)
    requires a.intentId in s.intents && s.intents[a.intentId].status == Funded
    requires a.adapter != d.self && s.intents[a.intentId].owner != d.self
    requires var i := s.intents[a.intentId];
      && Drift(d, s.(locked := true), back, [Move(i.tokenIn, d.self, a.adapter, i.amount)])
      && Drift(d, back.SetStatus(a.intentId, Executed), b, [Move(a.tokenOut, d.self, i.owner, amountOut)])
    requires amountOut == back.ledger.Balance(a.tokenOut, d.self) - Baseline(d, s, a)
    ensures Surplus(d, b, token) >= Surplus(d, s, token)
  {
    var i := s.intents[a.intentId];
    var hand, pay := Move(i.tokenIn, d.self, a.adapter, i.amount), Move(a.tokenOut, d.self, i.owner, amountOut);
    SingleMove(d, hand);
    SingleMove(d, pay);
    BracketSum(s, back, b, a.intentId, Executed, token);
    assert back.ledger.Balance(token, d.self) >= s.ledger.Balance(token, d.self) + Net(d, [hand], token);
    assert b.ledger.Balance(token, d.self) >= back.ledger.Balance(token, d.self) + Net(d, [pay], token);
  }

  /** The payout goes to the owner the intent had all along, and the announced amount is the intent's. */
  lemma PayoutSends(d: Deployment, now: nat, s: State, a: RouteAuthorization, amountOut: nat, hook: Hook)
    requires s.locked && d.self != d.adapter && Grantless(s.ledger, d.self) && Catalogued(d, s)
      && a.intentId in s.intents
    requires Payout(d, now, s, a, amountOut, hook).Done?
    ensures var i := s.intents[a.intentId];
      var sent := CallToken(d, now, s.SetStatus(a.intentId, Executed), d.self, a.tokenOut, d.self, i.owner, amountOut,
                            hook);
      && sent.Done?
      && Payout(d, now, s, a, amountOut, hook).state
           == sent.state.Emit(IntentExecuted(a.intentId, a.adapter, a.tokenOut, i.amount, amountOut)).(locked := false)
  {
    var i, m := s.intents[a.intentId], s.SetStatus(a.intentId, Executed);
    StatusCatalogued(d, s, m, a.intentId, Executed);
    TokenCallDrifts(d, now, m, a.tokenOut, d.self, i.owner, amountOut, hook);
    assert a.intentId in m.intents;
  }

  /** What foreign code and the two transfers of an execution did, with the intent's status still to tell. */
  lemma PayoutFrames(d: Deployment, now: nat, s: State, back: State, a: RouteAuthorization, amountOut: nat, hook: Hook)
    requires a.intentId in s.intents && Recorded(d, s, a.intentId) && d.self != d.adapter
    requires var i := s.intents[a.intentId];
      Drift(d, s.(locked := true), back, [Move(i.tokenIn, d.self, a.adapter, i.amount)])
    requires CallToken(d, now, back.SetStatus(a.intentId, Executed), d.self, a.tokenOut, d.self,
                       s.intents[a.intentId].owner, amountOut, hook).Done?
    ensures var i, m := s.intents[a.intentId], back.SetStatus(a.intentId, Executed);
      Drift(d, m, CallToken(d, now, m, d.self, a.tokenOut, d.self, i.owner, amountOut, hook).state,
            [Move(a.tokenOut, d.self, i.owner, amountOut)])
  {
    var m := back.SetStatus(a.intentId, Executed);
    assert a.intentId in s.(locked := true).intents;
    StatusCatalogued(d, back, m, a.intentId, Executed);
    TokenCallDrifts(d, now, m, a.tokenOut, d.self, s.intents[a.intentId].owner, amountOut, hook);
  }

  lemma PayoutSettles(d: Deployment, now: nat, s: State, back: State, a: RouteAuthorization, amountOut: nat, hook: Hook)
    requires a.intentId in s.intents && s.intents[a.intentId].status == Funded && Recorded(d, s, a.intentId)
    requires a.adapter != d.self && d.self != d.adapter && !s.locked && Grantless(s.ledger, d.self)
    requires var i := s.intents[a.intentId];
      Drift(d, s.(locked := true), back, [Move(i.tokenIn, d.self, a.adapter, i.amount)])
    requires amountOut == back.ledger.Balance(a.tokenOut, d.self) - Baseline(d, s, a)
    requires Payout(d, now, back, a, amountOut, hook).Done?
    ensures Settled(d, s, Payout(d, now, back, a, amountOut, hook).state, a.intentId, Executed,
                    IntentExecuted(a.intentId, a.adapter, a.tokenOut, s.intents[a.intentId].amount, amountOut))
  {
    var i := s.intents[a.intentId];
    assert a.intentId in s.(locked := true).intents;
    PayoutSends(d, now, back, a, amountOut, hook);
    PayoutFrames(d, now, s, back, a, amountOut, hook);
    var sent := CallToken(d, now, back.SetStatus(a.intentId, Executed), d.self, a.tokenOut, d.self, i.owner, amountOut,
                          hook).state;
    ExecutionBrackets(d, s, back, sent, a, amountOut);
  }

  /** The frame of an execution, closed. */
  lemma ExecutionBrackets(d: Deployment, s: State, back: State, sent: State, a: RouteAuthorization, amountOut: nat)
    requires a.intentId in s.intents && s.intents[a.intentId].status == Funded
    requires a.adapter != d.self && s.intents[a.intentId].owner != d.self
    requires var i := s.intents[a.intentId];
      && Drift(d, s.(locked := true), back, [Move(i.tokenIn, d.self, a.adapter, i.amount)])
      && Drift(d, back.SetStatus(a.intentId, Executed), sent, [Move(a.tokenOut, d.self, i.owner, amountOut)])
    requires amountOut == back.ledger.Balance(a.tokenOut, d.self) - Baseline(d, s, a)
    ensures var e := IntentExecuted(a.intentId, a.adapter, a.tokenOut, s.intents[a.intentId].amount, amountOut);
      Settled(d, s, sent.Emit(e).(locked := false), a.intentId, Executed, e)
  {
    var i := s.intents[a.intentId];
    var e := IntentExecuted(a.intentId, a.adapter, a.tokenOut, i.amount, amountOut);
    var hand, pay := Move(i.tokenIn, d.self, a.adapter, i.amount), Move(a.tokenOut, d.self, i.owner, amountOut);
    assert [hand] + [pay] == Claimed(d, e, i);
    Bracket(d, s, back, sent, a.intentId, Executed, e, [hand], [pay]);
    PayoutKeepsSurplus(d, s, back, sent, a, amountOut, e);
  }

  lemma PayoutKeepsSurplus(d: Deployment, s: State, back: State, b: State, a: RouteAuthorization, amountOut: nat,
                           e: Event)
    requires a.intentId in s.intents && s.intents[a.intentId].status == Funded
    requires a.adapter != d.self && s.intents[a.intentId].owner != d.self
    requires var i := s.intents[a.intentId];
      && Drift(d, s.(locked := true), back, [Move(i.tokenIn, d.self, a.adapter, i.amount)])
      && Drift(d, back.SetStatus(a.intentId, Executed), b, [Move(a.tokenOut, d.self, i.owner, amountOut)])
    requires amountOut == back.ledger.Balance(a.tokenOut, d.self) - Baseline(d, s, a)
    ensures forall token: Address :: Surplus(d, b.Emit(e).(locked := false), token) >= Surplus(d, s, token)
  {
    forall token: Address
      ensures Surplus(d, b.Emit(e).(locked := false), token) >= Surplus(d, s, token)
    {
      PayoutSurplus(d, s, back, b, a, amountOut, token);
    }
  }

  lemma BackDrifts(d: Deployment, now: nat, s: State, a: RouteAuthorization, data: Bytes, x: Externals, back: State)
    requires Sturdy(d, s, a.intentId) && HandOver(d, now, s, a, x).Done? && Returned(d, now, s, a, data, x).AdapterDone?
    requires back == Returned(d, now, s, a, data, x).state
    ensures var i := s.intents[a.intentId];
      a.adapter != d.self && Drift(d, s.(locked := true), back, [Move(i.tokenIn, d.self, a.adapter, i.amount)])
  {
    ReturnedDrifts(d, now, s, a, data, x);
  }

  /** An execution: the amount goes to the adapter, everything measured goes to the owner. */
  lemma ExecuteSettles(d: Deployment, now: nat, s: State, a: RouteAuthorization, signature: Bytes, data: Bytes,
                       x: Externals)
    requires d.self != d.adapter && !s.adapterLocked
    requires Grantless(s.ledger, d.self) && Grantless(s.ledger, d.adapter) && Catalogued(d, s)
    requires ExecuteStep(d, now, s, a, signature, data, x).Done?
    ensures a.intentId in s.intents && s.intents[a.intentId].status == Funded
    ensures HandOver(d, now, s, a, x).Done? && Returned(d, now, s, a, data, x).AdapterDone?
    ensures AmountOut(d, now, s, a, data, x) >= a.minimumOutput
    ensures Settled(d, s, ExecuteStep(d, now, s, a, signature, data, x).state, a.intentId, Executed,
                    IntentExecuted(a.intentId, a.adapter, a.tokenOut, s.intents[a.intentId].amount,
                                   AmountOut(d, now, s, a, data, x)))
  {
    FundedPastGuard(d, now, s, a, signature, data, x);
    var amountOut := ExecutionSettles(d, now, s, a, signature, data, x);
  }

  lemma ExecutionSettles(d: Deployment, now: nat, s: State, a: RouteAuthorization, signature: Bytes, data: Bytes,
                         x: Externals)
    returns (amountOut: nat)
    requires Sturdy(d, s, a.intentId) && s.intents[a.intentId].status == Funded && Recorded(d, s, a.intentId)
      && !s.locked
    requires ExecuteStep(d, now, s, a, signature, data, x).Done?
    ensures HandOver(d, now, s, a, x).Done? && Returned(d, now, s, a, data, x).AdapterDone?
    ensures amountOut == AmountOut(d, now, s, a, data, x) >= a.minimumOutput
    ensures Settled(d, s, ExecuteStep(d, now, s, a, signature, data, x).state, a.intentId, Executed,
                    IntentExecuted(a.intentId, a.adapter, a.tokenOut, s.intents[a.intentId].amount, amountOut))
  {
    var back;
    back, amountOut := ExecuteUnfolds(d, now, s, a, signature, data, x);
    BackDrifts(d, now, s, a, data, x, back);
    PayoutSettles(d, now, s, back, a, amountOut, x.output);
  }
}
