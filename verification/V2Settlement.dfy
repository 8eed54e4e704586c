/** The V2 adapter inside an execution: when it succeeds, what it leaves behind, where the output goes. */
module V2Settlement {
  import opened Abi
  import opened Bytes
  import opened Custody
  import opened CustodyInvariant
  import opened CustodyLog
  import opened CustodyTheorems
  import opened Interference
  import MapSums
  import opened PolicyCommitment
  import opened RouterTypes
  import opened Settlement
  import opened Wrappers

  /** Calldata and authorization say the same, as they do when one decision produced both. */
  predicate Agrees(a: RouteAuthorization, data: Bytes)
  {
    && DecodeRoute(data).Some?
    && var r := DecodeRoute(data).value;
    && 2 <= |r.path| <= 4 && r.path[0] == a.tokenIn && r.path[|r.path| - 1] == a.tokenOut
    && r.amountOutMin == a.minimumOutput > 0 && r.deadline == a.deadline
  }

  /** The pinned venue kept its word: the adapter gained at least the minimum it asked for. */
  predicate Delivers(d: Deployment, now: nat, s: State, a: RouteAuthorization, x: Externals)
  {
    var i, handed := s.Intent(a.intentId), HandOver(d, now, s, a, x);
    handed.Done? ==>
      Swapped(d, now, handed.state, i.tokenIn, i.amount, x.callee).ledger.Balance(a.tokenOut, d.adapter)
      >= handed.state.ledger.Balance(a.tokenOut, d.adapter) + a.minimumOutput
  }

  /** No token and no venue refuses, and the venue delivers. */
  predicate Cooperates(d: Deployment, now: nat, s: State, a: RouteAuthorization, x: Externals)
  {
    !x.input.reverts && !x.callee.reverts && !x.callee.output.reverts && !x.output.reverts && Delivers(d, now, s, a, x)
  }

  /** A protected account that holds enough can always send, whatever code runs first. */
  lemma SendSucceeds(d: Deployment, now: nat, s: State, who: Address, token: Address, to: Address, amount: nat,
                     hook: Hook)
    requires s.locked && Catalogued(d, s) && Protected(d, who) && Grantless(s.ledger, who)
    requires s.ledger.Balance(token, who) >= amount
    ensures CallToken(d, now, s, who, token, who, to, amount, hook).Done? <==> !hook.reverts
  {
    RunStable(d, now, s, hook.before);
    assert NoGrant(s.ledger, token, who);
  }

  lemma HandOverSucceeds(d: Deployment, now: nat, s: State, a: RouteAuthorization, x: Externals)
    requires Inv(d, s) && s.Intent(a.intentId).status == Funded
    ensures HandOver(d, now, s, a, x).Done? <==> !x.input.reverts
  {
    var i := s.intents[a.intentId];
    assert Surplus(d, s, i.tokenIn) >= 0;
    MapSumsAtLeast(s, a.intentId);
    SameCatalogue(d, s, s.(locked := true));
    SendSucceeds(d, now, s.(locked := true), d.self, i.tokenIn, a.adapter, i.amount, x.input);
  }

  lemma MapSumsAtLeast(s: State, id: Word)
    requires s.Intent(id).status == Funded
    ensures FundedSum(s.intents, s.intents[id].tokenIn) >= s.intents[id].amount
  {
    MapSums.SumAtLeast(FundedAmounts(s.intents, s.intents[id].tokenIn), id);
  }

  lemma TradeSucceeds(d: Deployment, now: nat, s: State, tokenIn: Address, amountIn: Word, tokenOut: Address,
                      minimum: nat, callee: Callee)
    requires s.locked && d.self != d.adapter && Grantless(s.ledger, d.self) && Grantless(s.ledger, d.adapter)
      && Catalogued(d, s)
    ensures Trade(d, now, s, tokenIn, amountIn, tokenOut, minimum, callee).AdapterDone? <==>
      (&& !callee.reverts && !callee.output.reverts
       && Swapped(d, now, s, tokenIn, amountIn, callee).ledger.Balance(tokenOut, d.adapter)
            >= s.ledger.Balance(tokenOut, d.adapter) + minimum)
  {
    TradeUnfolds(d, now, s, tokenIn, amountIn, tokenOut, minimum, callee);
    var swapped := SwapSound(d, now, s, tokenIn, amountIn, callee);
    var gained := swapped.ledger.Balance(tokenOut, d.adapter) - s.ledger.Balance(tokenOut, d.adapter);
    if gained >= minimum {
      SendSucceeds(d, now, swapped, d.adapter, tokenOut, d.self, gained, callee.output);
    }
  }

  lemma V2StepSucceeds(d: Deployment, now: nat, s: State, a: RouteAuthorization, amountIn: Word, data: Bytes,
                       callee: Callee)
    requires s.locked && !s.adapterLocked && d.self != d.adapter
    requires Grantless(s.ledger, d.self) && Grantless(s.ledger, d.adapter) && Catalogued(d, s)
    requires Agrees(a, data) && a.tokenOut != 0 && now <= a.deadline
    ensures V2Step(d, now, s, d.self, a.tokenIn, amountIn, data, callee).AdapterDone? <==>
      (&& a.tokenOut != a.tokenIn
       && !callee.reverts && !callee.output.reverts
       && Swapped(d, now, s, a.tokenIn, amountIn, callee).ledger.Balance(a.tokenOut, d.adapter)
            >= s.ledger.Balance(a.tokenOut, d.adapter) + a.minimumOutput)
  {
    V2Trades(d, now, s, a.tokenIn, amountIn, data, callee);
    V2GuardPasses(d, now, s, a, data);
    TradeSucceeds(d, now, s, a.tokenIn, amountIn, a.tokenOut, a.minimumOutput, callee);
  }

  // The adapter's guard, called by the router with calldata of the same decision.
  lemma V2GuardPasses(d: Deployment, now: nat, s: State, a: RouteAuthorization, data: Bytes)
    requires !s.adapterLocked && Agrees(a, data) && a.tokenOut != 0 && now <= a.deadline
    ensures var g := V2Guard(d, now, s, d.self, a.tokenIn, data);
      if a.tokenOut != a.tokenIn then g == Ok(DecodeRoute(data).value) else g.Err?
  {
  }

  /** The adapter takes a route from the router, as the client encodes it, exactly when no other is under way,
      the route starts at the input token, does not end in the zero address and is not late: the client's
      own checks leave the adapter nothing else to refuse. */
  lemma ClientRouteAccepted(d: Deployment, now: nat, s: State, tokenIn: Address, r: RouteInput)
    requires EncodeV2Route(r).Some?
    ensures V2Guard(d, now, s, d.self, tokenIn, EncodeV2Route(r).value).Ok? <==>
      !s.adapterLocked && r.path[0] == tokenIn && r.path[|r.path| - 1] != 0 && now <= r.deadline
  {
    ClientRouteRoundTrip(r, r);
  }

  /** An authorized V2 execution that passes the router's guards succeeds exactly when tokens and venue
      cooperate and the route really leaves its input token: neither the adapter's checks nor the
      router's two output checks can stop it otherwise. */
  lemma V2ExecutionSucceeds(d: Deployment, now: nat, s: State, a: RouteAuthorization, signature: Bytes, data: Bytes,
                            x: Externals)
    requires Inv(d, s) && a.adapter == d.adapter && Agrees(a, data)
    requires ExecuteGuard(d, now, s, a, signature, data).None?
    ensures ExecuteStep(d, now, s, a, signature, data, x).Done?
      <==> a.tokenOut != a.tokenIn && Cooperates(d, now, s, a, x)
  {
    HandOverSucceeds(d, now, s, a, x);
    if HandOver(d, now, s, a, x).Done? {
      var i, handed := s.intents[a.intentId], HandOver(d, now, s, a, x).state;
      HandedSound(d, now, s, a, x);
      V2StepSucceeds(d, now, handed, a, i.amount, data, x.callee);
      if Returned(d, now, s, a, data, x).AdapterDone? {
        V2OutputsPass(d, now, s, a, data, x);
        V2PayoutSucceeds(d, now, s, a, data, x);
        ExecuteReduces(d, now, s, a, signature, data, x);
      }
    }
  }

  lemma ReturnedByV2(d: Deployment, now: nat, s: State, a: RouteAuthorization, data: Bytes, x: Externals)
    requires a.adapter == d.adapter != d.self && HandOver(d, now, s, a, x).Done?
    ensures var i := s.Intent(a.intentId);
      Returned(d, now, s, a, data, x)
        == V2Step(d, now, HandOver(d, now, s, a, x).state, d.self, i.tokenIn, i.amount, data, x.callee)
  {
  }

  /** After the adapter returned, both output checks pass. */
  lemma V2OutputsPass(d: Deployment, now: nat, s: State, a: RouteAuthorization, data: Bytes, x: Externals)
    requires Inv(d, s) && a.adapter == d.adapter && Agrees(a, data)
    requires s.Intent(a.intentId).status == Funded && a.tokenIn == s.Intent(a.intentId).tokenIn
    requires HandOver(d, now, s, a, x).Done? && Returned(d, now, s, a, data, x).AdapterDone?
    ensures Returned(d, now, s, a, data, x).tokenOut == a.tokenOut != a.tokenIn
    ensures AmountOut(d, now, s, a, data, x) >= a.minimumOutput
  {
    var i, handed := s.intents[a.intentId], HandOver(d, now, s, a, x).state;
    HandedSound(d, now, s, a, x);
    ReturnedByV2(d, now, s, a, data, x);
    V2Output(d, now, handed, i.tokenIn, i.amount, data, x.callee);
    V2Gains(d, now, handed, i.tokenIn, i.amount, data, x.callee);
    assert handed.ledger.Balance(a.tokenOut, d.self) >= s.ledger.Balance(a.tokenOut, d.self);
  }

  /** Then only the output token itself can still make the execution fail. */
  lemma V2PayoutSucceeds(d: Deployment, now: nat, s: State, a: RouteAuthorization, data: Bytes, x: Externals)
    requires Inv(d, s) && a.tokenOut != s.Intent(a.intentId).tokenIn
    requires s.Intent(a.intentId).status == Funded
    requires HandOver(d, now, s, a, x).Done? && Returned(d, now, s, a, data, x).AdapterDone?
    requires AmountOut(d, now, s, a, data, x) >= a.minimumOutput
    ensures Payout(d, now, Returned(d, now, s, a, data, x).state, a, AmountOut(d, now, s, a, data, x), x.output).Done?
      <==> !x.output.reverts
  {
    var i, back := s.intents[a.intentId], Returned(d, now, s, a, data, x).state;
    var m := back.SetStatus(a.intentId, Executed);
    ReturnedDrifts(d, now, s, a, data, x);
    assert a.intentId in back.intents;
    StatusCatalogued(d, back, m, a.intentId, Executed);
    SendSucceeds(d, now, m, d.self, a.tokenOut, i.owner, AmountOut(d, now, s, a, data, x), x.output);
  }

  /** Past the adapter, an execution is its payout. */
  lemma ExecuteReduces(d: Deployment, now: nat, s: State, a: RouteAuthorization, signature: Bytes, data: Bytes,
                       x: Externals)
    requires Sturdy(d, s, a.intentId) && ExecuteGuard(d, now, s, a, signature, data).None?
    requires HandOver(d, now, s, a, x).Done? && Returned(d, now, s, a, data, x).AdapterDone?
    requires Returned(d, now, s, a, data, x).tokenOut == a.tokenOut != s.Intent(a.intentId).tokenIn
    requires AmountOut(d, now, s, a, data, x) >= 0
    ensures ExecuteStep(d, now, s, a, signature, data, x)
      == Payout(d, now, Returned(d, now, s, a, data, x).state, a, AmountOut(d, now, s, a, data, x), x.output)
  {
    PastGuard(d, now, s, a, signature, data, x);
    ProceedReduces(d, now, s, a, data, x);
  }

  lemma ProceedReduces(d: Deployment, now: nat, s: State, a: RouteAuthorization, data: Bytes, x: Externals)
    requires Sturdy(d, s, a.intentId) && HandOver(d, now, s, a, x).Done? && Returned(d, now, s, a, data, x).AdapterDone?
    requires Returned(d, now, s, a, data, x).tokenOut == a.tokenOut != s.Intent(a.intentId).tokenIn
    requires AmountOut(d, now, s, a, data, x) >= 0
    ensures Proceed(d, now, s, a, data, x)
      == Payout(d, now, Returned(d, now, s, a, data, x).state, a, AmountOut(d, now, s, a, data, x), x.output)
  {
    var back := ProceedFinishes(d, now, s, a, data, x);
    FinishPays(d, now, s, a, back.state, back.tokenOut, x.output);
  }

  // ---------------------------------------------------------------- value flow

  /** Between transactions the adapter has granted nothing to anyone, its venue included, in any token. */
  lemma AdapterGrantsNothing(d: Deployment, s: State, token: Address, spender: Address)
    requires Reachable(d, s)
    ensures s.ledger.Allowance(token, d.adapter, spender) == 0 && !s.adapterLocked
  {
    ReachableInv(d, s);
    assert NoGrant(s.ledger, token, d.adapter);
  }

  /** With an output token that runs no code of its own, a successful adapter execution keeps none of the
      output and the router receives exactly what was measured. */
  lemma V2ForwardsExactly(d: Deployment, now: nat, s: State, tokenIn: Address, amountIn: Word, data: Bytes,
                          callee: Callee)
    requires s.locked && d.self != d.adapter && callee.output == Hook([], [], false)
    requires Grantless(s.ledger, d.self) && Grantless(s.ledger, d.adapter) && Catalogued(d, s)
    requires V2Step(d, now, s, d.self, tokenIn, amountIn, data, callee).AdapterDone?
    ensures var AdapterDone(s', tokenOut) := V2Step(d, now, s, d.self, tokenIn, amountIn, data, callee);
      var measured := V2Amount(d, now, s, tokenIn, amountIn, data, callee);
      && measured > 0
      && s'.ledger.Balance(tokenOut, d.adapter) == s.ledger.Balance(tokenOut, d.adapter)
      && s'.ledger.Balance(tokenOut, d.self)
           == Swapped(d, now, s, tokenIn, amountIn, callee).ledger.Balance(tokenOut, d.self) + measured
  {
    var r, swapped, measured, sent := V2Forwards(d, now, s, tokenIn, amountIn, data, callee);
    var tokenOut := r.path[|r.path| - 1];
    assert CallToken(d, now, swapped, d.adapter, tokenOut, d.adapter, d.self, measured, callee.output)
        == MoveUnits(swapped, d.adapter, tokenOut, d.adapter, d.self, measured);
  }

  /** The owner receives all the adapter measured: the executed amount is at least that, and the calldata's minimum. */
  lemma OwnerReceivesMeasured(d: Deployment, now: nat, s: State, a: RouteAuthorization, signature: Bytes, data: Bytes,
                              x: Externals)
    requires Inv(d, s) && a.adapter == d.adapter
    requires ExecuteStep(d, now, s, a, signature, data, x).Done?
    ensures HandOver(d, now, s, a, x).Done? && Returned(d, now, s, a, data, x).AdapterDone?
    ensures var i, handed := s.Intent(a.intentId), HandOver(d, now, s, a, x).state;
      && V2Guard(d, now, handed, d.self, i.tokenIn, data).Ok?
      && AmountOut(d, now, s, a, data, x) >= V2Amount(d, now, handed, i.tokenIn, i.amount, data, x.callee) > 0
      && AmountOut(d, now, s, a, data, x) >= DecodeRoute(data).value.amountOutMin
  {
    var back, amountOut := ExecuteUnfolds(d, now, s, a, signature, data, x);
    MeasuredReachesOwner(d, now, s, a, data, x);
  }

  lemma MeasuredReachesOwner(d: Deployment, now: nat, s: State, a: RouteAuthorization, data: Bytes, x: Externals)
    requires Inv(d, s) && a.adapter == d.adapter && s.Intent(a.intentId).status == Funded
    requires HandOver(d, now, s, a, x).Done? && Returned(d, now, s, a, data, x).AdapterDone?
    requires Returned(d, now, s, a, data, x).tokenOut == a.tokenOut
    ensures var i, handed := s.Intent(a.intentId), HandOver(d, now, s, a, x).state;
      && V2Guard(d, now, handed, d.self, i.tokenIn, data).Ok?
      && AmountOut(d, now, s, a, data, x) >= V2Amount(d, now, handed, i.tokenIn, i.amount, data, x.callee) > 0
      && AmountOut(d, now, s, a, data, x) >= DecodeRoute(data).value.amountOutMin
  {
    var i, handed := s.intents[a.intentId], HandOver(d, now, s, a, x).state;
    HandedSound(d, now, s, a, x);
    ReturnedByV2(d, now, s, a, data, x);
    V2Output(d, now, handed, i.tokenIn, i.amount, data, x.callee);
    V2Gains(d, now, handed, i.tokenIn, i.amount, data, x.callee);
    assert handed.ledger.Balance(a.tokenOut, d.self) >= s.ledger.Balance(a.tokenOut, d.self);
  }
}
