/** What an execution delivers: through any adapter, exactly when it succeeds, and all that was received. */
module Delivery {
  import opened Admission
  import opened Bytes
  import opened Custody
  import opened CustodyInvariant
  import opened CustodyLog
  import opened CustodyTheorems
  import opened Interference
  import opened RouterTypes
  import opened Settlement
  import opened V2Settlement

  // ---------------------------------------------------------------- any adapter

  /** Through an adapter this project does not know: the input moved, the adapter ran whatever it ran. */
  function AfterForeign(d: Deployment, now: nat, s: State, a: RouteAuthorization, x: Externals): State
  {
    var i := s.Intent(a.intentId);
    match MoveUnits(Run(d, now, s.(locked := true), x.input.before), d.self, i.tokenIn, d.self, a.adapter, i.amount)
    case Revert(_) => s
    case Done(moved) => Run(d, now, Run(d, now, moved, x.input.after), x.callee.calls)
  }

  /** What the router then holds of the output token beyond what it held before, the handed-over input aside. */
  function Received(d: Deployment, s: State, a: RouteAuthorization, back: State): int
  {
    var i := s.Intent(a.intentId);
    back.ledger.Balance(a.tokenOut, d.self) - s.ledger.Balance(a.tokenOut, d.self)
      + if a.tokenOut == i.tokenIn then i.amount else 0
  }

  /** The intent is executed, its amount went to the adapter and `amountOut` to its owner, and one announcement
      says so. */
  ghost predicate Delivered(d: Deployment, s: State, a: RouteAuthorization, amountOut: int, s': State)
    requires a.intentId in s.intents
  {
    var i := s.intents[a.intentId];
    && amountOut >= 0
    && a.intentId in s'.intents && s'.intents[a.intentId] == i.(status := Executed)
    && (forall j | j in s.intents && j != a.intentId :: j in s'.intents && s'.intents[j] == s.intents[j])
    && RouterMoves(d, s'.events) == RouterMoves(d, s.events)
         + [Move(i.tokenIn, d.self, a.adapter, i.amount), Move(a.tokenOut, d.self, i.owner, amountOut)]
    && Announcements(s'.events) == Announcements(s.events)
         + [IntentExecuted(a.intentId, a.adapter, a.tokenOut, i.amount, amountOut)]
  }

  lemma ForeignReturns(d: Deployment, now: nat, s: State, a: RouteAuthorization, data: Bytes, x: Externals)
    requires Inv(d, s) && s.Intent(a.intentId).status == Funded && !Protected(d, a.adapter)
    ensures HandOver(d, now, s, a, x).Done? <==> !x.input.reverts
    ensures HandOver(d, now, s, a, x).Done? ==>
      && (Returned(d, now, s, a, data, x).AdapterDone? <==> !x.callee.reverts)
      && (Returned(d, now, s, a, data, x).AdapterDone? ==>
            Returned(d, now, s, a, data, x) == AdapterDone(AfterForeign(d, now, s, a, x), x.callee.returned))
  {
    HandOverSucceeds(d, now, s, a, x);
  }

  /** Then only the output token itself can still make the execution fail. */
  lemma PaysWhatItHas(d: Deployment, now: nat, s: State, a: RouteAuthorization, data: Bytes, x: Externals,
                      amountOut: nat)
    requires Inv(d, s) && s.Intent(a.intentId).status == Funded
    requires HandOver(d, now, s, a, x).Done? && Returned(d, now, s, a, data, x).AdapterDone?
    requires amountOut == AmountOut(d, now, s, a, data, x)
    ensures Payout(d, now, Returned(d, now, s, a, data, x).state, a, amountOut, x.output).Done?
      <==> amountOut >= a.minimumOutput && !x.output.reverts
  {
    var i, back := s.intents[a.intentId], Returned(d, now, s, a, data, x).state;
    var m := back.SetStatus(a.intentId, Executed);
    assert Surplus(d, s, i.tokenIn) >= 0;
    MeasuresSafely(d, now, s, a, data, x);
    ReturnedDrifts(d, now, s, a, data, x);
    assert a.intentId in s.(locked := true).intents;
    StatusCatalogued(d, back, m, a.intentId, Executed);
    SendSucceeds(d, now, m, d.self, a.tokenOut, i.owner, amountOut, x.output);
  }

  /** In every reachable state an execution through an unknown adapter succeeds exactly when the authorization is
      admitted, neither token nor adapter reverts, the adapter names the authorized output token, and the router
      received at least the minimum; then all that was received goes to the owner. */
  lemma ForeignExecutionExact(d: Deployment, now: nat, s: State, a: RouteAuthorization, signature: Bytes, data: Bytes,
                              x: Externals)
    requires Reachable(d, s) && !Protected(d, a.adapter)
    ensures var o := ExecuteStep(d, now, s, a, signature, data, x);
      var amountOut := Received(d, s, a, AfterForeign(d, now, s, a, x));
      && (o.Done? <==>
            && Admitted(d, now, s, a, signature, data)
            && !x.input.reverts && !x.callee.reverts && !x.output.reverts
            && x.callee.returned == a.tokenOut && amountOut >= a.minimumOutput)
      && (o.Done? ==> a.intentId in s.intents && Delivered(d, s, a, amountOut, o.state))
  {
    ReachableInv(d, s);
    GuardExact(d, now, s, a, signature, data);
    PastGuard(d, now, s, a, signature, data, x);
    if Admitted(d, now, s, a, signature, data) {
      ForeignProceeds(d, now, s, a, data, x);
      if ExecuteStep(d, now, s, a, signature, data, x).Done? {
        ForeignDelivers(d, now, s, a, signature, data, x);
      }
    }
  }

  lemma ForeignDelivers(d: Deployment, now: nat, s: State, a: RouteAuthorization, signature: Bytes, data: Bytes,
                        x: Externals)
    requires Inv(d, s) && !Protected(d, a.adapter) && ExecuteStep(d, now, s, a, signature, data, x).Done?
    ensures a.intentId in s.intents
    ensures Delivered(d, s, a, Received(d, s, a, AfterForeign(d, now, s, a, x)),
                      ExecuteStep(d, now, s, a, signature, data, x).state)
  {
    FundedPastGuard(d, now, s, a, signature, data, x);
    var amountOut := ExecutionSettles(d, now, s, a, signature, data, x);
    ForeignReturns(d, now, s, a, data, x);
    assert amountOut == Received(d, s, a, AfterForeign(d, now, s, a, x));
    DeliveredAs(d, s, a, amountOut, ExecuteStep(d, now, s, a, signature, data, x).state);
  }

  lemma DeliveredAs(d: Deployment, s: State, a: RouteAuthorization, amountOut: nat, s': State)
    requires a.intentId in s.intents
    requires Settled(d, s, s', a.intentId, Executed,
                     IntentExecuted(a.intentId, a.adapter, a.tokenOut, s.intents[a.intentId].amount, amountOut))
    ensures Delivered(d, s, a, amountOut, s')
  {
  }

  lemma ForeignProceeds(d: Deployment, now: nat, s: State, a: RouteAuthorization, data: Bytes, x: Externals)
    requires Inv(d, s) && s.Intent(a.intentId).status == Funded && !Protected(d, a.adapter)
    ensures Proceed(d, now, s, a, data, x).Done? <==>
      (&& !x.input.reverts && !x.callee.reverts && !x.output.reverts && x.callee.returned == a.tokenOut
       && Received(d, s, a, AfterForeign(d, now, s, a, x)) >= a.minimumOutput)
  {
    ForeignReturns(d, now, s, a, data, x);
    ProceedUnfolds(d, now, s, a, data, x);
    if HandOver(d, now, s, a, x).Done? && Returned(d, now, s, a, data, x).AdapterDone? {
      var back := AfterForeign(d, now, s, a, x);
      assert Surplus(d, s, s.intents[a.intentId].tokenIn) >= 0;
      MeasuresSafely(d, now, s, a, data, x);
      FinishPays(d, now, s, a, back, x.callee.returned, x.output);
      PaysWhatItHas(d, now, s, a, data, x, AmountOut(d, now, s, a, data, x));
    }
  }

  /** Through any adapter: while the output token runs its code the intent is Executed already. */
  lemma ExecuteEffectsFirst(d: Deployment, now: nat, s: State, a: RouteAuthorization, signature: Bytes, data: Bytes,
                            x: Externals)
    returns (m: State, moved: State, amountOut: nat)
    requires Reachable(d, s) && ExecuteStep(d, now, s, a, signature, data, x).Done?
    ensures var i := s.Intent(a.intentId);
      EffectsFirst(d, now, s, a.intentId, Executed, m, a.tokenOut, d.self, i.owner, amountOut, x.output, moved,
                   IntentExecuted(a.intentId, a.adapter, a.tokenOut, i.amount, amountOut),
                   ExecuteStep(d, now, s, a, signature, data, x).state)
  {
    ReachableInv(d, s);
    var back;
    back, amountOut := ExecuteUnfolds(d, now, s, a, signature, data, x);
    BackDrifts(d, now, s, a, data, x, back);
    assert a.intentId in s.(locked := true).intents;
    PayoutSends(d, now, back, a, amountOut, x.output);
    m := back.SetStatus(a.intentId, Executed);
    moved := MoveUnits(Run(d, now, m, x.output.before), d.self, a.tokenOut, d.self, s.intents[a.intentId].owner,
                       amountOut).state;
  }

  // ---------------------------------------------------------------- nothing is kept

  /** Through any adapter, with an output token that runs no code of its own: the router keeps none of the output,
      and what it holds beyond its debts in that token is what it was. */
  lemma KeepsNothing(d: Deployment, now: nat, s: State, a: RouteAuthorization, signature: Bytes, data: Bytes,
                     x: Externals)
    requires Reachable(d, s) && x.output == Hook([], [], false)
    requires ExecuteStep(d, now, s, a, signature, data, x).Done?
    ensures var i, s' := s.Intent(a.intentId), ExecuteStep(d, now, s, a, signature, data, x).state;
      && s'.ledger.Balance(a.tokenOut, d.self)
           == s.ledger.Balance(a.tokenOut, d.self) - (if a.tokenOut == i.tokenIn then i.amount else 0)
      && Surplus(d, s', a.tokenOut) == Surplus(d, s, a.tokenOut)
  {
    ReachableInv(d, s);
    assert Recorded(d, s, a.intentId);
    var back, amountOut := ExecuteUnfolds(d, now, s, a, signature, data, x);
    ExecuteSettles(d, now, s, a, signature, data, x);
    BackDrifts(d, now, s, a, data, x, back);
    assert a.intentId in s.(locked := true).intents;
    PayoutSends(d, now, back, a, amountOut, x.output);
    var i, m := s.intents[a.intentId], back.SetStatus(a.intentId, Executed);
    assert CallToken(d, now, m, d.self, a.tokenOut, d.self, i.owner, amountOut, x.output)
        == MoveUnits(m, d.self, a.tokenOut, d.self, i.owner, amountOut);
    MoveBalances(m, d.self, a.tokenOut, d.self, i.owner, amountOut, a.tokenOut, d.self);
    BracketSum(s, back, MoveUnits(m, d.self, a.tokenOut, d.self, i.owner, amountOut).state, a.intentId, Executed,
               a.tokenOut);
  }
}
