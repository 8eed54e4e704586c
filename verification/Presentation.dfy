/** The signatures a history presents, in callbacks too. A run asks recovery about nothing else. */
module Presentation {
  import opened Bytes
  import opened Custody
  import opened RouterTypes
  import opened Wrappers

  // digests together with the signatures presented for them
  type Pairs = set<(Word, Bytes)>

  ghost predicate InCall(c: Deployment, pairs: Pairs, call: Call)
    decreases call, 1
  {
    match call
    case CreateAndFundIntent(_, _, _, _, _, hook) => InHook(c, pairs, hook)
    case FundIntent(_, _, hook) => InHook(c, pairs, hook)
    case ExecuteIntent(_, a, signature, _, x) =>
      (AuthorizationDigest(c, a), signature) in pairs
      && InHook(c, pairs, x.input) && InCallee(c, pairs, x.callee) && InHook(c, pairs, x.output)
    case CancelIntent(_, _, hook) => InHook(c, pairs, hook)
    case AdapterExecute(_, _, _, _, callee) => InCallee(c, pairs, callee)
    case Frame(calls, _) => InScript(c, pairs, calls)
    case _ => true
  }

  ghost predicate InHook(c: Deployment, pairs: Pairs, hook: Hook)
    decreases hook, 1
  {
    InScript(c, pairs, hook.before) && InScript(c, pairs, hook.after)
  }

  ghost predicate InCallee(c: Deployment, pairs: Pairs, callee: Callee)
    decreases callee, 1
  {
    && InScript(c, pairs, callee.approving) && InScript(c, pairs, callee.calls) && InScript(c, pairs, callee.clearing)
    && InHook(c, pairs, callee.output)
  }

  ghost predicate InScript(c: Deployment, pairs: Pairs, calls: seq<Call>)
    decreases calls, 0
  {
    calls == [] || (InCall(c, pairs, calls[0]) && InScript(c, pairs, calls[1..]))
  }

  ghost predicate InHistory(c: Deployment, pairs: Pairs, txs: seq<Transaction>)
  {
    forall k :: 0 <= k < |txs| ==> InCall(c, pairs, txs[k].call)
  }

  /** The same chain, on which only the given signatures recover to anybody. */
  function Restrict(c: Deployment, pairs: Pairs): Deployment
  {
    c.(recover := (digest: Word, signature: Bytes) => if (digest, signature) in pairs then c.recover(digest, signature)
       else None)
  }

  // ---------------------------------------------------------------- runs do not see the difference

  lemma {:induction false} TokenSame(c: Deployment, pairs: Pairs, now: nat, s: State, operator: Address, token: Address,
                                     from: Address, to: Address, amount: nat, hook: Hook)
    requires InHook(c, pairs, hook)
    ensures CallToken(Restrict(c, pairs), now, s, operator, token, from, to, amount, hook)
         == CallToken(c, now, s, operator, token, from, to, amount, hook)
    decreases hook, 1
  {
    if !hook.reverts {
      ScriptSame(c, pairs, now, s, hook.before);
      var o := MoveUnits(Run(c, now, s, hook.before), operator, token, from, to, amount);
      if o.Done? {
        ScriptSame(c, pairs, now, o.state, hook.after);
      }
    }
  }

  lemma {:induction false} PullSame(c: Deployment, pairs: Pairs, now: nat, s: State, id: Word, hook: Hook)
    requires InHook(c, pairs, hook)
    ensures Pull(Restrict(c, pairs), now, s, id, hook) == Pull(c, now, s, id, hook)
    decreases hook, 2
  {
    var i := s.Intent(id);
    TokenSame(c, pairs, now, s.SetStatus(id, Funded), c.self, i.tokenIn, i.owner, c.self, i.amount, hook);
  }

  lemma {:induction false} CreateAndFundSame(c: Deployment, pairs: Pairs, now: nat, s: State, owner: Address,
                                             tokenIn: Address, amount: Word, hash: Word, expiry: Uint64, hook: Hook)
    requires InHook(c, pairs, hook)
    ensures CreateAndFundStep(Restrict(c, pairs), now, s, owner, tokenIn, amount, hash, expiry, hook)
         == CreateAndFundStep(c, now, s, owner, tokenIn, amount, hash, expiry, hook)
    decreases hook, 3
  {
    var o := Register(c, now, s.(locked := true), owner, tokenIn, amount, hash, expiry);
    assert o == Register(Restrict(c, pairs), now, s.(locked := true), owner, tokenIn, amount, hash, expiry);
    if o.Done? {
      PullSame(c, pairs, now, o.state, IntentId(c, NewIntent(s, owner, tokenIn, amount, hash, expiry)), hook);
    }
  }

  lemma {:induction false} FundSame(c: Deployment, pairs: Pairs, now: nat, s: State, caller: Address, id: Word,
                                    hook: Hook)
    requires InHook(c, pairs, hook)
    ensures FundStep(Restrict(c, pairs), now, s, caller, id, hook) == FundStep(c, now, s, caller, id, hook)
    decreases hook, 3
  {
    PullSame(c, pairs, now, s.(locked := true), id, hook);
  }

  lemma {:induction false} CancelSame(c: Deployment, pairs: Pairs, now: nat, s: State, caller: Address, id: Word,
                                      hook: Hook)
    requires InHook(c, pairs, hook)
    ensures CancelStep(Restrict(c, pairs), now, s, caller, id, hook) == CancelStep(c, now, s, caller, id, hook)
    decreases hook, 2
  {
    var i := s.Intent(id);
    TokenSame(c, pairs, now, s.(locked := true).SetStatus(id, Cancelled), c.self, i.tokenIn, c.self, i.owner, i.amount,
              hook);
  }

  lemma {:induction false} SwappedSame(c: Deployment, pairs: Pairs, now: nat, s: State, tokenIn: Address,
                                       amountIn: Word, callee: Callee)
    requires InCallee(c, pairs, callee)
    ensures Swapped(Restrict(c, pairs), now, s, tokenIn, amountIn, callee)
      == Swapped(c, now, s, tokenIn, amountIn, callee)
    decreases callee, 1
  {
    var shut := s.(adapterLocked := true);
    var asked := Run(c, now, shut, callee.approving);
    ScriptSame(c, pairs, now, shut, callee.approving);
    VenturedSame(c, pairs, now, asked, tokenIn, amountIn, callee.calls);
    ScriptSame(c, pairs, now, Ventured(c, now, asked, tokenIn, amountIn, callee.calls), callee.clearing);
  }

  lemma {:induction false} VenturedSame(c: Deployment, pairs: Pairs, now: nat, s: State, tokenIn: Address,
                                        amountIn: Word, calls: seq<Call>)
    requires InScript(c, pairs, calls)
    ensures Ventured(Restrict(c, pairs), now, s, tokenIn, amountIn, calls)
      == Ventured(c, now, s, tokenIn, amountIn, calls)
    decreases calls, 1
  {
    ScriptSame(c, pairs, now, s.(ledger := s.ledger.Approve(tokenIn, c.adapter, c.exchange, amountIn)), calls);
  }

  lemma V2GuardSame(c: Deployment, pairs: Pairs, now: nat, s: State, sender: Address, tokenIn: Address, data: Bytes)
    ensures V2Guard(Restrict(c, pairs), now, s, sender, tokenIn, data) == V2Guard(c, now, s, sender, tokenIn, data)
  {
  }

  lemma {:induction false} PassOnSame(c: Deployment, pairs: Pairs, now: nat, before: nat, swapped: State,
                                      tokenOut: Address, minimum: nat, output: Hook)
    requires InHook(c, pairs, output)
    ensures PassOn(Restrict(c, pairs), now, before, swapped, tokenOut, minimum, output)
         == PassOn(c, now, before, swapped, tokenOut, minimum, output)
    decreases output, 2
  {
    var after := swapped.ledger.Balance(tokenOut, c.adapter);
    if after >= before {
      TokenSame(c, pairs, now, swapped, c.adapter, tokenOut, c.adapter, c.self, after - before, output);
    }
  }

  lemma {:induction false} TradeSame(c: Deployment, pairs: Pairs, now: nat, s: State, tokenIn: Address, amountIn: Word,
                                     tokenOut: Address, minimum: nat, callee: Callee)
    requires InCallee(c, pairs, callee)
    ensures Trade(Restrict(c, pairs), now, s, tokenIn, amountIn, tokenOut, minimum, callee)
         == Trade(c, now, s, tokenIn, amountIn, tokenOut, minimum, callee)
    decreases callee, 2
  {
    SwappedSame(c, pairs, now, s, tokenIn, amountIn, callee);
    PassOnSame(c, pairs, now, s.ledger.Balance(tokenOut, c.adapter), Swapped(c, now, s, tokenIn, amountIn, callee),
               tokenOut, minimum, callee.output);
  }

  lemma {:induction false} V2Same(c: Deployment, pairs: Pairs, now: nat, s: State, sender: Address, tokenIn: Address,
                                  amountIn: Word, data: Bytes, callee: Callee)
    requires InCallee(c, pairs, callee)
    ensures V2Step(Restrict(c, pairs), now, s, sender, tokenIn, amountIn, data, callee)
         == V2Step(c, now, s, sender, tokenIn, amountIn, data, callee)
    decreases callee, 3
  {
    var guard := V2Guard(c, now, s, sender, tokenIn, data);
    V2GuardSame(c, pairs, now, s, sender, tokenIn, data);
    if guard.Ok? {
      var r := guard.value;
      TradeSame(c, pairs, now, s, tokenIn, amountIn, r.path[|r.path| - 1], r.amountOutMin, callee);
    }
  }

  lemma {:induction false} AdapterSame(c: Deployment, pairs: Pairs, now: nat, s: State, adapter: Address,
                                       tokenIn: Address, amount: Word, data: Bytes, callee: Callee)
    requires InCallee(c, pairs, callee)
    ensures CallAdapter(Restrict(c, pairs), now, s, adapter, tokenIn, amount, data, callee)
         == CallAdapter(c, now, s, adapter, tokenIn, amount, data, callee)
    decreases callee, 4
  {
    V2Same(c, pairs, now, s, c.self, tokenIn, amount, data, callee);
    ScriptSame(c, pairs, now, s, callee.calls);
  }

  lemma {:induction false} PayoutSame(c: Deployment, pairs: Pairs, now: nat, s: State, a: RouteAuthorization,
                                      amountOut: nat, hook: Hook)
    requires InHook(c, pairs, hook)
    ensures Payout(Restrict(c, pairs), now, s, a, amountOut, hook) == Payout(c, now, s, a, amountOut, hook)
    decreases hook, 2
  {
    var executed := s.SetStatus(a.intentId, Executed);
    TokenSame(c, pairs, now, executed, c.self, a.tokenOut, c.self, executed.Intent(a.intentId).owner, amountOut, hook);
  }

  lemma GuardSame(c: Deployment, pairs: Pairs, now: nat, s: State, a: RouteAuthorization, signature: Bytes, data: Bytes)
    requires (AuthorizationDigest(c, a), signature) in pairs
    ensures ExecuteGuard(Restrict(c, pairs), now, s, a, signature, data) == ExecuteGuard(c, now, s, a, signature, data)
  {
    assert AuthorizationDigest(Restrict(c, pairs), a) == AuthorizationDigest(c, a);
  }

  lemma {:induction false} FinishSame(c: Deployment, pairs: Pairs, now: nat, outputBefore: nat, a: RouteAuthorization,
                                      back: State, tokenOut: Address, output: Hook)
    requires InHook(c, pairs, output)
    ensures Finish(Restrict(c, pairs), now, outputBefore, a, back, tokenOut, output)
         == Finish(c, now, outputBefore, a, back, tokenOut, output)
    decreases output, 3
  {
    var measured := Measured(c, outputBefore, a, back, tokenOut);
    assert Measured(Restrict(c, pairs), outputBefore, a, back, tokenOut) == measured;
    if measured.Ok? {
      PayoutSame(c, pairs, now, back, a, measured.value, output);
    }
  }

  lemma {:induction false} ProceedSame(c: Deployment, pairs: Pairs, now: nat, s: State, a: RouteAuthorization,
                                       data: Bytes, x: Externals)
    requires InHook(c, pairs, x.input) && InCallee(c, pairs, x.callee) && InHook(c, pairs, x.output)
    ensures Proceed(Restrict(c, pairs), now, s, a, data, x) == Proceed(c, now, s, a, data, x)
    decreases x, 2
  {
    var i, locked := s.Intent(a.intentId), s.(locked := true);
    var handed := CallToken(c, now, locked, c.self, i.tokenIn, c.self, a.adapter, i.amount, x.input);
    TokenSame(c, pairs, now, locked, c.self, i.tokenIn, c.self, a.adapter, i.amount, x.input);
    if handed.Done? {
      var again := handed.state.Intent(a.intentId);
      var back := CallAdapter(c, now, handed.state, a.adapter, again.tokenIn, again.amount, data, x.callee);
      AdapterSame(c, pairs, now, handed.state, a.adapter, again.tokenIn, again.amount, data, x.callee);
      if back.AdapterDone? {
        FinishSame(c, pairs, now, s.ledger.Balance(a.tokenOut, c.self), a, back.state, back.tokenOut, x.output);
      }
    }
  }

  lemma {:induction false} ExecuteSame(c: Deployment, pairs: Pairs, now: nat, s: State, a: RouteAuthorization,
                                       signature: Bytes, data: Bytes, x: Externals)
    requires (AuthorizationDigest(c, a), signature) in pairs
    requires InHook(c, pairs, x.input) && InCallee(c, pairs, x.callee) && InHook(c, pairs, x.output)
    ensures ExecuteStep(Restrict(c, pairs), now, s, a, signature, data, x)
      == ExecuteStep(c, now, s, a, signature, data, x)
    decreases x, 3
  {
    GuardSame(c, pairs, now, s, a, signature, data);
    ProceedSame(c, pairs, now, s, a, data, x);
  }

  lemma {:induction false} CallSame(c: Deployment, pairs: Pairs, now: nat, s: State, call: Call)
    requires InCall(c, pairs, call)
    ensures Attempt(Restrict(c, pairs), now, s, call) == Attempt(c, now, s, call)
    ensures Exec(Restrict(c, pairs), now, s, call) == Exec(c, now, s, call)
    decreases call, 4
  {
    match call {
      case CreateAndFundIntent(caller, tokenIn, amount, hash, expiry, hook) =>
        CreateAndFundSame(c, pairs, now, s, caller, tokenIn, amount, hash, expiry, hook);
      case FundIntent(caller, id, hook) => FundSame(c, pairs, now, s, caller, id, hook);
      case ExecuteIntent(_, a, signature, data, x) => ExecuteSame(c, pairs, now, s, a, signature, data, x);
      case CancelIntent(caller, id, hook) => CancelSame(c, pairs, now, s, caller, id, hook);
      case AdapterExecute(caller, tokenIn, amountIn, data, callee) =>
        V2Same(c, pairs, now, s, caller, tokenIn, amountIn, data, callee);
      case Frame(calls, _) => ScriptSame(c, pairs, now, s, calls);
      case CreateIntent(caller, tokenIn, amount, hash, expiry) =>
        assert CreateStep(Restrict(c, pairs), now, s, caller, tokenIn, amount, hash, expiry)
            == CreateStep(c, now, s, caller, tokenIn, amount, hash, expiry);
      case _ =>
    }
  }

  lemma {:induction false} ScriptSame(c: Deployment, pairs: Pairs, now: nat, s: State, calls: seq<Call>)
    requires InScript(c, pairs, calls)
    ensures Run(Restrict(c, pairs), now, s, calls) == Run(c, now, s, calls)
    decreases calls, 0
  {
    if calls != [] {
      CallSame(c, pairs, now, s, calls[0]);
      ScriptSame(c, pairs, now, Exec(c, now, s, calls[0]), calls[1..]);
    }
  }

  /** A history runs the same whatever recovery would say of signatures it never presents. */
  lemma {:induction false} HistorySame(c: Deployment, pairs: Pairs, s: State, txs: seq<Transaction>)
    requires InHistory(c, pairs, txs)
    ensures History(Restrict(c, pairs), s, txs) == History(c, s, txs)
    decreases |txs|
  {
    if txs != [] {
      CallSame(c, pairs, txs[0].now, s, txs[0].call);
      assert InHistory(c, pairs, txs[1..]) by {
        assert forall k :: 0 <= k < |txs| - 1 ==> txs[1..][k] == txs[k + 1];
      }
      HistorySame(c, pairs, Exec(c, txs[0].now, s, txs[0].call), txs[1..]);
    }
  }
}
