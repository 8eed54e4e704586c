/** Who administers the router: its owner of the moment, and nobody else, whatever code runs inside the calls. */
module Administration {
  import opened Bytes
  import opened Custody
  import opened CustodyInvariant
  import opened CustodyLog
  import opened Interference
  import opened RouterTypes
  import Settlement
  import opened Wrappers

  predicate IsSetter(q: Call)
  {
    q.SetAdapter? || q.SetTeeSigner? || q.SetPaused? || q.TransferOwnership?
  }

  // ---------------------------------------------------------------- one setter

  /** An address is given where one is needed. */
  predicate WellAimed(q: Call)
    requires IsSetter(q)
  {
    match q
    case SetAdapter(_, adapter, _) => adapter != 0
    case SetTeeSigner(_, newSigner) => newSigner != 0
    case TransferOwnership(_, newOwner) => newOwner != 0
    case SetPaused(_, _) => true
  }

  /** Just the one field has the new value, and the log one event more. */
  predicate Installed(s: State, q: Call, s': State)
    requires IsSetter(q)
  {
    match q
    case SetAdapter(_, adapter, allowed) =>
      && s'.Allowed(adapter) == allowed
      && s' == s.(allowedAdapters := s'.allowedAdapters, events := s.events + [AdapterPermissionSet(adapter, allowed)])
      && forall other :: other != adapter ==> s'.Allowed(other) == s.Allowed(other)
    case SetTeeSigner(_, newSigner) =>
      s' == s.(teeSigner := newSigner, events := s.events + [TeeSignerSet(s.teeSigner, newSigner)])
    case SetPaused(_, newPaused) => s' == s.(paused := newPaused, events := s.events + [PauseSet(newPaused)])
    case TransferOwnership(_, newOwner) =>
      s' == s.(owner := newOwner, events := s.events + [OwnershipTransferred(s.owner, newOwner)])
  }

  /** A setter succeeds exactly when the owner calls it with a usable address, and then does just what it says. */
  lemma SetterExact(d: Deployment, now: nat, s: State, q: Call)
    requires IsSetter(q) && !Protected(d, q.caller)
    ensures Attempt(d, now, s, q).Done? <==> q.caller == s.owner && WellAimed(q)
    ensures Attempt(d, now, s, q).Done? ==> Installed(s, q, Attempt(d, now, s, q).state)
    ensures Attempt(d, now, s, q).Revert? ==>
      Attempt(d, now, s, q).error == if q.caller != s.owner then Unauthorized else InvalidAddress
  {
  }

  // ---------------------------------------------------------------- setters anywhere in a call

  /** One call is another, or is made somewhere inside it: in a frame, or by a token, an adapter or a venue. */
  predicate Within(c: Call, q: Call)
    decreases c, 1
  {
    c == q ||
    match c
    case CreateAndFundIntent(_, _, _, _, _, hook) => WithinHook(hook, q)
    case FundIntent(_, _, hook) => WithinHook(hook, q)
    case ExecuteIntent(_, _, _, _, x) => WithinHook(x.input, q) || WithinCallee(x.callee, q) || WithinHook(x.output, q)
    case CancelIntent(_, _, hook) => WithinHook(hook, q)
    case AdapterExecute(_, _, _, _, callee) => WithinCallee(callee, q)
    case Frame(calls, _) => WithinScript(calls, q)
    case _ => false
  }

  predicate WithinHook(hook: Hook, q: Call)
    decreases hook, 1
  {
    WithinScript(hook.before, q) || WithinScript(hook.after, q)
  }

  predicate WithinCallee(callee: Callee, q: Call)
    decreases callee, 1
  {
    WithinScript(callee.approving, q) || WithinScript(callee.calls, q) || WithinScript(callee.clearing, q)
    || WithinHook(callee.output, q)
  }

  predicate WithinScript(calls: seq<Call>, q: Call)
    decreases calls, 0
  {
    calls != [] && (Within(calls[0], q) || WithinScript(calls[1..], q))
  }

  // ---------------------------------------------------------------- what an owner's orders come to

  /** The router's administration, and every signer it ever trusted. */
  datatype Admin = Admin(owner: Address, signer: Address, paused: bool, allowed: map<Address, bool>,
                         signers: set<Address>)

  function AdminOf(s: State): Admin
  {
    Admin(s.owner, s.teeSigner, s.paused, s.allowedAdapters, Signers(s.events))
  }

  /** An order obeyed, if it is the owner's. */
  function Obey(m: Admin, q: Call): Option<Admin>
  {
    if !IsSetter(q) || q.caller != m.owner then None
    else match q
      case SetAdapter(_, adapter, allowed) => Some(m.(allowed := m.allowed[adapter := allowed]))
      case SetTeeSigner(_, newSigner) => Some(m.(signer := newSigner, signers := m.signers + {newSigner}))
      case SetPaused(_, newPaused) => Some(m.(paused := newPaused))
      case TransferOwnership(_, newOwner) => Some(m.(owner := newOwner))
  }

  function ObeyAll(m: Admin, orders: seq<Call>): Option<Admin>
  {
    if orders == [] then Some(m)
    else
      match ObeyAll(m, orders[..|orders| - 1])
      case None => None
      case Some(before) => Obey(before, orders[|orders| - 1])
  }

  lemma {:induction false} ObeyAppend(m: Admin, a: seq<Call>, b: seq<Call>)
    requires ObeyAll(m, a).Some?
    ensures ObeyAll(m, a + b) == ObeyAll(ObeyAll(m, a).value, b)
  {
    if b == [] {
      assert a + b == a;
    } else {
      ObeyAppend(m, a, b[..|b| - 1]);
      assert (a + b)[..|a + b| - 1] == a + b[..|b| - 1];
    }
  }

  /** From one state to the next, these orders were all that changed the administration, each given by the owner
      it found. */
  ghost predicate Steered(s: State, orders: seq<Call>, s': State)
  {
    ObeyAll(AdminOf(s), orders) == Some(AdminOf(s'))
  }

  lemma SteeredOn(s0: State, a: seq<Call>, s1: State, b: seq<Call>, s2: State)
    requires Steered(s0, a, s1) && Steered(s1, b, s2)
    ensures Steered(s0, a + b, s2)
  {
    ObeyAppend(AdminOf(s0), a, b);
  }

  // an event that is no change of signer
  lemma QuietAdmin(d: Deployment, s: State, s': State, e: Event)
    requires s'.owner == s.owner && s'.teeSigner == s.teeSigner && s'.paused == s.paused
    requires s'.allowedAdapters == s.allowedAdapters && s'.events == s.events + [e] && !e.TeeSignerSet?
    ensures AdminOf(s') == AdminOf(s)
  {
    Logged(d, s.events, e);
  }

  lemma MoveAdmin(d: Deployment, s: State, operator: Address, token: Address, from: Address, to: Address, amount: nat)
    requires MoveUnits(s, operator, token, from, to, amount).Done?
    ensures var s' := MoveUnits(s, operator, token, from, to, amount).state;
      AdminOf(s') == AdminOf(s) && s'.locked == s.locked
  {
    QuietAdmin(d, s, MoveUnits(s, operator, token, from, to, amount).state,
               Transfer(operator, token, from, to, amount));
  }

  lemma SetterSteers(d: Deployment, now: nat, s: State, q: Call)
    requires IsSetter(q) && Attempt(d, now, s, q).Done?
    ensures Obey(AdminOf(s), q) == Some(AdminOf(Attempt(d, now, s, q).state))
    ensures Attempt(d, now, s, q).state.locked == s.locked
  {
    var s' := Attempt(d, now, s, q).state;
    match q {
      case SetAdapter(_, adapter, allowed) => Logged(d, s.events, AdapterPermissionSet(adapter, allowed));
      case SetTeeSigner(_, newSigner) => Logged(d, s.events, TeeSignerSet(s.teeSigner, newSigner));
      case SetPaused(_, newPaused) => Logged(d, s.events, PauseSet(newPaused));
      case TransferOwnership(_, newOwner) => Logged(d, s.events, OwnershipTransferred(s.owner, newOwner));
    }
  }

  lemma OtherSteers(d: Deployment, now: nat, s: State, c: Call)
    requires !Guarded(c) && !c.Frame? && !IsSetter(c) && Attempt(d, now, s, c).Done?
    ensures AdminOf(Attempt(d, now, s, c).state) == AdminOf(s) && Attempt(d, now, s, c).state.locked == s.locked
  {
    var s' := Attempt(d, now, s, c).state;
    match c {
      case CreateIntent(caller, tokenIn, amount, hash, expiry) =>
        var i := NewIntent(s, caller, tokenIn, amount, hash, expiry);
        QuietAdmin(d, s, s', IntentCreated(IntentId(d, i), i));
      case TokenApprove(_, _, _, _) =>
      case TokenTransferFrom(caller, token, from, to, amount) => MoveAdmin(d, s, caller, token, from, to, amount);
      case TokenMove(caller, token, to, amount) => MoveAdmin(d, s, caller, token, caller, to, amount);
      case TokenMint(_, token, to, amount) => QuietAdmin(d, s, s', Minted(token, to, amount));
    }
  }

  ghost predicate OrdersIn(orders: seq<Call>, calls: seq<Call>)
  {
    forall q | q in orders :: IsSetter(q) && WithinScript(calls, q)
  }

  ghost predicate OrdersOf(orders: seq<Call>, c: Call)
  {
    forall q | q in orders :: IsSetter(q) && Within(c, q)
  }

  lemma OneOrder(m: Admin, q: Call)
    ensures ObeyAll(m, [q]) == Obey(m, q)
  {
    assert [q][..0] == [];
  }

  lemma UnguardedSteers(d: Deployment, now: nat, s: State, c: Call) returns (orders: seq<Call>)
    requires !Guarded(c) && !c.Frame?
    ensures Steered(s, orders, Exec(d, now, s, c)) && OrdersOf(orders, c) && Exec(d, now, s, c).locked == s.locked
  {
    orders := [];
    if Attempt(d, now, s, c).Done? {
      if IsSetter(c) {
        SetterSteers(d, now, s, c);
        OneOrder(AdminOf(s), c);
        orders := [c];
      } else {
        OtherSteers(d, now, s, c);
      }
    }
  }

  // ---------------------------------------------------------------- under the lock

  lemma {:induction false} LockedExecSteers(d: Deployment, now: nat, s: State, c: Call) returns (orders: seq<Call>)
    requires s.locked
    ensures Steered(s, orders, Exec(d, now, s, c)) && OrdersOf(orders, c) && Exec(d, now, s, c).locked
    decreases c, 1
  {
    orders := [];
    if Guarded(c) {
      LockBlocks(d, now, s, c);
    } else if c.Frame? {
      if Attempt(d, now, s, c).Done? {
        orders := LockedRunSteers(d, now, s, c.calls);
      }
    } else {
      orders := UnguardedSteers(d, now, s, c);
    }
  }

  lemma {:induction false} LockedRunSteers(d: Deployment, now: nat, s: State, calls: seq<Call>)
    returns (orders: seq<Call>)
    requires s.locked
    ensures Steered(s, orders, Run(d, now, s, calls)) && OrdersIn(orders, calls) && Run(d, now, s, calls).locked
    decreases calls, 0
  {
    orders := [];
    if calls != [] {
      var mid := Exec(d, now, s, calls[0]);
      var first := LockedExecSteers(d, now, s, calls[0]);
      var rest := LockedRunSteers(d, now, mid, calls[1..]);
      orders := first + rest;
      SteeredOn(s, first, mid, rest, Run(d, now, s, calls));
    }
  }

  lemma TokenSteers(d: Deployment, now: nat, s: State, operator: Address, token: Address, from: Address, to: Address,
                    amount: nat, hook: Hook) returns (orders: seq<Call>)
    requires s.locked && CallToken(d, now, s, operator, token, from, to, amount, hook).Done?
    ensures var s' := CallToken(d, now, s, operator, token, from, to, amount, hook).state;
      Steered(s, orders, s') && s'.locked
    ensures forall q | q in orders :: IsSetter(q) && WithinHook(hook, q)
  {
    var s1 := Run(d, now, s, hook.before);
    var s2 := MoveUnits(s1, operator, token, from, to, amount).state;
    var a := LockedRunSteers(d, now, s, hook.before);
    MoveAdmin(d, s1, operator, token, from, to, amount);
    var b := LockedRunSteers(d, now, s2, hook.after);
    orders := a + b;
    SteeredOn(s, a, s1, b, Run(d, now, s2, hook.after));
  }

  lemma VentureSteers(d: Deployment, now: nat, s: State, tokenIn: Address, amountIn: Word, calls: seq<Call>)
    returns (orders: seq<Call>)
    requires s.locked
    ensures var s' := Ventured(d, now, s, tokenIn, amountIn, calls);
      Steered(s, orders, s') && s'.locked && OrdersIn(orders, calls)
  {
    orders := LockedRunSteers(d, now, s.(ledger := s.ledger.Approve(tokenIn, d.adapter, d.exchange, amountIn)), calls);
  }

  lemma SwapSteers(d: Deployment, now: nat, s: State, tokenIn: Address, amountIn: Word, callee: Callee)
    returns (orders: seq<Call>)
    requires s.locked
    ensures var s' := Swapped(d, now, s, tokenIn, amountIn, callee); Steered(s, orders, s') && s'.locked
    ensures forall q | q in orders :: IsSetter(q) && WithinCallee(callee, q)
  {
    var shut := s.(adapterLocked := true);
    var asked := Run(d, now, shut, callee.approving);
    var ventured := Ventured(d, now, asked, tokenIn, amountIn, callee.calls);
    var a := LockedRunSteers(d, now, shut, callee.approving);
    var b := VentureSteers(d, now, asked, tokenIn, amountIn, callee.calls);
    var c := LockedRunSteers(d, now, ventured, callee.clearing);
    orders := a + b + c;
    SteeredOn(s, a, asked, b, ventured);
    SteeredOn(s, a + b, ventured, c, Run(d, now, ventured, callee.clearing));
  }

  lemma PassOnSteers(d: Deployment, now: nat, before: nat, swapped: State, tokenOut: Address, minimum: nat,
                     output: Hook)
    returns (orders: seq<Call>)
    requires swapped.locked && PassOn(d, now, before, swapped, tokenOut, minimum, output).AdapterDone?
    ensures var s' := PassOn(d, now, before, swapped, tokenOut, minimum, output).state;
      Steered(swapped, orders, s') && s'.locked
    ensures forall q | q in orders :: IsSetter(q) && WithinHook(output, q)
  {
    var amount := swapped.ledger.Balance(tokenOut, d.adapter) - before;
    orders := TokenSteers(d, now, swapped, d.adapter, tokenOut, d.adapter, d.self, amount, output);
  }

  lemma TradeSteers(d: Deployment, now: nat, s: State, tokenIn: Address, amountIn: Word, tokenOut: Address,
                    minimum: nat, callee: Callee)
    returns (orders: seq<Call>)
    requires s.locked && Trade(d, now, s, tokenIn, amountIn, tokenOut, minimum, callee).AdapterDone?
    ensures var s' := Trade(d, now, s, tokenIn, amountIn, tokenOut, minimum, callee).state;
      Steered(s, orders, s') && s'.locked
    ensures forall q | q in orders :: IsSetter(q) && WithinCallee(callee, q)
  {
    var before, swapped := s.ledger.Balance(tokenOut, d.adapter), Swapped(d, now, s, tokenIn, amountIn, callee);
    var a := SwapSteers(d, now, s, tokenIn, amountIn, callee);
    assert Trade(d, now, s, tokenIn, amountIn, tokenOut, minimum, callee)
        == PassOn(d, now, before, swapped, tokenOut, minimum, callee.output);
    var b := PassOnSteers(d, now, before, swapped, tokenOut, minimum, callee.output);
    orders := a + b;
    SteeredOn(s, a, swapped, b, Trade(d, now, s, tokenIn, amountIn, tokenOut, minimum, callee).state);
  }

  lemma AdapterSteers(d: Deployment, now: nat, s: State, adapter: Address, tokenIn: Address, amount: Word, data: Bytes,
                      callee: Callee) returns (orders: seq<Call>)
    requires s.locked && CallAdapter(d, now, s, adapter, tokenIn, amount, data, callee).AdapterDone?
    ensures var s' := CallAdapter(d, now, s, adapter, tokenIn, amount, data, callee).state;
      Steered(s, orders, s') && s'.locked
    ensures forall q | q in orders :: IsSetter(q) && WithinCallee(callee, q)
  {
    if adapter == d.adapter {
      var r := V2Guard(d, now, s, d.self, tokenIn, data).value;
      Settlement.V2Trades(d, now, s, tokenIn, amount, data, callee);
      orders := TradeSteers(d, now, s, tokenIn, amount, r.path[|r.path| - 1], r.amountOutMin, callee);
    } else {
      orders := LockedRunSteers(d, now, s, callee.calls);
    }
  }

  // ---------------------------------------------------------------- the guarded entry points

  lemma FinishSteers(d: Deployment, now: nat, s: State, a: RouteAuthorization, amountOut: nat, hook: Hook)
    returns (orders: seq<Call>)
    requires s.locked && Payout(d, now, s, a, amountOut, hook).Done?
    ensures Steered(s, orders, Payout(d, now, s, a, amountOut, hook).state)
    ensures forall q | q in orders :: IsSetter(q) && WithinHook(hook, q)
  {
    var executed := s.SetStatus(a.intentId, Executed);
    var owner := executed.Intent(a.intentId).owner;
    orders := TokenSteers(d, now, executed, d.self, a.tokenOut, d.self, owner, amountOut, hook);
    var paid := CallToken(d, now, executed, d.self, a.tokenOut, d.self, owner, amountOut, hook).state;
    QuietAdmin(d, paid, Payout(d, now, s, a, amountOut, hook).state,
               IntentExecuted(a.intentId, a.adapter, a.tokenOut, paid.Intent(a.intentId).amount, amountOut));
  }

  lemma ProceedSteers(d: Deployment, now: nat, s: State, a: RouteAuthorization, data: Bytes, x: Externals)
    returns (orders: seq<Call>)
    requires Proceed(d, now, s, a, data, x).Done?
    ensures Steered(s, orders, Proceed(d, now, s, a, data, x).state)
    ensures forall q | q in orders ::
      IsSetter(q) && (WithinHook(x.input, q) || WithinCallee(x.callee, q) || WithinHook(x.output, q))
  {
    var i, locked := s.Intent(a.intentId), s.(locked := true);
    var handed := CallToken(d, now, locked, d.self, i.tokenIn, d.self, a.adapter, i.amount, x.input).state;
    var again := handed.Intent(a.intentId);
    var back := CallAdapter(d, now, handed, a.adapter, again.tokenIn, again.amount, data, x.callee);
    var amountOut := Measured(d, s.ledger.Balance(a.tokenOut, d.self), a, back.state, back.tokenOut).value;
    var first := TokenSteers(d, now, locked, d.self, i.tokenIn, d.self, a.adapter, i.amount, x.input);
    var second := AdapterSteers(d, now, handed, a.adapter, again.tokenIn, again.amount, data, x.callee);
    assert Proceed(d, now, s, a, data, x) == Payout(d, now, back.state, a, amountOut, x.output);
    var third := FinishSteers(d, now, back.state, a, amountOut, x.output);
    orders := first + second + third;
    SteeredOn(s, first, handed, second, back.state);
    SteeredOn(s, first + second, back.state, third, Proceed(d, now, s, a, data, x).state);
  }

  lemma PullSteers(d: Deployment, now: nat, s: State, id: Word, hook: Hook) returns (orders: seq<Call>)
    requires s.locked && Pull(d, now, s, id, hook).Done?
    ensures Steered(s, orders, Pull(d, now, s, id, hook).state)
    ensures forall q | q in orders :: IsSetter(q) && WithinHook(hook, q)
  {
    var i := s.Intent(id);
    orders := TokenSteers(d, now, s.SetStatus(id, Funded), d.self, i.tokenIn, i.owner, d.self, i.amount, hook);
  }

  lemma FundSteers(d: Deployment, now: nat, s: State, caller: Address, id: Word, hook: Hook) returns (orders: seq<Call>)
    requires FundStep(d, now, s, caller, id, hook).Done?
    ensures Steered(s, orders, FundStep(d, now, s, caller, id, hook).state)
    ensures forall q | q in orders :: IsSetter(q) && WithinHook(hook, q)
  {
    orders := PullSteers(d, now, s.(locked := true), id, hook);
    var paid := Pull(d, now, s.(locked := true), id, hook).state;
    QuietAdmin(d, paid, FundStep(d, now, s, caller, id, hook).state, IntentFunded(id, paid.Intent(id).amount));
  }

  lemma CreateAndFundSteers(d: Deployment, now: nat, s: State, owner: Address, tokenIn: Address, amount: Word,
                            hash: Word, expiry: Uint64, hook: Hook)
    returns (orders: seq<Call>)
    requires CreateAndFundStep(d, now, s, owner, tokenIn, amount, hash, expiry, hook).Done?
    ensures Steered(s, orders, CreateAndFundStep(d, now, s, owner, tokenIn, amount, hash, expiry, hook).state)
    ensures forall q | q in orders :: IsSetter(q) && WithinHook(hook, q)
  {
    var i := NewIntent(s, owner, tokenIn, amount, hash, expiry);
    var id, created := IntentId(d, i), Register(d, now, s.(locked := true), owner, tokenIn, amount, hash, expiry).state;
    QuietAdmin(d, s, created, IntentCreated(id, i));
    orders := PullSteers(d, now, created, id, hook);
    QuietAdmin(d, Pull(d, now, created, id, hook).state,
               CreateAndFundStep(d, now, s, owner, tokenIn, amount, hash, expiry, hook).state,
               IntentFunded(id, amount));
  }

  lemma CancelSteers(d: Deployment, now: nat, s: State, caller: Address, id: Word, hook: Hook)
    returns (orders: seq<Call>)
    requires CancelStep(d, now, s, caller, id, hook).Done?
    ensures Steered(s, orders, CancelStep(d, now, s, caller, id, hook).state)
    ensures forall q | q in orders :: IsSetter(q) && WithinHook(hook, q)
  {
    var i, m := s.Intent(id), s.(locked := true).SetStatus(id, Cancelled);
    orders := [];
    if i.status != Funded || i.amount == 0 {
      QuietAdmin(d, m, CancelStep(d, now, s, caller, id, hook).state, IntentCancelled(id, 0));
    } else {
      orders := TokenSteers(d, now, m, d.self, i.tokenIn, d.self, i.owner, i.amount, hook);
      QuietAdmin(d, CallToken(d, now, m, d.self, i.tokenIn, d.self, i.owner, i.amount, hook).state,
                 CancelStep(d, now, s, caller, id, hook).state, IntentCancelled(id, i.amount));
    }
  }

  lemma GuardedSteers(d: Deployment, now: nat, s: State, c: Call) returns (orders: seq<Call>)
    requires Guarded(c)
    ensures Steered(s, orders, Exec(d, now, s, c)) && OrdersOf(orders, c)
  {
    orders := [];
    if Attempt(d, now, s, c).Done? {
      match c {
        case CreateAndFundIntent(caller, tokenIn, amount, hash, expiry, hook) =>
          orders := CreateAndFundSteers(d, now, s, caller, tokenIn, amount, hash, expiry, hook);
        case FundIntent(caller, id, hook) => orders := FundSteers(d, now, s, caller, id, hook);
        case ExecuteIntent(_, a, signature, data, x) =>
          Settlement.PastGuard(d, now, s, a, signature, data, x);
          orders := ProceedSteers(d, now, s, a, data, x);
        case CancelIntent(caller, id, hook) => orders := CancelSteers(d, now, s, caller, id, hook);
        case AdapterExecute(_, _, _, _, _) => AdapterRefuses(d, now, s, c);
      }
    }
  }

  // ---------------------------------------------------------------- every call, every history

  /** Whatever runs inside a call, the administration changes only by setters made in it, each by the owner of
      that moment. */
  lemma {:induction false} ExecSteers(d: Deployment, now: nat, s: State, c: Call) returns (orders: seq<Call>)
    ensures Steered(s, orders, Exec(d, now, s, c)) && OrdersOf(orders, c)
    decreases c, 1
  {
    orders := [];
    if Guarded(c) {
      orders := GuardedSteers(d, now, s, c);
    } else if !c.Frame? {
      orders := UnguardedSteers(d, now, s, c);
    } else if Attempt(d, now, s, c).Done? {
      orders := RunSteers(d, now, s, c.calls);
    }
  }

  lemma {:induction false} RunSteers(d: Deployment, now: nat, s: State, calls: seq<Call>) returns (orders: seq<Call>)
    ensures Steered(s, orders, Run(d, now, s, calls)) && OrdersIn(orders, calls)
    decreases calls, 0
  {
    orders := [];
    if calls != [] {
      var mid := Exec(d, now, s, calls[0]);
      var first := ExecSteers(d, now, s, calls[0]);
      var rest := RunSteers(d, now, mid, calls[1..]);
      orders := first + rest;
      SteeredOn(s, first, mid, rest, Run(d, now, s, calls));
    }
  }

  predicate Made(txs: seq<Transaction>, q: Call)
  {
    exists k :: 0 <= k < |txs| && Within(txs[k].call, q)
  }

  lemma {:induction false} HistorySteers(d: Deployment, s: State, txs: seq<Transaction>) returns (orders: seq<Call>)
    ensures Steered(s, orders, History(d, s, txs))
    ensures forall q | q in orders :: IsSetter(q) && Made(txs, q)
    decreases |txs|
  {
    orders := [];
    if txs != [] {
      var mid := Exec(d, txs[0].now, s, txs[0].call);
      var first := ExecSteers(d, txs[0].now, s, txs[0].call);
      var rest := HistorySteers(d, mid, txs[1..]);
      orders := first + rest;
      SteeredOn(s, first, mid, rest, History(d, s, txs));
      forall q | q in orders
        ensures IsSetter(q) && Made(txs, q)
      {
        if q in first {
          assert Within(txs[0].call, q);
        } else {
          var k :| 0 <= k < |txs[1..]| && Within(txs[1..][k].call, q);
          assert txs[k + 1] == txs[1..][k];
        }
      }
    }
  }

  /** An order gave the signer, and its giver owned the router then. */
  ghost predicate Appointed(m: Admin, orders: seq<Call>, signer: Address, i: nat)
  {
    && i < |orders| && ObeyAll(m, orders[..i]).Some?
    && orders[i] == SetTeeSigner(ObeyAll(m, orders[..i]).value.owner, signer)
  }

  lemma {:induction false} SignersAppointed(m: Admin, orders: seq<Call>, signer: Address)
    requires ObeyAll(m, orders).Some? && signer in ObeyAll(m, orders).value.signers
    ensures signer in m.signers || exists i :: Appointed(m, orders, signer, i)
  {
    if orders != [] {
      var front, n := orders[..|orders| - 1], |orders| - 1;
      var before := ObeyAll(m, front).value;
      if signer in before.signers {
        SignersAppointed(m, front, signer);
        if signer !in m.signers {
          var i: nat :| Appointed(m, front, signer, i);
          assert front[..i] == orders[..i];
          assert Appointed(m, orders, signer, i);
        }
      } else {
        assert Appointed(m, orders, signer, n);
      }
    }
  }

  /** Over any history: the administration is what the orders of its successive owners make of the
      constructor's, all of them setters made in the history; and every signer ever trusted is the
      constructor's or was appointed by an owner. */
  lemma OnlyOwnersAdminister(d: Deployment, s0: State, owner: Address, signer: Address, txs: seq<Transaction>)
    returns (orders: seq<Call>)
    requires Initial(d, s0, owner, signer)
    ensures ObeyAll(Admin(owner, signer, false, map[], {signer}), orders) == Some(AdminOf(History(d, s0, txs)))
    ensures forall q | q in orders :: IsSetter(q) && Made(txs, q)
    ensures forall k | k in Signers(History(d, s0, txs).events) ::
      k == signer || exists i :: Appointed(Admin(owner, signer, false, map[], {signer}), orders, k, i)
  {
    var m := Admin(owner, signer, false, map[], {signer});
    var first, second := OwnershipTransferred(0, owner), TeeSignerSet(0, signer);
    Logged(d, [], first);
    Logged(d, [first], second);
    assert [] + [first] == [first] && [first] + [second] == s0.events;
    assert AdminOf(s0) == m;
    orders := HistorySteers(d, s0, txs);
    forall k | k in Signers(History(d, s0, txs).events)
      ensures k == signer || exists i :: Appointed(m, orders, k, i)
    {
      SignersAppointed(m, orders, k);
    }
  }
}
