/** The contracts as they run: storage and ledger fields updated statement by statement, callbacks in the
    middle of entry points, and storage put back when an entry point reverts. */
module ChainModule {
  import opened Abi
  import opened Bytes
  import opened Custody
  import opened RouterTypes
  import opened Wrappers

  /** A call that fails reports its error and leaves the state it found. */
  ghost predicate Agrees(expected: Outcome, before: State, after: State, result: Option<Error>)
  {
    match expected
    case Done(s) => result.None? && after == s
    case Revert(e) => result == Some(e) && after == before
  }

  predicate Last(events: seq<Event>, e: Event)
  {
    |events| > 0 && events[|events| - 1] == e
  }

  class Chain {
    const d: Deployment

    // ShadowRouter
    var owner: Address
    var teeSigner: Address
    var paused: bool
    var locked: bool
    var intents: map<Word, Intent>
    var nextIntentNonce: map<Address, Uint64>
    var allowedAdapters: map<Address, bool>

    // UniswapV2RouteAdapter
    var adapterLocked: bool

    // every token contract, and the log
    var ledger: Ledger
    var events: seq<Event>

    function Snapshot(): State
      reads this
    {
      State(owner, teeSigner, paused, locked, adapterLocked, intents, nextIntentNonce, allowedAdapters, ledger, events)
    }

    // the state a successful deployment leaves
    constructor (d: Deployment, initialOwner: Address, initialTeeSigner: Address, ledger: Ledger)
      requires initialOwner != 0 && initialTeeSigner != 0 && d.self != d.adapter
      requires forall token, who, spender | Protected(d, who) :: ledger.Allowance(token, who, spender) == 0
      ensures this.d == d && Initial(d, Snapshot(), initialOwner, initialTeeSigner)
      ensures this.ledger == ledger
    {
      this.d := d;
      this.ledger := ledger;
      owner, teeSigner := initialOwner, initialTeeSigner;
      paused, locked, adapterLocked := false, false, false;
      intents, nextIntentNonce, allowedAdapters := map[], map[], map[];
      events := [OwnershipTransferred(0, initialOwner), TeeSignerSet(0, initialTeeSigner)];
    }

    /** Deployment, which reverts on a zero address. */
    static method Deploy(d: Deployment, initialOwner: Address, initialTeeSigner: Address, ledger: Ledger)
      returns (chain: Chain?, r: Option<Error>)
      requires d.self != d.adapter
      requires forall token, who, spender | Protected(d, who) :: ledger.Allowance(token, who, spender) == 0
      ensures r == if initialOwner == 0 || initialTeeSigner == 0 then Some(InvalidAddress) else None
      ensures r.Some? ==> chain == null
      ensures r.None? ==>
        chain != null && fresh(chain) && chain.d == d && chain.ledger == ledger
          && Initial(d, chain.Snapshot(), initialOwner, initialTeeSigner)
    {
      if initialOwner == 0 || initialTeeSigner == 0 {
        return null, Some(InvalidAddress);
      }
      chain := new Chain(d, initialOwner, initialTeeSigner, ledger);
      r := None;
    }

    /** What the EVM does when a call reverts. */
    method Restore(saved: State)
      modifies this
      ensures Snapshot() == saved
    {
      owner, teeSigner, paused, locked := saved.owner, saved.teeSigner, saved.paused, saved.locked;
      adapterLocked := saved.adapterLocked;
      intents, nextIntentNonce := saved.intents, saved.nextIntentNonce;
      allowedAdapters, ledger, events := saved.allowedAdapters, saved.ledger, saved.events;
    }

    method Emit(e: Event)
      modifies this`events
      ensures events == old(events) + [e] && Snapshot() == old(Snapshot()).Emit(e)
    {
      events := events + [e];
    }

    method SetStatus(id: Word, status: Status)
      modifies this`intents
      ensures Snapshot() == old(Snapshot()).SetStatus(id, status)
    {
      intents := intents[id := Snapshot().Intent(id).(status := status)];
    }

    // -------------------------------------------------------------- tokens

    method MoveUnits(operator: Address, token: Address, from: Address, to: Address, amount: nat)
      returns (r: Option<Error>)
      modifies this
      ensures Agrees(Custody.MoveUnits(old(Snapshot()), operator, token, from, to, amount), old(Snapshot()), Snapshot(),
                     r)
    {
      var allowance := ledger.Allowance(token, from, operator);
      if operator != from && allowance < amount {
        return Some(TokenFailure);
      }
      if ledger.Balance(token, from) < amount {
        return Some(TokenFailure);
      }
      if operator != from && allowance != UNLIMITED {
        ledger := ledger.Approve(token, from, operator, allowance - amount);
      }
      ledger := ledger.Debit(token, from, amount);
      ledger := ledger.Credit(token, to, amount);
      Emit(Transfer(operator, token, from, to, amount));
      r := None;
    }

    /** A SafeERC20 call, with whatever code the token runs around it. */
    method CallToken(now: nat, operator: Address, token: Address, from: Address, to: Address, amount: nat, hook: Hook)
      returns (r: Option<Error>)
      modifies this
      ensures Agrees(Custody.CallToken(d, now, old(Snapshot()), operator, token, from, to, amount, hook),
                     old(Snapshot()), Snapshot(), r)
      decreases hook, 1
    {
      if hook.reverts {
        return Some(TokenFailure);
      }
      var saved := Snapshot();
      Run(now, hook.before);
      r := MoveUnits(operator, token, from, to, amount);
      if r.Some? {
        Restore(saved);
        return;
      }
      Run(now, hook.after);
    }

    // -------------------------------------------------------------- creating and funding

    method Register(now: nat, intentOwner: Address, tokenIn: Address, amount: Word, hash: Word, expiry: Uint64)
      returns (r: Option<Error>, intentId: Word)
      modifies this
      ensures Agrees(Custody.Register(d, now, old(Snapshot()), intentOwner, tokenIn, amount, hash, expiry),
                     old(Snapshot()), Snapshot(), r)
      ensures intentId == IntentId(d, NewIntent(old(Snapshot()), intentOwner, tokenIn, amount, hash, expiry))
    {
      var nonce := Snapshot().Nonce(intentOwner);
      var intent := Intent(intentOwner, tokenIn, amount, hash, expiry, nonce, Created);
      intentId := IntentId(d, intent);
      if tokenIn == 0 || amount == 0 || hash == 0 {
        return Some(InvalidIntent), intentId;
      }
      if expiry <= now {
        return Some(InvalidExpiry), intentId;
      }
      if nonce == UINT64 - 1 {
        return Some(Arithmetic), intentId;
      }
      if Snapshot().Intent(intentId).status != Missing {
        return Some(InvalidIntent), intentId;
      }
      nextIntentNonce := nextIntentNonce[intentOwner := nonce + 1];
      intents := intents[intentId := intent];
      Emit(IntentCreated(intentId, intent));
      r := None;
    }

    method CreateIntent(now: nat, caller: Address, tokenIn: Address, amount: Word, hash: Word, expiry: Uint64)
      returns (r: Option<Error>, intentId: Word)
      modifies this
      ensures Agrees(CreateStep(d, now, old(Snapshot()), caller, tokenIn, amount, hash, expiry), old(Snapshot()),
                     Snapshot(), r)
      ensures r.None? ==>
        && intentId in intents
        && intents[intentId] == Intent(caller, tokenIn, amount, hash, expiry, old(Snapshot().Nonce(caller)), Created)
        && Last(events, IntentCreated(intentId, intents[intentId]))
    {
      if paused {
        return Some(ContractPaused), 0;
      }
      r, intentId := Register(now, caller, tokenIn, amount, hash, expiry);
    }

    method CreateAndFundIntent(now: nat, caller: Address, tokenIn: Address, amount: Word, hash: Word, expiry: Uint64,
                               hook: Hook)
      returns (r: Option<Error>, intentId: Word)
      modifies this
      ensures Agrees(CreateAndFundStep(d, now, old(Snapshot()), caller, tokenIn, amount, hash, expiry, hook),
                     old(Snapshot()), Snapshot(), r)
      ensures r.None? ==> Last(events, IntentFunded(intentId, amount))
      decreases hook, 3
    {
      if locked {
        return Some(Reentrancy), 0;
      }
      if paused {
        return Some(ContractPaused), 0;
      }
      var saved := Snapshot();
      locked := true;
      r, intentId := Register(now, caller, tokenIn, amount, hash, expiry);
      if r.Some? {
        Restore(saved);
        return;
      }
      r := Pull(now, intentId, hook);
      if r.Some? {
        Restore(saved);
        return;
      }
      Emit(IntentFunded(intentId, amount));
      locked := false;
    }

    method FundIntent(now: nat, caller: Address, intentId: Word, hook: Hook) returns (r: Option<Error>)
      modifies this
      ensures Agrees(FundStep(d, now, old(Snapshot()), caller, intentId, hook), old(Snapshot()), Snapshot(), r)
      ensures r.None? ==>
        var intent := old(Snapshot().Intent(intentId));
        && !old(locked) && !old(paused)
        && intent.owner == caller && intent.status == Created && now < intent.expiry
      decreases hook, 3
    {
      if locked {
        return Some(Reentrancy);
      }
      if paused {
        return Some(ContractPaused);
      }
      var intent := Snapshot().Intent(intentId);
      if intent.owner != caller {
        return Some(Unauthorized);
      }
      if intent.status != Created {
        return Some(InvalidStatus);
      }
      if intent.expiry <= now {
        return Some(IntentExpired);
      }
      var saved := Snapshot();
      locked := true;
      r := Pull(now, intentId, hook);
      if r.Some? {
        Restore(saved);
        return;
      }
      Emit(IntentFunded(intentId, Snapshot().Intent(intentId).amount));
      locked := false;
    }

    /** What both funding paths share: mark the intent funded, pull the deposit. */
    method Pull(now: nat, intentId: Word, hook: Hook) returns (r: Option<Error>)
      modifies this
      ensures match Custody.Pull(d, now, old(Snapshot()), intentId, hook)
        case Revert(e) => r == Some(e)
        case Done(s) => r.None? && Snapshot() == s
      decreases hook, 2
    {
      var intent := Snapshot().Intent(intentId);
      SetStatus(intentId, Funded);
      r := CallToken(now, d.self, intent.tokenIn, intent.owner, d.self, intent.amount, hook);
    }

    // -------------------------------------------------------------- executing

    method CheckExecute(now: nat, a: RouteAuthorization, signature: Bytes, data: Bytes) returns (r: Option<Error>)
      ensures r == ExecuteGuard(d, now, Snapshot(), a, signature, data)
      ensures r.None? <==> !locked && Matches(d, Snapshot(), a, data) && Open(d, now, Snapshot(), a, signature)
    {
      if locked {
        return Some(Reentrancy);
      }
      if paused {
        return Some(ContractPaused);
      }
      var intent := Snapshot().Intent(a.intentId);
      if intent.status != Funded {
        return Some(InvalidStatus);
      }
      if intent.expiry <= now {
        return Some(IntentExpired);
      }
      if a.deadline < now {
        return Some(AuthorizationExpired);
      }
      if a.adapter !in allowedAdapters || !allowedAdapters[a.adapter] {
        return Some(AdapterNotAllowed);
      }
      if a.owner != intent.owner || a.tokenIn != intent.tokenIn || a.maximumAmount != intent.amount
         || a.intentCommitment != intent.ciphertextHash || a.intentNonce != intent.nonce
         || a.actionHash != d.keccak(data)
      {
        return Some(InvalidAuthorization);
      }
      var recovered := d.recover(AuthorizationDigest(d, a), signature);
      if recovered.None? {
        return Some(InvalidSignature);
      }
      if recovered.value != teeSigner {
        return Some(InvalidAuthorization);
      }
      if a.tokenOut == 0 {
        return Some(InvalidOutput);
      }
      r := None;
    }

    method ExecuteIntent(now: nat, a: RouteAuthorization, signature: Bytes, data: Bytes, x: Externals)
      returns (r: Option<Error>, tokenOut: Address, amountOut: nat)
      modifies this
      ensures Agrees(ExecuteStep(d, now, old(Snapshot()), a, signature, data, x), old(Snapshot()), Snapshot(), r)
      ensures r.None? ==> tokenOut == a.tokenOut && amountOut >= a.minimumOutput
      ensures r.None? ==> Last(events, IntentExecuted(a.intentId, a.adapter, tokenOut,
                                                      Snapshot().Intent(a.intentId).amount, amountOut))
      decreases x, 4
    {
      tokenOut, amountOut := a.tokenOut, 0;
      r := CheckExecute(now, a, signature, data);
      if r.Some? {
        return;
      }
      assert ExecuteStep(d, now, Snapshot(), a, signature, data, x) == Proceed(d, now, Snapshot(), a, data, x);
      r, amountOut := Carry(now, a, data, x);
    }

    /** Everything past the guard. */
    method Carry(now: nat, a: RouteAuthorization, data: Bytes, x: Externals) returns (r: Option<Error>, amountOut: nat)
      modifies this
      ensures Agrees(Proceed(d, now, old(Snapshot()), a, data, x), old(Snapshot()), Snapshot(), r)
      ensures r.None? ==> amountOut >= a.minimumOutput
      ensures r.None? ==> Last(events, IntentExecuted(a.intentId, a.adapter, a.tokenOut,
                                                      Snapshot().Intent(a.intentId).amount, amountOut))
      decreases x, 3
    {
      var saved := Snapshot();
      var intent := saved.Intent(a.intentId);
      amountOut := 0;
      locked := true;
      var outputBefore := ledger.Balance(a.tokenOut, d.self);
      r := CallToken(now, d.self, intent.tokenIn, d.self, a.adapter, intent.amount, x.input);
      if r.Some? {
        Restore(saved);
        return;
      }
      intent := Snapshot().Intent(a.intentId);
      var tokenOut;
      r, tokenOut := CallAdapter(now, a.adapter, intent.tokenIn, intent.amount, data, x.callee);
      if r.Some? {
        Restore(saved);
        return;
      }
      r, amountOut := Conclude(now, outputBefore, a, tokenOut, x.output);
      if r.Some? {
        Restore(saved);
      }
    }

    /** Measures what the adapter returned and pays it out. */
    method Conclude(now: nat, outputBefore: nat, a: RouteAuthorization, tokenOut: Address, output: Hook)
      returns (r: Option<Error>, amountOut: nat)
      modifies this
      ensures match Finish(d, now, outputBefore, a, old(Snapshot()), tokenOut, output)
        case Revert(e) => r == Some(e)
        case Done(s) =>
          && r.None? && Snapshot() == s && amountOut >= a.minimumOutput
          && Last(events, IntentExecuted(a.intentId, a.adapter, a.tokenOut, s.Intent(a.intentId).amount, amountOut))
      decreases output, 3
    {
      var intent := Snapshot().Intent(a.intentId);
      if tokenOut != a.tokenOut {
        return Some(InvalidOutput), 0;
      }
      if tokenOut == intent.tokenIn && outputBefore < intent.amount {
        return Some(Arithmetic), 0;
      }
      var baseline := if tokenOut == intent.tokenIn then outputBefore - intent.amount else outputBefore;
      var outputAfter := ledger.Balance(tokenOut, d.self);
      if outputAfter < baseline {
        return Some(Arithmetic), 0;
      }
      amountOut := outputAfter - baseline;
      assert Finish(d, now, outputBefore, a, Snapshot(), tokenOut, output)
          == Payout(d, now, Snapshot(), a, amountOut, output);
      r := Pay(now, a, amountOut, output);
    }

    /** Checks the minimum, settles the intent and sends the owner everything measured. */
    method Pay(now: nat, a: RouteAuthorization, amountOut: nat, hook: Hook) returns (r: Option<Error>)
      modifies this
      ensures match Payout(d, now, old(Snapshot()), a, amountOut, hook)
        case Revert(e) => r == Some(e)
        case Done(s) =>
          && r.None? && Snapshot() == s && amountOut >= a.minimumOutput
          && Last(events, IntentExecuted(a.intentId, a.adapter, a.tokenOut, s.Intent(a.intentId).amount, amountOut))
      decreases hook, 2
    {
      if amountOut < a.minimumOutput {
        return Some(InvalidOutput);
      }
      SetStatus(a.intentId, Executed);
      r := CallToken(now, d.self, a.tokenOut, d.self, Snapshot().Intent(a.intentId).owner, amountOut, hook);
      if r.Some? {
        return;
      }
      Emit(IntentExecuted(a.intentId, a.adapter, a.tokenOut, Snapshot().Intent(a.intentId).amount, amountOut));
      locked := false;
    }

    method CallAdapter(now: nat, adapter: Address, tokenIn: Address, amount: Word, data: Bytes, callee: Callee)
      returns (r: Option<Error>, tokenOut: Address)
      modifies this
      ensures match Custody.CallAdapter(d, now, old(Snapshot()), adapter, tokenIn, amount, data, callee)
        case AdapterDone(s, token) => r.None? && Snapshot() == s && tokenOut == token
        case AdapterRevert(e) => r == Some(e)
      decreases callee, 3
    {
      tokenOut := 0;
      if adapter == d.self {
        r := Some(CalleeFailure);
      } else if adapter == d.adapter {
        var amountOut;
        r, tokenOut, amountOut := Execute(now, d.self, tokenIn, amount, data, callee);
      } else if callee.reverts {
        r := Some(CalleeFailure);
      } else {
        Run(now, callee.calls);
        r, tokenOut := None, callee.returned;
      }
    }

    // What a swap that began in `s` brought the adapter.
    predicate Gained(s: State, now: nat, tokenIn: Address, amountIn: Word, tokenOut: Address, callee: Callee,
                     amountOut: nat)
    {
      Swapped(d, now, s, tokenIn, amountIn, callee).ledger.Balance(tokenOut, d.adapter)
        == s.ledger.Balance(tokenOut, d.adapter) + amountOut
    }

    /** UniswapV2RouteAdapter.execute. */
    method Execute(now: nat, sender: Address, tokenIn: Address, amountIn: Word, data: Bytes, callee: Callee)
      returns (r: Option<Error>, tokenOut: Address, amountOut: nat)
      modifies this
      ensures match V2Step(d, now, old(Snapshot()), sender, tokenIn, amountIn, data, callee)
        case AdapterDone(s, token) => r.None? && Snapshot() == s && tokenOut == token
        case AdapterRevert(e) => r == Some(e) && Snapshot() == old(Snapshot())
      ensures r.None? ==> Gained(old(Snapshot()), now, tokenIn, amountIn, tokenOut, callee, amountOut)
      decreases callee, 2
    {
      tokenOut, amountOut := 0, 0;
      var route;
      r, route := CheckAdapter(now, sender, tokenIn, data);
      if r.Some? {
        return;
      }
      tokenOut := route.path[|route.path| - 1];
      assert V2Step(d, now, Snapshot(), sender, tokenIn, amountIn, data, callee)
          == Trade(d, now, Snapshot(), tokenIn, amountIn, tokenOut, route.amountOutMin, callee);
      r, amountOut := SwapAndForward(now, tokenIn, amountIn, tokenOut, route.amountOutMin, callee);
    }

    /** Everything past the adapter's guard. */
    method SwapAndForward(now: nat, tokenIn: Address, amountIn: Word, tokenOut: Address, minimum: nat, callee: Callee)
      returns (r: Option<Error>, amountOut: nat)
      modifies this
      ensures match Trade(d, now, old(Snapshot()), tokenIn, amountIn, tokenOut, minimum, callee)
        case AdapterDone(s, token) => r.None? && Snapshot() == s && tokenOut == token
        case AdapterRevert(e) => r == Some(e) && Snapshot() == old(Snapshot())
      ensures r.None? ==> Gained(old(Snapshot()), now, tokenIn, amountIn, tokenOut, callee, amountOut)
      decreases callee, 1
    {
      amountOut := 0;
      if callee.reverts {
        return Some(CalleeFailure), 0;
      }
      var saved := Snapshot();
      assert Trade(d, now, saved, tokenIn, amountIn, tokenOut, minimum, callee)
          == PassOn(d, now, saved.ledger.Balance(tokenOut, d.adapter),
                    Swapped(d, now, saved, tokenIn, amountIn, callee), tokenOut, minimum, callee.output);
      var beforeBalance := ledger.Balance(tokenOut, d.adapter);
      Swap(now, tokenIn, amountIn, callee);
      r, amountOut := Forward(now, beforeBalance, tokenOut, minimum, callee.output);
      if r.Some? {
        Restore(saved);
      }
    }

    /** Measures what the swap brought and sends it to the router. */
    method Forward(now: nat, beforeBalance: nat, tokenOut: Address, minimum: nat, output: Hook)
      returns (r: Option<Error>, amountOut: nat)
      modifies this
      ensures match PassOn(d, now, beforeBalance, old(Snapshot()), tokenOut, minimum, output)
        case AdapterDone(s, token) =>
          && r.None? && Snapshot() == s && tokenOut == token
          && old(Snapshot()).ledger.Balance(tokenOut, d.adapter) == beforeBalance + amountOut
        case AdapterRevert(e) => r == Some(e)
      decreases output, 2
    {
      amountOut := 0;
      var afterBalance := ledger.Balance(tokenOut, d.adapter);
      if afterBalance < beforeBalance {
        return Some(Arithmetic), 0;
      }
      amountOut := afterBalance - beforeBalance;
      if amountOut < minimum {
        return Some(InvalidOutput), amountOut;
      }
      r := CallToken(now, d.adapter, tokenOut, d.adapter, d.self, amountOut, output);
      if r.None? {
        adapterLocked := false;
      }
    }

    method CheckAdapter(now: nat, sender: Address, tokenIn: Address, data: Bytes)
      returns (r: Option<Error>, route: V2Route)
      ensures match V2Guard(d, now, Snapshot(), sender, tokenIn, data)
        case Ok(decoded) => r.None? && route == decoded
        case Err(e) => r == Some(e)
      ensures r.None? ==>
        && !adapterLocked && sender == d.self && DecodeRoute(data) == Some(route) && now <= route.deadline
        && 2 <= |route.path| <= 4 && route.path[0] == tokenIn && route.path[|route.path| - 1] !in {0, tokenIn}
        && route.amountOutMin > 0
    {
      route := V2Route([], 0, 0);
      if adapterLocked {
        return Some(Reentrancy), route;
      }
      if sender != d.self {
        return Some(Unauthorized), route;
      }
      var decoded := DecodeRoute(data);
      if decoded.None? {
        return Some(MalformedData), route;
      }
      route := decoded.value;
      if route.deadline < now {
        return Some(InvalidDeadline), route;
      }
      if |route.path| < 2 || |route.path| > 4 || route.path[0] != tokenIn {
        return Some(InvalidPath), route;
      }
      var tokenOut := route.path[|route.path| - 1];
      if tokenOut == 0 || tokenOut == tokenIn || route.amountOutMin == 0 {
        return Some(InvalidOutput), route;
      }
      r := None;
    }

    /** Approve the venue, let it run, clear the approval. */
    method Swap(now: nat, tokenIn: Address, amountIn: Word, callee: Callee)
      modifies this
      ensures Snapshot() == Swapped(d, now, old(Snapshot()), tokenIn, amountIn, callee)
      decreases callee, 0
    {
      adapterLocked := true;
      Run(now, callee.approving);
      Venture(now, tokenIn, amountIn, callee.calls);
      Run(now, callee.clearing);
    }

    method Venture(now: nat, tokenIn: Address, amountIn: Word, calls: seq<Call>)
      modifies this
      ensures Snapshot() == Ventured(d, now, old(Snapshot()), tokenIn, amountIn, calls)
      decreases calls, 1
    {
      ledger := ledger.Approve(tokenIn, d.adapter, d.exchange, amountIn);
      Run(now, calls);
      ledger := ledger.Approve(tokenIn, d.adapter, d.exchange, 0);
    }

    // -------------------------------------------------------------- cancelling

    method CancelIntent(now: nat, caller: Address, intentId: Word, hook: Hook) returns (r: Option<Error>)
      modifies this
      ensures Agrees(CancelStep(d, now, old(Snapshot()), caller, intentId, hook), old(Snapshot()), Snapshot(), r)
      ensures r.None? ==>
        var intent := old(Snapshot().Intent(intentId));
        !old(locked) && intent.owner == caller && (intent.status == Created || intent.status == Funded)
      decreases hook, 2
    {
      if locked {
        return Some(Reentrancy);
      }
      var intent := Snapshot().Intent(intentId);
      if intent.owner != caller {
        return Some(Unauthorized);
      }
      if intent.status != Created && intent.status != Funded {
        return Some(InvalidStatus);
      }
      var saved := Snapshot();
      locked := true;
      var refund := if intent.status == Funded then intent.amount else 0;
      SetStatus(intentId, Cancelled);
      if refund != 0 {
        r := CallToken(now, d.self, intent.tokenIn, d.self, intent.owner, refund, hook);
        if r.Some? {
          Restore(saved);
          return;
        }
      }
      Emit(IntentCancelled(intentId, refund));
      locked := false;
      r := None;
    }

    // -------------------------------------------------------------- administration

    method SetAdapter(caller: Address, adapter: Address, allowed: bool) returns (r: Option<Error>)
      modifies this
      ensures Agrees(SetAdapterStep(old(Snapshot()), caller, adapter, allowed), old(Snapshot()), Snapshot(), r)
      ensures r.None? <==> caller == old(owner) && adapter != 0
      ensures r.None? ==>
        Snapshot() == old(Snapshot()).(allowedAdapters := old(allowedAdapters)[adapter := allowed],
                                       events := old(events) + [AdapterPermissionSet(adapter, allowed)])
    {
      if caller != owner {
        return Some(Unauthorized);
      }
      if adapter == 0 {
        return Some(InvalidAddress);
      }
      allowedAdapters := allowedAdapters[adapter := allowed];
      Emit(AdapterPermissionSet(adapter, allowed));
      r := None;
    }

    method SetTeeSigner(caller: Address, newSigner: Address) returns (r: Option<Error>)
      modifies this
      ensures Agrees(SetTeeSignerStep(old(Snapshot()), caller, newSigner), old(Snapshot()), Snapshot(), r)
      ensures r.None? <==> caller == old(owner) && newSigner != 0
      ensures r.None? ==>
        Snapshot() == old(Snapshot()).(teeSigner := newSigner,
                                       events := old(events) + [TeeSignerSet(old(teeSigner), newSigner)])
    {
      if caller != owner {
        return Some(Unauthorized);
      }
      if newSigner == 0 {
        return Some(InvalidAddress);
      }
      var previous := teeSigner;
      teeSigner := newSigner;
      Emit(TeeSignerSet(previous, newSigner));
      r := None;
    }

    method SetPaused(caller: Address, newPaused: bool) returns (r: Option<Error>)
      modifies this
      ensures Agrees(SetPausedStep(old(Snapshot()), caller, newPaused), old(Snapshot()), Snapshot(), r)
      ensures r.None? <==> caller == old(owner)
      ensures r.None? ==>
        Snapshot() == old(Snapshot()).(paused := newPaused, events := old(events) + [PauseSet(newPaused)])
    {
      if caller != owner {
        return Some(Unauthorized);
      }
      paused := newPaused;
      Emit(PauseSet(newPaused));
      r := None;
    }

    method TransferOwnership(caller: Address, newOwner: Address) returns (r: Option<Error>)
      modifies this
      ensures Agrees(TransferOwnershipStep(old(Snapshot()), caller, newOwner), old(Snapshot()), Snapshot(), r)
      ensures r.None? <==> caller == old(owner) && newOwner != 0
      ensures r.None? ==>
        Snapshot() == old(Snapshot()).(owner := newOwner,
                                       events := old(events) + [OwnershipTransferred(old(owner), newOwner)])
    {
      if caller != owner {
        return Some(Unauthorized);
      }
      if newOwner == 0 {
        return Some(InvalidAddress);
      }
      var previous := owner;
      owner := newOwner;
      Emit(OwnershipTransferred(previous, newOwner));
      r := None;
    }

    // -------------------------------------------------------------- any call, any script

    method Attempt(now: nat, c: Call) returns (r: Option<Error>)
      modifies this
      ensures Agrees(Custody.Attempt(d, now, old(Snapshot()), c), old(Snapshot()), Snapshot(), r)
      decreases c, 5
    {
      if !c.Frame? && Protected(d, c.caller) {
        return Some(Unauthorized);
      }
      var id, token, amountOut;
      match c
      case CreateIntent(caller, tokenIn, amount, hash, expiry) =>
        r, id := CreateIntent(now, caller, tokenIn, amount, hash, expiry);
      case CreateAndFundIntent(caller, tokenIn, amount, hash, expiry, hook) =>
        r, id := CreateAndFundIntent(now, caller, tokenIn, amount, hash, expiry, hook);
      case FundIntent(caller, intentId, hook) => r := FundIntent(now, caller, intentId, hook);
      case ExecuteIntent(_, a, signature, data, x) => r, token, amountOut := ExecuteIntent(now, a, signature, data, x);
      case CancelIntent(caller, intentId, hook) => r := CancelIntent(now, caller, intentId, hook);
      case SetAdapter(caller, adapter, allowed) => r := SetAdapter(caller, adapter, allowed);
      case SetTeeSigner(caller, newSigner) => r := SetTeeSigner(caller, newSigner);
      case SetPaused(caller, newPaused) => r := SetPaused(caller, newPaused);
      case TransferOwnership(caller, newOwner) => r := TransferOwnership(caller, newOwner);
      case AdapterExecute(caller, tokenIn, amountIn, data, callee) =>
        r, token, amountOut := Execute(now, caller, tokenIn, amountIn, data, callee);
      case TokenApprove(caller, tok, spender, amount) =>
        ledger := ledger.Approve(tok, caller, spender, amount);
        r := None;
      case TokenTransferFrom(caller, tok, from, to, amount) => r := MoveUnits(caller, tok, from, to, amount);
      case TokenMove(caller, tok, to, amount) => r := MoveUnits(caller, tok, caller, to, amount);
      case TokenMint(_, tok, to, amount) =>
        ledger := ledger.Credit(tok, to, amount);
        Emit(Minted(tok, to, amount));
        r := None;
      case Frame(calls, reverts) =>
        var saved := Snapshot();
        Run(now, calls);
        r := None;
        if reverts {
          Restore(saved);
          r := Some(CalleeFailure);
        }
    }

    /** A script: each call in turn, failed ones leaving no trace. */
    method Run(now: nat, calls: seq<Call>)
      modifies this
      ensures Snapshot() == Custody.Run(d, now, old(Snapshot()), calls)
      decreases calls, 0
    {
      var i := 0;
      while i < |calls|
        invariant 0 <= i <= |calls|
        invariant Custody.Run(d, now, old(Snapshot()), calls) == Custody.Run(d, now, Snapshot(), calls[i..])
      {
        ghost var before := Snapshot();
        var r := Attempt(now, calls[i]);
        assert calls[i..][0] == calls[i] && calls[i..][1..] == calls[i + 1..];
        assert Snapshot() == Exec(d, now, before, calls[i]);
        i := i + 1;
      }
    }

    /** A history of transactions, each at its own block time. */
    method Replay(txs: seq<Transaction>)
      modifies this
      ensures Snapshot() == History(d, old(Snapshot()), txs)
    {
      var i := 0;
      while i < |txs|
        invariant 0 <= i <= |txs|
        invariant History(d, old(Snapshot()), txs) == History(d, Snapshot(), txs[i..])
      {
        ghost var before := Snapshot();
        var r := Attempt(txs[i].now, txs[i].call);
        assert txs[i..][0] == txs[i] && txs[i..][1..] == txs[i + 1..];
        assert Snapshot() == Exec(d, txs[i].now, before, txs[i].call);
        i := i + 1;
      }
    }
  }
}
