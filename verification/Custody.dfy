/** What every entry point of ShadowRouter and UniswapV2RouteAdapter does to the chain, with each
    external call a place where arbitrary code runs.

    Code the router does not control is a script: a tree of calls that tokens, adapters, venues and
    users may make, nested to any depth, whose frames may revert. Running a script inside an entry
    point is what a callback does; the router's own entry points may be among its calls. */
module Custody {
  import opened Abi
  import opened Bytes
  import opened RouterTypes
  import opened Wrappers

  // ---------------------------------------------------------------- state

  datatype Ledger = Ledger(
    balances: map<(Address, Address), nat>,
    allowances: map<(Address, Address, Address), nat>)
  {
    function Balance(token: Address, holder: Address): nat
    {
      if (token, holder) in balances then balances[(token, holder)] else 0
    }

    function Allowance(token: Address, holder: Address, spender: Address): nat
    {
      if (token, holder, spender) in allowances then allowances[(token, holder, spender)] else 0
    }

    function Approve(token: Address, holder: Address, spender: Address, amount: nat): Ledger
    {
      this.(allowances := allowances[(token, holder, spender) := amount])
    }

    function Credit(token: Address, holder: Address, amount: nat): Ledger
    {
      this.(balances := balances[(token, holder) := Balance(token, holder) + amount])
    }

    function Debit(token: Address, holder: Address, amount: nat): Ledger
      requires amount <= Balance(token, holder)
    {
      this.(balances := balances[(token, holder) := Balance(token, holder) - amount])
    }
  }

  datatype Event =
    | IntentCreated(id: Word, intent: Intent)
    | IntentFunded(id: Word, amount: Word)
    | IntentExecuted(id: Word, adapter: Address, tokenOut: Address, amountIn: Word, amountOut: nat)
    | IntentCancelled(id: Word, refunded: Word)
    | AdapterPermissionSet(adapter: Address, allowed: bool)
    | TeeSignerSet(previousSigner: Address, newSigner: Address)
    | PauseSet(paused: bool)
    | OwnershipTransferred(previousOwner: Address, newOwner: Address)
    // Token contracts' own records; the operator is the caller of the token.
    | Transfer(operator: Address, token: Address, from: Address, to: Address, units: nat)
    | Minted(token: Address, to: Address, units: nat)

  datatype State = State(
    owner: Address,
    teeSigner: Address,
    paused: bool,
    locked: bool,
    adapterLocked: bool,
    intents: map<Word, Intent>,
    nextIntentNonce: map<Address, Uint64>,
    allowedAdapters: map<Address, bool>,
    ledger: Ledger,
    events: seq<Event>)
  {
    function Intent(id: Word): Intent
    {
      if id in intents then intents[id] else NO_INTENT
    }

    function Nonce(who: Address): Uint64
    {
      if who in nextIntentNonce then nextIntentNonce[who] else 0
    }

    predicate Allowed(adapter: Address)
    {
      adapter in allowedAdapters && allowedAdapters[adapter]
    }

    function Emit(e: Event): State
    {
      this.(events := events + [e])
    }

    function SetStatus(id: Word, status: Status): State
    {
      this.(intents := intents[id := Intent(id).(status := status)])
    }
  }

  datatype Error =
    | Unauthorized | InvalidAddress | InvalidIntent | InvalidStatus | InvalidExpiry | IntentExpired
    | AuthorizationExpired | InvalidAuthorization | AdapterNotAllowed | InvalidOutput | ContractPaused
    | InvalidPath | InvalidDeadline | MalformedData
    | Reentrancy | InvalidSignature | Arithmetic | TokenFailure | CalleeFailure

  datatype Outcome = Done(state: State) | Revert(error: Error)

  // ---------------------------------------------------------------- foreign code

  datatype Call =
    | CreateIntent(caller: Address, tokenIn: Address, amount: Word, ciphertextHash: Word, expiry: Uint64)
    | CreateAndFundIntent(caller: Address, tokenIn: Address, amount: Word, ciphertextHash: Word, expiry: Uint64,
                          hook: Hook)
    | FundIntent(caller: Address, id: Word, hook: Hook)
    | ExecuteIntent(caller: Address, authorization: RouteAuthorization, signature: Bytes, adapterData: Bytes,
                    externals: Externals)
    | CancelIntent(caller: Address, id: Word, hook: Hook)
    | SetAdapter(caller: Address, adapter: Address, allowed: bool)
    | SetTeeSigner(caller: Address, newSigner: Address)
    | SetPaused(caller: Address, newPaused: bool)
    | TransferOwnership(caller: Address, newOwner: Address)
    | AdapterExecute(caller: Address, tokenIn: Address, amountIn: Word, data: Bytes, callee: Callee)
    | TokenApprove(caller: Address, token: Address, spender: Address, amount: Word)
    | TokenTransferFrom(caller: Address, token: Address, from: Address, to: Address, amount: Word)
    // Any other way units change hands: transfer by the holder, or a rule of the token.
    | TokenMove(caller: Address, token: Address, to: Address, amount: Word)
    | TokenMint(caller: Address, token: Address, to: Address, amount: Word)
    | Frame(calls: seq<Call>, reverts: bool)

  /** One token call: code the token runs before and after it moves units, or its refusal. */
  datatype Hook = Hook(before: seq<Call>, after: seq<Call>, reverts: bool)

  /** What the called adapter does. For the V2 adapter, `calls` is what its venue does, `approving` and
      `clearing` are what the input token runs before the approval takes effect and after it is cleared,
      and `output` belongs to the adapter's own transfer of the output token. */
  datatype Callee = Callee(
    approving: seq<Call>, calls: seq<Call>, clearing: seq<Call>, returned: Address, output: Hook, reverts: bool)

  datatype Externals = Externals(input: Hook, callee: Callee, output: Hook)

  // Contracts that act only through the code modelled here.
  predicate Protected(d: Deployment, who: Address)
  {
    who == d.self || who == d.adapter
  }

  // ---------------------------------------------------------------- tokens

  const UNLIMITED: Word := UINT256 - 1

  /** Exact-transfer ERC-20 semantics. A spender other than the holder uses up allowance, unless unlimited. */
  function MoveUnits(s: State, operator: Address, token: Address, from: Address, to: Address, amount: nat): (o: Outcome)
    ensures o.Revert? ==> o.error == TokenFailure
  {
    var allowance := s.ledger.Allowance(token, from, operator);
    if operator != from && allowance < amount then Revert(TokenFailure)
    else if s.ledger.Balance(token, from) < amount then Revert(TokenFailure)
    else
      var spent := if operator == from || allowance == UNLIMITED then s.ledger
                   else s.ledger.Approve(token, from, operator, allowance - amount);
      Done(s.(ledger := spent.Debit(token, from, amount).Credit(token, to, amount))
            .Emit(Transfer(operator, token, from, to, amount)))
  }

  /** A token call made by the router or the adapter. */
  function CallToken(d: Deployment, now: nat, s: State, operator: Address, token: Address,
                     from: Address, to: Address, amount: nat, hook: Hook): (o: Outcome)
    ensures o.Revert? ==> o.error == TokenFailure
    decreases hook, 1
  {
    if hook.reverts then Revert(TokenFailure)
    else match MoveUnits(Run(d, now, s, hook.before), operator, token, from, to, amount)
      case Revert(e) => Revert(e)
      case Done(moved) => Done(Run(d, now, moved, hook.after))
  }

  // ---------------------------------------------------------------- router entry points

  function NewIntent(s: State, owner: Address, tokenIn: Address, amount: Word, hash: Word, expiry: Uint64): Intent
  {
    Intent(owner, tokenIn, amount, hash, expiry, s.Nonce(owner), Created)
  }

  function IntentId(d: Deployment, i: Intent): Word
  {
    d.keccak(IdPreimage(i))
  }

  // _createIntent
  function Register(d: Deployment, now: nat, s: State, owner: Address, tokenIn: Address, amount: Word,
                    hash: Word, expiry: Uint64): Outcome
  {
    if tokenIn == 0 || amount == 0 || hash == 0 then Revert(InvalidIntent)
    else if expiry <= now then Revert(InvalidExpiry)
    else if s.Nonce(owner) == UINT64 - 1 then Revert(Arithmetic)
    else
      var i := NewIntent(s, owner, tokenIn, amount, hash, expiry);
      var id := IntentId(d, i);
      if s.Intent(id).status != Missing then Revert(InvalidIntent)
      else Done(s.(nextIntentNonce := s.nextIntentNonce[owner := i.nonce + 1], intents := s.intents[id := i])
                 .Emit(IntentCreated(id, i)))
  }

  function CreateStep(d: Deployment, now: nat, s: State, owner: Address, tokenIn: Address, amount: Word,
                      hash: Word, expiry: Uint64): Outcome
  {
    if s.paused then Revert(ContractPaused) else Register(d, now, s, owner, tokenIn, amount, hash, expiry)
  }

  function CreateAndFundStep(d: Deployment, now: nat, s: State, owner: Address, tokenIn: Address, amount: Word,
                             hash: Word, expiry: Uint64, hook: Hook): Outcome
    decreases hook, 3
  {
    if s.locked then Revert(Reentrancy)
    else if s.paused then Revert(ContractPaused)
    else match Register(d, now, s.(locked := true), owner, tokenIn, amount, hash, expiry)
      case Revert(e) => Revert(e)
      case Done(created) =>
        var id := IntentId(d, NewIntent(s, owner, tokenIn, amount, hash, expiry));
        match Pull(d, now, created, id, hook)
        case Revert(e) => Revert(e)
        case Done(paid) => Done(paid.Emit(IntentFunded(id, amount)).(locked := false))
  }

  /** What the two funding paths share: the status first, then the pull. */
  function Pull(d: Deployment, now: nat, s: State, id: Word, hook: Hook): Outcome
    decreases hook, 2
  {
    var i := s.Intent(id);
    CallToken(d, now, s.SetStatus(id, Funded), d.self, i.tokenIn, i.owner, d.self, i.amount, hook)
  }

  function FundStep(d: Deployment, now: nat, s: State, caller: Address, id: Word, hook: Hook): Outcome
    decreases hook, 3
  {
    var i := s.Intent(id);
    if s.locked then Revert(Reentrancy)
    else if s.paused then Revert(ContractPaused)
    else if i.owner != caller then Revert(Unauthorized)
    else if i.status != Created then Revert(InvalidStatus)
    else if i.expiry <= now then Revert(IntentExpired)
    else match Pull(d, now, s.(locked := true), id, hook)
      case Revert(e) => Revert(e)
      case Done(paid) => Done(paid.Emit(IntentFunded(id, paid.Intent(id).amount)).(locked := false))
  }

  /** Everything executeIntent checks before it touches a token, in its order. */
  function ExecuteGuard(d: Deployment, now: nat, s: State, a: RouteAuthorization, signature: Bytes,
                        data: Bytes): Option<Error>
  {
    var i := s.Intent(a.intentId);
    if s.locked then Some(Reentrancy)
    else if s.paused then Some(ContractPaused)
    else if i.status != Funded then Some(InvalidStatus)
    else if i.expiry <= now then Some(IntentExpired)
    else if a.deadline < now then Some(AuthorizationExpired)
    else if !s.Allowed(a.adapter) then Some(AdapterNotAllowed)
    else if a.owner != i.owner || a.tokenIn != i.tokenIn || a.maximumAmount != i.amount
         || a.intentCommitment != i.ciphertextHash || a.intentNonce != i.nonce || a.actionHash != d.keccak(data)
    then Some(InvalidAuthorization)
    else match d.recover(AuthorizationDigest(d, a), signature)
      case None => Some(InvalidSignature)
      case Some(signer) =>
        if signer != s.teeSigner then Some(InvalidAuthorization)
        else if a.tokenOut == 0 then Some(InvalidOutput)
        else None
  }

  /** The authorization and the calldata are this stored intent's. */
  predicate Matches(d: Deployment, s: State, a: RouteAuthorization, data: Bytes)
  {
    var i := s.Intent(a.intentId);
    && a.owner == i.owner && a.tokenIn == i.tokenIn && a.maximumAmount == i.amount
    && a.intentCommitment == i.ciphertextHash && a.intentNonce == i.nonce
    && a.actionHash == d.keccak(data)
  }

  /** The router is ready for this authorization: not paused, funded, in time, adapter allowed, an output token
      named. */
  predicate Live(now: nat, s: State, a: RouteAuthorization)
  {
    && !s.paused && s.Intent(a.intentId).status == Funded
    && now < s.Intent(a.intentId).expiry && now <= a.deadline
    && s.Allowed(a.adapter)
    && a.tokenOut != 0
  }

  /** The live conditions under which the router lets an authorization in. */
  predicate Open(d: Deployment, now: nat, s: State, a: RouteAuthorization, signature: Bytes)
  {
    Live(now, s, a) && d.recover(AuthorizationDigest(d, a), signature) == Some(s.teeSigner)
  }

  function ExecuteStep(d: Deployment, now: nat, s: State, a: RouteAuthorization, signature: Bytes, data: Bytes,
                       x: Externals): Outcome
    decreases x, 3
  {
    var guard := ExecuteGuard(d, now, s, a, signature, data);
    if guard.Some? then Revert(guard.value) else Proceed(d, now, s, a, data, x)
  }

  /** Past the guard: lock, hand the input over, call the adapter. The intent is read from storage again
      after every call into foreign code, as the source does through its storage reference. */
  function Proceed(d: Deployment, now: nat, s: State, a: RouteAuthorization, data: Bytes, x: Externals): Outcome
    decreases x, 2
  {
    var i := s.Intent(a.intentId);
    match CallToken(d, now, s.(locked := true), d.self, i.tokenIn, d.self, a.adapter, i.amount, x.input)
    case Revert(e) => Revert(e)
    case Done(handed) =>
      var again := handed.Intent(a.intentId);
      match CallAdapter(d, now, handed, a.adapter, again.tokenIn, again.amount, data, x.callee)
      case AdapterRevert(e) => Revert(e)
      case AdapterDone(back, tokenOut) =>
        Finish(d, now, s.ledger.Balance(a.tokenOut, d.self), a, back, tokenOut, x.output)
  }

  /** What the router makes of the adapter's return: its output balance beyond the baseline. */
  function Measured(d: Deployment, outputBefore: nat, a: RouteAuthorization, back: State,
                    tokenOut: Address): Result<nat, Error>
  {
    var i := back.Intent(a.intentId);
    if tokenOut != a.tokenOut then Err(InvalidOutput)
    else if tokenOut == i.tokenIn && outputBefore < i.amount then Err(Arithmetic)
    else
      var baseline := if tokenOut == i.tokenIn then outputBefore - i.amount else outputBefore;
      var outputAfter := back.ledger.Balance(tokenOut, d.self);
      if outputAfter < baseline then Err(Arithmetic) else Ok(outputAfter - baseline)
  }

  /** Past the adapter: the measurement, then the payout. */
  function Finish(d: Deployment, now: nat, outputBefore: nat, a: RouteAuthorization, back: State, tokenOut: Address,
                  output: Hook): Outcome
    decreases output, 3
  {
    match Measured(d, outputBefore, a, back, tokenOut)
    case Err(e) => Revert(e)
    case Ok(amountOut) => Payout(d, now, back, a, amountOut, output)
  }

  /** The tail of executeIntent: the minimum, the status, the transfer to the owner, the event. */
  function Payout(d: Deployment, now: nat, s: State, a: RouteAuthorization, amountOut: nat, hook: Hook): Outcome
    decreases hook, 2
  {
    if amountOut < a.minimumOutput then Revert(InvalidOutput)
    else
      var executed := s.SetStatus(a.intentId, Executed);
      match CallToken(d, now, executed, d.self, a.tokenOut, d.self, executed.Intent(a.intentId).owner, amountOut, hook)
      case Revert(e) => Revert(e)
      case Done(paid) =>
        Done(paid.Emit(IntentExecuted(a.intentId, a.adapter, a.tokenOut, paid.Intent(a.intentId).amount, amountOut))
              .(locked := false))
  }

  function CancelStep(d: Deployment, now: nat, s: State, caller: Address, id: Word, hook: Hook): Outcome
    decreases hook, 2
  {
    var i := s.Intent(id);
    if s.locked then Revert(Reentrancy)
    else if i.owner != caller then Revert(Unauthorized)
    else if i.status != Created && i.status != Funded then Revert(InvalidStatus)
    else
      var refund := if i.status == Funded then i.amount else 0;
      var cancelled := s.(locked := true).SetStatus(id, Cancelled);
      if refund == 0 then Done(cancelled.Emit(IntentCancelled(id, 0)).(locked := false))
      else match CallToken(d, now, cancelled, d.self, i.tokenIn, d.self, i.owner, refund, hook)
        case Revert(e) => Revert(e)
        case Done(paid) => Done(paid.Emit(IntentCancelled(id, refund)).(locked := false))
  }

  // onlyOwner setters
  function SetAdapterStep(s: State, caller: Address, adapter: Address, allowed: bool): Outcome
  {
    if caller != s.owner then Revert(Unauthorized)
    else if adapter == 0 then Revert(InvalidAddress)
    else Done(s.(allowedAdapters := s.allowedAdapters[adapter := allowed]).Emit(AdapterPermissionSet(adapter, allowed)))
  }

  function SetTeeSignerStep(s: State, caller: Address, newSigner: Address): Outcome
  {
    if caller != s.owner then Revert(Unauthorized)
    else if newSigner == 0 then Revert(InvalidAddress)
    else Done(s.(teeSigner := newSigner).Emit(TeeSignerSet(s.teeSigner, newSigner)))
  }

  function SetPausedStep(s: State, caller: Address, newPaused: bool): Outcome
  {
    if caller != s.owner then Revert(Unauthorized)
    else Done(s.(paused := newPaused).Emit(PauseSet(newPaused)))
  }

  function TransferOwnershipStep(s: State, caller: Address, newOwner: Address): Outcome
  {
    if caller != s.owner then Revert(Unauthorized)
    else if newOwner == 0 then Revert(InvalidAddress)
    else Done(s.(owner := newOwner).Emit(OwnershipTransferred(s.owner, newOwner)))
  }

  // ---------------------------------------------------------------- adapters

  datatype AdapterOutcome = AdapterDone(state: State, tokenOut: Address) | AdapterRevert(error: Error)

  /** The router's call of an adapter: itself (no such function), the V2 adapter, or unknown code. */
  function CallAdapter(d: Deployment, now: nat, s: State, adapter: Address, tokenIn: Address, amount: Word,
                       data: Bytes, callee: Callee): AdapterOutcome
    decreases callee, 4
  {
    if adapter == d.self then AdapterRevert(CalleeFailure)
    else if adapter == d.adapter then V2Step(d, now, s, d.self, tokenIn, amount, data, callee)
    else if callee.reverts then AdapterRevert(CalleeFailure)
    else AdapterDone(Run(d, now, s, callee.calls), callee.returned)
  }

  /** Everything UniswapV2RouteAdapter.execute checks before it approves its venue, in its order. */
  function V2Guard(d: Deployment, now: nat, s: State, sender: Address, tokenIn: Address,
                   data: Bytes): (g: Result<V2Route, Error>)
    ensures g.Ok? ==> 2 <= |g.value.path| <= 4
  {
    if s.adapterLocked then Err(Reentrancy)
    else if sender != d.self then Err(Unauthorized)
    else match DecodeRoute(data)
      case None => Err(MalformedData)
      case Some(r) =>
        if r.deadline < now then Err(InvalidDeadline)
        else if |r.path| < 2 || |r.path| > 4 || r.path[0] != tokenIn then Err(InvalidPath)
        else
          var tokenOut := r.path[|r.path| - 1];
          if tokenOut == 0 || tokenOut == tokenIn || r.amountOutMin == 0 then Err(InvalidOutput) else Ok(r)
  }

  function V2Step(d: Deployment, now: nat, s: State, sender: Address, tokenIn: Address, amountIn: Word,
                  data: Bytes, callee: Callee): AdapterOutcome
    decreases callee, 3
  {
    match V2Guard(d, now, s, sender, tokenIn, data)
    case Err(e) => AdapterRevert(e)
    case Ok(r) => Trade(d, now, s, tokenIn, amountIn, r.path[|r.path| - 1], r.amountOutMin, callee)
  }

  /** Past the adapter's guard: the swap, between two readings of the output balance. */
  function Trade(d: Deployment, now: nat, s: State, tokenIn: Address, amountIn: Word, tokenOut: Address, minimum: nat,
                 callee: Callee): AdapterOutcome
    decreases callee, 2
  {
    if callee.reverts then AdapterRevert(CalleeFailure)
    else
      PassOn(d, now, s.ledger.Balance(tokenOut, d.adapter), Swapped(d, now, s, tokenIn, amountIn, callee), tokenOut,
             minimum, callee.output)
  }

  /** What was gained, if it is enough, goes to the router. */
  function PassOn(d: Deployment, now: nat, before: nat, swapped: State, tokenOut: Address, minimum: nat,
                  output: Hook): AdapterOutcome
    decreases output, 2
  {
    var after := swapped.ledger.Balance(tokenOut, d.adapter);
    if after < before then AdapterRevert(Arithmetic)
    else if after - before < minimum then AdapterRevert(InvalidOutput)
    else match CallToken(d, now, swapped, d.adapter, tokenOut, d.adapter, d.self, after - before, output)
      case Revert(e) => AdapterRevert(e)
      case Done(forwarded) => AdapterDone(forwarded.(adapterLocked := false), tokenOut)
  }

  /** The state the adapter measures: approval given, venue run, approval cleared. */
  function Swapped(d: Deployment, now: nat, s: State, tokenIn: Address, amountIn: Word, callee: Callee): State
    decreases callee, 1
  {
    var asked := Run(d, now, s.(adapterLocked := true), callee.approving);
    Run(d, now, Ventured(d, now, asked, tokenIn, amountIn, callee.calls), callee.clearing)
  }

  /** From the moment the approval takes effect until it is gone again. */
  function Ventured(d: Deployment, now: nat, s: State, tokenIn: Address, amountIn: Word, calls: seq<Call>): State
    decreases calls, 1
  {
    var swapped := Run(d, now, s.(ledger := s.ledger.Approve(tokenIn, d.adapter, d.exchange, amountIn)), calls);
    swapped.(ledger := swapped.ledger.Approve(tokenIn, d.adapter, d.exchange, 0))
  }

  // ---------------------------------------------------------------- calls and runs

  function Attempt(d: Deployment, now: nat, s: State, c: Call): Outcome
    decreases c, 4
  {
    if !c.Frame? && Protected(d, c.caller) then Revert(Unauthorized)
    else match c
      case CreateIntent(caller, tokenIn, amount, hash, expiry) =>
        CreateStep(d, now, s, caller, tokenIn, amount, hash, expiry)
      case CreateAndFundIntent(caller, tokenIn, amount, hash, expiry, hook) =>
        CreateAndFundStep(d, now, s, caller, tokenIn, amount, hash, expiry, hook)
      case FundIntent(caller, id, hook) => FundStep(d, now, s, caller, id, hook)
      case ExecuteIntent(_, a, signature, data, x) => ExecuteStep(d, now, s, a, signature, data, x)
      case CancelIntent(caller, id, hook) => CancelStep(d, now, s, caller, id, hook)
      case SetAdapter(caller, adapter, allowed) => SetAdapterStep(s, caller, adapter, allowed)
      case SetTeeSigner(caller, newSigner) => SetTeeSignerStep(s, caller, newSigner)
      case SetPaused(caller, newPaused) => SetPausedStep(s, caller, newPaused)
      case TransferOwnership(caller, newOwner) => TransferOwnershipStep(s, caller, newOwner)
      case AdapterExecute(caller, tokenIn, amountIn, data, callee) =>
        (match V2Step(d, now, s, caller, tokenIn, amountIn, data, callee)
         case AdapterRevert(e) => Revert(e)
         case AdapterDone(after, _) => Done(after))
      case TokenApprove(caller, token, spender, amount) =>
        Done(s.(ledger := s.ledger.Approve(token, caller, spender, amount)))
      case TokenTransferFrom(caller, token, from, to, amount) => MoveUnits(s, caller, token, from, to, amount)
      case TokenMove(caller, token, to, amount) => MoveUnits(s, caller, token, caller, to, amount)
      case TokenMint(_, token, to, amount) =>
        Done(s.(ledger := s.ledger.Credit(token, to, amount)).Emit(Minted(token, to, amount)))
      case Frame(calls, reverts) => if reverts then Revert(CalleeFailure) else Done(Run(d, now, s, calls))
  }

  /** A failed call leaves no trace; its caller goes on. */
  function Exec(d: Deployment, now: nat, s: State, c: Call): State
    decreases c, 5
  {
    match Attempt(d, now, s, c)
    case Done(after) => after
    case Revert(_) => s
  }

  function Run(d: Deployment, now: nat, s: State, calls: seq<Call>): State
    decreases calls, 0
  {
    if calls == [] then s else Run(d, now, Exec(d, now, s, calls[0]), calls[1..])
  }

  datatype Transaction = Transaction(now: nat, call: Call)

  /** A whole history of transactions, each at its own block time. */
  function History(d: Deployment, s: State, txs: seq<Transaction>): State
    decreases |txs|
  {
    if txs == [] then s else History(d, Exec(d, txs[0].now, s, txs[0].call), txs[1..])
  }

  /** The state the router's constructor leaves. Units already lie wherever they lie; contracts that
      have never run have granted nobody an allowance. */
  ghost predicate Initial(d: Deployment, s: State, owner: Address, signer: Address)
  {
    && d.self != d.adapter
    && owner != 0 && signer != 0
    && s.owner == owner && s.teeSigner == signer
    && !s.paused && !s.locked && !s.adapterLocked
    && s.intents == map[] && s.nextIntentNonce == map[] && s.allowedAdapters == map[]
    && (forall token, who, spender | Protected(d, who) :: s.ledger.Allowance(token, who, spender) == 0)
    && s.events == [OwnershipTransferred(0, owner), TeeSignerSet(0, signer)]
  }
}
