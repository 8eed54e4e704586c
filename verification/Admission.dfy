/** Who is let in: exactly when the entry points that create, fund and cancel succeed, and all that they then do. */
module Admission {
  import opened Bytes
  import opened Custody
  import opened CustodyInvariant
  import opened CustodyLog
  import opened CustodyTheorems
  import opened Interference
  import opened RouterTypes
  import opened Settlement
  import opened Wrappers

  // What a creation stores, and the six words whose hash is its id.
  function Drawn(s: State, caller: Address, tokenIn: Address, amount: Word, hash: Word, expiry: Uint64): Intent
  {
    Intent(caller, tokenIn, amount, hash, expiry, s.Nonce(caller), Created)
  }

  function Named(d: Deployment, s: State, caller: Address, tokenIn: Address, amount: Word, hash: Word,
                 expiry: Uint64): Word
  {
    d.keccak(Words([caller, tokenIn, amount, hash, expiry, s.Nonce(caller)]))
  }

  /** Nothing is missing, the expiry is ahead, the caller has a nonce to spare, and the id is free. */
  predicate Creatable(d: Deployment, now: nat, s: State, caller: Address, tokenIn: Address, amount: Word, hash: Word,
                      expiry: Uint64)
  {
    && tokenIn != 0 && amount != 0 && hash != 0 && now < expiry
    && s.Nonce(caller) < UINT64 - 1
    && Named(d, s, caller, tokenIn, amount, hash, expiry) !in s.intents
  }

  /** One intent more, with just these fields, the caller's next nonce one higher, one event, nothing else. */
  ghost predicate Stored(d: Deployment, s: State, caller: Address, tokenIn: Address, amount: Word, hash: Word,
                         expiry: Uint64, s': State)
  {
    var id, i := Named(d, s, caller, tokenIn, amount, hash, expiry), Drawn(s, caller, tokenIn, amount, hash, expiry);
    && s' == s.(intents := s.intents[id := i], nextIntentNonce := s'.nextIntentNonce,
                events := s.events + [IntentCreated(id, i)])
    && forall who: Address :: s'.Nonce(who) == s.Nonce(who) + if who == caller then 1 else 0
  }

  lemma RegisterExact(d: Deployment, now: nat, s: State, caller: Address, tokenIn: Address, amount: Word, hash: Word,
                      expiry: Uint64)
    requires Catalogued(d, s)
    ensures var o := Register(d, now, s, caller, tokenIn, amount, hash, expiry);
      && (o.Done? <==> Creatable(d, now, s, caller, tokenIn, amount, hash, expiry))
      && (o.Done? ==> Stored(d, s, caller, tokenIn, amount, hash, expiry, o.state))
  {
    assert Recorded(d, s, Named(d, s, caller, tokenIn, amount, hash, expiry));
  }

  /** createIntent succeeds exactly when the router is not paused and the intent can be created, whether a
      guarded entry point is under way or not; then it stores just what the caller gave. */
  lemma CreationExact(d: Deployment, now: nat, s: State, caller: Address, tokenIn: Address, amount: Word, hash: Word,
                      expiry: Uint64)
    requires Catalogued(d, s) && !Protected(d, caller)
    ensures var o := Attempt(d, now, s, CreateIntent(caller, tokenIn, amount, hash, expiry));
      && (o.Done? <==> !s.paused && Creatable(d, now, s, caller, tokenIn, amount, hash, expiry))
      && (o.Done? ==> Stored(d, s, caller, tokenIn, amount, hash, expiry, o.state))
  {
    RegisterExact(d, now, s, caller, tokenIn, amount, hash, expiry);
  }

  // ---------------------------------------------------------------- funding

  // The router locked, the intent already marked funded: what the token's code finds.
  function Marked(s: State, id: Word): State
    requires id in s.intents
  {
    s.(locked := true, intents := s.intents[id := s.intents[id].(status := Funded)])
  }

  /** The token does not refuse: after what it ran first, the payer holds the amount and has allowed the router
      to take it. */
  predicate Grants(d: Deployment, now: nat, m: State, token: Address, payer: Address, amount: nat, hook: Hook)
  {
    && !hook.reverts
    && var l := Run(d, now, m, hook.before).ledger;
    l.Balance(token, payer) >= amount && l.Allowance(token, payer, d.self) >= amount
  }

  lemma PullExact(d: Deployment, now: nat, s: State, id: Word, hook: Hook)
    requires Catalogued(d, s) && id in s.intents && d.self != d.adapter
    ensures var i := s.intents[id];
      Pull(d, now, s.(locked := true), id, hook).Done? <==>
        Grants(d, now, Marked(s, id), i.tokenIn, i.owner, i.amount, hook)
  {
    assert Recorded(d, s, id);
    assert s.(locked := true).SetStatus(id, Funded) == Marked(s, id);
  }

  /** The deposit moved, the intent is funded, and one announcement says so; no other stored intent changed. */
  ghost predicate PaidIn(d: Deployment, s: State, id: Word, s': State)
    requires id in s.intents
  {
    var i := s.intents[id];
    && id in s'.intents && s'.intents[id] == i.(status := Funded)
    && (forall j | j in s.intents && j != id :: j in s'.intents && s'.intents[j] == s.intents[j])
    && RouterMoves(d, s'.events) == RouterMoves(d, s.events) + [Move(i.tokenIn, i.owner, d.self, i.amount)]
    && Announcements(s'.events) == Announcements(s.events) + [IntentFunded(id, i.amount)]
  }

  lemma DepositExact(d: Deployment, now: nat, s: State, id: Word, hook: Hook)
    requires Inv(d, s) && id in s.intents && s.intents[id].status == Created
    ensures var i, o := s.intents[id], Pull(d, now, s.(locked := true), id, hook);
      && (o.Done? <==> Grants(d, now, Marked(s, id), i.tokenIn, i.owner, i.amount, hook))
      && (o.Done? ==> PaidIn(d, s, id, o.state.Emit(IntentFunded(id, i.amount)).(locked := false)))
  {
    PullExact(d, now, s, id, hook);
    if Pull(d, now, s.(locked := true), id, hook).Done? {
      DepositSettles(d, now, s, id, hook);
    }
  }

  /** In every reachable state fundIntent succeeds exactly when the router is not paused, the caller owns the
      intent, it is Created and not expired, and the token does not refuse; then it is Funded, and exactly its
      amount has moved from the caller to the router. */
  lemma FundingExact(d: Deployment, now: nat, s: State, caller: Address, id: Word, hook: Hook)
    requires Reachable(d, s) && !Protected(d, caller)
    ensures var o := Attempt(d, now, s, FundIntent(caller, id, hook));
      && (o.Done? <==>
            && !s.paused && id in s.intents && s.intents[id].owner == caller
            && s.intents[id].status == Created && now < s.intents[id].expiry
            && Grants(d, now, Marked(s, id), s.intents[id].tokenIn, caller, s.intents[id].amount, hook))
      && (o.Done? ==> PaidIn(d, s, id, o.state))
  {
    ReachableInv(d, s);
    FundAttempt(d, now, s, caller, id, hook);
    if id in s.intents && s.intents[id].status == Created {
      DepositExact(d, now, s, id, hook);
    }
  }

  lemma FundAttempt(d: Deployment, now: nat, s: State, caller: Address, id: Word, hook: Hook)
    requires !Protected(d, caller)
    ensures Attempt(d, now, s, FundIntent(caller, id, hook)) == FundStep(d, now, s, caller, id, hook)
    ensures FundStep(d, now, s, caller, id, hook).Done? ==>
      Pull(d, now, s.(locked := true), id, hook).Done? && id in s.intents && s.intents[id].status == Created
  {
  }

  // Whose balance an amount leaves, and whose it reaches.
  function Shift(from: Address, to: Address, amount: nat, who: Address): int
  {
    (if who == to then amount else 0) - (if who == from then amount else 0)
  }

  /** The whole change a movement makes to the ledger: two balances, and the allowance it used up. */
  ghost predicate MovedBy(l: Ledger, l': Ledger, operator: Address, token: Address, from: Address, to: Address,
                          amount: nat)
  {
    && (forall t: Address, who: Address ::
          l'.Balance(t, who) == l.Balance(t, who) + if t == token then Shift(from, to, amount, who) else 0)
    && (forall t: Address, who: Address, spender: Address ::
          l'.Allowance(t, who, spender) == l.Allowance(t, who, spender) -
            if (t, who, spender) == (token, from, operator) && operator != from
               && l.Allowance(t, who, spender) != UNLIMITED then amount else 0)
  }

  lemma MoveBalances(s: State, operator: Address, token: Address, from: Address, to: Address, amount: nat, t: Address,
                     who: Address)
    requires MoveUnits(s, operator, token, from, to, amount).Done?
    ensures MoveUnits(s, operator, token, from, to, amount).state.ledger.Balance(t, who)
      == s.ledger.Balance(t, who) + if t == token then Shift(from, to, amount, who) else 0
  {
  }

  lemma MoveAllowances(s: State, operator: Address, token: Address, from: Address, to: Address, amount: nat, t: Address,
                       who: Address, spender: Address)
    requires MoveUnits(s, operator, token, from, to, amount).Done?
    ensures MoveUnits(s, operator, token, from, to, amount).state.ledger.Allowance(t, who, spender)
      == s.ledger.Allowance(t, who, spender) -
        if (t, who, spender) == (token, from, operator) && operator != from
           && s.ledger.Allowance(t, who, spender) != UNLIMITED then amount else 0
  {
  }

  /** A movement happens exactly when the units, and the allowance of a spender who is not the holder, suffice. */
  lemma MoveExact(s: State, operator: Address, token: Address, from: Address, to: Address, amount: nat)
    ensures var o := MoveUnits(s, operator, token, from, to, amount);
      && (o.Done? <==>
            && s.ledger.Balance(token, from) >= amount
            && (operator == from || s.ledger.Allowance(token, from, operator) >= amount))
      && (o.Done? ==>
            && MovedBy(s.ledger, o.state.ledger, operator, token, from, to, amount)
            && o.state == s.(ledger := o.state.ledger,
                             events := s.events + [Transfer(operator, token, from, to, amount)]))
  {
    var o := MoveUnits(s, operator, token, from, to, amount);
    if o.Done? {
      forall t: Address, who: Address
        ensures o.state.ledger.Balance(t, who)
          == s.ledger.Balance(t, who) + if t == token then Shift(from, to, amount, who) else 0
      {
        MoveBalances(s, operator, token, from, to, amount, t, who);
      }
      forall t: Address, who: Address, spender: Address
        ensures o.state.ledger.Allowance(t, who, spender) == s.ledger.Allowance(t, who, spender) -
          if (t, who, spender) == (token, from, operator) && operator != from
             && s.ledger.Allowance(t, who, spender) != UNLIMITED then amount else 0
      {
        MoveAllowances(s, operator, token, from, to, amount, t, who, spender);
      }
    }
  }

  /** With a token that runs no code of its own, funding changes the intent's status, the two balances, the
      allowance and the log, and nothing else. */
  lemma PlainFundingExact(d: Deployment, now: nat, s: State, id: Word)
    requires Reachable(d, s) && id in s.intents && !s.paused
    requires s.intents[id].status == Created && now < s.intents[id].expiry
    ensures var i := s.intents[id];
      var o := Attempt(d, now, s, FundIntent(i.owner, id, Hook([], [], false)));
      && (o.Done? <==>
            && s.ledger.Balance(i.tokenIn, i.owner) >= i.amount
            && s.ledger.Allowance(i.tokenIn, i.owner, d.self) >= i.amount)
      && (o.Done? ==>
            && MovedBy(s.ledger, o.state.ledger, d.self, i.tokenIn, i.owner, d.self, i.amount)
            && o.state == s.(intents := s.intents[id := i.(status := Funded)], ledger := o.state.ledger,
                             events := s.events + [Transfer(d.self, i.tokenIn, i.owner, d.self, i.amount),
                                                   IntentFunded(id, i.amount)]))
  {
    ReachableInv(d, s);
    assert Recorded(d, s, id);
    var i := s.intents[id];
    FundAttempt(d, now, s, i.owner, id, Hook([], [], false));
    PlainFund(d, now, s, id);
  }

  lemma PlainFund(d: Deployment, now: nat, s: State, id: Word)
    requires id in s.intents && !s.paused && !s.locked && s.intents[id].owner != d.self
    requires s.intents[id].status == Created && now < s.intents[id].expiry
    ensures var i := s.intents[id];
      var o := FundStep(d, now, s, i.owner, id, Hook([], [], false));
      && (o.Done? <==>
            && s.ledger.Balance(i.tokenIn, i.owner) >= i.amount
            && s.ledger.Allowance(i.tokenIn, i.owner, d.self) >= i.amount)
      && (o.Done? ==>
            && MovedBy(s.ledger, o.state.ledger, d.self, i.tokenIn, i.owner, d.self, i.amount)
            && o.state == s.(intents := s.intents[id := i.(status := Funded)], ledger := o.state.ledger,
                             events := s.events + [Transfer(d.self, i.tokenIn, i.owner, d.self, i.amount),
                                                   IntentFunded(id, i.amount)]))
  {
    var i, m := s.intents[id], s.(locked := true).SetStatus(id, Funded);
    MoveExact(m, d.self, i.tokenIn, i.owner, d.self, i.amount);
    assert Pull(d, now, s.(locked := true), id, Hook([], [], false))
        == MoveUnits(m, d.self, i.tokenIn, i.owner, d.self, i.amount);
    var e, f := Transfer(d.self, i.tokenIn, i.owner, d.self, i.amount), IntentFunded(id, i.amount);
    assert s.events + [e] + [f] == s.events + [e, f];
  }

  // ---------------------------------------------------------------- both at once

  /** What a creation leaves, as a state. */
  function Opened(d: Deployment, s: State, caller: Address, tokenIn: Address, amount: Word, hash: Word,
                    expiry: Uint64): State
    requires s.Nonce(caller) < UINT64 - 1
  {
    var id, i := Named(d, s, caller, tokenIn, amount, hash, expiry), Drawn(s, caller, tokenIn, amount, hash, expiry);
    s.(intents := s.intents[id := i], nextIntentNonce := s.nextIntentNonce[caller := s.Nonce(caller) + 1],
       events := s.events + [IntentCreated(id, i)])
  }

  lemma OpensAs(d: Deployment, now: nat, s: State, caller: Address, tokenIn: Address, amount: Word, hash: Word,
                expiry: Uint64)
    returns (begun: State)
    requires Inv(d, s) && !Protected(d, caller) && Creatable(d, now, s, caller, tokenIn, amount, hash, expiry)
    ensures begun == Opened(d, s, caller, tokenIn, amount, hash, expiry) && Inv(d, begun)
    ensures Register(d, now, s.(locked := true), caller, tokenIn, amount, hash, expiry) == Done(begun.(locked := true))
  {
    begun := Opened(d, s, caller, tokenIn, amount, hash, expiry);
    RegisterExact(d, now, s, caller, tokenIn, amount, hash, expiry);
    RegisterKeeps(d, now, s, caller, tokenIn, amount, hash, expiry, begun);
  }

  lemma OpenAttempt(d: Deployment, now: nat, s: State, caller: Address, tokenIn: Address, amount: Word, hash: Word,
                    expiry: Uint64, hook: Hook)
    requires !Protected(d, caller) && !s.locked && !s.paused
    ensures var o := Attempt(d, now, s, CreateAndFundIntent(caller, tokenIn, amount, hash, expiry, hook));
      var id := Named(d, s, caller, tokenIn, amount, hash, expiry);
      var r := Register(d, now, s.(locked := true), caller, tokenIn, amount, hash, expiry);
      && (o.Done? <==> r.Done? && Pull(d, now, r.state, id, hook).Done?)
      && (o.Done? ==>
            o.state == Pull(d, now, r.state, id, hook).state.Emit(IntentFunded(id, amount)).(locked := false))
  {
    assert IntentId(d, NewIntent(s, caller, tokenIn, amount, hash, expiry))
        == Named(d, s, caller, tokenIn, amount, hash, expiry);
  }

  /** createAndFundIntent succeeds exactly when the router is not paused, the intent can be created and then its
      token does not refuse; then the intent is stored as by createIntent, and funded as by fundIntent. */
  lemma CreateAndFundExact(d: Deployment, now: nat, s: State, caller: Address, tokenIn: Address, amount: Word,
                           hash: Word, expiry: Uint64, hook: Hook)
    requires Reachable(d, s) && !Protected(d, caller)
    ensures var o := Attempt(d, now, s, CreateAndFundIntent(caller, tokenIn, amount, hash, expiry, hook));
      var id := Named(d, s, caller, tokenIn, amount, hash, expiry);
      && (o.Done? <==>
            && !s.paused && Creatable(d, now, s, caller, tokenIn, amount, hash, expiry)
            && Grants(d, now, Marked(Opened(d, s, caller, tokenIn, amount, hash, expiry), id), tokenIn, caller, amount,
                      hook))
      && (o.Done? ==> PaidIn(d, Opened(d, s, caller, tokenIn, amount, hash, expiry), id, o.state))
  {
    ReachableInv(d, s);
    if !s.paused {
      OpenAttempt(d, now, s, caller, tokenIn, amount, hash, expiry, hook);
      if Creatable(d, now, s, caller, tokenIn, amount, hash, expiry) {
        var begun := OpensAs(d, now, s, caller, tokenIn, amount, hash, expiry);
        DepositExact(d, now, begun, Named(d, s, caller, tokenIn, amount, hash, expiry), hook);
      } else {
        SameCatalogue(d, s, s.(locked := true));
        RegisterExact(d, now, s.(locked := true), caller, tokenIn, amount, hash, expiry);
      }
    }
  }

  // ---------------------------------------------------------------- cancelling

  /** In every reachable state, paused or not, cancelIntent succeeds exactly when the caller owns the intent and
      it is still Created, or Funded and its token does not refuse the refund; a Created intent is just marked,
      and nothing moves. */
  lemma CancellationExact(d: Deployment, now: nat, s: State, caller: Address, id: Word, hook: Hook)
    requires Reachable(d, s) && !Protected(d, caller)
    ensures var o := Attempt(d, now, s, CancelIntent(caller, id, hook));
      && (o.Done? <==>
            && id in s.intents && s.intents[id].owner == caller
            && (s.intents[id].status == Created || (s.intents[id].status == Funded && !hook.reverts)))
      && (o.Done? && s.intents[id].status == Created ==>
            o.state == s.(intents := s.intents[id := s.intents[id].(status := Cancelled)],
                          events := s.events + [IntentCancelled(id, 0)]))
  {
    ReachableInv(d, s);
    CancelAttempt(d, now, s, caller, id, hook);
    if id in s.intents && s.intents[id].owner == caller && s.intents[id].status == Funded {
      RefundSucceeds(d, now, s, id, hook);
    }
  }

  lemma CancelAttempt(d: Deployment, now: nat, s: State, caller: Address, id: Word, hook: Hook)
    requires !s.locked && !Protected(d, caller)
    ensures Attempt(d, now, s, CancelIntent(caller, id, hook)) == CancelStep(d, now, s, caller, id, hook)
    ensures s.Intent(id).owner == caller && s.Intent(id).status == Created ==>
      CancelStep(d, now, s, caller, id, hook)
        == Done(s.(intents := s.intents[id := s.Intent(id).(status := Cancelled)],
                   events := s.events + [IntentCancelled(id, 0)]))
    ensures CancelStep(d, now, s, caller, id, hook).Done? ==>
      s.Intent(id).owner == caller && (s.Intent(id).status == Created || s.Intent(id).status == Funded)
  {
  }

  // ---------------------------------------------------------------- effects before interactions

  /** What the token's code finds in a call the router makes: the lock is held and the intent already has its new
      status; only then do units move, and only after all of that code is the lock released. */
  ghost predicate EffectsFirst(d: Deployment, now: nat, s: State, id: Word, status: Status, m: State, token: Address,
                            from: Address, to: Address, amount: nat, hook: Hook, moved: State, e: Event, s': State)
  {
    && id in s.intents && m.locked && id in m.intents && m.intents[id] == s.intents[id].(status := status)
    && MoveUnits(Run(d, now, m, hook.before), d.self, token, from, to, amount) == Done(moved)
    && s' == Run(d, now, moved, hook.after).Emit(e).(locked := false)
  }

  lemma FundEffectsFirst(d: Deployment, now: nat, s: State, caller: Address, id: Word, hook: Hook)
    returns (m: State, moved: State)
    requires Reachable(d, s) && Attempt(d, now, s, FundIntent(caller, id, hook)).Done?
    ensures var i := s.Intent(id);
      EffectsFirst(d, now, s, id, Funded, m, i.tokenIn, i.owner, d.self, i.amount, hook, moved,
                IntentFunded(id, i.amount), Attempt(d, now, s, FundIntent(caller, id, hook)).state)
  {
    ReachableInv(d, s);
    FundAttempt(d, now, s, caller, id, hook);
    var i := s.intents[id];
    DepositSettles(d, now, s, id, hook);
    m := s.(locked := true).SetStatus(id, Funded);
    moved := MoveUnits(Run(d, now, m, hook.before), d.self, i.tokenIn, i.owner, d.self, i.amount).state;
  }

  lemma CancelEffectsFirst(d: Deployment, now: nat, s: State, caller: Address, id: Word, hook: Hook)
    returns (m: State, moved: State)
    requires Reachable(d, s) && Attempt(d, now, s, CancelIntent(caller, id, hook)).Done?
    requires s.Intent(id).status == Funded
    ensures var i := s.Intent(id);
      EffectsFirst(d, now, s, id, Cancelled, m, i.tokenIn, d.self, i.owner, i.amount, hook, moved,
                IntentCancelled(id, i.amount), Attempt(d, now, s, CancelIntent(caller, id, hook)).state)
  {
    ReachableInv(d, s);
    assert Recorded(d, s, id);
    CancelAttempt(d, now, s, caller, id, hook);
    var i := s.intents[id];
    m := s.(locked := true).SetStatus(id, Cancelled);
    moved := MoveUnits(Run(d, now, m, hook.before), d.self, i.tokenIn, d.self, i.owner, i.amount).state;
  }

  // ---------------------------------------------------------------- executing

  // EIP-712, with the authorization's eleven fields in the order of its type string.
  function SignedDigest(d: Deployment, a: RouteAuthorization): Word
  {
    var words: seq<Word> :=
      [d.typeHash, a.intentId, a.owner, a.tokenIn, a.maximumAmount, a.intentCommitment, a.adapter, a.tokenOut,
       a.actionHash, a.minimumOutput, a.intentNonce, a.deadline];
    d.keccak([0x19, 0x01] + Word32(d.domainSeparator) + Word32(d.keccak(Words(words))))
  }

  /** The router is not paused, the intent is funded, its own and in time, adapter and output token are usable, and
      the trusted signer signed just this. */
  predicate Admitted(d: Deployment, now: nat, s: State, a: RouteAuthorization, signature: Bytes, data: Bytes)
  {
    && !s.paused && a.intentId in s.intents
    && var i := s.intents[a.intentId];
    && i.status == Funded && now < i.expiry && now <= a.deadline
    && a.adapter in s.allowedAdapters && s.allowedAdapters[a.adapter] && a.tokenOut != 0
    && a.owner == i.owner && a.tokenIn == i.tokenIn && a.maximumAmount == i.amount
    && a.intentCommitment == i.ciphertextHash && a.intentNonce == i.nonce
    && a.actionHash == d.keccak(data)
    && d.recover(SignedDigest(d, a), signature) == Some(s.teeSigner)
  }

  /** The checks at the head of executeIntent let an authorization in under exactly these conditions, when no
      guarded entry point is under way. */
  lemma GuardExact(d: Deployment, now: nat, s: State, a: RouteAuthorization, signature: Bytes, data: Bytes)
    requires !s.locked
    ensures ExecuteGuard(d, now, s, a, signature, data).None? <==> Admitted(d, now, s, a, signature, data)
  {
    assert SignedDigest(d, a) == AuthorizationDigest(d, a);
  }
}
