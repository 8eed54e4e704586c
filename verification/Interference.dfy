/** What code the router does not control can do to it. Between the router's own steps any script may
    run; while the reentrancy lock is held its whole effect is bounded by the relation Stable. */
module Interference {
  import opened Bytes
  import opened Custody
  import opened CustodyLog
  import opened RouterTypes

  ghost predicate NoGrant(l: Ledger, token: Address, who: Address)
  {
    forall spender: Address :: l.Allowance(token, who, spender) == 0
  }

  /** An account nobody may debit. */
  ghost predicate Grantless(l: Ledger, who: Address)
  {
    forall token: Address :: NoGrant(l, token, who)
  }

  /** No allowance grows. */
  ghost predicate Shrunk(l: Ledger, l': Ledger, who: Address)
  {
    forall token: Address, spender: Address :: l'.Allowance(token, who, spender) <= l.Allowance(token, who, spender)
  }

  /** No allowance grows, and a token in which nothing was granted is not lost. */
  ghost predicate Frozen(l: Ledger, l': Ledger, who: Address)
  {
    && Shrunk(l, l', who)
    && (forall token: Address :: NoGrant(l, token, who) ==> l'.Balance(token, who) >= l.Balance(token, who))
  }

  /** Stored intents stay; new ones are merely Created. */
  ghost predicate Extended(intents: map<Word, Intent>, intents': map<Word, Intent>)
  {
    && (forall id | id in intents :: id in intents' && intents'[id] == intents[id])
    && (forall id | id in intents' && id !in intents :: intents'[id].status == Created)
  }

  ghost predicate StoriesKept(s: State, s': State)
  {
    forall id: Word :: Story(s'.events, id) == Story(s.events, id) +
      if id in s'.intents && id !in s.intents then [IntentCreated(id, s'.intents[id])] else []
  }

  /** Ids are hashes of immutable fields, and each owner's nonces are 0..next-1, one intent each. */
  ghost predicate Catalogued(d: Deployment, s: State)
  {
    && (forall id: Word :: Recorded(d, s, id))
    && (forall id: Word, id': Word :: Distinguished(s, id, id'))
    && (forall who: Address, n: Uint64 :: Held(s, who, n))
  }

  ghost predicate Recorded(d: Deployment, s: State, id: Word)
  {
    id in s.intents ==>
      var i := s.intents[id];
      && id == IntentId(d, i)
      && i.nonce < s.Nonce(i.owner)
      && i.status != Missing
      && i.tokenIn != 0 && i.amount != 0 && i.ciphertextHash != 0
      && !Protected(d, i.owner)
  }

  ghost predicate Distinguished(s: State, id: Word, id': Word)
  {
    (&& id in s.intents && id' in s.intents
     && s.intents[id].owner == s.intents[id'].owner
     && s.intents[id].nonce == s.intents[id'].nonce)
    ==> id == id'
  }

  ghost predicate Held(s: State, who: Address, n: Uint64)
  {
    n < s.Nonce(who) ==> exists id :: id in s.intents && s.intents[id].owner == who && s.intents[id].nonce == n
  }

  /** The trusted signer is one that was announced. */
  ghost predicate SignerKnown(s: State)
  {
    s.teeSigner in Signers(s.events)
  }

  ghost predicate Stable(d: Deployment, s: State, s': State)
  {
    && s'.locked == s.locked && s'.adapterLocked == s.adapterLocked
    && Extended(s.intents, s'.intents)
    && Frozen(s.ledger, s'.ledger, d.self)
    && (Grantless(s.ledger, d.self) ==> RouterMoves(d, s'.events) == RouterMoves(d, s.events))
    && Announcements(s'.events) == Announcements(s.events)
    && StoriesKept(s, s')
    && Signers(s.events) <= Signers(s'.events)
    && (SignerKnown(s) ==> SignerKnown(s'))
    && (Catalogued(d, s) ==> Catalogued(d, s'))
  }

  lemma FrozenTransitive(l0: Ledger, l1: Ledger, l2: Ledger, who: Address)
    requires Frozen(l0, l1, who) && Frozen(l1, l2, who)
    ensures Frozen(l0, l2, who)
  {
    forall token: Address, spender: Address
      ensures l2.Allowance(token, who, spender) <= l0.Allowance(token, who, spender)
    {
      assert l2.Allowance(token, who, spender) <= l1.Allowance(token, who, spender);
    }
    forall token: Address | NoGrant(l0, token, who)
      ensures l2.Balance(token, who) >= l0.Balance(token, who)
    {
      NoGrantKept(l0, l1, token, who);
    }
  }

  lemma NoGrantKept(l: Ledger, l': Ledger, token: Address, who: Address)
    requires Shrunk(l, l', who) && NoGrant(l, token, who)
    ensures NoGrant(l', token, who)
  {
    forall spender: Address
      ensures l'.Allowance(token, who, spender) == 0
    {
      assert l'.Allowance(token, who, spender) <= l.Allowance(token, who, spender);
    }
  }

  lemma GrantlessKept(l: Ledger, l': Ledger, who: Address)
    requires Shrunk(l, l', who) && Grantless(l, who)
    ensures Grantless(l', who)
  {
    forall token: Address
      ensures NoGrant(l', token, who)
    {
      NoGrantKept(l, l', token, who);
    }
  }

  lemma StableTransitive(d: Deployment, s0: State, s1: State, s2: State)
    requires Stable(d, s0, s1) && Stable(d, s1, s2)
    ensures Stable(d, s0, s2)
  {
    FrozenTransitive(s0.ledger, s1.ledger, s2.ledger, d.self);
    if Grantless(s0.ledger, d.self) {
      GrantlessKept(s0.ledger, s1.ledger, d.self);
    }
    forall id: Word
      ensures Story(s2.events, id) == Story(s0.events, id) +
        if id in s2.intents && id !in s0.intents then [IntentCreated(id, s2.intents[id])] else []
    {
      assert Story(s1.events, id) == Story(s0.events, id) +
        if id in s1.intents && id !in s0.intents then [IntentCreated(id, s1.intents[id])] else [];
    }
  }

  lemma Unchanged(d: Deployment, s: State)
    ensures Stable(d, s, s) && Frozen(s.ledger, s.ledger, d.adapter)
  {
  }

  // ---------------------------------------------------------------- single steps

  /** A registered intent: its id is fresh, its nonce the next one. */
  lemma RegisterStable(d: Deployment, now: nat, s: State, owner: Address, tokenIn: Address, amount: Word,
                       hash: Word, expiry: Uint64)
    requires !Protected(d, owner) && Catalogued(d, s)
    requires Register(d, now, s, owner, tokenIn, amount, hash, expiry).Done?
    ensures Stable(d, s, Register(d, now, s, owner, tokenIn, amount, hash, expiry).state)
  {
    var i := NewIntent(s, owner, tokenIn, amount, hash, expiry);
    var id := IntentId(d, i);
    var s' := Register(d, now, s, owner, tokenIn, amount, hash, expiry).state;
    FreshId(d, s, id);
    RegisterCatalogued(d, s, s', id, i);
    RegisterLogged(d, s, s', id, i);
  }

  lemma FreshId(d: Deployment, s: State, id: Word)
    requires Catalogued(d, s) && s.Intent(id).status == Missing
    ensures id !in s.intents
  {
    assert Recorded(d, s, id);
  }

  lemma RegisterLogged(d: Deployment, s: State, s': State, id: Word, i: Intent)
    requires id !in s.intents && i.status == Created && Catalogued(d, s')
    requires s' == s.(nextIntentNonce := s'.nextIntentNonce, intents := s.intents[id := i]).Emit(IntentCreated(id, i))
    ensures Stable(d, s, s')
  {
    Logged(d, s.events, IntentCreated(id, i));
  }

  lemma RegisterCatalogued(d: Deployment, s: State, s': State, id: Word, i: Intent)
    requires Catalogued(d, s) && !Protected(d, i.owner)
    requires id !in s.intents && id == IntentId(d, i) && i.nonce == s.Nonce(i.owner) < UINT64 - 1
    requires i.status == Created && i.tokenIn != 0 && i.amount != 0 && i.ciphertextHash != 0
    requires s'.intents == s.intents[id := i]
    requires s'.nextIntentNonce == s.nextIntentNonce[i.owner := i.nonce + 1]
    ensures Catalogued(d, s')
  {
    forall j: Word
      ensures Recorded(d, s', j)
    {
      assert Recorded(d, s, j);
    }
    forall j: Word, k: Word
      ensures Distinguished(s', j, k)
    {
      assert Distinguished(s, j, k) && Recorded(d, s, j) && Recorded(d, s, k);
    }
    forall who: Address, n: Uint64
      ensures Held(s', who, n)
    {
      HeldOn(s, s', who, n, id, i);
    }
  }

  lemma HeldOn(s: State, s': State, who: Address, n: Uint64, id: Word, i: Intent)
    requires Held(s, who, n) && id !in s.intents && i.nonce == s.Nonce(i.owner) < UINT64 - 1
    requires s'.intents == s.intents[id := i]
    requires s'.nextIntentNonce == s.nextIntentNonce[i.owner := i.nonce + 1]
    ensures Held(s', who, n)
  {
    if n < s.Nonce(who) {
      var j :| j in s.intents && s.intents[j].owner == who && s.intents[j].nonce == n;
      assert j in s'.intents && s'.intents[j] == s.intents[j];
    } else if n < s'.Nonce(who) {
      assert s'.intents[id].owner == who && s'.intents[id].nonce == n;
    }
  }

  lemma MoveShrunk(s: State, operator: Address, token: Address, from: Address, to: Address, amount: nat, who: Address)
    requires MoveUnits(s, operator, token, from, to, amount).Done?
    ensures Shrunk(s.ledger, MoveUnits(s, operator, token, from, to, amount).state.ledger, who)
  {
  }

  lemma ApproveShrunk(l: Ledger, token: Address, holder: Address, spender: Address, amount: nat, who: Address)
    requires holder != who || amount == 0
    ensures Shrunk(l, l.Approve(token, holder, spender, amount), who)
  {
  }

  /** Units moved by somebody else's order leave an account alone unless it granted an allowance. */
  lemma MoveFrozen(s: State, operator: Address, token: Address, from: Address, to: Address, amount: nat, who: Address)
    requires operator != who
    requires MoveUnits(s, operator, token, from, to, amount).Done?
    ensures Frozen(s.ledger, MoveUnits(s, operator, token, from, to, amount).state.ledger, who)
    ensures from == who && NoGrant(s.ledger, token, who) ==> amount == 0
  {
    var l' := MoveUnits(s, operator, token, from, to, amount).state.ledger;
    if from == who && NoGrant(s.ledger, token, who) {
      assert s.ledger.Allowance(token, who, operator) == 0;
    }
  }

  lemma MoveStable(d: Deployment, s: State, operator: Address, token: Address, from: Address, to: Address, amount: nat)
    requires operator != d.self
    requires MoveUnits(s, operator, token, from, to, amount).Done?
    ensures Stable(d, s, MoveUnits(s, operator, token, from, to, amount).state)
  {
    MoveFrozen(s, operator, token, from, to, amount, d.self);
    Logged(d, s.events, Transfer(operator, token, from, to, amount));
    if Grantless(s.ledger, d.self) {
      assert NoGrant(s.ledger, token, d.self);
    }
    var s' := MoveUnits(s, operator, token, from, to, amount).state;
    assert Catalogued(d, s) ==> Catalogued(d, s') by {
      SameCatalogue(d, s, s');
    }
  }

  /** Only the intents and the nonces matter to the catalogue. */
  lemma SameCatalogue(d: Deployment, s: State, s': State)
    requires s'.intents == s.intents && s'.nextIntentNonce == s.nextIntentNonce
    ensures Catalogued(d, s) ==> Catalogued(d, s')
  {
    if Catalogued(d, s) {
      forall id: Word
        ensures Recorded(d, s', id)
      {
        assert Recorded(d, s, id);
      }
      forall j: Word, k: Word
        ensures Distinguished(s', j, k)
      {
        assert Distinguished(s, j, k);
      }
      forall who: Address, n: Uint64
        ensures Held(s', who, n)
      {
        assert Held(s, who, n);
      }
    }
  }

  /** Setters, approvals and mints: nothing of the router's books moves. */
  lemma QuietStable(d: Deployment, s: State, s': State, e: Event)
    requires s'.locked == s.locked && s'.adapterLocked == s.adapterLocked
    requires s'.intents == s.intents && s'.nextIntentNonce == s.nextIntentNonce
    requires s'.events == s.events + [e] && !e.IntentCreated? && !Settling(e) && !e.Transfer?
    requires Frozen(s.ledger, s'.ledger, d.self)
    requires s'.teeSigner == s.teeSigner || e == TeeSignerSet(s.teeSigner, s'.teeSigner)
    ensures Stable(d, s, s')
  {
    Logged(d, s.events, e);
    SameCatalogue(d, s, s');
  }

  // ---------------------------------------------------------------- any script, under the lock

  /** The nonReentrant entry points, and the adapter's, which only the router may call. */
  predicate Guarded(c: Call)
  {
    c.CreateAndFundIntent? || c.FundIntent? || c.ExecuteIntent? || c.CancelIntent? || c.AdapterExecute?
  }

  /** Under the lock every guarded entry point reverts, whoever calls it and whatever its arguments. */
  lemma LockBlocks(d: Deployment, now: nat, s: State, c: Call)
    requires s.locked && Guarded(c)
    ensures Attempt(d, now, s, c).Revert? && Exec(d, now, s, c) == s
  {
    match c {
      case CreateAndFundIntent(caller, tokenIn, amount, hash, expiry, hook) =>
        assert CreateAndFundStep(d, now, s, caller, tokenIn, amount, hash, expiry, hook).Revert?;
      case FundIntent(caller, id, hook) => assert FundStep(d, now, s, caller, id, hook).Revert?;
      case ExecuteIntent(_, a, signature, data, x) => assert ExecuteStep(d, now, s, a, signature, data, x).Revert?;
      case CancelIntent(caller, id, hook) => assert CancelStep(d, now, s, caller, id, hook).Revert?;
      case AdapterExecute(caller, tokenIn, amountIn, data, callee) =>
        if !Protected(d, caller) {
          assert V2Step(d, now, s, caller, tokenIn, amountIn, data, callee).AdapterRevert?;
        }
    }
  }

  lemma ApproveStable(d: Deployment, s: State, token: Address, holder: Address, spender: Address, amount: nat)
    requires !Protected(d, holder)
    ensures var s' := s.(ledger := s.ledger.Approve(token, holder, spender, amount));
      Stable(d, s, s') && Frozen(s.ledger, s'.ledger, d.adapter)
  {
    SameCatalogue(d, s, s.(ledger := s.ledger.Approve(token, holder, spender, amount)));
  }

  lemma MintStable(d: Deployment, s: State, token: Address, to: Address, amount: nat)
    ensures var s' := s.(ledger := s.ledger.Credit(token, to, amount)).Emit(Minted(token, to, amount));
      Stable(d, s, s') && Frozen(s.ledger, s'.ledger, d.adapter)
  {
    QuietStable(d, s, s.(ledger := s.ledger.Credit(token, to, amount)).Emit(Minted(token, to, amount)),
                Minted(token, to, amount));
  }

  /** The unguarded calls that run no further code. */
  lemma SimpleStable(d: Deployment, now: nat, s: State, c: Call)
    requires Catalogued(d, s) && !Guarded(c) && !c.Frame?
    requires Attempt(d, now, s, c).Done?
    ensures var s' := Attempt(d, now, s, c).state;
      Stable(d, s, s') && Frozen(s.ledger, s'.ledger, d.adapter)
  {
    var s' := Attempt(d, now, s, c).state;
    match c {
      case CreateIntent(caller, tokenIn, amount, hash, expiry) =>
        RegisterStable(d, now, s, caller, tokenIn, amount, hash, expiry);
      case SetAdapter(_, adapter, allowed) => QuietStable(d, s, s', AdapterPermissionSet(adapter, allowed));
      case SetTeeSigner(_, newSigner) => QuietStable(d, s, s', TeeSignerSet(s.teeSigner, newSigner));
      case SetPaused(_, newPaused) => QuietStable(d, s, s', PauseSet(newPaused));
      case TransferOwnership(_, newOwner) => QuietStable(d, s, s', OwnershipTransferred(s.owner, newOwner));
      case TokenApprove(caller, token, spender, amount) => ApproveStable(d, s, token, caller, spender, amount);
      case TokenMint(_, token, to, amount) => MintStable(d, s, token, to, amount);
      case TokenTransferFrom(caller, token, from, to, amount) =>
        MoveStable(d, s, caller, token, from, to, amount);
        MoveFrozen(s, caller, token, from, to, amount, d.adapter);
      case TokenMove(caller, token, to, amount) =>
        MoveStable(d, s, caller, token, caller, to, amount);
        MoveFrozen(s, caller, token, caller, to, amount, d.adapter);
    }
  }

  /** One foreign call made while the router is locked. */
  lemma {:induction false} ExecStable(d: Deployment, now: nat, s: State, c: Call)
    requires s.locked && Catalogued(d, s)
    ensures var s' := Exec(d, now, s, c);
      Stable(d, s, s') && Frozen(s.ledger, s'.ledger, d.adapter)
    decreases c, 1
  {
    Unchanged(d, s);
    if Guarded(c) {
      LockBlocks(d, now, s, c);
    } else if Attempt(d, now, s, c).Done? {
      if c.Frame? {
        RunStable(d, now, s, c.calls);
      } else {
        SimpleStable(d, now, s, c);
      }
    }
  }

  /** Any script of foreign calls run while the router is locked. */
  lemma {:induction false} RunStable(d: Deployment, now: nat, s: State, calls: seq<Call>)
    requires s.locked && Catalogued(d, s)
    ensures var s' := Run(d, now, s, calls);
      Stable(d, s, s') && Frozen(s.ledger, s'.ledger, d.adapter) && s'.locked && Catalogued(d, s')
    decreases calls, 0
  {
    Unchanged(d, s);
    if calls != [] {
      var mid := Exec(d, now, s, calls[0]);
      ExecStable(d, now, s, calls[0]);
      RunStable(d, now, mid, calls[1..]);
      var s' := Run(d, now, s, calls);
      StableTransitive(d, s, mid, s');
      FrozenTransitive(s.ledger, mid.ledger, s'.ledger, d.adapter);
    }
  }
}
