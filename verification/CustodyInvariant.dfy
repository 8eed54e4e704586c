/** The invariant of every unlocked state of every run, and what no call, script or history can undo. */
module CustodyInvariant {
  import opened Bytes
  import opened Custody
  import opened CustodyLog
  import opened Interference
  import opened RouterTypes
  import opened Settlement
  import opened Wrappers

  ghost predicate Inv(d: Deployment, s: State)
  {
    && d.self != d.adapter
    && !s.locked && !s.adapterLocked
    && Grantless(s.ledger, d.self) && Grantless(s.ledger, d.adapter)
    && Catalogued(d, s)
    && SignerKnown(s)
    && Solvent(d, s)
    && Narrated(s)
    && Accounted(d, s)
    && Authorized(d, s)
  }

  /** In every token the router holds at least what it owes. */
  ghost predicate Solvent(d: Deployment, s: State)
  {
    forall token: Address :: Surplus(d, s, token) >= 0
  }

  /** All that was ever said about each intent fits its status: created once, funded at most once, and
      at most one refund or one execution, never both. */
  ghost predicate Narrated(s: State)
  {
    forall id: Word :: Fits(s.intents, id, Story(s.events, id))
  }

  ghost predicate Fits(intents: map<Word, Intent>, id: Word, story: seq<Event>)
  {
    if id !in intents then story == []
    else
      var i := intents[id];
      var created, funded := IntentCreated(id, i.(status := Created)), IntentFunded(id, i.amount);
      match i.status
      case Missing => false
      case Created => story == [created]
      case Funded => story == [created, funded]
      case Executed => |story| == 3 && story[..2] == [created, funded]
                       && story[2].IntentExecuted? && story[2].id == id && story[2].amountIn == i.amount
      case Cancelled => story == [created, IntentCancelled(id, 0)]
                        || story == [created, funded, IntentCancelled(id, i.amount)]
  }

  /** The router's token movements are exactly those its announcements claim, in order; nobody else
      ever debited it. */
  ghost predicate Accounted(d: Deployment, s: State)
  {
    && (forall e | e in Announcements(s.events) :: Settling(e) && e.id in s.intents)
    && RouterMoves(d, s.events) == ClaimedMoves(d, s.intents, Announcements(s.events))
  }

  /** What somebody presents to execute an intent. */
  datatype Submission = Submission(authorization: RouteAuthorization, signature: Bytes, data: Bytes)

  /** What a call presents: itself, or the calls of its frame. Calls inside callbacks meet a locked router. */
  function Shown(c: Call): set<Submission>
    decreases c, 1
  {
    match c
    case ExecuteIntent(_, a, signature, data, _) => {Submission(a, signature, data)}
    case Frame(calls, _) => ShownIn(calls)
    case _ => {}
  }

  function ShownIn(calls: seq<Call>): set<Submission>
    decreases calls, 0
  {
    if calls == [] then {} else Shown(calls[0]) + ShownIn(calls[1..])
  }

  /** What was presented to execute an intent, when, and by whom it was signed. */
  datatype Approval = Approval(now: nat, authorization: RouteAuthorization, signature: Bytes, data: Bytes,
                               signer: Address)
  {
    function What(): Submission
    {
      Submission(authorization, signature, data)
    }
  }

  predicate Approves(d: Deployment, i: Intent, signers: set<Address>, e: Event, w: Approval)
  {
    var a := w.authorization;
    && e.IntentExecuted?
    && w.signer in signers
    && d.recover(AuthorizationDigest(d, a), w.signature) == Some(w.signer)
    && a.intentId == e.id
    && a.owner == i.owner && a.tokenIn == i.tokenIn
    && a.maximumAmount == i.amount == e.amountIn
    && a.intentCommitment == i.ciphertextHash && a.intentNonce == i.nonce
    && a.actionHash == d.keccak(w.data)
    && a.adapter == e.adapter && a.tokenOut == e.tokenOut != 0
    && a.minimumOutput <= e.amountOut
    && w.now < i.expiry && w.now <= a.deadline
  }

  ghost predicate Justified(d: Deployment, s: State, e: Event)
  {
    e.IntentExecuted? ==> e.id in s.intents && exists w :: Approves(d, s.intents[e.id], Signers(s.events), e, w)
  }

  /** The same, by one of these submissions, at this block time. */
  ghost predicate JustifiedAt(d: Deployment, s: State, e: Event, now: nat, shown: set<Submission>)
  {
    e.IntentExecuted? ==> e.id in s.intents && exists w: Approval :: Backs(d, s, e, now, shown, w)
  }

  predicate Backs(d: Deployment, s: State, e: Event, now: nat, shown: set<Submission>, w: Approval)
    requires e.IntentExecuted? && e.id in s.intents
  {
    w.now == now && w.What() in shown && Approves(d, s.intents[e.id], Signers(s.events), e, w)
  }

  /** Whatever was announced on the way from one state to the next, one of these submissions approved, at this
      block time. */
  ghost predicate Stamped(d: Deployment, s: State, s': State, now: nat, shown: set<Submission>)
  {
    forall e | e in Announcements(s'.events) && e !in Announcements(s.events) :: JustifiedAt(d, s', e, now, shown)
  }

  ghost predicate Authorized(d: Deployment, s: State)
  {
    forall e | e in Announcements(s.events) :: Justified(d, s, e)
  }

  // ---------------------------------------------------------------- what only ever grows

  predicate Forward(from: Status, to: Status)
  {
    from == to || from == Created || (from == Funded && (to == Executed || to == Cancelled))
  }

  /** Statuses only move forward, terminal ones stay, and nothing else about an intent changes. */
  ghost predicate Lifecycle(intents: map<Word, Intent>, intents': map<Word, Intent>)
  {
    forall id | id in intents :: Evolves(intents, intents', id)
  }

  predicate Evolves(intents: map<Word, Intent>, intents': map<Word, Intent>, id: Word)
    requires id in intents
  {
    id in intents' && SameIntent(intents[id], intents'[id]) && Forward(intents[id].status, intents'[id].status)
  }

  ghost predicate Progress(d: Deployment, s: State, s': State)
  {
    && Lifecycle(s.intents, s'.intents)
    && (forall token: Address :: Surplus(d, s', token) >= Surplus(d, s, token))
    && Announcements(s.events) <= Announcements(s'.events)
    && Signers(s.events) <= Signers(s'.events)
  }

  lemma ProgressTransitive(d: Deployment, s0: State, s1: State, s2: State)
    requires Progress(d, s0, s1) && Progress(d, s1, s2)
    ensures Progress(d, s0, s2)
  {
    forall id | id in s0.intents
      ensures Evolves(s0.intents, s2.intents, id)
    {
      assert Evolves(s0.intents, s1.intents, id) && Evolves(s1.intents, s2.intents, id);
    }
    forall token: Address
      ensures Surplus(d, s2, token) >= Surplus(d, s0, token)
    {
      assert Surplus(d, s1, token) >= Surplus(d, s0, token);
    }
  }

  // ---------------------------------------------------------------- keeping it

  lemma JustifiedKept(d: Deployment, s: State, s': State, e: Event)
    requires Justified(d, s, e) && Lifecycle(s.intents, s'.intents) && Signers(s.events) <= Signers(s'.events)
    ensures Justified(d, s', e)
  {
    if e.IntentExecuted? {
      var w :| Approves(d, s.intents[e.id], Signers(s.events), e, w);
      assert Evolves(s.intents, s'.intents, e.id);
      assert Approves(d, s'.intents[e.id], Signers(s'.events), e, w);
    }
  }

  lemma JustifiedAtKept(d: Deployment, s: State, s': State, e: Event, now: nat, shown: set<Submission>,
                        shown': set<Submission>)
    requires JustifiedAt(d, s, e, now, shown) && shown <= shown'
    requires Lifecycle(s.intents, s'.intents) && Signers(s.events) <= Signers(s'.events)
    ensures JustifiedAt(d, s', e, now, shown')
  {
    if e.IntentExecuted? {
      var w: Approval :| Backs(d, s, e, now, shown, w);
      assert Evolves(s.intents, s'.intents, e.id);
      assert Backs(d, s', e, now, shown', w);
    }
  }

  lemma StampedTransitive(d: Deployment, s0: State, s1: State, s2: State, now: nat, a: set<Submission>,
                          b: set<Submission>)
    requires Stamped(d, s0, s1, now, a) && Stamped(d, s1, s2, now, b) && Progress(d, s1, s2)
    ensures Stamped(d, s0, s2, now, a + b)
  {
    forall e | e in Announcements(s2.events) && e !in Announcements(s0.events)
      ensures JustifiedAt(d, s2, e, now, a + b)
    {
      if e in Announcements(s1.events) {
        JustifiedAtKept(d, s1, s2, e, now, a, a + b);
      } else {
        JustifiedAtKept(d, s2, s2, e, now, b, a + b);
      }
    }
  }

  lemma AccountsKept(d: Deployment, s: State, s': State)
    requires Accounted(d, s) && Lifecycle(s.intents, s'.intents)
    ensures ClaimedMoves(d, s'.intents, Announcements(s.events)) == RouterMoves(d, s.events)
  {
    forall e | e in Announcements(s.events)
      ensures e.id in s'.intents && SameIntent(s.intents[e.id], s'.intents[e.id])
    {
      assert Evolves(s.intents, s'.intents, e.id);
    }
    ClaimsKept(d, s.intents, s'.intents, Announcements(s.events));
  }

  /** Foreign code without a settlement. */
  lemma DriftKeeps(d: Deployment, s: State, s': State)
    requires Inv(d, s) && Drift(d, s, s', [])
    ensures Inv(d, s') && Progress(d, s, s')
  {
    forall id | id in s.intents
      ensures Evolves(s.intents, s'.intents, id)
    {
    }
    forall token: Address
      ensures Surplus(d, s', token) >= Surplus(d, s, token) >= 0
    {
      ExtendedSum(s.intents, s'.intents, token);
      assert s'.ledger.Balance(token, d.self) >= s.ledger.Balance(token, d.self) + Net(d, [], token);
    }
    forall id: Word
      ensures Fits(s'.intents, id, Story(s'.events, id))
    {
      assert Fits(s.intents, id, Story(s.events, id));
      assert Story(s'.events, id) == Story(s.events, id) +
        if id in s'.intents && id !in s.intents then [IntentCreated(id, s'.intents[id])] else [];
    }
    AccountsKept(d, s, s');
    assert RouterMoves(d, s.events) + [] == RouterMoves(d, s.events);
    forall e | e in Announcements(s'.events)
      ensures Justified(d, s', e)
    {
      JustifiedKept(d, s, s', e);
    }
  }

  /** The step a settlement takes in an intent's life, and what was said of it. */
  predicate Step(i: Intent, id: Word, status: Status, e: Event)
  {
    || (i.status == Created && status == Funded && e == IntentFunded(id, i.amount))
    || ((i.status == Created || i.status == Funded) && status == Cancelled && e == IntentCancelled(id, Refund(i)))
    || (i.status == Funded && status == Executed && e.IntentExecuted? && e.id == id && e.amountIn == i.amount)
  }

  lemma SettledProgress(d: Deployment, s: State, s': State, id: Word, status: Status, e: Event)
    requires Settled(d, s, s', id, status, e) && Step(s.intents[id], id, status, e)
    ensures Progress(d, s, s')
  {
    forall j | j in s.intents
      ensures Evolves(s.intents, s'.intents, j)
    {
    }
  }

  lemma SettledNarrated(d: Deployment, s: State, s': State, id: Word, status: Status, e: Event)
    requires Narrated(s) && Settled(d, s, s', id, status, e) && Step(s.intents[id], id, status, e)
    ensures Narrated(s')
  {
    forall j: Word
      ensures Fits(s'.intents, j, Story(s'.events, j))
    {
      assert Fits(s.intents, j, Story(s.events, j));
      assert Story(s'.events, j) == Story(s.events, j) + Told(s, s', e, j);
    }
  }

  lemma SettledAccounted(d: Deployment, s: State, s': State, id: Word, status: Status, e: Event)
    requires Accounted(d, s) && Settled(d, s, s', id, status, e) && Progress(d, s, s')
    ensures Accounted(d, s')
  {
    AccountsKept(d, s, s');
    Claiming(d, s'.intents, Announcements(s.events), e);
    forall x | x in Announcements(s'.events)
      ensures Settling(x) && x.id in s'.intents
    {
      assert x in Announcements(s.events) || x == e;
      assert x.id in s.intents ==> Evolves(s.intents, s'.intents, x.id);
    }
  }

  /** A settlement by a guarded entry point. */
  lemma SettledKeeps(d: Deployment, now: nat, s: State, s': State, id: Word, status: Status, e: Event,
                     shown: set<Submission>)
    requires Inv(d, s) && Settled(d, s, s', id, status, e) && Step(s.intents[id], id, status, e)
    requires JustifiedAt(d, s', e, now, shown)
    ensures Inv(d, s') && Progress(d, s, s') && Stamped(d, s, s', now, shown)
  {
    SettledProgress(d, s, s', id, status, e);
    SettledNarrated(d, s, s', id, status, e);
    SettledAccounted(d, s, s', id, status, e);
    forall x | x in Announcements(s'.events)
      ensures Justified(d, s', x)
    {
      if x in Announcements(s.events) {
        JustifiedKept(d, s, s', x);
      }
    }
    forall token: Address
      ensures Surplus(d, s', token) >= 0
    {
      assert Surplus(d, s, token) >= 0;
    }
  }

  // ---------------------------------------------------------------- every call, at the top level

  lemma FundKeeps(d: Deployment, now: nat, s: State, caller: Address, id: Word, hook: Hook)
    requires Inv(d, s) && FundStep(d, now, s, caller, id, hook).Done?
    ensures var s' := FundStep(d, now, s, caller, id, hook).state;
      Inv(d, s') && Progress(d, s, s') && Stamped(d, s, s', now, {})
  {
    DepositSettles(d, now, s, id, hook);
    SettledKeeps(d, now, s, FundStep(d, now, s, caller, id, hook).state, id, Funded,
                 IntentFunded(id, s.intents[id].amount), {});
  }

  lemma CancelKeeps(d: Deployment, now: nat, s: State, caller: Address, id: Word, hook: Hook)
    requires Inv(d, s) && CancelStep(d, now, s, caller, id, hook).Done?
    ensures var s' := CancelStep(d, now, s, caller, id, hook).state;
      Inv(d, s') && Progress(d, s, s') && Stamped(d, s, s', now, {})
  {
    CancelSettles(d, now, s, caller, id, hook);
    SettledKeeps(d, now, s, CancelStep(d, now, s, caller, id, hook).state, id, Cancelled,
                 IntentCancelled(id, Refund(s.intents[id])), {});
  }

  lemma ExecuteKeeps(d: Deployment, now: nat, s: State, a: RouteAuthorization, signature: Bytes, data: Bytes,
                     x: Externals)
    requires Inv(d, s) && ExecuteStep(d, now, s, a, signature, data, x).Done?
    ensures var s' := ExecuteStep(d, now, s, a, signature, data, x).state;
      Inv(d, s') && Progress(d, s, s') && Stamped(d, s, s', now, {Submission(a, signature, data)})
  {
    var s' := ExecuteStep(d, now, s, a, signature, data, x).state;
    ExecuteSettles(d, now, s, a, signature, data, x);
    var back, amountOut := ExecuteUnfolds(d, now, s, a, signature, data, x);
    var i := s.intents[a.intentId];
    var e := IntentExecuted(a.intentId, a.adapter, a.tokenOut, i.amount, AmountOut(d, now, s, a, data, x));
    var shown := {Submission(a, signature, data)};
    assert Backs(d, s', e, now, shown, Approval(now, a, signature, data, s.teeSigner));
    SettledKeeps(d, now, s, s', a.intentId, Executed, e, shown);
  }

  // Registering does not look at the lock.
  lemma LockedRegister(d: Deployment, now: nat, s: State, owner: Address, tokenIn: Address, amount: Word, hash: Word,
                       expiry: Uint64)
    returns (created: State)
    requires Register(d, now, s.(locked := true), owner, tokenIn, amount, hash, expiry).Done?
    ensures Register(d, now, s, owner, tokenIn, amount, hash, expiry) == Done(created)
    ensures Register(d, now, s.(locked := true), owner, tokenIn, amount, hash, expiry) == Done(created.(locked := true))
    ensures var i := NewIntent(s, owner, tokenIn, amount, hash, expiry);
      IntentId(d, i) in created.intents && created.intents[IntentId(d, i)] == i
  {
    created := Register(d, now, s, owner, tokenIn, amount, hash, expiry).state;
  }

  lemma RegisterKeeps(d: Deployment, now: nat, s: State, owner: Address, tokenIn: Address, amount: Word, hash: Word,
                      expiry: Uint64, created: State)
    requires Inv(d, s) && !Protected(d, owner)
    requires Register(d, now, s, owner, tokenIn, amount, hash, expiry) == Done(created)
    ensures Inv(d, created) && Progress(d, s, created) && Stamped(d, s, created, now, {})
  {
    RegisterStable(d, now, s, owner, tokenIn, amount, hash, expiry);
    Unchanged(d, s);
    StableDrifts(d, s, created);
    DriftKeeps(d, s, created);
  }

  lemma CreateAndFundKeeps(d: Deployment, now: nat, s: State, owner: Address, tokenIn: Address, amount: Word,
                           hash: Word, expiry: Uint64, hook: Hook)
    requires Inv(d, s) && !Protected(d, owner)
    requires CreateAndFundStep(d, now, s, owner, tokenIn, amount, hash, expiry, hook).Done?
    ensures var s' := CreateAndFundStep(d, now, s, owner, tokenIn, amount, hash, expiry, hook).state;
      Inv(d, s') && Progress(d, s, s') && Stamped(d, s, s', now, {})
  {
    var s' := CreateAndFundStep(d, now, s, owner, tokenIn, amount, hash, expiry, hook).state;
    var id := IntentId(d, NewIntent(s, owner, tokenIn, amount, hash, expiry));
    var created := LockedRegister(d, now, s, owner, tokenIn, amount, hash, expiry);
    RegisterKeeps(d, now, s, owner, tokenIn, amount, hash, expiry, created);
    DepositSettles(d, now, created, id, hook);
    SettledKeeps(d, now, created, s', id, Funded, IntentFunded(id, amount), {});
    ProgressTransitive(d, s, created, s');
    StampedTransitive(d, s, created, s', now, {}, {});
  }

  lemma SimpleKeeps(d: Deployment, now: nat, s: State, c: Call)
    requires Inv(d, s) && !Guarded(c) && !c.Frame? && Attempt(d, now, s, c).Done?
    ensures var s' := Attempt(d, now, s, c).state; Inv(d, s') && Progress(d, s, s') && Stamped(d, s, s', now, {})
  {
    SimpleStable(d, now, s, c);
    StableDrifts(d, s, Attempt(d, now, s, c).state);
    DriftKeeps(d, s, Attempt(d, now, s, c).state);
  }

  lemma StillHolds(d: Deployment, s: State)
    ensures Progress(d, s, s)
  {
  }

  /** Every call from an unlocked state, with arbitrary code in each of its callbacks. */
  lemma {:induction false} ExecKeeps(d: Deployment, now: nat, s: State, c: Call)
    requires Inv(d, s)
    ensures var s' := Exec(d, now, s, c); Inv(d, s') && Progress(d, s, s') && Stamped(d, s, s', now, Shown(c))
    decreases c, 1
  {
    StillHolds(d, s);
    if Attempt(d, now, s, c).Done? {
      match c {
        case CreateAndFundIntent(caller, tokenIn, amount, hash, expiry, hook) =>
          CreateAndFundKeeps(d, now, s, caller, tokenIn, amount, hash, expiry, hook);
        case FundIntent(caller, id, hook) => FundKeeps(d, now, s, caller, id, hook);
        case ExecuteIntent(_, a, signature, data, x) => ExecuteKeeps(d, now, s, a, signature, data, x);
        case CancelIntent(caller, id, hook) => CancelKeeps(d, now, s, caller, id, hook);
        case AdapterExecute(_, _, _, _, _) => AdapterRefuses(d, now, s, c);
        case Frame(calls, _) => RunKeeps(d, now, s, calls);
        case _ => SimpleKeeps(d, now, s, c);
      }
    }
  }

  /** Nobody but the router gets the adapter to act. */
  lemma AdapterRefuses(d: Deployment, now: nat, s: State, c: Call)
    requires c.AdapterExecute?
    ensures Attempt(d, now, s, c).Revert?
  {
    if !Protected(d, c.caller) {
      assert V2Step(d, now, s, c.caller, c.tokenIn, c.amountIn, c.data, c.callee).AdapterRevert?;
    }
  }

  lemma {:induction false} RunKeeps(d: Deployment, now: nat, s: State, calls: seq<Call>)
    requires Inv(d, s)
    ensures var s' := Run(d, now, s, calls); Inv(d, s') && Progress(d, s, s') && Stamped(d, s, s', now, ShownIn(calls))
    decreases calls, 0
  {
    StillHolds(d, s);
    if calls != [] {
      var mid := Exec(d, now, s, calls[0]);
      ExecKeeps(d, now, s, calls[0]);
      RunKeeps(d, now, mid, calls[1..]);
      ProgressTransitive(d, s, mid, Run(d, now, s, calls));
      StampedTransitive(d, s, mid, Run(d, now, s, calls), now, Shown(calls[0]), ShownIn(calls[1..]));
    }
  }

  /** Every history keeps the invariant and only ever makes progress. */
  lemma {:induction false} HistoryKeeps(d: Deployment, s: State, txs: seq<Transaction>)
    requires Inv(d, s)
    ensures var s' := History(d, s, txs); Inv(d, s') && Progress(d, s, s')
    decreases |txs|
  {
    StillHolds(d, s);
    if txs != [] {
      var mid := Exec(d, txs[0].now, s, txs[0].call);
      ExecKeeps(d, txs[0].now, s, txs[0].call);
      HistoryKeeps(d, mid, txs[1..]);
      ProgressTransitive(d, s, mid, History(d, s, txs));
    }
  }

  /** The transaction of a history in which an event was first announced. */
  ghost predicate AnnouncedIn(d: Deployment, s: State, txs: seq<Transaction>, k: nat, e: Event)
  {
    && k < |txs|
    && e !in Announcements(History(d, s, txs[..k]).events)
    && e in Announcements(History(d, s, txs[..k + 1]).events)
  }

  lemma FirstOnly(d: Deployment, s: State, txs: seq<Transaction>)
    requires txs != []
    ensures History(d, s, txs[..1]) == Exec(d, txs[0].now, s, txs[0].call) && History(d, s, txs[..0]) == s
  {
    assert txs[..1] == [txs[0]] && txs[..1][1..] == [];
  }

  lemma ApprovalKept(d: Deployment, s: State, s': State, e: Event, now: nat, shown: set<Submission>)
    returns (w: Approval)
    requires e.IntentExecuted? && JustifiedAt(d, s, e, now, shown) && Progress(d, s, s')
    ensures e.id in s'.intents && Backs(d, s', e, now, shown, w)
  {
    JustifiedAtKept(d, s, s', e, now, shown, shown);
    w :| Backs(d, s', e, now, shown, w);
  }

  /** Every execution a history announced was approved by something the very transaction that announced it
      presented, at that transaction's block time, however deep in its calls it happened. */
  lemma {:induction false} ApprovedInTime(d: Deployment, s: State, txs: seq<Transaction>, e: Event)
    returns (k: nat, w: Approval)
    requires Inv(d, s) && e.IntentExecuted?
    requires e !in Announcements(s.events) && e in Announcements(History(d, s, txs).events)
    ensures AnnouncedIn(d, s, txs, k, e) && w.now == txs[k].now && w.What() in Shown(txs[k].call)
    ensures var s' := History(d, s, txs);
      e.id in s'.intents && Approves(d, s'.intents[e.id], Signers(s'.events), e, w)
    decreases |txs|
  {
    var mid := Exec(d, txs[0].now, s, txs[0].call);
    ExecKeeps(d, txs[0].now, s, txs[0].call);
    HistoryKeeps(d, mid, txs[1..]);
    if e in Announcements(mid.events) {
      FirstOnly(d, s, txs);
      w := ApprovalKept(d, mid, History(d, mid, txs[1..]), e, txs[0].now, Shown(txs[0].call));
      k := 0;
    } else {
      var j;
      j, w := ApprovedInTime(d, mid, txs[1..], e);
      assert txs[..j + 1][1..] == txs[1..][..j] && txs[..j + 2][1..] == txs[1..][..j + 1];
      k := j + 1;
    }
  }

  /** The constructor establishes the invariant. */
  lemma InitialInv(d: Deployment, s: State, owner: Address, signer: Address)
    requires Initial(d, s, owner, signer)
    ensures Inv(d, s)
  {
    var first, second := OwnershipTransferred(0, owner), TeeSignerSet(0, signer);
    Logged(d, [], first);
    Logged(d, [first], second);
    assert [] + [first] == [first] && [first] + [second] == s.events;
    forall token: Address
      ensures Surplus(d, s, token) >= 0
    {
      assert FundedAmounts(s.intents, token) == map[];
    }
    forall token: Address
      ensures NoGrant(s.ledger, token, d.self) && NoGrant(s.ledger, token, d.adapter)
    {
      forall spender: Address
        ensures s.ledger.Allowance(token, d.self, spender) == 0 && s.ledger.Allowance(token, d.adapter, spender) == 0
      {
        assert Protected(d, d.self) && Protected(d, d.adapter);
      }
    }
    forall id: Word
      ensures Fits(s.intents, id, Story(s.events, id))
    {
    }
  }
}
