/** Across both languages and the chain: what the router executes is what the private policy allows, and
    what the evaluator signs the router can settle. */
module EndToEnd {
  import opened Bytes
  import opened Custody
  import opened CustodyInvariant
  import opened CustodyLog
  import opened CustodyTheorems
  import opened Decimal
  import opened Evaluation
  import EvaluatorTypes
  import opened Hex
  import opened PolicyCommitment
  import Quotes
  import RouteChoice
  import opened RouterTypes
  import opened Signing
  import opened V2Settlement
  import opened Wrappers

  type Hasher = EvaluatorTypes.Hasher
  type Request = EvaluatorTypes.Request
  type Decision = EvaluatorTypes.Decision
  type Route = EvaluatorTypes.Route

  // ---------------------------------------------------------------- who signs what

  /** No signature the history presents is a forgery: whatever recovers to a key was signed with it. */
  ghost predicate Unforged(c: Deployment, txs: seq<Transaction>, signed: set<(Address, Word)>)
  {
    forall k, q | 0 <= k < |txs| && q in Shown(txs[k].call) ::
      Vouched(c, signed, AuthorizationDigest(c, q.authorization), q.signature)
  }

  predicate Vouched(c: Deployment, signed: set<(Address, Word)>, digest: Word, signature: Bytes)
  {
    match c.recover(digest, signature)
    case None => true
    case Some(signer) => (signer, digest) in signed
  }

  /** Keys the router ever trusted sign only in evaluations. */
  ghost predicate EvaluatorKeys(h: Hasher, signers: set<Address>, signed: set<(Address, Word)>, log: seq<World>)
  {
    forall pair | pair in signed && pair.0 in signers :: pair.1 in SignedIn(h, log)
  }

  // ---------------------------------------------------------------- policy enforcement

  /** An execution obeyed the policy: right router, chain, owner, token, nonce and amount, a listed adapter,
      not after the deadline and that not after the policy's expiry, at least the minimum, and that much
      sent to the owner. */
  predicate Enforced(c: Deployment, p: Policy, s: State, i: Intent, e: Event, approval: Approval)
  {
    && e.IntentExecuted?
    && p.router == c.self && p.chainId == c.chainId
    && p.owner == i.owner && p.tokenIn == i.tokenIn && p.nonce == i.nonce
    && p.amount == i.amount == e.amountIn
    && e.adapter in p.allowedAdapters
    && e.amountOut >= p.minimumOutput
    && approval.now <= approval.authorization.deadline <= p.expiry && approval.now < i.expiry
    && Move(i.tokenIn, c.self, e.adapter, e.amountIn) in RouterMoves(c, s.events)
    && Move(e.tokenOut, c.self, i.owner, e.amountOut) in RouterMoves(c, s.events)
  }

  /** One of the preimages hashed on the way collides with another that is named. */
  ghost predicate Collision(h: Hasher, c: Deployment, p: Policy, w: World, a: RouteAuthorization)
    requires Evaluate(h, w).Ok? && SignFault(w.plaintext.value, Chosen(h, w)).None? && InRange(p)
  {
    || DigestCollision(h, c, w.plaintext.value, Chosen(h, w), a)
    || PolicyCollision(h, p, w.plaintext.value)
  }

  /** The route the evaluator took was quoted, within the policy's risk, and leads to this adapter and token. */
  ghost predicate Quoted(h: Hasher, p: Policy, w: World, e: Event)
    requires Evaluate(h, w).Ok? && e.IntentExecuted?
  {
    exists r :: IsQuote(h, p, w, e, r)
  }

  predicate IsQuote(h: Hasher, p: Policy, w: World, e: Event, r: Route)
    requires Evaluate(h, w).Ok? && e.IntentExecuted?
  {
    && Available(h, w.source, w.plaintext.value).Ok? && r in Available(h, w.source, w.plaintext.value).value
    && r.risk <= p.maximumRisk
    && RouteChoice.Expected(r) >= p.minimumOutput
    && HexToAddress(r.adapter) == e.adapter && HexToAddress(r.tokenOut) == e.tokenOut
  }

  /** The evaluation behind an execution, and what follows from it. */
  ghost predicate Upholds(h: Hasher, c: Deployment, p: Policy, s: State, i: Intent, e: Event, w: World,
                          approval: Approval)
    requires InRange(p)
  {
    && Signs(h, w, AuthorizationDigest(c, approval.authorization))
    && Approves(c, i, Signers(s.events), e, approval)
    && SignFault(w.plaintext.value, Chosen(h, w)).None?
    && (Collision(h, c, p, w, approval.authorization) ||
        (&& Enforced(c, p, s, i, e, approval)
         && Quoted(h, p, w, e)
         && (HonestRead(h, w, w.plaintext.value, i) ==> p.expiry == i.expiry)))
  }

  /** The transaction that announced the execution presented this very authorization, signature and calldata, at
      its block time. */
  ghost predicate Presented(c: Deployment, s0: State, txs: seq<Transaction>, e: Event, k: nat, approval: Approval)
  {
    AnnouncedIn(c, s0, txs, k, e) && approval.now == txs[k].now && approval.What() in Shown(txs[k].call)
  }

  /** The same, for what the transaction that announced the execution presented. */
  ghost predicate UpheldIn(h: Hasher, c: Deployment, p: Policy, s0: State, txs: seq<Transaction>, e: Event, k: nat,
                           w: World, approval: Approval)
    requires InRange(p) && e.IntentExecuted?
  {
    var s := History(c, s0, txs);
    && Presented(c, s0, txs, e, k, approval)
    && e.id in s.intents && Upholds(h, c, p, s, s.intents[e.id], e, w, approval)
  }

  lemma AdapterListed(req: Request, d: Decision)
    requires PolicyFault(req).None? && RouteChoice.Listed(req.constraints.allowedAdapters, d.adapter)
    ensures HexToAddress(d.adapter) in PolicyOf(req).allowedAdapters
  {
    var adapters := req.constraints.allowedAdapters;
    var k :| 0 <= k < |adapters| && Lower(adapters[k]) == Lower(d.adapter);
    FromHexIgnoresCase(adapters[k], d.adapter);
    assert Addresses(adapters)[k] == HexToAddress(d.adapter);
  }

  lemma {:induction false} ClaimedWithin(c: Deployment, intents: map<Word, Intent>, said: seq<Event>, e: Event, m: Move)
    requires e in said && Settling(e) && e.id in intents && m in Claimed(c, e, intents[e.id])
    ensures m in ClaimedMoves(c, intents, said)
  {
    if said[|said| - 1] != e {
      ClaimedWithin(c, intents, said[..|said| - 1], e, m);
    }
  }

  lemma ExecutionMoves(c: Deployment, s: State, e: Event)
    requires Inv(c, s) && e in Announcements(s.events) && e.IntentExecuted?
    ensures e.id in s.intents
    ensures Move(s.intents[e.id].tokenIn, c.self, e.adapter, e.amountIn) in RouterMoves(c, s.events)
    ensures Move(e.tokenOut, c.self, s.intents[e.id].owner, e.amountOut) in RouterMoves(c, s.events)
  {
    var i := s.intents[e.id];
    ClaimedWithin(c, s.intents, Announcements(s.events), e, Move(i.tokenIn, c.self, e.adapter, e.amountIn));
    ClaimedWithin(c, s.intents, Announcements(s.events), e, Move(e.tokenOut, c.self, i.owner, e.amountOut));
  }

  /** What the evaluator's own checks make of a policy it matched. */
  lemma PolicyMatched(h: Hasher, w: World, p: Policy)
    requires Evaluate(h, w).Ok? && PolicyFault(w.plaintext.value).None? && PolicyOf(w.plaintext.value) == p
    ensures var req, d := w.plaintext.value, Chosen(h, w);
      && HexToAddress(d.adapter) in p.allowedAdapters
      && EvaluatorTypes.Positive(d.maximumAmount) == Some(p.amount) && Parse(d.minimumOutput) == Some(p.minimumOutput)
      && HexToAddress(d.owner) == p.owner && HexToAddress(d.tokenIn) == p.tokenIn
      && d.intentNonce == p.nonce && d.deadline <= p.expiry && req.expiry == p.expiry
      && EvaluatorTypes.Positive(req.chainID) == Some(p.chainId) && HexToAddress(req.router) == p.router
  {
    EvaluationEstablishes(h, w);
    AdapterListed(w.plaintext.value, Chosen(h, w));
  }

  lemma RouteQuoted(h: Hasher, p: Policy, w: World, e: Event)
    requires Evaluate(h, w).Ok? && e.IntentExecuted?
    requires PolicyFault(w.plaintext.value).None? && PolicyOf(w.plaintext.value) == p
    requires HexToAddress(Chosen(h, w).adapter) == e.adapter && HexToAddress(Chosen(h, w).tokenOut) == e.tokenOut
    ensures Quoted(h, p, w, e)
  {
    var r := ChosenRoute(h, w);
    assert IsQuote(h, p, w, e, r);
  }

  lemma ExpiryMatches(h: Hasher, w: World, i: Intent, p: Policy)
    requires Evaluate(h, w).Ok? && PolicyFault(w.plaintext.value).None? && PolicyOf(w.plaintext.value) == p
    requires HonestRead(h, w, w.plaintext.value, i)
    ensures p.expiry == i.expiry
  {
    EvaluationEstablishes(h, w);
    HonestlyVerified(h, w, w.plaintext.value, i);
  }

  /** Without collisions, what was signed is this policy and this authorization. */
  lemma Bound(h: Hasher, c: Deployment, p: Policy, w: World, a: RouteAuthorization)
    requires Attuned(h, c) && Signs(h, w, AuthorizationDigest(c, a)) && InRange(p)
    requires ClientCommitment(h, p) == Some(a.intentCommitment)
    ensures SignFault(w.plaintext.value, Chosen(h, w)).None?
    ensures Collision(h, c, p, w, a) ||
      (Addressed(c, w.plaintext.value) && Denotes(h, w.plaintext.value, Chosen(h, w), a)
       && PolicyOf(w.plaintext.value) == p)
  {
    var req, d := w.plaintext.value, Chosen(h, w);
    EvaluationEstablishes(h, w);
    if !Collision(h, c, p, w, a) {
      DigestBinds(h, c, req, d, a);
      CommitmentBinds(h, p, req);
    }
  }

  lemma BoundObeys(h: Hasher, c: Deployment, p: Policy, s: State, e: Event, w: World, approval: Approval)
    requires Inv(c, s) && e in Announcements(s.events) && e.IntentExecuted? && e.id in s.intents
    requires Approves(c, s.intents[e.id], Signers(s.events), e, approval)
    requires Evaluate(h, w).Ok? && SignFault(w.plaintext.value, Chosen(h, w)).None?
    requires Addressed(c, w.plaintext.value) && Denotes(h, w.plaintext.value, Chosen(h, w), approval.authorization)
    requires PolicyOf(w.plaintext.value) == p
    ensures Enforced(c, p, s, s.intents[e.id], e, approval) && Quoted(h, p, w, e)
  {
    PolicyMatched(h, w, p);
    ExecutionMoves(c, s, e);
    RouteQuoted(h, p, w, e);
  }

  /** One approval and the evaluation that signed it. */
  lemma ApprovalUpholds(h: Hasher, c: Deployment, p: Policy, s: State, e: Event, w: World, approval: Approval)
    requires Inv(c, s) && Attuned(h, c) && e in Announcements(s.events) && e.IntentExecuted? && e.id in s.intents
    requires ClientCommitment(h, p) == Some(s.intents[e.id].ciphertextHash)
    requires Approves(c, s.intents[e.id], Signers(s.events), e, approval)
    requires Signs(h, w, AuthorizationDigest(c, approval.authorization))
    ensures Upholds(h, c, p, s, s.intents[e.id], e, w, approval)
  {
    Bound(h, c, p, w, approval.authorization);
    if !Collision(h, c, p, w, approval.authorization) {
      BoundObeys(h, c, p, s, e, w, approval);
      if HonestRead(h, w, w.plaintext.value, s.intents[e.id]) {
        ExpiryMatches(h, w, s.intents[e.id], p);
      }
    }
  }

  /** Behind every announced execution stands what the transaction that announced it presented. */
  lemma ApprovalPresented(c: Deployment, s0: State, owner: Address, signer: Address, txs: seq<Transaction>, e: Event)
    returns (k: nat, approval: Approval)
    requires Initial(c, s0, owner, signer)
    requires e in Announcements(History(c, s0, txs).events) && e.IntentExecuted?
    ensures Presented(c, s0, txs, e, k, approval)
    ensures var s := History(c, s0, txs);
      && Inv(c, s) && e.id in s.intents
      && Approves(c, s.intents[e.id], Signers(s.events), e, approval)
  {
    InitialInv(c, s0, owner, signer);
    HistoryKeeps(c, s0, txs);
    InitialSilent(s0, owner, signer, c);
    k, approval := ApprovedInTime(c, s0, txs, e);
  }

  // Deployment announces no settlement.
  lemma InitialSilent(s0: State, owner: Address, signer: Address, c: Deployment)
    requires Initial(c, s0, owner, signer)
    ensures Announcements(s0.events) == []
  {
    var first, second := OwnershipTransferred(0, owner), TeeSignerSet(0, signer);
    Logged(c, [], first);
    Logged(c, [first], second);
    assert [] + [first] == [first] && [first] + [second] == s0.events;
  }

  /** After every history, for every execution ever announced of an intent whose stored hash commits to a
      policy: the transaction that announced it presented an authorization that some evaluation signed, and
      the policy was obeyed, at that transaction's block time; or two named preimages collide, which the
      policy, that evaluation and that authorization determine. It holds although requests name their own
      router, whatever nodes, venues and tokens answer; all that is assumed is that no presented signature
      was forged and that trusted keys sign only evaluations. */
  lemma PolicyEnforced(h: Hasher, c: Deployment, p: Policy, s0: State, owner: Address, signer: Address,
                       txs: seq<Transaction>, e: Event, signed: set<(Address, Word)>, log: seq<World>)
    requires Initial(c, s0, owner, signer) && Attuned(h, c) && InRange(p)
    requires Unforged(c, txs, signed) && EvaluatorKeys(h, Signers(History(c, s0, txs).events), signed, log)
    requires e in Announcements(History(c, s0, txs).events) && e.IntentExecuted?
    requires ClientCommitment(h, p) == Some(History(c, s0, txs).Intent(e.id).ciphertextHash)
    ensures var s := History(c, s0, txs);
      e.id in s.intents && exists k, w, approval :: w in log && UpheldIn(h, c, p, s0, txs, e, k, w, approval)
  {
    var s := History(c, s0, txs);
    var at, approval := ApprovalPresented(c, s0, owner, signer, txs, e);
    var digest := AuthorizationDigest(c, approval.authorization);
    assert Vouched(c, signed, digest, approval.signature) by {
      assert approval.What() in Shown(txs[at].call);
    }
    var pair := (approval.signer, digest);
    assert pair in signed && pair.0 in Signers(s.events);
    SignedByEvaluation(h, log, digest);
    var k :| 0 <= k < |log| && Signs(h, log[k], digest);
    ApprovalUpholds(h, c, p, s, e, log[k], approval);
    assert log[k] in log && UpheldIn(h, c, p, s0, txs, e, at, log[k], approval);
  }

  /** This evaluation, this authorization and the policy name two colliding preimages. */
  ghost predicate Clashes(h: Hasher, c: Deployment, p: Policy, w: World, a: RouteAuthorization)
    requires InRange(p)
  {
    Evaluate(h, w).Ok? && SignFault(w.plaintext.value, Chosen(h, w)).None? && Collision(h, c, p, w, a)
  }

  /** Among what was evaluated and what was presented nothing collides. */
  ghost predicate CollisionFree(h: Hasher, c: Deployment, p: Policy, txs: seq<Transaction>, log: seq<World>)
    requires InRange(p)
  {
    forall k, q, w | 0 <= k < |txs| && q in Shown(txs[k].call) && w in log :: !Clashes(h, c, p, w, q.authorization)
  }

  /** An execution that an evaluation signed and that obeyed the policy. */
  ghost predicate ObeyedIn(h: Hasher, c: Deployment, p: Policy, s0: State, txs: seq<Transaction>, e: Event, k: nat,
                           w: World, approval: Approval)
    requires e.IntentExecuted?
  {
    var s := History(c, s0, txs);
    && Presented(c, s0, txs, e, k, approval)
    && Signs(h, w, AuthorizationDigest(c, approval.authorization))
    && e.id in s.intents && Enforced(c, p, s, s.intents[e.id], e, approval) && Quoted(h, p, w, e)
  }

  lemma PresentedCleanly(h: Hasher, c: Deployment, p: Policy, txs: seq<Transaction>, log: seq<World>, k: nat, w: World,
                         q: Submission)
    requires InRange(p) && CollisionFree(h, c, p, txs, log)
    requires k < |txs| && q in Shown(txs[k].call) && w in log
    ensures !Clashes(h, c, p, w, q.authorization)
  {
  }

  lemma UpheldObeys(h: Hasher, c: Deployment, p: Policy, s0: State, txs: seq<Transaction>, e: Event, k: nat, w: World,
                    approval: Approval)
    requires InRange(p) && e.IntentExecuted?
    requires UpheldIn(h, c, p, s0, txs, e, k, w, approval) && !Clashes(h, c, p, w, approval.authorization)
    ensures ObeyedIn(h, c, p, s0, txs, e, k, w, approval)
  {
  }

  /** So while no preimages hashed in the run collide, every such execution obeyed its policy. */
  lemma PolicyObeyed(h: Hasher, c: Deployment, p: Policy, s0: State, owner: Address, signer: Address,
                     txs: seq<Transaction>, e: Event, signed: set<(Address, Word)>, log: seq<World>)
    requires Initial(c, s0, owner, signer) && Attuned(h, c) && InRange(p) && CollisionFree(h, c, p, txs, log)
    requires Unforged(c, txs, signed) && EvaluatorKeys(h, Signers(History(c, s0, txs).events), signed, log)
    requires e in Announcements(History(c, s0, txs).events) && e.IntentExecuted?
    requires ClientCommitment(h, p) == Some(History(c, s0, txs).Intent(e.id).ciphertextHash)
    ensures exists k, w, approval :: w in log && ObeyedIn(h, c, p, s0, txs, e, k, w, approval)
  {
    PolicyEnforced(h, c, p, s0, owner, signer, txs, e, signed, log);
    var k, w, approval :| w in log && UpheldIn(h, c, p, s0, txs, e, k, w, approval);
    PresentedCleanly(h, c, p, txs, log, k, w, approval.What());
    UpheldObeys(h, c, p, s0, txs, e, k, w, approval);
  }

  // ---------------------------------------------------------------- a signed V2 decision settles

  /** The router's guard lets an authorization in exactly when nothing else is under way, it is the stored
      intent's own, and the live conditions hold. */
  lemma GuardIsOpen(c: Deployment, now: nat, s: State, a: RouteAuthorization, signature: Bytes, data: Bytes)
    ensures ExecuteGuard(c, now, s, a, signature, data).None?
      <==> !s.locked && Matches(c, s, a, data) && Open(c, now, s, a, signature)
  {
  }

  /** The intent a verified request and its decision speak of. */
  lemma DecisionMatchesIntent(h: Hasher, c: Deployment, w: World, a: RouteAuthorization, i: Intent)
    requires Evaluate(h, w).Ok? && HonestRead(h, w, w.plaintext.value, i)
    requires SignFault(w.plaintext.value, Chosen(h, w)).None? && Denotes(h, w.plaintext.value, Chosen(h, w), a)
    ensures a.owner == i.owner && a.tokenIn == i.tokenIn && a.maximumAmount == i.amount
    ensures a.intentCommitment == i.ciphertextHash && a.intentNonce == i.nonce
    ensures a.deadline <= i.expiry
  {
    EvaluationEstablishes(h, w);
    HonestlyVerified(h, w, w.plaintext.value, i);
  }

  /** The configuration entry behind a V2 decision. */
  ghost predicate Configured(w: World, a: RouteAuthorization)
    requires w.source.V2Source? && w.plaintext.Ok?
  {
    exists cfg :: cfg in w.source.configs && Leads(w.plaintext.value, cfg, a)
  }

  predicate Leads(req: Request, cfg: Quotes.V2Config, a: RouteAuthorization)
  {
    && Quotes.Usable(cfg, req)
    && a.adapter == HexToAddress(cfg.adapter) && a.tokenOut == HexToAddress(cfg.path[|cfg.path| - 1])
  }

  lemma DecisionConfigured(h: Hasher, w: World, a: RouteAuthorization)
    requires Evaluate(h, w).Ok? && w.source.V2Source?
    requires a.adapter == HexToAddress(Chosen(h, w).adapter) && a.tokenOut == HexToAddress(Chosen(h, w).tokenOut)
    ensures Configured(w, a)
  {
    var r := ChosenRoute(h, w);
    var req := w.plaintext.value;
    var amount, minimum := EvaluatorTypes.Positive(req.amount).value,
      EvaluatorTypes.Positive(req.constraints.minimumOutput).value;
    Quotes.CollectedFrom(h.keccak, w.source.out, w.source.configs, req, amount, minimum, r);
    var cfg, amounts :| cfg in w.source.configs && Quotes.ComesFrom(h.keccak, r, cfg, req, minimum, amounts);
    AddressHexReadsBack(h.keccak, Addresses(cfg.path)[|cfg.path| - 1]);
    assert Leads(req, cfg, a);
  }

  /** A decision evaluated from live V2 quotes, for this router's V2 adapter, settles exactly when it is still the
      stored intent's own, the router's live conditions hold, tokens and venue cooperate, and the configured
      path ends in a token that is neither zero nor the input: no check of the adapter and no output check
      of the router can stop it for any other reason. On an honest read it is the stored intent's own. */
  lemma V2CannotFailSpuriously(h: Hasher, c: Deployment, now: nat, s: State, w: World, signature: Bytes, x: Externals)
    requires Reachable(c, s) && Attuned(h, c)
    requires Evaluate(h, w).Ok? && w.source.V2Source? && Addressed(c, w.plaintext.value)
    requires HexToAddress(Chosen(h, w).adapter) == c.adapter
    ensures var req, d := w.plaintext.value, Chosen(h, w);
      && SignFault(req, d).None?
      && EvaluatorTypes.Positive(d.maximumAmount).value < UINT256 && Parse(d.minimumOutput).value < UINT256
      && var a, data := AuthorizationOf(h, req, d), ActionBytes(d);
      && SignedDigest(h, w) == AuthorizationDigest(c, a)
      && Configured(w, a)
      && (ExecuteStep(c, now, s, a, signature, data, x).Done? <==>
            Matches(c, s, a, data) && Open(c, now, s, a, signature) && a.tokenOut != a.tokenIn
            && Cooperates(c, now, s, a, x))
      && (HonestRead(h, w, req, s.Intent(a.intentId)) ==> Matches(c, s, a, data))
  {
    V2DecisionsAgree(h, c, w);
    var req, d := w.plaintext.value, Chosen(h, w);
    var a := AuthorizationOf(h, req, d);
    FitsNarrow(h, req, d);
    DecisionConfigured(h, w, a);
    if HonestRead(h, w, req, s.Intent(a.intentId)) {
      DecisionMatchesIntent(h, c, w, a, s.Intent(a.intentId));
    }
    ReachableInv(c, s);
    SettlesWhenOpen(c, now, s, a, signature, ActionBytes(d), x);
  }

  /** The router's recovery finds this signer in whatever the key signs. */
  ghost predicate SignsAs(c: Deployment, key: EvaluatorTypes.Key, signer: Address)
  {
    forall digest: Word :: c.recover(digest, Shifted(key(digest))) == Some(signer)
  }

  /** With the signature the decision itself carries, only the trusted signer being the evaluator's key is
      left of the router's question about signatures. */
  lemma V2SettlesAsSigned(h: Hasher, c: Deployment, now: nat, s: State, w: World, x: Externals)
    returns (signature: Bytes, a: RouteAuthorization, data: Bytes)
    requires Reachable(c, s) && Attuned(h, c)
    requires Evaluate(h, w).Ok? && w.source.V2Source? && Addressed(c, w.plaintext.value)
    requires HexToAddress(Chosen(h, w).adapter) == c.adapter
    requires w.key.Some? && SignsAs(c, w.key.value, s.teeSigner)
    ensures DecodeHex(TrimPrefix(Evaluate(h, w).value.signature)) == Some(signature)
    ensures DecodeHex(TrimPrefix(Evaluate(h, w).value.actionData)) == Some(data)
    ensures Decides(h, w, a, data) && HexToHash(Evaluate(h, w).value.authorizationDigest) == AuthorizationDigest(c, a)
    ensures ExecuteStep(c, now, s, a, signature, data, x).Done? <==>
      Matches(c, s, a, data) && Live(now, s, a) && a.tokenOut != a.tokenIn && Cooperates(c, now, s, a, x)
  {
    signature := SignatureCarried(h, w);
    V2CannotFailSpuriously(h, c, now, s, w, signature, x);
    a, data := AuthorizationOf(h, w.plaintext.value, Chosen(h, w)), ActionBytes(Chosen(h, w));
    SignedText(h, w);
  }

  lemma AdmittedSettles(c: Deployment, now: nat, s: State, a: RouteAuthorization, signature: Bytes, data: Bytes,
                        x: Externals)
    requires Inv(c, s) && a.adapter == c.adapter && Agrees(a, data)
    ensures ExecuteStep(c, now, s, a, signature, data, x).Done? <==>
      && ExecuteGuard(c, now, s, a, signature, data).None?
      && a.tokenOut != a.tokenIn && Cooperates(c, now, s, a, x)
  {
    if ExecuteGuard(c, now, s, a, signature, data).None? {
      V2ExecutionSucceeds(c, now, s, a, signature, data, x);
    }
  }

  lemma SettlesWhenOpen(c: Deployment, now: nat, s: State, a: RouteAuthorization, signature: Bytes, data: Bytes,
                        x: Externals)
    requires Inv(c, s) && a.adapter == c.adapter && Agrees(a, data)
    ensures ExecuteStep(c, now, s, a, signature, data, x).Done? <==>
      Matches(c, s, a, data) && Open(c, now, s, a, signature) && a.tokenOut != a.tokenIn && Cooperates(c, now, s, a, x)
  {
    GuardIsOpen(c, now, s, a, signature, data);
    AdmittedSettles(c, now, s, a, signature, data, x);
  }
}
