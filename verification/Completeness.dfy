/** The other direction: a request that honestly restates a funded intent's policy passes every check of the
    evaluator, and a decision is signed exactly when time, quotes, allow-list and key permit. */
module Completeness {
  import opened BestQuote
  import opened Bytes
  import opened ChainReader
  import opened Custody
  import CustodyInvariant
  import CustodyLog
  import CustodyTheorems
  import opened Decimal
  import opened EndToEnd
  import opened Evaluation
  import opened EvaluatorTypes
  import opened Hex
  import opened PolicyCommitment
  import opened Quotes
  import opened RouteChoice
  import opened RouterTypes
  import Settlement
  import opened Signing
  import V2Settlement
  import opened Wrappers

  /** The policies a request can state and the evaluator's encoder accepts. */
  predicate Writable(p: Policy)
  {
    && NonNegative(p) && p.nonce < UINT64 && p.expiry < UINT64 && p.maximumRisk < 256
    && p.chainId > 0 && p.amount > 0 && p.minimumOutput > 0 && p.expiry > 0 && p.allowedAdapters != []
  }

  /** The policies both encoders accept. */
  predicate Acceptable(p: Policy)
  {
    Writable(p) && InRange(p)
  }

  function AdapterTexts(keccak: Bytes -> Word, adapters: seq<Address>): (texts: seq<string>)
    ensures |texts| == |adapters|
  {
    seq(|adapters|, i requires 0 <= i < |adapters| => AddressHex(keccak, adapters[i]))
  }

  /** A policy and an intent's id, written out as a request. */
  function Restated(h: Hasher, p: Policy, id: Word, deadline: Uint64): Request
    requires Writable(p)
  {
    Request(HashHex(id), AddressHex(h.keccak, p.router), Format(p.chainId), AddressHex(h.keccak, p.owner),
            AddressHex(h.keccak, p.tokenIn), Format(p.amount), p.nonce, p.expiry, deadline,
            Constraints(AdapterTexts(h.keccak, p.allowedAdapters), p.maximumRisk, Format(p.minimumOutput)))
  }

  lemma PositiveFormat(n: nat)
    requires n > 0
    ensures Positive(Format(n)) == Some(n) && Format(n) != ""
  {
    ParseInvertsFormat(n);
  }

  lemma AdaptersRestated(keccak: Bytes -> Word, adapters: seq<Address>)
    ensures AllAddresses(AdapterTexts(keccak, adapters)) && Addresses(AdapterTexts(keccak, adapters)) == adapters
  {
    forall i | 0 <= i < |adapters|
      ensures IsHexAddress(AdapterTexts(keccak, adapters)[i])
        && HexToAddress(AdapterTexts(keccak, adapters)[i]) == adapters[i]
    {
      AddressHexReadsBack(keccak, adapters[i]);
    }
  }

  lemma RestatedNumbers(h: Hasher, p: Policy, id: Word, deadline: Uint64)
    requires Writable(p)
    ensures var req := Restated(h, p, id, deadline);
      && Positive(req.chainID) == Some(p.chainId) && Positive(req.amount) == Some(p.amount)
      && Positive(req.constraints.minimumOutput) == Some(p.minimumOutput)
  {
    PositiveFormat(p.chainId);
    PositiveFormat(p.amount);
    PositiveFormat(p.minimumOutput);
  }

  lemma RestatedAddresses(h: Hasher, p: Policy, id: Word, deadline: Uint64)
    requires Writable(p)
    ensures var req := Restated(h, p, id, deadline);
      && IsHexAddress(req.router) && HexToAddress(req.router) == p.router
      && IsHexAddress(req.owner) && HexToAddress(req.owner) == p.owner
      && IsHexAddress(req.tokenIn) && HexToAddress(req.tokenIn) == p.tokenIn
      && AllAddresses(req.constraints.allowedAdapters)
        && Addresses(req.constraints.allowedAdapters) == p.allowedAdapters
  {
    AddressHexReadsBack(h.keccak, p.router);
    AddressHexReadsBack(h.keccak, p.owner);
    AddressHexReadsBack(h.keccak, p.tokenIn);
    AdaptersRestated(h.keccak, p.allowedAdapters);
  }

  /** A request whose parts denote a policy's fields denotes the policy. */
  lemma PartsDenote(req: Request, p: Policy)
    requires IsHexAddress(req.router) && IsHexAddress(req.owner) && IsHexAddress(req.tokenIn)
    requires HexToAddress(req.router) == p.router && HexToAddress(req.owner) == p.owner
      && HexToAddress(req.tokenIn) == p.tokenIn
    requires Positive(req.chainID) == Some(p.chainId) && Positive(req.amount) == Some(p.amount)
    requires Positive(req.constraints.minimumOutput) == Some(p.minimumOutput)
    requires req.nonce == p.nonce && 0 < req.expiry == p.expiry && req.constraints.maximumRisk == p.maximumRisk
    requires AllAddresses(req.constraints.allowedAdapters)
      && Addresses(req.constraints.allowedAdapters) == p.allowedAdapters != []
    ensures PolicyFault(req).None? && PolicyOf(req) == p
  {
  }

  /** The request denotes the policy it restates. */
  lemma RestatedDenotes(h: Hasher, p: Policy, id: Word, deadline: Uint64)
    requires Writable(p)
    ensures var req := Restated(h, p, id, deadline);
      PolicyFault(req).None? && PolicyOf(req) == p
  {
    RestatedNumbers(h, p, id, deadline);
    RestatedAddresses(h, p, id, deadline);
    PartsDenote(Restated(h, p, id, deadline), p);
  }

  /** And commits to it as the client does. */
  lemma RestatedCommits(h: Hasher, p: Policy, id: Word, deadline: Uint64)
    requires Acceptable(p)
    ensures ClientCommitment(h, p).Some?
    ensures Commitment(h, Restated(h, p, id, deadline)) == Ok(ClientCommitment(h, p).value)
  {
    RestatedDenotes(h, p, id, deadline);
    EncodersAgree(h, Restated(h, p, id, deadline));
  }

  /** The stored intent the policy was made for. */
  predicate MadeFor(h: Hasher, p: Policy, i: Intent)
  {
    && i.owner == p.owner && i.tokenIn == p.tokenIn && i.amount == p.amount && i.nonce == p.nonce
      && i.expiry == p.expiry
    && ClientCommitment(h, p) == Some(i.ciphertextHash)
  }

  lemma HashText(id: Word)
    ensures |TrimPrefix(HashHex(id))| == 64 && HexToHash(HashHex(id)) == id && HashHex(id) != ""
  {
    HashHexReadsBack(id);
    assert TrimPrefix(HashHex(id)) == EncodeHex(Word32(id));
  }

  /** A node that answers with the funded intent satisfies every check against the chain. */
  lemma RestatedIsVerified(h: Hasher, w: World, p: Policy, id: Word, deadline: Uint64, i: Intent)
    requires Acceptable(p) && MadeFor(h, p, i) && i.status == Funded
    requires w.chainId == Some(Format(p.chainId)) && Answers(h, w, Restated(h, p, id, deadline), i)
    ensures ChainFault(h, w, Restated(h, p, id, deadline)).None?
  {
    RestatedCommits(h, p, id, deadline);
    CommittedIsVerified(h, w, p, id, deadline, i);
  }

  /** The stored, funded intent of this policy, its hash as the evaluator computes it. */
  predicate CommittedTo(h: Hasher, p: Policy, id: Word, deadline: Uint64, i: Intent)
    requires Writable(p)
  {
    && i.owner == p.owner && i.tokenIn == p.tokenIn && i.amount == p.amount && i.nonce == p.nonce
      && i.expiry == p.expiry
    && i.status == Funded && Commitment(h, Restated(h, p, id, deadline)) == Ok(i.ciphertextHash)
  }

  lemma CommittedIsVerified(h: Hasher, w: World, p: Policy, id: Word, deadline: Uint64, i: Intent)
    requires Writable(p) && CommittedTo(h, p, id, deadline, i)
    requires w.chainId == Some(Format(p.chainId)) && Answers(h, w, Restated(h, p, id, deadline), i)
    ensures ChainFault(h, w, Restated(h, p, id, deadline)).None?
  {
    var req := Restated(h, p, id, deadline);
    HashText(id);
    AddressHexReadsBack(h.keccak, p.router);
    AnswerDecoded(h, w, req, i);
    IntentVerified(h, req, i);
  }

  lemma IntentVerified(h: Hasher, req: Request, i: Intent)
    requires req.owner == AddressHex(h.keccak, i.owner) && req.tokenIn == AddressHex(h.keccak, i.tokenIn)
    requires req.amount == Format(i.amount) && req.nonce == i.nonce && req.expiry == i.expiry && i.status == Funded
    requires Commitment(h, req) == Ok(i.ciphertextHash)
    ensures VerifyFault(h, req, OnchainOf(h.keccak, i)).None?
  {
  }

  /** Some configured venue qualifies: it answers for the amount with at least the minimum, through a listed
      adapter, within the risk. */
  ghost predicate Quotable(w: World, req: Request, p: Policy)
    requires w.source.V2Source? && NonNegative(p)
  {
    exists k :: 0 <= k < |w.source.configs|
      && Qualifies(w.source.out, w.source.configs[k], req, p.amount, p.minimumOutput)
  }

  predicate Timely(now: nat, req: Request)
  {
    now < req.deadline <= req.expiry
  }

  /** With live quotes, a route is chosen exactly when there is time and some route qualifies. */
  lemma ChoosesWhenQuotable(h: Hasher, w: World, p: Policy, id: Word, deadline: Uint64)
    requires Acceptable(p) && w.source.V2Source? && w.source.configured
    ensures var req := Restated(h, p, id, deadline);
      Choose(h, w, req).Ok? <==> Timely(w.now, req) && Quotable(w, req, p)
  {
    var req := Restated(h, p, id, deadline);
    PositiveFormat(p.amount);
    PositiveFormat(p.minimumOutput);
    RestatedIsComplete(h, w.now, p, id, deadline);
    ChoosesExactly(h, w, req);
  }

  lemma RestatedIsComplete(h: Hasher, now: nat, p: Policy, id: Word, deadline: Uint64)
    requires Writable(p)
    ensures var req := Restated(h, p, id, deadline); RequestFault(now, req).None? <==> Timely(now, req)
  {
    HashText(id);
    PositiveFormat(p.chainId);
    PositiveFormat(p.amount);
    PositiveFormat(p.minimumOutput);
    assert |AddressHex(h.keccak, p.owner)| == 42 && |AddressHex(h.keccak, p.tokenIn)| == 42
      && |AddressHex(h.keccak, p.router)| == 42;
  }

  /** Signing a choice among live quotes never fails for an intent with a real id. */
  lemma ChosenCanBeSigned(h: Hasher, w: World, p: Policy, id: Word, deadline: Uint64)
    requires Acceptable(p) && id != 0 && w.source.V2Source? && w.source.configured
    requires Choose(h, w, Restated(h, p, id, deadline)).Ok?
    ensures var req := Restated(h, p, id, deadline); SignFault(req, Choose(h, w, req).value).None?
  {
    var req := Restated(h, p, id, deadline);
    PositiveFormat(p.amount);
    PositiveFormat(p.minimumOutput);
    var routes := Collect(h.keccak, w.source.out, w.source.configs, req, p.amount, p.minimumOutput);
    ChoiceIsEarliestBest(w.now, req, routes);
    var k: nat :| k < |routes| && BestEligible(req, routes, k)
      && Choose(h, w, req).value == DecisionFor(req, routes[k]);
    QuotesAreSound(h.keccak, w.source.out, w.source.configs, req, routes[k]);
    QuotedCanBeSigned(h, p, id, deadline, routes[k]);
  }

  lemma QuotedCanBeSigned(h: Hasher, p: Policy, id: Word, deadline: Uint64, r: Route)
    requires Acceptable(p) && id != 0 && Sound(r, Restated(h, p, id, deadline), p.minimumOutput)
    ensures var req := Restated(h, p, id, deadline); SignFault(req, DecisionFor(req, r)).None?
  {
    RestatedDenotes(h, p, id, deadline);
    HashText(id);
    RestatedNumbers(h, p, id, deadline);
    RestatedAddresses(h, p, id, deadline);
    PartsCanBeSigned(Restated(h, p, id, deadline), r);
  }

  // All that signing asks of a request and the route chosen for it.
  lemma PartsCanBeSigned(req: Request, r: Route)
    requires PolicyFault(req).None? && IsHexAddress(req.router) && IsHexAddress(req.owner) && IsHexAddress(req.tokenIn)
    requires HexToHash(req.intentID) != 0 && |TrimPrefix(req.intentID)| == 64
    requires IsHexAddress(r.adapter) && IsHexAddress(r.tokenOut) && DecodeHex(TrimPrefix(r.actionData)).Some?
    ensures SignFault(req, DecisionFor(req, r)).None?
  {
  }

  /** For every acceptable policy with its funded intent on chain and a node that says so: the evaluation of
      the request that restates it succeeds exactly when the deadline is ahead and within the expiry, some
      live quote qualifies, the chosen adapter reads as allowed, and the key is there. */
  lemma HonestEvaluationSucceeds(h: Hasher, w: World, p: Policy, id: Word, deadline: Uint64, i: Intent)
    requires Acceptable(p) && MadeFor(h, p, i) && i.status == Funded && id != 0
    requires w.ready && w.plaintext == Ok(Restated(h, p, id, deadline)) && w.source.V2Source? && w.source.configured
    requires w.chainId == Some(Format(p.chainId)) && Answers(h, w, Restated(h, p, id, deadline), i)
    ensures var req := Restated(h, p, id, deadline);
      Evaluate(h, w).Ok? <==>
        && Timely(w.now, req) && Quotable(w, req, p) && w.key.Some?
        && Choose(h, w, req).Ok?
        && ReadAllowed(h.keccak, w.call, req.router, Choose(h, w, req).value.adapter) == Ok(true)
  {
    var req := Restated(h, p, id, deadline);
    RestatedIsVerified(h, w, p, id, deadline, i);
    ChoosesWhenQuotable(h, w, p, id, deadline);
    if Choose(h, w, req).Ok? {
      ChosenCanBeSigned(h, w, p, id, deadline);
      SucceedsWhenSigned(h, w, req);
    }
  }

  lemma SucceedsWhenSigned(h: Hasher, w: World, req: Request)
    requires w.ready && w.plaintext == Ok(req) && ChainFault(h, w, req).None? && Choose(h, w, req).Ok?
    requires SignFault(req, Choose(h, w, req).value).None?
    ensures Evaluate(h, w).Ok? <==>
      w.key.Some? && ReadAllowed(h.keccak, w.call, req.router, Choose(h, w, req).value.adapter) == Ok(true)
  {
  }

  // ---------------------------------------------------------------- and settles

  /** An execution that ends with this announcement. */
  predicate Announces(o: Outcome, id: Word, adapter: Address, amountIn: int, minimum: int)
  {
    && o.Done? && |o.state.events| > 0
    && var e := o.state.events[|o.state.events| - 1];
    && e.IntentExecuted? && e.id == id && e.adapter == adapter && e.amountIn == amountIn && e.amountOut >= minimum
  }

  lemma PayoutAnnounces(c: Deployment, now: nat, s: State, back: State, a: RouteAuthorization, amountOut: nat,
                        hook: Hook)
    requires a.intentId in s.intents && c.self != c.adapter && amountOut >= a.minimumOutput
    requires Settlement.Drift(c, s.(locked := true), back,
                              [CustodyLog.Move(s.intents[a.intentId].tokenIn, c.self, a.adapter,
                                               s.intents[a.intentId].amount)])
    requires Payout(c, now, back, a, amountOut, hook).Done?
    ensures Announces(Payout(c, now, back, a, amountOut, hook), a.intentId, a.adapter, s.Intent(a.intentId).amount,
                      a.minimumOutput)
  {
    assert a.intentId in s.(locked := true).intents;
    Settlement.PayoutSends(c, now, back, a, amountOut, hook);
  }

  lemma ExecutionAnnounces(c: Deployment, now: nat, s: State, a: RouteAuthorization, signature: Bytes, data: Bytes,
                           x: Externals)
    requires CustodyInvariant.Inv(c, s) && ExecuteStep(c, now, s, a, signature, data, x).Done?
    ensures Announces(ExecuteStep(c, now, s, a, signature, data, x), a.intentId, a.adapter, s.Intent(a.intentId).amount,
                      a.minimumOutput)
  {
    assert Settlement.Sturdy(c, s, a.intentId);
    var back, amountOut := Settlement.ExecuteUnfolds(c, now, s, a, signature, data, x);
    Settlement.BackDrifts(c, now, s, a, data, x, back);
    PayoutAnnounces(c, now, s, back, a, amountOut, x.output);
  }

  lemma RestatedIsAddressed(h: Hasher, c: Deployment, p: Policy, id: Word, deadline: Uint64)
    requires Writable(p) && p.router == c.self && p.chainId == c.chainId
    ensures Addressed(c, Restated(h, p, id, deadline))
  {
    PositiveFormat(p.chainId);
    AddressHexReadsBack(h.keccak, p.router);
  }

  /** The whole way: an acceptable policy's intent, honestly restated and evaluated for the V2 adapter, settles
      exactly when the router's live conditions hold, tokens and venue cooperate and the path leaves its input
      token; then the policy's whole amount went in and at least its minimum came out. */
  lemma HonestIntentSettles(h: Hasher, c: Deployment, now: nat, s: State, w: World, p: Policy, id: Word,
                            deadline: Uint64, signature: Bytes, x: Externals)
    returns (a: RouteAuthorization, data: Bytes)
    requires CustodyTheorems.Reachable(c, s) && Attuned(h, c)
    requires Acceptable(p) && MadeFor(h, p, s.Intent(id)) && p.router == c.self && p.chainId == c.chainId
    requires w.plaintext == Ok(Restated(h, p, id, deadline)) && w.source.V2Source?
    requires Answers(h, w, Restated(h, p, id, deadline), s.Intent(id).(status := Funded))
    requires Evaluate(h, w).Ok? && HexToAddress(Chosen(h, w).adapter) == c.adapter
    ensures Decides(h, w, a, data) && Settles(h, c, now, s, w, p, id, signature, x, a, data)
  {
    var req, d := Restated(h, p, id, deadline), Chosen(h, w);
    RestatedIsAddressed(h, c, p, id, deadline);
    HashText(id);
    assert HonestRead(h, w, req, s.Intent(id));
    V2CannotFailSpuriously(h, c, now, s, w, signature, x);
    a, data := AuthorizationOf(h, req, d), ActionBytes(d);
    if ExecuteStep(c, now, s, a, signature, data, x).Done? {
      CustodyTheorems.ReachableInv(c, s);
      ExecutionAnnounces(c, now, s, a, signature, data, x);
    }
    ChosenDenotes(h, w, p, id, deadline, a);
  }

  /** That the evaluation signed an authorization, and what presenting it does. */
  predicate Settles(h: Hasher, c: Deployment, now: nat, s: State, w: World, p: Policy, id: Word, signature: Bytes,
                    x: Externals, a: RouteAuthorization, data: Bytes)
  {
    && Signs(h, w, AuthorizationDigest(c, a))
    && a.intentId == id && a.adapter == c.adapter && a.minimumOutput == p.minimumOutput
    && var o := ExecuteStep(c, now, s, a, signature, data, x);
    && (o.Done? <==>
        Open(c, now, s, a, signature) && a.tokenOut != a.tokenIn && V2Settlement.Cooperates(c, now, s, a, x))
    && (o.Done? ==> Announces(o, id, c.adapter, p.amount, p.minimumOutput))
  }

  lemma ChosenDenotes(h: Hasher, w: World, p: Policy, id: Word, deadline: Uint64, a: RouteAuthorization)
    requires Acceptable(p) && w.plaintext == Ok(Restated(h, p, id, deadline)) && Evaluate(h, w).Ok?
    requires SignFault(w.plaintext.value, Chosen(h, w)).None? && Denotes(h, w.plaintext.value, Chosen(h, w), a)
    ensures a.intentId == id && a.minimumOutput == p.minimumOutput
  {
    EvaluationEstablishes(h, w);
    HashText(id);
    PositiveFormat(p.minimumOutput);
  }
}
