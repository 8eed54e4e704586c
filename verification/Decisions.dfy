/** When an evaluation succeeds and what it answers, told by the chain an honest node reads from, the quotes on
    offer and the request's text. */
module Decisions {
  import opened Bytes
  import opened ChainReader
  import opened Custody
  import opened Decimal
  import opened Evaluation
  import opened EvaluatorTypes
  import opened Hex
  import opened PolicyCommitment
  import opened Quotes
  import opened RouteChoice
  import opened RouterTypes
  import opened Signing
  import opened Wrappers

  // ---------------------------------------------------------------- an honest node

  /** A function's selector: the first four bytes of its signature's hash. */
  function SelectorOf(keccak: Bytes -> Word, signature: string): Bytes
  {
    Word32(keccak(Ascii(signature)))[..4]
  }

  const INTENTS := "intents(bytes32)"
  const ALLOWED := "allowedAdapters(address)"

  function Argument(data: Bytes): Word
    requires |data| == 36
  {
    FromWord32(data[4..]);
    FromBytes(data[4..])
  }

  /** A node serving one state of the router: the two getters at the router's address, nothing anywhere else. */
  function Serve(c: Deployment, s: State, to: string, data: Bytes): Option<Bytes>
  {
    if !IsHexAddress(to) || HexToAddress(to) != c.self || |data| != 36 then None
    else if data[..4] == SelectorOf(c.keccak, INTENTS) then Some(GetterBytes(s.Intent(Argument(data))))
    else if data[..4] == SelectorOf(c.keccak, ALLOWED) && Argument(data) < UINT160 then
      Some(Word32(if s.Allowed(Argument(data)) then 1 else 0))
    else None
  }

  ghost predicate Honest(w: World, c: Deployment, s: State)
  {
    forall to, data :: w.call(to, data) == Serve(c, s, to, data)
  }

  /** The two getters are told apart. */
  predicate Distinct(c: Deployment)
  {
    SelectorOf(c.keccak, INTENTS) != SelectorOf(c.keccak, ALLOWED)
  }

  lemma CallParts(selector: Bytes, word: Word)
    requires |selector| == 4
    ensures |selector + Word32(word)| == 36 && (selector + Word32(word))[..4] == selector
    ensures Argument(selector + Word32(word)) == word
  {
    assert (selector + Word32(word))[4..] == Word32(word);
    Word32RoundTrip(word);
  }

  lemma AddressArgument(a: Address)
    ensures LeftPad(ToBytes(a, 20), 32) == Word32(a)
  {
    Pow256Values();
    BigEndianPads(a, 20);
    BigEndianPads(a, 32);
    assert Word32(a) == Zeros(12) + ToBytes(a, 20);
  }

  lemma IntentServed(w: World, c: Deployment, s: State, router: string, intentID: string)
    requires Honest(w, c, s)
    ensures w.call(router, IntentCalldata(c.keccak, intentID)) ==
      if IsHexAddress(router) && HexToAddress(router) == c.self then Some(GetterBytes(s.Intent(HexToHash(intentID))))
      else None
  {
    CallParts(Selector(c.keccak, INTENTS), HexToHash(intentID));
  }

  // A lookup is what its answer decodes to.
  lemma ReadDecodes(keccak: Bytes -> Word, call: EthCall, router: string, intentID: string, i: Intent)
    ensures var asked, answer := IsHexAddress(router) && |TrimPrefix(intentID)| == 64,
                                 call(router, IntentCalldata(keccak, intentID));
      && (asked && answer == Some(GetterBytes(i)) ==>
            ReadIntent(keccak, call, router, intentID) == DecodeIntent(keccak, GetterBytes(i)))
      && (!asked || answer == None ==> ReadIntent(keccak, call, router, intentID).Err?)
  {
  }

  /** What the evaluator reads of the intent a request names. */
  lemma IntentRead(w: World, c: Deployment, s: State, router: string, intentID: string)
    requires Honest(w, c, s)
    ensures var i := s.Intent(HexToHash(intentID));
      if IsHexAddress(router) && HexToAddress(router) == c.self && |TrimPrefix(intentID)| == 64 then
        ReadIntent(c.keccak, w.call, router, intentID)
          == Ok(if i.status == Missing then None else Some(OnchainOf(c.keccak, i)))
      else ReadIntent(c.keccak, w.call, router, intentID).Err?
  {
    var i := s.Intent(HexToHash(intentID));
    IntentServed(w, c, s, router, intentID);
    ReadDecodes(c.keccak, w.call, router, intentID, i);
    GetterRoundTrip(c.keccak, i);
  }

  lemma AllowedRead(w: World, c: Deployment, s: State, router: string, adapter: string)
    requires Honest(w, c, s) && Distinct(c) && IsHexAddress(router) && HexToAddress(router) == c.self
    ensures ReadAllowed(c.keccak, w.call, router, adapter)
      == if IsHexAddress(adapter) then Ok(s.Allowed(HexToAddress(adapter))) else Err(LookupInvalid)
  {
    if IsHexAddress(adapter) {
      var data := AllowedCalldata(c.keccak, adapter);
      AddressArgument(HexToAddress(adapter));
      CallParts(Selector(c.keccak, ALLOWED), HexToAddress(adapter));
      assert w.call(router, data) == Serve(c, s, router, data);
      AllowedRoundTrip(c.keccak, w.call, router, adapter, s.Allowed(HexToAddress(adapter)));
    }
  }

  // ---------------------------------------------------------------- what is on offer

  /** The quotes a source has for a request. */
  ghost predicate Offered(h: Hasher, source: QuoteSource, req: Request, routes: seq<Route>)
  {
    match source
    case StaticQuotes(listed) => listed == Some(routes)
    case V2Source(configured, out, configs) => configured && V2Quotes(h.keccak, out, configs, req) == Ok(routes)
  }

  /** A quote that meets the private constraints: enough output, valid until the deadline, little enough risk, an
      adapter on the list in some letter case. */
  predicate Meets(req: Request, minimum: int, r: Route)
  {
    && Parse(r.expectedOutput).Some? && Parse(r.expectedOutput).value >= minimum
    && r.validUntil >= req.deadline && r.risk <= req.constraints.maximumRisk
    && exists n :: 0 <= n < |req.constraints.allowedAdapters|
         && Lower(req.constraints.allowedAdapters[n]) == Lower(r.adapter)
  }

  /** The quote at k meets them, none that does expects more, and none before it as much. */
  ghost predicate Leads(req: Request, routes: seq<Route>, k: nat)
  {
    && k < |routes| && Positive(req.constraints.minimumOutput).Some?
    && var minimum := Positive(req.constraints.minimumOutput).value;
    && Meets(req, minimum, routes[k])
    && forall j :: 0 <= j < |routes| && Meets(req, minimum, routes[j]) ==>
      && Parse(routes[j].expectedOutput).value <= Parse(routes[k].expectedOutput).value
      && (j < k ==> Parse(routes[j].expectedOutput).value < Parse(routes[k].expectedOutput).value)
  }

  /** The request is complete and in time. */
  predicate Stated(now: nat, req: Request)
  {
    && "" !in {req.intentID, req.owner, req.tokenIn, req.amount, req.router, req.chainID}
    && now < req.deadline <= req.expiry && Positive(req.constraints.minimumOutput).Some?
  }

  ghost predicate Selected(h: Hasher, source: QuoteSource, req: Request, routes: seq<Route>, k: nat)
  {
    Offered(h, source, req, routes) && Leads(req, routes, k)
  }

  lemma MeetsIsEligible(req: Request, minimum: int, r: Route)
    ensures Eligible(req, minimum, r) <==> Meets(req, minimum, r)
    ensures Parse(r.expectedOutput).Some? ==> Expected(r) == Parse(r.expectedOutput).value
  {
  }

  lemma LeadsIsBest(req: Request, routes: seq<Route>, k: nat)
    requires Positive(req.constraints.minimumOutput).Some? && k < |routes|
    ensures BestEligible(req, routes, k) <==> Leads(req, routes, k)
  {
    var minimum := Positive(req.constraints.minimumOutput).value;
    forall j | 0 <= j < |routes|
      ensures Eligible(req, minimum, routes[j]) <==> Meets(req, minimum, routes[j])
      ensures Parse(routes[j].expectedOutput).Some? ==> Expected(routes[j]) == Parse(routes[j].expectedOutput).value
    {
      MeetsIsEligible(req, minimum, routes[j]);
    }
  }

  lemma OfferedIsAvailable(h: Hasher, source: QuoteSource, req: Request, routes: seq<Route>)
    ensures Offered(h, source, req, routes) <==> Available(h, source, req) == Ok(routes)
  {
  }

  lemma StatedPasses(now: nat, req: Request)
    ensures RequestFault(now, req).None? <==> Stated(now, req)
  {
  }

  /** Among these quotes a choice is made exactly when one of them leads, and it is that one. */
  lemma LeaderChosen(now: nat, req: Request, routes: seq<Route>) returns (k: nat)
    ensures ChooseRoute(now, req, routes).Ok? ==>
      Stated(now, req) && Leads(req, routes, k) && ChooseRoute(now, req, routes) == Ok(DecisionFor(req, routes[k]))
    ensures ChooseRoute(now, req, routes).Err? ==> !Stated(now, req) || forall n: nat :: !Leads(req, routes, n)
  {
    k := 0;
    StatedPasses(now, req);
    if RequestFault(now, req).None? {
      ChoiceIsEarliestBest(now, req, routes);
      if ChooseRoute(now, req, routes).Ok? {
        k :| k < |routes| && BestEligible(req, routes, k)
          && ChooseRoute(now, req, routes).value == DecisionFor(req, routes[k]);
        LeadsIsBest(req, routes, k);
      } else {
        forall n: nat
          ensures !Leads(req, routes, n)
        {
          if n < |routes| {
            MeetsIsEligible(req, Positive(req.constraints.minimumOutput).value, routes[n]);
          }
        }
      }
    }
  }

  lemma ChoosesAmong(h: Hasher, w: World, req: Request)
    ensures Choose(h, w, req) == match Available(h, w.source, req)
                                 case Err(e) => Err(e)
                                 case Ok(routes) => ChooseRoute(w.now, req, routes)
  {
  }

  /** A choice is made exactly when the request is complete and in time and some quote on offer leads, and it is
      for that quote. */
  lemma ChoosesLeader(h: Hasher, w: World, req: Request) returns (routes: seq<Route>, k: nat)
    ensures Choose(h, w, req).Ok? <==>
      Stated(w.now, req) && exists qs, n: nat :: Selected(h, w.source, req, qs, n)
    ensures Choose(h, w, req).Ok? ==>
      Selected(h, w.source, req, routes, k) && Choose(h, w, req) == Ok(DecisionFor(req, routes[k]))
  {
    ChoosesAmong(h, w, req);
    routes, k := [], 0;
    var quoted := Available(h, w.source, req);
    if quoted.Ok? {
      routes := quoted.value;
      k := LeaderChosen(w.now, req, routes);
      OfferedIsAvailable(h, w.source, req, routes);
    }
    forall qs, n: nat | Selected(h, w.source, req, qs, n) && Stated(w.now, req)
      ensures Choose(h, w, req).Ok?
    {
      OfferedIsAvailable(h, w.source, req, qs);
      assert Leads(req, routes, n);
    }
    if Choose(h, w, req).Ok? {
      assert Selected(h, w.source, req, routes, k);
    }
  }

  // ---------------------------------------------------------------- the whole evaluation

  /** The policy's hash as a request spells it: eleven words, the adapter list hashed on its own. */
  function PolicyHash(h: Hasher, req: Request): Word
    requires PolicyFault(req).None?
  {
    var c := req.constraints;
    h.keccak(Concat([
      Word32(h.policyType), UintWord(Positive(req.chainID).value), AddressWord(req.router), AddressWord(req.owner),
      AddressWord(req.tokenIn), UintWord(Positive(req.amount).value), UintWord(req.nonce), UintWord(req.expiry),
      Word32(h.keccak(Concat(AddressWords(c.allowedAdapters)))), UintWord(c.maximumRisk),
      UintWord(Positive(c.minimumOutput).value)]))
  }

  /** The EIP-712 digest over a request and the route chosen for it. */
  function RouteDigest(h: Hasher, req: Request, r: Route): Word
    requires PolicyFault(req).None? && DecodeHex(TrimPrefix(r.actionData)).Some?
  {
    var domain := h.keccak(Concat([Word32(h.domainType), Word32(h.name), Word32(h.version),
                                   UintWord(Positive(req.chainID).value), AddressWord(req.router)]));
    var struct := h.keccak(Concat([
      Word32(h.routeType), Word32(HexToHash(req.intentID)), AddressWord(req.owner), AddressWord(req.tokenIn),
      UintWord(Positive(req.amount).value), Word32(PolicyHash(h, req)), AddressWord(r.adapter), AddressWord(r.tokenOut),
      Word32(h.keccak(DecodeHex(TrimPrefix(r.actionData)).value)),
      UintWord(Positive(req.constraints.minimumOutput).value), UintWord(req.nonce), UintWord(req.deadline)]));
    h.keccak([0x19, 0x01] + Word32(domain) + Word32(struct))
  }

  /** The answer in every field: the request's, the route's, and the key's signature over the digest. */
  function Filled(req: Request, r: Route, commitment: Word, digest: Word, signature: Signature): Decision
  {
    Decision(req.intentID, req.owner, req.tokenIn, req.amount, HashHex(commitment), r.adapter, r.tokenOut, r.actionData,
             req.constraints.minimumOutput, req.nonce, req.deadline, r.expectedOutput, HashHex(digest),
             "0x" + EncodeHex(signature[64 := signature[64] + 27]))
  }

  /** An evaluation answered for this route. */
  predicate AnswersFor(h: Hasher, w: World, req: Request, r: Route)
  {
    && w.key.Some? && PolicyFault(req).None? && DecodeHex(TrimPrefix(r.actionData)).Some?
    && var digest := RouteDigest(h, req, r);
    Evaluate(h, w) == Ok(Filled(req, r, PolicyHash(h, req), digest, w.key.value(digest)))
  }

  /** What remains to ask of the chosen route: readable text, and its adapter allowed on the chain. */
  predicate Usable(s: State, r: Route)
  {
    && IsHexAddress(r.adapter) && IsHexAddress(r.tokenOut) && DecodeHex(TrimPrefix(r.actionData)).Some?
    && s.Allowed(HexToAddress(r.adapter))
  }

  /** The request names this router, in this state, and an intent that is funded and its own. */
  predicate Backed(h: Hasher, c: Deployment, s: State, w: World, req: Request)
  {
    && w.chainId == Some(req.chainID)
    && IsHexAddress(req.router) && HexToAddress(req.router) == c.self
    && |TrimPrefix(req.intentID)| == 64
    && Verified(h, req, s.Intent(HexToHash(req.intentID)))
  }

  lemma ReadPasses(h: Hasher, w: World, req: Request, o: Result<Option<OnchainIntent>, Fault>)
    requires o == ReadIntent(h.keccak, w.call, req.router, req.intentID)
    ensures ChainFault(h, w, req).None? <==>
      w.chainId == Some(req.chainID) && o.Ok? && o.value.Some? && VerifyFault(h, req, o.value.value).None?
  {
  }

  lemma BackedPasses(h: Hasher, c: Deployment, s: State, w: World, req: Request)
    requires h.keccak == c.keccak && Honest(w, c, s)
    ensures ChainFault(h, w, req).None? <==> Backed(h, c, s, w, req)
  {
    var i, o := s.Intent(HexToHash(req.intentID)), ReadIntent(h.keccak, w.call, req.router, req.intentID);
    IntentRead(w, c, s, req.router, req.intentID);
    VerifiedIff(h, req, i);
    ReadPasses(h, w, req, o);
  }

  lemma PolicySpelt(h: Hasher, req: Request)
    requires PolicyFault(req).None?
    ensures Commitment(h, req) == Ok(PolicyHash(h, req))
  {
  }

  /** Of a backed request's choice, signing asks only for a real id and readable text. */
  lemma Signable(h: Hasher, req: Request, r: Route)
    requires PolicyFault(req).None? && |TrimPrefix(req.intentID)| == 64
    ensures SignFault(req, DecisionFor(req, r)).None? <==>
      && HexToHash(req.intentID) != 0
      && IsHexAddress(r.adapter) && IsHexAddress(r.tokenOut) && DecodeHex(TrimPrefix(r.actionData)).Some?
  {
  }

  lemma DigestSpelt(h: Hasher, req: Request, r: Route)
    requires SignFault(req, DecisionFor(req, r)).None?
    ensures Digest(h, req, DecisionFor(req, r)) == RouteDigest(h, req, r)
  {
    PolicySpelt(h, req);
  }

  lemma SignedAs(h: Hasher, key: Key, req: Request, d: Decision)
    requires SignFault(req, d).None?
    ensures var commitment, digest := h.keccak(PolicyPreimage(h, req)), Digest(h, req, d);
      Signing.SignDecision(h, key, req, d)
        == Ok(d.(intentCommitment := HashHex(commitment), authorizationDigest := HashHex(digest),
                 signature := "0x" + EncodeHex(Shifted(key(digest)))))
  {
  }

  lemma FilledIn(req: Request, r: Route, commitment: Word, digest: Word, signature: Signature)
    ensures DecisionFor(req, r).(intentCommitment := HashHex(commitment), authorizationDigest := HashHex(digest),
                                 signature := "0x" + EncodeHex(Shifted(signature)))
      == Filled(req, r, commitment, digest, signature)
  {
  }

  lemma SignsAnswer(h: Hasher, key: Key, req: Request, r: Route)
    requires SignFault(req, DecisionFor(req, r)).None?
    ensures var digest := RouteDigest(h, req, r);
      Signing.SignDecision(h, key, req, DecisionFor(req, r))
        == Ok(Filled(req, r, PolicyHash(h, req), digest, key(digest)))
  {
    PolicySpelt(h, req);
    DigestSpelt(h, req, r);
    var digest := RouteDigest(h, req, r);
    SignedAs(h, key, req, DecisionFor(req, r));
    FilledIn(req, r, PolicyHash(h, req), digest, key(digest));
  }

  // Past the checks against the chain and the choice.
  lemma ApprovesExactly(h: Hasher, w: World, req: Request, d: Decision)
    requires w.ready && w.plaintext == Ok(req) && Choose(h, w, req) == Ok(d)
    ensures Evaluate(h, w) == if ChainFault(h, w, req).Some? then Err(ChainFault(h, w, req).value)
                              else Approve(h, w, req, d)
  {
  }

  /** Given the choice, an evaluation succeeds exactly when the request is backed, the id real, the route usable and
      the key there. */
  lemma SucceedsExactly(h: Hasher, c: Deployment, s: State, w: World, req: Request, r: Route)
    requires h.keccak == c.keccak && Honest(w, c, s) && Distinct(c)
    requires w.ready && w.plaintext == Ok(req) && Choose(h, w, req) == Ok(DecisionFor(req, r))
    ensures Evaluate(h, w).Ok? <==>
      Backed(h, c, s, w, req) && HexToHash(req.intentID) != 0 && Usable(s, r) && w.key.Some?
    ensures Evaluate(h, w).Ok? ==> AnswersFor(h, w, req, r)
  {
    BackedPasses(h, c, s, w, req);
    ApprovesExactly(h, w, req, DecisionFor(req, r));
    if Backed(h, c, s, w, req) {
      AllowedRead(w, c, s, req.router, r.adapter);
      Signable(h, req, r);
      if SignFault(req, DecisionFor(req, r)).None? && w.key.Some? {
        SignsAnswer(h, w.key.value, req, r);
      }
    }
  }

  /** With a node that serves the router's state: an evaluation succeeds exactly when the dependencies are there, the
      plaintext decodes, the chain is the request's, the request names this router and a funded intent of its own,
      it is complete and in time, some quote on offer leads, that quote's text is readable, its adapter is allowed
      in that state, and the key is there; and then its answer is that, in every field. */
  lemma EvaluationIsExact(h: Hasher, c: Deployment, s: State, w: World) returns (routes: seq<Route>, k: nat)
    requires h.keccak == c.keccak && Honest(w, c, s) && Distinct(c)
    ensures Evaluate(h, w).Ok? <==>
      && w.ready && w.key.Some? && w.plaintext.Ok?
      && var req := w.plaintext.value;
      && Backed(h, c, s, w, req) && HexToHash(req.intentID) != 0 && Stated(w.now, req)
      && exists qs, n: nat :: Selected(h, w.source, req, qs, n) && Usable(s, qs[n])
    ensures Evaluate(h, w).Ok? ==>
      && w.plaintext.Ok? && Selected(h, w.source, w.plaintext.value, routes, k)
      && AnswersFor(h, w, w.plaintext.value, routes[k])
  {
    routes, k := [], 0;
    if w.ready && w.plaintext.Ok? {
      var req := w.plaintext.value;
      routes, k := ChoosesLeader(h, w, req);
      if Choose(h, w, req).Ok? {
        SucceedsExactly(h, c, s, w, req, routes[k]);
        forall qs, n: nat | Selected(h, w.source, req, qs, n)
          ensures qs == routes && n == k
        {
          OneLeader(h, w.source, req, routes, k, qs, n);
        }
      }
    }
  }

  lemma OneLeader(h: Hasher, source: QuoteSource, req: Request, routes: seq<Route>, k: nat, qs: seq<Route>, n: nat)
    requires Selected(h, source, req, routes, k) && Selected(h, source, req, qs, n)
    ensures qs == routes && n == k
  {
  }
}
