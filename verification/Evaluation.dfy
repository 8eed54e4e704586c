/** processEvaluate: from the decrypted request to the decision it signs, and what a signature then vouches for. */
module Evaluation {
  import opened Bytes
  import opened ChainReader
  import opened Decimal
  import opened EvaluatorTypes
  import opened Hex
  import opened PolicyCommitment
  import opened Quotes
  import opened RouteChoice
  import opened RouterTypes
  import opened Signing
  import V2Settlement
  import opened Wrappers

  datatype QuoteSource =
    | StaticQuotes(routes: Option<seq<Route>>)
    | V2Source(configured: bool, out: AmountsOut, configs: seq<V2Config>)

  /** What the dependencies answer during one evaluation, and the clock. */
  datatype World = World(
    now: nat,
    ready: bool,
    plaintext: Result<Request, Fault>,
    chainId: Option<string>,
    call: EthCall,
    source: QuoteSource,
    key: Option<Key>)

  /** Everything verifyFundedIntent checks, in its order. */
  function VerifyFault(h: Hasher, req: Request, o: OnchainIntent): Option<Fault>
  {
    if o.status != 2 then Some(NotFunded)
    else if !EqualFold(o.owner, req.owner) || !EqualFold(o.tokenIn, req.tokenIn) || o.amount != req.amount
         || o.nonce != req.nonce || o.expiry != req.expiry then Some(RequestMismatch)
    else match Commitment(h, req)
      case Err(e) => Some(e)
      case Ok(c) => if EqualFold(o.commitment, HashHex(c)) then None else Some(PolicyMismatch)
  }

  function Available(h: Hasher, source: QuoteSource, req: Request): Result<seq<Route>, Fault>
  {
    match source
    case StaticQuotes(routes) => if routes.Some? then Ok(routes.value) else Err(QuotesUnavailable)
    case V2Source(configured, out, configs) =>
      if configured then V2Quotes(h.keccak, out, configs, req) else Err(QuotesUnavailable)
  }

  /** The chain's side of the request: right chain, intent present, funded and as the request says. */
  function ChainFault(h: Hasher, w: World, req: Request): Option<Fault>
  {
    if w.chainId.None? then Some(Unavailable)
    else if w.chainId.value != req.chainID then Some(ChainMismatch)
    else match ReadIntent(h.keccak, w.call, req.router, req.intentID)
      case Err(e) => Some(e)
      case Ok(None) => Some(IntentMissing)
      case Ok(Some(o)) => VerifyFault(h, req, o)
  }

  function Choose(h: Hasher, w: World, req: Request): Result<Decision, Fault>
  {
    match Available(h, w.source, req)
    case Err(e) => Err(e)
    case Ok(routes) => ChooseRoute(w.now, req, routes)
  }

  function Approve(h: Hasher, w: World, req: Request, d: Decision): Result<Decision, Fault>
  {
    match ReadAllowed(h.keccak, w.call, req.router, d.adapter)
    case Err(e) => Err(e)
    case Ok(allowed) =>
      if !allowed then Err(AdapterNotAllowed)
      else if w.key.None? then Err(KeyMissing)
      else SignDecision(h, w.key.value, req, d)
  }

  /** Up to the unsigned decision. */
  function Draft(h: Hasher, w: World, req: Request): Result<Decision, Fault>
  {
    var fault := ChainFault(h, w, req);
    if fault.Some? then Err(fault.value) else Choose(h, w, req)
  }

  function Evaluate(h: Hasher, w: World): Result<Decision, Fault>
  {
    if !w.ready then Err(Unavailable)
    else match w.plaintext
      case Err(e) => Err(e)
      case Ok(req) =>
        match Draft(h, w, req)
        case Err(e) => Err(e)
        case Ok(d) => Approve(h, w, req, d)
  }

  // The unsigned decision of a successful evaluation.
  function Chosen(h: Hasher, w: World): Decision
    requires Evaluate(h, w).Ok?
  {
    Choose(h, w, w.plaintext.value).value
  }

  /** The digest a successful evaluation signs. */
  function SignedDigest(h: Hasher, w: World): Word
    requires Evaluate(h, w).Ok?
  {
    Digest(h, w.plaintext.value, Chosen(h, w))
  }

  /** The authorization and the calldata a successful evaluation decides on, in every field. */
  predicate Decides(h: Hasher, w: World, a: RouteAuthorization, data: Bytes)
  {
    && Evaluate(h, w).Ok? && SignFault(w.plaintext.value, Chosen(h, w)).None?
    && Denotes(h, w.plaintext.value, Chosen(h, w), a) && data == ActionBytes(Chosen(h, w))
  }

  predicate Signs(h: Hasher, w: World, digest: Word)
  {
    Evaluate(h, w).Ok? && SignedDigest(h, w) == digest
  }

  // The digest an outcome reports, if any.
  function Reported(r: Result<Decision, Fault>): Option<Word>
  {
    match r
    case Ok(d) => Some(HexToHash(d.authorizationDigest))
    case Err(_) => None
  }

  // What an evaluation has the key sign, if anything.
  function SignatureOf(h: Hasher): World -> Option<Word>
  {
    w => Reported(Evaluate(h, w))
  }

  function Gather(sign: World -> Option<Word>, log: seq<World>): set<Word>
  {
    if log == [] then {}
    else
      Gather(sign, log[..|log| - 1]) +
        match sign(log[|log| - 1]) case None => {} case Some(digest) => {digest}
  }

  // A uint64 counter, which wraps.
  function Bump(n: Uint64): Uint64
  {
    if n == UINT64 - 1 then 0 else n + 1
  }

  function Count(sign: World -> Option<Word>, log: seq<World>): Uint64
  {
    if log == [] then 0
    else if sign(log[|log| - 1]).Some? then Bump(Count(sign, log[..|log| - 1]))
    else Count(sign, log[..|log| - 1])
  }

  lemma {:induction false} GatheredFrom(sign: World -> Option<Word>, log: seq<World>, digest: Word)
    ensures digest in Gather(sign, log) <==> exists k :: 0 <= k < |log| && sign(log[k]) == Some(digest)
  {
    if log != [] {
      var front := log[..|log| - 1];
      GatheredFrom(sign, front, digest);
      assert forall k :: 0 <= k < |front| ==> front[k] == log[k];
    }
  }

  lemma GatherNext(sign: World -> Option<Word>, log: seq<World>, w: World)
    ensures Gather(sign, log + [w]) == Gather(sign, log) + match sign(w) case None => {} case Some(digest) => {digest}
    ensures Count(sign, log + [w]) == if sign(w).Some? then Bump(Count(sign, log)) else Count(sign, log)
  {
    assert (log + [w])[..|log|] == log;
  }

  /** The counter is the number of evaluations that signed, but for whole turns of a uint64. */
  lemma {:induction false} CountTurns(sign: World -> Option<Word>, log: seq<World>) returns (turns: nat)
    ensures |set k | 0 <= k < |log| && sign(log[k]).Some?| == Count(sign, log) + turns * UINT64
  {
    var at := set k | 0 <= k < |log| && sign(log[k]).Some?;
    if log == [] {
      turns := 0;
    } else {
      var n, front := |log| - 1, log[..|log| - 1];
      turns := CountTurns(sign, front);
      var before := set k | 0 <= k < |front| && sign(front[k]).Some?;
      assert at == before + if sign(log[n]).Some? then {n} else {};
      if sign(log[n]).Some? && Count(sign, front) == UINT64 - 1 {
        turns := turns + 1;
      }
    }
  }

  /** The digests the key signs in a sequence of evaluations. */
  function SignedIn(h: Hasher, log: seq<World>): set<Word>
  {
    Gather(SignatureOf(h), log)
  }

  /** The decision repeats the request and takes the rest from an eligible route. */
  predicate Repeats(req: Request, d: Decision)
  {
    && d.intentID == req.intentID && d.owner == req.owner && d.tokenIn == req.tokenIn && d.maximumAmount == req.amount
    && d.minimumOutput == req.constraints.minimumOutput && d.intentNonce == req.nonce && d.deadline == req.deadline
  }

  /** The chosen route itself, eligible and among those available. */
  lemma ChosenRoute(h: Hasher, w: World) returns (r: Route)
    requires Evaluate(h, w).Ok?
    ensures var req, d := w.plaintext.value, Chosen(h, w);
      && RequestFault(w.now, req).None?
      && Available(h, w.source, req).Ok? && r in Available(h, w.source, req).value
      && Eligible(req, Positive(req.constraints.minimumOutput).value, r)
      && d == DecisionFor(req, r)
  {
    var req := w.plaintext.value;
    var routes := Available(h, w.source, req).value;
    ChoiceIsEarliestBest(w.now, req, routes);
    var k: nat :| k < |routes| && BestEligible(req, routes, k) && Chosen(h, w) == DecisionFor(req, routes[k]);
    r := routes[k];
  }

  lemma Approved(h: Hasher, w: World)
    requires Evaluate(h, w).Ok?
    ensures ChainFault(h, w, w.plaintext.value).None?
    ensures SignFault(w.plaintext.value, Chosen(h, w)).None?
    ensures w.key.Some? && Evaluate(h, w) == SignDecision(h, w.key.value, w.plaintext.value, Chosen(h, w))
  {
  }

  /** What a successful evaluation established. */
  lemma EvaluationEstablishes(h: Hasher, w: World)
    requires Evaluate(h, w).Ok?
    ensures var req, d := w.plaintext.value, Chosen(h, w);
      && SignFault(req, d).None? && Repeats(req, d)
      && Listed(req.constraints.allowedAdapters, d.adapter)
      && w.now < req.deadline <= req.expiry
      && Positive(req.constraints.minimumOutput).Some?
      && ChainFault(h, w, req).None?
      && Evaluate(h, w).value.authorizationDigest == HashHex(SignedDigest(h, w))
  {
    var r := ChosenRoute(h, w);
    Approved(h, w);
  }

  /** The signature a decision carries is the key's, over the digest it reports, 65 bytes that end in 27 or 28. */
  lemma SignatureCarried(h: Hasher, w: World) returns (signature: Bytes)
    requires Evaluate(h, w).Ok?
    ensures w.key.Some? && signature == Shifted(w.key.value(SignedDigest(h, w)))
    ensures DecodeHex(TrimPrefix(Evaluate(h, w).value.signature)) == Some(signature)
    ensures |signature| == 65 && (signature[64] == 27 || signature[64] == 28)
  {
    Approved(h, w);
    signature := Shifted(w.key.value(SignedDigest(h, w)));
    CalldataText(signature);
  }

  /** A success reports the very digest that was signed. */
  lemma ReportedIsSigned(h: Hasher, w: World)
    requires Evaluate(h, w).Ok?
    ensures Reported(Evaluate(h, w)) == Some(SignedDigest(h, w))
  {
    EvaluationEstablishes(h, w);
    HashHexReadsBack(SignedDigest(h, w));
  }

  // Signing leaves the calldata as chosen.
  lemma SignedText(h: Hasher, w: World)
    requires Evaluate(h, w).Ok?
    ensures Evaluate(h, w).value.actionData == Chosen(h, w).actionData
      && SignFault(w.plaintext.value, Chosen(h, w)).None?
    ensures HexToHash(Evaluate(h, w).value.authorizationDigest) == SignedDigest(h, w)
  {
    Approved(h, w);
    ReportedIsSigned(h, w);
  }

  /** A digest is signed exactly when some evaluation succeeded with it. */
  lemma SignedByEvaluation(h: Hasher, log: seq<World>, digest: Word)
    ensures digest in SignedIn(h, log) <==> exists k :: 0 <= k < |log| && Signs(h, log[k], digest)
  {
    GatheredFrom(SignatureOf(h), log, digest);
    forall k | 0 <= k < |log|
      ensures SignatureOf(h)(log[k]) == Some(digest) <==> Signs(h, log[k], digest)
    {
      if Evaluate(h, log[k]).Ok? {
        ReportedIsSigned(h, log[k]);
      }
    }
  }

  // ---------------------------------------------------------------- against the chain

  /** A request that passes verification against a stored intent is that intent's, in every field the
      text carries, and its policy hashes to what the intent stores. */
  lemma VerifiedMatches(h: Hasher, req: Request, o: OnchainIntent, i: Intent)
    requires VerifyFault(h, req, o).None? && Reads(o, i)
    ensures i.status == Funded
    ensures HexToAddress(req.owner) == i.owner && HexToAddress(req.tokenIn) == i.tokenIn
    ensures Parse(req.amount) == Some(i.amount) && req.nonce == i.nonce && req.expiry == i.expiry
    ensures Commitment(h, req) == Ok(i.ciphertextHash)
  {
    FromHexIgnoresCase(o.owner, req.owner);
    FromHexIgnoresCase(o.tokenIn, req.tokenIn);
    var c := Commitment(h, req).value;
    FromHexIgnoresCase(o.commitment, HashHex(c));
    HashHexReadsBack(c);
  }

  /** The request is a funded intent's, and its policy hashes to what the intent stores. */
  predicate Verified(h: Hasher, req: Request, i: Intent)
  {
    && i.status == Funded
    && Hex.Spells(req.owner, i.owner) && Hex.Spells(req.tokenIn, i.tokenIn) && req.amount == Format(i.amount)
    && req.nonce == i.nonce && req.expiry == i.expiry
    && Commitment(h, req) == Ok(i.ciphertextHash)
  }

  /** A request passes verification against what the router's getter reads as exactly when it is that intent's. */
  lemma VerifiedIff(h: Hasher, req: Request, i: Intent)
    ensures VerifyFault(h, req, OnchainOf(h.keccak, i)).None? <==> Verified(h, req, i)
  {
    var o := OnchainOf(h.keccak, i);
    AddressTextUpToCase(h.keccak, req.owner, i.owner);
    AddressTextUpToCase(h.keccak, req.tokenIn, i.tokenIn);
    if Commitment(h, req).Ok? && EqualFold(o.commitment, HashHex(Commitment(h, req).value)) {
      HashHexInjective(i.ciphertextHash, Commitment(h, req).value);
    }
  }

  /** The node answered the getter with the stored intent, whatever its status was then. */
  ghost predicate HonestRead(h: Hasher, w: World, req: Request, i: Intent)
  {
    exists status: Status :: status != Missing && Answers(h, w, req, i.(status := status))
  }

  predicate Answers(h: Hasher, w: World, req: Request, i: Intent)
  {
    w.call(req.router, IntentCalldata(h.keccak, req.intentID)) == Some(GetterBytes(i))
  }

  lemma AnswerDecoded(h: Hasher, w: World, req: Request, i: Intent)
    requires Answers(h, w, req, i) && i.status != Missing
    ensures var o := ReadIntent(h.keccak, w.call, req.router, req.intentID);
      o.Ok? ==> o == Ok(Some(OnchainOf(h.keccak, i)))
  {
    GetterRoundTrip(h.keccak, i);
  }

  lemma AnswerVerified(h: Hasher, w: World, req: Request, i: Intent)
    requires ChainFault(h, w, req).None? && Answers(h, w, req, i) && i.status != Missing
    ensures VerifyFault(h, req, OnchainOf(h.keccak, i)).None?
  {
    AnswerDecoded(h, w, req, i);
  }

  /** With an honest answer, the request is the stored intent's and the intent was funded when read. */
  lemma HonestlyVerified(h: Hasher, w: World, req: Request, i: Intent)
    requires ChainFault(h, w, req).None? && HonestRead(h, w, req, i)
    ensures Answers(h, w, req, i.(status := Funded))
    ensures HexToAddress(req.owner) == i.owner && HexToAddress(req.tokenIn) == i.tokenIn
    ensures Parse(req.amount) == Some(i.amount) && req.nonce == i.nonce && req.expiry == i.expiry
    ensures Commitment(h, req) == Ok(i.ciphertextHash)
  {
    var status: Status :| status != Missing && Answers(h, w, req, i.(status := status));
    var j := i.(status := status);
    AnswerVerified(h, w, req, j);
    OnchainReads(h.keccak, j);
    VerifiedMatches(h, req, OnchainOf(h.keccak, j), j);
  }

  /** Whatever the node answers, the amount it could have reported fits 256 bits. */
  lemma AmountFits(h: Hasher, w: World, req: Request)
    requires ChainFault(h, w, req).None?
    ensures Parse(req.amount).Some? && 0 <= Parse(req.amount).value < UINT256
  {
    var out := w.call(req.router, IntentCalldata(h.keccak, req.intentID)).value;
    ParseInvertsFormat(WordValue(out, 2));
  }

  // ---------------------------------------------------------------- decisions from live V2 quotes

  /** The authorization a decision denotes when its numbers fit. */
  function AuthorizationOf(h: Hasher, req: Request, d: Decision): RouteAuthorization
    requires SignFault(req, d).None?
    requires Positive(d.maximumAmount).value < UINT256 && Parse(d.minimumOutput).value < UINT256
  {
    RouteAuthorization(HexToHash(d.intentID), HexToAddress(d.owner), HexToAddress(d.tokenIn),
                       Positive(d.maximumAmount).value, h.keccak(PolicyPreimage(h, req)), HexToAddress(d.adapter),
                       HexToAddress(d.tokenOut), h.keccak(ActionBytes(d)), Parse(d.minimumOutput).value, d.intentNonce,
                       d.deadline)
  }

  /** Every decision signed from live V2 quotes has only numbers that fit 256 bits: a quote is a uint256
      and bounds the minimum, the amount is a word of the chain. */
  lemma V2NumbersFit(h: Hasher, w: World)
    requires Evaluate(h, w).Ok? && w.source.V2Source?
    ensures var req, d := w.plaintext.value, Chosen(h, w);
      && SignFault(req, d).None?
      && 0 < Positive(d.maximumAmount).value < UINT256
      && 0 < Parse(d.minimumOutput).value < UINT256
      && Narrow(DecisionNumbers(h, req, d))
  {
    var req, d := w.plaintext.value, Chosen(h, w);
    EvaluationEstablishes(h, w);
    AmountFits(h, w, req);
    MinimumFits(h, w);
    assert SignFault(req, d).None?;
    FitsNarrow(h, req, d);
  }

  lemma FitsNarrow(h: Hasher, req: Request, d: Decision)
    requires SignFault(req, d).None?
    requires Positive(d.maximumAmount).value < UINT256 && Parse(d.minimumOutput).value < UINT256
    ensures Narrow(DecisionNumbers(h, req, d)) && Denotes(h, req, d, AuthorizationOf(h, req, d))
  {
    var a := AuthorizationOf(h, req, d);
    DenotedNumbers(h, req, d, a);
    assert AuthorizationNumbers(h.routeType, a) == StructWords(h.routeType, a);
    var ws := StructWords(h.routeType, a);
    assert forall k :: 0 <= k < |ws| ==> ws[k] < UINT256;
  }

  lemma MinimumFits(h: Hasher, w: World)
    requires Evaluate(h, w).Ok? && w.source.V2Source?
    ensures Positive(w.plaintext.value.constraints.minimumOutput).Some?
    ensures Positive(w.plaintext.value.constraints.minimumOutput).value < UINT256
  {
    var r := ChosenRoute(h, w);
    var req := w.plaintext.value;
    QuotesAreSound(h.keccak, w.source.out, w.source.configs, req, r);
  }

  /** A decision signed from live V2 quotes: its numbers fit, the router recomputes the very digest that
      was signed, and the calldata decodes to what the authorization says. */
  lemma V2DecisionsAgree(h: Hasher, c: Deployment, w: World)
    requires Evaluate(h, w).Ok? && w.source.V2Source? && Attuned(h, c) && Addressed(c, w.plaintext.value)
    ensures var req, d := w.plaintext.value, Chosen(h, w);
      && SignFault(req, d).None?
      && Positive(d.maximumAmount).value < UINT256 && Parse(d.minimumOutput).value < UINT256
      && var a := AuthorizationOf(h, req, d);
      && SignedStruct(h, req, d) == StructPreimage(c.typeHash, a)
      && SignedDigest(h, w) == AuthorizationDigest(c, a)
      && V2Settlement.Agrees(a, ActionBytes(d))
      && a.actionHash == c.keccak(ActionBytes(d))
  {
    V2NumbersFit(h, w);
    var req, d := w.plaintext.value, Chosen(h, w);
    var a := AuthorizationOf(h, req, d);
    FitsNarrow(h, req, d);
    DigestsAgree(h, c, req, d, a);
    CalldataAgrees(h, w, a, ActionBytes(d));
  }

  /** What calldata and authorization of one decision have in common, read off the route it took. */
  lemma SoundAgrees(a: RouteAuthorization, data: Bytes, r: Route, req: Request, minimum: nat)
    requires Sound(r, req, minimum) && data == DecodeHex(TrimPrefix(r.actionData)).value
    requires a.tokenIn == HexToAddress(req.tokenIn) && a.tokenOut == HexToAddress(r.tokenOut)
    requires a.minimumOutput == minimum > 0 && a.deadline == req.deadline
    ensures V2Settlement.Agrees(a, data)
  {
    SmallMod(minimum, UINT256);
  }

  lemma ChosenIsSound(h: Hasher, w: World) returns (r: Route)
    requires Evaluate(h, w).Ok? && w.source.V2Source?
    ensures var req := w.plaintext.value;
      && Positive(req.constraints.minimumOutput).Some?
      && Sound(r, req, Positive(req.constraints.minimumOutput).value)
      && Chosen(h, w) == DecisionFor(req, r)
  {
    r := ChosenRoute(h, w);
    QuotesAreSound(h.keccak, w.source.out, w.source.configs, w.plaintext.value, r);
  }

  lemma CalldataAgrees(h: Hasher, w: World, a: RouteAuthorization, data: Bytes)
    requires Evaluate(h, w).Ok? && w.source.V2Source?
    requires a.tokenIn == HexToAddress(Chosen(h, w).tokenIn) && a.tokenOut == HexToAddress(Chosen(h, w).tokenOut)
    requires Some(a.minimumOutput as int) == Parse(Chosen(h, w).minimumOutput) && a.deadline == Chosen(h, w).deadline
    requires DecodeHex(TrimPrefix(Chosen(h, w).actionData)) == Some(data)
    ensures V2Settlement.Agrees(a, data)
  {
    var r := ChosenIsSound(h, w);
    SoundAgrees(a, data, r, w.plaintext.value, Positive(w.plaintext.value.constraints.minimumOutput).value);
  }
}
