/** The evaluator as it runs: loops that build word lists, checks in order, an error carried along, a counter. */
module ExtensionModule {
  import opened Bytes
  import opened ChainReader
  import opened Decimal
  import opened Evaluation
  import opened EvaluatorTypes
  import opened Hex
  import opened PolicyCommitment
  import opened Quotes
  import opened RouteChooser
  import opened RouterTypes
  import opened Signing
  import opened Wrappers

  class Extension {
    const h: Hasher
    var evaluationCount: Uint64

    // every evaluation there was, and every digest the key signed
    ghost var log: seq<World>
    ghost var signed: set<Word>

    constructor (h: Hasher)
      ensures this.h == h && evaluationCount == 0 && log == [] && signed == {} && Valid()
    {
      this.h := h;
      evaluationCount := 0;
      log, signed := [], {};
    }

    /** The key signs in evaluations and nowhere else; the counter counts the successful ones. */
    ghost predicate Valid()
      reads this
    {
      signed == SignedIn(h, log) && evaluationCount == Count(SignatureOf(h), log)
    }

    method ConcatWords(words: seq<Bytes>) returns (out: Bytes)
      ensures out == Concat(words)
    {
      out := [];
      for k := 0 to |words|
        invariant out + Concat(words[k..]) == Concat(words)
      {
        assert words[k..] == [words[k]] + words[k + 1..];
        assert Concat(words[k..]) == words[k] + Concat(words[k + 1..]);
        assert (out + words[k]) + Concat(words[k + 1..]) == out + (words[k] + Concat(words[k + 1..]));
        out := out + words[k];
      }
    }

    // one word per adapter, unless some text is no address
    method ListWords(adapters: seq<string>) returns (words: Option<seq<Bytes>>)
      ensures words == if AllAddresses(adapters) then Some(AddressWords(adapters)) else None
    {
      var list: seq<Bytes> := [];
      for k := 0 to |adapters|
        invariant |list| == k
        invariant forall j :: 0 <= j < k ==> IsHexAddress(adapters[j]) && list[j] == AddressWord(adapters[j])
      {
        if !IsHexAddress(adapters[k]) {
          return None;
        }
        list := list + [AddressWord(adapters[k])];
      }
      assert list == AddressWords(adapters);
      words := Some(list);
    }

    method PrivatePolicyCommitment(req: Request) returns (r: Result<Word, Fault>)
      ensures r == Commitment(h, req)
    {
      if !IsHexAddress(req.router) || !IsHexAddress(req.owner) || !IsHexAddress(req.tokenIn) {
        return Err(AddressInvalid);
      }
      var chainId := Parse(req.chainID);
      if chainId.None? || chainId.value <= 0 {
        return Err(ChainInvalid);
      }
      var amount := Parse(req.amount);
      if amount.None? || amount.value <= 0 {
        return Err(AmountInvalid);
      }
      var minimum := Parse(req.constraints.minimumOutput);
      if minimum.None? || minimum.value <= 0 {
        return Err(MinimumInvalid);
      }
      var adapters := req.constraints.allowedAdapters;
      if req.expiry == 0 || |adapters| == 0 {
        return Err(PolicyIncomplete);
      }
      var adapterWords := ListWords(adapters);
      if adapterWords.None? {
        return Err(AddressInvalid);
      }
      var list := ConcatWords(adapterWords.value);
      var preimage := ConcatWords(PolicyItems(h.policyType, chainId.value, req.router, req.owner, req.tokenIn,
                                              amount.value, req.nonce, req.expiry, h.keccak(list),
                                              req.constraints.maximumRisk, minimum.value));
      r := Ok(h.keccak(preimage));
    }

    method VerifyFundedIntent(req: Request, intent: OnchainIntent) returns (err: Option<Fault>)
      ensures err == VerifyFault(h, req, intent)
    {
      if intent.status != 2 {
        return Some(NotFunded);
      }
      if !EqualFold(intent.owner, req.owner) || !EqualFold(intent.tokenIn, req.tokenIn) || intent.amount != req.amount
         || intent.nonce != req.nonce || intent.expiry != req.expiry
      {
        return Some(RequestMismatch);
      }
      var commitment := PrivatePolicyCommitment(req);
      if commitment.Err? {
        return Some(commitment.error);
      }
      if !EqualFold(intent.commitment, HashHex(commitment.value)) {
        return Some(PolicyMismatch);
      }
      err := None;
    }

    method SignDecision(key: Key, req: Request, d: Decision) returns (r: Result<Decision, Fault>)
      ensures r == Signing.SignDecision(h, key, req, d)
    {
      if !IsHexAddress(req.router) || !IsHexAddress(d.owner) || !IsHexAddress(d.tokenIn)
         || !IsHexAddress(d.adapter) || !IsHexAddress(d.tokenOut)
      {
        return Err(AddressInvalid);
      }
      var intentID := HexToHash(d.intentID);
      if intentID == 0 || |TrimPrefix(d.intentID)| != 64 {
        return Err(IntentIdInvalid);
      }
      var amount := Parse(d.maximumAmount);
      if amount.None? || amount.value <= 0 {
        return Err(AmountInvalid);
      }
      var minimum := Parse(d.minimumOutput);
      if minimum.None? || minimum.value < 0 {
        return Err(MinimumInvalid);
      }
      var chainId := Parse(req.chainID);
      if chainId.None? || chainId.value <= 0 {
        return Err(ChainInvalid);
      }
      var commitment := PrivatePolicyCommitment(req);
      if commitment.Err? {
        return Err(commitment.error);
      }
      var actionData := DecodeHex(TrimPrefix(d.actionData));
      if actionData.None? {
        return Err(ActionDataInvalid);
      }
      var digest := HashAuthorization(req, d, intentID, amount.value, commitment.value, actionData.value, minimum.value,
                                      chainId.value);
      var signature := SignatureText(key, digest);
      r := Ok(d.(intentCommitment := HashHex(commitment.value), authorizationDigest := HashHex(digest),
                 signature := signature));
    }

    /** Signs a digest and adds 27 to the last byte in place. */
    method SignatureText(key: Key, digest: Word) returns (text: string)
      ensures text == "0x" + EncodeHex(Shifted(key(digest)))
    {
      var signed := key(digest);
      var sig := new byte[65](i requires 0 <= i < 65 => signed[i]);
      assert sig[..] == signed;
      sig[64] := sig[64] + 27;
      assert sig[..] == Shifted(signed);
      text := "0x" + EncodeHex(sig[..]);
    }

    /** The struct hash, the domain hash, and the digest over both. */
    method HashAuthorization(req: Request, d: Decision, intentID: Word, amount: nat, commitment: Word,
                             actionData: Bytes, minimum: nat, chainId: nat)
      returns (digest: Word)
      requires SignFault(req, d).None?
      requires intentID == HexToHash(d.intentID) && amount == Positive(d.maximumAmount).value
      requires commitment == h.keccak(PolicyPreimage(h, req)) && actionData == ActionBytes(d)
      requires minimum == Parse(d.minimumOutput).value && chainId == Positive(req.chainID).value
      ensures digest == Digest(h, req, d)
    {
      var struct := ConcatWords(StructItems(h.routeType, intentID, d.owner, d.tokenIn, amount, commitment, d.adapter,
                                            d.tokenOut, h.keccak(actionData), minimum, d.intentNonce, d.deadline));
      var domain := ConcatWords([Word32(h.domainType), Word32(h.name), Word32(h.version), UintWord(chainId),
                                 AddressWord(req.router)]);
      digest := h.keccak(DigestPreimage(h.keccak(domain), h.keccak(struct)));
    }

    method AvailableQuotes(source: QuoteSource, req: Request) returns (r: Result<seq<Route>, Fault>)
      ensures r == Available(h, source, req)
    {
      match source {
        case StaticQuotes(routes) =>
          r := if routes.Some? then Ok(routes.value) else Err(QuotesUnavailable);
        case V2Source(configured, out, configs) =>
          if !configured {
            return Err(QuotesUnavailable);
          }
          var live := new V2QuoteSource(h.keccak, out, configs);
          r := live.Quotes(req);
      }
    }

    /** The chain's part of an evaluation. */
    method CheckChain(w: World, req: Request) returns (err: Option<Fault>)
      ensures err == ChainFault(h, w, req)
    {
      err := None;
      if w.chainId.None? {
        err := Some(Unavailable);
      }
      if err.None? && w.chainId.value != req.chainID {
        err := Some(ChainMismatch);
      }
      var intent: Option<OnchainIntent> := None;
      if err.None? {
        var read := ReadIntent(h.keccak, w.call, req.router, req.intentID);
        match read {
          case Err(e) => err := Some(e);
          case Ok(found) => intent := found;
        }
      }
      if err.None? && intent.None? {
        err := Some(IntentMissing);
      }
      if err.None? {
        err := VerifyFundedIntent(req, intent.value);
      }
    }

    /** Up to the unsigned decision. */
    method Decide(w: World, req: Request) returns (r: Result<Decision, Fault>)
      ensures r == Draft(h, w, req)
    {
      var err := CheckChain(w, req);
      var routes: seq<Route> := [];
      if err.None? {
        var quoted := AvailableQuotes(w.source, req);
        match quoted {
          case Err(e) => err := Some(e);
          case Ok(found) => routes := found;
        }
      }
      if err.Some? {
        return Err(err.value);
      }
      r := ChooseRouteInPlace(w.now, req, routes);
    }

    /** From the unsigned decision on. */
    method Authorize(w: World, req: Request, d: Decision) returns (err: Option<Fault>, decision: Decision)
      ensures Approve(h, w, req, d) == if err.Some? then Err(err.value) else Ok(decision)
    {
      decision := d;
      err := None;
      var allowed := ReadAllowed(h.keccak, w.call, req.router, d.adapter);
      match allowed {
        case Err(e) => err := Some(e);
        case Ok(yes) => err := if yes then None else Some(AdapterNotAllowed);
      }
      if err.None? {
        if w.key.None? {
          err := Some(KeyMissing);
        } else {
          var signing := SignDecision(w.key.value, req, d);
          match signing {
            case Err(e) => err := Some(e);
            case Ok(done) => decision := done;
          }
        }
      }
    }

    /** The whole evaluation, touching no state. */
    method Run(w: World) returns (r: Result<Decision, Fault>)
      ensures r == Evaluate(h, w)
    {
      if !w.ready {
        return Err(Unavailable);
      }
      if w.plaintext.Err? {
        return Err(w.plaintext.error);
      }
      var req := w.plaintext.value;
      r := Decide(w, req);
      if r.Ok? {
        var err, decision := Authorize(w, req, r.value);
        r := if err.Some? then Err(err.value) else Ok(decision);
      }
    }

    /** One evaluation: it counts, and its digest is signed, exactly when every step succeeds. */
    method ProcessEvaluate(w: World) returns (r: Result<Decision, Fault>)
      requires Valid()
      modifies this
      ensures Valid()
      ensures r == Evaluate(h, w)
      ensures evaluationCount == if r.Ok? then Bump(old(evaluationCount)) else old(evaluationCount)
      ensures log == old(log) + [w]
      ensures signed == old(signed) + match Reported(r) case None => {} case Some(digest) => {digest}
    {
      r := Run(w);
      GatherNext(SignatureOf(h), log, w);
      log := log + [w];
      if r.Ok? {
        evaluationCount := Bump(evaluationCount);
        signed := signed + {HexToHash(r.value.authorizationDigest)};
      }
    }
  }
}
