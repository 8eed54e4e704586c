/** The private policy's commitment, as the Go evaluator and the JavaScript client compute it: the same
    bytes for every policy in range, and bytes that determine all ten fields. */
module PolicyCommitment {
  import opened Abi
  import opened Bytes
  import opened EvaluatorTypes
  import opened Hex
  import opened Wrappers

  datatype Policy = Policy(
    chainId: int,
    router: Address,
    owner: Address,
    tokenIn: Address,
    amount: int,
    nonce: int,
    expiry: int,
    allowedAdapters: seq<Address>,
    maximumRisk: int,
    minimumOutput: int)

  /** What the ABI types of the policy's fields can hold. */
  predicate InRange(p: Policy)
  {
    && 0 <= p.chainId < UINT256 && 0 <= p.amount < UINT256 && 0 <= p.minimumOutput < UINT256
    && 0 <= p.nonce < UINT64 && 0 <= p.expiry < UINT64 && 0 <= p.maximumRisk < 256
  }

  predicate NonNegative(p: Policy)
  {
    0 <= p.chainId && 0 <= p.amount && 0 <= p.nonce && 0 <= p.expiry && 0 <= p.maximumRisk && 0 <= p.minimumOutput
  }

  // ---------------------------------------------------------------- the client's encoder

  function AdaptersPreimage(adapters: seq<Address>): Bytes
  {
    Words(AsWords(adapters))
  }

  function ClientPreimage(h: Hasher, p: Policy): Bytes
    requires InRange(p)
  {
    Words([h.policyType, p.chainId, p.router, p.owner, p.tokenIn, p.amount, p.nonce, p.expiry,
           h.keccak(AdaptersPreimage(p.allowedAdapters)), p.maximumRisk, p.minimumOutput])
  }

  /** Throws without an adapter and on any number its ABI type cannot hold. */
  function ClientCommitment(h: Hasher, p: Policy): Option<Word>
  {
    if p.allowedAdapters == [] || !InRange(p) then None else Some(h.keccak(ClientPreimage(h, p)))
  }

  // ---------------------------------------------------------------- the evaluator's encoder

  function Concat(words: seq<Bytes>): Bytes
  {
    if words == [] then [] else words[0] + Concat(words[1..])
  }

  function AddressWord(text: string): Bytes
  {
    LeftPad(ToBytes(HexToAddress(text), 20), 32)
  }

  function AddressWords(texts: seq<string>): seq<Bytes>
  {
    seq(|texts|, i requires 0 <= i < |texts| => AddressWord(texts[i]))
  }

  predicate AllAddresses(texts: seq<string>)
  {
    forall i :: 0 <= i < |texts| ==> IsHexAddress(texts[i])
  }

  /** Everything privatePolicyCommitment checks, in its order. */
  function PolicyFault(req: Request): (f: Option<Fault>)
    ensures f.None? ==>
      Positive(req.chainID).Some? && Positive(req.amount).Some? && Positive(req.constraints.minimumOutput).Some?
  {
    if !IsHexAddress(req.router) || !IsHexAddress(req.owner) || !IsHexAddress(req.tokenIn) then Some(AddressInvalid)
    else if Positive(req.chainID).None? then Some(ChainInvalid)
    else if Positive(req.amount).None? then Some(AmountInvalid)
    else if Positive(req.constraints.minimumOutput).None? then Some(MinimumInvalid)
    else if req.expiry == 0 || req.constraints.allowedAdapters == [] then Some(PolicyIncomplete)
    else if !AllAddresses(req.constraints.allowedAdapters) then Some(AddressInvalid)
    else None
  }

  /** What the evaluator concatenates: its type hash, then each field's word. */
  function PolicyItems(typeHash: Word, chainId: nat, router: string, owner: string, tokenIn: string, amount: nat,
                       nonce: nat, expiry: nat, adaptersHash: Word, risk: nat, minimum: nat): seq<Bytes>
  {
    [Word32(typeHash), UintWord(chainId), AddressWord(router), AddressWord(owner), AddressWord(tokenIn),
     UintWord(amount), UintWord(nonce), UintWord(expiry), Word32(adaptersHash), UintWord(risk), UintWord(minimum)]
  }

  function PolicyPreimage(h: Hasher, req: Request): Bytes
    requires PolicyFault(req).None?
  {
    Concat(PolicyItems(h.policyType, Positive(req.chainID).value, req.router, req.owner, req.tokenIn,
                       Positive(req.amount).value, req.nonce, req.expiry,
                       h.keccak(Concat(AddressWords(req.constraints.allowedAdapters))), req.constraints.maximumRisk,
                       Positive(req.constraints.minimumOutput).value))
  }

  function Commitment(h: Hasher, req: Request): Result<Word, Fault>
  {
    var fault := PolicyFault(req);
    if fault.Some? then Err(fault.value) else Ok(h.keccak(PolicyPreimage(h, req)))
  }

  /** The policy a request's text denotes. */
  function PolicyOf(req: Request): (p: Policy)
    requires PolicyFault(req).None?
    ensures NonNegative(p)
  {
    Policy(Positive(req.chainID).value, HexToAddress(req.router), HexToAddress(req.owner), HexToAddress(req.tokenIn),
           Positive(req.amount).value, req.nonce, req.expiry, Addresses(req.constraints.allowedAdapters),
           req.constraints.maximumRisk, Positive(req.constraints.minimumOutput).value)
  }

  function Addresses(texts: seq<string>): (list: seq<Address>)
    ensures |list| == |texts| && forall i :: 0 <= i < |texts| ==> list[i] == HexToAddress(texts[i])
  {
    seq(|texts|, i requires 0 <= i < |texts| => HexToAddress(texts[i]))
  }

  // ---------------------------------------------------------------- the two encoders meet

  /** The numbers both encoders write down, in order. */
  function ItemNumbers(typeHash: Word, chainId: nat, router: Address, owner: Address, tokenIn: Address, amount: nat,
                       nonce: nat, expiry: nat, adaptersHash: Word, risk: nat, minimum: nat): (ns: seq<nat>)
    ensures |ns| == 11
  {
    [typeHash, chainId, router, owner, tokenIn, amount, nonce, expiry, adaptersHash, risk, minimum]
  }

  function Numbers(typeHash: Word, p: Policy, adaptersHash: Word): (ns: seq<nat>)
    requires NonNegative(p)
    ensures |ns| == 11
  {
    ItemNumbers(typeHash, p.chainId, p.router, p.owner, p.tokenIn, p.amount, p.nonce, p.expiry, adaptersHash,
                p.maximumRisk, p.minimumOutput)
  }

  function PolicyNumbers(h: Hasher, p: Policy): (ns: seq<nat>)
    requires NonNegative(p)
    ensures |ns| == 11
  {
    Numbers(h.policyType, p, h.keccak(AdaptersPreimage(p.allowedAdapters)))
  }

  /** Equal numbers, equal fields: all but the adapters, which their hash stands for. */
  lemma NumbersInjective(t: Word, p: Policy, hp: Word, q: Policy, hq: Word)
    requires NonNegative(p) && NonNegative(q) && Numbers(t, p, hp) == Numbers(t, q, hq)
    ensures hp == hq && p == q.(allowedAdapters := p.allowedAdapters)
  {
    var ns, ms := Numbers(t, p, hp), Numbers(t, q, hq);
    assert ns[1] == ms[1] && ns[2] == ms[2] && ns[3] == ms[3] && ns[4] == ms[4] && ns[5] == ms[5];
    assert ns[6] == ms[6] && ns[7] == ms[7] && ns[8] == ms[8] && ns[9] == ms[9] && ns[10] == ms[10];
  }

  lemma NarrowIffInRange(t: Word, p: Policy, hp: Word)
    requires NonNegative(p) && p.nonce < UINT64 && p.expiry < UINT64 && p.maximumRisk < 256
    ensures Narrow(Numbers(t, p, hp)) <==> InRange(p)
  {
    var ns := Numbers(t, p, hp);
    assert Narrow(ns) ==> ns[1] < UINT256 && ns[5] < UINT256 && ns[10] < UINT256;
  }

  lemma PadTwice(b: Bytes, j: nat, k: nat)
    requires j <= k
    ensures LeftPad(LeftPad(b, j), k) == LeftPad(b, k)
  {
    if |b| < j {
      assert Zeros(k - j) + (Zeros(j - |b|) + b) == Zeros(k - |b|) + b;
    }
  }

  lemma AddressPads(a: Address)
    ensures LeftPad(ToBytes(a, 20), 32) == UintWord(a) == Word32(a)
  {
    Pow256Values();
    BigEndianPads(a, 20);
    PadTwice(BigEndian(a), 20, 32);
    UintWordIsWord(a);
  }

  lemma AddressWordIsWord(text: string)
    ensures AddressWord(text) == Word32(HexToAddress(text)) == UintWord(HexToAddress(text))
  {
    AddressPads(HexToAddress(text));
  }

  lemma {:induction false} ConcatIsGoWords(words: seq<Bytes>, ns: seq<nat>)
    requires |words| == |ns| && forall i :: 0 <= i < |ns| ==> words[i] == UintWord(ns[i])
    ensures Concat(words) == GoWords(ns)
  {
    if words != [] {
      ConcatIsGoWords(words[1..], ns[1..]);
    }
  }

  /** The adapter list hashes alike in both languages. */
  lemma AdaptersAgree(texts: seq<string>)
    ensures Concat(AddressWords(texts)) == AdaptersPreimage(Addresses(texts))
  {
    var ws := AsWords(Addresses(texts));
    forall i | 0 <= i < |texts|
      ensures AddressWords(texts)[i] == UintWord(ws[i])
    {
      AddressWordIsWord(texts[i]);
    }
    ConcatIsGoWords(AddressWords(texts), ws);
    GoWordsAreWords(ws);
  }

  lemma ItemsAreNumbers(typeHash: Word, chainId: nat, router: string, owner: string, tokenIn: string, amount: nat,
                        nonce: nat, expiry: nat, adaptersHash: Word, risk: nat, minimum: nat)
    ensures Concat(PolicyItems(typeHash, chainId, router, owner, tokenIn, amount, nonce, expiry, adaptersHash, risk,
                               minimum))
      == GoWords(ItemNumbers(typeHash, chainId, HexToAddress(router), HexToAddress(owner), HexToAddress(tokenIn),
                             amount, nonce, expiry, adaptersHash, risk, minimum))
  {
    UintWordIsWord(typeHash);
    UintWordIsWord(adaptersHash);
    AddressWordIsWord(router);
    AddressWordIsWord(owner);
    AddressWordIsWord(tokenIn);
    ConcatIsGoWords(
      PolicyItems(typeHash, chainId, router, owner, tokenIn, amount, nonce, expiry, adaptersHash, risk, minimum),
      ItemNumbers(typeHash, chainId, HexToAddress(router), HexToAddress(owner), HexToAddress(tokenIn), amount,
                  nonce, expiry, adaptersHash, risk, minimum));
  }

  lemma PolicyPreimageNumbers(h: Hasher, req: Request)
    requires PolicyFault(req).None?
    ensures PolicyPreimage(h, req) == GoWords(PolicyNumbers(h, PolicyOf(req)))
  {
    AdaptersAgree(req.constraints.allowedAdapters);
    ItemsAreNumbers(h.policyType, Positive(req.chainID).value, req.router, req.owner, req.tokenIn,
                    Positive(req.amount).value, req.nonce, req.expiry,
                    h.keccak(Concat(AddressWords(req.constraints.allowedAdapters))), req.constraints.maximumRisk,
                    Positive(req.constraints.minimumOutput).value);
  }

  /** For every request the evaluator accepts: the client accepts the same policy exactly when its numbers
      fit their ABI types, and then both hash the same bytes; otherwise the evaluator's preimage is
      longer than any the client can produce. */
  lemma EncodersAgree(h: Hasher, req: Request)
    requires PolicyFault(req).None?
    ensures var p := PolicyOf(req);
      && (ClientCommitment(h, p).Some? <==> InRange(p))
      && (InRange(p) ==> PolicyPreimage(h, req) == ClientPreimage(h, p)
                         && ClientCommitment(h, p) == Some(Commitment(h, req).value))
      && (!InRange(p) ==> |PolicyPreimage(h, req)| > 11 * 32)
  {
    var p := PolicyOf(req);
    PolicyPreimageNumbers(h, req);
    NarrowIffInRange(h.policyType, p, h.keccak(AdaptersPreimage(p.allowedAdapters)));
    GoWordsLength(PolicyNumbers(h, p));
    if InRange(p) {
      GoWordsAreWords(PolicyNumbers(h, p));
    }
  }

  /** Preimages found to collide when one commitment answers for two policies. */
  ghost predicate PolicyCollision(h: Hasher, p: Policy, req: Request)
    requires InRange(p) && PolicyFault(req).None?
  {
    || Collide(h.keccak, ClientPreimage(h, p), PolicyPreimage(h, req))
    || Collide(h.keccak, AdaptersPreimage(p.allowedAdapters), AdaptersPreimage(PolicyOf(req).allowedAdapters))
  }

  /** A commitment binds: whatever request the evaluator matches with a client's commitment denotes that
      very policy, in all ten fields, adapter list in order and length included, or two named preimages collide. */
  lemma CommitmentBinds(h: Hasher, p: Policy, req: Request)
    requires PolicyFault(req).None? && ClientCommitment(h, p) == Some(Commitment(h, req).value)
    ensures PolicyOf(req) == p || PolicyCollision(h, p, req)
  {
    if !PolicyCollision(h, p, req) {
      var q := PolicyOf(req);
      PolicyPreimageNumbers(h, req);
      NarrowIffInRange(h.policyType, p, h.keccak(AdaptersPreimage(p.allowedAdapters)));
      SamePolicy(h, p, q);
    }
  }

  lemma SamePolicy(h: Hasher, p: Policy, q: Policy)
    requires InRange(p) && NonNegative(q) && GoWords(PolicyNumbers(h, q)) == ClientPreimage(h, p)
    requires !Collide(h.keccak, AdaptersPreimage(p.allowedAdapters), AdaptersPreimage(q.allowedAdapters))
    ensures p == q
  {
    var hp, hq := h.keccak(AdaptersPreimage(p.allowedAdapters)), h.keccak(AdaptersPreimage(q.allowedAdapters));
    NarrowIffInRange(h.policyType, p, hp);
    GoWordsInjective(Numbers(h.policyType, q, hq), Numbers(h.policyType, p, hp));
    NumbersInjective(h.policyType, p, hp, q, hq);
    AdaptersInjective(p.allowedAdapters, q.allowedAdapters);
  }

  lemma AdaptersInjective(a: seq<Address>, b: seq<Address>)
    requires AdaptersPreimage(a) == AdaptersPreimage(b)
    ensures a == b
  {
    WordsInjective(AsWords(a), AsWords(b));
    assert forall i :: 0 <= i < |a| ==> a[i] == AsWords(a)[i] && b[i] == AsWords(b)[i];
  }

  // ---------------------------------------------------------------- the client's route encoder

  datatype RouteInput = RouteInput(path: seq<Address>, amountOutMin: int, deadline: int)

  predicate Distinct(path: seq<Address>)
  {
    forall i, j :: 0 <= i < j < |path| ==> path[i] != path[j]
  }

  /** encodeV2Route: two to four different tokens and positive numbers that fit their types, or it throws. */
  function EncodeV2Route(r: RouteInput): Option<Bytes>
  {
    if |r.path| < 2 || |r.path| > 4 || !Distinct(r.path) || r.amountOutMin <= 0 || r.deadline <= 0 then None
    else if r.amountOutMin >= UINT256 || r.deadline >= UINT256 then None
    else Some(EncodeRoute(V2Route(r.path, r.amountOutMin, r.deadline)))
  }

  /** Whatever the client encodes the adapter decodes to the same route, and two routes never share calldata. */
  lemma ClientRouteRoundTrip(r: RouteInput, q: RouteInput)
    requires EncodeV2Route(r).Some?
    ensures DecodeRoute(EncodeV2Route(r).value) == Some(V2Route(r.path, r.amountOutMin, r.deadline))
    ensures EncodeV2Route(q) == EncodeV2Route(r) ==> q == r
  {
    RouteRoundTrip(V2Route(r.path, r.amountOutMin, r.deadline));
    if EncodeV2Route(q) == EncodeV2Route(r) {
      EncodeRouteInjective(V2Route(r.path, r.amountOutMin, r.deadline), V2Route(q.path, q.amountOutMin, q.deadline));
    }
  }
}
