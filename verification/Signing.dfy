/** signDecision and the digest it signs, against the digest the router recomputes. */
module Signing {
  import opened Bytes
  import opened Decimal
  import opened EvaluatorTypes
  import opened Hex
  import opened PolicyCommitment
  import opened RouterTypes
  import opened Wrappers

  /** Everything signDecision checks before it signs, in its order. */
  function SignFault(req: Request, d: Decision): (f: Option<Fault>)
    ensures f.None? ==>
      Positive(d.maximumAmount).Some? && Parse(d.minimumOutput).Some? && Parse(d.minimumOutput).value >= 0
    ensures f.None? ==>
      Positive(req.chainID).Some? && PolicyFault(req).None? && DecodeHex(TrimPrefix(d.actionData)).Some?
  {
    if !IsHexAddress(req.router) || !IsHexAddress(d.owner) || !IsHexAddress(d.tokenIn)
       || !IsHexAddress(d.adapter) || !IsHexAddress(d.tokenOut) then Some(AddressInvalid)
    else if HexToHash(d.intentID) == 0 || |TrimPrefix(d.intentID)| != 64 then Some(IntentIdInvalid)
    else if Positive(d.maximumAmount).None? then Some(AmountInvalid)
    else if Parse(d.minimumOutput).None? || Parse(d.minimumOutput).value < 0 then Some(MinimumInvalid)
    else if Positive(req.chainID).None? then Some(ChainInvalid)
    else if PolicyFault(req).Some? then PolicyFault(req)
    else if DecodeHex(TrimPrefix(d.actionData)).None? then Some(ActionDataInvalid)
    else None
  }

  function ActionBytes(d: Decision): Bytes
    requires DecodeHex(TrimPrefix(d.actionData)).Some?
  {
    DecodeHex(TrimPrefix(d.actionData)).value
  }

  function StructItems(typeHash: Word, intentId: Word, owner: string, tokenIn: string, amount: nat, commitment: Word,
                       adapter: string, tokenOut: string, actionHash: Word, minimum: nat, nonce: nat,
                       deadline: nat): seq<Bytes>
  {
    [Word32(typeHash), Word32(intentId), AddressWord(owner), AddressWord(tokenIn), UintWord(amount), Word32(commitment),
     AddressWord(adapter), AddressWord(tokenOut), Word32(actionHash), UintWord(minimum), UintWord(nonce),
     UintWord(deadline)]
  }

  function SignedStruct(h: Hasher, req: Request, d: Decision): Bytes
    requires SignFault(req, d).None?
  {
    Concat(StructItems(h.routeType, HexToHash(d.intentID), d.owner, d.tokenIn, Positive(d.maximumAmount).value,
                       h.keccak(PolicyPreimage(h, req)), d.adapter, d.tokenOut, h.keccak(ActionBytes(d)),
                       Parse(d.minimumOutput).value, d.intentNonce, d.deadline))
  }

  function SignedDomain(h: Hasher, req: Request): Bytes
    requires Positive(req.chainID).Some?
  {
    Concat([Word32(h.domainType), Word32(h.name), Word32(h.version), UintWord(Positive(req.chainID).value),
            AddressWord(req.router)])
  }

  function SignedPreimage(h: Hasher, req: Request, d: Decision): Bytes
    requires SignFault(req, d).None?
  {
    DigestPreimage(h.keccak(SignedDomain(h, req)), h.keccak(SignedStruct(h, req, d)))
  }

  function Digest(h: Hasher, req: Request, d: Decision): Word
    requires SignFault(req, d).None?
  {
    h.keccak(SignedPreimage(h, req, d))
  }

  /** A signature as Solidity's recovery wants it, 27 added to its recovery id. */
  function Shifted(s: Signature): Bytes
  {
    s[64 := s[64] + 27]
  }

  /** The decision with its commitment, its digest, and the signature over that. */
  function SignDecision(h: Hasher, key: Key, req: Request, d: Decision): Result<Decision, Fault>
  {
    var fault := SignFault(req, d);
    if fault.Some? then Err(fault.value)
    else Ok(d.(intentCommitment := HashHex(h.keccak(PolicyPreimage(h, req))),
               authorizationDigest := HashHex(Digest(h, req, d)),
               signature := "0x" + EncodeHex(Shifted(key(Digest(h, req, d))))))
  }

  // ---------------------------------------------------------------- what both sides write down

  // The router's domain, in the evaluator's terms.
  function RouterDomain(h: Hasher, c: Deployment): Bytes
  {
    Words([h.domainType, h.name, h.version, c.chainId, c.self])
  }

  // What the router hashes last.
  function RouterPreimage(c: Deployment, a: RouteAuthorization): Bytes
  {
    DigestPreimage(c.domainSeparator, c.keccak(StructPreimage(c.typeHash, a)))
  }

  /** The evaluator's fixed hashes are the ones the router was deployed with. */
  ghost predicate Attuned(h: Hasher, c: Deployment)
  {
    && h.keccak == c.keccak && h.routeType == c.typeHash
    && c.domainSeparator == c.keccak(RouterDomain(h, c))
  }

  /** Both programs hash the strings their sources spell out. */
  predicate Genuine(h: Hasher)
  {
    && h.routeType == h.keccak(Ascii(ROUTE_AUTHORIZATION_TYPE))
    && h.policyType == h.keccak(Ascii(PRIVATE_INTENT_POLICY_TYPE))
    && h.domainType == h.keccak(Ascii(DOMAIN_TYPE))
    && h.name == h.keccak(Ascii("ShadowRouter")) && h.version == h.keccak(Ascii("1"))
  }

  /** So a client and an evaluator, each with the hashes its own source fixes, commit to every policy alike. */
  lemma GenuineEncodersAgree(client: Hasher, evaluator: Hasher, req: Request)
    requires Genuine(client) && Genuine(evaluator) && client.keccak == evaluator.keccak
    requires PolicyFault(req).None? && InRange(PolicyOf(req))
    ensures ClientCommitment(client, PolicyOf(req)) == Some(Commitment(evaluator, req).value)
  {
    EncodersAgree(evaluator, req);
  }

  lemma GenuineAttuned(h: Hasher, c: Deployment)
    requires Genuine(h) && Deployed(c) && h.keccak == c.keccak
    ensures Attuned(h, c)
  {
    assert DomainWords(c.keccak, c.chainId, c.self) == [h.domainType, h.name, h.version, c.chainId, c.self];
  }

  function StructNumbers(typeHash: Word, intentId: Word, owner: Address, tokenIn: Address, amount: nat,
                         commitment: Word, adapter: Address, tokenOut: Address, actionHash: Word, minimum: nat,
                         nonce: nat, deadline: nat): (ns: seq<nat>)
    ensures |ns| == 12
  {
    [typeHash, intentId, owner, tokenIn, amount, commitment, adapter, tokenOut, actionHash, minimum, nonce, deadline]
  }

  function DecisionNumbers(h: Hasher, req: Request, d: Decision): (ns: seq<nat>)
    requires SignFault(req, d).None?
    ensures |ns| == 12
  {
    StructNumbers(h.routeType, HexToHash(d.intentID), HexToAddress(d.owner), HexToAddress(d.tokenIn),
                  Positive(d.maximumAmount).value, h.keccak(PolicyPreimage(h, req)), HexToAddress(d.adapter),
                  HexToAddress(d.tokenOut), h.keccak(ActionBytes(d)), Parse(d.minimumOutput).value, d.intentNonce,
                  d.deadline)
  }

  function DomainNumbers(h: Hasher, chainId: nat, router: Address): (ns: seq<nat>)
    ensures |ns| == 5
  {
    [h.domainType, h.name, h.version, chainId, router]
  }

  lemma StructItemsAreNumbers(t: Word, id: Word, owner: string, tokenIn: string, amount: nat, commitment: Word,
                              adapter: string, tokenOut: string, action: Word, minimum: nat, nonce: nat, deadline: nat)
    ensures Concat(StructItems(t, id, owner, tokenIn, amount, commitment, adapter, tokenOut, action, minimum, nonce,
                               deadline))
      == GoWords(StructNumbers(t, id, HexToAddress(owner), HexToAddress(tokenIn), amount, commitment,
                               HexToAddress(adapter), HexToAddress(tokenOut), action, minimum, nonce, deadline))
  {
    AddressWordIsWord(owner);
    AddressWordIsWord(tokenIn);
    AddressWordIsWord(adapter);
    AddressWordIsWord(tokenOut);
    StructWordsAre(t, id, commitment, action);
    ConcatIsGoWords(
      StructItems(t, id, owner, tokenIn, amount, commitment, adapter, tokenOut, action, minimum, nonce, deadline),
      StructNumbers(t, id, HexToAddress(owner), HexToAddress(tokenIn), amount, commitment, HexToAddress(adapter),
                    HexToAddress(tokenOut), action, minimum, nonce, deadline));
  }

  lemma StructIsNumbers(h: Hasher, req: Request, d: Decision)
    requires SignFault(req, d).None?
    ensures SignedStruct(h, req, d) == GoWords(DecisionNumbers(h, req, d))
  {
    StructItemsAreNumbers(h.routeType, HexToHash(d.intentID), d.owner, d.tokenIn, Positive(d.maximumAmount).value,
                          h.keccak(PolicyPreimage(h, req)), d.adapter, d.tokenOut, h.keccak(ActionBytes(d)),
                          Parse(d.minimumOutput).value, d.intentNonce, d.deadline);
  }

  lemma StructWordsAre(t: Word, id: Word, commitment: Word, action: Word)
    ensures Word32(t) == UintWord(t) && Word32(id) == UintWord(id)
    ensures Word32(commitment) == UintWord(commitment) && Word32(action) == UintWord(action)
  {
    UintWordIsWord(t);
    UintWordIsWord(id);
    UintWordIsWord(commitment);
    UintWordIsWord(action);
  }

  lemma DomainIsNumbers(h: Hasher, req: Request)
    requires Positive(req.chainID).Some?
    ensures SignedDomain(h, req) == GoWords(DomainNumbers(h, Positive(req.chainID).value, HexToAddress(req.router)))
  {
    AddressWordIsWord(req.router);
    StructWordsAre(h.domainType, h.name, h.version, 0);
    ConcatIsGoWords([Word32(h.domainType), Word32(h.name), Word32(h.version), UintWord(Positive(req.chainID).value),
                     AddressWord(req.router)], DomainNumbers(h, Positive(req.chainID).value, HexToAddress(req.router)));
  }

  function AuthorizationNumbers(typeHash: Word, a: RouteAuthorization): seq<nat>
  {
    StructNumbers(typeHash, a.intentId, a.owner, a.tokenIn, a.maximumAmount, a.intentCommitment, a.adapter, a.tokenOut,
                  a.actionHash, a.minimumOutput, a.intentNonce, a.deadline)
  }

  /** The authorization a decision speaks of, field by field; only possible when its numbers fit. */
  predicate Denotes(h: Hasher, req: Request, d: Decision, a: RouteAuthorization)
    requires SignFault(req, d).None?
  {
    && a.intentId == HexToHash(d.intentID) && a.owner == HexToAddress(d.owner) && a.tokenIn == HexToAddress(d.tokenIn)
    && a.maximumAmount == Positive(d.maximumAmount).value && a.intentCommitment == h.keccak(PolicyPreimage(h, req))
    && a.adapter == HexToAddress(d.adapter) && a.tokenOut == HexToAddress(d.tokenOut)
    && a.actionHash == h.keccak(ActionBytes(d)) && a.minimumOutput == Parse(d.minimumOutput).value
    && a.intentNonce == d.intentNonce && a.deadline == d.deadline
  }

  lemma DenotedNumbers(h: Hasher, req: Request, d: Decision, a: RouteAuthorization)
    requires SignFault(req, d).None?
    ensures DecisionNumbers(h, req, d) == AuthorizationNumbers(h.routeType, a) <==> Denotes(h, req, d, a)
  {
    var ns, ms := DecisionNumbers(h, req, d), AuthorizationNumbers(h.routeType, a);
    if ns == ms {
      assert ns[1] == ms[1] && ns[2] == ms[2] && ns[3] == ms[3] && ns[4] == ms[4] && ns[5] == ms[5] && ns[6] == ms[6];
      assert ns[7] == ms[7] && ns[8] == ms[8] && ns[9] == ms[9] && ns[10] == ms[10] && ns[11] == ms[11];
    }
  }

  /** The request means this router on this chain. */
  predicate Addressed(c: Deployment, req: Request)
  {
    Positive(req.chainID) == Some(c.chainId) && HexToAddress(req.router) == c.self
  }

  // ---------------------------------------------------------------- agreement

  lemma StructAgrees(h: Hasher, req: Request, d: Decision, a: RouteAuthorization)
    requires SignFault(req, d).None? && Denotes(h, req, d, a)
    ensures SignedStruct(h, req, d) == StructPreimage(h.routeType, a)
  {
    StructIsNumbers(h, req, d);
    DenotedNumbers(h, req, d, a);
    assert StructWords(h.routeType, a) == AuthorizationNumbers(h.routeType, a);
    GoWordsAreWords(StructWords(h.routeType, a));
  }

  lemma DomainAgrees(h: Hasher, c: Deployment, req: Request)
    requires Attuned(h, c) && Addressed(c, req)
    ensures h.keccak(SignedDomain(h, req)) == c.domainSeparator
  {
    DomainIsNumbers(h, req);
    var ws: seq<Word> := [h.domainType, h.name, h.version, c.chainId, c.self];
    assert DomainNumbers(h, c.chainId, c.self) == ws;
    GoWordsAreWords(ws);
  }

  /** A decision addressed to this router denotes an authorization exactly when its numbers fit 256 bits;
      then Go's bytes are Solidity's and the digests are equal. Otherwise Go hashes a longer preimage
      than the router ever hashes. */
  lemma DigestsAgree(h: Hasher, c: Deployment, req: Request, d: Decision, a: RouteAuthorization)
    requires SignFault(req, d).None? && Attuned(h, c) && Addressed(c, req)
    ensures Denotes(h, req, d, a) ==>
      SignedStruct(h, req, d) == StructPreimage(c.typeHash, a) && Digest(h, req, d) == AuthorizationDigest(c, a)
    ensures |SignedStruct(h, req, d)| == |StructPreimage(c.typeHash, a)| <==> Narrow(DecisionNumbers(h, req, d))
    ensures !Narrow(DecisionNumbers(h, req, d)) ==> |SignedStruct(h, req, d)| > |StructPreimage(c.typeHash, a)|
  {
    StructIsNumbers(h, req, d);
    GoWordsLength(DecisionNumbers(h, req, d));
    if Denotes(h, req, d, a) {
      StructAgrees(h, req, d, a);
      DomainAgrees(h, c, req);
    }
  }

  /** The two preimages that collide when a signature for one decision passes for another authorization. */
  ghost predicate DigestCollision(h: Hasher, c: Deployment, req: Request, d: Decision, a: RouteAuthorization)
    requires SignFault(req, d).None?
  {
    || Collide(c.keccak, SignedPreimage(h, req, d), RouterPreimage(c, a))
    || Collide(c.keccak, SignedStruct(h, req, d), StructPreimage(c.typeHash, a))
    || Collide(c.keccak, SignedDomain(h, req), RouterDomain(h, c))
  }

  lemma StructBinds(h: Hasher, req: Request, d: Decision, a: RouteAuthorization)
    requires SignFault(req, d).None? && SignedStruct(h, req, d) == StructPreimage(h.routeType, a)
    ensures Denotes(h, req, d, a)
  {
    StructIsNumbers(h, req, d);
    assert StructWords(h.routeType, a) == AuthorizationNumbers(h.routeType, a);
    GoWordsInjective(DecisionNumbers(h, req, d), StructWords(h.routeType, a));
    DenotedNumbers(h, req, d, a);
  }

  lemma DomainBinds(h: Hasher, c: Deployment, req: Request)
    requires Positive(req.chainID).Some?
    requires SignedDomain(h, req) == RouterDomain(h, c)
    ensures Addressed(c, req)
  {
    DomainIsNumbers(h, req);
    var ws: seq<Word> := [h.domainType, h.name, h.version, c.chainId, c.self];
    var ns := DomainNumbers(h, Positive(req.chainID).value, HexToAddress(req.router));
    GoWordsInjective(ns, ws);
    assert ns[3] == ws[3] && ns[4] == ws[4];
  }

  /** A digest binds: when the router recomputes a digest the evaluator signed, whatever router and
      chain the request named, then it named this router and chain and the decision denotes the
      authorization in all eleven fields; or two named preimages collide. */
  lemma DigestBinds(h: Hasher, c: Deployment, req: Request, d: Decision, a: RouteAuthorization)
    requires SignFault(req, d).None? && Attuned(h, c) && Digest(h, req, d) == AuthorizationDigest(c, a)
    ensures (Addressed(c, req) && Denotes(h, req, d, a)) || DigestCollision(h, c, req, d, a)
  {
    if !DigestCollision(h, c, req, d, a) {
      DigestPreimageInjective(h.keccak(SignedDomain(h, req)), h.keccak(SignedStruct(h, req, d)),
                              c.domainSeparator, c.keccak(StructPreimage(c.typeHash, a)));
      StructBinds(h, req, d, a);
      DomainBinds(h, c, req);
    }
  }
}
