/** The router's stored intents, the authorizations it checks and the preimages it hashes. */
module RouterTypes {
  import opened Bytes
  import opened Wrappers

  datatype Status = Missing | Created | Funded | Executed | Cancelled

  datatype Intent = Intent(
    owner: Address,
    tokenIn: Address,
    amount: Word,
    ciphertextHash: Word,
    expiry: Uint64,
    nonce: Uint64,
    status: Status)

  // What Solidity reads at a key nobody wrote.
  const NO_INTENT := Intent(0, 0, 0, 0, 0, 0, Missing)

  datatype RouteAuthorization = RouteAuthorization(
    intentId: Word,
    owner: Address,
    tokenIn: Address,
    maximumAmount: Word,
    intentCommitment: Word,
    adapter: Address,
    tokenOut: Address,
    actionHash: Word,
    minimumOutput: Word,
    intentNonce: Uint64,
    deadline: Uint64)

  /** The chain a router lives on, as far as it matters: its own address and chain id, the hash and
      signature recovery (left uninterpreted), one deployed V2 adapter with its pinned venue, and the two
      hashes fixed at deployment: the authorization's type hash and the EIP-712 domain separator. */
  datatype Deployment = Deployment(
    self: Address,
    chainId: Word,
    keccak: Bytes -> Word,
    recover: (Word, Bytes) -> Option<Address>,
    adapter: Address,
    exchange: Address,
    typeHash: Word,
    domainSeparator: Word)

  /** The deployment-time hashes are the genuine ones. */
  predicate Deployed(d: Deployment)
  {
    && d.typeHash == d.keccak(Ascii(ROUTE_AUTHORIZATION_TYPE))
    && d.domainSeparator == d.keccak(DomainPreimage(d.keccak, d.chainId, d.self))
  }

  const ROUTE_AUTHORIZATION_TYPE := "RouteAuthorization(bytes32 intentId,address owner,address tokenIn,uint256 maximumAmount,bytes32 intentCommitment,address adapter,address tokenOut,bytes32 actionHash,uint256 minimumOutput,uint64 intentNonce,uint64 deadline)"
  const PRIVATE_INTENT_POLICY_TYPE := "PrivateIntentPolicy(uint256 chainId,address router,address owner,address tokenIn,uint256 amount,uint64 nonce,uint64 expiry,bytes32 allowedAdaptersHash,uint8 maximumRisk,uint256 minimumOutput)"
  const DOMAIN_TYPE := "EIP712Domain(string name,string version,uint256 chainId,address verifyingContract)"

  // Preimage of an intent's id.
  function IdPreimage(i: Intent): Bytes
  {
    Words([i.owner, i.tokenIn, i.amount, i.ciphertextHash, i.expiry, i.nonce])
  }

  // _hashAuthorization's preimage.
  function StructPreimage(typeHash: Word, a: RouteAuthorization): Bytes
  {
    Words(StructWords(typeHash, a))
  }

  function StructWords(typeHash: Word, a: RouteAuthorization): (ws: seq<Word>)
    ensures |ws| == 12
  {
    [typeHash, a.intentId, a.owner, a.tokenIn, a.maximumAmount, a.intentCommitment,
     a.adapter, a.tokenOut, a.actionHash, a.minimumOutput, a.intentNonce, a.deadline]
  }

  function DomainPreimage(keccak: Bytes -> Word, chainId: Word, verifyingContract: Address): Bytes
  {
    Words(DomainWords(keccak, chainId, verifyingContract))
  }

  function DomainWords(keccak: Bytes -> Word, chainId: Word, verifyingContract: Address): (ws: seq<Word>)
    ensures |ws| == 5
  {
    [keccak(Ascii(DOMAIN_TYPE)), keccak(Ascii("ShadowRouter")), keccak(Ascii("1")), chainId, verifyingContract]
  }

  // EIP-712: 0x19 0x01, the domain separator, the struct hash.
  function DigestPreimage(domain: Word, structHash: Word): Bytes
  {
    [0x19, 0x01] + Word32(domain) + Word32(structHash)
  }

  /** The router's authorizationDigest. */
  function AuthorizationDigest(d: Deployment, a: RouteAuthorization): Word
  {
    d.keccak(DigestPreimage(d.domainSeparator, d.keccak(StructPreimage(d.typeHash, a))))
  }

  function StatusCode(s: Status): Uint8
  {
    match s
    case Missing => 0
    case Created => 1
    case Funded => 2
    case Executed => 3
    case Cancelled => 4
  }

  // What the generated getter intents(bytes32) returns: seven words.
  function GetterBytes(i: Intent): Bytes
  {
    Words(GetterWords(i))
  }

  function GetterWords(i: Intent): (ws: seq<Word>)
    ensures |ws| == 7
  {
    [i.owner, i.tokenIn, i.amount, i.ciphertextHash, i.expiry, i.nonce, StatusCode(i.status)]
  }

  /** Equal but for the status. */
  predicate SameIntent(i: Intent, j: Intent)
  {
    i.(status := Missing) == j.(status := Missing)
  }

  lemma IdPreimageInjective(i: Intent, j: Intent)
    requires IdPreimage(i) == IdPreimage(j)
    ensures SameIntent(i, j)
  {
    var ws: seq<Word> := [i.owner, i.tokenIn, i.amount, i.ciphertextHash, i.expiry, i.nonce];
    var vs: seq<Word> := [j.owner, j.tokenIn, j.amount, j.ciphertextHash, j.expiry, j.nonce];
    WordsInjective(ws, vs);
    assert forall k :: 0 <= k < 6 ==> ws[k] == vs[k];
  }

  lemma DigestPreimageInjective(d0: Word, s0: Word, d1: Word, s1: Word)
    requires DigestPreimage(d0, s0) == DigestPreimage(d1, s1)
    ensures d0 == d1 && s0 == s1
  {
    var x, y := DigestPreimage(d0, s0), DigestPreimage(d1, s1);
    assert x[2..34] == Word32(d0) && y[2..34] == Word32(d1);
    assert x[34..] == Word32(s0) && y[34..] == Word32(s1);
    Word32RoundTrip(d0);
    Word32RoundTrip(d1);
    Word32RoundTrip(s0);
    Word32RoundTrip(s1);
  }
}
