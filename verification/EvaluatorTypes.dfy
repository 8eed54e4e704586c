/** What the confidential evaluator reads and writes. Numbers and addresses are text, as on the wire. */
module EvaluatorTypes {
  import opened Bytes
  import opened Decimal
  import opened Wrappers

  datatype Constraints = Constraints(allowedAdapters: seq<string>, maximumRisk: Uint8, minimumOutput: string)

  datatype Request = Request(
    intentID: string,
    router: string,
    chainID: string,
    owner: string,
    tokenIn: string,
    amount: string,
    nonce: Uint64,
    expiry: Uint64,
    deadline: Uint64,
    constraints: Constraints)

  datatype Route = Route(
    adapter: string,
    tokenOut: string,
    expectedOutput: string,
    risk: Uint8,
    actionData: string,
    validUntil: Uint64)

  datatype Decision = Decision(
    intentID: string,
    owner: string,
    tokenIn: string,
    maximumAmount: string,
    intentCommitment: string,
    adapter: string,
    tokenOut: string,
    actionData: string,
    minimumOutput: string,
    intentNonce: Uint64,
    deadline: Uint64,
    expectedOutput: string,
    authorizationDigest: string,
    signature: string)

  datatype OnchainIntent = OnchainIntent(
    owner: string,
    tokenIn: string,
    amount: string,
    commitment: string,
    expiry: Uint64,
    nonce: Uint64,
    status: Uint8)

  datatype Fault =
    | Unavailable | Undecodable | MissingField | DeadlinePassed | ExpiryInvalid | MinimumInvalid | NoRoute
    | AddressInvalid | ChainInvalid | AmountInvalid | PolicyIncomplete | IntentIdInvalid | ActionDataInvalid
    | ChainMismatch | IntentMissing | NotFunded | RequestMismatch | PolicyMismatch | QuotesUnavailable
    | LookupInvalid | ResponseInvalid | AdapterNotAllowed | KeyMissing

  /** Keccak and the hashes both languages fix once: type strings, domain name and version. */
  datatype Hasher = Hasher(
    keccak: Bytes -> Word,
    routeType: Word,
    policyType: Word,
    domainType: Word,
    name: Word,
    version: Word)

  /** What a key makes of a digest: r, s and a recovery id of 0 or 1, in 65 bytes. */
  type Signature = b: Bytes | |b| == 65 && b[64] < 2 witness seq(65, _ => 0)
  type Key = Word -> Signature

  // A base-10 number that must be positive.
  function Positive(s: string): Option<nat>
  {
    match Parse(s)
    case Some(n) => if n > 0 then Some(n) else None
    case None => None
  }
}
