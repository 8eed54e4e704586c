/** What the evaluator makes of the bytes a node returns for the router's getters. */
module ChainReader {
  import opened Bytes
  import opened Decimal
  import opened EvaluatorTypes
  import opened Hex
  import opened RouterTypes
  import opened Wrappers

  // eth_call: the address as given, the calldata, and the bytes returned unless the call failed
  type EthCall = (string, Bytes) -> Option<Bytes>

  function Selector(keccak: Bytes -> Word, signature: string): Bytes
  {
    Word32(keccak(Ascii(signature)))[..4]
  }

  function IntentCalldata(keccak: Bytes -> Word, intentID: string): Bytes
  {
    Selector(keccak, "intents(bytes32)") + Word32(HexToHash(intentID))
  }

  function AllowedCalldata(keccak: Bytes -> Word, adapter: string): Bytes
  {
    Selector(keccak, "allowedAdapters(address)") + LeftPad(ToBytes(HexToAddress(adapter), 20), 32)
  }

  // BytesToAddress of a word without its first twelve bytes
  function WordAddress(out: Bytes, i: nat): Address
    requires 32 * (i + 1) <= |out|
  {
    FromBytes(Slice32(out, i)[12..]) % UINT160
  }

  function WordValue(out: Bytes, i: nat): Word
    requires 32 * (i + 1) <= |out|
  {
    FromWord32(Slice32(out, i));
    FromBytes(Slice32(out, i))
  }

  function IntentText(keccak: Bytes -> Word, owner: Address, tokenIn: Address, amount: Word, commitment: Word,
                      expiry: Uint64, nonce: Uint64, status: Uint8): OnchainIntent
  {
    OnchainIntent(AddressHex(keccak, owner), AddressHex(keccak, tokenIn), Format(amount), HashHex(commitment), expiry,
                  nonce, status)
  }

  /** The seven words of the intents getter; anything past them is ignored, and so are the high bytes of
      addresses, of 64-bit numbers and of the status. */
  function DecodeIntent(keccak: Bytes -> Word, out: Bytes): Result<Option<OnchainIntent>, Fault>
  {
    if |out| < 224 then Err(ResponseInvalid)
    else
      var status: Uint8 := Slice32(out, 6)[31];
      if status == 0 then Ok(None)
      else Ok(Some(IntentText(keccak, WordAddress(out, 0), WordAddress(out, 1), WordValue(out, 2), WordValue(out, 3),
                              WordValue(out, 4) % UINT64, WordValue(out, 5) % UINT64, status)))
  }

  /** rpcIntentReader.Intent */
  function ReadIntent(keccak: Bytes -> Word, call: EthCall, router: string,
                      intentID: string): Result<Option<OnchainIntent>, Fault>
  {
    if !IsHexAddress(router) || |TrimPrefix(intentID)| != 64 then Err(LookupInvalid)
    else match call(router, IntentCalldata(keccak, intentID))
      case None => Err(Unavailable)
      case Some(out) => DecodeIntent(keccak, out)
  }

  /** rpcIntentReader.AdapterAllowed: the last byte decides. */
  function ReadAllowed(keccak: Bytes -> Word, call: EthCall, router: string, adapter: string): Result<bool, Fault>
  {
    if !IsHexAddress(adapter) then Err(LookupInvalid)
    else match call(router, AllowedCalldata(keccak, adapter))
      case None => Err(Unavailable)
      case Some(out) => if |out| < 32 then Err(ResponseInvalid) else Ok(out[|out| - 1] == 1)
  }

  // ---------------------------------------------------------------- reading back what the router stores

  /** The text says what the router stores. */
  predicate Reads(o: OnchainIntent, i: Intent)
  {
    && IsHexAddress(o.owner) && HexToAddress(o.owner) == i.owner
    && IsHexAddress(o.tokenIn) && HexToAddress(o.tokenIn) == i.tokenIn
    && Parse(o.amount) == Some(i.amount)
    && HexToHash(o.commitment) == i.ciphertextHash
    && o.expiry == i.expiry && o.nonce == i.nonce && o.status == StatusCode(i.status)
  }

  function OnchainOf(keccak: Bytes -> Word, i: Intent): OnchainIntent
  {
    IntentText(keccak, i.owner, i.tokenIn, i.amount, i.ciphertextHash, i.expiry, i.nonce, StatusCode(i.status))
  }

  lemma OnchainReads(keccak: Bytes -> Word, i: Intent)
    ensures Reads(OnchainOf(keccak, i), i)
  {
    AddressHexReadsBack(keccak, i.owner);
    AddressHexReadsBack(keccak, i.tokenIn);
    ParseInvertsFormat(i.amount);
    HashHexReadsBack(i.ciphertextHash);
  }

  lemma AddressTail(a: Address)
    ensures FromBytes(Word32(a)[12..]) == a
  {
    Pow256Values();
    BigEndianPads(a, 20);
    BigEndianPads(a, 32);
    assert Word32(a) == Zeros(12) + ToBytes(a, 20);
    assert Word32(a)[12..] == ToBytes(a, 20);
    Address20RoundTrip(a);
  }

  lemma LastByte(n: Word)
    ensures Word32(n)[31] == n % 256
  {
    assert ToBytes(n, 32) == ToBytes(n / 256, 31) + [n % 256];
  }

  lemma GetterWord(i: Intent, k: nat)
    requires k < 7
    ensures |GetterBytes(i)| == 224
    ensures Slice32(GetterBytes(i), k) == Word32(GetterWords(i)[k])
    ensures WordValue(GetterBytes(i), k) == GetterWords(i)[k]
  {
    WordAt(GetterWords(i), [], k);
    assert GetterBytes(i) + [] == GetterBytes(i);
  }

  lemma GetterAddresses(i: Intent)
    ensures |GetterBytes(i)| == 224
    ensures WordAddress(GetterBytes(i), 0) == i.owner && WordAddress(GetterBytes(i), 1) == i.tokenIn
  {
    GetterWord(i, 0);
    GetterWord(i, 1);
    AddressTail(i.owner);
    AddressTail(i.tokenIn);
  }

  lemma GetterNumbers(i: Intent)
    ensures |GetterBytes(i)| == 224
    ensures WordValue(GetterBytes(i), 2) == i.amount && WordValue(GetterBytes(i), 3) == i.ciphertextHash
    ensures WordValue(GetterBytes(i), 4) == i.expiry && WordValue(GetterBytes(i), 5) == i.nonce
  {
    GetterWord(i, 2);
    GetterWord(i, 3);
    GetterWord(i, 4);
    GetterWord(i, 5);
  }

  lemma GetterStatus(i: Intent)
    ensures |GetterBytes(i)| == 224 && Slice32(GetterBytes(i), 6)[31] == StatusCode(i.status)
  {
    GetterWord(i, 6);
    LastByte(StatusCode(i.status));
  }

  /** Seven words with these values. */
  predicate Spells(out: Bytes, i: Intent)
  {
    && |out| == 224
    && WordAddress(out, 0) == i.owner && WordAddress(out, 1) == i.tokenIn
    && WordValue(out, 2) == i.amount && WordValue(out, 3) == i.ciphertextHash
    && WordValue(out, 4) == i.expiry && WordValue(out, 5) == i.nonce
    && Slice32(out, 6)[31] == StatusCode(i.status)
  }

  lemma SpeltDecodes(keccak: Bytes -> Word, out: Bytes, i: Intent)
    requires Spells(out, i)
    ensures DecodeIntent(keccak, out) == Ok(if i.status == Missing then None else Some(OnchainOf(keccak, i)))
  {
    SmallMod(i.expiry, UINT64);
    SmallMod(i.nonce, UINT64);
  }

  lemma GetterSpells(i: Intent)
    ensures Spells(GetterBytes(i), i)
  {
    GetterAddresses(i);
    GetterNumbers(i);
    GetterStatus(i);
  }

  /** Decoding inverts the router's getter for every intent it can store, and reports an unused id as absent. */
  lemma GetterRoundTrip(keccak: Bytes -> Word, i: Intent)
    ensures DecodeIntent(keccak, GetterBytes(i)) == Ok(if i.status == Missing then None else Some(OnchainOf(keccak, i)))
    ensures Reads(OnchainOf(keccak, i), i)
  {
    GetterSpells(i);
    SpeltDecodes(keccak, GetterBytes(i), i);
    OnchainReads(keccak, i);
  }

  /** So no two different intents read alike. */
  lemma GetterInjective(keccak: Bytes -> Word, i: Intent, j: Intent)
    requires i.status != Missing && DecodeIntent(keccak, GetterBytes(i)) == DecodeIntent(keccak, GetterBytes(j))
    ensures i == j
  {
    GetterRoundTrip(keccak, i);
    GetterRoundTrip(keccak, j);
  }

  /** The allow-list getter reads back as the flag the router stores. */
  lemma AllowedRoundTrip(keccak: Bytes -> Word, call: EthCall, router: string, adapter: string, allowed: bool)
    requires IsHexAddress(adapter)
    requires call(router, AllowedCalldata(keccak, adapter)) == Some(Word32(if allowed then 1 else 0))
    ensures ReadAllowed(keccak, call, router, adapter) == Ok(allowed)
  {
    LastByte(if allowed then 1 else 0);
  }
}
