/** Hexadecimal text as Go, go-ethereum and the TypeScript server read and write it. */
module Hex {
  import opened Bytes
  import opened Wrappers

  predicate IsHexDigit(c: char)
  {
    '0' <= c <= '9' || 'a' <= c <= 'f' || 'A' <= c <= 'F'
  }

  function DigitValue(c: char): (v: nat)
    requires IsHexDigit(c)
    ensures v < 16
  {
    if c <= '9' then c as int - '0' as int
    else if c <= 'F' then c as int - 'A' as int + 10
    else c as int - 'a' as int + 10
  }

  function HexDigit(v: nat): (c: char)
    requires v < 16
    ensures IsHexDigit(c) && DigitValue(c) == v && LowerChar(c) == c
  {
    if v < 10 then ('0' as int + v) as char else ('a' as int + v - 10) as char
  }

  // Case folding of ASCII text.
  function LowerChar(c: char): char
  {
    if 'A' <= c <= 'Z' then (c as int + 32) as char else c
  }

  function UpperChar(c: char): char
  {
    if 'a' <= c <= 'z' then (c as int - 32) as char else c
  }

  function Lower(s: string): (l: string)
    ensures |l| == |s|
  {
    seq(|s|, i requires 0 <= i < |s| => LowerChar(s[i]))
  }

  predicate EqualFold(s: string, t: string)
  {
    Lower(s) == Lower(t)
  }

  predicate AllHex(s: string)
  {
    forall i :: 0 <= i < |s| ==> IsHexDigit(s[i])
  }

  function EncodeHex(b: Bytes): (s: string)
    ensures |s| == 2 * |b|
  {
    if b == [] then "" else [HexDigit(b[0] / 16), HexDigit(b[0] % 16)] + EncodeHex(b[1..])
  }

  predicate LowerHex(c: char)
  {
    IsHexDigit(c) && LowerChar(c) == c
  }

  /** Encoded text is lower-case hexadecimal. */
  lemma {:induction false} EncodedText(b: Bytes)
    ensures forall i :: 0 <= i < |EncodeHex(b)| ==> LowerHex(EncodeHex(b)[i])
    ensures AllHex(EncodeHex(b)) && Lower(EncodeHex(b)) == EncodeHex(b)
  {
    if b != [] {
      EncodedText(b[1..]);
      var s, rest := EncodeHex(b), EncodeHex(b[1..]);
      forall i | 0 <= i < |s|
        ensures LowerHex(s[i])
      {
        assert i >= 2 ==> s[i] == rest[i - 2];
      }
    }
    assert forall i :: 0 <= i < |EncodeHex(b)| ==> LowerHex(EncodeHex(b)[i]);
  }

  /** The bytes before the first pair that is not hexadecimal: what Go's decoder returns beside its error. */
  function DecodePairs(s: string): (b: Bytes)
    ensures 2 * |b| <= |s|
    ensures AllHex(s) ==> |b| == |s| / 2
  {
    if |s| < 2 || !IsHexDigit(s[0]) || !IsHexDigit(s[1]) then []
    else [16 * DigitValue(s[0]) + DigitValue(s[1])] + DecodePairs(s[2..])
  }

  // Go's hex.DecodeString
  function DecodeHex(s: string): Option<Bytes>
  {
    if |s| % 2 == 0 && AllHex(s) then Some(DecodePairs(s)) else None
  }

  lemma {:induction false} DecodeInvertsEncode(b: Bytes)
    ensures DecodePairs(EncodeHex(b)) == b
  {
    if b != [] {
      var s := EncodeHex(b);
      DecodeInvertsEncode(b[1..]);
      assert s[0] == HexDigit(b[0] / 16) && s[1] == HexDigit(b[0] % 16);
      assert s[2..] == EncodeHex(b[1..]);
      assert DecodePairs(s) == [b[0]] + DecodePairs(s[2..]);
    }
  }

  lemma {:induction false} DecodeIgnoresCase(s: string)
    ensures DecodePairs(Lower(s)) == DecodePairs(s)
    ensures AllHex(Lower(s)) == AllHex(s)
  {
    assert forall i :: 0 <= i < |s| ==> (IsHexDigit(Lower(s)[i]) <==> IsHexDigit(s[i]));
    if |s| >= 2 {
      DecodeIgnoresCase(s[2..]);
      assert Lower(s)[2..] == Lower(s[2..]);
    }
  }

  /** Encoding inverts decoding up to case. */
  lemma {:induction false} EncodeInvertsDecode(s: string)
    requires |s| % 2 == 0 && AllHex(s)
    ensures EncodeHex(DecodePairs(s)) == Lower(s)
  {
    if s != "" {
      var b := DecodePairs(s);
      assert AllHex(s[2..]) by {
        assert forall i :: 0 <= i < |s[2..]| ==> s[2..][i] == s[i + 2];
      }
      EncodeInvertsDecode(s[2..]);
      assert b[1..] == DecodePairs(s[2..]);
      assert b[0] / 16 == DigitValue(s[0]) && b[0] % 16 == DigitValue(s[1]);
      DigitOfValue(s[0]);
      DigitOfValue(s[1]);
      assert Lower(s) == [LowerChar(s[0]), LowerChar(s[1])] + Lower(s[2..]);
    }
  }

  lemma DigitOfValue(c: char)
    requires IsHexDigit(c)
    ensures HexDigit(DigitValue(c)) == LowerChar(c)
  {
  }

  // ---------------------------------------------------------------- prefixes

  predicate HasPrefix(s: string)
  {
    |s| >= 2 && s[0] == '0' && (s[1] == 'x' || s[1] == 'X')
  }

  // Strips 0x or 0X.
  function Strip(s: string): string
  {
    if HasPrefix(s) then s[2..] else s
  }

  // Go's strings.TrimPrefix(s, "0x"): the lower-case prefix only.
  function TrimPrefix(s: string): string
  {
    if |s| >= 2 && s[0] == '0' && s[1] == 'x' then s[2..] else s
  }

  lemma StripIgnoresCase(s: string)
    ensures Strip(Lower(s)) == Lower(Strip(s))
  {
    if HasPrefix(s) {
      assert Lower(s)[2..] == Lower(s[2..]);
    }
  }

  // ---------------------------------------------------------------- go-ethereum's common package

  /** FromHex: tolerant, total, and silent about malformed text. */
  function FromHex(s: string): Bytes
  {
    var t := Strip(s);
    DecodePairs(if |t| % 2 == 1 then "0" + t else t)
  }

  predicate IsHexAddress(s: string)
  {
    |Strip(s)| == 40 && AllHex(Strip(s))
  }

  function HexToAddress(s: string): Address
  {
    FromBytes(FromHex(s)) % UINT160
  }

  function HexToHash(s: string): Word
  {
    FromBytes(FromHex(s)) % UINT256
  }

  /** Address.Hex: the EIP-55 checksum decides the case of each letter. */
  function AddressHex(keccak: Bytes -> Word, a: Address): string
  {
    var digits := EncodeHex(ToBytes(a, 20));
    var hash := EncodeHex(Word32(keccak(Ascii(digits))));
    EncodedText(Word32(keccak(Ascii(digits))));
    "0x" + seq(40, i requires 0 <= i < 40 => if DigitValue(hash[i]) > 7 then UpperChar(digits[i]) else digits[i])
  }

  function HashHex(h: Word): string
  {
    "0x" + EncodeHex(Word32(h))
  }

  lemma FromHexIgnoresCase(s: string, t: string)
    requires EqualFold(s, t)
    ensures FromHex(s) == FromHex(t) && IsHexAddress(s) == IsHexAddress(t)
    ensures HexToAddress(s) == HexToAddress(t)
  {
    StripIgnoresCase(s);
    StripIgnoresCase(t);
    var p, q := Strip(s), Strip(t);
    assert Lower(p) == Lower(q);
    DecodeIgnoresCase(p);
    DecodeIgnoresCase(q);
    if |p| % 2 == 1 {
      assert Lower("0" + p) == "0" + Lower(p) == "0" + Lower(q) == Lower("0" + q);
      DecodeIgnoresCase("0" + p);
      DecodeIgnoresCase("0" + q);
    }
  }

  // The checksum changes nothing but case.
  lemma AddressHexLower(keccak: Bytes -> Word, a: Address)
    ensures EqualFold(AddressHex(keccak, a), "0x" + EncodeHex(ToBytes(a, 20)))
  {
    var digits, s := EncodeHex(ToBytes(a, 20)), AddressHex(keccak, a);
    var plain := "0x" + digits;
    EncodedText(ToBytes(a, 20));
    forall i | 0 <= i < 42
      ensures LowerChar(s[i]) == LowerChar(plain[i])
    {
      if i >= 2 {
        assert Lower(digits)[i - 2] == LowerChar(digits[i - 2]);
        assert LowerChar(UpperChar(digits[i - 2])) == LowerChar(digits[i - 2]);
      }
    }
    assert Lower(s) == Lower(plain);
  }

  /** An address reads back as itself whatever the checksum makes of its letters. */
  lemma AddressHexReadsBack(keccak: Bytes -> Word, a: Address)
    ensures IsHexAddress(AddressHex(keccak, a)) && HexToAddress(AddressHex(keccak, a)) == a
  {
    AddressHexLower(keccak, a);
    FromHexIgnoresCase(AddressHex(keccak, a), "0x" + EncodeHex(ToBytes(a, 20)));
    PlainAddress(a);
  }

  lemma StripPrefixed(digits: string)
    ensures Strip("0x" + digits) == digits
  {
  }

  /** Prefixed hexadecimal text reads back as its bytes. */
  lemma TextReadsBack(b: Bytes)
    ensures FromHex("0x" + EncodeHex(b)) == b
  {
    var digits := EncodeHex(b);
    StripPrefixed(digits);
    assert |digits| % 2 == 0;
    assert FromHex("0x" + digits) == DecodePairs(digits);
    DecodeInvertsEncode(b);
  }

  lemma PlainAddress(a: Address)
    ensures var plain := "0x" + EncodeHex(ToBytes(a, 20)); IsHexAddress(plain) && HexToAddress(plain) == a
  {
    EncodedText(ToBytes(a, 20));
    StripPrefixed(EncodeHex(ToBytes(a, 20)));
    TextReadsBack(ToBytes(a, 20));
    Address20RoundTrip(a);
  }

  lemma HashHexReadsBack(h: Word)
    ensures HexToHash(HashHex(h)) == h
  {
    HashTextReadsBack(Word32(h), h);
  }

  lemma HashTextReadsBack(b: Bytes, h: Word)
    requires b == Word32(h)
    ensures HexToHash("0x" + EncodeHex(b)) == h
  {
    TextReadsBack(b);
    Word32RoundTrip(h);
    SmallMod(h, UINT256);
  }

  /** Two hashes whose text agrees up to case are equal. */
  lemma HashHexInjective(g: Word, h: Word)
    requires EqualFold(HashHex(g), HashHex(h))
    ensures g == h
  {
    FromHexIgnoresCase(HashHex(g), HashHex(h));
    HashHexReadsBack(g);
    HashHexReadsBack(h);
  }

  /** The 20-byte value of a valid address, left-padded, is its ABI word. */
  lemma AddressTextIsNarrow(s: string)
    requires IsHexAddress(s)
    ensures FromBytes(FromHex(s)) < UINT160 && HexToAddress(s) == FromBytes(FromHex(s))
    ensures ToBytes(HexToAddress(s), 20) == FromHex(s)
  {
    FromAddress20(FromHex(s));
  }

  /** Text that denotes an address, prefix included. */
  predicate Spells(s: string, a: Address)
  {
    HasPrefix(s) && IsHexAddress(s) && HexToAddress(s) == a
  }

  lemma SpeltLower(s: string, a: Address)
    requires Spells(s, a)
    ensures EqualFold(s, "0x" + EncodeHex(ToBytes(a, 20)))
  {
    var t, plain := Strip(s), "0x" + EncodeHex(ToBytes(a, 20));
    AddressTextIsNarrow(s);
    assert FromHex(s) == DecodePairs(t);
    EncodeInvertsDecode(t);
    EncodedText(ToBytes(a, 20));
    assert s == s[..2] + t;
    assert Lower(s) == Lower(s[..2]) + Lower(t);
    assert Lower(plain) == "0x" + Lower(EncodeHex(ToBytes(a, 20)));
  }

  /** Text agrees with an address's checksummed text up to case exactly when it spells that address. */
  lemma AddressTextUpToCase(keccak: Bytes -> Word, s: string, a: Address)
    ensures EqualFold(AddressHex(keccak, a), s) <==> Spells(s, a)
  {
    AddressHexLower(keccak, a);
    if EqualFold(AddressHex(keccak, a), s) {
      AddressHexReadsBack(keccak, a);
      FromHexIgnoresCase(AddressHex(keccak, a), s);
      assert LowerChar(s[0]) == Lower(s)[0] == Lower(AddressHex(keccak, a))[0] == '0';
      assert LowerChar(s[1]) == Lower(s)[1] == Lower(AddressHex(keccak, a))[1] == 'x';
    } else if Spells(s, a) {
      SpeltLower(s, a);
    }
  }
}
