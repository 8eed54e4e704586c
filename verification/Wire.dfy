/** Hex and bytes32 identifiers on the wire, and the dispatch table keyed by them. Text is taken as its
    UTF-8 bytes. */
module Wire {
  import opened Bytes
  import opened Hex
  import opened Wrappers

  datatype WireError = OddLength | NotHex | TooLong

  // ---------------------------------------------------------------- encodings

  /** Decodes hexadecimal with or without prefix; an absent value and an empty one are no bytes. */
  function HexToBytes(h: Option<string>): Result<Bytes, WireError>
  {
    match h
    case None => Ok([])
    case Some(text) =>
      var s := Strip(text);
      if s == "" then Ok([])
      else if |s| % 2 != 0 then Err(OddLength)
      else if !AllHex(s) then Err(NotHex)
      else Ok(DecodePairs(s))
  }

  function BytesToHex(b: Bytes): string
  {
    "0x" + EncodeHex(b)
  }

  function Padded(name: Bytes): (b: Bytes)
    requires |name| <= 32
    ensures |b| == 32
  {
    name + Zeros(32 - |name|)
  }

  function ToBytes32Hex(name: Bytes): Result<string, WireError>
  {
    if |name| > 32 then Err(TooLong) else Ok(BytesToHex(Padded(name)))
  }

  // Without its trailing NULs.
  function Trim(b: Bytes): Bytes
  {
    if b != [] && b[|b| - 1] == 0 then Trim(b[..|b| - 1]) else b
  }

  /** Back to a name, for logging; malformed text is the empty name. */
  function FromBytes32Hex(h: Option<string>): Bytes
  {
    match HexToBytes(h)
    case Ok(b) => Trim(b)
    case Err(_) => []
  }

  predicate Clean(name: Bytes)
  {
    name == [] || name[|name| - 1] != 0
  }

  /** Decoding inverts encoding; encoding inverts decoding up to case and prefix; and decoding fails exactly
      on an odd number of digits or on something that is no digit. */
  lemma HexRoundTrips(b: Bytes, text: string)
    ensures HexToBytes(Some(BytesToHex(b))) == Ok(b)
    ensures HexToBytes(Some(text)).Ok? <==> |Strip(text)| % 2 == 0 && AllHex(Strip(text))
    ensures HexToBytes(Some(text)).Ok? ==> BytesToHex(HexToBytes(Some(text)).value) == "0x" + Lower(Strip(text))
  {
    StripPrefixed(EncodeHex(b));
    EncodedText(b);
    DecodeInvertsEncode(b);
    if HexToBytes(Some(text)).Ok? {
      EncodeInvertsDecode(Strip(text));
    }
  }

  lemma {:induction false} TrimZeros(b: Bytes, name: Bytes, k: nat)
    requires b == name + Zeros(k)
    ensures Trim(b) == Trim(name)
    decreases k
  {
    if k == 0 {
      assert b == name;
    } else {
      TrimZeros(b[..|b| - 1], name, k - 1);
    }
  }

  lemma {:induction false} TrimClean(b: Bytes)
    ensures Clean(Trim(b)) && (Trim(b) == b <==> Clean(b)) && |Trim(b)| <= |b|
  {
    if b != [] && b[|b| - 1] == 0 {
      TrimClean(b[..|b| - 1]);
    }
  }

  lemma TrimPadded(name: Bytes)
    requires |name| <= 32
    ensures Trim(Padded(name)) == Trim(name)
  {
    TrimZeros(Padded(name), name, 32 - |name|);
  }

  lemma WireReads(b: Bytes)
    ensures FromBytes32Hex(Some(BytesToHex(b))) == Trim(b)
  {
    HexRoundTrips(b, "");
  }

  /** A name of at most 32 bytes survives the wire exactly when it does not end in NUL; otherwise it loses
      those NULs and nothing else. */
  lemma NameRoundTrip(name: Bytes)
    requires |name| <= 32
    ensures FromBytes32Hex(Some(ToBytes32Hex(name).value)) == Trim(name)
    ensures FromBytes32Hex(Some(ToBytes32Hex(name).value)) == name <==> Clean(name)
  {
    WireReads(Padded(name));
    TrimPadded(name);
    TrimClean(name);
  }

  /** Two names share a wire form exactly when they differ at most in trailing NULs. */
  lemma WireInjective(a: Bytes, b: Bytes)
    requires |a| <= 32 && |b| <= 32
    ensures ToBytes32Hex(a) == ToBytes32Hex(b) <==> Trim(a) == Trim(b)
  {
    NameRoundTrip(a);
    NameRoundTrip(b);
    if Trim(a) == Trim(b) {
      PaddedTrim(a);
      PaddedTrim(b);
    }
  }

  lemma {:induction false} PaddedTrim(a: Bytes)
    requires |a| <= 32
    ensures |Trim(a)| <= 32 && Padded(Trim(a)) == Padded(a)
    decreases |a|
  {
    TrimClean(a);
    if a != [] && a[|a| - 1] == 0 {
      var front := a[..|a| - 1];
      PaddedTrim(front);
      assert Padded(front) == Padded(a);
    }
  }

  // ---------------------------------------------------------------- the same, as it runs

  lemma {:induction false} EncodeAppend(b: Bytes, x: byte)
    ensures EncodeHex(b + [x]) == EncodeHex(b) + [HexDigit(x / 16), HexDigit(x % 16)]
  {
    if b == [] {
      assert [] + [x] == [x] && [x][1..] == [];
    } else {
      EncodeAppend(b[1..], x);
      assert (b + [x])[1..] == b[1..] + [x];
    }
  }

  lemma {:induction false} PairAt(s: string, i: nat)
    requires AllHex(s) && 2 * i + 1 < |s|
    ensures i < |DecodePairs(s)| && DecodePairs(s)[i] == 16 * DigitValue(s[2 * i]) + DigitValue(s[2 * i + 1])
    decreases i
  {
    if i > 0 {
      assert AllHex(s[2..]) by {
        assert forall k :: 0 <= k < |s[2..]| ==> s[2..][k] == s[k + 2];
      }
      PairAt(s[2..], i - 1);
    }
  }

  method DecodeText(h: Option<string>) returns (r: Result<Bytes, WireError>)
    ensures r == HexToBytes(h)
  {
    if h.None? {
      return Ok([]);
    }
    var s := h.value;
    if HasPrefix(s) {
      s := s[2..];
    }
    if |s| == 0 {
      return Ok([]);
    }
    if |s| % 2 != 0 {
      return Err(OddLength);
    }
    if exists k :: 0 <= k < |s| && !IsHexDigit(s[k]) {
      return Err(NotHex);
    }
    var out := new byte[|s| / 2](_ => 0);
    for i := 0 to out.Length
      invariant forall k :: 0 <= k < i ==> k < |DecodePairs(s)| && out[k] == DecodePairs(s)[k]
    {
      PairAt(s, i);
      out[i] := 16 * DigitValue(s[2 * i]) + DigitValue(s[2 * i + 1]);
    }
    assert out[..] == DecodePairs(s);
    r := Ok(out[..]);
  }

  method EncodeBytes(b: Bytes) returns (s: string)
    ensures s == BytesToHex(b)
  {
    s := "0x";
    assert b[..0] == [];
    for i := 0 to |b|
      invariant s == "0x" + EncodeHex(b[..i])
    {
      EncodeAppend(b[..i], b[i]);
      assert b[..i] + [b[i]] == b[..i + 1];
      s := s + [HexDigit(b[i] / 16), HexDigit(b[i] % 16)];
    }
    assert b[..|b|] == b;
  }

  method EncodeName(name: Bytes) returns (r: Result<string, WireError>)
    ensures r == ToBytes32Hex(name)
  {
    if |name| > 32 {
      return Err(TooLong);
    }
    var padded := new byte[32](_ => 0);
    forall i | 0 <= i < |name| {
      padded[i] := name[i];
    }
    assert padded[..] == Padded(name);
    var text := EncodeBytes(padded[..]);
    r := Ok(text);
  }

  method DecodeName(h: Option<string>) returns (name: Bytes)
    ensures name == FromBytes32Hex(h)
  {
    var decoded := DecodeText(h);
    if decoded.Err? {
      return [];
    }
    var b := decoded.value;
    var end := |b|;
    assert b[..end] == b;
    while end > 0 && b[end - 1] == 0
      invariant 0 <= end <= |b|
      invariant Trim(b[..end]) == Trim(b)
    {
      assert b[..end][..end - 1] == b[..end - 1];
      end := end - 1;
    }
    name := b[..end];
  }

  // ---------------------------------------------------------------- dispatch

  // bytes32 of the empty name
  function EmptyName(): string
  {
    BytesToHex(Padded([]))
  }

  /** Lower case, with the prefix; an empty identifier is the empty name. */
  function Normalize(h: string): string
  {
    if h == "" then EmptyName()
    else
      var lower := Lower(h);
      if |lower| >= 2 && lower[0] == '0' && lower[1] == 'x' then lower else "0x" + lower
  }

  datatype Registration<H> = Registration(opType: string, opCommand: string, handler: H)

  // What handle was called with.
  datatype Named<H> = Named(opType: Bytes, opCommand: Bytes, handler: H)

  function First<H>(table: seq<Registration<H>>, opType: string, opCommand: string): Option<H>
  {
    if table == [] then None
    else if table[0].opType == opType && table[0].opCommand == opCommand then Some(table[0].handler)
    else First(table[1..], opType, opCommand)
  }

  /** Exact match first, then the wildcard. */
  function Find<H>(table: seq<Registration<H>>, opType: string, opCommand: string): Option<H>
  {
    var exact := First(table, Normalize(opType), Normalize(opCommand));
    if exact.Some? then exact else First(table, Normalize(opType), EmptyName())
  }

  /** The first registration under two names, as registered. */
  function FirstNamed<H>(names: seq<Named<H>>, opType: Bytes, opCommand: Bytes): Option<H>
  {
    if names == [] then None
    else if names[0].opType == opType && names[0].opCommand == opCommand then Some(names[0].handler)
    else FirstNamed(names[1..], opType, opCommand)
  }

  predicate WellNamed<H>(n: Named<H>)
  {
    |n.opType| <= 32 && |n.opCommand| <= 32 && Clean(n.opType) && Clean(n.opCommand)
  }

  function Wired<H>(n: Named<H>): Registration<H>
    requires WellNamed(n)
  {
    Registration(ToBytes32Hex(n.opType).value, ToBytes32Hex(n.opCommand).value, n.handler)
  }

  /** A name's wire form in any letter case, with the prefix in any case or without it; the empty name may
      also be left out. */
  predicate Spells(text: string, name: Bytes)
    requires |name| <= 32
  {
    var wire := ToBytes32Hex(name).value;
    || (name == [] && text == "")
    || EqualFold(text, wire)
    || (|text| == 64 && EqualFold("0x" + text, wire))
  }

  lemma WireIsLower(b: Bytes)
    ensures Lower(BytesToHex(b)) == BytesToHex(b)
  {
    var digits, wire := EncodeHex(b), BytesToHex(b);
    EncodedText(b);
    assert forall i :: 2 <= i < |wire| ==> wire[i] == digits[i - 2] && LowerHex(digits[i - 2]);
  }

  /** Digits without the prefix never look as if they had it. */
  lemma BareDigits(text: string, b: Bytes)
    requires |text| >= 2 && EqualFold("0x" + text, BytesToHex(b))
    ensures Lower(text) == EncodeHex(b) && Lower(text)[1] != 'x'
  {
    var digits, prefixed, wire := EncodeHex(b), "0x" + text, BytesToHex(b);
    WireIsLower(b);
    EncodedText(b);
    assert |prefixed| == |wire|;
    forall i | 0 <= i < |text|
      ensures Lower(text)[i] == digits[i]
    {
      assert Lower(prefixed)[i + 2] == LowerChar(prefixed[i + 2]) == LowerChar(text[i]);
      assert wire[i + 2] == digits[i];
    }
    assert LowerHex(digits[1]);
  }

  lemma NormalizesTo(text: string, name: Bytes)
    requires |name| <= 32 && Spells(text, name)
    ensures Normalize(text) == ToBytes32Hex(name).value
  {
    var wire := BytesToHex(Padded(name));
    WireIsLower(Padded(name));
    if text != "" && !EqualFold(text, wire) {
      BareDigits(text, Padded(name));
    }
  }

  lemma {:induction false} FirstByName<H>(names: seq<Named<H>>, table: seq<Registration<H>>, opType: Bytes,
                                          opCommand: Bytes)
    requires |names| == |table| && forall i :: 0 <= i < |names| ==> WellNamed(names[i]) && table[i] == Wired(names[i])
    requires |opType| <= 32 && |opCommand| <= 32 && Clean(opType) && Clean(opCommand)
    ensures First(table, ToBytes32Hex(opType).value, ToBytes32Hex(opCommand).value)
      == FirstNamed(names, opType, opCommand)
  {
    if names != [] {
      var n := names[0];
      FirstByName(names[1..], table[1..], opType, opCommand);
      WireInjective(n.opType, opType);
      WireInjective(n.opCommand, opCommand);
      TrimClean(n.opType);
      TrimClean(n.opCommand);
      TrimClean(opType);
      TrimClean(opCommand);
      assert table[0] == Wired(n);
    }
  }

  /** Whatever names were registered, in whatever spelling their wire forms arrive: the first registration
      of exactly these names answers, else the first of the type under the empty command, else nothing. */
  lemma LookupByName<H>(names: seq<Named<H>>, table: seq<Registration<H>>, opType: Bytes, opCommand: Bytes, t: string,
                        c: string)
    requires |names| == |table| && forall i :: 0 <= i < |names| ==> WellNamed(names[i]) && table[i] == Wired(names[i])
    requires |opType| <= 32 && |opCommand| <= 32 && Clean(opType) && Clean(opCommand)
    requires Spells(t, opType) && Spells(c, opCommand)
    ensures var exact := FirstNamed(names, opType, opCommand);
      Find(table, t, c) == if exact.Some? then exact else FirstNamed(names, opType, [])
  {
    NormalizesTo(t, opType);
    NormalizesTo(c, opCommand);
    FirstByName(names, table, opType, opCommand);
    FirstByName(names, table, opType, []);
  }

  class Framework<H> {
    var handlers: seq<Registration<H>>

    constructor ()
      ensures handlers == []
    {
      handlers := [];
    }

    /** Appends a registration; a name too long changes nothing. */
    method Handle(opType: Bytes, opCommand: Bytes, handler: H) returns (failed: Option<WireError>)
      modifies this
      ensures failed.None? <==> |opType| <= 32 && |opCommand| <= 32
      ensures handlers == old(handlers) + if failed.Some? then []
        else [Registration(ToBytes32Hex(opType).value, ToBytes32Hex(opCommand).value, handler)]
    {
      var t := EncodeName(opType);
      if t.Err? {
        return Some(t.error);
      }
      var c := EncodeName(opCommand);
      if c.Err? {
        return Some(c.error);
      }
      failed := None;
      handlers := handlers + [Registration(t.value, c.value, handler)];
    }

    method Lookup(opType: string, opCommand: string) returns (found: Option<H>)
      ensures found == Find(handlers, opType, opCommand)
    {
      var t, c := Normalize(opType), Normalize(opCommand);
      assert handlers[0..] == handlers;
      for i := 0 to |handlers|
        invariant First(handlers[i..], t, c) == First(handlers, t, c)
      {
        if handlers[i].opType == t && handlers[i].opCommand == c {
          return Some(handlers[i].handler);
        }
        assert handlers[i..][1..] == handlers[i + 1..];
      }
      for i := 0 to |handlers|
        invariant First(handlers[i..], t, EmptyName()) == First(handlers, t, EmptyName())
      {
        if handlers[i].opType == t && handlers[i].opCommand == EmptyName() {
          return Some(handlers[i].handler);
        }
        assert handlers[i..][1..] == handlers[i + 1..];
      }
      found := None;
    }
  }
}
