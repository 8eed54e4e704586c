/** Byte strings, big-endian numbers and the 32-byte words that Solidity's ABI,
    go-ethereum and viem all build their preimages from. */
module Bytes {

  const UINT256: nat := 0x1_0000000000000000_0000000000000000_0000000000000000_0000000000000000
  const UINT160: nat := 0x1_0000000000000000_0000000000000000_00000000
  const UINT64: nat := 0x1_0000000000000000

  type byte = n: int | 0 <= n < 256
  type Bytes = seq<byte>

  // bytes32 values and uint256 values are both read as numbers.
  type Word = n: nat | n < UINT256
  type Address = n: nat | n < UINT160
  type Uint64 = n: nat | n < UINT64
  type Uint8 = n: nat | n < 256

  lemma SmallMod(n: nat, m: nat)
    requires n < m
    ensures n % m == n
  {
  }

  /** 256 to the power k. */
  function Pow256(k: nat): (p: nat)
    ensures p >= 1
  {
    if k == 0 then 1 else 256 * Pow256(k - 1)
  }

  lemma {:induction false} Pow256Add(a: nat, b: nat)
    ensures Pow256(a + b) == Pow256(a) * Pow256(b)
  {
    if a > 0 {
      Pow256Add(a - 1, b);
      calc {
        Pow256(a + b);
        256 * Pow256(a - 1 + b);
        256 * (Pow256(a - 1) * Pow256(b));
        (256 * Pow256(a - 1)) * Pow256(b);
        Pow256(a) * Pow256(b);
      }
    }
  }

  lemma Pow256Four()
    ensures Pow256(4) == 0x1_0000_0000
  {
    assert Pow256(2) == 0x1_0000;
  }

  lemma Pow256Values()
    ensures Pow256(32) == UINT256 && Pow256(20) == UINT160 && Pow256(8) == UINT64
  {
    Pow256Four();
    Pow256Add(4, 4);
    Pow256Add(8, 8);
    Pow256Add(16, 4);
    Pow256Add(16, 16);
  }

  /** The k lowest bytes of n, most significant first. */
  function ToBytes(n: nat, k: nat): (b: Bytes)
    ensures |b| == k
  {
    if k == 0 then [] else ToBytes(n / 256, k - 1) + [n % 256]
  }

  /** The number a big-endian byte string denotes. */
  function FromBytes(b: Bytes): nat
  {
    if b == [] then 0 else FromBytes(b[..|b| - 1]) * 256 + b[|b| - 1]
  }

  /** Shortest big-endian form; empty for zero (Go's big.Int.Bytes). */
  function BigEndian(n: nat): Bytes
  {
    if n == 0 then [] else BigEndian(n / 256) + [n % 256]
  }

  function Zeros(k: nat): Bytes
  {
    seq(k, _ => 0)
  }

  /** go-ethereum's LeftPadBytes: never truncates. */
  function LeftPad(b: Bytes, k: nat): Bytes
  {
    if k <= |b| then b else Zeros(k - |b|) + b
  }

  lemma {:induction false} FromBytesInvertsToBytes(n: nat, k: nat)
    requires n < Pow256(k)
    ensures FromBytes(ToBytes(n, k)) == n
  {
    if k > 0 {
      FromBytesInvertsToBytes(n / 256, k - 1);
      assert ToBytes(n, k)[..k - 1] == ToBytes(n / 256, k - 1);
    }
  }

  lemma {:induction false} ToBytesInvertsFromBytes(b: Bytes)
    ensures FromBytes(b) < Pow256(|b|) && ToBytes(FromBytes(b), |b|) == b
  {
    if b != [] {
      var front := b[..|b| - 1];
      ToBytesInvertsFromBytes(front);
      assert FromBytes(b) / 256 == FromBytes(front) && FromBytes(b) % 256 == b[|b| - 1];
      assert front + [b[|b| - 1]] == b;
    }
  }

  lemma {:induction false} BigEndianPads(n: nat, k: nat)
    ensures n < Pow256(k) ==> |BigEndian(n)| <= k && LeftPad(BigEndian(n), k) == ToBytes(n, k)
    ensures n >= Pow256(k) ==> |BigEndian(n)| > k
    decreases k
  {
    if k == 0 {
      assert n >= 1 ==> |BigEndian(n)| >= 1;
    } else {
      BigEndianPads(n / 256, k - 1);
      if n < Pow256(k) {
        assert n / 256 < Pow256(k - 1);
        var rest := LeftPad(BigEndian(n / 256), k - 1);
        if n == 0 {
          assert rest + [n % 256] == Zeros(k);
        } else {
          assert LeftPad(BigEndian(n), k) == rest + [n % 256];
        }
      }
    }
  }

  /** The 32-byte ABI word of a number. */
  function Word32(n: Word): (b: Bytes)
    ensures |b| == 32
  {
    ToBytes(n, 32)
  }

  lemma Word32RoundTrip(n: Word)
    ensures FromBytes(Word32(n)) == n
  {
    Pow256Values();
    FromBytesInvertsToBytes(n, 32);
  }

  lemma FromWord32(b: Bytes)
    requires |b| == 32
    ensures FromBytes(b) < UINT256 && Word32(FromBytes(b)) == b
  {
    Pow256Values();
    ToBytesInvertsFromBytes(b);
  }

  /** The 20 bytes of an address, both ways. */
  lemma Address20RoundTrip(a: Address)
    ensures FromBytes(ToBytes(a, 20)) == a
  {
    Pow256Values();
    FromBytesInvertsToBytes(a, 20);
  }

  lemma FromAddress20(b: Bytes)
    requires |b| == 20
    ensures FromBytes(b) < UINT160 && ToBytes(FromBytes(b), 20) == b
  {
    Pow256Values();
    ToBytesInvertsFromBytes(b);
  }

  /** ABI encoding of a tuple of static values: its words, one after the other. */
  function Words(ws: seq<Word>): (b: Bytes)
    ensures |b| == 32 * |ws|
  {
    if ws == [] then [] else Word32(ws[0]) + Words(ws[1..])
  }

  /** The i-th 32-byte slice of a byte string. */
  function Slice32(b: Bytes, i: nat): (w: Bytes)
    requires 32 * (i + 1) <= |b|
    ensures |w| == 32
  {
    b[32 * i..32 * (i + 1)]
  }

  lemma {:induction false} WordAt(ws: seq<Word>, tail: Bytes, i: nat)
    requires i < |ws|
    ensures Slice32(Words(ws) + tail, i) == Word32(ws[i])
    ensures FromBytes(Slice32(Words(ws) + tail, i)) == ws[i]
    decreases i
  {
    Word32RoundTrip(ws[i]);
    assert Words(ws) + tail == Word32(ws[0]) + (Words(ws[1..]) + tail);
    if i > 0 {
      WordAt(ws[1..], tail, i - 1);
      assert Slice32(Words(ws) + tail, i) == Slice32(Words(ws[1..]) + tail, i - 1);
    }
  }

  /** Static ABI encodings determine both the values and their number. */
  lemma WordsInjective(a: seq<Word>, b: seq<Word>)
    requires Words(a) == Words(b)
    ensures a == b
  {
    forall i | 0 <= i < |a|
      ensures a[i] == b[i]
    {
      WordAt(a, [], i);
      WordAt(b, [], i);
    }
  }

  lemma {:induction false} WordsAppend(a: seq<Word>, b: seq<Word>)
    ensures Words(a + b) == Words(a) + Words(b)
  {
    if a == [] {
      assert a + b == b;
    } else {
      WordsAppend(a[1..], b);
      assert (a + b)[1..] == a[1..] + b;
    }
  }

  /** go-ethereum's word for a big.Int: left-padded, longer than a word when the number is. */
  function UintWord(n: nat): Bytes
  {
    LeftPad(BigEndian(n), 32)
  }

  lemma UintWordIsWord(n: nat)
    ensures n < UINT256 ==> UintWord(n) == Word32(n)
    ensures n >= UINT256 ==> |UintWord(n)| > 32
    ensures |UintWord(n)| >= 32
  {
    Pow256Values();
    BigEndianPads(n, 32);
  }

  /** The concatenation Go feeds to Keccak when every item is UintWord of a number. */
  function GoWords(ns: seq<nat>): Bytes
  {
    if ns == [] then [] else UintWord(ns[0]) + GoWords(ns[1..])
  }

  /** Every number fits a uint256. */
  predicate Narrow(ns: seq<nat>)
  {
    forall i :: 0 <= i < |ns| ==> ns[i] < UINT256
  }

  /** Go's bytes are never shorter than the ABI's, and longer exactly when some number needs over 256 bits. */
  lemma {:induction false} GoWordsLength(ns: seq<nat>)
    ensures |GoWords(ns)| >= 32 * |ns|
    ensures |GoWords(ns)| == 32 * |ns| <==> Narrow(ns)
  {
    if ns != [] {
      UintWordIsWord(ns[0]);
      GoWordsLength(ns[1..]);
      assert forall i :: 1 <= i < |ns| ==> ns[i] == ns[1..][i - 1];
    }
  }

  /** In range, Go's concatenation is the ABI encoding. */
  lemma {:induction false} GoWordsAreWords(ws: seq<Word>)
    ensures GoWords(ws) == Words(ws)
  {
    if ws != [] {
      UintWordIsWord(ws[0]);
      GoWordsAreWords(ws[1..]);
    }
  }

  /** A Go preimage that equals an ABI preimage of as many words carries the same values. */
  lemma GoWordsInjective(ns: seq<nat>, ws: seq<Word>)
    requires |ns| == |ws| && GoWords(ns) == Words(ws)
    ensures ns == ws
  {
    GoWordsLength(ns);
    var narrow: seq<Word> := ns;
    GoWordsAreWords(narrow);
    WordsInjective(narrow, ws);
  }

  /** The bytes of a string of single-byte characters. */
  function Ascii(s: string): (b: Bytes)
    ensures |b| == |s|
  {
    seq(|s|, i requires 0 <= i < |s| => s[i] as int % 256)
  }

  /** Two different preimages with one image under the hash. */
  ghost predicate Collide(hash: Bytes -> Word, x: Bytes, y: Bytes)
  {
    x != y && hash(x) == hash(y)
  }
}
