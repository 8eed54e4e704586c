/** ABI encoding and Solidity's decoding of (address[] path, uint256 amountOutMin, uint256 deadline),
    the calldata of the V2 adapter. */
module Abi {
  import opened Bytes
  import opened Wrappers

  datatype V2Route = V2Route(path: seq<Address>, amountOutMin: Word, deadline: Word)

  /** Three head words, then the array's length and its elements. */
  function RouteWords(r: V2Route): seq<Word>
    requires |r.path| < UINT256
  {
    [96, r.amountOutMin, r.deadline, |r.path|] + AsWords(r.path)
  }

  function AsWords(path: seq<Address>): (ws: seq<Word>)
    ensures |ws| == |path| && forall i :: 0 <= i < |path| ==> ws[i] == path[i]
  {
    seq(|path|, i requires 0 <= i < |path| => path[i] as Word)
  }

  function EncodeRoute(r: V2Route): Bytes
    requires |r.path| < UINT256
  {
    Words(RouteWords(r))
  }

  /** The word that starts at any byte, aligned or not. */
  function ReadWord(data: Bytes, at: nat): Word
    requires at + 32 <= |data|
  {
    FromWord32(data[at..at + 32]);
    FromBytes(data[at..at + 32])
  }

  /** n addresses from `at` on; dirty high bytes make Solidity revert. */
  function ReadAddresses(data: Bytes, at: nat, n: nat): (r: Option<seq<Address>>)
    requires at + 32 * n <= |data|
    ensures r.Some? ==> |r.value| == n
    decreases n
  {
    if n == 0 then Some([])
    else if ReadWord(data, at) >= UINT160 then None
    else match ReadAddresses(data, at + 32, n - 1)
      case None => None
      case Some(rest) => Some([ReadWord(data, at) as Address] + rest)
  }

  /** Solidity's abi.decode, with every check that can make it revert. */
  function DecodeRoute(data: Bytes): Option<V2Route>
  {
    if |data| < 96 then None
    else
      var offset := ReadWord(data, 0);
      if offset >= UINT64 || offset + 32 > |data| then None
      else
        var length := ReadWord(data, offset);
        if length >= UINT64 || offset + 32 + 32 * length > |data| then None
        else match ReadAddresses(data, offset + 32, length)
          case None => None
          case Some(path) => Some(V2Route(path, ReadWord(data, 32), ReadWord(data, 64)))
  }

  lemma ReadIsSlice(data: Bytes, i: nat)
    requires 32 * (i + 1) <= |data|
    ensures ReadWord(data, 32 * i) == FromBytes(Slice32(data, i))
  {
  }

  lemma ReadWordAt(ws: seq<Word>, i: nat)
    requires i < |ws|
    ensures ReadWord(Words(ws), 32 * i) == ws[i]
  {
    ReadIsSlice(Words(ws), i);
    Unpadded(ws, i);
  }

  lemma Unpadded(ws: seq<Word>, i: nat)
    requires i < |ws|
    ensures FromBytes(Slice32(Words(ws), i)) == ws[i]
  {
    NoTail(Words(ws));
    WordWithin(Words(ws), ws, [], i);
  }

  lemma NoTail(b: Bytes)
    ensures b == b + []
  {
  }

  lemma WordWithin(data: Bytes, ws: seq<Word>, tail: Bytes, i: nat)
    requires i < |ws| && data == Words(ws) + tail
    ensures FromBytes(Slice32(data, i)) == ws[i]
  {
    WordAt(ws, tail, i);
  }

  lemma {:induction false} ReadAddressesAt(ws: seq<Word>, i: nat, path: seq<Address>)
    requires i <= |ws| && ws[i..] == AsWords(path)
    ensures ReadAddresses(Words(ws), 32 * i, |path|) == Some(path)
    decreases |path|
  {
    if path != [] {
      ReadWordAt(ws, i);
      assert ws[i] == ws[i..][0] == path[0];
      assert ws[i + 1..] == AsWords(path[1..]);
      ReadAddressesAt(ws, i + 1, path[1..]);
      assert [path[0]] + path[1..] == path;
    }
  }

  /** Decoding inverts encoding for every path whose length the decoder admits, and only for those. */
  lemma RouteRoundTrip(r: V2Route)
    requires |r.path| < UINT256
    ensures DecodeRoute(EncodeRoute(r)) == if |r.path| < UINT64 then Some(r) else None
  {
    var ws := RouteWords(r);
    ReadWordAt(ws, 0);
    ReadWordAt(ws, 1);
    ReadWordAt(ws, 2);
    ReadWordAt(ws, 3);
    assert ws[4..] == AsWords(r.path);
    if |r.path| < UINT64 {
      ReadAddressesAt(ws, 4, r.path);
    }
  }

  /** Two routes with one encoding are one route. */
  lemma EncodeRouteInjective(r: V2Route, q: V2Route)
    requires |r.path| < UINT256 && |q.path| < UINT256
    requires EncodeRoute(r) == EncodeRoute(q)
    ensures r == q
  {
    WordsInjective(RouteWords(r), RouteWords(q));
    var ws, vs := RouteWords(r), RouteWords(q);
    assert ws[1] == vs[1] && ws[2] == vs[2] && ws[3] == vs[3];
    assert forall i :: 0 <= i < |r.path| ==> r.path[i] == ws[i + 4] && q.path[i] == vs[i + 4];
    assert r.path == q.path;
  }
}
