/**
 The validator's CBOR decoder: definite-length unsigned integers, byte strings, text strings, arrays
 and maps with text keys (major types 0, 2, 3, 4 and 5 of section 3 of RFC 8949). Lengths are uint64.
 */
module Cbor {
  import opened Prelude

  type byte = x: int | 0 <= x < 256

  /** Text is kept as its bytes. */
  datatype Value =
    | Uint(n: nat)
    | Bytes(b: seq<byte>)
    | Text(s: seq<byte>)
    | List(items: seq<Value>)
    | Dict(entries: map<seq<byte>, Value>)

  datatype Error =
    | Truncated | TruncatedLength | ReservedLength | TruncatedBytes | TruncatedText
    | NonTextKey | UnsupportedMajor(major: nat) | TrailingBytes

  datatype Head = Head(major: nat, n: nat, rest: seq<byte>)

  const TWO64: nat := 0x1_0000_0000_0000_0000

  // ---------- decoding ----------

  function BigEndian(b: seq<byte>): nat {
    if b == [] then 0 else BigEndian(b[..|b| - 1]) * 256 + b[|b| - 1]
  }

  /** Bytes of length that follow the initial byte, for additional information 24 to 27. */
  function Follow(info: nat): nat
    requires 24 <= info <= 27
  {
    if info == 24 then 1 else if info == 25 then 2 else if info == 26 then 4 else 8
  }

  function ReadHead(b: seq<byte>): (r: Result<Head, Error>)
    ensures r.Ok? ==> |r.value.rest| < |b| && r.value.rest == b[|b| - |r.value.rest|..] && r.value.major < 8
  {
    if b == [] then Err(Truncated) else
      var major, info, rest := b[0] / 32, b[0] % 32, b[1..];
      if info < 24 then Ok(Head(major, info, rest))
      else if info > 27 then Err(ReservedLength)
      else if |rest| < Follow(info) then Err(TruncatedLength)
      else Ok(Head(major, BigEndian(rest[..Follow(info)]), rest[Follow(info)..]))
  }

  /** One data item from the front of b, with the bytes after it. */
  function Item(b: seq<byte>): (r: Result<(Value, seq<byte>), Error>)
    ensures r.Ok? ==> |r.value.1| < |b|
    decreases |b|, 0
  {
    match ReadHead(b)
    case Err(e) => Err(e)
    case Ok(Head(major, n, rest)) =>
      if major == 0 then Ok((Uint(n), rest))
      else if major == 2 then if |rest| < n then Err(TruncatedBytes) else Ok((Bytes(rest[..n]), rest[n..]))
      else if major == 3 then if |rest| < n then Err(TruncatedText) else Ok((Text(rest[..n]), rest[n..]))
      else if major == 4 then
        match Items(rest, n)
        case Err(e) => Err(e)
        case Ok((items, tail)) => Ok((List(items), tail))
      else if major == 5 then
        match Entries(rest, n, map[])
        case Err(e) => Err(e)
        case Ok((entries, tail)) => Ok((Dict(entries), tail))
      else Err(UnsupportedMajor(major))
  }

  function Prepend(out: seq<Value>, r: Result<(seq<Value>, seq<byte>), Error>): Result<(seq<Value>, seq<byte>), Error> {
    match r
    case Err(e) => Err(e)
    case Ok((vs, tail)) => Ok((out + vs, tail))
  }

  function Items(b: seq<byte>, n: nat): (r: Result<(seq<Value>, seq<byte>), Error>)
    ensures r.Ok? ==> |r.value.1| <= |b|
    decreases |b|, 1
  {
    if n == 0 then Ok(([], b)) else
      match Item(b)
      case Err(e) => Err(e)
      case Ok((v, rest)) => Prepend([v], Items(rest, n - 1))
  }

  /** One map entry: a key, which must be text, and its value. */
  function Pair(b: seq<byte>): (r: Result<(seq<byte>, Value, seq<byte>), Error>)
    ensures r.Ok? ==> |r.value.2| < |b|
    decreases |b|, 1
  {
    match Item(b)
    case Err(e) => Err(e)
    case Ok((k, rest)) =>
      if !k.Text? then Err(NonTextKey) else
        match Item(rest)
        case Err(e) => Err(e)
        case Ok((v, tail)) => Ok((k.s, v, tail))
  }

  /** n entries added to `acc`; a repeated key keeps its last value. */
  function Entries(b: seq<byte>, n: nat, acc: map<seq<byte>, Value>): (r: Result<(map<seq<byte>, Value>, seq<byte>), Error>)
    ensures r.Ok? ==> |r.value.1| <= |b|
    decreases |b|, 2
  {
    if n == 0 then Ok((acc, b)) else
      match Pair(b)
      case Err(e) => Err(e)
      case Ok((k, v, tail)) => Entries(tail, n - 1, acc[k := v])
  }

  function Decode(b: seq<byte>): Result<Value, Error> {
    match Item(b)
    case Err(e) => Err(e)
    case Ok((v, rest)) => if rest != [] then Err(TrailingBytes) else Ok(v)
  }

  // ---------- the decoder's loops ----------

  lemma {:induction false} BigEndianBound(b: seq<byte>)
    ensures BigEndian(b) < Pow2(8 * |b|)
  {
    if b != [] {
      BigEndianBound(b[..|b| - 1]);
      var n := 8 * (|b| - 1);
      assert Pow2(n + 2) == 4 * Pow2(n);
      assert Pow2(n + 4) == 16 * Pow2(n);
      assert Pow2(n + 6) == 64 * Pow2(n);
      assert Pow2(n + 8) == 256 * Pow2(n);
    }
  }

  lemma PowBelow64(n: nat)
    requires n <= 56
    ensures 256 * Pow2(n) <= TWO64
  {
    PowMonotone(n, 56);
    assert Pow2(7) == 128;
    PowAdd(7, 7);
    assert Pow2(14) == 0x4000;
    PowAdd(14, 14);
    assert Pow2(28) == 0x1000_0000;
    PowAdd(28, 28);
  }

  /** The length loop shifts within a uint64 and never wraps. */
  method CborHead(b: seq<byte>) returns (r: Result<Head, Error>)
    ensures r == ReadHead(b)
  {
    if |b| == 0 { return Err(Truncated); }
    var major, info, rest := b[0] / 32, b[0] % 32, b[1..];
    if info < 24 { return Ok(Head(major, info, rest)); }
    if info > 27 { return Err(ReservedLength); }
    var n := if info == 24 then 1 else if info == 25 then 2 else if info == 26 then 4 else 8;
    if |rest| < n { return Err(TruncatedLength); }
    var length: nat := 0;
    for i := 0 to n
      invariant length == BigEndian(rest[..i])
    {
      BigEndianBound(rest[..i]);
      PowBelow64(8 * i);
      assert rest[..i + 1][..i] == rest[..i];
      length := (length * 256) % TWO64 + rest[i];
    }
    return Ok(Head(major, length, rest[n..]));
  }

  lemma PrependNil(r: Result<(seq<Value>, seq<byte>), Error>)
    ensures Prepend([], r) == r
  {
    if r.Ok? { assert [] + r.value.0 == r.value.0; }
  }

  lemma PrependSnoc(out: seq<Value>, v: Value, r: Result<(seq<Value>, seq<byte>), Error>)
    ensures Prepend(out, Prepend([v], r)) == Prepend(out + [v], r)
  {
    if r.Ok? { assert out + ([v] + r.value.0) == (out + [v]) + r.value.0; }
  }

  /** Decodes one item; `calls` counts the items it looked at, at most one per byte and one that fails. */
  method CborItem(b: seq<byte>) returns (r: Result<(Value, seq<byte>), Error>, ghost calls: nat)
    ensures r == Item(b)
    ensures if r.Ok? then calls <= |b| - |r.value.1| else calls <= |b| + 1
    decreases |b|, 0
  {
    calls := 1;
    var head := CborHead(b);
    if head.Err? { return Err(head.error), calls; }
    var Head(major, n, rest) := head.value;
    if major == 0 { return Ok((Uint(n), rest)), calls; }
    if major == 2 {
      if |rest| < n { return Err(TruncatedBytes), calls; }
      return Ok((Bytes(rest[..n]), rest[n..])), calls;
    }
    if major == 3 {
      if |rest| < n { return Err(TruncatedText), calls; }
      return Ok((Text(rest[..n]), rest[n..])), calls;
    }
    if major == 4 {
      r, calls := CborArray(rest, n);
      return r, calls + 1;
    }
    if major == 5 {
      r, calls := CborMap(rest, n);
      return r, calls + 1;
    }
    return Err(UnsupportedMajor(major)), calls;
  }

  /** The array loop: it ends within |b| + 1 rounds even when the declared count is near 2^64. */
  method CborArray(b: seq<byte>, n: nat) returns (r: Result<(Value, seq<byte>), Error>, ghost calls: nat)
    ensures r == match Items(b, n) case Err(e) => Err(e) case Ok((items, tail)) => Ok((List(items), tail))
    ensures if r.Ok? then calls <= |b| - |r.value.1| else calls <= |b| + 1
    decreases |b|, 1
  {
    var out: seq<Value>, rest, i := [], b, 0;
    PrependNil(Items(b, n));
    calls := 0;
    while i < n
      invariant 0 <= i <= n && |rest| <= |b|
      invariant Items(b, n) == Prepend(out, Items(rest, n - i))
      invariant calls <= |b| - |rest| && i <= |b| - |rest|
    {
      var item, more := CborItem(rest);
      calls := calls + more;
      if item.Err? { return Err(item.error), calls; }
      PrependSnoc(out, item.value.0, Items(item.value.1, n - i - 1));
      out := out + [item.value.0];
      rest := item.value.1;
      i := i + 1;
    }
    assert out + [] == out;
    return Ok((List(out), rest)), calls;
  }

  method CborPair(b: seq<byte>) returns (r: Result<(seq<byte>, Value, seq<byte>), Error>, ghost calls: nat)
    ensures r == Pair(b)
    ensures if r.Ok? then calls <= |b| - |r.value.2| else calls <= |b| + 1
    decreases |b|, 1
  {
    var key, more := CborItem(b);
    calls := more;
    if key.Err? { return Err(key.error), calls; }
    if !key.value.0.Text? { return Err(NonTextKey), calls; }
    var value, evenMore := CborItem(key.value.1);
    calls := calls + evenMore;
    if value.Err? { return Err(value.error), calls; }
    return Ok((key.value.0.s, value.value.0, value.value.1)), calls;
  }

  method CborMap(b: seq<byte>, n: nat) returns (r: Result<(Value, seq<byte>), Error>, ghost calls: nat)
    ensures r == match Entries(b, n, map[]) case Err(e) => Err(e) case Ok((entries, tail)) => Ok((Dict(entries), tail))
    ensures if r.Ok? then calls <= |b| - |r.value.1| else calls <= |b| + 1
    decreases |b|, 2
  {
    var out: map<seq<byte>, Value>, rest, i := map[], b, 0;
    calls := 0;
    while i < n
      invariant 0 <= i <= n && |rest| <= |b|
      invariant Entries(b, n, map[]) == Entries(rest, n - i, out)
      invariant calls <= |b| - |rest| && i <= |b| - |rest|
    {
      var pair, more := CborPair(rest);
      calls := calls + more;
      if pair.Err? { return Err(pair.error), calls; }
      out := out[pair.value.0 := pair.value.1];
      rest := pair.value.2;
      i := i + 1;
    }
    return Ok((Dict(out), rest)), calls;
  }

  method CborDecode(b: seq<byte>) returns (r: Result<Value, Error>)
    ensures r == Decode(b)
  {
    var item, _ := CborItem(b);
    if item.Err? { return Err(item.error); }
    if item.value.1 != [] { return Err(TrailingBytes); }
    return Ok(item.value.0);
  }
}
