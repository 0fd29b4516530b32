/**
 The server's geohash decoder and the two device encoders, over exact reals: the bisection points are
 dyadic, so no rounding takes place. The Expo encoder takes the upper half when the coordinate is at
 least the midpoint, the Android encoder only when it is above it.
 */
module Geohash {
  import opened Prelude

  const B32 := "0123456789bcdefghjkmnpqrstuvwxyz"

  /** Character n of the alphabet: the digits, then the letters without a, i, l and o. */
  function Symbol(n: nat): char
    requires n < 32
  {
    if n < 10 then ('0' as int + n) as char
    else if n < 17 then ('b' as int + n - 10) as char
    else if n < 19 then ('j' as int + n - 17) as char
    else if n < 21 then ('m' as int + n - 19) as char
    else ('p' as int + n - 21) as char
  }

  lemma AlphabetIsB32(n: nat)
    requires n < 32
    ensures |B32| == 32 && Symbol(n) == B32[n]
  {}

  lemma SymbolInjective(m: nat, n: nat)
    requires m < 32 && n < 32 && Symbol(m) == Symbol(n)
    ensures m == n
  {}

  /** Position in the alphabet, -1 when absent. */
  function IndexOf(c: char): (i: int)
    ensures -1 <= i < 32
    ensures i >= 0 ==> Symbol(i) == c
    ensures i < 0 ==> forall k: nat :: k < 32 ==> Symbol(k) != c
  {
    if '0' <= c <= '9' then c as int - '0' as int
    else if 'b' <= c <= 'h' then c as int - 'b' as int + 10
    else if 'j' <= c <= 'k' then c as int - 'j' as int + 17
    else if 'm' <= c <= 'n' then c as int - 'm' as int + 19
    else if 'p' <= c <= 'z' then c as int - 'p' as int + 21
    else -1
  }

  predicate InAlphabet(c: char) {
    IndexOf(c) >= 0
  }

  predicate Wellformed(g: string) {
    forall i :: 0 <= i < |g| ==> InAlphabet(g[i])
  }

  // ---------- bisection ----------

  datatype Range = Range(lo: real, hi: real)

  function Mid(r: Range): real {
    (r.lo + r.hi) / 2.0
  }

  function Half(r: Range, upper: bool): Range {
    if upper then Range(Mid(r), r.hi) else Range(r.lo, Mid(r))
  }

  /** `closed` is the `>=` comparison of the Expo encoder, otherwise the `>` of the Android encoder. */
  predicate Above(closed: bool, r: Range, x: real) {
    if closed then x >= Mid(r) else x > Mid(r)
  }

  /** The current cell and which axis is halved next. */
  datatype Cell = Cell(lat: Range, lon: Range, even: bool)

  const World := Cell(Range(-90.0, 90.0), Range(-180.0, 180.0), true)

  function Halve(c: Cell, upper: bool): Cell {
    if c.even then Cell(c.lat, Half(c.lon, upper), false) else Cell(Half(c.lat, upper), c.lon, true)
  }

  // ---------- the decoder ----------

  /** Bit k of n, as a shift and a mask give it. */
  predicate BitAt(n: nat, k: nat) {
    n / Pow2(k) % 2 == 1
  }

  /** The cell after using the k most significant of the five bits of character number ci. */
  function Take(c: Cell, ci: nat, k: nat): Cell
    requires k <= 5
    decreases k, ci
  {
    if k == 0 then c else Halve(Take(c, ci, k - 1), BitAt(ci, 5 - k))
  }

  function CellOf(g: string): Cell
    requires Wellformed(g)
  {
    if g == "" then World else Take(CellOf(g[..|g| - 1]), IndexOf(g[|g| - 1]), 5)
  }

  function Centroid(g: string): (real, real)
    requires Wellformed(g)
  {
    (Mid(CellOf(g).lat), Mid(CellOf(g).lon))
  }

  lemma CellMore(g: string, i: nat)
    requires i < |g| && Wellformed(g[..i]) && InAlphabet(g[i])
    ensures Wellformed(g[..i + 1])
    ensures CellOf(g[..i + 1]) == Take(CellOf(g[..i]), IndexOf(g[i]), 5)
  {
    assert g[..i + 1][..i] == g[..i];
  }

  /** The server's decoder: two range arrays halved bit by bit; false and (0, 0) on malformed input. */
  method GeohashCentroid(g: string) returns (lat: real, lon: real, ok: bool)
    ensures ok <==> Wellformed(g) && g != ""
    ensures ok ==> (lat, lon) == Centroid(g)
    ensures !ok ==> lat == 0.0 && lon == 0.0
  {
    var latR := new real[] [-90.0, 90.0];
    var lonR := new real[] [-180.0, 180.0];
    var even := true;
    var i := 0;
    while i < |g|
      invariant 0 <= i <= |g|
      invariant Wellformed(g[..i])
      invariant Cell(Range(latR[0], latR[1]), Range(lonR[0], lonR[1]), even) == CellOf(g[..i])
    {
      var ci := IndexOf(g[i]);
      if ci < 0 {
        assert !InAlphabet(g[i]);
        return 0.0, 0.0, false;
      }
      ghost var start := CellOf(g[..i]);
      var bit := 4;
      while bit >= 0
        invariant -1 <= bit <= 4
        invariant Cell(Range(latR[0], latR[1]), Range(lonR[0], lonR[1]), even) == Take(start, ci, 4 - bit)
      {
        var hi := BitAt(ci, bit);
        ghost var c := Take(start, ci, 4 - bit);
        if even {
          if hi { lonR[0] := (lonR[0] + lonR[1]) / 2.0; } else { lonR[1] := (lonR[0] + lonR[1]) / 2.0; }
        } else {
          if hi { latR[0] := (latR[0] + latR[1]) / 2.0; } else { latR[1] := (latR[0] + latR[1]) / 2.0; }
        }
        even := !even;
        assert Cell(Range(latR[0], latR[1]), Range(lonR[0], lonR[1]), even) == Halve(c, hi);
        bit := bit - 1;
      }
      CellMore(g, i);
      i := i + 1;
    }
    assert g[..|g|] == g;
    return (latR[0] + latR[1]) / 2.0, (lonR[0] + lonR[1]) / 2.0, |g| > 0;
  }

  // ---------- the encoders ----------

  /** Which half a point falls in, on the axis the cell halves next. */
  predicate Bit(closed: bool, c: Cell, lat: real, lon: real) {
    if c.even then Above(closed, c.lon, lon) else Above(closed, c.lat, lat)
  }

  /** The cell an encoder has narrowed a point down to after n halvings. */
  function Locate(closed: bool, lat: real, lon: real, n: nat): Cell
    decreases n
  {
    if n == 0 then World else
      var c := Locate(closed, lat, lon, n - 1);
      Halve(c, Bit(closed, c, lat, lon))
  }

  /** Halving decision n. */
  predicate Decision(closed: bool, lat: real, lon: real, n: nat) {
    Bit(closed, Locate(closed, lat, lon, n), lat, lon)
  }

  function Decisions(closed: bool, lat: real, lon: real): nat -> bool {
    (n: nat) => Decision(closed, lat, lon, n)
  }

  /** The number whose binary digits are bits n to n + k - 1 of d. */
  function Digit(d: nat -> bool, n: nat, k: nat): (number: nat)
    ensures number < Pow2(k)
    decreases k, n
  {
    if k == 0 then 0 else 2 * Digit(d, n, k - 1) + if d(n + k - 1) then 1 else 0
  }

  function Letter(d: nat -> bool, n: nat): char {
    assert Pow2(5) == 32;
    Symbol(Digit(d, n, 5))
  }

  /** s is the bit stream d written five bits a character. */
  ghost predicate Spells(d: nat -> bool, s: string) {
    forall i :: 0 <= i < |s| ==> s[i] == Letter(d, 5 * i)
  }

  function Encode(closed: bool, lat: real, lon: real, precision: nat): (s: string)
    ensures |s| == precision
    ensures Spells(Decisions(closed, lat, lon), s)
  {
    seq(precision, i requires 0 <= i < precision => Letter(Decisions(closed, lat, lon), 5 * i))
  }

  function Positive(precision: int): nat {
    if precision > 0 then precision else 0
  }

  /** The finished characters and the bits of the unfinished one. */
  datatype Text = Text(hash: string, number: nat, bits: nat)

  predicate TextOk(t: Text) {
    t.bits < 5 && t.number < Pow2(t.bits)
  }

  function Push(t: Text, hi: bool): (u: Text)
    requires TextOk(t)
    ensures TextOk(u)
  {
    var number := 2 * t.number + if hi then 1 else 0;
    PowMonotone(t.bits + 1, 5);
    assert Pow2(5) == 32;
    if t.bits < 4 then Text(t.hash, number, t.bits + 1) else Text(t.hash + [Symbol(number)], 0, 0)
  }

  /** What an encoder has typed after the first n bits of d. */
  function Typed(d: nat -> bool, n: nat): (t: Text)
    ensures TextOk(t)
  {
    if n == 0 then Text("", 0, 0) else Push(Typed(d, n - 1), d(n - 1))
  }

  ghost predicate Written(d: nat -> bool, n: nat, t: Text) {
    && n == 5 * |t.hash| + t.bits
    && t.number == Digit(d, 5 * |t.hash|, t.bits)
    && Spells(d, t.hash)
  }

  lemma WrittenStep(d: nat -> bool, n: nat, t: Text)
    requires TextOk(t) && Written(d, n, t)
    ensures Written(d, n + 1, Push(t, d(n)))
  {
    var start := 5 * |t.hash|;
    var number := Digit(d, start, t.bits + 1);
    assert start + (t.bits + 1) - 1 == n;
    assert number == 2 * t.number + if d(n) then 1 else 0;
    if t.bits == 4 { assert Letter(d, start) == Symbol(number); }
  }

  lemma {:induction false} TypedIsWritten(d: nat -> bool, n: nat)
    ensures Written(d, n, Typed(d, n))
  {
    if n > 0 {
      TypedIsWritten(d, n - 1);
      WrittenStep(d, n - 1, Typed(d, n - 1));
    }
  }

  /** The Expo encoder: `>=` at the midpoint, the character number built by doubling. */
  method ExpoGeohash(lat: real, lon: real, precision: int) returns (hash: string)
    ensures hash == Encode(true, lat, lon, Positive(precision))
  {
    var latMin, latMax, lonMin, lonMax := -90.0, 90.0, -180.0, 180.0;
    hash := "";
    var bits: nat, bit: nat, even := 0, 0, true;
    ghost var n: nat, d := 0, Decisions(true, lat, lon);
    while |hash| < precision
      invariant n == 5 * |hash| + bits && bits < 5 && n <= 5 * Positive(precision)
      invariant Cell(Range(latMin, latMax), Range(lonMin, lonMax), even) == Locate(true, lat, lon, n)
      invariant Text(hash, bit, bits) == Typed(d, n)
      decreases 5 * precision - n
    {
      if even {
        var mid := (lonMin + lonMax) / 2.0;
        if lon >= mid {
          bit := bit * 2 + 1;
          lonMin := mid;
        } else {
          bit := bit * 2;
          lonMax := mid;
        }
      } else {
        var mid := (latMin + latMax) / 2.0;
        if lat >= mid {
          bit := bit * 2 + 1;
          latMin := mid;
        } else {
          bit := bit * 2;
          latMax := mid;
        }
      }
      even := !even;
      bits := bits + 1;
      n := n + 1;
      if bits == 5 {
        hash := hash + [Symbol(bit)];
        bits, bit := 0, 0;
      }
    }
    TypedIsWritten(d, n);
  }

  lemma AtLeastOnce(a: int, d: int)
    requires a >= 1 && d > 0
    ensures a * d >= d
  {}

  lemma SameQuotient(p: int, s: int, q: int, r: int, d: int)
    requires p * d + s == q * d + r && 0 <= s < d && 0 <= r < d
    ensures p == q
  {
    if p < q { AtLeastOnce(q - p, d); } else if p > q { AtLeastOnce(p - q, d); }
  }

  lemma Doubled(q: int, d: int, r: int, m: int)
    requires m == q * d + r
    ensures 2 * m == q * (2 * d) + 2 * r
  {}

  /** `m << k`, one place at a time. */
  function Shifted(m: nat, k: nat): nat
    decreases k, m
  {
    if k == 0 then m else Shifted(2 * m, k - 1)
  }

  lemma {:induction false} ShiftedIsProduct(m: nat, k: nat)
    ensures Shifted(m, k) == m * Pow2(k)
    decreases k
  {
    if k > 0 {
      ShiftedIsProduct(2 * m, k - 1);
      Doubled(m, Pow2(k - 1), 0, m * Pow2(k - 1));
    }
  }

  lemma EvenQuotient(n: nat, d: nat, m: nat)
    requires d > 0 && n == 2 * m * d
    ensures n / d % 2 == 0
  {
    SameQuotient(n / d, n % d, 2 * m, 0, d);
  }

  /** `ch |= 1 << k`, for a number m already shifted past bit k: the bit becomes m's next one. */
  method SetBit(ch: nat, k: nat, ghost m: nat) returns (r: nat)
    requires ch == Shifted(m, k + 1)
    ensures r == Shifted(2 * m + 1, k)
  {
    r := if BitAt(ch, k) then ch else ch + Pow2(k);
    ShiftedIsProduct(2 * m, k);
    ShiftedIsProduct(2 * m + 1, k);
    EvenQuotient(ch, Pow2(k), m);
  }

  lemma TypedNext(d: nat -> bool, n: nat, t: Text, number: nat)
    requires t == Typed(d, n) && number == 2 * t.number + if d(n) then 1 else 0
    ensures number < 32
    ensures Typed(d, n + 1) == if t.bits < 4 then Text(t.hash, number, t.bits + 1) else Text(t.hash + [Symbol(number)], 0, 0)
  {
    PowMonotone(t.bits + 1, 5);
    assert Pow2(5) == 32;
  }

  /** One halving of an axis towards x: whether the upper half was kept. */
  method Narrow(r: array<real>, x: real) returns (upper: bool)
    requires r.Length == 2
    modifies r
    ensures upper == Above(false, Range(old(r[0]), old(r[1])), x)
    ensures Range(r[0], r[1]) == Half(Range(old(r[0]), old(r[1])), upper)
  {
    var mid := (r[0] + r[1]) / 2.0;
    upper := x > mid;
    if upper { r[0] := mid; } else { r[1] := mid; }
  }

  /** The Android encoder: `>` at the midpoint, the character number built by setting bits. */
  method AndroidGeohash(lat: real, lon: real, precision: int) returns (hash: string)
    ensures hash == Encode(false, lat, lon, Positive(precision))
  {
    var latR := new real[] [-90.0, 90.0];
    var lonR := new real[] [-180.0, 180.0];
    hash := "";
    var even, bit: nat, ch: nat := true, 0, 0;
    ghost var n: nat, number: nat, d := 0, 0, Decisions(false, lat, lon);
    while |hash| < precision
      invariant n == 5 * |hash| + bit && bit < 5 && n <= 5 * Positive(precision)
      invariant ch == Shifted(number, 5 - bit)
      invariant Cell(Range(latR[0], latR[1]), Range(lonR[0], lonR[1]), even) == Locate(false, lat, lon, n)
      invariant Text(hash, number, bit) == Typed(d, n)
      decreases 5 * precision - n
    {
      ghost var c, number0 := Locate(false, lat, lon, n), number;
      var upper;
      if even { upper := Narrow(lonR, lon); } else { upper := Narrow(latR, lat); }
      if upper { ch := SetBit(ch, 4 - bit, number); }
      number := 2 * number + if upper then 1 else 0;
      even := !even;
      assert upper == Bit(false, c, lat, lon);
      assert Locate(false, lat, lon, n + 1) == Halve(c, upper);
      assert ch == Shifted(number, 4 - bit);
      TypedNext(d, n, Text(hash, number0, bit), number);
      n := n + 1;
      if bit < 4 {
        bit := bit + 1;
      } else {
        hash := hash + [Symbol(ch)];
        bit, ch, number := 0, 0, 0;
      }
    }
    TypedIsWritten(d, n);
  }
}
