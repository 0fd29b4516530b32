/** What the decoder and the two encoders promise together. */
module GeohashLaws {
  import opened Prelude
  import opened Geohash

  // ---------- ranges and cells ----------

  predicate Proper(c: Cell) {
    c.lat.lo < c.lat.hi && c.lon.lo < c.lon.hi
  }

  predicate Inside(r: Range, x: real) {
    r.lo < x < r.hi
  }

  /** The point lies in the interior of the cell. */
  predicate Holds(c: Cell, lat: real, lon: real) {
    Inside(c.lat, lat) && Inside(c.lon, lon)
  }

  lemma HalveHolds(closed: bool, c: Cell, hi: bool, lat: real, lon: real)
    requires Proper(c)
    ensures Proper(Halve(c, hi))
    ensures Holds(Halve(c, hi), lat, lon) ==> Holds(c, lat, lon) && Bit(closed, c, lat, lon) == hi
  {}

  lemma {:induction false} TakeHolds(c: Cell, ci: nat, k: nat, lat: real, lon: real)
    requires Proper(c) && k <= 5
    ensures Proper(Take(c, ci, k))
    ensures Holds(Take(c, ci, k), lat, lon) ==> Holds(c, lat, lon)
  {
    if k > 0 {
      TakeHolds(c, ci, k - 1, lat, lon);
      HalveHolds(true, Take(c, ci, k - 1), BitAt(ci, 5 - k), lat, lon);
    }
  }

  lemma {:induction false} CellOfProper(g: string)
    requires Wellformed(g)
    ensures Proper(CellOf(g))
  {
    if g != "" {
      var init := g[..|g| - 1];
      CellOfProper(init);
      TakeHolds(CellOf(init), IndexOf(g[|g| - 1]), 5, 0.0, 0.0);
    }
  }

  // ---------- shifts ----------

  lemma QuotientIs(n: int, d: int, q: int, r: int)
    requires n == q * d + r && 0 <= r < d
    ensures n / d == q
  {
    SameQuotient(n / d, n % d, q, r, d);
  }

  lemma QuotientWithin(n: int, d: nat, q: int)
    requires q * d <= n < (q + 1) * d
    ensures n / d == q
  {
    assert q * d + d == (q + 1) * d;
    QuotientIs(n, d, q, n - q * d);
  }

  lemma HalveQuotient(n: nat, d: nat)
    requires d > 0
    ensures n / d / 2 == n / (2 * d)
  {
    var q, r := n / (2 * d), n % (2 * d);
    if r < d {
      Regroup(n, q, d, 0, r);
      QuotientIs(n, d, 2 * q, r);
    } else {
      Regroup(n, q, d, 1, r - d);
      QuotientIs(n, d, 2 * q + 1, r - d);
    }
  }

  lemma Regroup(n: int, q: int, d: int, b: int, r: int)
    requires n == q * (2 * d) + b * d + r
    ensures n == (2 * q + b) * d + r
  {}

  /** Dropping all but the top k of five bits, one bit at a time. */
  lemma ShiftStep(ci: nat, k: nat)
    requires 0 < k <= 5
    ensures ci / Pow2(5 - k) == 2 * (ci / Pow2(6 - k)) + if BitAt(ci, 5 - k) then 1 else 0
  {
    HalveQuotient(ci, Pow2(5 - k));
  }

  // ---------- the inverse ----------

  lemma TakeOne(closed: bool, lat: real, lon: real, n: nat, c: Cell, hi: bool)
    requires Proper(c) && Locate(closed, lat, lon, n) == c && Holds(Halve(c, hi), lat, lon)
    ensures Locate(closed, lat, lon, n + 1) == Halve(c, hi)
    ensures Decisions(closed, lat, lon)(n) == hi
  {
    HalveHolds(closed, c, hi, lat, lon);
  }

  lemma {:induction false} TakeLocates(closed: bool, lat: real, lon: real, m: nat, c: Cell, ci: nat, k: nat)
    requires k <= 5 && Proper(c) && ci < 32
    requires Locate(closed, lat, lon, m) == c && Holds(Take(c, ci, k), lat, lon)
    ensures Locate(closed, lat, lon, m + k) == Take(c, ci, k)
    ensures k > 0 ==> Holds(Take(c, ci, k - 1), lat, lon) && Decisions(closed, lat, lon)(m + k - 1) == BitAt(ci, 5 - k)
  {
    if k > 0 {
      var before, hi := Take(c, ci, k - 1), BitAt(ci, 5 - k);
      TakeHolds(c, ci, k - 1, lat, lon);
      HalveHolds(closed, before, hi, lat, lon);
      TakeLocates(closed, lat, lon, m, c, ci, k - 1);
      TakeOne(closed, lat, lon, m + k - 1, before, hi);
    }
  }

  lemma {:induction false} TakeDigits(closed: bool, lat: real, lon: real, m: nat, c: Cell, ci: nat, k: nat)
    requires k <= 5 && Proper(c) && ci < 32
    requires Locate(closed, lat, lon, m) == c && Holds(Take(c, ci, k), lat, lon)
    ensures Digit(Decisions(closed, lat, lon), m, k) == ci / Pow2(5 - k)
  {
    if k == 0 {
      assert Pow2(5) == 32;
    } else {
      TakeLocates(closed, lat, lon, m, c, ci, k);
      TakeDigits(closed, lat, lon, m, c, ci, k - 1);
      ShiftStep(ci, k);
    }
  }

  lemma LetterBack(closed: bool, lat: real, lon: real, m: nat, c: Cell, ch: char)
    requires InAlphabet(ch) && Proper(c) && Locate(closed, lat, lon, m) == c
    requires Holds(Take(c, IndexOf(ch), 5), lat, lon)
    ensures Locate(closed, lat, lon, m + 5) == Take(c, IndexOf(ch), 5)
    ensures Letter(Decisions(closed, lat, lon), m) == ch
  {
    TakeLocates(closed, lat, lon, m, c, IndexOf(ch), 5);
    TakeDigits(closed, lat, lon, m, c, IndexOf(ch), 5);
    assert Pow2(0) == 1;
  }

  lemma {:induction false} InteriorLetters(closed: bool, g: string, lat: real, lon: real)
    requires Wellformed(g) && Holds(CellOf(g), lat, lon)
    ensures Locate(closed, lat, lon, 5 * |g|) == CellOf(g)
    ensures Spells(Decisions(closed, lat, lon), g)
  {
    if g != "" {
      var init, last := g[..|g| - 1], g[|g| - 1];
      CellSplits(g, lat, lon);
      InteriorLetters(closed, init, lat, lon);
      LetterBack(closed, lat, lon, 5 * |init|, CellOf(init), last);
      SpellsMore(Decisions(closed, lat, lon), g);
    }
  }

  lemma SpellsMore(d: nat -> bool, g: string)
    requires g != "" && Spells(d, g[..|g| - 1]) && Letter(d, 5 * (|g| - 1)) == g[|g| - 1]
    ensures Spells(d, g)
  {
    forall i | 0 <= i < |g| ensures g[i] == Letter(d, 5 * i) {
      if i < |g| - 1 { assert g[..|g| - 1][i] == g[i]; }
    }
  }

  lemma SpellsOne(d: nat -> bool, s: string, t: string)
    requires Spells(d, s) && Spells(d, t) && |s| <= |t|
    ensures s <= t
  {
    forall i | 0 <= i < |s| ensures s[i] == t[i] {
      assert s[i] == Letter(d, 5 * i);
    }
  }

  /** Both encoders retrace a geohash from any point in the interior of its cell. */
  lemma InteriorEncodesBack(closed: bool, g: string, lat: real, lon: real)
    requires Wellformed(g) && Holds(CellOf(g), lat, lon)
    ensures Encode(closed, lat, lon, |g|) == g
  {
    InteriorLetters(closed, g, lat, lon);
    SpellsOne(Decisions(closed, lat, lon), Encode(closed, lat, lon, |g|), g);
  }

  lemma CellSplits(g: string, lat: real, lon: real)
    requires Wellformed(g) && g != "" && Holds(CellOf(g), lat, lon)
    ensures Proper(CellOf(g[..|g| - 1])) && Holds(CellOf(g[..|g| - 1]), lat, lon)
    ensures CellOf(g) == Take(CellOf(g[..|g| - 1]), IndexOf(g[|g| - 1]), 5)
  {
    CellOfProper(g[..|g| - 1]);
    TakeHolds(CellOf(g[..|g| - 1]), IndexOf(g[|g| - 1]), 5, lat, lon);
  }

  /** A hash of lower precision is a prefix of one of higher precision. */
  lemma Nests(closed: bool, lat: real, lon: real, p: nat, q: nat)
    requires p <= q
    ensures Encode(closed, lat, lon, p) <= Encode(closed, lat, lon, q)
  {
    SpellsOne(Decisions(closed, lat, lon), Encode(closed, lat, lon, p), Encode(closed, lat, lon, q));
  }

  /** The server's centroid of a geohash encodes back to it on both platforms. */
  lemma CentroidEncodesBack(g: string)
    requires Wellformed(g)
    ensures var (lat, lon) := Centroid(g);
            Encode(true, lat, lon, |g|) == g && Encode(false, lat, lon, |g|) == g
  {
    CellOfProper(g);
    var (lat, lon) := Centroid(g);
    InteriorEncodesBack(true, g, lat, lon);
    InteriorEncodesBack(false, g, lat, lon);
  }

  // ---------- decoding an encoding ----------

  lemma ShiftIn(q: nat, d: nat, x: nat, y: nat)
    requires q * d <= x < (q + 1) * d && 2 * x <= y <= 2 * x + 1
    ensures q * (2 * d) <= y < (q + 1) * (2 * d)
  {
    Doubled(q, d, 0, q * d);
    Doubled(q + 1, d, 0, (q + 1) * d);
  }

  lemma {:induction false} DigitShift(d: nat -> bool, n: nat, j: nat, k: nat)
    ensures Digit(d, n, j) * Pow2(k) <= Digit(d, n, j + k) < (Digit(d, n, j) + 1) * Pow2(k)
  {
    if k > 0 {
      DigitShift(d, n, j, k - 1);
      assert n + (j + k) - 1 == n + j + (k - 1);
      ShiftIn(Digit(d, n, j), Pow2(k - 1), Digit(d, n, j + (k - 1)), Digit(d, n, j + k));
    }
  }

  lemma DigitBit(d: nat -> bool, n: nat, k: nat)
    requires 0 < k <= 5
    ensures BitAt(Digit(d, n, 5), 5 - k) == d(n + k - 1)
  {
    DigitShift(d, n, k, 5 - k);
    QuotientWithin(Digit(d, n, 5), Pow2(5 - k), Digit(d, n, k));
  }

  lemma {:induction false} TakeDigit(closed: bool, lat: real, lon: real, m: nat, k: nat)
    requires k <= 5
    ensures Take(Locate(closed, lat, lon, m), Digit(Decisions(closed, lat, lon), m, 5), k)
         == Locate(closed, lat, lon, m + k)
  {
    if k > 0 {
      TakeDigit(closed, lat, lon, m, k - 1);
      DigitBit(Decisions(closed, lat, lon), m, k);
    }
  }

  lemma LetterIndex(d: nat -> bool, m: nat)
    ensures InAlphabet(Letter(d, m)) && IndexOf(Letter(d, m)) == Digit(d, m, 5)
  {
    assert Pow2(5) == 32;
    SymbolInjective(IndexOf(Letter(d, m)), Digit(d, m, 5));
  }

  lemma {:induction false} SpellingDecodes(closed: bool, lat: real, lon: real, s: string)
    requires Spells(Decisions(closed, lat, lon), s)
    ensures Wellformed(s) && CellOf(s) == Locate(closed, lat, lon, 5 * |s|)
  {
    if s != "" {
      var init, m := s[..|s| - 1], 5 * (|s| - 1);
      forall i | 0 <= i < |init| ensures init[i] == Letter(Decisions(closed, lat, lon), 5 * i) {
        assert init[i] == s[i];
      }
      SpellingDecodes(closed, lat, lon, init);
      assert s[|s| - 1] == Letter(Decisions(closed, lat, lon), m);
      LetterIndex(Decisions(closed, lat, lon), m);
      WellformedMore(s);
      TakeDigit(closed, lat, lon, m, 5);
    }
  }

  lemma WellformedMore(s: string)
    requires s != "" && Wellformed(s[..|s| - 1]) && InAlphabet(s[|s| - 1])
    ensures Wellformed(s)
  {
    forall i | 0 <= i < |s| ensures InAlphabet(s[i]) {
      if i < |s| - 1 { assert s[..|s| - 1][i] == s[i]; }
    }
  }

  /** The server decodes what a device encoded to exactly the cell the device had narrowed down to. */
  lemma DecodesToTheCell(closed: bool, lat: real, lon: real, p: nat)
    ensures Wellformed(Encode(closed, lat, lon, p))
    ensures CellOf(Encode(closed, lat, lon, p)) == Locate(closed, lat, lon, 5 * p)
  {
    SpellingDecodes(closed, lat, lon, Encode(closed, lat, lon, p));
  }

  // ---------- one axis at a time ----------

  function Bisect(closed: bool, r: Range, x: real, k: nat): Range
    decreases k
  {
    if k == 0 then r else
      var s := Bisect(closed, r, x, k - 1);
      Half(s, Above(closed, s, x))
  }

  /** The two axes take turns, longitude first. */
  lemma {:induction false} LocateIsBisect(closed: bool, lat: real, lon: real, n: nat)
    ensures Locate(closed, lat, lon, n)
         == Cell(Bisect(closed, World.lat, lat, n / 2), Bisect(closed, World.lon, lon, (n + 1) / 2), n % 2 == 0)
  {
    if n > 0 {
      LocateIsBisect(closed, lat, lon, n - 1);
      if n % 2 == 1 {
        assert (n - 1) / 2 == n / 2 == (n + 1) / 2 - 1;
      } else {
        assert (n - 1 + 1) / 2 == n / 2 == (n + 1) / 2 && (n - 1) / 2 == n / 2 - 1;
      }
    }
  }

  function Width(r: Range): real {
    r.hi - r.lo
  }

  function Spread(w: real, k: nat): real {
    w * (Pow2(k) as real)
  }

  lemma SpreadHalf(w: real, k: nat)
    ensures Spread(w / 2.0, k + 1) == Spread(w, k)
  {
    var p := Pow2(k) as real;
    assert Pow2(k + 1) as real == 2.0 * p;
    HalfDouble(w, p);
  }

  lemma HalfDouble(w: real, p: real)
    ensures (w / 2.0) * (2.0 * p) == w * p
  {}

  lemma {:induction false} BisectWidth(closed: bool, r: Range, x: real, k: nat)
    ensures Spread(Width(Bisect(closed, r, x, k)), k) == Width(r)
  {
    if k == 0 {
      assert Pow2(0) == 1;
    } else {
      BisectWidth(closed, r, x, k - 1);
      var w := Width(Bisect(closed, r, x, k - 1));
      assert Width(Bisect(closed, r, x, k)) == w / 2.0;
      SpreadHalf(w, k - 1);
    }
  }

  lemma {:induction false} BisectContains(closed: bool, r: Range, x: real, k: nat)
    requires r.lo <= x <= r.hi
    ensures var s := Bisect(closed, r, x, k); s.lo <= x <= s.hi
  {
    if k > 0 { BisectContains(closed, r, x, k - 1); }
  }

  function Abs(x: real): real {
    if x < 0.0 then -x else x
  }

  lemma SpreadQuotient(w: real, k: nat, half: real)
    requires Spread(w, k) == 2.0 * half
    ensures w / 2.0 == half / (Pow2(k) as real)
  {
    var p := Pow2(k) as real;
    assert w == 2.0 * half / p;
  }

  lemma AxisError(closed: bool, r: Range, x: real, k: nat, half: real)
    requires r.lo <= x <= r.hi && Width(r) == 2.0 * half
    ensures Abs(Mid(Bisect(closed, r, x, k)) - x) <= half / (Pow2(k) as real)
  {
    BisectContains(closed, r, x, k);
    BisectWidth(closed, r, x, k);
    SpreadQuotient(Width(Bisect(closed, r, x, k)), k, half);
  }

  /** Decoding an in-range point's hash lands within half a cell of it, for either encoder. */
  lemma CentroidError(closed: bool, lat: real, lon: real, p: nat)
    requires -90.0 <= lat <= 90.0 && -180.0 <= lon <= 180.0
    ensures Wellformed(Encode(closed, lat, lon, p))
    ensures var (clat, clon) := Centroid(Encode(closed, lat, lon, p));
            && Abs(clon - lon) <= 180.0 / (Pow2((5 * p + 1) / 2) as real)
            && Abs(clat - lat) <= 90.0 / (Pow2(5 * p / 2) as real)
  {
    DecodesToTheCell(closed, lat, lon, p);
    LocateIsBisect(closed, lat, lon, 5 * p);
    AxisError(closed, World.lon, lon, (5 * p + 1) / 2, 180.0);
    AxisError(closed, World.lat, lat, 5 * p / 2, 90.0);
  }

  // ---------- when the two encoders agree ----------

  /** A coordinate in units of the cells k halvings leave. */
  function Scale(r: Range, y: real, k: nat): real
    requires r.lo < r.hi
  {
    Spread((y - r.lo) / Width(r), k)
  }

  /** The coordinate is an interior boundary between two of the cells that k halvings leave. */
  predicate OnGrid(r: Range, x: real, k: nat)
    requires r.lo < r.hi
  {
    var s := Scale(r, x, k);
    s == s.Floor as real && 0.0 < s < Pow2(k) as real
  }

  lemma ScaleDoubles(r: Range, y: real, k: nat)
    requires r.lo < r.hi
    ensures Scale(r, y, k + 1) == 2.0 * Scale(r, y, k)
  {
    var w, p := (y - r.lo) / Width(r), Pow2(k) as real;
    assert Pow2(k + 1) as real == 2.0 * p;
    DoubleProduct(w, p);
  }

  lemma DoubleProduct(w: real, p: real)
    ensures w * (2.0 * p) == 2.0 * (w * p)
  {}

  lemma ScaleMid(r: Range, s: Range, k: nat)
    requires r.lo < r.hi
    ensures Scale(r, Mid(s), k) == (Scale(r, s.lo, k) + Scale(r, s.hi, k)) / 2.0
  {
    var w, p := Width(r), Pow2(k) as real;
    AverageQuotient(s.lo - r.lo, s.hi - r.lo, w);
    AverageProduct((s.lo - r.lo) / w, (s.hi - r.lo) / w, p);
    assert Mid(s) - r.lo == (s.lo - r.lo + (s.hi - r.lo)) / 2.0;
  }

  lemma AverageQuotient(a: real, b: real, w: real)
    requires w > 0.0
    ensures (a + b) / 2.0 / w == (a / w + b / w) / 2.0
  {}

  lemma AverageProduct(a: real, b: real, p: real)
    ensures (a + b) / 2.0 * p == (a * p + b * p) / 2.0
  {}

  lemma ScaleOrder(r: Range, y: real, z: real, k: nat)
    requires r.lo < r.hi
    ensures y < z <==> Scale(r, y, k) < Scale(r, z, k)
  {
    var w, p := Width(r), Pow2(k) as real;
    OrderQuotient(y - r.lo, z - r.lo, w);
    OrderProduct((y - r.lo) / w, (z - r.lo) / w, p);
  }

  lemma OrderQuotient(a: real, b: real, w: real)
    requires w > 0.0
    ensures a < b <==> a / w < b / w
  {}

  lemma OrderProduct(a: real, b: real, p: real)
    requires p > 0.0
    ensures a < b <==> a * p < b * p
  {}

  /** After k halvings without touching a midpoint: s is cell number a, and x is inside it or off that end. */
  ghost predicate Placed(r: Range, x: real, k: nat, s: Range, a: int)
    requires r.lo < r.hi
  {
    && 0 <= a < Pow2(k)
    && Scale(r, s.lo, k) == a as real
    && Scale(r, s.hi, k) == a as real + 1.0
    && (|| a as real < Scale(r, x, k) < a as real + 1.0
        || (a == 0 && Scale(r, x, k) <= 0.0)
        || (a == Pow2(k) - 1 && Scale(r, x, k) >= a as real + 1.0))
  }

  /** Compares x with the midpoint of a placed cell, in the units of the next halving. */
  lemma MidScale(r: Range, x: real, k: nat, s: Range, a: int)
    requires r.lo < r.hi && Placed(r, x, k, s, a)
    ensures Scale(r, Mid(s), k + 1) == 2.0 * (a as real) + 1.0
    ensures x > Mid(s) <==> Scale(r, x, k + 1) > 2.0 * (a as real) + 1.0
    ensures x < Mid(s) <==> Scale(r, x, k + 1) < 2.0 * (a as real) + 1.0
  {
    ScaleMid(r, s, k);
    ScaleDoubles(r, Mid(s), k);
    ScaleOrder(r, x, Mid(s), k + 1);
    ScaleOrder(r, Mid(s), x, k + 1);
  }

  lemma PlaceStep(r: Range, x: real, k: nat, s: Range, a: int) returns (b: int)
    requires r.lo < r.hi && Placed(r, x, k, s, a) && x != Mid(s)
    ensures Placed(r, x, k + 1, Half(s, x > Mid(s)), b)
  {
    MidScale(r, x, k, s, a);
    ScaleDoubles(r, x, k);
    ScaleDoubles(r, s.lo, k);
    ScaleDoubles(r, s.hi, k);
    b := if x > Mid(s) then 2 * a + 1 else 2 * a;
  }

  /** Of the half units inside or off the ends of unit a, only its middle is a whole number of half units. */
  lemma OnlyTheMiddle(u: real, a: int, p: nat)
    requires 0 <= a < p
    requires a as real < u < a as real + 1.0 || (a == 0 && u <= 0.0) || (a == p - 1 && u >= a as real + 1.0)
    requires !(u == u.Floor as real && 0.0 < u < p as real)
    ensures (2.0 * u == (2.0 * u).Floor as real && 0.0 < 2.0 * u < 2.0 * (p as real)) <==> 2.0 * u == 2.0 * (a as real) + 1.0
  {
    var m := (2.0 * u).Floor;
    if 2.0 * u == 2.0 * (a as real) + 1.0 { assert m == 2 * a + 1; }
    if 2.0 * u == m as real && a as real < u < a as real + 1.0 { assert 2 * a < m < 2 * a + 2; }
  }

  lemma GridStep(r: Range, x: real, k: nat, s: Range, a: int)
    requires r.lo < r.hi && Placed(r, x, k, s, a) && !OnGrid(r, x, k)
    ensures OnGrid(r, x, k + 1) <==> x == Mid(s)
  {
    MidScale(r, x, k, s, a);
    ScaleDoubles(r, x, k);
    OnlyTheMiddle(Scale(r, x, k), a, Pow2(k));
  }

  lemma GridStays(r: Range, x: real, k: nat)
    requires r.lo < r.hi && OnGrid(r, x, k)
    ensures OnGrid(r, x, k + 1)
  {
    ScaleDoubles(r, x, k);
    var s := Scale(r, x, k);
    assert (2.0 * s).Floor == 2 * s.Floor;
  }

  /** The two comparisons take the same half at each of the first k halvings of one axis. */
  predicate SameHalves(r: Range, x: real, k: nat) {
    k == 0
    || (SameHalves(r, x, k - 1)
        && Above(true, Bisect(true, r, x, k - 1), x) == Above(false, Bisect(false, r, x, k - 1), x))
  }

  lemma {:induction false} AxisAgreement(r: Range, x: real, k: nat) returns (a: int)
    requires r.lo < r.hi
    ensures SameHalves(r, x, k) <==> !OnGrid(r, x, k)
    ensures SameHalves(r, x, k) ==>
      Bisect(true, r, x, k) == Bisect(false, r, x, k) && Placed(r, x, k, Bisect(true, r, x, k), a)
  {
    if k == 0 {
      a := 0;
      StartPlaced(r, x);
    } else {
      a := AxisAgreement(r, x, k - 1);
      if SameHalves(r, x, k - 1) {
        var s := Bisect(true, r, x, k - 1);
        GridStep(r, x, k - 1, s, a);
        if x != Mid(s) { a := PlaceStep(r, x, k - 1, s, a); }
      } else {
        GridStays(r, x, k - 1);
      }
    }
  }

  lemma StartPlaced(r: Range, x: real)
    requires r.lo < r.hi
    ensures Placed(r, x, 0, r, 0) && !OnGrid(r, x, 0)
  {
    assert Pow2(0) == 1;
    assert (r.hi - r.lo) / Width(r) == 1.0;
    assert (r.lo - r.lo) / Width(r) == 0.0;
  }

  predicate SameBits(d: nat -> bool, e: nat -> bool, n: nat) {
    forall i: nat :: i < n ==> d(i) == e(i)
  }

  lemma DecisionByAxis(closed: bool, lat: real, lon: real, n: nat)
    ensures Decision(closed, lat, lon, n)
         == if n % 2 == 0 then Above(closed, Bisect(closed, World.lon, lon, n / 2), lon)
            else Above(closed, Bisect(closed, World.lat, lat, n / 2), lat)
  {
    LocateIsBisect(closed, lat, lon, n);
    if n % 2 == 0 { assert (n + 1) / 2 == n / 2; }
  }

  lemma {:induction false} SameBitsByAxis(lat: real, lon: real, n: nat)
    ensures SameBits(Decisions(true, lat, lon), Decisions(false, lat, lon), n)
        <==> SameHalves(World.lon, lon, (n + 1) / 2) && SameHalves(World.lat, lat, n / 2)
  {
    if n > 0 {
      SameBitsByAxis(lat, lon, n - 1);
      DecisionByAxis(true, lat, lon, n - 1);
      DecisionByAxis(false, lat, lon, n - 1);
      SameBitsSplit(Decisions(true, lat, lon), Decisions(false, lat, lon), n);
      if n % 2 == 1 {
        assert (n - 1) / 2 == n / 2 == (n + 1) / 2 - 1;
      } else {
        assert (n - 1 + 1) / 2 == n / 2 == (n + 1) / 2 && (n - 1) / 2 == n / 2 - 1;
      }
    }
  }

  lemma SameBitsSplit(d: nat -> bool, e: nat -> bool, n: nat)
    requires n > 0
    ensures SameBits(d, e, n) <==> SameBits(d, e, n - 1) && d(n - 1) == e(n - 1)
  {}

  lemma {:induction false} SameDigits(d: nat -> bool, e: nat -> bool, n: nat, k: nat)
    requires SameBits(d, e, n + k)
    ensures Digit(d, n, k) == Digit(e, n, k)
  {
    if k > 0 { SameDigits(d, e, n, k - 1); }
  }

  lemma SpellingsAgree(d: nat -> bool, e: nat -> bool, s: string, t: string)
    requires Spells(d, s) && Spells(e, t) && |s| == |t|
    ensures s == t <==> SameBits(d, e, 5 * |s|)
  {
    if SameBits(d, e, 5 * |s|) {
      forall i | 0 <= i < |s| ensures s[i] == t[i] {
        SameDigits(d, e, 5 * i, 5);
      }
    }
    if s == t {
      forall j: nat | j < 5 * |s| ensures d(j) == e(j) {
        var i, k := j / 5, j % 5 + 1;
        assert s[i] == Letter(d, 5 * i) && t[i] == Letter(e, 5 * i);
        LetterIndex(d, 5 * i);
        LetterIndex(e, 5 * i);
        DigitBit(d, 5 * i, k);
        DigitBit(e, 5 * i, k);
        assert 5 * i + k - 1 == j;
      }
    }
  }

  /**
   The Expo and Android encoders give the same hash exactly when neither coordinate lies on an interior
   boundary of the grid at that precision.
   */
  lemma EncodersAgree(lat: real, lon: real, p: nat)
    ensures Encode(true, lat, lon, p) == Encode(false, lat, lon, p)
        <==> !OnGrid(World.lon, lon, (5 * p + 1) / 2) && !OnGrid(World.lat, lat, 5 * p / 2)
  {
    SpellingsAgree(Decisions(true, lat, lon), Decisions(false, lat, lon),
                   Encode(true, lat, lon, p), Encode(false, lat, lon, p));
    SameBitsByAxis(lat, lon, 5 * p);
    var _ := AxisAgreement(World.lon, lon, (5 * p + 1) / 2);
    var _ := AxisAgreement(World.lat, lat, 5 * p / 2);
  }

  // ---------- what the bits of a hash are ----------

  /** The number the first k halving decisions of an axis spell. */
  function AxisNumber(closed: bool, r: Range, x: real, k: nat): nat
    decreases k
  {
    if k == 0 then 0
    else 2 * AxisNumber(closed, r, x, k - 1) + if Above(closed, Bisect(closed, r, x, k - 1), x) then 1 else 0
  }

  lemma ScaleEnds(r: Range)
    requires r.lo < r.hi
    ensures Scale(r, r.lo, 0) == 0.0 && Scale(r, r.hi, 0) == 1.0
  {
    assert Pow2(0) == 1;
    assert (r.hi - r.lo) / Width(r) == 1.0;
    assert (r.lo - r.lo) / Width(r) == 0.0;
  }

  lemma {:induction false} Numbered(closed: bool, r: Range, x: real, k: nat)
    requires r.lo < r.hi
    ensures Scale(r, Bisect(closed, r, x, k).lo, k) == AxisNumber(closed, r, x, k) as real
    ensures Scale(r, Bisect(closed, r, x, k).hi, k) == AxisNumber(closed, r, x, k) as real + 1.0
  {
    if k == 0 {
      ScaleEnds(r);
    } else {
      Numbered(closed, r, x, k - 1);
      var s := Bisect(closed, r, x, k - 1);
      ScaleMid(r, s, k - 1);
      ScaleDoubles(r, s.lo, k - 1);
      ScaleDoubles(r, s.hi, k - 1);
      ScaleDoubles(r, Mid(s), k - 1);
    }
  }

  /** In range: up to the upper end for the closed comparison, down to the lower one for the open comparison. */
  predicate InRange(closed: bool, r: Range, x: real) {
    if closed then r.lo <= x < r.hi else r.lo < x <= r.hi
  }

  lemma {:induction false} StaysInside(closed: bool, r: Range, x: real, k: nat)
    requires InRange(closed, r, x)
    ensures InRange(closed, Bisect(closed, r, x, k), x)
  {
    if k > 0 { StaysInside(closed, r, x, k - 1); }
  }

  /** Whole units: on a boundary the upper one, or the lower one. */
  function Whole(closed: bool, s: real): int {
    if closed then s.Floor else -((-s).Floor) - 1
  }

  /** Which of the 2^k equal cells of the range a point is in. */
  function Slot(closed: bool, r: Range, x: real, k: nat): int
    requires r.lo < r.hi
  {
    Whole(closed, Scale(r, x, k))
  }

  lemma ScaleInside(closed: bool, r: Range, s: Range, x: real, k: nat)
    requires r.lo < r.hi && InRange(closed, s, x)
    ensures InRange(closed, Range(Scale(r, s.lo, k), Scale(r, s.hi, k)), Scale(r, x, k))
  {
    ScaleOrder(r, s.lo, x, k);
    ScaleOrder(r, x, s.lo, k);
    ScaleOrder(r, x, s.hi, k);
    ScaleOrder(r, s.hi, x, k);
  }

  lemma WholeIs(closed: bool, s: real, n: int)
    requires InRange(closed, Range(n as real, n as real + 1.0), s)
    ensures Whole(closed, s) == n
  {}

  lemma NumberIsSlot(closed: bool, r: Range, x: real, k: nat)
    requires r.lo < r.hi && InRange(closed, r, x)
    ensures AxisNumber(closed, r, x, k) == Slot(closed, r, x, k)
  {
    Numbered(closed, r, x, k);
    StaysInside(closed, r, x, k);
    ScaleInside(closed, r, Bisect(closed, r, x, k), x, k);
    WholeIs(closed, Scale(r, x, k), AxisNumber(closed, r, x, k));
  }

  lemma Parity(n: nat, odd: bool)
    ensures (2 * n + if odd then 1 else 0) % 2 == 1 <==> odd
  {}

  lemma LastBit(closed: bool, r: Range, x: real, k: nat)
    ensures AxisNumber(closed, r, x, k + 1) % 2 == 1 <==> Above(closed, Bisect(closed, r, x, k), x)
  {
    Parity(AxisNumber(closed, r, x, k), Above(closed, Bisect(closed, r, x, k), x));
  }

  /**
   The bits of a hash, five to a character and most significant first, alternate between the axes, longitude first:
   each is the last bit of the number of the cell its coordinate is in, counted from the west or the south, when the
   range is cut into one bit finer cells each time.
   */
  lemma BitsAre(closed: bool, lat: real, lon: real, p: nat, j: nat)
    requires InRange(closed, Range(-90.0, 90.0), lat) && InRange(closed, Range(-180.0, 180.0), lon) && j < 5 * p
    ensures var hash := Encode(closed, lat, lon, p);
      BitAt(IndexOf(hash[j / 5]), 4 - j % 5) <==>
        if j % 2 == 0 then Slot(closed, Range(-180.0, 180.0), lon, j / 2 + 1) % 2 == 1
        else Slot(closed, Range(-90.0, 90.0), lat, j / 2 + 1) % 2 == 1
  {
    var d := Decisions(closed, lat, lon);
    var i, k := j / 5, j % 5 + 1;
    LetterIndex(d, 5 * i);
    DigitBit(d, 5 * i, k);
    assert 5 * i + k - 1 == j;
    DecisionByAxis(closed, lat, lon, j);
    var r, x := if j % 2 == 0 then World.lon else World.lat, if j % 2 == 0 then lon else lat;
    LastBit(closed, r, x, j / 2);
    NumberIsSlot(closed, r, x, j / 2 + 1);
  }
}
