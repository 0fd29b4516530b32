/**
 The Expo SDK's queue file: newline-separated lines, the newest kept up to a cap. The cap is on the length
 JavaScript gives a string, in UTF-16 code units; the file is written in UTF-8.
 */
module QueueStore {
  import opened Prelude

  const MAX_BYTES := 512 * 1024

  predicate Plain(line: string) {
    line != "" && '\n' !in line
  }

  predicate AllPlain(lines: seq<string>) {
    forall i :: 0 <= i < |lines| ==> Plain(lines[i])
  }

  function Join(lines: seq<string>): string {
    if lines == [] then ""
    else if |lines| == 1 then lines[0]
    else lines[0] + "\n" + Join(lines[1..])
  }

  function Split(s: string): (r: seq<string>)
    ensures |r| >= 1
  {
    if s == "" then [""]
    else
      var rest := Split(s[1..]);
      if s[0] == '\n' then [""] + rest else [[s[0]] + rest[0]] + rest[1..]
  }

  function NonEmpty(lines: seq<string>): seq<string> {
    if lines == [] then []
    else (if lines[0] == "" then [] else [lines[0]]) + NonEmpty(lines[1..])
  }

  /** What a file's content reads back as. */
  function Lines(content: string): seq<string> {
    NonEmpty(Split(content))
  }

  /** The `length` of a JavaScript string: its number of UTF-16 code units. */
  function Units(s: string): nat {
    if s == "" then 0 else Units(s[..|s| - 1]) + if s[|s| - 1] as int < 0x1_0000 then 1 else 2
  }

  /** Total length with one separator per line. */
  function Size(lines: seq<string>): nat {
    if lines == [] then 0 else Units(lines[0]) + 1 + Size(lines[1..])
  }

  /** The longest suffix within the cap. */
  function Kept(lines: seq<string>): (k: seq<string>)
    ensures |k| <= |lines|
  {
    if Size(lines) <= MAX_BYTES then lines else
      assert lines != [];
      Kept(lines[1..])
  }

  // ---------- the file operations ----------

  class Store {
    var file: Option<string>

    constructor ()
      ensures file == None
    {
      file := None;
    }

    /** Walks back from the newest line until the cap is passed, and writes what fitted. */
    method PersistQueue(lines: seq<string>)
      modifies this
      ensures file == Some(Join(Kept(lines)))
    {
      var start, bytes := 0, 0;
      var i := |lines| - 1;
      assert lines[|lines|..] == [];
      while i >= 0
        invariant -1 <= i < |lines|
        invariant start == 0 && bytes == Size(lines[i + 1..]) <= MAX_BYTES
      {
        assert lines[i..][1..] == lines[i + 1..];
        bytes := bytes + Units(lines[i]) + 1;
        if bytes > MAX_BYTES {
          start := i + 1;
          KeptFrom(lines, start);
          break;
        }
        i := i - 1;
      }
      if start == 0 && i < 0 { assert lines[0..] == lines; }
      file := Some(Join(lines[start..]));
    }

    method TakePersistedQueue() returns (lines: seq<string>)
      modifies this
      ensures file == None
      ensures lines == if old(file).Some? then Lines(old(file).value) else []
    {
      if file.None? { return []; }
      var parts := Split(file.value);
      lines := [];
      for i := 0 to |parts|
        invariant lines == NonEmpty(parts[..i])
        modifies {}
      {
        NonEmptySnoc(parts[..i], parts[i]);
        assert parts[..i + 1] == parts[..i] + [parts[i]];
        if |parts[i]| > 0 { lines := lines + [parts[i]]; }
      }
      assert parts[..|parts|] == parts;
      file := None;
    }

    method ClearPersistedQueue()
      modifies this
      ensures file == None
    {
      if file.Some? { file := None; }
    }
  }

  lemma {:induction false} NonEmptySnoc(lines: seq<string>, line: string)
    ensures NonEmpty(lines + [line]) == NonEmpty(lines) + if line == "" then [] else [line]
  {
    if lines == [] {
      assert lines + [line] == [line];
    } else {
      NonEmptySnoc(lines[1..], line);
      assert (lines + [line])[1..] == lines[1..] + [line];
    }
  }

  lemma {:induction false} SizeShrinks(lines: seq<string>, k: nat)
    requires k <= |lines|
    ensures Size(lines[k..]) <= Size(lines)
  {
    if k == 0 {
      assert lines[0..] == lines;
    } else {
      SizeShrinks(lines[1..], k - 1);
      assert lines[1..][k - 1..] == lines[k..];
    }
  }

  lemma {:induction false} KeptFrom(lines: seq<string>, start: nat)
    requires 0 < start <= |lines| && Size(lines[start..]) <= MAX_BYTES < Size(lines[start - 1..])
    ensures Kept(lines) == lines[start..]
  {
    SizeShrinks(lines, start - 1);
    if start > 1 {
      assert lines[1..][start - 1..] == lines[start..];
      assert lines[1..][start - 2..] == lines[start - 1..];
      KeptFrom(lines[1..], start - 1);
    }
  }

  // ---------- what comes back ----------

  /** Kept is a suffix within the cap, and no longer suffix is. */
  lemma {:induction false} KeptIsLongest(lines: seq<string>, k: nat)
    requires k <= |lines|
    ensures Kept(lines) == lines[|lines| - |Kept(lines)|..] && Size(Kept(lines)) <= 524288
    ensures Size(lines[k..]) <= 524288 <==> |lines| - k <= |Kept(lines)|
  {
    if Size(lines) <= MAX_BYTES {
      SizeShrinks(lines, k);
    } else if k == 0 {
      assert lines[0..] == lines;
      KeptIsLongest(lines[1..], 0);
    } else {
      KeptIsLongest(lines[1..], k - 1);
      assert lines[1..][k - 1..] == lines[k..];
    }
  }

  lemma {:induction false} SplitPlain(s: string)
    requires '\n' !in s
    ensures Split(s) == [s]
  {
    if s != "" {
      SplitPlain(s[1..]);
      assert [s[0]] + s[1..] == s;
    }
  }

  lemma {:induction false} SplitFirst(a: string, b: string)
    requires '\n' !in a
    ensures Split(a + "\n" + b) == [a] + Split(b)
  {
    var s := a + "\n" + b;
    if a == "" {
      assert s[1..] == b;
    } else {
      SplitFirst(a[1..], b);
      assert s[1..] == a[1..] + "\n" + b;
      assert [s[0]] + a[1..] == a;
      assert ([a[1..]] + Split(b))[1..] == Split(b);
    }
  }

  lemma LinesPlain(s: string)
    requires '\n' !in s
    ensures Lines(s) == if s == "" then [] else [s]
  {
    SplitPlain(s);
    var one := [s];
    assert one[1..] == [];
    assert NonEmpty(one) == (if s == "" then [] else [s]) + NonEmpty(one[1..]);
  }

  lemma LinesFirst(a: string, b: string)
    requires Plain(a)
    ensures Lines(a + "\n" + b) == [a] + Lines(b)
  {
    SplitFirst(a, b);
    assert ([a] + Split(b))[1..] == Split(b);
  }

  /**
   A write cut short at any point reads back as the first lines, whole, and at most one piece of the next:
   a torn write never damages a line before the tear, and only the piece can fail to parse.
   */
  lemma {:induction false} TornWrite(lines: seq<string>, n: nat) returns (k: nat, piece: string)
    requires AllPlain(lines) && n <= |Join(lines)|
    ensures k <= |lines| && (piece != "" ==> k < |lines| && piece <= lines[k])
    ensures Lines(Join(lines)[..n]) == lines[..k] + if piece == "" then [] else [piece]
    ensures n == |Join(lines)| && lines != [] ==> k == |lines| - 1 && piece == lines[k]
  {
    if lines == [] {
      k, piece := 0, "";
      LinesPlain("");
      assert Join(lines)[..n] == "";
    } else if n <= |lines[0]| {
      k, piece := 0, lines[0][..n];
      assert Join(lines)[..n] == piece;
      LinesPlain(piece);
    } else {
      var m := n - |lines[0]| - 1;
      k, piece := TornWrite(lines[1..], m);
      LinesFirst(lines[0], Join(lines[1..])[..m]);
      assert Join(lines)[..n] == lines[0] + "\n" + Join(lines[1..])[..m];
      var rest := if piece == "" then [] else [piece];
      assert lines[..k + 1] == [lines[0]] + lines[1..][..k];
      assert [lines[0]] + (lines[1..][..k] + rest) == lines[..k + 1] + rest;
      k := k + 1;
    }
  }

  /** A complete write reads back as written. */
  lemma LinesOfJoin(lines: seq<string>)
    requires AllPlain(lines)
    ensures Lines(Join(lines)) == lines
  {
    var k, piece := TornWrite(lines, |Join(lines)|);
    assert Join(lines)[..|Join(lines)|] == Join(lines);
  }

  /** After a snapshot, reading the file gives back exactly the longest suffix within the cap. */
  lemma SnapshotReadsBack(lines: seq<string>)
    requires AllPlain(lines)
    ensures Lines(Join(Kept(lines))) == Kept(lines)
  {
    KeptIsLongest(lines, 0);
    LinesOfJoin(Kept(lines));
  }

  // ---------- the cap and the bytes on disk ----------

  /** Bytes of one character in UTF-8. */
  function Width(c: char): nat {
    var code := c as int;
    if code < 0x80 then 1 else if code < 0x800 then 2 else if code < 0x1_0000 then 3 else 4
  }

  /** Bytes of a string in UTF-8. */
  function Utf8(s: string): nat {
    if s == "" then 0 else Utf8(s[..|s| - 1]) + Width(s[|s| - 1])
  }

  predicate Ascii(s: string) {
    forall i :: 0 <= i < |s| ==> s[i] as int < 0x80
  }

  lemma {:induction false} WidthBounds(s: string)
    ensures Units(s) <= Utf8(s) <= 3 * Units(s)
    ensures Utf8(s) == Units(s) <==> Ascii(s)
  {
    if s != "" { WidthBounds(s[..|s| - 1]); }
  }

  lemma {:induction false} Utf8Concat(a: string, b: string)
    ensures Utf8(a + b) == Utf8(a) + Utf8(b)
  {
    if b == "" {
      assert a + b == a;
    } else {
      assert (a + b)[..|a + b| - 1] == a + b[..|b| - 1];
      Utf8Concat(a, b[..|b| - 1]);
    }
  }

  predicate AllAscii(lines: seq<string>) {
    forall i :: 0 <= i < |lines| ==> Ascii(lines[i])
  }

  /** Total bytes with one separator per line. */
  function Bytes(lines: seq<string>): nat {
    if lines == [] then 0 else Utf8(lines[0]) + 1 + Bytes(lines[1..])
  }

  lemma {:induction false} BytesBounds(lines: seq<string>)
    ensures Bytes(lines) <= 3 * Size(lines)
    ensures AllAscii(lines) ==> Bytes(lines) == Size(lines)
  {
    if lines != [] {
      WidthBounds(lines[0]);
      BytesBounds(lines[1..]);
    }
  }

  lemma {:induction false} JoinBytes(lines: seq<string>)
    ensures Utf8(Join(lines)) <= Bytes(lines)
  {
    if |lines| > 1 {
      JoinBytes(lines[1..]);
      Utf8Concat(lines[0], "\n");
      Utf8Concat(lines[0] + "\n", Join(lines[1..]));
      assert Utf8("\n") == 1;
    }
  }

  function Repeat(c: char, n: nat): (s: string)
    ensures |s| == n && forall i :: 0 <= i < n ==> s[i] == c
    decreases n, c
  {
    if n == 0 then "" else Repeat(c, n - 1) + [c]
  }

  lemma {:induction false} RepeatedUnits(c: char, n: nat)
    ensures Units(Repeat(c, n)) == if c as int < 0x1_0000 then n else 2 * n
    ensures c as int >= 0x80 ==> Utf8(Repeat(c, n)) >= 2 * Units(Repeat(c, n))
  {
    if n > 0 {
      RepeatedUnits(c, n - 1);
      assert Repeat(c, n)[..n - 1] == Repeat(c, n - 1);
    }
  }

  ghost predicate Over(lines: seq<string>, alphabet: set<char>) {
    forall i, j :: 0 <= i < |lines| && 0 <= j < |lines[i]| ==> lines[i][j] in alphabet
  }

  /** One line of any other character fills the cap and takes at least twice its bytes. */
  lemma WideLine(c: char) returns (line: string)
    requires c as int >= 0x80
    ensures forall j :: 0 <= j < |line| ==> line[j] == c
    ensures Kept([line]) == [line] && Utf8(Join([line])) > MAX_BYTES
  {
    var n := if c as int < 0x1_0000 then MAX_BYTES - 1 else (MAX_BYTES - 1) / 2;
    line := Repeat(c, n);
    RepeatedUnits(c, n);
    var one := [line];
    assert Size(one[1..]) == 0 && Size(one) == Units(line) + 1 + Size(one[1..]);
  }

  /** The file never takes more than three times the cap. It never takes more than the cap, whatever is queued
      from an alphabet, exactly when the alphabet is ASCII. */
  lemma CapCountsBytesIff(alphabet: set<char>)
    ensures forall lines :: Utf8(Join(Kept(lines))) <= 3 * 524288
    ensures (forall lines :: Over(lines, alphabet) ==> Utf8(Join(Kept(lines))) <= 524288) <==>
            (forall c :: c in alphabet ==> c as int < 0x80)
  {
    forall lines
      ensures Utf8(Join(Kept(lines))) <= 3 * 524288
      ensures Over(lines, alphabet) && (forall c :: c in alphabet ==> c as int < 0x80) ==>
                Utf8(Join(Kept(lines))) <= 524288
    {
      KeptIsLongest(lines, 0);
      JoinBytes(Kept(lines));
      BytesBounds(Kept(lines));
    }
    if c :| c in alphabet && c as int >= 0x80 {
      var line := WideLine(c);
      assert Over([line], alphabet);
    }
  }
}
