/**
 The accepted grammar, stated without the decoder: syntax trees that choose a head form for every
 length, their serialisation, and the value they denote.
 */
module CborGrammar {
  import opened Prelude
  import opened Cbor

  /** `w` is the number of length bytes after the initial byte: 0, 1, 2, 4 or 8. */
  datatype Tree =
    | UintTree(w: nat, n: nat)
    | BytesTree(w: nat, b: seq<byte>)
    | TextTree(w: nat, s: seq<byte>)
    | ArrayTree(w: nat, items: seq<Tree>)
    | MapTree(w: nat, entries: seq<EntryTree>)

  datatype EntryTree = EntryTree(w: nat, key: seq<byte>, value: Tree)

  /** A head form wide enough for n. */
  predicate Fits(w: nat, n: nat) {
    n < Limit(w)
  }

  /** What w length bytes can hold; 0 when there is no such head form. */
  function Limit(w: nat): nat {
    if w == 0 then 24 else if w == 1 then 0x100 else if w == 2 then 0x1_0000
    else if w == 4 then 0x1_0000_0000 else if w == 8 then TWO64 else 0
  }

  predicate WellFormed(t: Tree) {
    match t
    case UintTree(w, n) => Fits(w, n)
    case BytesTree(w, b) => Fits(w, |b|)
    case TextTree(w, s) => Fits(w, |s|)
    case ArrayTree(w, items) => Fits(w, |items|) && forall i :: 0 <= i < |items| ==> WellFormed(items[i])
    case MapTree(w, entries) =>
      Fits(w, |entries|) &&
      forall i :: 0 <= i < |entries| ==> Fits(entries[i].w, |entries[i].key|) && WellFormed(entries[i].value)
  }

  /** The k low bytes of n, most significant first. */
  function ToBytes(n: nat, k: nat): (b: seq<byte>)
    ensures |b| == k
  {
    if k == 0 then [] else ToBytes(n / 256, k - 1) + [n % 256]
  }

  function Info(w: nat): nat {
    if w == 1 then 24 else if w == 2 then 25 else if w == 4 then 26 else 27
  }

  function HeadBytes(major: nat, w: nat, n: nat): (b: seq<byte>)
    requires major < 8 && Fits(w, n)
    ensures b != []
  {
    if w == 0 then [major * 32 + n] else [major * 32 + Info(w)] + ToBytes(n, w)
  }

  function Serialize(t: Tree): (b: seq<byte>)
    requires WellFormed(t)
    ensures b != []
    decreases t, 0
  {
    match t
    case UintTree(w, n) => HeadBytes(0, w, n)
    case BytesTree(w, b) => HeadBytes(2, w, |b|) + b
    case TextTree(w, s) => HeadBytes(3, w, |s|) + s
    case ArrayTree(w, items) => HeadBytes(4, w, |items|) + SerializeAll(items)
    case MapTree(w, entries) => HeadBytes(5, w, |entries|) + SerializeEntries(entries)
  }

  function SerializeAll(items: seq<Tree>): seq<byte>
    requires forall i :: 0 <= i < |items| ==> WellFormed(items[i])
    decreases items, 1
  {
    if items == [] then [] else Serialize(items[0]) + SerializeAll(items[1..])
  }

  function SerializeEntries(entries: seq<EntryTree>): seq<byte>
    requires forall i :: 0 <= i < |entries| ==> Fits(entries[i].w, |entries[i].key|) && WellFormed(entries[i].value)
    decreases entries, 1
  {
    if entries == [] then [] else
      HeadBytes(3, entries[0].w, |entries[0].key|) + entries[0].key + Serialize(entries[0].value) +
      SerializeEntries(entries[1..])
  }

  function Denote(t: Tree): Value
    decreases t, 0
  {
    match t
    case UintTree(_, n) => Uint(n)
    case BytesTree(_, b) => Bytes(b)
    case TextTree(_, s) => Text(s)
    case ArrayTree(_, items) => List(DenoteAll(items))
    case MapTree(_, entries) => Dict(DenoteEntries(entries, map[]))
  }

  function DenoteAll(items: seq<Tree>): seq<Value>
    decreases items, 1
  {
    if items == [] then [] else [Denote(items[0])] + DenoteAll(items[1..])
  }

  function DenoteEntries(entries: seq<EntryTree>, acc: map<seq<byte>, Value>): map<seq<byte>, Value>
    decreases entries, 1
  {
    if entries == [] then acc else DenoteEntries(entries[1..], acc[entries[0].key := Denote(entries[0].value)])
  }

  // ---------- heads ----------

  lemma {:induction false} BigEndianToBytes(n: nat, k: nat)
    requires n < Pow2(8 * k)
    ensures BigEndian(ToBytes(n, k)) == n
  {
    if k > 0 {
      PowAdd(8 * (k - 1), 8);
      assert Pow2(8) == 256;
      BigEndianToBytes(n / 256, k - 1);
      assert ToBytes(n, k)[..k - 1] == ToBytes(n / 256, k - 1);
    }
  }

  lemma {:induction false} ToBytesBigEndian(b: seq<byte>)
    ensures ToBytes(BigEndian(b), |b|) == b
  {
    if b != [] {
      ToBytesBigEndian(b[..|b| - 1]);
      var m, last := BigEndian(b[..|b| - 1]), b[|b| - 1];
      assert (m * 256 + last) / 256 == m && (m * 256 + last) % 256 == last;
    }
  }

  lemma LongHead(b: seq<byte>, length: seq<byte>, tail: seq<byte>)
    requires b != [] && 24 <= b[0] % 32 <= 27 && |length| == Follow(b[0] % 32) && b[1..] == length + tail
    ensures ReadHead(b) == Ok(Head(b[0] / 32, BigEndian(length), tail))
  {
    var rest := b[1..];
    assert rest[..|length|] == length && rest[|length|..] == tail;
  }

  lemma LimitIsPow(w: nat)
    requires w in {1, 2, 4, 8}
    ensures Limit(w) == Pow2(8 * w)
  {
    assert Pow2(8) == 256;
    PowAdd(8, 8);
    assert Pow2(16) == 0x1_0000;
    PowAdd(16, 16);
    assert Pow2(32) == 0x1_0000_0000;
    PowAdd(32, 32);
  }

  lemma InitialByte(major: nat, info: nat)
    requires info < 32
    ensures (major * 32 + info) / 32 == major && (major * 32 + info) % 32 == info
  {}

  lemma FollowsInfo(w: nat)
    requires w in {1, 2, 4, 8}
    ensures 24 <= Info(w) <= 27 && Follow(Info(w)) == w
  {}

  lemma HeadRoundTrip(major: nat, w: nat, n: nat, tail: seq<byte>)
    requires major < 8 && Fits(w, n)
    ensures ReadHead(HeadBytes(major, w, n) + tail) == Ok(Head(major, n, tail))
  {
    var b := HeadBytes(major, w, n) + tail;
    if w == 0 {
      InitialByte(major, n);
      assert b[0] == major * 32 + n && b[1..] == tail;
    } else {
      FollowsInfo(w);
      InitialByte(major, Info(w));
      assert b[0] == major * 32 + Info(w) && b[1..] == ToBytes(n, w) + tail;
      LongHead(b, ToBytes(n, w), tail);
      LimitIsPow(w);
      BigEndianToBytes(n, w);
    }
  }

  lemma LengthFits(length: seq<byte>)
    requires |length| in {1, 2, 4, 8}
    ensures Fits(|length|, BigEndian(length))
  {
    BigEndianBound(length);
    LimitIsPow(|length|);
  }

  lemma HeadParsed(b: seq<byte>) returns (w: nat)
    requires ReadHead(b).Ok?
    ensures var h := ReadHead(b).value;
      Fits(w, h.n) && b == HeadBytes(h.major, w, h.n) + h.rest
  {
    var h := ReadHead(b).value;
    var rest := b[1..];
    assert b == [b[0]] + rest;
    if b[0] % 32 < 24 {
      w := 0;
    } else {
      w := Follow(b[0] % 32);
      var length := rest[..w];
      LengthFits(length);
      ToBytesBigEndian(length);
      assert rest == length + h.rest;
      Associative([b[0]], length, h.rest);
    }
  }

  // ---------- every serialisation is decoded to what it denotes ----------

  lemma {:induction false} Decoded(t: Tree, tail: seq<byte>)
    requires WellFormed(t)
    ensures Item(Serialize(t) + tail) == Ok((Denote(t), tail))
    decreases t, 0
  {
    match t
    case UintTree(w, n) => HeadRoundTrip(0, w, n, tail);
    case BytesTree(w, b) => Body(2, w, b, tail);
    case TextTree(w, s) => Body(3, w, s, tail);
    case ArrayTree(w, items) =>
      AllDecoded(items, tail);
      ArrayItem(t, tail);
    case MapTree(w, entries) =>
      EntriesDecoded(entries, map[], tail);
      MapItem(t, tail);
  }

  lemma ListItem(b: seq<byte>, n: nat, rest: seq<byte>, items: seq<Value>, tail: seq<byte>)
    requires ReadHead(b) == Ok(Head(4, n, rest)) && Items(rest, n) == Ok((items, tail))
    ensures Item(b) == Ok((List(items), tail))
  {}

  lemma DictItem(b: seq<byte>, n: nat, rest: seq<byte>, entries: map<seq<byte>, Value>, tail: seq<byte>)
    requires ReadHead(b) == Ok(Head(5, n, rest)) && Entries(rest, n, map[]) == Ok((entries, tail))
    ensures Item(b) == Ok((Dict(entries), tail))
  {}

  lemma ArrayItem(t: Tree, tail: seq<byte>)
    requires t.ArrayTree? && WellFormed(t)
    requires Items(SerializeAll(t.items) + tail, |t.items|) == Ok((DenoteAll(t.items), tail))
    ensures Item(Serialize(t) + tail) == Ok((Denote(t), tail))
  {
    var n, body := |t.items|, SerializeAll(t.items);
    Headed(4, t.w, n, body, tail);
    ListItem(HeadBytes(4, t.w, n) + body + tail, n, body + tail, DenoteAll(t.items), tail);
  }

  lemma MapItem(t: Tree, tail: seq<byte>)
    requires t.MapTree? && WellFormed(t)
    requires Entries(SerializeEntries(t.entries) + tail, |t.entries|, map[]) == Ok((DenoteEntries(t.entries, map[]), tail))
    ensures Item(Serialize(t) + tail) == Ok((Denote(t), tail))
  {
    var n, body := |t.entries|, SerializeEntries(t.entries);
    Headed(5, t.w, n, body, tail);
    DictItem(HeadBytes(5, t.w, n) + body + tail, n, body + tail, DenoteEntries(t.entries, map[]), tail);
  }

  lemma Headed(major: nat, w: nat, n: nat, body: seq<byte>, tail: seq<byte>)
    requires major < 8 && Fits(w, n)
    ensures ReadHead(HeadBytes(major, w, n) + body + tail) == Ok(Head(major, n, body + tail))
  {
    HeadRoundTrip(major, w, n, body + tail);
    Associative(HeadBytes(major, w, n), body, tail);
  }

  lemma Associative(a: seq<byte>, b: seq<byte>, c: seq<byte>)
    ensures a + (b + c) == (a + b) + c
  {}

  /** A byte or text string behind its head. */
  lemma Body(major: nat, w: nat, b: seq<byte>, tail: seq<byte>)
    requires major in {2, 3} && Fits(w, |b|)
    ensures Item(HeadBytes(major, w, |b|) + b + tail) == Ok((if major == 2 then Bytes(b) else Text(b), tail))
  {
    Headed(major, w, |b|, b, tail);
    assert (b + tail)[..|b|] == b && (b + tail)[|b|..] == tail;
  }

  lemma {:induction false} AllDecoded(items: seq<Tree>, tail: seq<byte>)
    requires forall i :: 0 <= i < |items| ==> WellFormed(items[i])
    ensures Items(SerializeAll(items) + tail, |items|) == Ok((DenoteAll(items), tail))
    decreases items, 1
  {
    if items == [] {
      assert SerializeAll(items) + tail == tail;
    } else {
      var rest := SerializeAll(items[1..]) + tail;
      assert SerializeAll(items) + tail == Serialize(items[0]) + rest;
      Decoded(items[0], rest);
      AllDecoded(items[1..], tail);
    }
  }

  lemma EntryFirst(head: seq<byte>, key: seq<byte>, value: seq<byte>, more: seq<byte>, tail: seq<byte>)
    ensures head + key + value + more + tail == head + key + (value + (more + tail))
  {}

  lemma {:induction false} EntriesDecoded(entries: seq<EntryTree>, acc: map<seq<byte>, Value>, tail: seq<byte>)
    requires forall i :: 0 <= i < |entries| ==> Fits(entries[i].w, |entries[i].key|) && WellFormed(entries[i].value)
    ensures Entries(SerializeEntries(entries) + tail, |entries|, acc) == Ok((DenoteEntries(entries, acc), tail))
    decreases entries, 1
  {
    if entries == [] {
      assert SerializeEntries(entries) + tail == tail;
    } else {
      var e := entries[0];
      var rest := SerializeEntries(entries[1..]) + tail;
      EntryFirst(HeadBytes(3, e.w, |e.key|), e.key, Serialize(e.value), SerializeEntries(entries[1..]), tail);
      Body(3, e.w, e.key, Serialize(e.value) + rest);
      Decoded(e.value, rest);
      assert Pair(SerializeEntries(entries) + tail) == Ok((e.key, Denote(e.value), rest));
      EntriesDecoded(entries[1..], acc[e.key := Denote(e.value)], tail);
    }
  }

  // ---------- everything accepted is a serialisation ----------

  lemma LeafParsed(b: seq<byte>) returns (t: Tree)
    requires Item(b).Ok? && ReadHead(b).value.major in {0, 2, 3}
    ensures WellFormed(t) && Denote(t) == Item(b).value.0 && b == Serialize(t) + Item(b).value.1
  {
    var Head(major, n, rest) := ReadHead(b).value;
    var w := HeadParsed(b);
    if major == 0 {
      t := UintTree(w, n);
    } else {
      t := if major == 2 then BytesTree(w, rest[..n]) else TextTree(w, rest[..n]);
      assert rest == rest[..n] + rest[n..];
      Associative(HeadBytes(major, w, n), rest[..n], rest[n..]);
    }
  }

  lemma {:induction false} Parsed(b: seq<byte>) returns (t: Tree)
    requires Item(b).Ok?
    ensures WellFormed(t) && Denote(t) == Item(b).value.0 && b == Serialize(t) + Item(b).value.1
    decreases |b|, 0
  {
    var Head(major, n, rest) := ReadHead(b).value;
    if major in {0, 2, 3} {
      t := LeafParsed(b);
    } else {
      var w := HeadParsed(b);
      if major == 4 {
        var items := AllParsed(rest, n);
        t := ArrayTree(w, items);
        Associative(HeadBytes(4, w, n), SerializeAll(items), Item(b).value.1);
      } else {
        var entries := EntriesParsed(rest, n, map[]);
        t := MapTree(w, entries);
        Associative(HeadBytes(5, w, n), SerializeEntries(entries), Item(b).value.1);
      }
    }
  }

  lemma ConsItems(t: Tree, more: seq<Tree>)
    requires WellFormed(t) && forall i :: 0 <= i < |more| ==> WellFormed(more[i])
    ensures forall i :: 0 <= i < |[t] + more| ==> WellFormed(([t] + more)[i])
    ensures SerializeAll([t] + more) == Serialize(t) + SerializeAll(more)
    ensures DenoteAll([t] + more) == [Denote(t)] + DenoteAll(more)
  {
    assert ([t] + more)[1..] == more;
  }

  lemma ConsEntries(e: EntryTree, more: seq<EntryTree>, acc: map<seq<byte>, Value>)
    requires Fits(e.w, |e.key|) && WellFormed(e.value)
    requires forall i :: 0 <= i < |more| ==> Fits(more[i].w, |more[i].key|) && WellFormed(more[i].value)
    ensures var all := [e] + more;
            && (forall i :: 0 <= i < |all| ==> Fits(all[i].w, |all[i].key|) && WellFormed(all[i].value))
            && SerializeEntries(all) == HeadBytes(3, e.w, |e.key|) + e.key + Serialize(e.value) + SerializeEntries(more)
            && DenoteEntries(all, acc) == DenoteEntries(more, acc[e.key := Denote(e.value)])
  {
    assert ([e] + more)[1..] == more;
  }

  lemma {:induction false} AllParsed(b: seq<byte>, n: nat) returns (items: seq<Tree>)
    requires Items(b, n).Ok?
    ensures |items| == n && forall i :: 0 <= i < n ==> WellFormed(items[i])
    ensures DenoteAll(items) == Items(b, n).value.0 && b == SerializeAll(items) + Items(b, n).value.1
    decreases |b|, 1
  {
    if n == 0 {
      items := [];
    } else {
      var first := Parsed(b);
      var more := AllParsed(Item(b).value.1, n - 1);
      items := [first] + more;
      ConsItems(first, more);
      Associative(Serialize(first), SerializeAll(more), Items(b, n).value.1);
    }
  }

  lemma {:induction false} PairParsed(b: seq<byte>) returns (e: EntryTree)
    requires Pair(b).Ok?
    ensures Fits(e.w, |e.key|) && WellFormed(e.value)
    ensures var (k, v, tail) := Pair(b).value;
      e.key == k && Denote(e.value) == v && b == HeadBytes(3, e.w, |e.key|) + e.key + Serialize(e.value) + tail
    decreases |b|, 1
  {
    var key := Parsed(b);
    var value := Parsed(Item(b).value.1);
    e := EntryTree(key.w, key.s, value);
    Associative(Serialize(key), Serialize(value), Pair(b).value.2);
  }

  lemma {:induction false} EntriesParsed(b: seq<byte>, n: nat, acc: map<seq<byte>, Value>) returns (entries: seq<EntryTree>)
    requires Entries(b, n, acc).Ok?
    ensures |entries| == n
    ensures forall i :: 0 <= i < n ==> Fits(entries[i].w, |entries[i].key|) && WellFormed(entries[i].value)
    ensures DenoteEntries(entries, acc) == Entries(b, n, acc).value.0
    ensures b == SerializeEntries(entries) + Entries(b, n, acc).value.1
    decreases |b|, 2
  {
    if n == 0 {
      entries := [];
    } else {
      var (k, v, tail) := Pair(b).value;
      var e := PairParsed(b);
      var more := EntriesParsed(tail, n - 1, acc[k := v]);
      entries := [e] + more;
      ConsEntries(e, more, acc);
      Associative(HeadBytes(3, e.w, |e.key|) + e.key + Serialize(e.value), SerializeEntries(more), Entries(b, n, acc).value.1);
    }
  }

  // ---------- main results ----------

  /** The decoder accepts exactly the serialisations of well-formed trees, with the value they denote. */
  lemma DecodeIffSerialization(b: seq<byte>, v: Value)
    ensures Decode(b) == Ok(v) <==> exists t :: WellFormed(t) && Serialize(t) == b && Denote(t) == v
  {
    if Decode(b) == Ok(v) {
      var t := Parsed(b);
      assert Serialize(t) + [] == Serialize(t);
    }
    forall t | WellFormed(t) && Serialize(t) == b ensures Decode(b) == Ok(Denote(t)) {
      Decoded(t, []);
      assert Serialize(t) + [] == b;
    }
  }

  /** Bytes after an accepted item never influence it, and the rest is a strictly shorter suffix. */
  lemma SelfDelimiting(b: seq<byte>, more: seq<byte>)
    requires Item(b).Ok?
    ensures var (v, rest) := Item(b).value;
      && Item(b + more) == Ok((v, rest + more))
      && |rest| < |b| && rest == b[|b| - |rest|..]
  {
    var (v, rest) := Item(b).value;
    var t := Parsed(b);
    Associative(Serialize(t), rest, more);
    Decoded(t, rest + more);
  }

  /** No accepted input is a proper prefix of another. */
  lemma PrefixFree(b: seq<byte>, more: seq<byte>)
    requires Decode(b).Ok? && Decode(b + more).Ok?
    ensures more == []
  {
    SelfDelimiting(b, more);
  }

  // ---------- the encoder of the tests ----------

  function Initial(major: nat, low: nat): byte
    requires major < 8 && low < 32
  {
    major * 32 + low
  }

  function CborUint(major: nat, n: nat): seq<byte>
    requires major < 8
  {
    if n < 24 then [Initial(major, n)]
    else if n < 256 then [Initial(major, 24), n % 256]
    else [Initial(major, 25), (n / 256) % 256, n % 256]
  }

  function CborText(s: seq<byte>): seq<byte> { CborUint(3, |s|) + s }

  function CborBytes(b: seq<byte>): seq<byte> { CborUint(2, |b|) + b }

  lemma LowBytes(n: nat)
    ensures (n % 0x1_0000) / 256 == (n / 256) % 256 && (n % 0x1_0000) % 256 == n % 256
  {
    var q, m := n / 0x1_0000, n % 0x1_0000;
    assert n == 256 * (256 * q + m / 256) + m % 256;
    assert n / 256 == 256 * q + m / 256;
  }

  /** The head the test encoder writes: the shortest of the first three forms, for n modulo 65536 beyond them. */
  lemma UintHead(major: nat, n: nat)
    requires major < 8
    ensures CborUint(major, n) ==
      HeadBytes(major, if n < 24 then 0 else if n < 256 then 1 else 2, if n < 256 then n else n % 0x1_0000)
  {
    if n >= 256 {
      LowBytes(n);
      var m := n % 0x1_0000;
      assert ToBytes(m, 2) == ToBytes(m / 256, 1) + [m % 256];
      assert ToBytes(m / 256, 1) == [] + [m / 256];
    } else if n >= 24 {
      assert ToBytes(n, 1) == [] + [n % 256];
    }
  }

  lemma WholeString(major: nat, w: nat, head: seq<byte>, s: seq<byte>)
    requires major in {2, 3} && Fits(w, |s|) && head == HeadBytes(major, w, |s|)
    ensures Item(head + s) == Ok((if major == 2 then Bytes(s) else Text(s), []))
  {
    Body(major, w, s, []);
    assert head + s + [] == head + s;
  }

  lemma LongString(major: nat, s: seq<byte>)
    requires major in {2, 3} && |s| >= 0x1_0000
    ensures var m := |s| % 0x1_0000;
      Item(CborUint(major, |s|) + s) == Ok((if major == 2 then Bytes(s[..m]) else Text(s[..m]), s[m..]))
  {
    var m := |s| % 0x1_0000;
    UintHead(major, |s|);
    Body(major, 2, s[..m], s[m..]);
    assert CborUint(major, |s|) + s[..m] + s[m..] == CborUint(major, |s|) + s;
  }

  lemma StringRoundTrip(major: nat, s: seq<byte>)
    requires major in {2, 3}
    ensures Decode(CborUint(major, |s|) + s) == Ok(if major == 2 then Bytes(s) else Text(s)) <==> |s| < 0x1_0000
  {
    UintHead(major, |s|);
    if |s| < 0x1_0000 {
      WholeString(major, if |s| < 24 then 0 else if |s| < 256 then 1 else 2, CborUint(major, |s|), s);
    } else {
      LongString(major, s);
    }
  }

  /** The test encoder's strings round-trip exactly up to 65535 bytes; longer ones are rejected or cut short. */
  lemma TestEncoderRoundTrip(s: seq<byte>)
    ensures Decode(CborText(s)) == Ok(Text(s)) <==> |s| < 0x1_0000
    ensures Decode(CborBytes(s)) == Ok(Bytes(s)) <==> |s| < 0x1_0000
  {
    StringRoundTrip(2, s);
    StringRoundTrip(3, s);
  }

  // ---------- repeated keys and trailing bytes ----------

  /** Entry i is the last with its key. */
  predicate LastOf(entries: seq<EntryTree>, i: nat, key: seq<byte>) {
    i < |entries| && entries[i].key == key && forall j :: i < j < |entries| ==> entries[j].key != key
  }

  lemma {:induction false} FoldedEntries(entries: seq<EntryTree>, acc: map<seq<byte>, Value>, key: seq<byte>)
    ensures var m := DenoteEntries(entries, acc);
      if exists i :: 0 <= i < |entries| && entries[i].key == key
      then key in m && exists i: nat :: LastOf(entries, i, key) && m[key] == Denote(entries[i].value)
      else (key in m <==> key in acc) && (key in acc ==> m[key] == acc[key])
    decreases |entries|
  {
    if entries != [] {
      var more := entries[1..];
      FoldedEntries(more, acc[entries[0].key := Denote(entries[0].value)], key);
      assert forall i :: 0 <= i < |more| ==> more[i] == entries[i + 1];
      if i: nat :| i < |more| && more[i].key == key {
        assert entries[i + 1].key == key;
        var k: nat :| LastOf(more, k, key) && DenoteEntries(entries, acc)[key] == Denote(more[k].value);
        LastLater(entries, k, key);
      } else if entries[0].key == key {
        assert LastOf(entries, 0, key);
      }
    }
  }

  lemma LastLater(entries: seq<EntryTree>, k: nat, key: seq<byte>)
    requires entries != [] && LastOf(entries[1..], k, key)
    ensures LastOf(entries, k + 1, key)
  {
    assert forall j :: k + 1 < j < |entries| ==> entries[j] == entries[1..][j - 1];
  }

  /** A map has exactly the keys of its entries, and a repeated key keeps the value of its last entry. */
  lemma LastEntryWins(entries: seq<EntryTree>, key: seq<byte>)
    ensures var m := DenoteEntries(entries, map[]);
      && (key in m <==> exists i :: 0 <= i < |entries| && entries[i].key == key)
      && (key in m ==> exists i: nat :: LastOf(entries, i, key) && m[key] == Denote(entries[i].value))
  {
    FoldedEntries(entries, map[], key);
  }

  lemma {:induction false} ItemNotTrailing(b: seq<byte>)
    ensures Item(b) != Err(TrailingBytes)
    decreases |b|, 0
  {
    if ReadHead(b).Ok? {
      var head := ReadHead(b).value;
      if head.major == 4 { ItemsNotTrailing(head.rest, head.n); }
      if head.major == 5 { EntriesNotTrailing(head.rest, head.n, map[]); }
    }
  }

  lemma {:induction false} ItemsNotTrailing(b: seq<byte>, n: nat)
    ensures Items(b, n) != Err(TrailingBytes)
    decreases |b|, 1
  {
    if n > 0 {
      ItemNotTrailing(b);
      if Item(b).Ok? { ItemsNotTrailing(Item(b).value.1, n - 1); }
    }
  }

  lemma {:induction false} PairNotTrailing(b: seq<byte>)
    ensures Pair(b) != Err(TrailingBytes)
    decreases |b|, 1
  {
    ItemNotTrailing(b);
    if Item(b).Ok? { ItemNotTrailing(Item(b).value.1); }
  }

  lemma {:induction false} EntriesNotTrailing(b: seq<byte>, n: nat, acc: map<seq<byte>, Value>)
    ensures Entries(b, n, acc) != Err(TrailingBytes)
    decreases |b|, 2
  {
    if n > 0 {
      PairNotTrailing(b);
      if Pair(b).Ok? {
        var (k, v, tail) := Pair(b).value;
        EntriesNotTrailing(tail, n - 1, acc[k := v]);
      }
    }
  }

  /** An item with anything behind it. */
  predicate Trails(b: seq<byte>, t: Tree, tail: seq<byte>) {
    WellFormed(t) && tail != [] && b == Serialize(t) + tail
  }

  /** Trailing bytes are reported exactly for a whole item with something behind it. */
  lemma TrailingIff(b: seq<byte>)
    ensures Decode(b) == Err(TrailingBytes) <==> exists t, tail :: Trails(b, t, tail)
  {
    ItemNotTrailing(b);
    if Item(b).Ok? && Item(b).value.1 != [] {
      var t := Parsed(b);
      assert Trails(b, t, Item(b).value.1);
    }
    forall t, tail | Trails(b, t, tail) ensures Decode(b) == Err(TrailingBytes) {
      Decoded(t, tail);
    }
  }
}
