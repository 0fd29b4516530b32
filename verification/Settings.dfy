/**
 Tenant settings: the recursive merge of a patch over what is stored and of what is stored over the
 defaults, and the risk dials read from the result. Go maps become maps; a merged subtree is a copy here.
 */
module Settings {
  import opened Prelude
  import opened Policy

  /** A decoded JSON value; everything that is neither a number nor an object is Other. */
  datatype Json = Num(x: real) | Other(text: string) | Object(fields: map<string, Json>)

  type Tree = map<string, Json>

  /** A source value over a destination value: two objects merge key by key, anything else is replaced. */
  function Over(d: Json, s: Json): Json
    decreases s
  {
    if d.Object? && s.Object? then
      Object(map k | k in d.fields.Keys + s.fields.Keys ::
        if k !in s.fields then d.fields[k]
        else if k !in d.fields then s.fields[k]
        else Over(d.fields[k], s.fields[k]))
    else s
  }

  function Merge(dst: Tree, src: Tree): Tree {
    Over(Object(dst), Object(src)).fields
  }

  lemma MergeAt(dst: Tree, src: Tree, k: string)
    ensures k in Merge(dst, src) <==> k in dst || k in src
    ensures k in Merge(dst, src) ==>
      && (k !in src ==> Merge(dst, src)[k] == dst[k])
      && (k in src && k !in dst ==> Merge(dst, src)[k] == src[k])
      && (k in src && k in dst ==> Merge(dst, src)[k] == Over(dst[k], src[k]))
  {}

  /** `out` is dst with the keys in `done` already as in m. */
  ghost predicate Partly(dst: Tree, m: Tree, done: set<string>, out: Tree) {
    && done <= m.Keys
    && out.Keys == dst.Keys + done
    && forall k :: k in out ==> out[k] == if k in done then m[k] else dst[k]
  }

  lemma PartlyStep(dst: Tree, m: Tree, done: set<string>, out: Tree, k: string, v: Json)
    requires Partly(dst, m, done, out) && k in m && m[k] == v
    ensures Partly(dst, m, done + {k}, out[k := v])
  {}

  lemma PartlyAll(dst: Tree, src: Tree, out: Tree)
    requires Partly(dst, Merge(dst, src), src.Keys, out)
    ensures out == Merge(dst, src)
  {
    forall k ensures k in out <==> k in Merge(dst, src) { MergeAt(dst, src, k); }
    forall k | k in out ensures out[k] == Merge(dst, src)[k] { MergeAt(dst, src, k); }
  }

  /** The loop over src, in whatever order its keys come; sub-objects recursively. */
  method DeepMerge(dst: Tree, src: Json) returns (out: Tree)
    requires src.Object?
    ensures out == Merge(dst, src.fields)
    decreases src
  {
    out := dst;
    ghost var m := Merge(dst, src.fields);
    var todo := src.fields.Keys;
    while todo != {}
      invariant todo <= src.fields.Keys
      invariant Partly(dst, m, src.fields.Keys - todo, out)
      decreases |todo|
    {
      var k :| k in todo;
      var v := src.fields[k];
      var merged := v;
      if v.Object? && k in out && out[k].Object? {
        var fields := DeepMerge(out[k].fields, v);
        merged := Object(fields);
      }
      OneKey(dst, src.fields, todo, out, k, merged);
      out := out[k := merged];
      todo := todo - {k};
    }
    assert src.fields.Keys - {} == src.fields.Keys;
    PartlyAll(dst, src.fields, out);
  }

  lemma OneKey(dst: Tree, src: Tree, todo: set<string>, out: Tree, k: string, v: Json)
    requires k in todo && todo <= src.Keys && Partly(dst, Merge(dst, src), src.Keys - todo, out)
    requires v == if k in out then Over(out[k], src[k]) else src[k]
    ensures Partly(dst, Merge(dst, src), src.Keys - (todo - {k}), out[k := v])
  {
    MergeAt(dst, src, k);
    PartlyStep(dst, Merge(dst, src), src.Keys - todo, out, k, v);
    assert src.Keys - (todo - {k}) == src.Keys - todo + {k};
  }

  // ---------- what a merge does at a path ----------

  /** The value at a path of keys. */
  function At(t: Tree, path: seq<string>): Option<Json>
    requires path != []
    decreases |path|
  {
    if path[0] !in t then None
    else if |path| == 1 then Some(t[path[0]])
    else if t[path[0]].Object? then At(t[path[0]].fields, path[1..])
    else None
  }

  predicate LeafAt(t: Tree, path: seq<string>, v: Json)
    requires path != []
  {
    At(t, path) == Some(v) && !v.Object?
  }

  /** The source says something at the path or at a non-object above it. */
  predicate Covers(src: Tree, path: seq<string>)
    requires path != []
    decreases |path|
  {
    path[0] in src && (|path| == 1 || !src[path[0]].Object? || Covers(src[path[0]].fields, path[1..]))
  }

  /** Exactly which settings a merge shows: the source's own, and the destination's where the source is silent. */
  lemma {:induction false} LeafOfMergeIff(dst: Tree, src: Tree, path: seq<string>, v: Json)
    requires path != []
    ensures LeafAt(Merge(dst, src), path, v)
        <==> LeafAt(src, path, v) || (LeafAt(dst, path, v) && !Covers(src, path))
    decreases |path|
  {
    var k := path[0];
    MergeAt(dst, src, k);
    if |path| > 1 && k in src && k in dst && src[k].Object? && dst[k].Object? {
      LeafOfMergeIff(dst[k].fields, src[k].fields, path[1..], v);
    }
  }

  lemma {:induction false} CoversMerge(dst: Tree, src: Tree, path: seq<string>)
    requires path != [] && Covers(Merge(dst, src), path)
    ensures Covers(dst, path) || Covers(src, path)
    decreases |path|
  {
    var k := path[0];
    MergeAt(dst, src, k);
    if |path| > 1 && k in src && k in dst && src[k].Object? && dst[k].Object? {
      CoversMerge(dst[k].fields, src[k].fields, path[1..]);
    }
  }

  // ---------- algebra ----------

  lemma {:induction false} OverIdempotent(d: Json, s: Json)
    ensures Over(Over(d, s), s) == Over(d, s)
    ensures Over(s, s) == s
    decreases s
  {
    if s.Object? {
      forall k | k in s.fields ensures Over(s.fields[k], s.fields[k]) == s.fields[k] {
        OverIdempotent(s.fields[k], s.fields[k]);
      }
      assert Over(s, s).fields == s.fields;
      if d.Object? {
        forall k | k in s.fields && k in d.fields
          ensures Over(Over(d.fields[k], s.fields[k]), s.fields[k]) == Over(d.fields[k], s.fields[k])
        {
          OverIdempotent(d.fields[k], s.fields[k]);
        }
        assert Over(Over(d, s), s).fields == Over(d, s).fields;
      }
    }
  }

  /** Sending the same patch twice stores what sending it once does. */
  lemma MergeIdempotent(dst: Tree, src: Tree)
    ensures Merge(Merge(dst, src), src) == Merge(dst, src)
  {
    OverIdempotent(Object(dst), Object(src));
  }

  /** c has a value for every key of a, and again inside wherever both hold an object. */
  predicate Blankets(c: Json, a: Json)
    requires c.Object? && a.Object?
    decreases c
  {
    forall k :: k in a.fields ==>
      k in c.fields && (c.fields[k].Object? && a.fields[k].Object? ==> Blankets(c.fields[k], a.fields[k]))
  }

  lemma {:induction false} OverLeavesIff(a: Json, c: Json)
    requires a.Object? && c.Object?
    ensures Over(a, c) == c <==> Blankets(c, a)
    decreases c
  {
    var m := Over(a, c).fields;
    forall k | k in a.fields && k in c.fields
      ensures m[k] == c.fields[k] <==>
              (c.fields[k].Object? && a.fields[k].Object? ==> Blankets(c.fields[k], a.fields[k]))
    {
      assert m[k] == Over(a.fields[k], c.fields[k]);
      if a.fields[k].Object? && c.fields[k].Object? { OverLeavesIff(a.fields[k], c.fields[k]); }
    }
    if Blankets(c, a) { assert m == c.fields; }
  }

  /**
   The places where folding c into b first loses something: b replaces an object of a by a plain value, and c
   puts an object back. It is harmless only if c has a value of its own wherever a had one there.
   */
  ghost predicate Associates(a: Json, b: Json, c: Json)
    decreases c
  {
    if !c.Object? || !a.Object? then true
    else if !b.Object? then Blankets(c, a)
    else forall k :: k in c.fields && k in b.fields && k in a.fields ==>
      Associates(a.fields[k], b.fields[k], c.fields[k])
  }

  lemma {:induction false} OverAssociatesIff(a: Json, b: Json, c: Json)
    ensures Over(Over(a, b), c) == Over(a, Over(b, c)) <==> Associates(a, b, c)
    decreases c
  {
    if a.Object? && c.Object? { OverLeavesIff(a, c); }
    if a.Object? && b.Object? && c.Object? {
      var l, r := Over(Over(a, b), c).fields, Over(a, Over(b, c)).fields;
      assert l.Keys == r.Keys == a.fields.Keys + b.fields.Keys + c.fields.Keys;
      forall k | k in l
        ensures l[k] == r[k] <==>
          (k in c.fields && k in b.fields && k in a.fields ==> Associates(a.fields[k], b.fields[k], c.fields[k]))
      {
        if k in c.fields && k in b.fields && k in a.fields {
          OverAssociatesIff(a.fields[k], b.fields[k], c.fields[k]);
        }
      }
    }
  }

  /** Grouping three overlays either way agrees exactly when Associates holds of them. */
  lemma MergeAssociatesIff(a: Tree, b: Tree, c: Tree)
    ensures Merge(Merge(a, b), c) == Merge(a, Merge(b, c)) <==> Associates(Object(a), Object(b), Object(c))
  {
    OverAssociatesIff(Object(a), Object(b), Object(c));
  }

  // ---------- reading and patching a tenant's settings ----------

  const TENANT := "tenant"
  const INGESTION := "sessionIngestion"

  /** A patch without the facts that are derived, never stored. */
  function Strip(patch: Tree): Tree {
    if TENANT in patch && patch[TENANT].Object?
    then patch[TENANT := Object(patch[TENANT].fields - {TENANT, INGESTION})]
    else patch
  }

  function Sub(t: Tree, k: string): Tree {
    if k in t && t[k].Object? then t[k].fields else map[]
  }

  /** Stored over defaults, with the ingestion count filled in. */
  function Shown(defaults: Tree, stored: Tree, perDay: int): Tree {
    var merged := Merge(defaults, stored);
    merged[TENANT := Object(Sub(merged, TENANT)[INGESTION := Num(perDay as real)])]
  }

  class TenantSettings {
    const defaults: Tree
    var stored: Option<Tree>

    constructor (d: Tree)
      ensures defaults == d && stored == None
    {
      defaults, stored := d, None;
    }

    ghost function Overrides(): Tree
      reads this
    {
      if stored.Some? then stored.value else map[]
    }

    method GetSettings(perDay: int) returns (merged: Tree)
      ensures merged == Shown(defaults, Overrides(), perDay)
    {
      merged := defaults;
      MergeEmpty(defaults);
      if stored.Some? { merged := DeepMerge(merged, Object(stored.value)); }
      var tenant: Tree := map[];
      if TENANT in merged && merged[TENANT].Object? { tenant := merged[TENANT].fields; }
      tenant := tenant[INGESTION := Num(perDay as real)];
      merged := merged[TENANT := Object(tenant)];
    }

    /** The first statement of a patch. */
    method ReadStored() returns (before: Tree)
      ensures before == Overrides()
    {
      before := if stored.Some? then stored.value else map[];
    }

    /** The second, which writes the whole tree from what the first had read. */
    method Save(before: Tree, patch: Tree)
      modifies this
      ensures stored == Some(Merge(before, Strip(patch)))
    {
      var p := patch;
      if TENANT in p && p[TENANT].Object? {
        p := p[TENANT := Object(p[TENANT].fields - {TENANT, INGESTION})];
      }
      var after := DeepMerge(before, Object(p));
      stored := Some(after);
    }

    /** A patch that runs alone. */
    method PatchSettings(patch: Tree, perDay: int) returns (merged: Tree)
      modifies this
      ensures stored == Some(Merge(old(Overrides()), Strip(patch)))
      ensures merged == Shown(defaults, Merge(old(Overrides()), Strip(patch)), perDay)
    {
      var before := ReadStored();
      Save(before, patch);
      merged := GetSettings(perDay);
    }
  }

  lemma MergeEmpty(t: Tree)
    ensures Merge(t, map[]) == t
  {
    assert Merge(t, map[]).Keys == t.Keys;
  }

  /** A path whose value is computed, not configured. */
  predicate Derived(path: seq<string>)
    requires path != []
  {
    path[0] == TENANT && (|path| == 1 || path[1] == INGESTION)
  }

  lemma ShownLeaf(defaults: Tree, stored: Tree, perDay: int, path: seq<string>, v: Json)
    requires path != [] && !Derived(path)
    ensures LeafAt(Shown(defaults, stored, perDay), path, v) <==> LeafAt(Merge(defaults, stored), path, v)
  {
    if path[0] == TENANT {
      var rest := path[1..];
      var m, t := Sub(Merge(defaults, stored), TENANT), Sub(Shown(defaults, stored, perDay), TENANT);
      assert rest[0] != INGESTION;
      assert t == m[INGESTION := Num(perDay as real)];
      assert At(t, rest) == At(m, rest);
    }
  }

  /** A path into the facts about the tenant that no patch may set. */
  predicate Factual(path: seq<string>) {
    |path| >= 2 && path[0] == "tenant" && path[1] in {"tenant", "sessionIngestion"}
  }

  /** Stripping a patch takes out the facts, and nothing else. */
  lemma StripIff(patch: Tree, path: seq<string>, v: Json)
    requires path != []
    ensures LeafAt(Strip(patch), path, v) <==> LeafAt(patch, path, v) && !Factual(path)
    ensures Covers(Strip(patch), path) <==>
            Covers(patch, path) && !(Factual(path) && patch["tenant"].Object?)
  {
    if path[0] == TENANT && TENANT in patch && patch[TENANT].Object? {
      var facts, all := Strip(patch)[TENANT].fields, patch[TENANT].fields;
      assert facts == all - {TENANT, INGESTION};
      if |path| >= 2 {
        var rest := path[1..];
        assert At(Strip(patch), path) == At(facts, rest) && At(patch, path) == At(all, rest);
        if Factual(path) {
          assert rest[0] !in facts;
        } else {
          assert rest[0] !in {TENANT, INGESTION};
          assert At(facts, rest) == At(all, rest);
        }
      }
    }
  }

  /** Every setting in a patch is what the console then shows, facts about the tenant aside. */
  lemma PatchShows(defaults: Tree, stored: Tree, patch: Tree, perDay: int, path: seq<string>, v: Json)
    requires path != [] && !Derived(path) && !Factual(path) && LeafAt(patch, path, v)
    ensures LeafAt(Shown(defaults, Merge(stored, Strip(patch)), perDay), path, v)
  {
    StripIff(patch, path, v);
    LeafOfMergeIff(stored, Strip(patch), path, v);
    LeafOfMergeIff(defaults, Merge(stored, Strip(patch)), path, v);
    ShownLeaf(defaults, Merge(stored, Strip(patch)), perDay, path, v);
  }

  /** A setting shown before a patch that does not cover it, or covers it with a fact, is shown unchanged after. */
  lemma PatchKeepsTheRest(defaults: Tree, stored: Tree, patch: Tree, perDay: int, later: int, path: seq<string>, v: Json)
    requires path != [] && !Derived(path) && (!Covers(patch, path) || (Factual(path) && patch["tenant"].Object?))
    requires LeafAt(Shown(defaults, stored, perDay), path, v)
    ensures LeafAt(Shown(defaults, Merge(stored, Strip(patch)), later), path, v)
  {
    var stored' := Merge(stored, Strip(patch));
    StripIff(patch, path, v);
    ShownLeaf(defaults, stored, perDay, path, v);
    ShownLeaf(defaults, stored', later, path, v);
    LeafOfMergeIff(defaults, stored, path, v);
    LeafOfMergeIff(stored, Strip(patch), path, v);
    LeafOfMergeIff(defaults, stored', path, v);
    if Covers(stored', path) { CoversMerge(stored, Strip(patch), path); }
  }

  /**
   Two patches that both read before either writes: a setting only the first one made is shown at the end
   exactly when it had been stored before both, or is a default that nothing stored then covers. One after the
   other, it is always shown.
   */
  lemma RacedPatchSurvivesIff(defaults: Tree, stored: Tree, first: Tree, second: Tree, perDay: int,
                              path: seq<string>, v: Json)
    requires path != [] && !Derived(path)
    requires LeafAt(first, path, v) && !Factual(path) && !Covers(second, path)
    ensures var raced, serial := Merge(stored, Strip(second)), Merge(Merge(stored, Strip(first)), Strip(second));
      && (LeafAt(Shown(defaults, raced, perDay), path, v) <==>
            LeafAt(stored, path, v) || (LeafAt(defaults, path, v) && !Covers(raced, path)))
      && LeafAt(Shown(defaults, serial, perDay), path, v)
  {
    var raced := Merge(stored, Strip(second));
    StripIff(first, path, v);
    StripIff(second, path, v);
    ShownLeaf(defaults, raced, perDay, path, v);
    LeafOfMergeIff(defaults, raced, path, v);
    LeafOfMergeIff(stored, Strip(second), path, v);
    if LeafAt(Strip(second), path, v) { LeafIsCovered(Strip(second), path, v); }
    PatchShows(defaults, stored, first, perDay, path, v);
    PatchKeepsTheRest(defaults, Merge(stored, Strip(first)), second, perDay, perDay, path, v);
  }

  lemma {:induction false} LeafIsCovered(t: Tree, path: seq<string>, v: Json)
    requires path != [] && LeafAt(t, path, v)
    ensures Covers(t, path)
    decreases |path|
  {
    if |path| > 1 { LeafIsCovered(t[path[0]].fields, path[1..], v); }
  }

  function Patched(stored: Tree, patches: seq<Tree>): Tree {
    if patches == [] then stored
    else Merge(Patched(stored, patches[..|patches| - 1]), Strip(patches[|patches| - 1]))
  }

  predicate StoresFact(t: Tree, fact: string) {
    "tenant" in t && t["tenant"].Object? && fact in t["tenant"].fields
  }

  /** No run of patches ever stores the tenant's identity or the ingestion count. */
  lemma {:induction false} DerivedNeverStored(stored: Tree, patches: seq<Tree>, fact: string)
    requires fact in {"tenant", "sessionIngestion"} && !StoresFact(stored, fact)
    ensures !StoresFact(Patched(stored, patches), fact)
  {
    if patches == [] {
    } else {
      var before, patch := Patched(stored, patches[..|patches| - 1]), Strip(patches[|patches| - 1]);
      DerivedNeverStored(stored, patches[..|patches| - 1], fact);
      MergeAt(before, patch, TENANT);
      if TENANT in patch && TENANT in before && patch[TENANT].Object? && before[TENANT].Object? {
        MergeAt(before[TENANT].fields, patch[TENANT].fields, fact);
      }
    }
  }

  /** So the count that is shown is always the live one, whatever was patched. */
  lemma IngestionIsLive(defaults: Tree, stored: Tree, patches: seq<Tree>, perDay: int)
    ensures LeafAt(Shown(defaults, Patched(stored, patches), perDay), ["tenant", "sessionIngestion"], Num(perDay as real))
  {
    var path := ["tenant", "sessionIngestion"];
    assert path[1..] == ["sessionIngestion"];
  }

  // ---------- the risk dials ----------

  const DEFAULT_BANDS := Bands(55, 85)

  /** Conversion of a float to an integer: towards zero. */
  function Trunc(x: real): int {
    if x >= 0.0 then x.Floor else -((-x).Floor)
  }

  function Number(t: Tree, k: string): Option<real> {
    if k in t && t[k].Num? then Some(t[k].x) else None
  }

  predicate Sane(b: Bands) {
    b.stepUpAt > 0 && b.holdAt > b.stepUpAt && b.holdAt <= 100
  }

  /** What the tenant asked for, defaults filled in. */
  function Asked(bands: Tree): Bands {
    Bands(if Number(bands, "stepUp").Some? then Trunc(Number(bands, "stepUp").value) else DEFAULT_BANDS.stepUpAt,
          if Number(bands, "hold").Some? then Trunc(Number(bands, "hold").value) else DEFAULT_BANDS.holdAt)
  }

  /** A velocity dial: a positive number, truncated; the default otherwise. */
  function Dial(t: Tree, k: string, default: int): int {
    if Number(t, k).Some? && Number(t, k).value > 0.0 then Trunc(Number(t, k).value) else default
  }

  datatype Velocity = Velocity(windowMin: int, threshold: int, baseWeight: int, slope: int)

  const DEFAULT_VELOCITY := Velocity(10, 4, 20, 15)

  /** The scoring engine's last word on the dials: anything not positive falls back. */
  function VelocityConfig(v: Velocity): (r: Velocity)
    ensures r.windowMin > 0 && r.threshold > 0 && r.baseWeight > 0 && r.slope > 0
    ensures r.windowMin == (if v.windowMin > 0 then v.windowMin else 10)
    ensures r.threshold == (if v.threshold > 0 then v.threshold else 4)
    ensures r.baseWeight == (if v.baseWeight > 0 then v.baseWeight else 20)
    ensures r.slope == (if v.slope > 0 then v.slope else 15)
    ensures v.windowMin > 0 && v.threshold > 0 && v.baseWeight > 0 && v.slope > 0 <==> r == v
  {
    Velocity(if v.windowMin <= 0 then DEFAULT_VELOCITY.windowMin else v.windowMin,
             if v.threshold <= 0 then DEFAULT_VELOCITY.threshold else v.threshold,
             if v.baseWeight <= 0 then DEFAULT_VELOCITY.baseWeight else v.baseWeight,
             if v.slope <= 0 then DEFAULT_VELOCITY.slope else v.slope)
  }

  method ResolveBands(risk: Tree) returns (bands: Bands)
    ensures bands == if Sane(Asked(Sub(risk, "bands"))) then Asked(Sub(risk, "bands")) else DEFAULT_BANDS
    ensures Sane(bands)
  {
    bands := DEFAULT_BANDS;
    if "bands" in risk && risk["bands"].Object? {
      var b := risk["bands"].fields;
      var stepUp, hold := bands.stepUpAt, bands.holdAt;
      var f := Number(b, "stepUp");
      if f.Some? { stepUp := Trunc(f.value); }
      f := Number(b, "hold");
      if f.Some? { hold := Trunc(f.value); }
      if stepUp > 0 && hold > stepUp && hold <= 100 { bands := Bands(stepUp, hold); }
    }
  }

  function Dials(v: Tree): Velocity {
    Velocity(Dial(v, "windowMin", DEFAULT_VELOCITY.windowMin), Dial(v, "threshold", DEFAULT_VELOCITY.threshold),
             Dial(v, "baseWeight", DEFAULT_VELOCITY.baseWeight), Dial(v, "slope", DEFAULT_VELOCITY.slope))
  }

  method ResolveVelocity(risk: Tree) returns (velocity: Velocity)
    ensures velocity == Dials(Sub(risk, "velocity"))
  {
    velocity := DEFAULT_VELOCITY;
    if "velocity" in risk && risk["velocity"].Object? {
      var v := risk["velocity"].fields;
      var f := Number(v, "windowMin");
      if f.Some? && f.value > 0.0 { velocity := velocity.(windowMin := Trunc(f.value)); }
      f := Number(v, "threshold");
      if f.Some? && f.value > 0.0 { velocity := velocity.(threshold := Trunc(f.value)); }
      f := Number(v, "baseWeight");
      if f.Some? && f.value > 0.0 { velocity := velocity.(baseWeight := Trunc(f.value)); }
      f := Number(v, "slope");
      if f.Some? && f.value > 0.0 { velocity := velocity.(slope := Trunc(f.value)); }
    }
  }

  /** What the stored settings say of the bands and the dials. */
  function ResolvedBands(stored: Tree): Bands {
    var asked := Asked(Sub(Sub(stored, "risk"), "bands"));
    if Sane(asked) then asked else DEFAULT_BANDS
  }

  method ResolveRisk(stored: Option<Tree>) returns (bands: Bands, velocity: Velocity)
    ensures var tree := if stored.Some? then stored.value else map[];
      bands == ResolvedBands(tree) && velocity == Dials(Sub(Sub(tree, "risk"), "velocity"))
    ensures Sane(bands)
  {
    bands, velocity := DEFAULT_BANDS, DEFAULT_VELOCITY;
    if stored.None? { return; }
    if "risk" !in stored.value || !stored.value["risk"].Object? { return; }
    bands := ResolveBands(stored.value["risk"].fields);
    velocity := ResolveVelocity(stored.value["risk"].fields);
  }

  /** The number stored at a path, if there is one. */
  function NumberAt(t: Tree, path: seq<string>): Option<real>
    requires path != []
  {
    var v := At(t, path);
    if v.Some? && v.value.Num? then Some(v.value.x) else None
  }

  lemma AtUnder(t: Tree, k: string, rest: seq<string>)
    requires rest != []
    ensures At(t, [k] + rest) == At(Sub(t, k), rest)
  {
    assert ([k] + rest)[1..] == rest;
  }

  lemma NumberUnder(t: Tree, a: string, b: string, k: string)
    ensures Number(Sub(Sub(t, a), b), k) == NumberAt(t, [a, b, k])
  {
    AtUnder(t, a, [b, k]);
    AtUnder(Sub(t, a), b, [k]);
    assert [a] + [b, k] == [a, b, k] && [b] + [k] == [b, k];
  }

  /** The whole part of a number, sign and all. */
  lemma TruncIs(x: real)
    ensures x >= 0.0 ==> 0 <= Trunc(x) && Trunc(x) as real <= x < Trunc(x) as real + 1.0
    ensures x < 0.0 ==> Trunc(x) <= 0 && Trunc(x) as real - 1.0 < x <= Trunc(x) as real
  {}

  function WholeOr(x: Option<real>, default: int): int {
    if x.Some? then Trunc(x.value) else default
  }

  /** Which stored numbers the bands are: both as asked, or both at their defaults when the pair makes no sense. */
  lemma BandsFrom(stored: Tree)
    ensures var stepUp := WholeOr(NumberAt(stored, ["risk", "bands", "stepUp"]), 55);
      var hold := WholeOr(NumberAt(stored, ["risk", "bands", "hold"]), 85);
      ResolvedBands(stored) == if 0 < stepUp < hold <= 100 then Bands(stepUp, hold) else Bands(55, 85)
  {
    NumberUnder(stored, "risk", "bands", "stepUp");
    NumberUnder(stored, "risk", "bands", "hold");
  }

  function PositiveOr(x: Option<real>, default: int): int {
    if x.Some? && x.value > 0.0 then Trunc(x.value) else default
  }

  /** Which stored number each velocity dial is. */
  lemma DialsFrom(stored: Tree)
    ensures var v := Dials(Sub(Sub(stored, "risk"), "velocity"));
      && v.windowMin == PositiveOr(NumberAt(stored, ["risk", "velocity", "windowMin"]), 10)
      && v.threshold == PositiveOr(NumberAt(stored, ["risk", "velocity", "threshold"]), 4)
      && v.baseWeight == PositiveOr(NumberAt(stored, ["risk", "velocity", "baseWeight"]), 20)
      && v.slope == PositiveOr(NumberAt(stored, ["risk", "velocity", "slope"]), 15)
  {
    NumberUnder(stored, "risk", "velocity", "windowMin");
    NumberUnder(stored, "risk", "velocity", "threshold");
    NumberUnder(stored, "risk", "velocity", "baseWeight");
    NumberUnder(stored, "risk", "velocity", "slope");
  }

  /** Whatever a tenant stores, it can still hold the worst score and still lets the best one pass. */
  lemma BandsAlwaysWork(b: Bands)
    requires Sane(b)
    ensures Decide(100, b) == HOLD && Decide(0, b) == ALLOW
    ensures exists score :: 0 <= score <= 100 && Decide(score, b) == STEP_UP
  {
    assert Decide(b.stepUpAt, b) == STEP_UP;
  }
}
