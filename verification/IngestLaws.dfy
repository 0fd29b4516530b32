/**
 What the incremental tables of Ingest mean: the session columns are a fold over the stored event
 rows, resends change nothing, cutting a batch changes nothing, and a stale deduplication read can
 only over-count.
 */
module IngestLaws {
  import opened Prelude
  import opened Ingest

  // ---------- the reference: a fold over the rows ----------

  function RowsOf(rows: seq<Row>, sid: string): seq<Row> {
    if rows == [] then [] else
      var rest := RowsOf(rows[..|rows| - 1], sid);
      if rows[|rows| - 1].sessionId == sid then rest + [rows[|rows| - 1]] else rest
  }

  function RowAgg(r: Row): Agg {
    Agg(1, r.at, r.at, r.sim, r.userRef)
  }

  function Fold(rows: seq<Row>): Agg {
    if rows == [] then Zero else Merge(Fold(rows[..|rows| - 1]), RowAgg(rows[|rows| - 1]))
  }

  function AggOf(sessions: map<string, Session>, sid: string): Agg {
    if sid in sessions then sessions[sid].agg else Zero
  }

  /** Count, minimum, maximum and disjunction of the folded rows. */
  lemma {:induction false} FoldMeaning(rows: seq<Row>)
    ensures Fold(rows).count == |rows|
    ensures forall r :: r in rows ==> Fold(rows).first <= r.at <= Fold(rows).last
    ensures rows != [] ==> exists r :: r in rows && r.at == Fold(rows).first
    ensures rows != [] ==> exists r :: r in rows && r.at == Fold(rows).last
    ensures Fold(rows).sim <==> exists r :: r in rows && r.sim
  {
    if rows != [] {
      var rest, r := rows[..|rows| - 1], rows[|rows| - 1];
      FoldMeaning(rest);
      assert rows == rest + [r];
      assert r in rows && forall x :: x in rest ==> x in rows;
    }
  }

  /** `user` is the first non-empty user reference of the folded rows. */
  lemma {:induction false} FoldUser(rows: seq<Row>)
    ensures Fold(rows).count == |rows|
    ensures Fold(rows).user == "" <==> forall i :: 0 <= i < |rows| ==> rows[i].userRef == ""
    ensures Fold(rows).user != "" ==> exists i :: 0 <= i < |rows| && rows[i].userRef == Fold(rows).user &&
                                       forall j :: 0 <= j < i ==> rows[j].userRef == ""
  {
    if rows != [] {
      var rest := rows[..|rows| - 1];
      FoldUser(rest);
      assert forall i :: 0 <= i < |rest| ==> rows[i] == rest[i];
    }
  }

  lemma MergeAssociative(a: Agg, b: Agg, c: Agg)
    ensures Merge(Merge(a, b), c) == Merge(a, Merge(b, c))
  {}

  lemma {:induction false} FoldConcat(a: seq<Row>, b: seq<Row>)
    ensures Fold(a + b) == Merge(Fold(a), Fold(b))
  {
    if b == [] {
      assert a + b == a;
    } else {
      var rest := b[..|b| - 1];
      assert (a + b)[..|a + b| - 1] == a + rest;
      FoldConcat(a, rest);
      MergeAssociative(Fold(a), Fold(rest), RowAgg(b[|b| - 1]));
    }
  }

  lemma {:induction false} RowsOfConcat(a: seq<Row>, b: seq<Row>, sid: string)
    ensures RowsOf(a + b, sid) == RowsOf(a, sid) + RowsOf(b, sid)
  {
    if b == [] {
      assert a + b == a;
    } else {
      assert (a + b)[..|a + b| - 1] == a + b[..|b| - 1];
      RowsOfConcat(a, b[..|b| - 1], sid);
    }
  }

  lemma {:induction false} RowsOfHas(rows: seq<Row>, sid: string, r: Row)
    ensures r in RowsOf(rows, sid) <==> r in rows && r.sessionId == sid
  {
    if rows != [] {
      RowsOfHas(rows[..|rows| - 1], sid, r);
      assert rows == rows[..|rows| - 1] + [rows[|rows| - 1]];
    }
  }

  function ToRows(events: seq<Event>, batchInstall: string, now: int): seq<Row> {
    if events == [] then [] else
      ToRows(events[..|events| - 1], batchInstall, now) + [ToRow(events[|events| - 1], batchInstall, now)]
  }

  lemma {:induction false} ToRowsOf(events: seq<Event>, batchInstall: string, now: int, sid: string)
    ensures RowsOf(ToRows(events, batchInstall, now), sid) == ToRows(Of(events, sid), batchInstall, now)
  {
    if events != [] {
      var rest, e := events[..|events| - 1], events[|events| - 1];
      ToRowsOf(rest, batchInstall, now, sid);
      var rows := ToRows(events, batchInstall, now);
      assert rows[..|rows| - 1] == ToRows(rest, batchInstall, now);
      if e.sessionId == sid {
        assert Of(events, sid)[..|Of(events, sid)| - 1] == Of(rest, sid);
      }
    }
  }

  predicate Positive(events: seq<Event>) {
    forall e :: e in events ==> e.ts > 0
  }

  lemma {:induction false} OfPositive(events: seq<Event>, sid: string)
    requires Positive(events)
    ensures Positive(Of(events, sid))
  {
    if events != [] { OfPositive(events[..|events| - 1], sid); }
  }

  /** One pass over a session's events computes the fold over the rows they become. */
  lemma {:induction false} SummaryIsFold(evs: seq<Event>, batchInstall: string, now: int)
    requires evs != [] && Positive(evs)
    ensures MinTs(evs) > 0 && MaxTs(evs) > 0
    ensures Summary(evs, now) == Fold(ToRows(evs, batchInstall, now))
  {
    var rest, e := evs[..|evs| - 1], evs[|evs| - 1];
    assert e in evs;
    var rows := ToRows(evs, batchInstall, now);
    assert rows[..|rows| - 1] == ToRows(rest, batchInstall, now);
    if rest == [] {
      assert AnySim(evs) == IsSim(e) && FirstUser(evs) == e.userRef;
    } else {
      SummaryIsFold(rest, batchInstall, now);
    }
  }

  // ---------- what the upserts do to one session ----------

  lemma UpsertAgg(db: Db, sid: string, evs: seq<Event>, batchInstall: string, now: int, s: string)
    requires evs != [] && forall x :: x in db.sessions ==> db.sessions[x].agg.count > 0
    ensures var sessions := UpsertGroup(db, sid, evs, batchInstall, now).sessions;
      && (forall x :: x in sessions ==> sessions[x].agg.count > 0)
      && AggOf(sessions, s) == if s == sid then Merge(AggOf(db.sessions, s), Summary(evs, now)) else AggOf(db.sessions, s)
  {}

  lemma {:induction false} GroupsAgg(db: Db, order: seq<string>, events: seq<Event>, batchInstall: string, now: int, sid: string)
    requires forall i, j :: 0 <= i < j < |order| ==> order[i] != order[j]
    requires forall s :: s in order ==> Of(events, s) != []
    requires forall s :: s in db.sessions ==> db.sessions[s].agg.count > 0
    ensures var sessions := ApplyGroups(db, order, events, batchInstall, now).sessions;
      && (forall s :: s in sessions ==> sessions[s].agg.count > 0)
      && AggOf(sessions, sid) ==
         if sid in order then Merge(AggOf(db.sessions, sid), Summary(Of(events, sid), now)) else AggOf(db.sessions, sid)
  {
    if order != [] {
      var rest, last := order[..|order| - 1], order[|order| - 1];
      assert order == rest + [last];
      GroupsAgg(db, rest, events, batchInstall, now, sid);
      assert last in order && last !in rest;
      UpsertAgg(ApplyGroups(db, rest, events, batchInstall, now), last, Of(events, last), batchInstall, now, sid);
    }
  }

  predicate Counted(db: Db) {
    "" !in db.sessions && forall s :: s in db.sessions ==> db.sessions[s].agg.count > 0
  }

  lemma StoreAgg(db: Db, events: seq<Event>, batchInstall: string, now: int, sid: string)
    requires Counted(db) && Positive(events) && sid != ""
    ensures Counted(Store(db, events, batchInstall, now))
    ensures AggOf(Store(db, events, batchInstall, now).sessions, sid) ==
            Merge(AggOf(db.sessions, sid), Fold(RowsOf(ToRows(events, batchInstall, now), sid)))
  {
    var order := Order(events);
    OrderDistinct(events);
    forall s | s in order ensures Of(events, s) != [] { OrderHas(events, s); }
    GroupsAgg(db, order, events, batchInstall, now, sid);
    OrderHas(events, "");
    GroupsAgg(db, order, events, batchInstall, now, "");
    GroupsKeys(db, order, events, batchInstall, now);
    OrderHas(events, sid);
    ToRowsOf(events, batchInstall, now, sid);
    if Of(events, sid) != [] {
      OfPositive(events, sid);
      SummaryIsFold(Of(events, sid), batchInstall, now);
    }
  }

  lemma {:induction false} GroupsKeys(db: Db, order: seq<string>, events: seq<Event>, batchInstall: string, now: int)
    requires forall s :: s in order ==> Of(events, s) != []
    ensures ApplyGroups(db, order, events, batchInstall, now).sessions.Keys == db.sessions.Keys + set s | s in order
  {
    if order != [] {
      assert order == order[..|order| - 1] + [order[|order| - 1]];
      GroupsKeys(db, order[..|order| - 1], events, batchInstall, now);
    }
  }

  // ---------- rows: at most one per event id ----------

  ghost predicate UniqueIds(rows: seq<Row>) {
    forall i, j :: 0 <= i < j < |rows| && rows[i].eventId != "" ==> rows[i].eventId != rows[j].eventId
  }

  /** Whatever the deduplication read saw, the unique index keeps one row per event id. */
  lemma {:induction false} InsertKeepsUnique(rows: seq<Row>, events: seq<Event>, batchInstall: string, now: int)
    requires UniqueIds(rows)
    ensures UniqueIds(InsertAll(rows, events, batchInstall, now))
  {
    if events != [] {
      var rest := events[..|events| - 1];
      InsertKeepsUnique(rows, rest, batchInstall, now);
      var before := InsertAll(rows, rest, batchInstall, now);
      assert forall i :: 0 <= i < |before| ==> before[i] in before;
    }
  }

  function BatchIds(events: seq<Event>): set<string> {
    set e | e in events && e.eventId != "" :: e.eventId
  }

  lemma BatchIdsSnoc(events: seq<Event>, e: Event)
    ensures BatchIds(events + [e]) == if e.eventId == "" then BatchIds(events) else BatchIds(events) + {e.eventId}
  {
    assert forall x :: x in events + [e] <==> x in events || x == e;
    if e.eventId != "" { assert e in events + [e]; }
  }

  lemma {:induction false} InsertedIds(rows: seq<Row>, events: seq<Event>, batchInstall: string, now: int)
    ensures Ids(InsertAll(rows, events, batchInstall, now)) == Ids(rows) + BatchIds(events)
  {
    if events != [] {
      var rest, e := events[..|events| - 1], events[|events| - 1];
      InsertedIds(rows, rest, batchInstall, now);
      assert events == rest + [e];
      BatchIdsSnoc(rest, e);
      IdsOfInsert(InsertAll(rows, rest, batchInstall, now), ToRow(e, batchInstall, now));
    }
  }

  // ---------- deduplication ----------

  predicate FreshIds(known: set<string>, events: seq<Event>) {
    && (forall e :: e in events && e.eventId != "" ==> e.eventId !in known)
    && (forall i, j :: 0 <= i < j < |events| && events[i].eventId != "" ==> events[i].eventId != events[j].eventId)
  }

  /** Exactly the first occurrence of every new id survives, with every event that has no id, in order. */
  lemma {:induction false} DedupeFresh(known: set<string>, events: seq<Event>)
    ensures FreshIds(known, Dedupe(known, events))
    ensures forall e :: e in Dedupe(known, events) ==> e in events
    ensures forall e :: e in events && (e.eventId == "" || e.eventId !in known) ==> Repeats(Dedupe(known, events), e.eventId)
    ensures forall e :: e in events && e.eventId == "" ==> e in Dedupe(known, events)
  {
    if events != [] {
      var rest, e := events[..|events| - 1], events[|events| - 1];
      DedupeFresh(known, rest);
      assert events == rest + [e];
      var out := Dedupe(known, rest);
      assert forall i :: 0 <= i < |out| ==> out[i] in out;
      forall x | x in events && (x.eventId == "" || x.eventId !in known)
        ensures Repeats(Dedupe(known, events), x.eventId)
      {
        if x in rest {
          assert Repeats(out, x.eventId);
        } else if Dedupe(known, events) == out {
          var y :| y in rest && y.eventId == x.eventId;
          assert Repeats(out, y.eventId);
        }
      }
    }
  }

  lemma {:induction false} FreshAppends(rows: seq<Row>, events: seq<Event>, batchInstall: string, now: int)
    requires FreshIds(Ids(rows), events)
    ensures InsertAll(rows, events, batchInstall, now) == rows + ToRows(events, batchInstall, now)
  {
    if events != [] {
      var rest, e := events[..|events| - 1], events[|events| - 1];
      assert events == rest + [e];
      FreshAppends(rows, rest, batchInstall, now);
      InsertedIds(rows, rest, batchInstall, now);
      assert forall i :: 0 <= i < |rest| ==> rest[i] == events[i];
    }
  }

  // ---------- main results ----------

  /** The session table is the fold over the event rows, for every session. */
  ghost predicate Exact(db: Db) {
    && Counted(db)
    && UniqueIds(db.rows)
    && forall sid :: sid != "" ==> AggOf(db.sessions, sid) == Fold(RowsOf(db.rows, sid))
  }

  /** Storing a batch keeps every session equal to the fold over its stored rows. */
  lemma BatchKeepsExact(db: Db, batchInstall: string, batch: seq<Event>, now: int)
    requires Exact(db) && Positive(batch)
    ensures Exact(Recorded(db, batchInstall, batch, now))
  {
    var events := Dedupe(Ids(db.rows), batch);
    DedupeFresh(Ids(db.rows), batch);
    FreshAppends(db.rows, events, batchInstall, now);
    InsertKeepsUnique(db.rows, events, batchInstall, now);
    var rows := ToRows(events, batchInstall, now);
    StoreAgg(db, events, batchInstall, now, "-");
    forall sid | sid != ""
      ensures AggOf(Recorded(db, batchInstall, batch, now).sessions, sid) ==
              Fold(RowsOf(Recorded(db, batchInstall, batch, now).rows, sid))
    {
      StoreAgg(db, events, batchInstall, now, sid);
      RowsOfConcat(db.rows, rows, sid);
      FoldConcat(RowsOf(db.rows, sid), RowsOf(rows, sid));
    }
  }

  lemma {:induction false} DedupeConcat(known: set<string>, a: seq<Event>, b: seq<Event>)
    ensures Dedupe(known, a + b) ==
            Dedupe(known, a) + Dedupe(known + BatchIds(a), b)
  {
    if b == [] {
      assert a + b == a;
    } else {
      var rest, e := b[..|b| - 1], b[|b| - 1];
      assert (a + b)[..|a + b| - 1] == a + rest;
      DedupeConcat(known, a, rest);
      assert Repeats(a + rest, e.eventId) <==> Repeats(a, e.eventId) || Repeats(rest, e.eventId);
    }
  }

  lemma IdsAfter(db: Db, batchInstall: string, batch: seq<Event>, now: int)
    ensures Ids(Recorded(db, batchInstall, batch, now).rows) ==
            Ids(db.rows) + BatchIds(batch)
  {
    var known := Ids(db.rows);
    var events := Dedupe(known, batch);
    InsertedIds(db.rows, events, batchInstall, now);
    DedupeFresh(known, batch);
    forall e | e in batch && e.eventId != "" && e.eventId !in known
      ensures e.eventId in BatchIds(events)
    {
      assert Repeats(events, e.eventId);
    }
  }

  lemma {:induction false} ToRowsConcat(a: seq<Event>, b: seq<Event>, batchInstall: string, now: int)
    ensures ToRows(a + b, batchInstall, now) == ToRows(a, batchInstall, now) + ToRows(b, batchInstall, now)
  {
    if b == [] {
      assert a + b == a;
    } else {
      assert (a + b)[..|a + b| - 1] == a + b[..|b| - 1];
      ToRowsConcat(a, b[..|b| - 1], batchInstall, now);
    }
  }

  function RowsAfter(rows: seq<Row>, batchInstall: string, batch: seq<Event>, now: int): seq<Row> {
    rows + ToRows(Dedupe(Ids(rows), batch), batchInstall, now)
  }

  lemma RecordedRows(db: Db, batchInstall: string, batch: seq<Event>, now: int)
    ensures Recorded(db, batchInstall, batch, now).rows == RowsAfter(db.rows, batchInstall, batch, now)
    ensures Ids(RowsAfter(db.rows, batchInstall, batch, now)) == Ids(db.rows) + BatchIds(batch)
  {
    DedupeFresh(Ids(db.rows), batch);
    FreshAppends(db.rows, Dedupe(Ids(db.rows), batch), batchInstall, now);
    IdsAfter(db, batchInstall, batch, now);
  }

  lemma Regroup<T>(a: seq<T>, b: seq<T>, c: seq<T>)
    ensures (a + b) + c == a + (b + c)
  {}

  lemma SplitRows(rows: seq<Row>, batchInstall: string, a: seq<Event>, b: seq<Event>, now: int)
    requires Ids(RowsAfter(rows, batchInstall, a, now)) == Ids(rows) + BatchIds(a)
    ensures RowsAfter(rows, batchInstall, a + b, now) ==
            RowsAfter(RowsAfter(rows, batchInstall, a, now), batchInstall, b, now)
  {
    var known := Ids(rows);
    var p, q := Dedupe(known, a), Dedupe(known + BatchIds(a), b);
    DedupeConcat(known, a, b);
    ToRowsConcat(p, q, batchInstall, now);
    Regroup(rows, ToRows(p, batchInstall, now), ToRows(q, batchInstall, now));
  }

  /** A batch cut in two stores the same rows and leaves every session with the same five columns. */
  lemma SplitBatch(db: Db, batchInstall: string, a: seq<Event>, b: seq<Event>, now: int, sid: string)
    requires Exact(db) && Positive(a) && Positive(b) && sid != ""
    ensures var once, twice := Recorded(db, batchInstall, a + b, now),
                               Recorded(Recorded(db, batchInstall, a, now), batchInstall, b, now);
      && once.rows == twice.rows
      && AggOf(once.sessions, sid) == AggOf(twice.sessions, sid)
  {
    RecordedRows(db, batchInstall, a, now);
    RecordedRows(db, batchInstall, a + b, now);
    RecordedRows(Recorded(db, batchInstall, a, now), batchInstall, b, now);
    SplitRows(db.rows, batchInstall, a, b, now);
    BatchKeepsExact(db, batchInstall, a + b, now);
    BatchKeepsExact(db, batchInstall, a, now);
    BatchKeepsExact(Recorded(db, batchInstall, a, now), batchInstall, b, now);
  }

  lemma {:induction false} KnownAllDropped(known: set<string>, batch: seq<Event>)
    requires forall e :: e in batch ==> e.eventId != "" && e.eventId in known
    ensures Dedupe(known, batch) == []
  {
    if batch != [] {
      assert batch[|batch| - 1] in batch;
      KnownAllDropped(known, batch[..|batch| - 1]);
    }
  }

  /** Once a batch of identified events is stored, sending it again, whole or in part, changes no table at all. */
  lemma ResendChangesNothing(db: Db, batchInstall: string, batch: seq<Event>, now: int,
                             again: seq<Event>, otherInstall: string, later: int)
    requires forall e :: e in again ==> e.eventId != "" && Repeats(batch, e.eventId)
    ensures var stored := Recorded(db, batchInstall, batch, now);
      Dedupe(Ids(stored.rows), again) == [] && Recorded(stored, otherInstall, again, later) == stored
  {
    IdsAfter(db, batchInstall, batch, now);
    KnownAllDropped(Ids(Recorded(db, batchInstall, batch, now).rows), again);
  }

  // ---------- a deduplication read that is stale when the writes happen ----------

  /** An event resent with a stored id is the stored event: the device stamps ids once. */
  ghost predicate Honest(rows: seq<Row>, events: seq<Event>, batchInstall: string, now: int) {
    && (forall e, r :: e in events && r in rows && e.eventId != "" && r.eventId == e.eventId ==>
          r == ToRow(e, batchInstall, now))
    && (forall e, x :: e in events && x in events && e.eventId != "" && x.eventId == e.eventId ==> x == e)
  }

  /** Everything but the count agrees; the count may be too high. */
  ghost predicate Loose(a: Agg, f: Agg) {
    && a.count >= f.count && (a.count == 0 <==> f.count == 0)
    && (a.count > 0 ==> a == f.(count := a.count))
  }

  ghost predicate OverCounted(db: Db) {
    && Counted(db)
    && UniqueIds(db.rows)
    && forall sid :: sid != "" ==> Loose(AggOf(db.sessions, sid), Fold(RowsOf(db.rows, sid)))
  }

  lemma {:induction false} InsertedRows(rows: seq<Row>, events: seq<Event>, batchInstall: string, now: int, r: Row)
    requires r in InsertAll(rows, events, batchInstall, now)
    ensures r in rows || exists e :: e in events && r == ToRow(e, batchInstall, now)
  {
    if events != [] && r !in rows {
      var rest, e := events[..|events| - 1], events[|events| - 1];
      assert e in events;
      if r in InsertAll(rows, rest, batchInstall, now) {
        InsertedRows(rows, rest, batchInstall, now, r);
      }
    }
  }

  lemma RowAbsorbed(a: Agg, rows: seq<Row>, r: Row)
    requires Loose(a, Fold(rows)) && r in rows
    ensures Loose(Merge(a, RowAgg(r)), Fold(rows))
  {
    FoldMeaning(rows);
    FoldUser(rows);
  }

  lemma FoldSnoc(rows: seq<Row>, r: Row, sid: string)
    ensures Fold(RowsOf(rows + [r], sid)) ==
            if r.sessionId == sid then Merge(Fold(RowsOf(rows, sid)), RowAgg(r)) else Fold(RowsOf(rows, sid))
  {
    assert (rows + [r])[..|rows|] == rows;
    if r.sessionId == sid {
      var of := RowsOf(rows + [r], sid);
      assert of == RowsOf(rows, sid) + [r] && of[..|of| - 1] == RowsOf(rows, sid);
    }
  }

  lemma LooseStep(a: Agg, rows: seq<Row>, r: Row, sid: string)
    requires Loose(a, Fold(RowsOf(rows, sid))) && (Insert(rows, r) == rows ==> r in rows)
    ensures Loose(if r.sessionId == sid then Merge(a, RowAgg(r)) else a, Fold(RowsOf(Insert(rows, r), sid)))
  {
    FoldSnoc(rows, r, sid);
    if Insert(rows, r) == rows {
      RowsOfHas(rows, sid, r);
      if r.sessionId == sid { RowAbsorbed(a, RowsOf(rows, sid), r); }
    }
  }

  lemma ConflictIsStored(rows: seq<Row>, events: seq<Event>, batchInstall: string, now: int, e: Event)
    requires Honest(rows, events, batchInstall, now) && e in events
    ensures forall rest :: (forall x :: x in rest ==> x in events) ==>
      var before := InsertAll(rows, rest, batchInstall, now);
      var r := ToRow(e, batchInstall, now);
      Insert(before, r) == before ==> r in before
  {
    forall rest | forall x :: x in rest ==> x in events
      ensures var before := InsertAll(rows, rest, batchInstall, now);
              var r := ToRow(e, batchInstall, now);
              Insert(before, r) == before ==> r in before
    {
      var before := InsertAll(rows, rest, batchInstall, now);
      var r := ToRow(e, batchInstall, now);
      if Insert(before, r) == before {
        assert |before + [r]| != |before|;
        var x :| x in before && x.eventId == r.eventId;
        InsertedRows(rows, rest, batchInstall, now, x);
      }
    }
  }

  lemma {:induction false} LooseInsert(rows: seq<Row>, events: seq<Event>, batchInstall: string, now: int, sid: string, a: Agg)
    requires Loose(a, Fold(RowsOf(rows, sid))) && Honest(rows, events, batchInstall, now)
    ensures Loose(Merge(a, Fold(RowsOf(ToRows(events, batchInstall, now), sid))),
                  Fold(RowsOf(InsertAll(rows, events, batchInstall, now), sid)))
  {
    if events != [] {
      var rest, e := events[..|events| - 1], events[|events| - 1];
      LooseInsert(rows, rest, batchInstall, now, sid, a);
      var r := ToRow(e, batchInstall, now);
      var x := Fold(RowsOf(ToRows(rest, batchInstall, now), sid));
      ConflictIsStored(rows, events, batchInstall, now, e);
      LooseStep(Merge(a, x), InsertAll(rows, rest, batchInstall, now), r, sid);
      FoldSnoc(ToRows(rest, batchInstall, now), r, sid);
      MergeAssociative(a, x, RowAgg(r));
    }
  }

  /** Whatever older snapshot the deduplication read, the writes keep ids unique and only over-count. */
  lemma StaleReadOverCounts(db: Db, known: set<string>, batchInstall: string, batch: seq<Event>, now: int)
    requires OverCounted(db) && Positive(batch)
    requires Honest(db.rows, batch, batchInstall, now)
    ensures OverCounted(Store(db, Dedupe(known, batch), batchInstall, now))
  {
    var events := Dedupe(known, batch);
    DedupeFresh(known, batch);
    InsertKeepsUnique(db.rows, events, batchInstall, now);
    StoreAgg(db, events, batchInstall, now, "-");
    forall sid | sid != ""
      ensures Loose(AggOf(Store(db, events, batchInstall, now).sessions, sid),
                    Fold(RowsOf(Store(db, events, batchInstall, now).rows, sid)))
    {
      StoreAgg(db, events, batchInstall, now, sid);
      LooseInsert(db.rows, events, batchInstall, now, sid, AggOf(db.sessions, sid));
    }
  }

  // ---------- session counters ----------

  ghost function SessionsOf(sessions: map<string, Session>, user: string): set<string> {
    set s | s in sessions && sessions[s].agg.user == user
  }

  /** Sum of the user's session counts over all installs. */
  ghost function DeviceTotal(m: map<(string, string), Seen>, user: string): nat {
    if m == map[] then 0 else
      var k :| k in m;
      DeviceTotal(m - {k}, user) + if k.0 == user then m[k].sessionCount else 0
  }

  lemma {:induction false} DeviceTotalWithout(m: map<(string, string), Seen>, k: (string, string), user: string)
    requires k in m
    ensures DeviceTotal(m, user) == DeviceTotal(m - {k}, user) + if k.0 == user then m[k].sessionCount else 0
    decreases |m|
  {
    var c :| c in m && DeviceTotal(m, user) == DeviceTotal(m - {c}, user) + if c.0 == user then m[c].sessionCount else 0;
    if c != k {
      DeviceTotalWithout(m - {c}, k, user);
      DeviceTotalWithout(m - {k}, c, user);
      assert m - {c} - {k} == m - {k} - {c};
    }
  }

  lemma DeviceTotalUpsert(m: map<(string, string), Seen>, k: (string, string), agg: Agg, inc: nat, user: string)
    ensures DeviceTotal(UpsertSeen(m, k, agg, inc), user) == DeviceTotal(m, user) + if k.0 == user then inc else 0
  {
    var m' := UpsertSeen(m, k, agg, inc);
    DeviceTotalWithout(m', k, user);
    assert m' - {k} == m - {k};
    if k in m { DeviceTotalWithout(m, k, user); } else { assert m - {k} == m; }
  }

  function UserCount(users: map<string, Seen>, user: string): nat {
    if user in users then users[user].sessionCount else 0
  }

  /** No counter claims more sessions than the user owns, and the installs together no more than the user. */
  ghost predicate CountersOk(db: Db) {
    && (forall s :: s in db.sessions ==> db.sessions[s].agg.count > 0)
    && forall u :: u != "" ==>
         DeviceTotal(db.userDevices, u) <= UserCount(db.users, u) <= |SessionsOf(db.sessions, u)|
  }

  lemma SessionsGrow(db: Db, sid: string, evs: seq<Event>, batchInstall: string, now: int, u: string)
    requires evs != [] && u != "" && forall s :: s in db.sessions ==> db.sessions[s].agg.count > 0
    ensures |SessionsOf(UpsertGroup(db, sid, evs, batchInstall, now).sessions, u)| >=
            |SessionsOf(db.sessions, u)| + if sid !in db.sessions && FirstUser(evs) == u then 1 else 0
  {
    var before := SessionsOf(db.sessions, u);
    var after := SessionsOf(UpsertGroup(db, sid, evs, batchInstall, now).sessions, u);
    assert before <= after;
    if sid !in db.sessions && FirstUser(evs) == u {
      assert after == before + {sid};
    } else {
      Larger(before, after);
    }
  }

  lemma GroupKeepsCounters(db: Db, sid: string, evs: seq<Event>, batchInstall: string, now: int)
    requires CountersOk(db) && evs != []
    ensures CountersOk(UpsertGroup(db, sid, evs, batchInstall, now))
  {
    var after := UpsertGroup(db, sid, evs, batchInstall, now);
    var agg := Summary(evs, now);
    var install := Coalesce(FirstInstall(evs), batchInstall);
    var inc: nat := if sid in db.sessions then 0 else 1;
    forall u | u != ""
      ensures DeviceTotal(after.userDevices, u) <= UserCount(after.users, u) <= |SessionsOf(after.sessions, u)|
    {
      DeviceTotalUpsert(db.userDevices, (agg.user, install), agg, inc, u);
      SessionsGrow(db, sid, evs, batchInstall, now, u);
    }
  }

  lemma Larger<T>(a: set<T>, b: set<T>)
    requires a <= b
    ensures |a| <= |b|
  {
    assert b == a + (b - a);
  }

  lemma {:induction false} GroupsKeepCounters(db: Db, order: seq<string>, events: seq<Event>, batchInstall: string, now: int)
    requires CountersOk(db)
    ensures CountersOk(ApplyGroups(db, order, events, batchInstall, now))
  {
    if order != [] {
      var rest, sid := order[..|order| - 1], order[|order| - 1];
      GroupsKeepCounters(db, rest, events, batchInstall, now);
      if Of(events, sid) != [] {
        GroupKeepsCounters(ApplyGroups(db, rest, events, batchInstall, now), sid, Of(events, sid), batchInstall, now);
      }
    }
  }

  // ---------- whole histories ----------

  /** One committed transaction: `known` is what its deduplication read saw, None when it ran alone. */
  datatype Upload = Upload(install: string, events: seq<Event>, now: int, known: Option<set<string>>)

  /** What an upload writes, after a deduplication against what it read. */
  function Survivors(db: Db, u: Upload): seq<Event> {
    Dedupe(if u.known.Some? then u.known.value else Ids(db.rows), u.events)
  }

  function Committed(db: Db, u: Upload): Db {
    Store(db, Survivors(db, u), u.install, u.now)
  }

  function History(uploads: seq<Upload>): Db {
    if uploads == [] then Empty else Committed(History(uploads[..|uploads| - 1]), uploads[|uploads| - 1])
  }

  /** In every history, however transactions overlapped: one row per event id, and sound session counters. */
  lemma {:induction false} EveryHistory(uploads: seq<Upload>)
    ensures UniqueIds(History(uploads).rows) && CountersOk(History(uploads))
  {
    if uploads != [] {
      var rest, u := uploads[..|uploads| - 1], uploads[|uploads| - 1];
      EveryHistory(rest);
      var db := History(rest);
      var events := Survivors(db, u);
      InsertKeepsUnique(db.rows, events, u.install, u.now);
      GroupsKeepCounters(db, Order(events), events, u.install, u.now);
    } else {
      forall u | u != "" ensures DeviceTotal(Empty.userDevices, u) == 0 {}
    }
  }

  /** In every history of uploads that ran one after another, each session is the fold over its rows. */
  lemma {:induction false} EverySerialHistory(uploads: seq<Upload>)
    requires forall u :: u in uploads ==> u.known.None? && Positive(u.events)
    ensures Exact(History(uploads))
  {
    if uploads != [] {
      var rest, u := uploads[..|uploads| - 1], uploads[|uploads| - 1];
      assert u in uploads;
      EverySerialHistory(rest);
      BatchKeepsExact(History(rest), u.install, u.events, u.now);
    }
  }

  ghost predicate HonestHistory(uploads: seq<Upload>) {
    uploads == [] ||
    (var rest, u := uploads[..|uploads| - 1], uploads[|uploads| - 1];
     HonestHistory(rest) && Positive(u.events) && Honest(History(rest).rows, u.events, u.install, u.now))
  }

  /** Overlapping resends of the same events only ever inflate event_count; the other four columns stay exact. */
  lemma {:induction false} EveryHonestHistory(uploads: seq<Upload>)
    requires HonestHistory(uploads)
    ensures OverCounted(History(uploads))
  {
    if uploads != [] {
      var rest, u := uploads[..|uploads| - 1], uploads[|uploads| - 1];
      EveryHonestHistory(rest);
      var db := History(rest);
      StaleReadOverCounts(db, if u.known.Some? then u.known.value else Ids(db.rows), u.install, u.events, u.now);
    }
  }

  lemma OneEvent(rows: seq<Row>, known: set<string>, es: seq<Event>, e: Event, install: string, now: int)
    requires es == [e]
    ensures e.eventId !in known ==> Dedupe(known, es) == es
    ensures InsertAll(rows, es, install, now) == Insert(rows, ToRow(e, install, now))
    ensures ToRows(es, install, now) == [] + [ToRow(e, install, now)]
  {
    assert es[..|es| - 1] == [] && es[|es| - 1] == e;
  }

  lemma StoreOne(db: Db, es: seq<Event>, e: Event, now: int)
    requires es == [e] && Counted(db) && e.sessionId != "" && e.ts > 0
    ensures Counted(Store(db, es, "", now))
    ensures AggOf(Store(db, es, "", now).sessions, e.sessionId).count == AggOf(db.sessions, e.sessionId).count + 1
  {
    OneEvent(db.rows, Ids(db.rows), es, e, "", now);
    StoreAgg(db, es, "", now, e.sessionId);
    FoldSnoc([], ToRow(e, "", now), e.sessionId);
  }

  /** Two overlapping uploads of one new event add one row, but two to its session's event_count. */
  lemma OverlapInflatesCount(db: Db, e: Event, now: int)
    requires Counted(db) && e.sessionId != "" && e.ts > 0 && e.eventId != "" && e.eventId !in Ids(db.rows)
    ensures var once := Store(db, Dedupe(Ids(db.rows), [e]), "", now);
            var twice := Store(once, Dedupe(Ids(db.rows), [e]), "", now);
      && twice.rows == once.rows == db.rows + [ToRow(e, "", now)]
      && AggOf(twice.sessions, e.sessionId).count == AggOf(db.sessions, e.sessionId).count + 2
  {
    var es := [e];
    OneEvent(db.rows, Ids(db.rows), es, e, "", now);
    StoreOne(db, es, e, now);
    var once := Store(db, es, "", now);
    OneEvent(once.rows, Ids(db.rows), es, e, "", now);
    StoreOne(once, es, e, now);
    IdsOfInsert(db.rows, ToRow(e, "", now));
  }

  // ---------- when the counts stay exact ----------

  /** No event of this session that got past the deduplication already has a row. */
  predicate Clean(rows: seq<Row>, events: seq<Event>, sid: string) {
    forall e :: e in events && e.sessionId == sid && e.eventId != "" ==> e.eventId !in Ids(rows)
  }

  lemma CleanSnoc(rows: seq<Row>, events: seq<Event>, e: Event, sid: string)
    ensures Clean(rows, events + [e], sid) <==>
            Clean(rows, events, sid) && (e.sessionId == sid && e.eventId != "" ==> e.eventId !in Ids(rows))
  {
    assert forall x :: x in events + [e] <==> x in events || x == e;
  }

  lemma RowsOfSnoc(rows: seq<Row>, r: Row, sid: string)
    ensures RowsOf(rows + [r], sid) == if r.sessionId == sid then RowsOf(rows, sid) + [r] else RowsOf(rows, sid)
  {
    assert (rows + [r])[..|rows|] == rows;
  }

  lemma OnlyOldConflicts(rows: seq<Row>, rest: seq<Event>, e: Event, batchInstall: string, now: int)
    requires FreshIds({}, rest + [e])
    ensures FreshIds({}, rest)
    ensures e.eventId != "" ==> (e.eventId in Ids(InsertAll(rows, rest, batchInstall, now)) <==> e.eventId in Ids(rows))
  {
    var events := rest + [e];
    assert forall i :: 0 <= i < |rest| ==> rest[i] == events[i];
    assert events[|rest|] == e;
    InsertedIds(rows, rest, batchInstall, now);
  }

  /** A session gets at most one row per event inserted, and all of them exactly when none has a row already. */
  lemma {:induction false} InsertedOf(rows: seq<Row>, events: seq<Event>, batchInstall: string, now: int, sid: string)
    requires FreshIds({}, events)
    ensures var of := RowsOf(InsertAll(rows, events, batchInstall, now), sid);
      && |of| <= |RowsOf(rows, sid)| + |Of(events, sid)|
      && (|of| == |RowsOf(rows, sid)| + |Of(events, sid)| <==> Clean(rows, events, sid))
  {
    if events != [] {
      var rest, e := events[..|events| - 1], events[|events| - 1];
      assert events == rest + [e];
      OnlyOldConflicts(rows, rest, e, batchInstall, now);
      InsertedOf(rows, rest, batchInstall, now, sid);
      CleanSnoc(rows, rest, e, sid);
      RowsOfSnoc(InsertAll(rows, rest, batchInstall, now), ToRow(e, batchInstall, now), sid);
    }
  }

  lemma AppendStep(before: seq<Row>, rows: seq<Row>, added: seq<Row>, r: Row, sid: string, after: seq<Row>)
    requires RowsOf(before, sid) == RowsOf(rows, sid) + RowsOf(added, sid)
    requires after == before + [r] || (r.sessionId != sid && after == before)
    ensures RowsOf(after, sid) == RowsOf(rows, sid) + RowsOf(added + [r], sid)
  {
    RowsOfSnoc(before, r, sid);
    RowsOfSnoc(added, r, sid);
    Regroup(RowsOf(rows, sid), RowsOf(added, sid), [r]);
  }

  lemma {:induction false} CleanAppends(rows: seq<Row>, events: seq<Event>, batchInstall: string, now: int, sid: string)
    requires FreshIds({}, events) && Clean(rows, events, sid)
    ensures RowsOf(InsertAll(rows, events, batchInstall, now), sid) ==
            RowsOf(rows, sid) + RowsOf(ToRows(events, batchInstall, now), sid)
  {
    if events != [] {
      var rest, e := events[..|events| - 1], events[|events| - 1];
      assert events == rest + [e];
      OnlyOldConflicts(rows, rest, e, batchInstall, now);
      CleanSnoc(rows, rest, e, sid);
      CleanAppends(rows, rest, batchInstall, now, sid);
      AppendStep(InsertAll(rows, rest, batchInstall, now), rows, ToRows(rest, batchInstall, now),
                 ToRow(e, batchInstall, now), sid, InsertAll(rows, events, batchInstall, now));
    }
  }

  lemma CountAfter(db: Db, events: seq<Event>, batchInstall: string, now: int, sid: string)
    requires sid != "" && forall s :: s in db.sessions ==> db.sessions[s].agg.count > 0
    ensures AggOf(Store(db, events, batchInstall, now).sessions, sid).count ==
            AggOf(db.sessions, sid).count + |Of(events, sid)|
  {
    OrderDistinct(events);
    forall s | s in Order(events) ensures Of(events, s) != [] { OrderHas(events, s); }
    GroupsAgg(db, Order(events), events, batchInstall, now, sid);
    OrderHas(events, sid);
  }

  lemma CommittedOf(db: Db, u: Upload, sid: string)
    requires sid != "" && forall s :: s in db.sessions ==> db.sessions[s].agg.count > 0
    ensures var after := Committed(db, u);
      var events, rows := AggOf(after.sessions, sid).count - AggOf(db.sessions, sid).count,
                          |RowsOf(after.rows, sid)| - |RowsOf(db.rows, sid)|;
      rows <= events && (rows == events <==> Clean(db.rows, Survivors(db, u), sid))
  {
    var events := Survivors(db, u);
    DedupeFresh(if u.known.Some? then u.known.value else Ids(db.rows), u.events);
    CountAfter(db, events, u.install, u.now, sid);
    InsertedOf(db.rows, events, u.install, u.now, sid);
  }

  /** No upload of the history wrote an event of this session that another had stored since it read. */
  predicate CleanHistory(uploads: seq<Upload>, sid: string) {
    uploads == [] ||
    (var rest := uploads[..|uploads| - 1];
     CleanHistory(rest, sid) && Clean(History(rest).rows, Survivors(History(rest), uploads[|uploads| - 1]), sid))
  }

  /** In every history at all, event_count is never short of the rows, and equals them exactly when it was clean. */
  lemma {:induction false} CountExactIff(uploads: seq<Upload>, sid: string)
    requires sid != ""
    ensures var db := History(uploads);
      && |RowsOf(db.rows, sid)| <= AggOf(db.sessions, sid).count
      && (|RowsOf(db.rows, sid)| == AggOf(db.sessions, sid).count <==> CleanHistory(uploads, sid))
  {
    if uploads != [] {
      var rest := uploads[..|uploads| - 1];
      CountExactIff(rest, sid);
      EveryHistory(rest);
      CommittedOf(History(rest), uploads[|uploads| - 1], sid);
    }
  }

  lemma StaleReadColumns(db: Db, u: Upload, sid: string)
    requires Exact(db) && Positive(u.events) && sid != ""
    ensures var after := Committed(db, u);
      AggOf(after.sessions, sid) == Fold(RowsOf(after.rows, sid)) <==> Clean(db.rows, Survivors(db, u), sid)
  {
    var events, after := Survivors(db, u), Committed(db, u);
    DedupeFresh(if u.known.Some? then u.known.value else Ids(db.rows), u.events);
    CommittedOf(db, u, sid);
    FoldMeaning(RowsOf(db.rows, sid));
    FoldMeaning(RowsOf(after.rows, sid));
    if Clean(db.rows, events, sid) {
      CleanAppends(db.rows, events, u.install, u.now, sid);
      StoreAgg(db, events, u.install, u.now, sid);
      FoldConcat(RowsOf(db.rows, sid), RowsOf(ToRows(events, u.install, u.now), sid));
    }
  }

  /** From an exact table, a stale read keeps it exact exactly when every session it writes is clean. */
  lemma StaleReadExactIff(db: Db, u: Upload)
    requires Exact(db) && Positive(u.events)
    ensures Exact(Committed(db, u)) <==> forall sid :: sid != "" ==> Clean(db.rows, Survivors(db, u), sid)
  {
    DedupeFresh(if u.known.Some? then u.known.value else Ids(db.rows), u.events);
    InsertKeepsUnique(db.rows, Survivors(db, u), u.install, u.now);
    StoreAgg(db, Survivors(db, u), u.install, u.now, "-");
    forall sid | sid != ""
      ensures AggOf(Committed(db, u).sessions, sid) == Fold(RowsOf(Committed(db, u).rows, sid)) <==>
              Clean(db.rows, Survivors(db, u), sid)
    {
      StaleReadColumns(db, u, sid);
    }
  }

  ghost predicate AllClean(uploads: seq<Upload>) {
    forall sid :: sid != "" ==> CleanHistory(uploads, sid)
  }

  lemma {:induction false} CleanIsExact(uploads: seq<Upload>)
    requires AllClean(uploads) && forall u :: u in uploads ==> Positive(u.events)
    ensures Exact(History(uploads))
  {
    if uploads != [] {
      var rest, u := uploads[..|uploads| - 1], uploads[|uploads| - 1];
      assert u in uploads && forall x :: x in rest ==> x in uploads;
      var db := History(rest);
      forall sid | sid != "" ensures CleanHistory(rest, sid) && Clean(db.rows, Survivors(db, u), sid) {
        assert CleanHistory(uploads, sid);
      }
      CleanIsExact(rest);
      StaleReadExactIff(db, u);
    }
  }

  lemma ExactIsClean(db: Db, uploads: seq<Upload>)
    requires db == History(uploads) && Exact(db)
    ensures AllClean(uploads)
  {
    forall sid | sid != "" ensures CleanHistory(uploads, sid) {
      CountExactIff(uploads, sid);
      FoldMeaning(RowsOf(db.rows, sid));
    }
  }

  /** With positive timestamps every column of every session is exact exactly when the whole history was clean. */
  lemma HistoryExactIff(uploads: seq<Upload>)
    requires forall u :: u in uploads ==> Positive(u.events)
    ensures Exact(History(uploads)) <==> AllClean(uploads)
  {
    var db := History(uploads);
    if Exact(db) { ExactIsClean(db, uploads); }
    if AllClean(uploads) { CleanIsExact(uploads); }
  }

  // ---------- what later batches can never undo ----------

  ghost predicate SeenLater<K>(a: map<K, Seen>, b: map<K, Seen>) {
    forall k :: k in a ==> k in b && b[k].firstSeen == a[k].firstSeen && a[k].lastSeen <= b[k].lastSeen &&
                           a[k].sessionCount <= b[k].sessionCount
  }

  ghost predicate DeviceLater(a: map<string, Device>, b: map<string, Device>) {
    forall k :: k in a ==> k in b && b[k].firstSeen == a[k].firstSeen && a[k].lastSeen <= b[k].lastSeen &&
                           (a[k].fingerprint != "" ==> b[k].fingerprint != "")
  }

  ghost predicate SessionLater(a: map<string, Session>, b: map<string, Session>) {
    forall k :: k in a ==>
      && k in b
      && (a[k].installId != "" ==> b[k].installId == a[k].installId)
      && (a[k].agg.user != "" ==> b[k].agg.user == a[k].agg.user)
      && b[k].agg.first <= a[k].agg.first && a[k].agg.last <= b[k].agg.last
      && a[k].agg.count <= b[k].agg.count && (a[k].agg.sim ==> b[k].agg.sim)
  }

  ghost predicate Later(a: Db, b: Db) {
    && SeenLater(a.users, b.users) && SeenLater(a.userDevices, b.userDevices)
    && DeviceLater(a.devices, b.devices) && SessionLater(a.sessions, b.sessions)
    && a.rows <= b.rows
  }

  lemma UpsertLater(db: Db, sid: string, evs: seq<Event>, batchInstall: string, now: int)
    requires evs != [] && forall s :: s in db.sessions ==> db.sessions[s].agg.count > 0
    ensures Later(db, UpsertGroup(db, sid, evs, batchInstall, now))
  {}

  lemma LaterTransitive(a: Db, b: Db, c: Db)
    requires Later(a, b) && Later(b, c)
    ensures Later(a, c)
  {}

  lemma {:induction false} GroupsLater(db: Db, order: seq<string>, events: seq<Event>, batchInstall: string, now: int)
    requires forall s :: s in db.sessions ==> db.sessions[s].agg.count > 0
    ensures var after := ApplyGroups(db, order, events, batchInstall, now);
      Later(db, after) && forall s :: s in after.sessions ==> after.sessions[s].agg.count > 0
  {
    if order != [] {
      var rest, sid := order[..|order| - 1], order[|order| - 1];
      var before := ApplyGroups(db, rest, events, batchInstall, now);
      GroupsLater(db, rest, events, batchInstall, now);
      if Of(events, sid) != [] {
        UpsertAgg(before, sid, Of(events, sid), batchInstall, now, sid);
        UpsertLater(before, sid, Of(events, sid), batchInstall, now);
        LaterTransitive(db, before, ApplyGroups(db, order, events, batchInstall, now));
      }
    }
  }

  lemma {:induction false} InsertAllLater(rows: seq<Row>, events: seq<Event>, batchInstall: string, now: int)
    ensures rows <= InsertAll(rows, events, batchInstall, now)
  {
    if events != [] { InsertAllLater(rows, events[..|events| - 1], batchInstall, now); }
  }

  /** A user or install once bound to a session stays; first_seen never moves, maxima and rows only grow. */
  lemma {:induction false} HistoryOnlyGrows(uploads: seq<Upload>, n: nat)
    requires n <= |uploads|
    ensures Later(History(uploads[..n]), History(uploads))
  {
    if n == |uploads| {
      assert uploads[..n] == uploads;
    } else {
      var rest, u := uploads[..|uploads| - 1], uploads[|uploads| - 1];
      assert rest[..n] == uploads[..n];
      HistoryOnlyGrows(rest, n);
      EveryHistory(rest);
      var db := History(rest);
      var events := Survivors(db, u);
      GroupsLater(db, Order(events), events, u.install, u.now);
      InsertAllLater(db.rows, events, u.install, u.now);
    }
  }

  // ---------- two columns that are not folds over the rows ----------

  function FirstRowInstall(rows: seq<Row>): string {
    if rows == [] then "" else Coalesce(FirstRowInstall(rows[..|rows| - 1]), rows[|rows| - 1].installId)
  }

  lemma {:induction false} FirstRowInstallIs(evs: seq<Event>, batchInstall: string, now: int)
    requires evs != []
    ensures FirstRowInstall(ToRows(evs, batchInstall, now)) ==
            if batchInstall == "" then FirstInstall(evs) else Coalesce(evs[0].installId, batchInstall)
  {
    var rest := evs[..|evs| - 1];
    var rows := ToRows(evs, batchInstall, now);
    assert rows[..|rows| - 1] == ToRows(rest, batchInstall, now);
    if rest != [] { FirstRowInstallIs(rest, batchInstall, now); }
  }

  /** The install a new session gets is the first one on its rows exactly when the header cannot come first. */
  lemma SessionInstallIsFirstRow(db: Db, sid: string, evs: seq<Event>, batchInstall: string, now: int)
    requires evs != [] && sid !in db.sessions
    ensures UpsertGroup(db, sid, evs, batchInstall, now).sessions[sid].installId ==
              FirstRowInstall(ToRows(evs, batchInstall, now)) <==>
            batchInstall == "" || evs[0].installId != "" || FirstInstall(evs) in {"", batchInstall}
  {
    FirstRowInstallIs(evs, batchInstall, now);
    if evs[0].installId != "" { FirstInstallOfHead(evs); }
  }

  lemma {:induction false} FirstInstallOfHead(evs: seq<Event>)
    requires evs != [] && evs[0].installId != ""
    ensures FirstInstall(evs) == evs[0].installId
  {
    var rest := evs[..|evs| - 1];
    if rest != [] { FirstInstallOfHead(rest); } else { assert FirstInstall(rest) == ""; }
  }

  lemma {:induction false} MinMaxTs(evs: seq<Event>, batchInstall: string, now: int)
    requires evs != [] && now > 0
    ensures forall e :: e in evs ==> MinTs(evs) <= e.ts <= MaxTs(evs)
    ensures exists e :: e in evs && e.ts == MinTs(evs)
    ensures exists e :: e in evs && e.ts == MaxTs(evs)
    ensures forall r :: r in ToRows(evs, batchInstall, now) <==> exists e :: e in evs && r == ToRow(e, batchInstall, now)
  {
    var rest, e := evs[..|evs| - 1], evs[|evs| - 1];
    assert evs == rest + [e];
    if rest == [] {
      assert ToRows(evs, batchInstall, now) == [ToRow(e, batchInstall, now)] && e in evs;
    } else {
      MinMaxTs(rest, batchInstall, now);
      assert forall x :: x in evs <==> x in rest || x == e;
    }
  }

  /** With timestamps of zero or less, started_at is still the earliest row exactly when none lies before `now`. */
  lemma StartIsEarliestRow(evs: seq<Event>, batchInstall: string, now: int)
    requires evs != [] && now > 0
    ensures Summary(evs, now).first == Fold(ToRows(evs, batchInstall, now)).first <==>
            MinTs(evs) > 0 || forall e :: e in evs ==> e.ts <= 0 || e.ts >= now
  {
    var rows := ToRows(evs, batchInstall, now);
    MinMaxTs(evs, batchInstall, now);
    FoldMeaning(rows);
    assert forall e :: e in evs ==> ToRow(e, batchInstall, now) in rows;
    var low :| low in evs && low.ts == MinTs(evs);
    assert ToRow(low, batchInstall, now).at == Summary(evs, now).first;
  }
}
