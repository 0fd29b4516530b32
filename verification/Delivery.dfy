/**
 One Android device end to end: its queue with evictions, its uploader, a network that may lose a
 request, lose a response, delay or repeat a request, and the server of Ingest, whose transactions
 may overlap. Positions count events in the order they were offered to the queue.
 */
module Delivery {
  import opened Prelude
  import opened Ingest
  import opened IngestLaws
  import EventQueue

  const INSTALL := "install"

  datatype Uploader = Idle | Posting(batch: seq<Event>)

  /**
   `queue` is what the file holds. The rest of the bookkeeping is history: everything ever offered,
   the requests that reached the network, those the server committed, the position after the last
   removed event, the position the current batch starts at, positions settled by a 2xx or dropped as
   poison, and the number of events evicted.
   */
  datatype State = State(queue: seq<Event>, uploader: Uploader, uploads: seq<Upload>,
                         offered: seq<Event>, sent: set<seq<Event>>, committed: set<seq<Event>>,
                         head: nat, from: nat, acked: set<nat>, poisoned: set<nat>, evicted: nat)

  const Start := State([], Idle, [], [], {}, {}, 0, 0, {}, {}, 0)

  datatype Step =
    | Offer(e: Event, full: bool)
    | Post(max: nat)
    | Commit(request: seq<Event>, now: int, known: Option<set<string>>)
    | Answered(a: EventQueue.Answer)
    | Restart

  predicate Enabled(s: State, step: Step) {
    match step
    case Offer(e, _) => e.eventId != "" && e.ts > 0 && !Repeats(s.offered, e.eventId)
    case Post(max) => s.uploader.Idle? && max > 0 && s.queue != []
    case Commit(request, _, known) =>
      request in s.sent && (known.Some? ==> known.value <= Ids(History(s.uploads).rows))
    case Answered(a) => s.uploader.Posting? && (EventQueue.Success(a) ==> s.uploader.batch in s.committed)
    case Restart => true
  }

  function Range(lo: nat, n: nat): (r: set<nat>)
    ensures forall p :: p in r <==> lo <= p < lo + n
  {
    if n == 0 then {} else Range(lo, n - 1) + {lo + n - 1}
  }

  /** How many elements the removal of n takes. */
  function AtMost(n: nat, s: seq<Event>): nat {
    if n <= |s| then n else |s|
  }

  function Apply(s: State, step: Step): State {
    match step
    case Offer(e, full) =>
      var gone := if full then AtMost(EventQueue.EVICT, s.queue) else 0;
      s.(queue := (if full then EventQueue.DropFirst(s.queue, EventQueue.EVICT) else s.queue) + [e],
         offered := s.offered + [e], head := s.head + gone, evicted := s.evicted + gone)
    case Post(max) =>
      var batch := EventQueue.TakeFirst(s.queue, max);
      s.(uploader := Posting(batch), sent := s.sent + {batch}, from := s.head)
    case Commit(request, now, known) =>
      s.(uploads := s.uploads + [Upload(INSTALL, request, now, known)], committed := s.committed + {request})
    case Answered(a) =>
      if s.uploader.Idle? then s
      else if EventQueue.Success(a) || EventQueue.Poison(a) then
        var n := |s.uploader.batch|;
        s.(queue := EventQueue.DropFirst(s.queue, n), head := s.head + AtMost(n, s.queue), uploader := Idle,
           acked := if EventQueue.Success(a) then s.acked + Range(s.from, n) else s.acked,
           poisoned := if EventQueue.Poison(a) then s.poisoned + Range(s.from, n) else s.poisoned)
      else s.(uploader := Idle)
    case Restart =>
      s.(uploader := Idle)
  }

  function After(trace: seq<Step>): State {
    if trace == [] then Start else Apply(After(trace[..|trace| - 1]), trace[|trace| - 1])
  }

  predicate Valid(trace: seq<Step>) {
    trace == [] ||
    (Valid(trace[..|trace| - 1]) && Enabled(After(trace[..|trace| - 1]), trace[|trace| - 1]))
  }

  // ---------- the device side ----------

  /** Positions below n that no response settled. */
  function Unsettled(n: nat, settled: set<nat>): nat {
    if n == 0 then 0 else Unsettled(n - 1, settled) + if n - 1 in settled then 0 else 1
  }

  lemma {:induction false} UnsettledMonotone(n: nat, m: nat, a: set<nat>, b: set<nat>)
    requires n <= m && a <= b
    ensures Unsettled(n, b) <= Unsettled(n, a)
    ensures Unsettled(n, a) <= Unsettled(m, a) <= Unsettled(n, a) + (m - n)
  {
    if n < m {
      UnsettledMonotone(n, m - 1, a, b);
    } else if n > 0 {
      UnsettledMonotone(n - 1, n - 1, a, b);
    }
  }

  lemma {:induction false} UnsettledRange(lo: nat, n: nat, settled: set<nat>)
    requires Range(lo, n) <= settled
    ensures Unsettled(lo + n, settled) == Unsettled(lo, settled)
  {
    if n > 0 {
      assert Range(lo, n - 1) <= Range(lo, n);
      assert lo + n - 1 in Range(lo, n);
      UnsettledRange(lo, n - 1, settled);
    }
  }

  ghost predicate DeviceOk(s: State) {
    && s.head <= |s.offered| && s.queue == s.offered[s.head..]
    && match s.uploader
       case Idle => Unsettled(s.head, s.acked + s.poisoned) <= s.evicted
       case Posting(batch) =>
         && batch != [] && s.from <= s.head && s.from + |batch| <= |s.offered|
         && batch == s.offered[s.from..s.from + |batch|]
         && Unsettled(s.from, s.acked + s.poisoned) + (s.head - s.from) <= s.evicted
  }

  lemma SettleStep(s: State, a: EventQueue.Answer)
    requires DeviceOk(s) && s.uploader.Posting? && (EventQueue.Success(a) || EventQueue.Poison(a))
    ensures DeviceOk(Apply(s, Answered(a)))
  {
    var s' := Apply(s, Answered(a));
    var n := |s.uploader.batch|;
    var settled, settled' := s.acked + s.poisoned, s'.acked + s'.poisoned;
    assert settled' == settled + Range(s.from, n);
    UnsettledRange(s.from, n, settled');
    UnsettledMonotone(s.from, s.from, settled, settled');
    if s'.head <= s.from + n {
      UnsettledMonotone(s'.head, s.from + n, settled', settled');
    } else {
      UnsettledMonotone(s.from + n, s'.head, settled', settled');
    }
  }

  lemma DeviceStep(s: State, step: Step)
    requires DeviceOk(s) && Enabled(s, step)
    ensures DeviceOk(Apply(s, step))
  {
    var settled := s.acked + s.poisoned;
    match step
    case Offer(e, full) => UnsettledMonotone(s.head, Apply(s, step).head, settled, settled);
    case Post(_) =>
    case Commit(_, _, _) =>
    case Answered(a) =>
      if EventQueue.Success(a) || EventQueue.Poison(a) {
        SettleStep(s, a);
      } else {
        UnsettledMonotone(s.from, s.head, settled, settled);
      }
    case Restart =>
      if s.uploader.Posting? { UnsettledMonotone(s.from, s.head, settled, settled); }
  }

  // ---------- the server side ----------

  /** The row an offered event becomes, whenever it is stored. */
  function Stored(e: Event): Row {
    ToRow(e, INSTALL, 1)
  }

  ghost predicate Stamped(offered: seq<Event>) {
    && (forall e :: e in offered ==> e.eventId != "" && e.ts > 0)
    && (forall e, x :: e in offered && x in offered && e.eventId == x.eventId ==> e == x)
  }

  ghost predicate From(events: seq<Event>, offered: seq<Event>) {
    forall e :: e in events ==> e in offered
  }

  ghost predicate AllStored(events: seq<Event>, rows: seq<Row>) {
    forall e :: e in events ==> Stored(e) in rows
  }

  ghost predicate OnlyFrom(rows: seq<Row>, offered: seq<Event>) {
    forall r :: r in rows ==> exists e :: e in offered && r == Stored(e)
  }

  ghost predicate AckedStored(acked: set<nat>, offered: seq<Event>, rows: seq<Row>) {
    forall p :: p in acked ==> p < |offered| && Stored(offered[p]) in rows
  }

  /** What the network and the server keep, whatever the device does. */
  ghost predicate NetOk(offered: seq<Event>, uploads: seq<Upload>, sent: set<seq<Event>>, committed: set<seq<Event>>) {
    var rows := History(uploads).rows;
    && Stamped(offered)
    && HonestHistory(uploads)
    && committed <= sent
    && (forall r :: r in sent ==> From(r, offered))
    && (forall r :: r in committed ==> AllStored(r, rows))
    && OnlyFrom(rows, offered)
  }

  ghost predicate ServerOk(s: State) {
    && NetOk(s.offered, s.uploads, s.sent, s.committed)
    && (s.uploader.Posting? ==> s.uploader.batch in s.sent)
    && AckedStored(s.acked, s.offered, History(s.uploads).rows)
  }

  lemma CommitStores(rows: seq<Row>, known: set<string>, request: seq<Event>, offered: seq<Event>, now: int)
    requires Stamped(offered) && From(request, offered)
    requires OnlyFrom(rows, offered)
    ensures Positive(request) && Honest(rows, request, INSTALL, now)
    ensures OnlyFrom(InsertAll(rows, Dedupe(known, request), INSTALL, now), offered)
  {
    DedupeFresh(known, request);
    forall r | r in InsertAll(rows, Dedupe(known, request), INSTALL, now)
      ensures exists e :: e in offered && r == Stored(e)
    {
      InsertedRows(rows, Dedupe(known, request), INSTALL, now, r);
      if r !in rows {
        var e :| e in Dedupe(known, request) && r == ToRow(e, INSTALL, now);
        assert r == Stored(e);
      }
    }
  }

  lemma CommitReaches(rows: seq<Row>, known: set<string>, request: seq<Event>, offered: seq<Event>, now: int)
    requires Stamped(offered) && From(request, offered) && known <= Ids(rows)
    requires OnlyFrom(rows, offered)
    ensures AllStored(request, InsertAll(rows, Dedupe(known, request), INSTALL, now))
  {
    var events := Dedupe(known, request);
    var rows' := InsertAll(rows, events, INSTALL, now);
    CommitStores(rows, known, request, offered, now);
    InsertedIds(rows, events, INSTALL, now);
    DedupeFresh(known, request);
    forall e | e in request ensures Stored(e) in rows' {
      assert e.eventId in Ids(rows') by {
        if e.eventId !in known { assert Repeats(events, e.eventId); }
      }
      var r :| r in rows' && r.eventId == e.eventId;
      var x :| x in offered && r == Stored(x);
      assert x == e;
    }
  }

  lemma CommitNet(s: State, request: seq<Event>, now: int, known: Option<set<string>>)
    requires ServerOk(s) && Enabled(s, Commit(request, now, known))
    ensures var uploads := s.uploads + [Upload(INSTALL, request, now, known)];
      && HonestHistory(uploads)
      && History(s.uploads).rows <= History(uploads).rows
      && AllStored(request, History(uploads).rows) && OnlyFrom(History(uploads).rows, s.offered)
  {
    var db := History(s.uploads);
    var u := Upload(INSTALL, request, now, known);
    assert (s.uploads + [u])[..|s.uploads|] == s.uploads;
    var read := if known.Some? then known.value else Ids(db.rows);
    CommitStores(db.rows, read, request, s.offered, now);
    CommitReaches(db.rows, read, request, s.offered, now);
    InsertAllLater(db.rows, Dedupe(read, request), INSTALL, now);
  }

  lemma CommitStep(s: State, request: seq<Event>, now: int, known: Option<set<string>>)
    requires ServerOk(s) && Enabled(s, Commit(request, now, known))
    ensures ServerOk(Apply(s, Commit(request, now, known)))
  {
    CommitNet(s, request, now, known);
    var rows' := History(s.uploads + [Upload(INSTALL, request, now, known)]).rows;
    assert forall r :: r in History(s.uploads).rows ==> r in rows';
  }

  lemma OfferStep(s: State, e: Event, full: bool)
    requires ServerOk(s) && Enabled(s, Offer(e, full))
    ensures ServerOk(Apply(s, Offer(e, full)))
  {
    var s' := Apply(s, Offer(e, full));
    assert forall x :: x in s'.offered <==> x in s.offered || x == e;
    assert Stamped(s'.offered);
    assert forall p :: p in s.acked ==> s'.offered[p] == s.offered[p];
  }

  lemma AckBatch(acked: set<nat>, offered: seq<Event>, rows: seq<Row>, from: nat, batch: seq<Event>)
    requires AckedStored(acked, offered, rows) && AllStored(batch, rows)
    requires from + |batch| <= |offered| && batch == offered[from..from + |batch|]
    ensures AckedStored(acked + Range(from, |batch|), offered, rows)
  {
    forall p | p in Range(from, |batch|) ensures Stored(offered[p]) in rows {
      assert offered[p] == batch[p - from];
      assert batch[p - from] in batch;
    }
  }

  lemma AnswerStep(s: State, a: EventQueue.Answer)
    requires ServerOk(s) && DeviceOk(s) && Enabled(s, Answered(a))
    ensures ServerOk(Apply(s, Answered(a)))
  {
    var s' := Apply(s, Answered(a));
    if EventQueue.Success(a) {
      AckBatch(s.acked, s.offered, History(s.uploads).rows, s.from, s.uploader.batch);
      assert s'.acked == s.acked + Range(s.from, |s.uploader.batch|);
    }
    assert s'.uploads == s.uploads && s'.offered == s.offered;
    assert NetOk(s'.offered, s'.uploads, s'.sent, s'.committed);
  }

  lemma {:induction false} ReachableOk(trace: seq<Step>)
    requires Valid(trace)
    ensures DeviceOk(After(trace)) && ServerOk(After(trace))
  {
    if trace != [] {
      var n := |trace| - 1;
      ReachableOk(trace[..n]);
      var s := After(trace[..n]);
      DeviceStep(s, trace[n]);
      match trace[n]
      case Commit(request, now, known) => CommitStep(s, request, now, known);
      case Offer(e, full) => OfferStep(s, e, full);
      case Post(max) =>
        var batch := EventQueue.TakeFirst(s.queue, max);
        forall e | e in batch ensures e in s.offered { assert e in s.queue; }
      case Answered(a) => AnswerStep(s, a);
      case Restart =>
    }
  }

  /** The queue is always a contiguous suffix of everything offered, and the events removed without
      being acknowledged or dropped as poison never outnumber the evicted ones. */
  lemma QueueConservation(trace: seq<Step>)
    requires Valid(trace)
    ensures var s := After(trace);
      && s.head <= |s.offered| && s.queue == s.offered[s.head..]
      && Unsettled(s.head, s.acked + s.poisoned) <= s.evicted
  {
    ReachableOk(trace);
    var s := After(trace);
    if s.uploader.Posting? { UnsettledMonotone(s.from, s.head, s.acked + s.poisoned, s.acked + s.poisoned); }
  }

  /** Every acknowledged event is a row; ids and rows are unique; session columns are exact but for over-counts. */
  lemma EffectivelyOnce(trace: seq<Step>)
    requires Valid(trace)
    ensures var s := After(trace);
      var db := History(s.uploads);
      && UniqueIds(db.rows)
      && OnlyFrom(db.rows, s.offered)
      && AckedStored(s.acked, s.offered, db.rows)
      && OverCounted(db)
  {
    ReachableOk(trace);
    EveryHonestHistory(After(trace).uploads);
  }

  lemma Extend(trace: seq<Step>, s: State, step: Step)
    requires Valid(trace) && After(trace) == s && Enabled(s, step)
    ensures Valid(trace + [step]) && After(trace + [step]) == Apply(s, step)
  {
    assert (trace + [step])[..|trace|] == trace;
  }

  // ---------- which events an answer removes ----------

  predicate Settles(a: EventQueue.Answer) {
    EventQueue.Success(a) || EventQueue.Poison(a)
  }

  /** The positions of the batch in flight. */
  function Posted(s: State): set<nat> {
    if s.uploader.Posting? then Range(s.from, |s.uploader.batch|) else {}
  }

  /** The positions a settling answer takes off the queue. */
  function Removed(s: State): set<nat> {
    if s.uploader.Posting? then Range(s.head, AtMost(|s.uploader.batch|, s.queue)) else {}
  }

  /** Nothing was evicted since the peek, or so little is queued that the count still ends inside the batch. */
  predicate InPlace(s: State) {
    s.uploader.Posting? ==>
      s.head == s.from || s.queue == [] || |s.queue| + (s.head - s.from) <= |s.uploader.batch|
  }

  /** What both sets stand for: the batch posted, and the events a settling answer takes from the front of the queue. */
  lemma RemovedMeans(s: State, a: EventQueue.Answer)
    requires DeviceOk(s) && s.uploader.Posting? && Settles(a)
    ensures var s', n := Apply(s, Answered(a)), |s.uploader.batch|;
      && s.from + n <= |s.offered| && s.uploader.batch == s.offered[s.from..s.from + n]
      && (forall p: nat :: p in Removed(s) <==> s.head <= p < s'.head)
      && s'.head <= |s.offered| && s'.queue == s.offered[s'.head..]
  {}

  /** An acknowledgement by count takes only events of its own batch exactly when it is in place. */
  lemma AckInPlaceIff(trace: seq<Step>)
    requires Valid(trace) && After(trace).uploader.Posting?
    ensures Removed(After(trace)) <= Posted(After(trace)) <==> InPlace(After(trace))
  {
    ReachableOk(trace);
    var s := After(trace);
    var n := AtMost(|s.uploader.batch|, s.queue);
    if !InPlace(s) { assert s.head + n - 1 in Removed(s); }
  }

  /** After a 2xx in place every event it removed is a row. */
  lemma AckedInPlaceIsStored(trace: seq<Step>, a: EventQueue.Answer, p: nat)
    requires Valid(trace) && After(trace).uploader.Posting? && EventQueue.Success(a) && InPlace(After(trace))
    requires Enabled(After(trace), Answered(a))
    ensures var s, s' := After(trace), Apply(After(trace), Answered(a));
      s.head <= p < s'.head ==> p < |s'.offered| && Stored(s'.offered[p]) in History(s'.uploads).rows
  {
    AckInPlaceIff(trace);
    Extend(trace, After(trace), Answered(a));
    ReachableOk(trace + [Answered(a)]);
    if After(trace).head <= p < Apply(After(trace), Answered(a)).head { assert p in Removed(After(trace)); }
  }

  /** The positions evictions removed. */
  function Evicted(trace: seq<Step>): set<nat> {
    if trace == [] then {} else
      var s, step := After(trace[..|trace| - 1]), trace[|trace| - 1];
      Evicted(trace[..|trace| - 1]) +
      if step.Offer? && step.full then Range(s.head, AtMost(EventQueue.EVICT, s.queue)) else {}
  }

  /** The positions that answers removed although they were not in the batch answered. */
  function Stray(trace: seq<Step>): set<nat> {
    if trace == [] then {} else
      var s, step := After(trace[..|trace| - 1]), trace[|trace| - 1];
      Stray(trace[..|trace| - 1]) + if step.Answered? && Settles(step.a) then Removed(s) - Posted(s) else {}
  }

  predicate AnswersInPlace(trace: seq<Step>) {
    trace == [] ||
    (AnswersInPlace(trace[..|trace| - 1]) &&
     (trace[|trace| - 1].Answered? && Settles(trace[|trace| - 1].a) ==> InPlace(After(trace[..|trace| - 1]))))
  }

  lemma {:induction false} NoneStrayIff(trace: seq<Step>)
    requires Valid(trace)
    ensures Stray(trace) == {} <==> AnswersInPlace(trace)
  {
    if trace != [] {
      var rest := trace[..|trace| - 1];
      NoneStrayIff(rest);
      if After(rest).uploader.Posting? {
        AckInPlaceIff(rest);
        assert Removed(After(rest)) - Posted(After(rest)) == {} <==> Removed(After(rest)) <= Posted(After(rest));
      }
    }
  }

  lemma GoneStep(s: State, step: Step, p: nat)
    requires DeviceOk(s) && Enabled(s, step)
    ensures var s', settled := Apply(s, step), step.Answered? && Settles(step.a);
      && (p in s'.acked + s'.poisoned <==> p in s.acked + s.poisoned || (settled && p in Posted(s)))
      && (settled && p in Posted(s) ==> p < s'.head)
      && (p < s'.head <==> || p < s.head
                           || (step.Offer? && step.full && p in Range(s.head, AtMost(EventQueue.EVICT, s.queue)))
                           || (settled && p in Removed(s)))
  {}

  /** Every event that left the device was acknowledged, dropped as poison, evicted, or removed by a stray answer. */
  lemma {:induction false} WhereEventsGo(trace: seq<Step>, p: nat)
    requires Valid(trace)
    ensures var s := After(trace);
      p < s.head <==> p in s.acked || p in s.poisoned || p in Evicted(trace) || p in Stray(trace)
  {
    if trace != [] {
      var n := |trace| - 1;
      WhereEventsGo(trace[..n], p);
      ReachableOk(trace[..n]);
      GoneStep(After(trace[..n]), trace[n], p);
    }
  }

  lemma {:induction false} WithoutEvictions(trace: seq<Step>)
    requires Valid(trace) && After(trace).evicted == 0
    ensures AnswersInPlace(trace) && Evicted(trace) == {}
  {
    if trace != [] {
      WithoutEvictions(trace[..|trace| - 1]);
      ReachableOk(trace[..|trace| - 1]);
    }
  }

  /** When every answer was in place, as without evictions it is, whatever left the device is stored, was refused,
      or was evicted. */
  lemma LossIsEviction(trace: seq<Step>, p: nat)
    requires Valid(trace) && (AnswersInPlace(trace) || After(trace).evicted == 0) && p < After(trace).head
    ensures var s := After(trace);
      || p in s.poisoned || (p in Evicted(trace) && s.evicted > 0)
      || (p < |s.offered| && Stored(s.offered[p]) in History(s.uploads).rows)
  {
    if After(trace).evicted == 0 { WithoutEvictions(trace); }
    NoneStrayIff(trace);
    WhereEventsGo(trace, p);
    ReachableOk(trace);
  }

  // ---------- an eviction between peek and ack ----------

  lemma StoresOne(uploads: seq<Upload>, batch: seq<Event>, a: Event)
    requires batch == [a] && uploads == [Upload(INSTALL, batch, 1, None)]
    ensures History(uploads).rows == Insert([], Stored(a))
  {
    assert uploads[..|uploads| - 1] == [];
    OneEvent([], Ids([]), batch, a, INSTALL, 1);
  }

  lemma PostThenEvict(a: Event, b: Event) returns (s: State)
    requires a.eventId != "" && a.ts > 0 && b.eventId != "" && b.ts > 0 && a.eventId != b.eventId
    ensures var s1 := Apply(Start, Offer(a, false));
      && Enabled(Start, Offer(a, false)) && Enabled(s1, Post(1)) && Enabled(Apply(s1, Post(1)), Offer(b, true))
      && s == Apply(Apply(s1, Post(1)), Offer(b, true))
    ensures s == State([b], Posting([a]), [], [a, b], {[a]}, {}, 1, 0, {}, {}, 1)
  {
    var s1 := Apply(Start, Offer(a, false));
    assert s1 == State([a], Idle, [], [a], {}, {}, 0, 0, {}, {}, 0);
    assert EventQueue.TakeFirst([a], 1) == [a];
    var s2 := Apply(s1, Post(1));
    assert s2 == State([a], Posting([a]), [], [a], {[a]}, {}, 0, 0, {}, {}, 0);
    s := Apply(s2, Offer(b, true));
  }

  lemma CommitThenAck(a: Event, b: Event, s: State)
    requires s == State([b], Posting([a]), [], [a, b], {[a]}, {}, 1, 0, {}, {}, 1)
    ensures Enabled(s, Commit([a], 1, None))
    ensures Enabled(Apply(s, Commit([a], 1, None)), Answered(EventQueue.Code(200)))
    ensures var end := Apply(Apply(s, Commit([a], 1, None)), Answered(EventQueue.Code(200)));
      && end.offered == [a, b] && end.queue == [] && end.evicted == 1 && end.poisoned == {} && end.sent == {[a]}
      && end.uploads == [Upload(INSTALL, [a], 1, None)]
  {}

  /** Evicting an event while its batch is in flight makes the ack remove an event that was never sent. */
  lemma EvictionUnderUploadLoses(a: Event, b: Event) returns (trace: seq<Step>)
    requires a.eventId != "" && a.ts > 0 && b.eventId != "" && b.ts > 0 && a.eventId != b.eventId
    ensures Valid(trace)
    ensures var s := After(trace);
      && s.offered == [a, b] && s.queue == [] && s.evicted == 1 && s.poisoned == {} && s.sent == {[a]}
      && Stored(b) !in History(s.uploads).rows
  {
    var s1 := Apply(Start, Offer(a, false));
    var s2 := Apply(s1, Post(1));
    var s3 := PostThenEvict(a, b);
    CommitThenAck(a, b, s3);
    var s4 := Apply(s3, Commit([a], 1, None));
    StoresOne([Upload(INSTALL, [a], 1, None)], [a], a);
    trace := [];
    Extend(trace, Start, Offer(a, false));
    trace := trace + [Offer(a, false)];
    Extend(trace, s1, Post(1));
    trace := trace + [Post(1)];
    Extend(trace, s2, Offer(b, true));
    trace := trace + [Offer(b, true)];
    Extend(trace, s3, Commit([a], 1, None));
    trace := trace + [Commit([a], 1, None)];
    Extend(trace, s4, Answered(EventQueue.Code(200)));
    trace := trace + [Answered(EventQueue.Code(200))];
  }
}
