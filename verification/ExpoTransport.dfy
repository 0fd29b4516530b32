/**
 The Expo SDK's upload queue: a bounded list in memory, whole-queue batches in flight, and a snapshot on
 disk that a restart adopts. The JSON text of an event is a parameter.
 */
module ExpoTransport {
  import opened Prelude
  import opened QueueStore

  datatype Event = Event(eventId: string, ty: string, payload: string)

  datatype Codec = Codec(stringify: Event -> string, parse: string -> Option<Event>)

  const QUEUE_CAP := 500
  const REQUEUE_CAP := 100

  datatype Outcome = Response(status: int) | NoAnswer

  predicate Accepted(o: Outcome) {
    o.Response? && 200 <= o.status < 300
  }

  /** A client error other than 429: dropped rather than retried. */
  predicate Poison(o: Outcome) {
    o.Response? && 400 <= o.status < 500 && o.status != 429
  }

  function Stamp(e: Event, id: string): Event {
    if e.eventId == "" then e.(eventId := id) else e
  }

  /** The last n elements. */
  function Newest(batch: seq<Event>, n: nat): seq<Event> {
    if |batch| <= n then batch else batch[|batch| - n..]
  }

  function Strings(c: Codec, q: seq<Event>): (lines: seq<string>)
    ensures |lines| == |q|
  {
    if q == [] then [] else [c.stringify(q[0])] + Strings(c, q[1..])
  }

  /** What a snapshot of q writes. */
  function Content(c: Codec, q: seq<Event>): string {
    Join(Kept(Strings(c, q)))
  }

  /** The constructor's restore: lines that parse to a typed event, until the queue is full. */
  function Restored(c: Codec, lines: seq<string>): (q: seq<Event>)
    ensures |q| <= 500
  {
    if lines == [] then [] else
      var q := Restored(c, lines[..|lines| - 1]);
      var e := c.parse(lines[|lines| - 1]);
      if e.Some? && e.value.ty != "" && |q| < QUEUE_CAP then q + [e.value] else q
  }

  // ---------- the transport's own methods ----------

  class Transport {
    const codec: Codec
    const store: Store
    var queue: seq<Event>
    var persistPending: bool

    constructor (c: Codec, s: Store)
      modifies s
      ensures codec == c && store == s && !persistPending
      ensures queue == if old(s.file).Some? then Restored(c, Lines(old(s.file).value)) else []
      ensures s.file == None
    {
      codec, store, queue, persistPending := c, s, [], false;
      new;
      var lines := store.TakePersistedQueue();
      for i := 0 to |lines|
        invariant queue == Restored(c, lines[..i]) && codec == c && store == s && !persistPending && s.file == None
      {
        assert lines[..i + 1][..i] == lines[..i];
        var ev := codec.parse(lines[i]);
        if ev.Some? && ev.value.ty != "" && |queue| < QUEUE_CAP { queue := queue + [ev.value]; }
      }
      assert lines[..|lines|] == lines;
    }

    method Enqueue(ev: Event, newId: string)
      modifies this
      ensures queue == if |old(queue)| < 500 then old(queue) + [Stamp(ev, newId)] else old(queue)
      ensures Stamp(ev, newId) == Event(if ev.eventId == "" then newId else ev.eventId, ev.ty, ev.payload)
      ensures persistPending
    {
      var e := if ev.eventId == "" then ev.(eventId := newId) else ev;
      if |queue| < QUEUE_CAP { queue := queue + [e]; }
      persistPending := true;
    }

    method Encoded() returns (lines: seq<string>)
      ensures lines == Strings(codec, queue)
    {
      lines := [];
      for i := 0 to |queue|
        invariant lines == Strings(codec, queue[..i])
      {
        StringsSnoc(codec, queue[..i], queue[i]);
        assert queue[..i + 1] == queue[..i] + [queue[i]];
        lines := lines + [codec.stringify(queue[i])];
      }
      assert queue[..|queue|] == queue;
    }

    /** The debounce timer. */
    method PersistNow()
      modifies this`persistPending, store
      ensures store.file == Some(Content(codec, queue)) && !persistPending
    {
      persistPending := false;
      var lines := Encoded();
      store.PersistQueue(lines);
    }

    /** Up to the request: the whole queue becomes the batch. */
    method BeginFlush() returns (batch: seq<Event>)
      modifies this`queue
      ensures batch == old(queue) && queue == []
    {
      batch := queue;
      queue := [];
    }

    /** From the answer on. */
    method EndFlush(batch: seq<Event>, o: Outcome)
      modifies this, store
      ensures queue == if Accepted(o) || Poison(o) then old(queue) else Newest(batch, 100) + old(queue)
      ensures Accepted(o) || Poison(o) <==>
        o.Response? && (200 <= o.status <= 299 || (400 <= o.status <= 499 && o.status != 429))
      ensures Accepted(o) && old(queue) == [] ==> store.file == None
      ensures Accepted(o) && old(queue) != [] ==> store.file == old(store.file) && persistPending
      ensures Poison(o) ==> store.file == old(store.file)
      ensures !Accepted(o) && !Poison(o) ==> store.file == Some(Content(codec, queue))
    {
      if Accepted(o) {
        if |queue| == 0 { store.ClearPersistedQueue(); } else { persistPending := true; }
        return;
      }
      if o.Response? && o.status >= 400 && o.status < 500 && o.status != 429 { return; }
      queue := Newest(batch, REQUEUE_CAP) + queue;
      var lines := Encoded();
      store.PersistQueue(lines);
    }
  }

  lemma {:induction false} StringsSnoc(c: Codec, q: seq<Event>, e: Event)
    ensures Strings(c, q + [e]) == Strings(c, q) + [c.stringify(e)]
  {
    if q == [] {
      assert q + [e] == [e];
    } else {
      StringsSnoc(c, q[1..], e);
      assert (q + [e])[1..] == q[1..] + [e];
    }
  }

  // ---------- a restart after a snapshot ----------

  /** Every event's text is one line that parses back to it. */
  ghost predicate CodecOk(c: Codec) {
    forall e :: Plain(c.stringify(e)) && c.parse(c.stringify(e)) == Some(e)
  }

  /** The longest suffix of q whose lines fit in the file. */
  function Fitting(c: Codec, q: seq<Event>): (f: seq<Event>)
    ensures |f| <= |q| && f == q[|q| - |f|..]
    decreases |q|
  {
    if Size(Strings(c, q)) <= MAX_BYTES then q else
      assert q != [];
      Fitting(c, q[1..])
  }

  lemma {:induction false} FittingStrings(c: Codec, q: seq<Event>)
    ensures Strings(c, Fitting(c, q)) == Kept(Strings(c, q))
  {
    if Size(Strings(c, q)) > MAX_BYTES {
      FittingStrings(c, q[1..]);
      assert Strings(c, q)[1..] == Strings(c, q[1..]);
    }
  }

  lemma {:induction false} StringsPlain(c: Codec, q: seq<Event>)
    requires CodecOk(c)
    ensures AllPlain(Strings(c, q))
  {
    if q != [] { StringsPlain(c, q[1..]); }
  }

  function Typed(q: seq<Event>): seq<Event> {
    if q == [] then [] else
      Typed(q[..|q| - 1]) + if q[|q| - 1].ty != "" then [q[|q| - 1]] else []
  }

  function First(q: seq<Event>, n: nat): seq<Event> {
    if |q| <= n then q else q[..n]
  }

  lemma {:induction false} RestoredStrings(c: Codec, q: seq<Event>)
    requires CodecOk(c)
    ensures Restored(c, Strings(c, q)) == First(Typed(q), 500)
  {
    if q != [] {
      var init, last := q[..|q| - 1], q[|q| - 1];
      RestoredStrings(c, init);
      StringsSnoc(c, init, last);
      assert q == init + [last];
      assert Strings(c, q)[..|q| - 1] == Strings(c, init);
    }
  }

  /**
   A restart that reads a snapshot of q adopts exactly the first 500 typed events of the longest suffix of q
   that fits in the file.
   */
  lemma RestartAdopts(c: Codec, q: seq<Event>)
    requires CodecOk(c)
    ensures Restored(c, Lines(Content(c, q))) == First(Typed(Fitting(c, q)), 500)
  {
    StringsPlain(c, q);
    SnapshotReadsBack(Strings(c, q));
    FittingStrings(c, q);
    RestoredStrings(c, Fitting(c, q));
  }

  // ---------- runs ----------

  /**
   `inflight` holds the batches of flushes that have not ended, `disk` the file, `snapshot` the queue it was
   last written from. The other lists are history: everything ever enqueued; what an accepted batch carried;
   what was dropped on a full queue, beyond the newest 100 of a failed batch, or as poison; what a kill
   destroyed in memory, and what restarts adopted from disk. `peak` is the largest number of flushes that
   were ever in flight at once.
   */
  datatype State = State(queue: seq<Event>, inflight: seq<seq<Event>>, disk: Option<string>, snapshot: seq<Event>,
                         enqueued: seq<Event>, acked: seq<Event>, dropped: seq<Event>,
                         lost: seq<Event>, revived: seq<Event>, peak: nat)

  datatype Step =
    | Enqueue(e: Event)
    | Flush
    | Finish(i: nat, o: Outcome)
    | Persist
    | Kill

  const Start := State([], [], None, [], [], [], [], [], [], 0)

  function Count(q: seq<Event>, e: Event): nat {
    if q == [] then 0 else Count(q[..|q| - 1], e) + if q[|q| - 1] == e then 1 else 0
  }

  /** Copies of e in the batches in flight. */
  function Aboard(batches: seq<seq<Event>>, e: Event): nat {
    if batches == [] then 0 else Aboard(batches[..|batches| - 1], e) + Count(batches[|batches| - 1], e)
  }

  /** All batches end to end. */
  function Flat(batches: seq<seq<Event>>): seq<Event> {
    if batches == [] then [] else Flat(batches[..|batches| - 1]) + batches[|batches| - 1]
  }

  function Without(batches: seq<seq<Event>>, i: nat): seq<seq<Event>>
    requires i < |batches|
  {
    batches[..i] + batches[i + 1..]
  }

  predicate Enabled(s: State, step: Step) {
    match step
    case Flush => s.queue != []
    case Finish(i, _) => i < |s.inflight|
    case _ => true
  }

  /** A step that is not enabled leaves the state as it is. */
  function Apply(c: Codec, s: State, step: Step): State {
    if !Enabled(s, step) then s else
    match step
    case Enqueue(e) =>
      if |s.queue| < QUEUE_CAP then s.(queue := s.queue + [e], enqueued := s.enqueued + [e])
      else s.(enqueued := s.enqueued + [e], dropped := s.dropped + [e])
    case Flush =>
      var n := |s.inflight| + 1;
      s.(queue := [], inflight := s.inflight + [s.queue], peak := if n > s.peak then n else s.peak)
    case Finish(i, o) =>
      var batch := s.inflight[i];
      var t := s.(inflight := Without(s.inflight, i));
      if Accepted(o) then
        t.(acked := s.acked + batch, disk := if s.queue == [] then None else s.disk)
      else if Poison(o) then
        t.(dropped := s.dropped + batch)
      else
        var kept := Newest(batch, REQUEUE_CAP);
        var queue := kept + s.queue;
        t.(queue := queue, dropped := s.dropped + batch[..|batch| - |kept|],
           disk := Some(Content(c, queue)), snapshot := queue)
    case Persist =>
      s.(disk := Some(Content(c, s.queue)), snapshot := s.queue)
    case Kill =>
      var queue := if s.disk.Some? then Restored(c, Lines(s.disk.value)) else [];
      s.(queue := queue, inflight := [], disk := None,
         lost := s.lost + (s.queue + Flat(s.inflight)), revived := s.revived + queue)
  }

  function After(c: Codec, trace: seq<Step>): State {
    if trace == [] then Start else Apply(c, After(c, trace[..|trace| - 1]), trace[|trace| - 1])
  }

  // ---------- what every run keeps ----------

  /** The books balance for event e. */
  predicate Conserved(s: State, e: Event) {
    Count(s.enqueued, e) + Count(s.revived, e)
      == Count(s.queue, e) + Aboard(s.inflight, e) + Count(s.acked, e) + Count(s.dropped, e) + Count(s.lost, e)
  }

  predicate Bounded(s: State) {
    |s.inflight| <= s.peak && |s.queue| <= QUEUE_CAP + REQUEUE_CAP * (s.peak - |s.inflight|)
  }

  lemma {:induction false} CountConcat(a: seq<Event>, b: seq<Event>, e: Event)
    ensures Count(a + b, e) == Count(a, e) + Count(b, e)
  {
    if b == [] {
      assert a + b == a;
    } else {
      CountConcat(a, b[..|b| - 1], e);
      assert (a + b)[..|a + b| - 1] == a + b[..|b| - 1];
    }
  }

  lemma {:induction false} AboardIsFlat(batches: seq<seq<Event>>, e: Event)
    ensures Aboard(batches, e) == Count(Flat(batches), e)
  {
    if batches != [] {
      AboardIsFlat(batches[..|batches| - 1], e);
      CountConcat(Flat(batches[..|batches| - 1]), batches[|batches| - 1], e);
    }
  }

  lemma {:induction false} AboardWithout(batches: seq<seq<Event>>, i: nat, e: Event)
    requires i < |batches|
    ensures Aboard(batches, e) == Aboard(Without(batches, i), e) + Count(batches[i], e)
  {
    var init := batches[..|batches| - 1];
    if i == |batches| - 1 {
      assert Without(batches, i) == init;
    } else {
      AboardWithout(init, i, e);
      var w := Without(batches, i);
      assert w[..|w| - 1] == Without(init, i);
    }
  }

  lemma SplitNewest(batch: seq<Event>, n: nat, e: Event)
    ensures Count(batch, e) == Count(batch[..|batch| - |Newest(batch, n)|], e) + Count(Newest(batch, n), e)
  {
    var k := |batch| - |Newest(batch, n)|;
    CountConcat(batch[..k], batch[k..], e);
    assert batch == batch[..k] + batch[k..];
    assert Newest(batch, n) == batch[k..];
  }

  /** A finished batch goes to exactly one of three places. */
  lemma FinishShape(c: Codec, s: State, i: nat, o: Outcome)
    requires i < |s.inflight|
    ensures var t, batch := Apply(c, s, Finish(i, o)), s.inflight[i];
            var kept := Newest(batch, REQUEUE_CAP);
            && t.enqueued == s.enqueued && t.revived == s.revived && t.lost == s.lost
            && t.inflight == Without(s.inflight, i)
            && if Accepted(o) || Poison(o) then
                 && t.queue == s.queue && t.snapshot == s.snapshot && (t.disk == s.disk || t.disk == None)
                 && t.acked == (if Accepted(o) then s.acked + batch else s.acked)
                 && t.dropped == (if Accepted(o) then s.dropped else s.dropped + batch)
               else
                 && t.queue == kept + s.queue && t.snapshot == t.queue && t.disk == Some(Content(c, t.queue))
                 && t.acked == s.acked && t.dropped == s.dropped + batch[..|batch| - |kept|]
  {}

  lemma FinishConserves(c: Codec, s: State, i: nat, o: Outcome, e: Event)
    requires Conserved(s, e) && i < |s.inflight|
    ensures Conserved(Apply(c, s, Finish(i, o)), e)
  {
    FinishShape(c, s, i, o);
    var batch := s.inflight[i];
    var kept := Newest(batch, REQUEUE_CAP);
    AboardWithout(s.inflight, i, e);
    CountConcat(s.acked, batch, e);
    CountConcat(s.dropped, batch, e);
    SplitNewest(batch, REQUEUE_CAP, e);
    CountConcat(kept, s.queue, e);
    CountConcat(s.dropped, batch[..|batch| - |kept|], e);
  }

  lemma CountOne(q: seq<Event>, d: Event, e: Event)
    ensures Count(q + [d], e) == Count(q, e) + if d == e then 1 else 0
  {
    assert (q + [d])[..|q|] == q;
  }

  lemma EnqueueConserves(c: Codec, s: State, d: Event, e: Event)
    requires Conserved(s, e)
    ensures Conserved(Apply(c, s, Enqueue(d)), e)
  {
    CountOne(s.enqueued, d, e);
    if |s.queue| < QUEUE_CAP { CountOne(s.queue, d, e); } else { CountOne(s.dropped, d, e); }
  }

  lemma KillConserves(c: Codec, s: State, e: Event)
    requires Conserved(s, e)
    ensures Conserved(Apply(c, s, Kill), e)
  {
    AboardIsFlat(s.inflight, e);
    CountConcat(s.queue, Flat(s.inflight), e);
    CountConcat(s.lost, s.queue + Flat(s.inflight), e);
    CountConcat(s.revived, Apply(c, s, Kill).queue, e);
  }

  lemma StepBounded(c: Codec, s: State, step: Step)
    requires Bounded(s)
    ensures Bounded(Apply(c, s, step))
  {}

  lemma {:induction false} EveryRunConserves(c: Codec, trace: seq<Step>, e: Event)
    ensures Conserved(After(c, trace), e)
  {
    if trace == [] {
    } else {
      EveryRunConserves(c, trace[..|trace| - 1], e);
      var s, step := After(c, trace[..|trace| - 1]), trace[|trace| - 1];
      if Enabled(s, step) {
        match step
        case Enqueue(d) => EnqueueConserves(c, s, d, e);
        case Flush => assert (s.inflight + [s.queue])[..|s.inflight|] == s.inflight;
        case Finish(i, o) => FinishConserves(c, s, i, o, e);
        case Persist =>
        case Kill => KillConserves(c, s, e);
      }
    }
  }

  lemma {:induction false} EveryRunBounded(c: Codec, trace: seq<Step>)
    ensures Bounded(After(c, trace))
  {
    if trace == [] {
    } else {
      EveryRunBounded(c, trace[..|trace| - 1]);
      StepBounded(c, After(c, trace[..|trace| - 1]), trace[|trace| - 1]);
    }
  }

  /** However flushes overlap and fail, the queue never exceeds 500 plus 100 for each that has ended. */
  lemma QueueBound(c: Codec, trace: seq<Step>, k: nat)
    requires After(c, trace).peak <= k
    ensures var s := After(c, trace); |s.queue| <= 500 + 100 * (k - |s.inflight|)
  {
    EveryRunBounded(c, trace);
  }

  lemma OnlyKillLoses(c: Codec, s: State, step: Step)
    requires step != Kill
    ensures Apply(c, s, step).lost == s.lost && Apply(c, s, step).revived == s.revived
  {}

  lemma {:induction false} NoKillNoLoss(c: Codec, trace: seq<Step>)
    requires Kill !in trace
    ensures After(c, trace).lost == [] && After(c, trace).revived == []
  {
    if trace != [] {
      var init, last := trace[..|trace| - 1], trace[|trace| - 1];
      assert last in trace && forall step :: step in init ==> step in trace;
      NoKillNoLoss(c, init);
      OnlyKillLoses(c, After(c, init), last);
    }
  }

  /** While the app lives, an event enqueued once is in exactly one place. */
  lemma Partition(c: Codec, trace: seq<Step>, e: Event)
    requires Kill !in trace && Count(After(c, trace).enqueued, e) == 1
    ensures var s := After(c, trace);
            Count(s.queue, e) + Aboard(s.inflight, e) + Count(s.acked, e) + Count(s.dropped, e) == 1
  {
    EveryRunConserves(c, trace, e);
    NoKillNoLoss(c, trace);
  }

  // ---------- across kills ----------

  /** The file, if there is one, was written from the snapshot. */
  predicate DiskOk(c: Codec, s: State) {
    s.disk.Some? ==> s.disk.value == Content(c, s.snapshot)
  }

  /** Copies of e in memory. */
  function Live(s: State, e: Event): nat {
    Count(s.queue, e) + Aboard(s.inflight, e)
  }

  /** e is neither live nor on disk more often than it was enqueued. */
  predicate NoCopies(s: State, e: Event) {
    Live(s, e) <= Count(s.enqueued, e) && Count(s.snapshot, e) <= Count(s.enqueued, e)
  }

  lemma {:induction false} TypedWithin(q: seq<Event>, e: Event)
    ensures Count(Typed(q), e) <= Count(q, e)
  {
    if q != [] {
      var init, last := q[..|q| - 1], [q[|q| - 1]];
      TypedWithin(init, e);
      CountConcat(init, last, e);
      assert q == init + last;
      if last[0].ty != "" {
        assert Typed(q) == Typed(init) + last;
        CountConcat(Typed(init), last, e);
      } else {
        assert Typed(q) == Typed(init);
      }
    }
  }

  lemma SplitCount(q: seq<Event>, k: nat, e: Event)
    requires k <= |q|
    ensures Count(q[..k], e) + Count(q[k..], e) == Count(q, e)
  {
    CountConcat(q[..k], q[k..], e);
    assert q == q[..k] + q[k..];
  }

  lemma FirstWithin(q: seq<Event>, n: nat, e: Event)
    ensures Count(First(q, n), e) <= Count(q, e)
  {
    if |q| > n { SplitCount(q, n, e); }
  }

  lemma AdoptedWithin(c: Codec, q: seq<Event>, e: Event)
    requires CodecOk(c)
    ensures Count(Restored(c, Lines(Content(c, q))), e) <= Count(q, e)
  {
    RestartAdopts(c, q);
    var f := Fitting(c, q);
    SplitCount(q, |q| - |f|, e);
    TypedWithin(f, e);
    FirstWithin(Typed(f), QUEUE_CAP, e);
  }

  lemma RequeueCount(q: seq<Event>, batches: seq<seq<Event>>, i: nat, e: Event)
    requires i < |batches|
    ensures Count(Newest(batches[i], REQUEUE_CAP) + q, e) + Aboard(Without(batches, i), e) <= Count(q, e) + Aboard(batches, e)
    ensures Aboard(Without(batches, i), e) <= Aboard(batches, e)
  {
    AboardWithout(batches, i, e);
    SplitNewest(batches[i], REQUEUE_CAP, e);
    CountConcat(Newest(batches[i], REQUEUE_CAP), q, e);
  }

  lemma FinishNoCopies(c: Codec, s: State, i: nat, o: Outcome, e: Event)
    requires DiskOk(c, s) && NoCopies(s, e) && i < |s.inflight|
    ensures DiskOk(c, Apply(c, s, Finish(i, o))) && NoCopies(Apply(c, s, Finish(i, o)), e)
  {
    FinishShape(c, s, i, o);
    RequeueCount(s.queue, s.inflight, i, e);
  }

  lemma KillRestores(c: Codec, s: State)
    ensures var t := Apply(c, s, Kill);
            && t.queue == (if s.disk.Some? then Restored(c, Lines(s.disk.value)) else [])
            && t.inflight == [] && t.disk == None && t.snapshot == s.snapshot && t.enqueued == s.enqueued
  {}

  lemma EnqueueNoCopies(c: Codec, s: State, d: Event, e: Event)
    requires NoCopies(s, e)
    ensures NoCopies(Apply(c, s, Enqueue(d)), e)
  {
    CountOne(s.enqueued, d, e);
    CountOne(s.queue, d, e);
  }

  lemma FlushNoCopies(c: Codec, s: State, e: Event)
    requires NoCopies(s, e)
    ensures NoCopies(Apply(c, s, Flush), e)
  {
    assert (s.inflight + [s.queue])[..|s.inflight|] == s.inflight;
  }

  lemma KillNoCopies(c: Codec, s: State, e: Event)
    requires CodecOk(c) && DiskOk(c, s) && NoCopies(s, e)
    ensures NoCopies(Apply(c, s, Kill), e)
  {
    KillRestores(c, s);
    AdoptedWithin(c, s.snapshot, e);
  }

  lemma {:induction false} EveryRunNoCopies(c: Codec, trace: seq<Step>, e: Event)
    requires CodecOk(c)
    ensures DiskOk(c, After(c, trace)) && NoCopies(After(c, trace), e)
  {
    if trace == [] {
    } else {
      EveryRunNoCopies(c, trace[..|trace| - 1], e);
      var s, step := After(c, trace[..|trace| - 1]), trace[|trace| - 1];
      if Enabled(s, step) {
        match step
        case Enqueue(d) => EnqueueNoCopies(c, s, d, e);
        case Flush => FlushNoCopies(c, s, e);
        case Finish(i, o) => FinishNoCopies(c, s, i, o, e);
        case Persist =>
        case Kill => KillNoCopies(c, s, e);
      }
    }
  }

  /** Through any number of kills and restarts, an event enqueued once is never live twice. */
  lemma LiveAtMostOnce(c: Codec, trace: seq<Step>, e: Event)
    requires CodecOk(c) && Count(After(c, trace).enqueued, e) <= 1
    ensures var s := After(c, trace); Count(s.queue, e) + Aboard(s.inflight, e) <= 1
  {
    EveryRunNoCopies(c, trace, e);
  }

  /** A kill right after a failed upload loses nothing of the queue but what the file and the restart cannot hold. */
  lemma KillAfterFailure(c: Codec, s: State, i: nat, o: Outcome)
    requires CodecOk(c) && !Accepted(o) && !Poison(o) && i < |s.inflight|
    ensures var failed := Apply(c, s, Finish(i, o));
            Apply(c, failed, Kill).queue == First(Typed(Fitting(c, failed.queue)), 500)
  {
    var failed := Apply(c, s, Finish(i, o));
    assert failed.disk == Some(Content(c, failed.queue));
    RestartAdopts(c, failed.queue);
    KillRestores(c, failed);
  }

  // ---------- the bound is reached ----------

  lemma Extend(c: Codec, trace: seq<Step>, step: Step, s: State)
    requires After(c, trace) == s
    ensures After(c, trace + [step]) == Apply(c, s, step)
  {
    assert (trace + [step])[..|trace|] == trace;
  }

  lemma {:induction false} Fill(c: Codec, trace: seq<Step>, e: Event, n: nat) returns (t: seq<Step>)
    requires After(c, trace).queue == [] && n <= QUEUE_CAP
    ensures |After(c, t).queue| == n && After(c, t).inflight == After(c, trace).inflight
    ensures After(c, t).peak == After(c, trace).peak
  {
    t := trace;
    if n > 0 {
      t := Fill(c, trace, e, n - 1);
      Extend(c, t, Enqueue(e), After(c, t));
      t := t + [Enqueue(e)];
    }
  }

  ghost predicate FullBatches(batches: seq<seq<Event>>) {
    forall i :: 0 <= i < |batches| ==> |batches[i]| == REQUEUE_CAP
  }

  lemma {:induction false} Launch(c: Codec, e: Event, k: nat) returns (t: seq<Step>)
    ensures var s := After(c, t);
            s.queue == [] && |s.inflight| == s.peak == k && FullBatches(s.inflight)
  {
    t := [];
    if k > 0 {
      var before := Launch(c, e, k - 1);
      var u := Fill(c, before, e, REQUEUE_CAP);
      Extend(c, u, Flush, After(c, u));
      t := u + [Flush];
    }
  }

  lemma {:induction false} FailAll(c: Codec, trace: seq<Step>) returns (t: seq<Step>)
    requires FullBatches(After(c, trace).inflight)
    ensures var s, s' := After(c, trace), After(c, t);
            && s'.inflight == [] && s'.peak == s.peak
            && |s'.queue| == |s.queue| + REQUEUE_CAP * |s.inflight|
    decreases |After(c, trace).inflight|
  {
    var s := After(c, trace);
    if s.inflight == [] {
      t := trace;
    } else {
      Extend(c, trace, Finish(0, NoAnswer), s);
      assert Without(s.inflight, 0) == s.inflight[1..];
      t := FailAll(c, trace + [Finish(0, NoAnswer)]);
    }
  }

  /** For every k there is a run with k flushes at once that ends with exactly 500 + 100 k events queued. */
  lemma QueueBoundReached(c: Codec, e: Event, k: nat) returns (t: seq<Step>)
    ensures var s := After(c, t); s.peak == k && s.inflight == [] && |s.queue| == 500 + 100 * k
  {
    t := Launch(c, e, k);
    t := Fill(c, t, e, QUEUE_CAP);
    t := FailAll(c, t);
  }
}
