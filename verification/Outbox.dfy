/**
 The webhook outbox: rows of the `actions` table, the UPDATE that claims due rows under a
 two-minute lease, the UPDATE that records a delivery result, the synchronous first attempt and
 any number of dispatchers that may crash at any point. SQL statements are atomic; `now` is the
 database clock in seconds.
 */
module Outbox {
  import opened Prelude

  const MAX_ATTEMPTS: nat := 10
  const LEASE := 120.0
  const RESERVED := 60.0
  const CLAIM_LIMIT: nat := 20
  const BACKOFF_CAP := 3600.0
  const LONGEST_WAIT := 1536.0

  datatype Status = Pending | Failed | Delivered | Dead

  datatype Row = Row(createdAt: real, status: Status, attempts: nat, next: Option<real>,
                     deliveredAt: Option<real>, lastError: Option<string>)

  function FreshRow(now: real): Row {
    Row(now, Pending, 0, None, None, None)
  }

  predicate Live(r: Row) {
    r.status == Pending || r.status == Failed
  }

  /** The WHERE clause of the claim. */
  predicate Due(r: Row, now: real) {
    && Live(r)
    && r.attempts < MAX_ATTEMPTS
    && (r.next.None? || r.next.value <= now)
    && (r.attempts >= 1 || r.createdAt <= now - RESERVED)
  }

  function Nominal(attempts: nat): real {
    5.0 * Pow2(attempts) as real
  }

  function Backoff(attempts: nat): real {
    if Nominal(attempts) < BACKOFF_CAP then Nominal(attempts) else BACKOFF_CAP
  }

  /** Up to 20 % either way. */
  function Jittered(d: real, random: real): real {
    d * (0.8 + random * 0.4)
  }

  function Delay(attempts: nat, random: real): real {
    Jittered(Backoff(attempts), random)
  }

  /** One delivery result as recorded in the row; it never looks at the current status. */
  function Mark(r: Row, ok: bool, err: string, now: real, random: real): Row {
    var last := r.attempts + 1 >= MAX_ATTEMPTS;
    r.(attempts := r.attempts + 1,
       status := if ok then Delivered else if last then Dead else Failed,
       deliveredAt := if ok then Some(now) else None,
       next := if ok || last then None else Some(now + Delay(r.attempts, random)),
       lastError := if err == "" then None else Some(err))
  }

  function Lease(r: Row, now: real): Row {
    r.(next := Some(now + LEASE))
  }

  // ---------- the table as an object ----------

  /** What one delivery reported: success, error text, completion time and the jitter drawn. */
  datatype Outcome = Outcome(ok: bool, err: string, at: real, random: real)

  /** A row after a delivery whose result was recorded, or lost with a failed UPDATE. */
  function Recorded(r: Row, o: Option<Outcome>): Row {
    if o.Some? then Mark(r, o.value.ok, o.value.err, o.value.at, o.value.random) else r
  }

  function MarkIn(rows: map<nat, Row>, id: nat, o: Outcome): map<nat, Row> {
    if id in rows then rows[id := Mark(rows[id], o.ok, o.err, o.at, o.random)] else rows
  }

  function LeaseIn(rows: map<nat, Row>, ids: seq<nat>, now: real): map<nat, Row> {
    map id | id in rows :: if id in ids then Lease(rows[id], now) else rows[id]
  }

  class ActionTable {
    var rows: map<nat, Row>

    /** `UPDATE actions ... WHERE id = $1`: an unknown id changes nothing. */
    method MarkWebhookResult(id: nat, o: Outcome)
      modifies this
      ensures rows == MarkIn(old(rows), id, o)
      ensures id in old(rows) ==>
        && (rows[id].status == Delivered <==> o.ok)
        && (rows[id].status == Dead <==> !o.ok && rows[id].attempts >= 10)
        && rows[id].attempts == old(rows)[id].attempts + 1
        && rows[id].deliveredAt == (if o.ok then Some(o.at) else None)
        && rows[id].lastError == (if o.err == "" then None else Some(o.err))
    {
      if id in rows {
        var r := rows[id];
        var attempts := r.attempts + 1;
        var status, next;
        if o.ok {
          status, next := Delivered, None;
        } else if attempts >= MAX_ATTEMPTS {
          status, next := Dead, None;
        } else {
          status, next := Failed, Some(o.at + Delay(r.attempts, o.random));
        }
        rows := rows[id := Row(r.createdAt, status, attempts, next,
                               if o.ok then Some(o.at) else None,
                               if o.err == "" then None else Some(o.err))];
        assert rows[id] == Mark(r, o.ok, o.err, o.at, o.random);
      }
    }

    /** One dispatcher tick over the rows the claim returned: lease them all, then deliver serially, going on
        to the next row when a result cannot be recorded. */
    method DispatchTick(due: seq<nat>, now: real, outcomes: seq<Option<Outcome>>)
      requires |outcomes| == |due|
      requires forall i :: 0 <= i < |due| ==> due[i] in rows
      requires forall i, j :: 0 <= i < j < |due| ==> due[i] != due[j]
      modifies this
      ensures rows.Keys == old(rows).Keys
      ensures forall i :: 0 <= i < |due| ==> rows[due[i]] == Recorded(Lease(old(rows)[due[i]], now), outcomes[i])
      ensures forall id :: id in rows && id !in due ==> rows[id] == old(rows)[id]
    {
      rows := LeaseIn(rows, due, now);
      for i := 0 to |due|
        invariant rows.Keys == old(rows).Keys
        invariant forall j :: 0 <= j < i ==> rows[due[j]] == Recorded(Lease(old(rows)[due[j]], now), outcomes[j])
        invariant forall j :: i <= j < |due| ==> rows[due[j]] == Lease(old(rows)[due[j]], now)
        invariant forall id :: id in rows && id !in due ==> rows[id] == old(rows)[id]
      {
        if outcomes[i].Some? {
          MarkWebhookResult(due[i], outcomes[i].value);
        }
      }
    }
  }

  // ---------- the protocol ----------

  /** A dispatcher at work: claim time, claimed ids, how many are marked, start of the current delivery. */
  datatype Batch = Batch(claimedAt: real, ids: seq<nat>, done: nat, startedAt: real)

  /** `first` holds the actions whose synchronous first attempt is running. */
  datatype State = State(now: real, seqNo: nat, rows: map<nat, Row>, workers: map<nat, Batch>, first: set<nat>)

  /** One delivery with its mark takes at most `delivery`; a first attempt ends `firstAttempt` after creation. */
  datatype Timing = Timing(delivery: real, firstAttempt: real)

  datatype Step =
    | Create(synchronous: bool)
    | FirstDone(id: nat, result: Outcome)
    | FirstCrash(id: nat)
    | Claim(worker: nat, ids: seq<nat>, locked: set<nat>)
    | DeliveryDone(worker: nat, result: Outcome)
    | DeliveryUnrecorded(worker: nat)
    | WorkerCrash(worker: nat)
    | Tick(dt: real)

  const Init := State(0.0, 1, map[], map[], {})

  predicate Distinct(ids: seq<nat>) {
    forall i, j :: 0 <= i < j < |ids| ==> ids[i] != ids[j]
  }

  /** `ids` is what the claim may return: due, unlocked rows, oldest first, at most the limit. */
  predicate IsClaim(rows: map<nat, Row>, now: real, ids: seq<nat>, locked: set<nat>) {
    && Distinct(ids)
    && |ids| <= CLAIM_LIMIT
    && (forall i :: 0 <= i < |ids| ==> ids[i] in rows && Due(rows[ids[i]], now) && ids[i] !in locked)
    && (forall id :: id in rows && Due(rows[id], now) && id !in locked && id !in ids ==>
          |ids| == CLAIM_LIMIT && forall i :: 0 <= i < |ids| ==> rows[ids[i]].createdAt <= rows[id].createdAt)
  }

  predicate Timely(o: Outcome, now: real) {
    o.at == now && 0.0 <= o.random < 1.0
  }

  predicate Enabled(t: Timing, s: State, step: Step) {
    match step
    case Create(_) => true
    case FirstDone(id, o) => id in s.first && Timely(o, s.now)
    case FirstCrash(id) => id in s.first
    case Claim(w, ids, locked) =>
      w !in s.workers && ids != [] && IsClaim(s.rows, s.now, ids, locked)
    case DeliveryDone(w, o) => w in s.workers && Timely(o, s.now)
    case DeliveryUnrecorded(w) => w in s.workers
    case WorkerCrash(w) => w in s.workers
    case Tick(dt) =>
      && dt > 0.0
      && (forall w :: w in s.workers ==>
            s.now + dt <= s.workers[w].startedAt + t.delivery)
      && (forall id :: id in s.first && id in s.rows ==> s.now + dt <= s.rows[id].createdAt + t.firstAttempt)
  }

  /** The dispatchers once w went on to its next row. */
  function Advance(s: State, w: nat): map<nat, Batch>
    requires w in s.workers
  {
    var b := s.workers[w];
    if b.done + 1 >= |b.ids| then s.workers - {w} else s.workers[w := b.(done := b.done + 1, startedAt := s.now)]
  }

  function Apply(s: State, step: Step): State {
    match step
    case Create(synchronous) =>
      s.(seqNo := s.seqNo + 1, rows := s.rows[s.seqNo := FreshRow(s.now)],
         first := if synchronous then s.first + {s.seqNo} else s.first)
    case FirstDone(id, o) =>
      s.(rows := MarkIn(s.rows, id, o), first := s.first - {id})
    case FirstCrash(id) =>
      s.(first := s.first - {id})
    case Claim(w, ids, _) =>
      s.(rows := LeaseIn(s.rows, ids, s.now), workers := s.workers[w := Batch(s.now, ids, 0, s.now)])
    case DeliveryDone(w, o) =>
      if w in s.workers && s.workers[w].done < |s.workers[w].ids| then
        s.(rows := MarkIn(s.rows, s.workers[w].ids[s.workers[w].done], o), workers := Advance(s, w))
      else s
    case DeliveryUnrecorded(w) =>
      if w in s.workers then s.(workers := Advance(s, w)) else s
    case WorkerCrash(w) =>
      s.(workers := s.workers - {w})
    case Tick(dt) =>
      s.(now := s.now + dt)
  }

  /** The state a trace of steps leads to, and whether every step of it could happen. */
  function After(trace: seq<Step>): State {
    if trace == [] then Init else Apply(After(trace[..|trace| - 1]), trace[|trace| - 1])
  }

  predicate Valid(t: Timing, trace: seq<Step>) {
    trace == [] ||
    (Valid(t, trace[..|trace| - 1]) && Enabled(t, After(trace[..|trace| - 1]), trace[|trace| - 1]))
  }

  /** Dispatcher w has `id` claimed and not yet marked, at position j of its batch. */
  predicate Holds(s: State, w: nat, j: nat, id: nat) {
    w in s.workers && s.workers[w].done <= j < |s.workers[w].ids| && s.workers[w].ids[j] == id
  }

  predicate Delivering(s: State, w: nat, id: nat) {
    w in s.workers && Holds(s, w, s.workers[w].done, id)
  }

  /** No action is being delivered at two places at once. */
  ghost predicate Exclusive(s: State) {
    && (forall w, v, id :: Delivering(s, w, id) && Delivering(s, v, id) ==> w == v)
    && (forall w, id :: Delivering(s, w, id) ==> id !in s.first)
  }

  // ---------- what every reachable state keeps ----------

  /** What a row keeps however late deliveries are recorded. */
  predicate RowSound(r: Row, now: real) {
    && r.createdAt <= now
    && (Live(r) ==> r.attempts < MAX_ATTEMPTS)
    && (r.status == Pending ==> r.attempts == 0)
    && (r.status == Failed ==> 1 <= r.attempts && r.next.Some?)
    && (r.status == Dead ==> r.attempts >= MAX_ATTEMPTS)
    && (r.status == Delivered ==> r.attempts >= 1)
    && (!Live(r) ==> r.next.None?)
    && (r.status == Delivered <==> r.deliveredAt.Some?)
    && (r.next.Some? ==> r.next.value <= now + LONGEST_WAIT)
  }

  ghost predicate Sound(s: State) {
    forall id :: id in s.rows ==> id < s.seqNo && RowSound(s.rows[id], s.now)
  }

  predicate RowOk(r: Row, now: real) {
    RowSound(r, now) && r.attempts <= MAX_ATTEMPTS
  }

  ghost predicate Bounded(s: State) {
    && (forall id :: id in s.rows ==> id < s.seqNo && RowOk(s.rows[id], s.now))
  }

  /** n deliveries of the longest admitted length. */
  function Span(n: nat, delivery: real): real {
    if n == 0 then 0.0 else Span(n - 1, delivery) + delivery
  }

  ghost predicate FirstOk(s: State) {
    forall id :: id in s.first ==>
      id in s.rows && s.rows[id].attempts == 0 && s.rows[id].next.None? && Live(s.rows[id])
  }

  ghost predicate FirstInTime(t: Timing, s: State) {
    forall id :: id in s.first ==> id in s.rows && s.now <= s.rows[id].createdAt + t.firstAttempt
  }

  predicate BatchOk(t: Timing, b: Batch, now: real) {
    && b.done < |b.ids| <= CLAIM_LIMIT
    && Distinct(b.ids)
    && b.claimedAt <= b.startedAt <= now <= b.startedAt + t.delivery
    && b.startedAt <= b.claimedAt + Span(b.done, t.delivery)
  }

  ghost predicate BatchesOk(t: Timing, s: State) {
    forall w :: w in s.workers ==> BatchOk(t, s.workers[w], s.now)
  }

  /** Every claimed, unmarked row still carries its holder's lease. */
  ghost predicate LeasesOk(s: State) {
    forall w, j, id :: Holds(s, w, j, id) ==>
      id in s.rows && Live(s.rows[id]) && s.rows[id].attempts < MAX_ATTEMPTS &&
      s.rows[id].next == Some(s.workers[w].claimedAt + LEASE)
  }

  ghost predicate OneHolder(s: State) {
    forall w, j, v, k, id :: Holds(s, w, j, id) && Holds(s, v, k, id) ==> w == v
  }

  ghost predicate Leased(t: Timing, s: State) {
    FirstOk(s) && FirstInTime(t, s) && BatchesOk(t, s) && LeasesOk(s) && OneHolder(s)
  }

  predicate SafeTiming(t: Timing) {
    0.0 <= t.delivery && 20.0 * t.delivery < 120.0 && 0.0 <= t.firstAttempt < 60.0
  }

  lemma {:induction false} BackoffBound(attempts: nat)
    requires attempts + 1 < MAX_ATTEMPTS
    ensures 5.0 <= Backoff(attempts) == Nominal(attempts) <= 1280.0
  {
    assert Pow2(1) == 2 && Pow2(2) == 4 && Pow2(3) == 8 && Pow2(4) == 16;
    assert Pow2(5) == 32 && Pow2(6) == 64 && Pow2(7) == 128 && Pow2(8) == 256;
  }

  lemma JitterBound(d: real, random: real)
    requires 0.0 <= d && 0.0 <= random < 1.0
    ensures 0.8 * d <= Jittered(d, random) <= 1.2 * d
  {
    assert 0.0 <= d * random <= d;
    assert d * (0.8 + random * 0.4) == 0.8 * d + 0.4 * (d * random);
  }

  lemma DelayBound(attempts: nat, random: real)
    requires attempts + 1 < MAX_ATTEMPTS && 0.0 <= random < 1.0
    ensures 0.8 * Nominal(attempts) <= Delay(attempts, random) <= 1.2 * Nominal(attempts)
  {
    BackoffBound(attempts);
    JitterBound(Backoff(attempts), random);
  }

  /** Recording a result keeps the row's bounds, and the next attempt lies 4 to 1536 seconds ahead. */
  lemma MarkKeepsRowSound(r: Row, ok: bool, err: string, now: real, random: real)
    requires RowSound(r, now) && 0.0 <= random < 1.0
    ensures RowSound(Mark(r, ok, err, now, random), now)
    ensures r.attempts < MAX_ATTEMPTS ==> RowOk(Mark(r, ok, err, now, random), now)
    ensures Mark(r, ok, err, now, random).next.Some? ==>
      now + 4.0 <= Mark(r, ok, err, now, random).next.value <= now + LONGEST_WAIT
  {
    if !ok && r.attempts + 1 < MAX_ATTEMPTS {
      BackoffBound(r.attempts);
      DelayBound(r.attempts, random);
    }
  }

  lemma SoundStep(t: Timing, s: State, step: Step)
    requires Sound(s) && Enabled(t, s, step)
    ensures Sound(Apply(s, step))
  {
    match step
    case FirstDone(id, o) =>
      if id in s.rows { MarkKeepsRowSound(s.rows[id], o.ok, o.err, o.at, o.random); }
    case DeliveryDone(w, o) =>
      var b := s.workers[w];
      if b.done < |b.ids| && b.ids[b.done] in s.rows {
        MarkKeepsRowSound(s.rows[b.ids[b.done]], o.ok, o.err, o.at, o.random);
      }
    case _ =>
  }

  lemma {:induction false} EveryRowSound(t: Timing, trace: seq<Step>)
    requires Valid(t, trace)
    ensures Sound(After(trace))
  {
    if trace != [] {
      EveryRowSound(t, trace[..|trace| - 1]);
      SoundStep(t, After(trace[..|trace| - 1]), trace[|trace| - 1]);
    }
  }

  /** Whatever the timing, every live row is due once untouched for 1536 seconds: the hour cap never binds. */
  lemma LiveRowsComeDue(t: Timing, trace: seq<Step>, id: nat, later: real)
    requires Valid(t, trace)
    requires id in After(trace).rows && Live(After(trace).rows[id])
    requires later >= After(trace).now + 1536.0
    ensures Due(After(trace).rows[id], later)
  {
    EveryRowSound(t, trace);
  }

  /** Whatever the timing: ten attempts end a row, a row dies of nothing else, and a live row without a schedule
      has not been attempted. */
  lemma StatusTellsAttempts(t: Timing, trace: seq<Step>, id: nat)
    requires Valid(t, trace) && id in After(trace).rows
    ensures var r := After(trace).rows[id];
      && (r.attempts >= MAX_ATTEMPTS ==> !Live(r))
      && (r.status == Dead ==> r.attempts >= MAX_ATTEMPTS)
      && (Live(r) && r.next.None? ==> r.attempts == 0)
      && (r.status == Delivered <==> r.deliveredAt.Some?)
  {
    EveryRowSound(t, trace);
  }

  lemma {:induction false} SpanMonotone(n: nat, m: nat, delivery: real)
    requires n <= m && 0.0 <= delivery
    ensures Span(n, delivery) <= Span(m, delivery)
  {
    if n < m { SpanMonotone(n, m - 1, delivery); }
  }

  lemma {:induction false} SpanIs(n: nat, delivery: real)
    ensures Span(n, delivery) == n as real * delivery
  {
    if n > 0 { SpanIs(n - 1, delivery); }
  }

  /** A dispatcher is done with its batch before its leases run out. */
  lemma DoneInTime(t: Timing, b: Batch, now: real)
    requires 0.0 <= t.delivery && 20.0 * t.delivery < LEASE && BatchOk(t, b, now)
    ensures now < b.claimedAt + LEASE
  {
    SpanMonotone(b.done + 1, CLAIM_LIMIT, t.delivery);
    SpanIs(CLAIM_LIMIT, t.delivery);
  }

  /** Within the timing bounds, a row held by a dispatcher cannot be claimed. */
  lemma HeldNotDue(t: Timing, s: State, w: nat, j: nat, id: nat)
    requires SafeTiming(t) && BatchesOk(t, s) && LeasesOk(s) && Holds(s, w, j, id)
    ensures !Due(s.rows[id], s.now)
  {
    DoneInTime(t, s.workers[w], s.now);
  }

  lemma ClaimLeased(t: Timing, s: State, w: nat, ids: seq<nat>, locked: set<nat>)
    requires SafeTiming(t) && Leased(t, s) && Enabled(t, s, Claim(w, ids, locked))
    ensures Leased(t, Apply(s, Claim(w, ids, locked)))
  {
    var s' := Apply(s, Claim(w, ids, locked));
    forall v, j, id | Holds(s, v, j, id) ensures id !in ids { HeldNotDue(t, s, v, j, id); }
    forall v, j, id | Holds(s', v, j, id) ensures if v == w then id in ids else Holds(s, v, j, id) {}
    assert LeasesOk(s');
    assert OneHolder(s');
  }

  lemma DeliveryLeased(t: Timing, s: State, w: nat, o: Outcome)
    requires SafeTiming(t) && Leased(t, s) && Enabled(t, s, DeliveryDone(w, o))
    ensures Leased(t, Apply(s, DeliveryDone(w, o)))
  {
    var s' := Apply(s, DeliveryDone(w, o));
    var b := s.workers[w];
    var a := b.ids[b.done];
    assert Holds(s, w, b.done, a);
    forall v, j, id | Holds(s', v, j, id) ensures Holds(s, v, j, id) && id != a {
      assert Holds(s, v, j, id);
      assert v == w ==> b.done < j;
    }
    assert BatchesOk(t, s');
    assert LeasesOk(s');
    assert OneHolder(s');
  }

  lemma FirstDoneLeased(t: Timing, s: State, id: nat, o: Outcome)
    requires SafeTiming(t) && Leased(t, s) && Enabled(t, s, FirstDone(id, o))
    ensures Leased(t, Apply(s, FirstDone(id, o)))
  {
    forall w, j, a | Holds(Apply(s, FirstDone(id, o)), w, j, a) ensures Holds(s, w, j, a) && a != id {
      assert Holds(s, w, j, a);
    }
  }

  lemma LeasedStep(t: Timing, s: State, step: Step)
    requires SafeTiming(t) && Bounded(s) && Leased(t, s) && Enabled(t, s, step)
    ensures Leased(t, Apply(s, step))
  {
    var s' := Apply(s, step);
    match step
    case Claim(w, ids, locked) => ClaimLeased(t, s, w, ids, locked);
    case DeliveryDone(w, o) => DeliveryLeased(t, s, w, o);
    case FirstDone(id, o) => FirstDoneLeased(t, s, id, o);
    case _ =>
      forall w, j, a | Holds(s', w, j, a) ensures Holds(s, w, j, a) {}
  }

  lemma BoundedStep(t: Timing, s: State, step: Step)
    requires Bounded(s) && Leased(t, s) && Enabled(t, s, step)
    ensures Bounded(Apply(s, step))
  {
    match step
    case FirstDone(id, o) => MarkKeepsRowSound(s.rows[id], o.ok, o.err, o.at, o.random);
    case DeliveryDone(w, o) =>
      var b := s.workers[w];
      assert Holds(s, w, b.done, b.ids[b.done]);
      MarkKeepsRowSound(s.rows[b.ids[b.done]], o.ok, o.err, o.at, o.random);
    case _ =>
  }

  lemma {:induction false} ReachableOk(t: Timing, trace: seq<Step>)
    requires SafeTiming(t) && Valid(t, trace)
    ensures Bounded(After(trace)) && Leased(t, After(trace))
  {
    if trace != [] {
      var n := |trace| - 1;
      ReachableOk(t, trace[..n]);
      BoundedStep(t, After(trace[..n]), trace[n]);
      LeasedStep(t, After(trace[..n]), trace[n]);
    }
  }

  lemma SafeTimingExcludes(t: Timing, trace: seq<Step>)
    requires SafeTiming(t) && Valid(t, trace)
    ensures Exclusive(After(trace))
  {
    ReachableOk(t, trace);
  }

  lemma RecordedRowIsLive(t: Timing, s: State, w: nat, o: Outcome)
    requires Leased(t, s) && Enabled(t, s, DeliveryDone(w, o))
    ensures s.workers[w].ids[s.workers[w].done] in s.rows && Live(s.rows[s.workers[w].ids[s.workers[w].done]])
  {
    var b := s.workers[w];
    assert Holds(s, w, b.done, b.ids[b.done]);
  }

  /** A row that is delivered or dead stays exactly as it is for the rest of every run. */
  lemma {:induction false} TerminalIsAbsorbing(t: Timing, trace: seq<Step>, n: nat, id: nat)
    requires SafeTiming(t) && Valid(t, trace) && n <= |trace|
    requires id in After(trace[..n]).rows && !Live(After(trace[..n]).rows[id])
    ensures id in After(trace).rows && After(trace).rows[id] == After(trace[..n]).rows[id]
  {
    if n < |trace| {
      var m := |trace| - 1;
      var s := After(trace[..m]);
      assert trace[..m][..n] == trace[..n];
      TerminalIsAbsorbing(t, trace[..m], n, id);
      ReachableOk(t, trace[..m]);
      if trace[m].DeliveryDone? { RecordedRowIsLive(t, s, trace[m].worker, trace[m].result); }
    } else {
      assert trace[..n] == trace;
    }
  }

  // ---------- the timing bound is exact ----------

  /** Twenty actions without a first attempt, all created at time zero. */
  function Creates(n: nat): seq<Step> {
    if n == 0 then [] else Creates(n - 1) + [Create(false)]
  }

  lemma Extend(t: Timing, trace: seq<Step>, step: Step)
    requires Valid(t, trace) && Enabled(t, After(trace), step)
    ensures Valid(t, trace + [step]) && After(trace + [step]) == Apply(After(trace), step)
  {
    assert (trace + [step])[..|trace|] == trace;
  }

  lemma Then(t: Timing, trace: seq<Step>, step: Step) returns (longer: seq<Step>)
    requires Valid(t, trace) && Enabled(t, After(trace), step)
    ensures Valid(t, longer) && After(longer) == Apply(After(trace), step)
  {
    Extend(t, trace, step);
    longer := trace + [step];
  }

  lemma Wait(t: Timing, trace: seq<Step>, dt: real) returns (longer: seq<Step>)
    requires Valid(t, trace) && (dt == 0.0 || Enabled(t, After(trace), Tick(dt)))
    ensures Valid(t, longer) && After(longer) == After(trace).(now := After(trace).now + dt)
  {
    longer := trace;
    if dt != 0.0 { longer := Then(t, trace, Tick(dt)); }
  }

  ghost predicate OnlyCreated(s: State, n: nat) {
    && s == State(0.0, n + 1, s.rows, map[], {})
    && (forall id :: id in s.rows <==> 1 <= id <= n)
    && (forall id :: id in s.rows ==> s.rows[id] == FreshRow(0.0))
  }

  lemma CreateOne(s: State, n: nat)
    requires OnlyCreated(s, n)
    ensures OnlyCreated(Apply(s, Create(false)), n + 1)
  {}

  lemma {:induction false} AfterCreates(t: Timing, n: nat)
    ensures Valid(t, Creates(n)) && OnlyCreated(After(Creates(n)), n)
  {
    if n > 0 {
      AfterCreates(t, n - 1);
      CreateOne(After(Creates(n - 1)), n - 1);
      Extend(t, Creates(n - 1), Create(false));
    }
  }

  predicate FirstIds(ids: seq<nat>, n: nat) {
    |ids| == n && forall i :: 0 <= i < n ==> ids[i] == i + 1
  }

  function OneTo(n: nat): (ids: seq<nat>)
    ensures FirstIds(ids, n)
  {
    if n == 0 then [] else OneTo(n - 1) + [n]
  }

  /** A due action of the twenty, after `tries` failures. */
  predicate Tried(r: Row, tries: nat, now: real) {
    r.createdAt == 0.0 && r.attempts == tries && Due(r, now)
  }

  /** All twenty are due after the same number of failures, and nobody is at work. */
  ghost predicate AllDue(s: State, tries: nat) {
    && s.first == {} && s.workers == map[] && s.now >= 60.0
    && (forall id :: id in s.rows <==> 1 <= id <= 20)
    && (forall id :: id in s.rows ==> Tried(s.rows[id], tries, s.now))
  }

  /** Dispatcher 0 claimed all twenty rows at second `from` and takes `pace` seconds for each; n are marked. */
  ghost predicate Midway(s: State, ids: seq<nat>, n: nat, tries: nat, from: real, pace: real, ok: bool) {
    && n < 20 && FirstIds(ids, 20)
    && from >= 60.0 && s.now == from + Span(n, pace) && s.first == {}
    && s.workers == map[0 := Batch(from, ids, n, s.now)]
    && (forall id :: id in s.rows <==> 1 <= id <= 20)
    && (forall id :: id in s.rows && id <= n ==>
          if ok then !Live(s.rows[id]) else Tried(s.rows[id], tries + 1, s.now + LONGEST_WAIT))
    && (forall id :: id in s.rows && id > n ==>
          && s.rows[id].next == Some(from + LEASE)
          && s.rows[id].createdAt == 0.0 && s.rows[id].attempts == tries && tries < MAX_ATTEMPTS && Live(s.rows[id]))
  }

  lemma ClaimAll(s: State, ids: seq<nat>, tries: nat, pace: real, ok: bool)
    requires FirstIds(ids, 20) && AllDue(s, tries)
    ensures IsClaim(s.rows, s.now, ids, {})
    ensures Midway(Apply(s, Claim(0, ids, {})), ids, 0, tries, s.now, pace, ok)
  {
    forall id | id in s.rows ensures id in ids { assert ids[id - 1] == id; }
  }

  lemma MidwayStep(s: State, ids: seq<nat>, n: nat, tries: nat, from: real, pace: real, ok: bool, o: Outcome)
    requires n + 1 < 20 && Midway(s, ids, n, tries, from, pace, ok) && 0.0 <= pace
    requires o == Outcome(ok, "", s.now + pace, 0.0) && (ok || tries + 1 < MAX_ATTEMPTS)
    ensures Midway(Apply(s.(now := s.now + pace), DeliveryDone(0, o)), ids, n + 1, tries, from, pace, ok)
  {
    var s' := Apply(s.(now := s.now + pace), DeliveryDone(0, o));
    assert s'.rows == MarkIn(s.rows, n + 1, o);
    if !ok { DelayBound(tries, 0.0); BackoffBound(tries); }
  }

  lemma CanDeliver(t: Timing, s: State, w: nat, pace: real, ok: bool)
    requires s.first == {} && 0.0 <= pace <= t.delivery
    requires s.workers.Keys == {w} && s.workers[w].startedAt == s.now
    ensures pace == 0.0 || Enabled(t, s, Tick(pace))
    ensures Enabled(t, s.(now := s.now + pace), DeliveryDone(w, Outcome(ok, "", s.now + pace, 0.0)))
  {}

  lemma Deliver(t: Timing, before: seq<Step>, s: State, w: nat, pace: real, ok: bool) returns (trace: seq<Step>)
    requires Valid(t, before) && After(before) == s && s.first == {} && 0.0 <= pace <= t.delivery
    requires s.workers.Keys == {w} && s.workers[w].startedAt == s.now
    ensures Valid(t, trace)
    ensures After(trace) == Apply(s.(now := s.now + pace), DeliveryDone(w, Outcome(ok, "", s.now + pace, 0.0)))
  {
    CanDeliver(t, s, w, pace, ok);
    trace := Wait(t, before, pace);
    trace := Then(t, trace, DeliveryDone(w, Outcome(ok, "", s.now + pace, 0.0)));
  }

  lemma {:induction false} ReachMidway(t: Timing, before: seq<Step>, ids: seq<nat>, n: nat, tries: nat, pace: real, ok: bool)
    returns (trace: seq<Step>)
    requires Valid(t, before) && AllDue(After(before), tries) && FirstIds(ids, 20)
    requires n < 20 && 0.0 <= pace <= t.delivery && (ok || tries + 1 < MAX_ATTEMPTS)
    ensures Valid(t, trace) && Midway(After(trace), ids, n, tries, After(before).now, pace, ok)
  {
    if n == 0 {
      ClaimAll(After(before), ids, tries, pace, ok);
      trace := Then(t, before, Claim(0, ids, {}));
    } else {
      trace := ReachMidway(t, before, ids, n - 1, tries, pace, ok);
      var s := After(trace);
      MidwayStep(s, ids, n - 1, tries, After(before).now, pace, ok, Outcome(ok, "", s.now + pace, 0.0));
      trace := Deliver(t, trace, s, 0, pace, ok);
    }
  }

  lemma LastFailure(s: State, ids: seq<nat>, tries: nat, from: real)
    requires Midway(s, ids, 19, tries, from, 0.0, false) && tries + 1 < MAX_ATTEMPTS
    ensures var s' := Apply(s, DeliveryDone(0, Outcome(false, "", s.now, 0.0)));
      AllDue(s'.(now := s'.now + LONGEST_WAIT), tries + 1)
  {
    SpanIs(19, 0.0);
    BackoffBound(tries);
    DelayBound(tries, 0.0);
  }

  lemma NextRound(t: Timing, before: seq<Step>, ids: seq<nat>, tries: nat) returns (trace: seq<Step>)
    requires Valid(t, before) && AllDue(After(before), tries) && FirstIds(ids, 20)
    requires 0.0 <= t.delivery && tries + 1 < MAX_ATTEMPTS
    ensures Valid(t, trace) && AllDue(After(trace), tries + 1)
  {
    var from := After(before).now;
    trace := ReachMidway(t, before, ids, 19, tries, 0.0, false);
    var s := After(trace);
    LastFailure(s, ids, tries, from);
    trace := Then(t, trace, DeliveryDone(0, Outcome(false, "", s.now, 0.0)));
    trace := Wait(t, trace, LONGEST_WAIT);
  }

  lemma ReachFirstDue(t: Timing) returns (trace: seq<Step>)
    ensures Valid(t, trace) && AllDue(After(trace), 0)
  {
    var n := |OneTo(20)|;
    AfterCreates(t, n);
    trace := Wait(t, Creates(n), 60.0);
  }

  /** Every one of the twenty can fail any number of times first, each delivery taking no time at all. */
  lemma {:induction false} ReachAllDue(t: Timing, tries: nat) returns (trace: seq<Step>)
    requires 0.0 <= t.delivery && tries < MAX_ATTEMPTS
    ensures Valid(t, trace) && AllDue(After(trace), tries)
  {
    if tries == 0 {
      trace := ReachFirstDue(t);
    } else {
      trace := ReachAllDue(t, tries - 1);
      trace := NextRound(t, trace, OneTo(20), tries - 1);
    }
  }

  /** Two dispatchers are delivering row 20. */
  predicate Both(s: State, tries: nat) {
    && 20 in s.rows && Live(s.rows[20]) && s.rows[20].attempts == tries
    && 0 in s.workers && 1 in s.workers && Holds(s, 0, s.workers[0].done, 20) && Holds(s, 1, s.workers[1].done, 20)
  }

  lemma LastClaim(s: State, ids: seq<nat>, tries: nat, from: real)
    requires Midway(s, ids, 19, tries, from, 6.0, true)
    ensures IsClaim(s.rows, s.now + 6.0, [20], {})
    ensures Both(Apply(s.(now := s.now + 6.0), Claim(1, [20], {})), tries)
  {
    SpanIs(19, 6.0);
  }

  /** Six seconds per delivery let a second dispatcher claim the twentieth row in flight, on any of its attempts. */
  lemma ReachBoth(t: Timing, tries: nat) returns (trace: seq<Step>)
    requires 20.0 * t.delivery >= LEASE && tries < MAX_ATTEMPTS
    ensures Valid(t, trace) && Both(After(trace), tries)
  {
    var ids := OneTo(20);
    var before := ReachAllDue(t, tries);
    trace := ReachMidway(t, before, ids, 19, tries, 6.0, true);
    LastClaim(After(trace), ids, tries, After(before).now);
    trace := Then(t, trace, Tick(6.0));
    trace := Then(t, trace, Claim(1, [20], {}));
  }

  lemma SlowDeliveryOverlaps(t: Timing) returns (trace: seq<Step>)
    requires 20.0 * t.delivery >= LEASE
    ensures Valid(t, trace) && !Exclusive(After(trace))
  {
    trace := ReachBoth(t, 0);
    assert Delivering(After(trace), 0, 20) && Delivering(After(trace), 1, 20);
  }

  /** The synchronous first attempt of the only action is still running after a minute. */
  lemma Unfinished(t: Timing) returns (trace: seq<Step>)
    requires t.firstAttempt >= RESERVED
    ensures Valid(t, trace) && After(trace) == State(60.0, 2, map[1 := FreshRow(0.0)], map[], {1})
  {
    trace := Then(t, [], Create(true));
    assert After(trace) == State(0.0, 2, map[1 := FreshRow(0.0)], map[], {1});
    trace := Then(t, trace, Tick(60.0));
  }

  /** A first attempt still running after a minute is delivered a second time by a dispatcher. */
  lemma LateFirstAttemptOverlaps(t: Timing) returns (trace: seq<Step>)
    requires t.firstAttempt >= RESERVED
    ensures Valid(t, trace) && !Exclusive(After(trace))
    ensures var s := After(trace);
      s == State(60.0, 2, map[1 := Lease(FreshRow(0.0), 60.0)], map[0 := Batch(60.0, [1], 0, 60.0)], {1})
  {
    trace := Unfinished(t);
    trace := Then(t, trace, Claim(0, [1], {}));
    assert Delivering(After(trace), 0, 1);
  }

  /** No action is ever delivered at two places at once exactly when the timing bounds hold. */
  lemma ExclusionIffSafeTiming(t: Timing)
    requires 0.0 <= t.delivery && 0.0 <= t.firstAttempt
    ensures SafeTiming(t) <==> forall trace :: Valid(t, trace) ==> Exclusive(After(trace))
  {
    if SafeTiming(t) {
      forall trace | Valid(t, trace) ensures Exclusive(After(trace)) { SafeTimingExcludes(t, trace); }
    } else if t.firstAttempt >= RESERVED {
      var trace := LateFirstAttemptOverlaps(t);
    } else {
      var trace := SlowDeliveryOverlaps(t);
    }
  }

  /** Once a row is delivered or dead, the rest of the run leaves it exactly as it is. */
  ghost predicate Absorbing(trace: seq<Step>) {
    forall n, id :: 0 <= n <= |trace| && id in After(trace[..n]).rows && !Live(After(trace[..n]).rows[id]) ==>
      id in After(trace).rows && After(trace).rows[id] == After(trace[..n]).rows[id]
  }

  /** Two results for one action: the first delivers it, the second makes it failed again. */
  lemma Revived(t: Timing, before: seq<Step>, id: nat, ok: Step, fail: Step)
    requires Valid(t, before + [ok] + [fail]) && id in After(before).rows && After(before).rows[id].attempts + 2 < MAX_ATTEMPTS
    requires var now := After(before).now;
      var good, bad := Outcome(true, "", now, 0.0), Outcome(false, "", now, 0.0);
      && After(before + [ok]).rows == MarkIn(After(before).rows, id, good)
      && After(before + [ok] + [fail]).rows == MarkIn(MarkIn(After(before).rows, id, good), id, bad)
    ensures !Absorbing(before + [ok] + [fail])
  {
    var trace := before + [ok] + [fail];
    var n := |before| + 1;
    assert trace[..n] == before + [ok];
    assert !Live(After(trace[..n]).rows[id]) && Live(After(trace).rows[id]);
  }

  lemma SlowDeliveryRevives(t: Timing) returns (trace: seq<Step>)
    requires 20.0 * t.delivery >= LEASE
    ensures Valid(t, trace) && !Absorbing(trace)
  {
    var before := ReachBoth(t, 0);
    var now := After(before).now;
    var ok, fail := DeliveryDone(1, Outcome(true, "", now, 0.0)), DeliveryDone(0, Outcome(false, "", now, 0.0));
    Extend(t, before, ok);
    Extend(t, before + [ok], fail);
    trace := before + [ok] + [fail];
    Revived(t, before, 20, ok, fail);
  }

  lemma LateFirstAttemptRevives(t: Timing) returns (trace: seq<Step>)
    requires t.firstAttempt >= RESERVED
    ensures Valid(t, trace) && !Absorbing(trace)
  {
    var before := LateFirstAttemptOverlaps(t);
    var now := After(before).now;
    var ok, fail := DeliveryDone(0, Outcome(true, "", now, 0.0)), FirstDone(1, Outcome(false, "", now, 0.0));
    Extend(t, before, ok);
    Extend(t, before + [ok], fail);
    trace := before + [ok] + [fail];
    Revived(t, before, 1, ok, fail);
  }

  /** Delivered and dead are final in every run exactly when the timing bounds hold. */
  lemma AbsorbingIffSafeTiming(t: Timing)
    requires 0.0 <= t.delivery && 0.0 <= t.firstAttempt
    ensures SafeTiming(t) <==> forall trace :: Valid(t, trace) ==> Absorbing(trace)
  {
    if SafeTiming(t) {
      forall trace | Valid(t, trace) ensures Absorbing(trace) {
        forall n, id | 0 <= n <= |trace| && id in After(trace[..n]).rows && !Live(After(trace[..n]).rows[id])
          ensures id in After(trace).rows && After(trace).rows[id] == After(trace[..n]).rows[id]
        {
          TerminalIsAbsorbing(t, trace, n, id);
        }
      }
    } else if t.firstAttempt >= RESERVED {
      var trace := LateFirstAttemptRevives(t);
    } else {
      var trace := SlowDeliveryRevives(t);
    }
  }

  // ---------- a run in which every attempt fails ----------

  /** Fails once per jitter drawn, each attempt made the moment it is due; yields the row and the last schedule. */
  function FailRun(r: Row, at: real, randoms: seq<real>): (Row, real)
    decreases |randoms|
  {
    if randoms == [] then (r, at) else
      var f := Mark(r, false, "", at, randoms[0]);
      FailRun(f, if f.next.Some? then f.next.value else at, randoms[1..])
  }

  /** Nominal waits after the first n failures together; the tenth failure schedules nothing. */
  function NominalTotal(n: nat): real {
    if n == 0 then 0.0 else NominalTotal(n - 1) + if n < MAX_ATTEMPTS then Nominal(n - 1) else 0.0
  }

  lemma {:induction false} FailRunFrom(r: Row, at: real, randoms: seq<real>)
    requires r.attempts + |randoms| <= MAX_ATTEMPTS
    requires forall i :: 0 <= i < |randoms| ==> 0.0 <= randoms[i] < 1.0
    ensures var (end, due) := FailRun(r, at, randoms);
      var nominal := NominalTotal(r.attempts + |randoms|) - NominalTotal(r.attempts);
      && end.attempts == r.attempts + |randoms|
      && (randoms != [] ==> end.status == if end.attempts == MAX_ATTEMPTS then Dead else Failed)
      && 0.8 * nominal <= due - at <= 1.2 * nominal
    decreases |randoms|
  {
    if randoms != [] {
      var f := Mark(r, false, "", at, randoms[0]);
      if f.attempts < MAX_ATTEMPTS { DelayBound(r.attempts, randoms[0]); }
      FailRunFrom(f, if f.next.Some? then f.next.value else at, randoms[1..]);
    }
  }

  lemma TotalOfTen()
    ensures NominalTotal(MAX_ATTEMPTS) == 2555.0
  {
    assert Pow2(1) == 2 && Pow2(2) == 4 && Pow2(3) == 8 && Pow2(4) == 16;
    assert Pow2(5) == 32 && Pow2(6) == 64 && Pow2(7) == 128 && Pow2(8) == 256;
    assert NominalTotal(3) == 35.0;
    assert NominalTotal(6) == 315.0;
    assert NominalTotal(9) == 2555.0;
  }

  /** Ten failures, and no fewer, kill a fresh action; its waits sum to 2555 seconds give or take 20 %. */
  lemma TenFailuresKill(created: real, at: real, randoms: seq<real>)
    requires |randoms| <= MAX_ATTEMPTS
    requires forall i :: 0 <= i < |randoms| ==> 0.0 <= randoms[i] < 1.0
    ensures var (end, due) := FailRun(FreshRow(created), at, randoms);
      && (end.status == Dead <==> |randoms| == MAX_ATTEMPTS)
      && (|randoms| == MAX_ATTEMPTS ==> 0.8 * 2555.0 <= due - at <= 1.2 * 2555.0)
  {
    FailRunFrom(FreshRow(created), at, randoms);
    if |randoms| == MAX_ATTEMPTS { TotalOfTen(); }
  }

  // ---------- when ten attempts are the most ----------

  /** The earliest end of ten failing attempts: the reservation and the nine waits, each jittered all the way down. */
  const TEN_ATTEMPTS := 2104.0

  /** Deliveries are done within their lease, and a first attempt ends before ten others can have failed. */
  predicate TenAtMost(t: Timing) {
    0.0 <= t.delivery && 20.0 * t.delivery < LEASE && 0.0 <= t.firstAttempt < TEN_ATTEMPTS
  }

  /** What a dispatcher at work knows of a live row: its lease stands, or a result recorded since the claim
      has put the next attempt off again. */
  predicate Postponed(r: Row, claimedAt: real) {
    && r.next.Some?
    && (r.next.value == claimedAt + LEASE
        || (r.attempts >= 1 && r.next.value >= claimedAt + 0.8 * Nominal(r.attempts - 1)))
  }

  ghost predicate WorkOk(s: State) {
    forall w, j, id :: Holds(s, w, j, id) ==>
      id in s.rows && s.rows[id].attempts < MAX_ATTEMPTS && (Live(s.rows[id]) ==> Postponed(s.rows[id], s.workers[w].claimedAt))
  }

  /** Two dispatchers at one row: it had few attempts, and one of the two leases stands. */
  ghost predicate PairsOk(s: State) {
    forall w, j, v, k, id :: Holds(s, w, j, id) && Holds(s, v, k, id) && w != v ==>
      && id in s.rows && Live(s.rows[id]) && s.rows[id].attempts <= 5
      && (s.rows[id].next == Some(s.workers[w].claimedAt + LEASE) || s.rows[id].next == Some(s.workers[v].claimedAt + LEASE))
  }

  ghost predicate NoThird(s: State) {
    forall w, j, v, k, u, l, id :: Holds(s, w, j, id) && Holds(s, v, k, id) && Holds(s, u, l, id) ==>
      w == v || v == u || w == u
  }

  /** While the first attempt of a row runs, dispatchers share the row one at a time and can fail it nine times at most. */
  predicate FirstRowOk(r: Row, now: real) {
    && r.attempts < MAX_ATTEMPTS
    && (Live(r) && r.attempts >= 1 ==>
          r.next.Some? && r.next.value >= r.createdAt + RESERVED + 0.8 * NominalTotal(r.attempts))
  }

  ghost predicate FirstsOk(t: Timing, s: State) {
    && FirstInTime(t, s)
    && (forall id :: id in s.first ==> FirstRowOk(s.rows[id], s.now))
    && (forall w, j, v, k, id :: id in s.first && Holds(s, w, j, id) && Holds(s, v, k, id) ==> w == v)
    && (forall w, j, id :: id in s.first && Holds(s, w, j, id) ==>
          && Live(s.rows[id]) && s.rows[id].next == Some(s.workers[w].claimedAt + LEASE)
          && s.workers[w].claimedAt >= s.rows[id].createdAt + RESERVED + 0.8 * NominalTotal(s.rows[id].attempts))
  }

  ghost predicate TenOk(t: Timing, s: State) {
    && BatchesOk(t, s) && WorkOk(s) && PairsOk(s) && NoThird(s) && FirstsOk(t, s)
    && forall id :: id in s.rows ==> s.rows[id].attempts <= MAX_ATTEMPTS
  }

  /** 120 seconds are too short for the wait after a sixth failure. */
  lemma FewAttempts(attempts: nat)
    requires attempts >= 1 && 0.8 * Nominal(attempts - 1) < LEASE
    ensures attempts <= 5
  {
    assert Pow2(1) == 2 && Pow2(2) == 4 && Pow2(3) == 8 && Pow2(4) == 16 && Pow2(5) == 32;
    if attempts > 5 { PowMonotone(5, attempts - 1); }
  }

  /** A due row has at most one dispatcher still at it, and then it had few attempts. */
  ghost predicate Claimable(s: State, id: nat) {
    && id in s.rows && Due(s.rows[id], s.now)
    && (forall v, k :: Holds(s, v, k, id) ==>
          && id !in s.first && 1 <= s.rows[id].attempts <= 5
          && s.now >= s.workers[v].claimedAt + 0.8 * Nominal(s.rows[id].attempts - 1))
    && (forall v, k, u, l :: Holds(s, v, k, id) && Holds(s, u, l, id) ==> v == u)
  }

  lemma DueIsClaimable(t: Timing, s: State, id: nat)
    requires TenAtMost(t) && TenOk(t, s) && id in s.rows && Due(s.rows[id], s.now)
    ensures Claimable(s, id)
  {
    forall v | v in s.workers ensures s.now < s.workers[v].claimedAt + LEASE { DoneInTime(t, s.workers[v], s.now); }
    forall v, k | Holds(s, v, k, id) ensures 1 <= s.rows[id].attempts <= 5 { FewAttempts(s.rows[id].attempts); }
  }

  /** What a claim of w changes, as far as the holders of rows go. */
  ghost predicate Claimed(s: State, s': State, w: nat, ids: seq<nat>) {
    && (forall id :: id in ids ==> Claimable(s, id))
    && w !in s.workers && s'.now == s.now && s'.first == s.first && s'.rows == LeaseIn(s.rows, ids, s.now)
    && s'.workers == s.workers[w := Batch(s.now, ids, 0, s.now)]
    && (forall v, j, id :: Holds(s', v, j, id) ==> if v == w then id in ids else Holds(s, v, j, id))
  }

  lemma ClaimWork(s: State, s': State, w: nat, ids: seq<nat>)
    requires WorkOk(s) && Claimed(s, s', w, ids)
    ensures WorkOk(s')
  {}

  lemma ClaimPairs(s: State, s': State, w: nat, ids: seq<nat>)
    requires PairsOk(s) && NoThird(s) && Claimed(s, s', w, ids)
    ensures PairsOk(s') && NoThird(s')
  {}

  lemma ClaimFirsts(t: Timing, s: State, s': State, w: nat, ids: seq<nat>)
    requires FirstsOk(t, s) && Claimed(s, s', w, ids)
    ensures FirstsOk(t, s')
  {}

  lemma ClaimTen(t: Timing, s: State, w: nat, ids: seq<nat>, locked: set<nat>)
    requires TenAtMost(t) && TenOk(t, s) && Enabled(t, s, Claim(w, ids, locked))
    ensures TenOk(t, Apply(s, Claim(w, ids, locked)))
  {
    var s' := Apply(s, Claim(w, ids, locked));
    forall id | id in ids ensures Claimable(s, id) { DueIsClaimable(t, s, id); }
    forall v, j, id | Holds(s', v, j, id) ensures if v == w then id in ids else Holds(s, v, j, id) {}
    ClaimWork(s, s', w, ids);
    ClaimPairs(s, s', w, ids);
    ClaimFirsts(t, s, s', w, ids);
    assert BatchesOk(t, s');
  }

  /** Recording a result for one row: the table, and holders only of rows they held before. */
  ghost predicate Recording(s: State, s': State, id: nat, o: Outcome) {
    && id in s.rows && Timely(o, s.now) && s'.now == s.now
    && s'.rows == MarkIn(s.rows, id, o)
    && (forall v, j, x :: Holds(s', v, j, x) ==>
          Holds(s, v, j, x) && s'.workers[v].claimedAt == s.workers[v].claimedAt <= s.now)
    && (forall v, j :: Holds(s', v, j, id) ==> s.rows[id].attempts + 1 < MAX_ATTEMPTS)
    && (forall v, j, u, k :: Holds(s', v, j, id) && Holds(s', u, k, id) ==> v == u)
  }

  lemma MarkPostpones(r: Row, o: Outcome, claimedAt: real)
    requires r.attempts + 1 < MAX_ATTEMPTS && 0.0 <= o.random < 1.0 && claimedAt <= o.at
    ensures var m := Mark(r, o.ok, o.err, o.at, o.random);
      Live(m) ==> Postponed(m, claimedAt) && m.next.value >= claimedAt + 0.8 * Nominal(r.attempts)
  {
    DelayBound(r.attempts, o.random);
  }

  lemma RecordingWork(s: State, s': State, id: nat, o: Outcome)
    requires WorkOk(s) && PairsOk(s) && NoThird(s) && Recording(s, s', id, o)
    ensures WorkOk(s') && PairsOk(s') && NoThird(s')
  {
    forall v, j | Holds(s', v, j, id)
      ensures Live(s'.rows[id]) ==> Postponed(s'.rows[id], s'.workers[v].claimedAt)
    {
      MarkPostpones(s.rows[id], o, s.workers[v].claimedAt);
    }
  }

  /** While the first attempt of a row runs, a dispatcher's failure of it is the ninth at most. */
  lemma NotTheTenth(t: Timing, s: State, w: nat, j: nat, id: nat)
    requires TenAtMost(t) && FirstsOk(t, s) && BatchesOk(t, s)
    requires id in s.first && Holds(s, w, j, id) && s.rows[id].attempts < MAX_ATTEMPTS
    ensures s.rows[id].attempts + 1 < MAX_ATTEMPTS
  {
    TotalOfTen();
    assert NominalTotal(9) == NominalTotal(10);
  }

  lemma DeliveryRecords(t: Timing, s: State, w: nat, o: Outcome)
    requires TenAtMost(t) && TenOk(t, s) && Enabled(t, s, DeliveryDone(w, o))
    ensures var s', id := Apply(s, DeliveryDone(w, o)), s.workers[w].ids[s.workers[w].done];
      && Recording(s, s', id, o) && BatchesOk(t, s') && s'.first == s.first && Holds(s, w, s.workers[w].done, id)
      && (id in s.first ==> forall v, j :: !Holds(s', v, j, id))
  {
    var s' := Apply(s, DeliveryDone(w, o));
    var b := s.workers[w];
    var id := b.ids[b.done];
    assert Holds(s, w, b.done, id);
    forall v, j, x | Holds(s', v, j, x) ensures Holds(s, v, j, x) && (v == w ==> x != id) {
      assert v == w ==> b.done < j;
    }
  }

  lemma RecordingFirsts(t: Timing, s: State, s': State, id: nat, o: Outcome)
    requires Recording(s, s', id, o) && FirstsOk(t, s) && s'.first <= s.first
    requires id in s'.first ==> FirstRowOk(s'.rows[id], s'.now) && forall v, j :: !Holds(s', v, j, id)
    ensures FirstsOk(t, s')
  {}

  lemma DeliveryTen(t: Timing, s: State, w: nat, o: Outcome)
    requires TenAtMost(t) && TenOk(t, s) && Enabled(t, s, DeliveryDone(w, o))
    ensures TenOk(t, Apply(s, DeliveryDone(w, o)))
  {
    var s' := Apply(s, DeliveryDone(w, o));
    var b := s.workers[w];
    var id := b.ids[b.done];
    DeliveryRecords(t, s, w, o);
    RecordingWork(s, s', id, o);
    if id in s.first {
      NotTheTenth(t, s, w, b.done, id);
      MarkPostpones(s.rows[id], o, b.claimedAt);
    }
    RecordingFirsts(t, s, s', id, o);
  }

  lemma FirstDoneTen(t: Timing, s: State, id: nat, o: Outcome)
    requires TenAtMost(t) && TenOk(t, s) && Enabled(t, s, FirstDone(id, o))
    ensures TenOk(t, Apply(s, FirstDone(id, o)))
  {
    var s' := Apply(s, FirstDone(id, o));
    forall v, j, x | Holds(s', v, j, x) ensures Holds(s, v, j, x) {}
    forall v, j | Holds(s, v, j, id) ensures s.rows[id].attempts + 1 < MAX_ATTEMPTS { NotTheTenth(t, s, v, j, id); }
    RecordingWork(s, s', id, o);
    RecordingFirsts(t, s, s', id, o);
  }

  /** A step that records nothing and claims nothing. */
  lemma QuietTen(t: Timing, s: State, s': State)
    requires TenOk(t, s) && BatchesOk(t, s') && FirstInTime(t, s')
    requires forall id :: id in s.rows ==> id in s'.rows && s'.rows[id] == s.rows[id]
    requires forall id :: id in s'.rows && id !in s.rows ==> s'.rows[id].attempts == 0
    requires forall id :: id in s'.first ==> if id in s.rows then id in s.first else id in s'.rows
    requires forall v, j, x :: Holds(s', v, j, x) ==> Holds(s, v, j, x) && s'.workers[v].claimedAt == s.workers[v].claimedAt
    ensures TenOk(t, s')
  {
    assert WorkOk(s') && PairsOk(s') && NoThird(s');
    assert FirstsOk(t, s');
  }

  lemma FewerHeld(t: Timing, s: State, step: Step)
    requires TenOk(t, s) && Enabled(t, s, step) && !step.Claim? && !step.DeliveryDone?
    ensures BatchesOk(t, Apply(s, step))
    ensures var s' := Apply(s, step);
      forall v, j, x :: Holds(s', v, j, x) ==> Holds(s, v, j, x) && s'.workers[v].claimedAt == s.workers[v].claimedAt
  {}

  lemma StepTen(t: Timing, s: State, step: Step)
    requires TenAtMost(t) && Sound(s) && TenOk(t, s) && Enabled(t, s, step)
    ensures TenOk(t, Apply(s, step))
  {
    match step
    case Claim(w, ids, locked) => ClaimTen(t, s, w, ids, locked);
    case DeliveryDone(w, o) => DeliveryTen(t, s, w, o);
    case FirstDone(id, o) => FirstDoneTen(t, s, id, o);
    case _ =>
      FewerHeld(t, s, step);
      QuietTen(t, s, Apply(s, step));
  }

  lemma {:induction false} AttemptsAreBounded(t: Timing, trace: seq<Step>)
    requires TenAtMost(t) && Valid(t, trace)
    ensures TenOk(t, After(trace))
    ensures forall id :: id in After(trace).rows ==> After(trace).rows[id].attempts <= MAX_ATTEMPTS
  {
    if trace != [] {
      var rest := trace[..|trace| - 1];
      AttemptsAreBounded(t, rest);
      EveryRowSound(t, rest);
      StepTen(t, After(rest), trace[|trace| - 1]);
    }
  }

  /** The only action, after k failures by a dispatcher while its first attempt is still running. */
  ghost predicate Outrun(s: State, k: nat) {
    && k <= MAX_ATTEMPTS && s.now == RESERVED + 0.8 * NominalTotal(k)
    && s.first == {1} && s.workers == map[] && s.rows.Keys == {1}
    && s.rows[1].createdAt == 0.0 && s.rows[1].attempts == k
    && (k < MAX_ATTEMPTS ==> Due(s.rows[1], s.now))
  }

  lemma {:induction false} TotalGrows(n: nat, m: nat)
    requires n <= m <= MAX_ATTEMPTS
    ensures NominalTotal(n) <= NominalTotal(m)
  {
    if n < m { TotalGrows(n, m - 1); }
  }

  /** The shortest wait after failure k + 1. */
  lemma LeastWait(k: nat) returns (wait: real)
    requires k < MAX_ATTEMPTS
    ensures 0.0 <= wait && RESERVED + 0.8 * NominalTotal(k) + wait == RESERVED + 0.8 * NominalTotal(k + 1) <= TEN_ATTEMPTS
    ensures k + 1 < MAX_ATTEMPTS ==> wait == Delay(k, 0.0)
  {
    TotalOfTen();
    TotalGrows(k + 1, MAX_ATTEMPTS);
    wait := 0.0;
    if k + 1 < MAX_ATTEMPTS {
      BackoffBound(k);
      wait := Delay(k, 0.0);
    }
  }

  lemma OutrunStep(s: State, k: nat) returns (s': State, wait: real)
    requires k < MAX_ATTEMPTS && Outrun(s, k)
    ensures IsClaim(s.rows, s.now, [1], {})
    ensures s' == Apply(Apply(s, Claim(0, [1], {})), DeliveryDone(0, Outcome(false, "", s.now, 0.0)))
    ensures 0.0 <= wait && s.now + wait <= TEN_ATTEMPTS && Outrun(s'.(now := s'.now + wait), k + 1)
    ensures s'.now == s.now && s'.workers == map[] && s'.first == {1} && s'.rows.Keys == {1} && s'.rows[1].createdAt == 0.0
  {
    wait := LeastWait(k);
    s' := Apply(Apply(s, Claim(0, [1], {})), DeliveryDone(0, Outcome(false, "", s.now, 0.0)));
    assert s'.rows[1] == Mark(Lease(s.rows[1], s.now), false, "", s.now, 0.0);
  }

  lemma OutrunOn(t: Timing, before: seq<Step>, k: nat) returns (trace: seq<Step>)
    requires t.firstAttempt >= TEN_ATTEMPTS && k < MAX_ATTEMPTS
    requires Valid(t, before) && Outrun(After(before), k)
    ensures Valid(t, trace) && Outrun(After(trace), k + 1)
  {
    var s := After(before);
    var s', wait := OutrunStep(s, k);
    trace := Then(t, before, Claim(0, [1], {}));
    trace := Then(t, trace, DeliveryDone(0, Outcome(false, "", s.now, 0.0)));
    assert After(trace) == s';
    trace := Wait(t, trace, wait);
  }

  lemma {:induction false} ReachOutrun(t: Timing, k: nat) returns (trace: seq<Step>)
    requires 0.0 <= t.delivery && t.firstAttempt >= TEN_ATTEMPTS && k <= MAX_ATTEMPTS
    ensures Valid(t, trace) && Outrun(After(trace), k)
  {
    if k == 0 {
      trace := Unfinished(t);
    } else {
      trace := ReachOutrun(t, k - 1);
      trace := OutrunOn(t, trace, k - 1);
    }
  }

  /** A first attempt that outlasts ten failures records the eleventh. */
  lemma LateFirstAttemptExceeds(t: Timing) returns (trace: seq<Step>)
    requires 0.0 <= t.delivery && t.firstAttempt >= TEN_ATTEMPTS
    ensures Valid(t, trace) && 1 in After(trace).rows && After(trace).rows[1].attempts > MAX_ATTEMPTS
  {
    trace := ReachOutrun(t, MAX_ATTEMPTS);
    var last := FirstDone(1, Outcome(false, "", After(trace).now, 0.0));
    trace := Then(t, trace, last);
  }

  /** Two dispatchers at one row on its tenth attempt record the tenth and the eleventh. */
  lemma SlowDeliveryExceeds(t: Timing) returns (trace: seq<Step>)
    requires 20.0 * t.delivery >= LEASE
    ensures Valid(t, trace) && 20 in After(trace).rows && After(trace).rows[20].attempts > MAX_ATTEMPTS
  {
    trace := ReachBoth(t, 9);
    var o := Outcome(false, "", After(trace).now, 0.0);
    trace := Then(t, trace, DeliveryDone(1, o));
    trace := Then(t, trace, DeliveryDone(0, o));
  }

  /** No action is ever attempted more than ten times exactly when deliveries keep within their lease and a first
      attempt ends before ten others can have failed. */
  lemma TenAttemptsIff(t: Timing)
    requires 0.0 <= t.delivery && 0.0 <= t.firstAttempt
    ensures TenAtMost(t) <==>
      forall trace, id :: Valid(t, trace) && id in After(trace).rows ==> After(trace).rows[id].attempts <= MAX_ATTEMPTS
  {
    if TenAtMost(t) {
      forall trace, id | Valid(t, trace) && id in After(trace).rows
        ensures After(trace).rows[id].attempts <= MAX_ATTEMPTS
      {
        AttemptsAreBounded(t, trace);
      }
    } else if t.firstAttempt >= TEN_ATTEMPTS {
      var trace := LateFirstAttemptExceeds(t);
    } else {
      var trace := SlowDeliveryExceeds(t);
    }
  }
}
