/**
 What a row of the outbox says about the results recorded for it, read off the steps of a run and whatever the
 timing: the status, the delivery time, the error text, the number of attempts and the next due time. The numbers
 are the ones of the statements themselves.
 */
module OutboxResults {
  import opened Prelude
  import opened Outbox

  /** A result as the log of the run has it: when it was recorded, what it was, and the jitter drawn. */
  datatype Result = Result(at: real, ok: bool, err: string, random: real)

  /** The result a step records for an action. */
  function Recording(s: State, step: Step, id: nat): seq<Result> {
    match step
    case FirstDone(i, o) => if i == id then [Result(s.now, o.ok, o.err, o.random)] else []
    case DeliveryDone(w, o) => if Delivering(s, w, id) then [Result(s.now, o.ok, o.err, o.random)] else []
    case _ => []
  }

  /** All results recorded for an action, in order. */
  function Results(trace: seq<Step>, id: nat): seq<Result> {
    if trace == [] then [] else
      Results(trace[..|trace| - 1], id) + Recording(After(trace[..|trace| - 1]), trace[|trace| - 1], id)
  }

  /** Five seconds, doubled with every earlier failure. */
  function Doubled(failures: nat): real {
    if failures == 0 then 5.0 else 2.0 * Doubled(failures - 1)
  }

  /** The pause after a failure, 20 % either way. */
  function Pause(failures: nat, random: real): real {
    Doubled(failures) * (0.8 + random * 0.4)
  }

  /** The due time a result leaves behind, when n came before it. */
  function DueAfter(n: nat, r: Result): Option<real> {
    if r.ok || n + 1 >= 10 then None else Some(r.at + Pause(n, r.random))
  }

  /** When the action is due: by the claim or the result that touched it last. */
  function Schedule(trace: seq<Step>, id: nat): Option<real> {
    if trace == [] then None else
      var before, step := trace[..|trace| - 1], trace[|trace| - 1];
      var s := After(before);
      if step.Claim? && id in step.ids then Some(s.now + 120.0)
      else if Recording(s, step, id) == [] then Schedule(before, id)
      else DueAfter(|Results(before, id)|, Recording(s, step, id)[0])
  }

  /** When the action was created. */
  function Born(trace: seq<Step>, id: nat): real {
    if trace == [] then 0.0 else
      var before, step := trace[..|trace| - 1], trace[|trace| - 1];
      if step.Create? && After(before).seqNo == id then After(before).now else Born(before, id)
  }

  predicate Tells(r: Row, rs: seq<Result>, next: Option<real>) {
    && r.attempts == |rs| && r.next == next
    && if rs == [] then r.status == Pending && r.deliveredAt == None && r.lastError == None else
       var last := rs[|rs| - 1];
       && (r.status == Delivered <==> last.ok)
       && (r.status == Dead <==> !last.ok && |rs| >= 10)
       && (r.status == Failed <==> !last.ok && |rs| < 10)
       && r.deliveredAt == (if last.ok then Some(last.at) else None)
       && r.lastError == (if last.err == "" then None else Some(last.err))
  }

  lemma {:induction false} DoubledIsNominal(k: nat)
    ensures Doubled(k) == Nominal(k)
  {
    if k > 0 { DoubledIsNominal(k - 1); }
  }

  lemma PauseIsDelay(k: nat, random: real)
    requires k + 1 < 10
    ensures Pause(k, random) == Delay(k, random)
  {
    DoubledIsNominal(k);
    BackoffBound(k);
  }

  lemma MarkTells(r: Row, rs: seq<Result>, o: Outcome, now: real)
    requires r.attempts == |rs| && o.at == now
    ensures var x := Result(now, o.ok, o.err, o.random);
      Tells(Mark(r, o.ok, o.err, o.at, o.random), rs + [x], DueAfter(|rs|, x))
  {
    if |rs| + 1 < 10 { PauseIsDelay(|rs|, o.random); }
  }

  /** Every dispatcher at work has a row of the table to deliver. */
  ghost predicate Claims(s: State) {
    && (forall w :: w in s.workers ==> BatchIn(s.workers[w], s.rows))
    && (forall id :: id in s.first ==> id in s.rows)
    && (forall id :: id in s.rows ==> id < s.seqNo)
  }

  predicate BatchIn(b: Batch, rows: map<nat, Row>) {
    b.done < |b.ids| && forall i :: 0 <= i < |b.ids| ==> b.ids[i] in rows
  }

  lemma AdvanceClaims(s: State, w: nat)
    requires Claims(s) && w in s.workers
    ensures forall v :: v in Advance(s, w) ==> BatchIn(Advance(s, w)[v], s.rows)
  {
    assert BatchIn(s.workers[w], s.rows);
  }

  lemma StepClaims(t: Timing, s: State, step: Step)
    requires Claims(s) && Enabled(t, s, step)
    ensures Claims(Apply(s, step))
  {
    match step
    case DeliveryDone(w, o) => AdvanceClaims(s, w);
    case DeliveryUnrecorded(w) => AdvanceClaims(s, w);
    case Claim(w, ids, locked) => assert BatchIn(Batch(s.now, ids, 0, s.now), s.rows);
    case Create(b) =>
      forall w | w in s.workers ensures BatchIn(s.workers[w], Apply(s, step).rows) { assert BatchIn(s.workers[w], s.rows); }
    case _ =>
  }

  lemma {:induction false} EveryRunClaims(t: Timing, trace: seq<Step>)
    requires Valid(t, trace)
    ensures Claims(After(trace))
  {
    if trace != [] {
      var rest := trace[..|trace| - 1];
      EveryRunClaims(t, rest);
      StepClaims(t, After(rest), trace[|trace| - 1]);
    }
  }

  /** Nothing is recorded for an action that does not exist, and it is in no claim. */
  lemma Absent(t: Timing, s: State, step: Step, id: nat)
    requires Claims(s) && Enabled(t, s, step) && id !in s.rows
    ensures Recording(s, step, id) == [] && !(step.Claim? && id in step.ids)
    ensures id in Apply(s, step).rows ==> Apply(s, step).rows[id] == FreshRow(s.now)
  {
    match step
    case DeliveryDone(w, o) => assert BatchIn(s.workers[w], s.rows);
    case _ =>
  }

  /** Rows are never deleted. */
  lemma Stays(s: State, step: Step, id: nat)
    requires id in s.rows
    ensures id in Apply(s, step).rows
  {}

  lemma {:induction false} NoResultsYet(t: Timing, trace: seq<Step>, id: nat)
    requires Valid(t, trace) && id !in After(trace).rows
    ensures Results(trace, id) == [] && Schedule(trace, id) == None
  {
    if trace != [] {
      var rest := trace[..|trace| - 1];
      EveryRunClaims(t, rest);
      if id in After(rest).rows { Stays(After(rest), trace[|trace| - 1], id); }
      NoResultsYet(t, rest, id);
      Absent(t, After(rest), trace[|trace| - 1], id);
    }
  }

  /** What one step does to the row of an existing action. */
  lemma StepRow(t: Timing, s: State, step: Step, id: nat)
    requires Claims(s) && Enabled(t, s, step) && id in s.rows
    ensures id in Apply(s, step).rows
    ensures var r, r' := s.rows[id], Apply(s, step).rows[id];
      if step.Claim? && id in step.ids then r' == Lease(r, s.now)
      else if Recording(s, step, id) == [] then r' == r
      else
        && (step.FirstDone? || step.DeliveryDone?) && step.result.at == s.now
        && r' == Mark(r, step.result.ok, step.result.err, s.now, step.result.random)
        && Recording(s, step, id) == [Result(s.now, step.result.ok, step.result.err, step.result.random)]
  {
    match step
    case DeliveryDone(w, o) => assert BatchIn(s.workers[w], s.rows);
    case _ =>
  }

  lemma StepTells(t: Timing, s: State, step: Step, id: nat, rs: seq<Result>, next: Option<real>)
    requires Claims(s) && Enabled(t, s, step) && id in s.rows && Tells(s.rows[id], rs, next)
    ensures id in Apply(s, step).rows
    ensures var now := Recording(s, step, id);
      Tells(Apply(s, step).rows[id], rs + now,
            if step.Claim? && id in step.ids then Some(s.now + 120.0)
            else if now == [] then next else DueAfter(|rs|, now[0]))
  {
    StepRow(t, s, step, id);
    if Recording(s, step, id) == [] {
      assert rs + [] == rs;
    } else {
      MarkTells(s.rows[id], rs, step.result, s.now);
    }
  }

  lemma Unfolded(trace: seq<Step>, id: nat)
    requires trace != []
    ensures var rest, step := trace[..|trace| - 1], trace[|trace| - 1];
      var now := Recording(After(rest), step, id);
      && After(trace) == Apply(After(rest), step) && Results(trace, id) == Results(rest, id) + now
      && Schedule(trace, id) ==
           if step.Claim? && id in step.ids then Some(After(rest).now + 120.0)
           else if now == [] then Schedule(rest, id) else DueAfter(|Results(rest, id)|, now[0])
  {}

  /**
   In every run, whatever the timing, a row is exactly what the results recorded for it say: how many there
   were, whether the last was a success and when, what its error was, and when it is due again.
   */
  lemma {:induction false} RowTellsResults(t: Timing, trace: seq<Step>, id: nat)
    requires Valid(t, trace) && id in After(trace).rows
    ensures Tells(After(trace).rows[id], Results(trace, id), Schedule(trace, id))
  {
    var rest := trace[..|trace| - 1];
    var s, step := After(rest), trace[|trace| - 1];
    EveryRunClaims(t, rest);
    Unfolded(trace, id);
    if id !in s.rows {
      NoResultsYet(t, rest, id);
      Absent(t, s, step, id);
    } else {
      RowTellsResults(t, rest, id);
      StepTells(t, s, step, id, Results(rest, id), Schedule(rest, id));
    }
  }

  lemma StepBorn(t: Timing, s: State, step: Step, id: nat)
    requires Claims(s) && Enabled(t, s, step) && id in Apply(s, step).rows
    ensures Apply(s, step).rows[id].createdAt ==
            if step.Create? && s.seqNo == id then s.now else if id in s.rows then s.rows[id].createdAt else s.now
    ensures id in s.rows || (step.Create? && s.seqNo == id)
  {
    if id in s.rows { StepRow(t, s, step, id); }
  }

  lemma {:induction false} BornIs(t: Timing, trace: seq<Step>, id: nat)
    requires Valid(t, trace) && id in After(trace).rows
    ensures After(trace).rows[id].createdAt == Born(trace, id)
  {
    var rest := trace[..|trace| - 1];
    EveryRunClaims(t, rest);
    StepBorn(t, After(rest), trace[|trace| - 1], id);
    if id in After(rest).rows { BornIs(t, rest, id); }
  }

  /**
   In every run an action may be claimed exactly when no attempt of it succeeded last, fewer than ten are recorded,
   its due time has come, and the first attempt had its minute when nothing is recorded yet.
   */
  lemma ClaimableIff(t: Timing, trace: seq<Step>, id: nat)
    requires Valid(t, trace) && id in After(trace).rows
    ensures var s, rs, due := After(trace), Results(trace, id), Schedule(trace, id);
      Due(s.rows[id], s.now) <==>
        && (rs == [] || (!rs[|rs| - 1].ok && |rs| < 10))
        && (due == None || due.value <= s.now)
        && (rs == [] ==> Born(trace, id) + 60.0 <= s.now)
  {
    RowTellsResults(t, trace, id);
    BornIs(t, trace, id);
  }
}
