/**
 The scoring endpoint as seen by callers that retry: look up a stored decision, score, insert the decision
 and its alert in one transaction or lose to the unique index, then replay what is stored. Any number of
 handlers run at once and may stop at any point.
 */
module ScoreIdempotency {
  import opened Prelude
  import opened Policy

  /** The idempotency key; an empty txnRef is stored as NULL, which the unique index ignores. */
  datatype Key = Key(tenant: string, session: string, txnRef: string)

  datatype Verdict = Verdict(decision: Decision, score: int, reasons: seq<Code>, signals: seq<Signal>, threat: string)

  datatype Row = Row(key: Key, decision: Decision, score: int, reasons: seq<Code>, signals: seq<Signal>,
                     threat: Option<string>, alertId: Option<nat>, intervention: Option<string>)

  /** `key` is None on an alert raised by a detector outside the scoring endpoint. */
  datatype Alert = Alert(key: Option<Key>, score: int, threat: Option<string>)

  datatype Response = Response(decision: Decision, score: int, reasons: seq<Code>, signals: seq<Signal>,
                               threat: Option<string>, intervention: Option<string>, alertId: Option<nat>)

  datatype Db = Db(decisions: seq<Row>, alerts: map<nat, Alert>, alertSeq: nat)

  function NullIf(s: string): Option<string> {
    if s == "" then None else Some(s)
  }

  function Text(o: Option<string>): string {
    if o.None? then "" else o.value
  }

  function RowOf(key: Key, v: Verdict, alertId: Option<nat>): Row {
    Row(key, v.decision, v.score, v.reasons, v.signals, NullIf(v.threat), alertId,
        NullIf(InterventionFor(v.decision, v.threat)))
  }

  function AlertOf(key: Key, v: Verdict): Alert {
    Alert(Some(key), v.score, NullIf(v.threat))
  }

  /** The answer to a request that was scored. */
  function Fresh(v: Verdict, alertId: Option<nat>): Response {
    Response(v.decision, v.score, v.reasons, v.signals, NullIf(v.threat),
             NullIf(InterventionFor(v.decision, v.threat)), alertId)
  }

  /** The answer from a stored row; a row older than the intervention column gets it recomputed. */
  function Replay(row: Row): Response {
    var intervention := if row.intervention.Some? then row.intervention
                        else NullIf(InterventionFor(row.decision, Text(row.threat)));
    Response(row.decision, row.score, row.reasons, row.signals, row.threat, intervention, row.alertId)
  }

  /** The oldest row for a key. */
  function Find(rows: seq<Row>, key: Key): (r: Option<Row>)
    ensures r.Some? ==> r.value in rows && r.value.key == key
    ensures r.None? ==> forall i :: 0 <= i < |rows| ==> rows[i].key != key
  {
    if rows == [] then None
    else if rows[0].key == key then Some(rows[0])
    else Find(rows[1..], key)
  }

  /** The stored decision a retry gets; no row equals an empty txnRef, which is stored as NULL. */
  function Stored(rows: seq<Row>, key: Key): Option<Row> {
    if key.txnRef == "" then None else Find(rows, key)
  }

  /** The transaction that inserts a HOLD's alert and the decision row: it fails on the unique index. */
  function Record(db: Db, key: Key, v: Verdict, alertId: Option<nat>): Db {
    if Stored(db.decisions, key).Some? then db
    else db.(decisions := db.decisions + [RowOf(key, v, alertId)],
             alerts := if alertId.Some? then db.alerts[alertId.value := AlertOf(key, v)] else db.alerts)
  }

  // ---------- the server's own methods ----------

  /** recordDecision's outcome: the alert id ("" modelled as None), or the duplicate error. */
  datatype Recorded = Committed(alertId: Option<nat>) | Duplicate

  class DecisionStore {
    var decisions: seq<Row>
    var alerts: map<nat, Alert>
    var alertSeq: nat

    constructor (start: Db)
      ensures View() == start
    {
      decisions, alerts, alertSeq := start.decisions, start.alerts, start.alertSeq;
    }

    ghost function View(): Db
      reads this
    {
      Db(decisions, alerts, alertSeq)
    }

    /** A sequence value is not given back by the rollback of a duplicate. */
    method RecordDecision(key: Key, v: Verdict) returns (r: Recorded)
      modifies this
      ensures r.Duplicate? <==> Stored(old(decisions), key).Some?
      ensures r.Committed? ==> r.alertId == if v.decision == HOLD then Some(old(alertSeq)) else None
      ensures View() == Record(old(View()), key, v, if v.decision == HOLD then Some(old(alertSeq)) else None)
                        .(alertSeq := old(alertSeq) + if v.decision == HOLD then 1 else 0)
    {
      var before := alerts;
      var alertId: Option<nat> := None;
      if v.decision == HOLD {
        alertId := Some(alertSeq);
        alertSeq := alertSeq + 1;
        alerts := alerts[alertId.value := AlertOf(key, v)];
      }
      if key.txnRef != "" && Find(decisions, key).Some? {
        alerts := before;
        return Duplicate;
      }
      decisions := decisions + [RowOf(key, v, alertId)];
      return Committed(alertId);
    }

    method GetDecisionReplay(key: Key) returns (prior: Option<Response>)
      ensures prior == if Stored(decisions, key).Some? then Some(Replay(Stored(decisions, key).value)) else None
    {
      var row := if key.txnRef == "" then None else Find(decisions, key);
      if row.None? { return None; }
      var r := row.value;
      var out := Response(r.decision, r.score, r.reasons, r.signals, r.threat, r.intervention, r.alertId);
      if r.intervention.None? {
        var iv := InterventionFor(r.decision, Text(r.threat));
        if iv != "" { out := out.(intervention := Some(iv)); }
      }
      return Some(out);
    }

    /** One request with no other running: a decided key is replayed untouched, any other is scored and stored. */
    method HandleScore(key: Key, v: Verdict) returns (response: Response)
      modifies this
      ensures Stored(old(decisions), key).Some? ==>
        View() == old(View()) && response == Replay(Stored(old(decisions), key).value)
      ensures Stored(old(decisions), key).None? ==>
        && |decisions| == |old(decisions)| + 1 && decisions[..|old(decisions)|] == old(decisions)
        && decisions[|old(decisions)|].key == key
        && response == Replay(decisions[|old(decisions)|]) && response.decision == v.decision
    {
      if key.txnRef != "" {
        var prior := GetDecisionReplay(key);
        if prior.Some? { return prior.value; }
      }
      var r := RecordDecision(key, v);
      assert r.Committed?;
      return Fresh(v, r.alertId);
    }
  }

  // ---------- any number of handlers at once ----------

  datatype Handler =
    | Started(key: Key)
    | Deciding(key: Key)
    | Drafted(key: Key, v: Verdict)
    | Holding(key: Key, v: Verdict, id: nat)
    | Conflicted(key: Key)
    | Done(key: Key, response: Response)
    | Failed(key: Key)
    | Lost(key: Key)

  /** Failed is the internal error for a conflict with no stored row; Lost covers every other failure. */
  datatype State = State(db: Db, handlers: map<nat, Handler>)

  datatype Step =
    | Arrive(h: nat, key: Key)
    | Lookup(h: nat)
    | Score(h: nat, v: Verdict)
    | TakeAlertId(h: nat)
    | Insert(h: nat, acked: bool)
    | ReplayStored(h: nat)
    | Stop(h: nat)
    | Detect(alert: Alert)

  function AlertIdOf(w: Handler): Option<nat> {
    if w.Holding? then Some(w.id) else None
  }

  predicate Enabled(s: State, step: Step) {
    match step
    case Arrive(h, _) => h !in s.handlers
    case Lookup(h) => h in s.handlers && s.handlers[h].Started?
    case Score(h, _) => h in s.handlers && s.handlers[h].Deciding?
    case TakeAlertId(h) => h in s.handlers && s.handlers[h].Drafted? && s.handlers[h].v.decision == HOLD
    case Insert(h, _) =>
      h in s.handlers && (s.handlers[h].Holding? || (s.handlers[h].Drafted? && s.handlers[h].v.decision != HOLD))
    case ReplayStored(h) => h in s.handlers && s.handlers[h].Conflicted?
    case Stop(h) => h in s.handlers && !s.handlers[h].Done?
    case Detect(alert) => alert.key.None?
  }

  /** A step that is not enabled leaves the state as it is. */
  function Apply(s: State, step: Step): State {
    if !Enabled(s, step) then s else
    match step
    case Arrive(h, key) =>
      s.(handlers := s.handlers[h := Started(key)])
    case Lookup(h) =>
      var key := s.handlers[h].key;
      var row := Stored(s.db.decisions, key);
      s.(handlers := s.handlers[h := if row.Some? then Done(key, Replay(row.value)) else Deciding(key)])
    case Score(h, v) =>
      s.(handlers := s.handlers[h := Drafted(s.handlers[h].key, v)])
    case TakeAlertId(h) =>
      s.(handlers := s.handlers[h := Holding(s.handlers[h].key, s.handlers[h].v, s.db.alertSeq)],
         db := s.db.(alertSeq := s.db.alertSeq + 1))
    case Insert(h, acked) =>
      var w := s.handlers[h];
      var after := if Stored(s.db.decisions, w.key).Some? then Conflicted(w.key)
                   else if acked then Done(w.key, Fresh(w.v, AlertIdOf(w)))
                   else Lost(w.key);
      State(Record(s.db, w.key, w.v, AlertIdOf(w)), s.handlers[h := after])
    case ReplayStored(h) =>
      var key := s.handlers[h].key;
      var row := Stored(s.db.decisions, key);
      s.(handlers := s.handlers[h := if row.Some? then Done(key, Replay(row.value)) else Failed(key)])
    case Stop(h) =>
      s.(handlers := s.handlers[h := Lost(s.handlers[h].key)])
    case Detect(alert) =>
      s.(db := s.db.(alerts := s.db.alerts[s.db.alertSeq := alert], alertSeq := s.db.alertSeq + 1))
  }

  function After(start: Db, trace: seq<Step>): State {
    if trace == [] then State(start, map[]) else Apply(After(start, trace[..|trace| - 1]), trace[|trace| - 1])
  }

  // ---------- what every run keeps ----------

  ghost predicate Unique(rows: seq<Row>) {
    forall i, j :: 0 <= i < j < |rows| && rows[i].key == rows[j].key ==> rows[i].key.txnRef == ""
  }

  predicate RowOk(row: Row, alerts: map<nat, Alert>) {
    && (row.decision == HOLD <==> row.alertId.Some?)
    && (row.alertId.Some? ==>
          row.alertId.value in alerts && alerts[row.alertId.value] == Alert(Some(row.key), row.score, row.threat))
  }

  ghost predicate RowsOk(db: Db) {
    && (forall i :: 0 <= i < |db.decisions| ==> RowOk(db.decisions[i], db.alerts))
    && forall i, j :: 0 <= i < j < |db.decisions| && db.decisions[i].alertId.Some? ==>
         db.decisions[i].alertId != db.decisions[j].alertId
  }

  /** Row i raised alert id. */
  predicate Raised(rows: seq<Row>, i: nat, id: nat) {
    i < |rows| && rows[i].alertId == Some(id)
  }

  ghost predicate AlertsOk(db: Db) {
    forall id :: id in db.alerts ==>
      id < db.alertSeq && (db.alerts[id].key.Some? ==> exists i: nat :: Raised(db.decisions, i, id))
  }

  ghost predicate DbOk(db: Db) {
    Unique(db.decisions) && RowsOk(db) && AlertsOk(db)
  }

  ghost predicate HandlersOk(s: State) {
    && (forall h :: h in s.handlers && s.handlers[h].Holding? ==>
          s.handlers[h].id < s.db.alertSeq && s.handlers[h].id !in s.db.alerts && s.handlers[h].v.decision == HOLD)
    && (forall h, g ::
          (h in s.handlers && g in s.handlers && h != g && s.handlers[h].Holding? && s.handlers[g].Holding?)
            ==> s.handlers[h].id != s.handlers[g].id)
  }

  /** The answer comes from a stored row of that key. */
  ghost predicate Answered(rows: seq<Row>, key: Key, response: Response) {
    exists i :: 0 <= i < |rows| && rows[i].key == key && Replay(rows[i]) == response
  }

  ghost predicate AnswerOk(w: Handler, rows: seq<Row>) {
    && !w.Failed?
    && (w.Conflicted? ==> Stored(rows, w.key).Some?)
    && (w.Done? ==> Answered(rows, w.key, w.response))
  }

  ghost predicate AnswersOk(s: State) {
    forall h :: h in s.handlers ==> AnswerOk(s.handlers[h], s.db.decisions)
  }

  ghost predicate Ok(s: State) {
    DbOk(s.db) && HandlersOk(s) && AnswersOk(s)
  }

  lemma FreshIsReplay(key: Key, v: Verdict, alertId: Option<nat>)
    ensures Replay(RowOf(key, v, alertId)) == Fresh(v, alertId)
  {}

  lemma RecordKeeps(db: Db, key: Key, v: Verdict, alertId: Option<nat>)
    requires DbOk(db) && Stored(db.decisions, key).None?
    requires v.decision == HOLD <==> alertId.Some?
    requires alertId.Some? ==> alertId.value < db.alertSeq && alertId.value !in db.alerts
    ensures DbOk(Record(db, key, v, alertId))
  {
    var db' := Record(db, key, v, alertId);
    var n := |db.decisions|;
    forall id | id in db'.alerts && db'.alerts[id].key.Some? ensures exists i: nat :: Raised(db'.decisions, i, id) {
      if alertId == Some(id) {
        assert Raised(db'.decisions, n, id);
      } else {
        var i: nat :| Raised(db.decisions, i, id);
        assert Raised(db'.decisions, i, id);
      }
    }
  }

  lemma {:induction false} FindStays(rows: seq<Row>, more: seq<Row>, key: Key)
    requires Find(rows, key).Some?
    ensures Find(rows + more, key) == Find(rows, key)
  {
    if rows[0].key != key {
      FindStays(rows[1..], more, key);
      assert (rows + more)[1..] == rows[1..] + more;
    }
  }

  lemma AnswerStays(w: Handler, rows: seq<Row>, row: Row)
    requires AnswerOk(w, rows)
    ensures AnswerOk(w, rows + [row])
  {
    if w.Done? {
      var i :| 0 <= i < |rows| && rows[i].key == w.key && Replay(rows[i]) == w.response;
      assert (rows + [row])[i] == rows[i];
    }
    if Find(rows, w.key).Some? { FindStays(rows, [row], w.key); }
  }

  lemma InsertKeeps(s: State, h: nat, acked: bool)
    requires Ok(s) && Enabled(s, Insert(h, acked))
    ensures Ok(Apply(s, Insert(h, acked)))
  {
    var w, s' := s.handlers[h], Apply(s, Insert(h, acked));
    if Stored(s.db.decisions, w.key).None? {
      RecordKeeps(s.db, w.key, w.v, AlertIdOf(w));
      var row := RowOf(w.key, w.v, AlertIdOf(w));
      FreshIsReplay(w.key, w.v, AlertIdOf(w));
      forall g | g in s'.handlers ensures AnswerOk(s'.handlers[g], s'.db.decisions) {
        if g == h {
          assert s'.db.decisions[|s.db.decisions|] == row;
        } else {
          AnswerStays(s.handlers[g], s.db.decisions, row);
        }
      }
    }
  }

  /** A step that stores nothing: one handler moves on, and a sequence value may be drawn for it. */
  lemma MoveKeeps(s: State, h: nat, w: Handler, seqNo: nat)
    requires Ok(s) && AnswerOk(w, s.db.decisions) && seqNo >= s.db.alertSeq
    requires w.Holding? ==> w.id == s.db.alertSeq < seqNo && w.v.decision == HOLD
    ensures Ok(State(s.db.(alertSeq := seqNo), s.handlers[h := w]))
  {
    assert AlertsOk(s.db.(alertSeq := seqNo));
  }

  lemma StepKeeps(s: State, step: Step)
    requires Ok(s)
    ensures Ok(Apply(s, step))
  {
    if !Enabled(s, step) { return; }
    var s' := Apply(s, step);
    match step
    case Insert(h, acked) => InsertKeeps(s, h, acked);
    case Detect(alert) => DetectKeeps(s, alert);
    case Arrive(h, _) => MoveKeeps(s, h, s'.handlers[h], s.db.alertSeq);
    case Lookup(h) => MoveKeeps(s, h, s'.handlers[h], s.db.alertSeq);
    case Score(h, _) => MoveKeeps(s, h, s'.handlers[h], s.db.alertSeq);
    case TakeAlertId(h) => MoveKeeps(s, h, s'.handlers[h], s.db.alertSeq + 1);
    case ReplayStored(h) => MoveKeeps(s, h, s'.handlers[h], s.db.alertSeq);
    case Stop(h) => MoveKeeps(s, h, s'.handlers[h], s.db.alertSeq);
  }

  lemma DetectKeeps(s: State, alert: Alert)
    requires Ok(s) && alert.key.None?
    ensures Ok(Apply(s, Detect(alert)))
  {
    var s' := Apply(s, Detect(alert));
    assert forall id :: id in s.db.alerts ==> id != s.db.alertSeq;
  }

  lemma {:induction false} EveryRunOk(start: Db, trace: seq<Step>)
    requires DbOk(start)
    ensures Ok(After(start, trace))
  {
    if trace == [] {
    } else {
      EveryRunOk(start, trace[..|trace| - 1]);
      StepKeeps(After(start, trace[..|trace| - 1]), trace[|trace| - 1]);
    }
  }

  // ---------- what a caller that retries can rely on ----------

  /** At most one row is ever stored under a non-empty txnRef. */
  lemma OneDecisionPerKey(start: Db, trace: seq<Step>, i: nat, j: nat)
    requires DbOk(start)
    requires var rows := After(start, trace).db.decisions;
             i < |rows| && j < |rows| && rows[i].key == rows[j].key && rows[i].key.txnRef != ""
    ensures i == j
  {
    EveryRunOk(start, trace);
  }

  /** Scoring alerts and HOLD rows match one to one: every HOLD has its alert, and every alert exactly one HOLD. */
  lemma AlertsMatchHolds(start: Db, trace: seq<Step>)
    requires DbOk(start)
    ensures var db := After(start, trace).db;
            && (forall i :: 0 <= i < |db.decisions| && db.decisions[i].decision == HOLD ==>
                  exists id :: Raised(db.decisions, i, id) && id in db.alerts
                               && db.alerts[id].key == Some(db.decisions[i].key))
            && (forall id :: id in db.alerts && db.alerts[id].key.Some? ==>
                  exists i: nat :: Raised(db.decisions, i, id) && db.decisions[i].decision == HOLD)
            && (forall id, i: nat, j: nat :: Raised(db.decisions, i, id) && Raised(db.decisions, j, id) ==> i == j)
  {
    EveryRunOk(start, trace);
    var db := After(start, trace).db;
    forall i | 0 <= i < |db.decisions| && db.decisions[i].decision == HOLD
      ensures exists id :: Raised(db.decisions, i, id) && id in db.alerts
                           && db.alerts[id].key == Some(db.decisions[i].key)
    {
      assert RowOk(db.decisions[i], db.alerts);
      assert Raised(db.decisions, i, db.decisions[i].alertId.value);
    }
    forall id | id in db.alerts && db.alerts[id].key.Some?
      ensures exists i: nat :: Raised(db.decisions, i, id) && db.decisions[i].decision == HOLD
    {
      var i: nat :| Raised(db.decisions, i, id);
      assert RowOk(db.decisions[i], db.alerts);
    }
  }

  /** However often a keyed call is retried, it leaves at most one alert behind. */
  lemma OneAlertPerKey(start: Db, trace: seq<Step>, a: nat, b: nat)
    requires DbOk(start)
    requires var alerts := After(start, trace).db.alerts;
             && a in alerts && b in alerts && alerts[a].key == alerts[b].key
             && alerts[a].key.Some? && alerts[a].key.value.txnRef != ""
    ensures a == b
  {
    EveryRunOk(start, trace);
    var db := After(start, trace).db;
    var i: nat :| Raised(db.decisions, i, a);
    var j: nat :| Raised(db.decisions, j, b);
    assert RowOk(db.decisions[i], db.alerts) && RowOk(db.decisions[j], db.alerts);
    OneDecisionPerKey(start, trace, i, j);
  }

  /** A handler that lost the insert race always finds the winner's row. */
  lemma ConflictAlwaysFindsTheRow(start: Db, trace: seq<Step>, h: nat)
    requires DbOk(start) && h in After(start, trace).handlers
    ensures !After(start, trace).handlers[h].Failed?
  {
    EveryRunOk(start, trace);
  }

  lemma {:induction false} RowsOnlyAppended(start: Db, trace: seq<Step>, n: nat)
    requires n <= |trace|
    ensures After(start, trace[..n]).db.decisions <= After(start, trace).db.decisions
  {
    if n == |trace| {
      assert trace[..n] == trace;
    } else {
      var init := trace[..|trace| - 1];
      RowsOnlyAppended(start, init, n);
      assert init[..n] == trace[..n];
    }
  }

  /**
   Once a decision is stored, every later or concurrent successful answer for its key is that decision,
   alert and intervention included, whatever the retries would have scored.
   */
  lemma FirstDecisionWins(start: Db, trace: seq<Step>, n: nat, i: nat, h: nat)
    requires DbOk(start) && n <= |trace|
    requires i < |After(start, trace[..n]).db.decisions|
    requires var row := After(start, trace[..n]).db.decisions[i];
             && row.key.txnRef != "" && h in After(start, trace).handlers
             && After(start, trace).handlers[h].Done? && After(start, trace).handlers[h].key == row.key
    ensures After(start, trace).handlers[h].response == Replay(After(start, trace[..n]).db.decisions[i])
  {
    EveryRunOk(start, trace);
    RowsOnlyAppended(start, trace, n);
    var s := After(start, trace);
    assert AnswerOk(s.handlers[h], s.db.decisions);
    var j :| 0 <= j < |s.db.decisions| && s.db.decisions[j].key == s.handlers[h].key
             && Replay(s.db.decisions[j]) == s.handlers[h].response;
    assert s.db.decisions[i] == After(start, trace[..n]).db.decisions[i];
    OneDecisionPerKey(start, trace, i, j);
  }

  /** All successful answers for one non-empty txnRef agree on every field. */
  lemma AnswersAgree(start: Db, trace: seq<Step>, h: nat, g: nat)
    requires DbOk(start)
    requires var w := After(start, trace).handlers;
             && h in w && g in w && w[h].Done? && w[g].Done? && w[h].key == w[g].key && w[h].key.txnRef != ""
    ensures After(start, trace).handlers[h].response == After(start, trace).handlers[g].response
  {
    EveryRunOk(start, trace);
    var s := After(start, trace);
    assert AnswerOk(s.handlers[h], s.db.decisions);
    var i :| 0 <= i < |s.db.decisions| && s.db.decisions[i].key == s.handlers[h].key
             && Replay(s.db.decisions[i]) == s.handlers[h].response;
    assert trace[..|trace|] == trace;
    FirstDecisionWins(start, trace, |trace|, i, g);
  }

  function OneCall(h: nat, key: Key, v: Verdict): seq<Step> {
    [Arrive(h, key), Lookup(h), Score(h, v), TakeAlertId(h), Insert(h, true)]
  }

  lemma CallStates(s: State, h: nat, key: Key, v: Verdict) returns (s1: State, s2: State, s3: State, s4: State, s5: State)
    requires key.txnRef == "" && v.decision == HOLD && h !in s.handlers
    ensures s1 == Apply(s, Arrive(h, key)) && s2 == Apply(s1, Lookup(h)) && s3 == Apply(s2, Score(h, v))
    ensures s4 == Apply(s3, TakeAlertId(h)) && s5 == Apply(s4, Insert(h, true))
    ensures var id := s.db.alertSeq;
      s5 == State(Db(s.db.decisions + [RowOf(key, v, Some(id))], s.db.alerts[id := AlertOf(key, v)], id + 1),
                  s.handlers[h := Done(key, Fresh(v, Some(id)))])
  {
    s1 := s.(handlers := s.handlers[h := Started(key)]);
    s2 := s.(handlers := s.handlers[h := Deciding(key)]);
    s3 := s.(handlers := s.handlers[h := Drafted(key, v)]);
    s4 := State(s.db.(alertSeq := s.db.alertSeq + 1), s.handlers[h := Holding(key, v, s.db.alertSeq)]);
    s5 := Apply(s4, Insert(h, true));
  }

  /** Without a txnRef nothing is deduplicated: after any run, one more HOLD call adds a row and an open alert. */
  lemma UnkeyedCallAlwaysRaises(start: Db, trace: seq<Step>, h: nat, key: Key, v: Verdict)
    requires key.txnRef == "" && v.decision == HOLD && h !in After(start, trace).handlers
    ensures var s := After(start, trace);
            var id := s.db.alertSeq;
            After(start, trace + OneCall(h, key, v))
              == State(Db(s.db.decisions + [RowOf(key, v, Some(id))], s.db.alerts[id := AlertOf(key, v)], id + 1),
                       s.handlers[h := Done(key, Fresh(v, Some(id)))])
  {
    var s := After(start, trace);
    var s1, s2, s3, s4, s5 := CallStates(s, h, key, v);
    var t1 := trace + [Arrive(h, key)];
    var t2 := t1 + [Lookup(h)];
    var t3 := t2 + [Score(h, v)];
    var t4 := t3 + [TakeAlertId(h)];
    Extend(start, trace, Arrive(h, key), s, s1);
    Extend(start, t1, Lookup(h), s1, s2);
    Extend(start, t2, Score(h, v), s2, s3);
    Extend(start, t3, TakeAlertId(h), s3, s4);
    Extend(start, t4, Insert(h, true), s4, s5);
    assert t4 + [Insert(h, true)] == trace + OneCall(h, key, v);
  }

  lemma Extend(start: Db, trace: seq<Step>, step: Step, s: State, t: State)
    requires After(start, trace) == s && Apply(s, step) == t
    ensures After(start, trace + [step]) == t
  {
    assert (trace + [step])[..|trace|] == trace;
  }

  // ---------- where every answer comes from ----------

  /** In the run, a handler of this key scored this verdict. */
  ghost predicate Scored(start: Db, trace: seq<Step>, key: Key, v: Verdict) {
    trace != [] &&
    (var before, step := trace[..|trace| - 1], trace[|trace| - 1];
     || Scored(start, before, key, v)
     || (step.Score? && step.v == v && step.h in After(start, before).handlers
         && After(start, before).handlers[step.h] == Deciding(key)))
  }

  /** What the bank is told to do: a held payment goes to an analyst, a coached payer is warned, another identified. */
  function Advice(decision: Decision, threat: Option<string>): Option<string> {
    if decision == HOLD then Some("ANALYST_REVIEW")
    else if decision == ALLOW then None
    else if threat == Some("APP Scam") then Some("SCAM_WARNING")
    else Some("IDENTITY")
  }

  /** A row or an answer says what the verdict says. */
  predicate SaysRow(row: Row, v: Verdict) {
    && row.decision == v.decision && row.score == v.score && row.reasons == v.reasons && row.signals == v.signals
    && row.threat == (if v.threat == "" then None else Some(v.threat))
    && (row.alertId.Some? <==> v.decision == HOLD) && row.intervention == Advice(row.decision, row.threat)
  }

  predicate Says(response: Response, v: Verdict) {
    && response.decision == v.decision && response.score == v.score && response.reasons == v.reasons
    && response.signals == v.signals && response.threat == (if v.threat == "" then None else Some(v.threat))
    && (response.alertId.Some? <==> v.decision == HOLD)
    && response.intervention == Advice(response.decision, response.threat)
  }

  /** An answer repeats a stored row; a row older than the intervention column has it filled in. */
  predicate Repeats(response: Response, row: Row) {
    && response.decision == row.decision && response.score == row.score && response.reasons == row.reasons
    && response.signals == row.signals && response.threat == row.threat && response.alertId == row.alertId
    && response.intervention == (if row.intervention.Some? then row.intervention else Advice(row.decision, row.threat))
  }

  lemma ReplayRepeats(row: Row)
    ensures Repeats(Replay(row), row)
  {}

  lemma RowSays(key: Key, v: Verdict, alertId: Option<nat>)
    requires alertId.Some? <==> v.decision == HOLD
    ensures SaysRow(RowOf(key, v, alertId), v)
  {}

  /** The row was there at the start, or says a verdict of the run. */
  ghost predicate RowFrom(start: Db, trace: seq<Step>, row: Row) {
    row in start.decisions || exists v :: Scored(start, trace, row.key, v) && SaysRow(row, v)
  }

  predicate Bears(w: Handler) {
    w.Drafted? || w.Holding?
  }

  ghost predicate AllFrom(start: Db, trace: seq<Step>, s: State) {
    && (forall i :: 0 <= i < |s.db.decisions| ==> RowFrom(start, trace, s.db.decisions[i]))
    && forall h :: h in s.handlers && Bears(s.handlers[h]) ==> Scored(start, trace, s.handlers[h].key, s.handlers[h].v)
  }

  lemma RowStaysFrom(start: Db, trace: seq<Step>, row: Row)
    requires trace != [] && RowFrom(start, trace[..|trace| - 1], row)
    ensures RowFrom(start, trace, row)
  {
    if row !in start.decisions {
      var v :| Scored(start, trace[..|trace| - 1], row.key, v) && SaysRow(row, v);
      assert Scored(start, trace, row.key, v);
    }
  }

  /** A step adds at most one row, that of the handler that inserts, and drafts only what it scores. */
  lemma StepAdds(s: State, step: Step)
    requires HandlersOk(s)
    ensures var t := Apply(s, step);
      && (t.db.decisions == s.db.decisions ||
           (step.Insert? && step.h in s.handlers && Bears(s.handlers[step.h]) &&
            var w := s.handlers[step.h];
            (AlertIdOf(w).Some? <==> w.v.decision == HOLD)
              && t.db.decisions == s.db.decisions + [RowOf(w.key, w.v, AlertIdOf(w))]))
    ensures var t := Apply(s, step);
      forall h :: h in t.handlers && Bears(t.handlers[h]) ==>
        || (h in s.handlers && Bears(s.handlers[h])
            && t.handlers[h].key == s.handlers[h].key && t.handlers[h].v == s.handlers[h].v)
        || (step.Score? && step.h == h && h in s.handlers && s.handlers[h] == Deciding(t.handlers[h].key)
            && t.handlers[h].v == step.v)
  {}

  lemma {:induction false} EveryRowFrom(start: Db, trace: seq<Step>)
    requires DbOk(start)
    ensures AllFrom(start, trace, After(start, trace))
  {
    if trace != [] {
      var before, step := trace[..|trace| - 1], trace[|trace| - 1];
      var s, t := After(start, before), After(start, trace);
      EveryRowFrom(start, before);
      EveryRunOk(start, before);
      StepAdds(s, step);
      forall i | 0 <= i < |t.db.decisions| ensures RowFrom(start, trace, t.db.decisions[i]) {
        if i < |s.db.decisions| {
          RowStaysFrom(start, trace, s.db.decisions[i]);
        } else {
          var w := s.handlers[step.h];
          RowSays(w.key, w.v, AlertIdOf(w));
          assert Scored(start, trace, w.key, w.v);
        }
      }
    }
  }

  /**
   In every run each answer either repeats a row that was there before, or says exactly one verdict that was scored
   for its key: decision, score, reasons, signals and threat, an alert exactly when it is a hold, and then the
   review by an analyst, fresh or replayed.
   */
  lemma AnswerSays(start: Db, trace: seq<Step>, h: nat)
    requires DbOk(start) && h in After(start, trace).handlers && After(start, trace).handlers[h].Done?
    ensures var w := After(start, trace).handlers[h];
      || (exists row :: row in start.decisions && row.key == w.key && Repeats(w.response, row))
      || (exists v :: Scored(start, trace, w.key, v) && Says(w.response, v))
  {
    EveryRunOk(start, trace);
    EveryRowFrom(start, trace);
    var s := After(start, trace);
    var w := s.handlers[h];
    assert AnswerOk(w, s.db.decisions);
    var i :| 0 <= i < |s.db.decisions| && s.db.decisions[i].key == w.key && Replay(s.db.decisions[i]) == w.response;
    ReplayRepeats(s.db.decisions[i]);
    if s.db.decisions[i] !in start.decisions {
      var v :| Scored(start, trace, w.key, v) && SaysRow(s.db.decisions[i], v);
      assert Says(w.response, v);
    }
  }

  /** A hold is always sent to an analyst, unless a row from before the run says otherwise. */
  lemma HoldGoesToAnalyst(start: Db, trace: seq<Step>, h: nat)
    requires DbOk(start) && h in After(start, trace).handlers && After(start, trace).handlers[h].Done?
    requires forall i :: 0 <= i < |start.decisions| && start.decisions[i].decision == HOLD ==>
               start.decisions[i].intervention in {None, Some("ANALYST_REVIEW")}
    ensures var r := After(start, trace).handlers[h].response;
      r.decision == HOLD ==> r.intervention == Some("ANALYST_REVIEW") && r.alertId.Some?
  {
    AnswerSays(start, trace, h);
    var w := After(start, trace).handlers[h];
    if exists row :: row in start.decisions && row.key == w.key && Repeats(w.response, row) {
      var row :| row in start.decisions && row.key == w.key && Repeats(w.response, row);
      assert RowOk(row, start.alerts);
    }
  }
}
