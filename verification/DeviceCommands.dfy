/**
 The kill switch from the analyst's action row to the device: a pending command rides the response of any
 request that names its session, and is marked delivered before that response is known to have arrived.
 */
module DeviceCommands {
  import opened Prelude
  import Expo = ExpoSession

  datatype DeviceStatus = NotForDevice | Pending | Delivered

  /** A row of actions, as far as its device leg goes. */
  datatype Action = Action(id: string, kind: string, session: nat, status: DeviceStatus)

  function Command(a: Action): Expo.Command {
    Expo.Command(a.id, a.kind, Some(a.session))
  }

  /** Pending rows for the sessions, in table order. */
  function PendingFor(rows: seq<Action>, sessions: set<nat>): seq<Action> {
    if rows == [] then [] else
      var a := rows[|rows| - 1];
      PendingFor(rows[..|rows| - 1], sessions) + if a.status == Pending && a.session in sessions then [a] else []
  }

  function Ids(batch: seq<Action>): set<string> {
    set a | a in batch :: a.id
  }

  /** Rows with one of the ids become delivered. */
  function Mark(rows: seq<Action>, ids: set<string>): (r: seq<Action>)
    ensures |r| == |rows|
    ensures forall i :: 0 <= i < |rows| ==> r[i] == if rows[i].id in ids then rows[i].(status := Delivered) else rows[i]
  {
    if rows == [] then [] else
      var a := rows[|rows| - 1];
      Mark(rows[..|rows| - 1], ids) + [if a.id in ids then a.(status := Delivered) else a]
  }

  function SessionsOf(events: seq<Option<nat>>): set<nat> {
    if events == [] then {} else
      SessionsOf(events[..|events| - 1]) + if events[|events| - 1].Some? then {events[|events| - 1].value} else {}
  }

  /** The sessions a request names: those of its events, and the one in its header. */
  function Named(events: seq<Option<nat>>, header: Option<nat>): set<nat> {
    SessionsOf(events) + if header.Some? then {header.value} else {}
  }

  function Commands(batch: seq<Action>): seq<Expo.Command> {
    if batch == [] then [] else Commands(batch[..|batch| - 1]) + [Command(batch[|batch| - 1])]
  }

  class ActionStore {
    var rows: seq<Action>

    constructor (start: seq<Action>)
      ensures rows == start
    {
      rows := start;
    }

    static method Sessions(events: seq<Option<nat>>, header: Option<nat>) returns (sessions: set<nat>)
      ensures sessions == Named(events, header)
    {
      sessions := {};
      for i := 0 to |events|
        invariant sessions == SessionsOf(events[..i])
      {
        assert events[..i + 1][..i] == events[..i];
        if events[i].Some? { sessions := sessions + {events[i].value}; }
      }
      assert events[..|events|] == events;
      if header.Some? { sessions := sessions + {header.value}; }
    }

    static method Render(pending: seq<Action>) returns (ids: set<string>, out: seq<Expo.Command>)
      ensures ids == Ids(pending) && out == Commands(pending)
    {
      ids, out := {}, [];
      for i := 0 to |pending|
        invariant ids == Ids(pending[..i]) && out == Commands(pending[..i])
      {
        assert pending[..i + 1][..i] == pending[..i];
        assert pending[..i + 1] == pending[..i] + [pending[i]];
        ids := ids + {pending[i].id};
        out := out + [Command(pending[i])];
      }
      assert pending[..|pending|] == pending;
    }

    /**
     Distinct sessions first, then the pending rows, then the mark. A failed read answers without commands; a
     failed mark leaves the rows pending, to be sent again.
     */
    method DeviceCommandLeg(events: seq<Option<nat>>, header: Option<nat>, readOk: bool, markOk: bool)
      returns (out: seq<Expo.Command>)
      modifies this
      ensures var batch := if readOk then PendingFor(old(rows), Named(events, header)) else [];
              && out == Commands(batch)
              && rows == if markOk then Mark(old(rows), Ids(batch)) else old(rows)
    {
      var sessions := Sessions(events, header);
      NothingMarked(rows);
      if !readOk { return []; }
      var pending := PendingFor(rows, sessions);
      var ids;
      ids, out := Render(pending);
      if markOk { rows := Mark(rows, ids); }
    }
  }

  lemma NothingMarked(rows: seq<Action>)
    ensures Mark(rows, {}) == rows && Ids([]) == {}
  {}

  // ---------- runs ----------

  /**
   `fetched` are requests between their read and their mark, `responses` those on their way to the device, both
   by request number. `received` and `lost` are history: the ids of commands that arrived, and that were in a
   response that did not.
   */
  datatype State = State(rows: seq<Action>, fetched: map<nat, seq<Action>>, responses: map<nat, seq<Action>>,
                         received: set<string>, lost: set<string>, sdk: Expo.Sdk)

  datatype Step =
    | Issue(id: string, session: nat)
    | Read(request: nat, sessions: set<nat>)
    | MarkAndAnswer(request: nat, ok: bool)
    | Lose(request: nat)
    | Receive(request: nat)
    | Logout
    | Track(name: string)

  const Start := State([], map[], map[], {}, {}, Expo.Fresh)

  predicate HasId(rows: seq<Action>, id: string) {
    exists i :: 0 <= i < |rows| && rows[i].id == id
  }

  predicate Enabled(s: State, step: Step) {
    match step
    case Issue(id, _) => !HasId(s.rows, id)
    case Read(request, _) => request !in s.fetched && request !in s.responses
    case MarkAndAnswer(request, _) => request in s.fetched && request !in s.responses
    case Lose(request) => request in s.responses
    case Receive(request) => request in s.responses
    case _ => true
  }

  /** A step that is not enabled leaves the state as it is. */
  function Apply(s: State, step: Step): State {
    if !Enabled(s, step) then s else
    match step
    case Issue(id, session) => s.(rows := s.rows + [Action(id, Expo.TERMINATE, session, Pending)])
    case Read(request, sessions) => s.(fetched := s.fetched[request := PendingFor(s.rows, sessions)])
    case MarkAndAnswer(request, ok) =>
      var batch := s.fetched[request];
      s.(fetched := s.fetched - {request}, responses := s.responses[request := batch],
         rows := if ok then Mark(s.rows, Ids(batch)) else s.rows)
    case Lose(request) =>
      s.(responses := s.responses - {request}, lost := s.lost + Ids(s.responses[request]))
    case Receive(request) =>
      s.(responses := s.responses - {request}, received := s.received + Ids(s.responses[request]),
         sdk := Expo.HandleAll(s.sdk, Commands(s.responses[request])))
    case Logout => s.(sdk := Expo.Logout(s.sdk))
    case Track(name) => s.(sdk := Expo.Emit(s.sdk, Expo.Telemetry(name)))
  }

  function After(s: State, trace: seq<Step>): State {
    if trace == [] then s else Apply(After(s, trace[..|trace| - 1]), trace[|trace| - 1])
  }

  // ---------- where a command is ----------

  predicate Holds(batches: map<nat, seq<Action>>, request: nat, id: string) {
    request in batches && id in Ids(batches[request])
  }

  /** Some request still carries the command. */
  ghost predicate Carried(s: State, id: string) {
    exists request :: Holds(s.fetched, request, id) || Holds(s.responses, request, id)
  }

  ghost predicate DistinctIds(rows: seq<Action>) {
    forall i, j :: 0 <= i < j < |rows| ==> rows[i].id != rows[j].id
  }

  predicate Marked(rows: seq<Action>, id: string) {
    exists i :: 0 <= i < |rows| && rows[i].id == id && rows[i].status == Delivered
  }

  ghost predicate Placed(s: State) {
    forall id :: Marked(s.rows, id) ==> Carried(s, id) || id in s.received || id in s.lost
  }

  /** The device ends sessions only on commands it received. */
  predicate Caused(s: State, session: nat) {
    exists i :: 0 <= i < |s.rows| && s.rows[i].session == session && s.rows[i].id in s.received
  }

  /** Batches were read from the table. */
  predicate Known(rows: seq<Action>, a: Action) {
    exists i :: 0 <= i < |rows| && rows[i].id == a.id && rows[i].session == a.session
  }

  ghost predicate BatchesOk(batches: map<nat, seq<Action>>, rows: seq<Action>) {
    forall request, a :: request in batches && a in batches[request] ==> Known(rows, a)
  }

  ghost predicate Ok(s: State) {
    && DistinctIds(s.rows) && Placed(s)
    && BatchesOk(s.fetched, s.rows) && BatchesOk(s.responses, s.rows)
    && forall t :: t in s.sdk.terminated ==> Caused(s, t)
  }

  lemma {:induction false} PendingIsFrom(rows: seq<Action>, sessions: set<nat>, a: Action)
    requires a in PendingFor(rows, sessions)
    ensures a in rows && a.status == Pending && a.session in sessions
  {
    if a in PendingFor(rows[..|rows| - 1], sessions) {
      PendingIsFrom(rows[..|rows| - 1], sessions, a);
    }
  }

  lemma KnownStays(rows: seq<Action>, more: seq<Action>, a: Action)
    requires Known(rows, a) && |rows| <= |more|
    requires forall i :: 0 <= i < |rows| ==> more[i].id == rows[i].id && more[i].session == rows[i].session
    ensures Known(more, a)
  {
    var i :| 0 <= i < |rows| && rows[i].id == a.id && rows[i].session == a.session;
    assert more[i].id == a.id;
  }

  /** Handling a batch only ends sessions that the batch targets. */
  lemma {:induction false} HandleAllEnds(k: Expo.Sdk, batch: seq<Action>, t: nat)
    requires t in Expo.HandleAll(k, Commands(batch)).terminated
    ensures t in k.terminated || exists a :: a in batch && a.session == t
  {
    if batch != [] {
      var init, last := batch[..|batch| - 1], batch[|batch| - 1];
      assert Commands(batch)[..|Commands(batch)| - 1] == Commands(init);
      var before := Expo.HandleAll(k, Commands(init));
      assert Expo.HandleAll(k, Commands(batch)) == Expo.Handle(before, Command(last));
      if t in before.terminated {
        HandleAllEnds(k, init, t);
      } else {
        assert last in batch && last.session == t;
      }
    }
  }

  lemma CarriedStays(s: State, t: State, id: string)
    requires Carried(s, id)
    requires forall r :: Holds(s.fetched, r, id) || Holds(s.responses, r, id) ==>
               Holds(t.fetched, r, id) || Holds(t.responses, r, id) || id in t.received || id in t.lost
    ensures Carried(t, id) || id in t.received || id in t.lost
  {
    var r :| Holds(s.fetched, r, id) || Holds(s.responses, r, id);
  }

  lemma IssueKeeps(s: State, id: string, session: nat)
    requires Ok(s) && Enabled(s, Issue(id, session))
    ensures Ok(Apply(s, Issue(id, session)))
  {
    var t := Apply(s, Issue(id, session));
    RowsGrow(s, t);
    forall m | Marked(t.rows, m) ensures Carried(t, m) || m in t.received || m in t.lost {
      assert Marked(s.rows, m);
      if Carried(s, m) { CarriedStays(s, t, m); }
    }
  }

  /** Facts that survive any change of statuses and any new rows. */
  lemma RowsGrow(s: State, t: State)
    requires BatchesOk(s.fetched, s.rows) && BatchesOk(s.responses, s.rows)
    requires |s.rows| <= |t.rows| && s.received <= t.received
    requires forall i :: 0 <= i < |s.rows| ==> t.rows[i].id == s.rows[i].id && t.rows[i].session == s.rows[i].session
    ensures BatchesOk(s.fetched, t.rows) && BatchesOk(s.responses, t.rows)
    ensures forall x :: Caused(s, x) ==> Caused(t, x)
  {
    forall request, a | request in s.fetched && a in s.fetched[request] ensures Known(t.rows, a) {
      KnownStays(s.rows, t.rows, a);
    }
    forall request, a | request in s.responses && a in s.responses[request] ensures Known(t.rows, a) {
      KnownStays(s.rows, t.rows, a);
    }
    forall x | Caused(s, x) ensures Caused(t, x) {
      var i :| 0 <= i < |s.rows| && s.rows[i].session == x && s.rows[i].id in s.received;
      assert t.rows[i].session == x;
    }
  }

  lemma ReadKeeps(s: State, request: nat, sessions: set<nat>)
    requires Ok(s) && Enabled(s, Read(request, sessions))
    ensures Ok(Apply(s, Read(request, sessions)))
  {
    var t := Apply(s, Read(request, sessions));
    RowsGrow(s, t);
    forall a | a in t.fetched[request] ensures Known(t.rows, a) {
      PendingIsFrom(s.rows, sessions, a);
      var i :| 0 <= i < |s.rows| && s.rows[i] == a;
      assert t.rows[i].id == a.id;
    }
    forall m | Marked(t.rows, m) ensures Carried(t, m) || m in t.received || m in t.lost {
      if Carried(s, m) { CarriedStays(s, t, m); }
    }
  }

  lemma MarkKeeps(s: State, request: nat, ok: bool)
    requires Ok(s) && Enabled(s, MarkAndAnswer(request, ok))
    ensures Ok(Apply(s, MarkAndAnswer(request, ok)))
  {
    var t := Apply(s, MarkAndAnswer(request, ok));
    RowsGrow(s, t);
    forall m | Marked(t.rows, m) ensures Carried(t, m) || m in t.received || m in t.lost {
      if m in Ids(s.fetched[request]) {
        assert Holds(t.responses, request, m);
      } else {
        assert Marked(s.rows, m);
        if Carried(s, m) { CarriedStays(s, t, m); }
      }
    }
  }

  lemma LoseKeeps(s: State, request: nat)
    requires Ok(s) && Enabled(s, Lose(request))
    ensures Ok(Apply(s, Lose(request)))
  {
    var t := Apply(s, Lose(request));
    RowsGrow(s, t);
    forall m | Marked(t.rows, m) ensures Carried(t, m) || m in t.received || m in t.lost {
      if Carried(s, m) { CarriedStays(s, t, m); }
    }
  }

  lemma ReceiveKeeps(s: State, request: nat)
    requires Ok(s) && Enabled(s, Receive(request))
    ensures Ok(Apply(s, Receive(request)))
  {
    var t := Apply(s, Receive(request));
    RowsGrow(s, t);
    forall m | Marked(t.rows, m) ensures Carried(t, m) || m in t.received || m in t.lost {
      if Carried(s, m) { CarriedStays(s, t, m); }
    }
    forall x | x in t.sdk.terminated ensures Caused(t, x) {
      HandleAllEnds(s.sdk, s.responses[request], x);
      if x !in s.sdk.terminated {
        var a :| a in s.responses[request] && a.session == x;
        assert Known(s.rows, a);
        var i :| 0 <= i < |s.rows| && s.rows[i].id == a.id && s.rows[i].session == a.session;
        assert t.rows[i].id in Ids(s.responses[request]);
      }
    }
  }

  lemma StepKeeps(s: State, step: Step)
    requires Ok(s)
    ensures Ok(Apply(s, step))
  {
    if !Enabled(s, step) { return; }
    match step
    case Issue(id, session) => IssueKeeps(s, id, session);
    case Read(request, sessions) => ReadKeeps(s, request, sessions);
    case MarkAndAnswer(request, ok) => MarkKeeps(s, request, ok);
    case Lose(request) => LoseKeeps(s, request);
    case Receive(request) => ReceiveKeeps(s, request);
    case _ => QuietKeeps(s, Apply(s, step));
  }

  lemma QuietKeeps(s: State, t: State)
    requires Ok(s) && t == s.(sdk := t.sdk) && t.sdk.terminated == s.sdk.terminated
    ensures Ok(t)
  {
    RowsGrow(s, t);
    forall m | Marked(t.rows, m) ensures Carried(t, m) || m in t.received || m in t.lost {
      if Carried(s, m) { CarriedStays(s, t, m); }
    }
  }

  lemma {:induction false} EveryRunOk(s: State, trace: seq<Step>)
    requires Ok(s)
    ensures Ok(After(s, trace))
  {
    if trace == [] {
    } else {
      EveryRunOk(s, trace[..|trace| - 1]);
      StepKeeps(After(s, trace[..|trace| - 1]), trace[|trace| - 1]);
    }
  }

  // ---------- delivery ----------

  /** A command marked delivered is still on its way, has arrived, or was in a response that did not. */
  lemma DeliveredMeans(trace: seq<Step>, id: string)
    requires Marked(After(Start, trace).rows, id)
    ensures var s := After(Start, trace); Carried(s, id) || id in s.received || id in s.lost
  {
    EveryRunOk(Start, trace);
  }

  lemma {:induction false} NothingLost(trace: seq<Step>)
    requires forall i :: 0 <= i < |trace| ==> !trace[i].Lose?
    ensures After(Start, trace).lost == {}
  {
    if trace != [] {
      NothingLost(trace[..|trace| - 1]);
    }
  }

  /** Without lost responses, every command marked delivered reaches the device once its requests are over. */
  lemma LosslessDelivers(trace: seq<Step>, id: string)
    requires forall i :: 0 <= i < |trace| ==> !trace[i].Lose?
    requires Marked(After(Start, trace).rows, id) && !Carried(After(Start, trace), id)
    ensures id in After(Start, trace).received
  {
    DeliveredMeans(trace, id);
    NothingLost(trace);
  }

  /** Marked delivered, on no request any more, and never arrived. */
  ghost predicate Gone(s: State, id: string) {
    && Marked(s.rows, id) && DistinctIds(s.rows) && id !in s.received
    && forall r :: !Holds(s.fetched, r, id) && !Holds(s.responses, r, id)
  }

  /** A new read picks pending rows only, so it does not pick this one. */
  lemma NotReadAgain(rows: seq<Action>, sessions: set<nat>, id: string)
    requires Marked(rows, id) && DistinctIds(rows)
    ensures id !in Ids(PendingFor(rows, sessions))
  {
    if id in Ids(PendingFor(rows, sessions)) {
      var a :| a in PendingFor(rows, sessions) && a.id == id;
      PendingIsFrom(rows, sessions, a);
    }
  }

  lemma MarkedStays(s: State, step: Step, id: string)
    requires Marked(s.rows, id)
    ensures Marked(Apply(s, step).rows, id)
  {
    var k :| 0 <= k < |s.rows| && s.rows[k].id == id && s.rows[k].status == Delivered;
    assert Apply(s, step).rows[k].id == id;
  }

  lemma NotCarriedStep(s: State, step: Step, id: string, r: nat)
    requires Gone(s, id)
    ensures !Holds(Apply(s, step).fetched, r, id) && !Holds(Apply(s, step).responses, r, id)
  {
    assert !Holds(s.fetched, r, id) && !Holds(s.responses, r, id);
    if step.Read? { NotReadAgain(s.rows, step.sessions, id); }
  }

  lemma GoneStep(s: State, step: Step, id: string)
    requires Gone(s, id)
    ensures Gone(Apply(s, step), id)
  {
    var t := Apply(s, step);
    MarkedStays(s, step, id);
    forall r ensures !Holds(t.fetched, r, id) && !Holds(t.responses, r, id) { NotCarriedStep(s, step, id, r); }
    if step.Receive? { assert !Holds(s.responses, step.request, id); }
  }

  lemma {:induction false} GoneForever(s: State, trace: seq<Step>, id: string)
    requires Gone(s, id)
    ensures Gone(After(s, trace), id)
  {
    if trace == [] {
    } else {
      GoneForever(s, trace[..|trace| - 1], id);
      GoneStep(After(s, trace[..|trace| - 1]), trace[|trace| - 1], id);
    }
  }

  /** No row but this one targets the session. */
  ghost predicate OnlyTarget(rows: seq<Action>, session: nat, id: string) {
    forall i :: 0 <= i < |rows| && rows[i].session == session ==> rows[i].id == id
  }

  /**
   The mark comes before the response is known to have arrived, so one lost response is final: after any run,
   a command marked delivered that no request carries and that did not arrive never will, and if no other row
   targets its session the kill switch never reaches it, however often the device polls.
   */
  lemma LostResponseIsFinal(trace: seq<Step>, more: seq<Step>, id: string, session: nat)
    requires var s := After(Start, trace);
             && Marked(s.rows, id) && !Carried(s, id) && id !in s.received
    requires OnlyTarget(After(After(Start, trace), more).rows, session, id)
    ensures var s := After(After(Start, trace), more);
            id !in s.received && session !in s.sdk.terminated
  {
    EveryRunOk(Start, trace);
    var s := After(Start, trace);
    EveryRunOk(s, more);
    GoneForever(s, more, id);
  }

  /** A command that arrives while its session is current ends that session. */
  lemma {:induction false} ArrivalEnds(k: Expo.Sdk, batch: seq<Action>, a: Action)
    requires a in batch && a.kind == Expo.TERMINATE && a.session == k.sessionId
    ensures k.sessionId in Expo.HandleAll(k, Commands(batch)).terminated
    ensures k.terminated <= Expo.HandleAll(k, Commands(batch)).terminated
  {
    var init, last := batch[..|batch| - 1], batch[|batch| - 1];
    assert Commands(batch)[..|Commands(batch)| - 1] == Commands(init);
    var before := Expo.HandleAll(k, Commands(init));
    assert Expo.HandleAll(k, Commands(batch)) == Expo.Handle(before, Command(last));
    StillOrEnded(k, init);
    if a in init { ArrivalEnds(k, init, a); }
  }

  /** After handling a batch the session is still the same, or it was ended. */
  lemma {:induction false} StillOrEnded(k: Expo.Sdk, batch: seq<Action>)
    ensures var t := Expo.HandleAll(k, Commands(batch));
            (t.sessionId == k.sessionId || k.sessionId in t.terminated) && k.terminated <= t.terminated
  {
    if batch != [] {
      var init, last := batch[..|batch| - 1], batch[|batch| - 1];
      assert Commands(batch)[..|Commands(batch)| - 1] == Commands(init);
      StillOrEnded(k, init);
    }
  }

  // ---------- what one answer carries ----------

  /** Row i is pending, and its session is one the request names. */
  predicate Asked(rows: seq<Action>, events: seq<Option<nat>>, header: Option<nat>, i: nat)
    requires i < |rows|
  {
    rows[i].status == Pending && (header == Some(rows[i].session) || Some(rows[i].session) in events)
  }

  lemma {:induction false} NamedIff(events: seq<Option<nat>>, x: nat)
    ensures x in SessionsOf(events) <==> Some(x) in events
  {
    if events != [] {
      NamedIff(events[..|events| - 1], x);
      assert events == events[..|events| - 1] + [events[|events| - 1]];
    }
  }

  lemma {:induction false} CommandsAre(batch: seq<Action>)
    ensures |Commands(batch)| == |batch|
    ensures forall k :: 0 <= k < |batch| ==>
              Commands(batch)[k] == Expo.Command(batch[k].id, batch[k].kind, Some(batch[k].session))
  {
    if batch != [] { CommandsAre(batch[..|batch| - 1]); }
  }

  lemma PendingStep(rows: seq<Action>, events: seq<Option<nat>>, header: Option<nat>)
    requires rows != []
    ensures var n, named := |rows| - 1, Named(events, header);
      PendingFor(rows, named) == PendingFor(rows[..n], named) + if Asked(rows, events, header, n) then [rows[n]] else []
  {
    NamedIff(events, rows[|rows| - 1].session);
  }

  lemma AskedEarlier(rows: seq<Action>, events: seq<Option<nat>>, header: Option<nat>, n: nat)
    requires n <= |rows|
    ensures forall i: nat :: i < n ==> Asked(rows[..n], events, header, i) == Asked(rows, events, header, i)
  {}

  lemma {:induction false} PendingIs(rows: seq<Action>, events: seq<Option<nat>>, header: Option<nat>) returns (at: seq<nat>)
    ensures var batch := PendingFor(rows, Named(events, header));
      && |at| == |batch| && (forall k, l :: 0 <= k < l < |at| ==> at[k] < at[l])
      && forall k :: 0 <= k < |at| ==> at[k] < |rows| && batch[k] == rows[at[k]]
    ensures forall i: nat :: i < |rows| ==> (Asked(rows, events, header, i) <==> i in at)
  {
    if rows == [] {
      at := [];
    } else {
      var n: nat := |rows| - 1;
      at := PendingIs(rows[..n], events, header);
      AskedEarlier(rows, events, header, n);
      PendingStep(rows, events, header);
      assert n !in at;
      if Asked(rows, events, header, n) { at := at + [n]; }
    }
  }

  /**
   The answer to a request carries, in table order, exactly the pending commands for the sessions its events and its
   header name, each with its own id, kind and session: `at` is where each came from.
   */
  lemma AnswerIs(rows: seq<Action>, events: seq<Option<nat>>, header: Option<nat>) returns (at: seq<nat>)
    ensures var out := Commands(PendingFor(rows, Named(events, header)));
      && |at| == |out| && (forall k, l :: 0 <= k < l < |at| ==> at[k] < at[l])
      && forall k :: 0 <= k < |at| ==>
           at[k] < |rows| && out[k] == Expo.Command(rows[at[k]].id, rows[at[k]].kind, Some(rows[at[k]].session))
    ensures forall i: nat :: i < |rows| ==> (Asked(rows, events, header, i) <==> i in at)
  {
    at := PendingIs(rows, events, header);
    CommandsAre(PendingFor(rows, Named(events, header)));
  }
}
