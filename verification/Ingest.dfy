/**
 Storing an SDK batch for one tenant: deduplication on the event id, the incremental upserts of the
 sessions, devices, app_users and user_devices tables, and the append to the event rows. "" stands
 for SQL NULL, timestamps are milliseconds, and `now` is the clock read while the batch is stored.
 */
module Ingest {
  import opened Prelude

  /** `simFlag` is what decoding the payload as SIM telemetry yields. */
  datatype Event = Event(eventId: string, typ: string, sessionId: string, installId: string,
                         userRef: string, ts: int, payload: string, simFlag: bool)

  datatype Row = Row(eventId: string, typ: string, sessionId: string, installId: string,
                     userRef: string, at: int, payload: string, sim: bool)

  /** The five columns of a session that later batches keep merging into. */
  datatype Agg = Agg(count: nat, first: int, last: int, sim: bool, user: string)

  datatype Session = Session(installId: string, agg: Agg)

  datatype Device = Device(firstSeen: int, lastSeen: int, fingerprint: string)

  datatype Seen = Seen(firstSeen: int, lastSeen: int, sessionCount: nat)

  datatype Db = Db(rows: seq<Row>, sessions: map<string, Session>, devices: map<string, Device>,
                   users: map<string, Seen>, userDevices: map<(string, string), Seen>)

  const Empty := Db([], map[], map[], map[], map[])

  function Min(a: int, b: int): int { if a < b then a else b }

  function Max(a: int, b: int): int { if a > b then a else b }

  function Coalesce(a: string, b: string): string { if a != "" then a else b }

  function MsToTime(ms: int, now: int): int { if ms <= 0 then now else ms }

  function IsSim(e: Event): bool { e.typ == "PASSIVE_SIM_TELEMETRY" && e.simFlag }

  function ToRow(e: Event, batchInstall: string, now: int): Row {
    Row(e.eventId, if e.typ == "" then "UNKNOWN" else e.typ, e.sessionId,
        Coalesce(e.installId, batchInstall), e.userRef, MsToTime(e.ts, now), e.payload, IsSim(e))
  }

  // ---------- deduplication ----------

  function Ids(rows: seq<Row>): set<string> {
    set r | r in rows && r.eventId != "" :: r.eventId
  }

  predicate Repeats(events: seq<Event>, id: string) {
    exists e :: e in events && e.eventId == id
  }

  /** Drops events whose id is known or occurs earlier in the batch; events without an id all pass. */
  function Dedupe(known: set<string>, events: seq<Event>): (out: seq<Event>) {
    if events == [] then [] else
      var rest := events[..|events| - 1];
      var e := events[|events| - 1];
      if e.eventId != "" && (e.eventId in known || Repeats(rest, e.eventId))
      then Dedupe(known, rest) else Dedupe(known, rest) + [e]
  }

  // ---------- one session's share of a batch ----------

  function Of(events: seq<Event>, sid: string): seq<Event> {
    if events == [] then [] else
      var rest := Of(events[..|events| - 1], sid);
      if events[|events| - 1].sessionId == sid then rest + [events[|events| - 1]] else rest
  }

  /** Session ids in order of first appearance. */
  function Order(events: seq<Event>): seq<string> {
    if events == [] then [] else
      var rest := Order(events[..|events| - 1]);
      var sid := events[|events| - 1].sessionId;
      if sid == "" || sid in rest then rest else rest + [sid]
  }

  function MinTs(evs: seq<Event>): int
    requires evs != []
  {
    if |evs| == 1 then evs[0].ts else Min(MinTs(evs[..|evs| - 1]), evs[|evs| - 1].ts)
  }

  function MaxTs(evs: seq<Event>): int
    requires evs != []
  {
    if |evs| == 1 then evs[0].ts else Max(MaxTs(evs[..|evs| - 1]), evs[|evs| - 1].ts)
  }

  function FirstInstall(evs: seq<Event>): string {
    if evs == [] then "" else Coalesce(FirstInstall(evs[..|evs| - 1]), evs[|evs| - 1].installId)
  }

  function FirstUser(evs: seq<Event>): string {
    if evs == [] then "" else Coalesce(FirstUser(evs[..|evs| - 1]), evs[|evs| - 1].userRef)
  }

  function AnySim(evs: seq<Event>): bool {
    evs != [] && (AnySim(evs[..|evs| - 1]) || IsSim(evs[|evs| - 1]))
  }

  function Fingerprint(evs: seq<Event>): string {
    if evs == [] then "" else
      var e := evs[|evs| - 1];
      Coalesce(Fingerprint(evs[..|evs| - 1]), if e.typ == "PASSIVE_DEVICE_FINGERPRINT" then e.payload else "")
  }

  function Summary(evs: seq<Event>, now: int): Agg
    requires evs != []
  {
    Agg(|evs|, MsToTime(MinTs(evs), now), MsToTime(MaxTs(evs), now), AnySim(evs), FirstUser(evs))
  }

  const Zero := Agg(0, 0, 0, false, "")

  /** LEAST, GREATEST, +, OR and COALESCE of the session upsert; a missing row is Zero. */
  function Merge(a: Agg, b: Agg): Agg {
    if a.count == 0 then b else if b.count == 0 then a else
      Agg(a.count + b.count, Min(a.first, b.first), Max(a.last, b.last), a.sim || b.sim, Coalesce(a.user, b.user))
  }

  function UpsertSeen<K>(m: map<K, Seen>, k: K, agg: Agg, inc: nat): map<K, Seen> {
    m[k := if k in m then Seen(m[k].firstSeen, Max(m[k].lastSeen, agg.last), m[k].sessionCount + inc)
           else Seen(agg.first, agg.last, inc)]
  }

  function UpsertDevice(m: map<string, Device>, install: string, agg: Agg, fingerprint: string): map<string, Device> {
    m[install := if install in m
                 then Device(m[install].firstSeen, Max(m[install].lastSeen, agg.last),
                             Coalesce(fingerprint, m[install].fingerprint))
                 else Device(agg.first, agg.last, fingerprint)]
  }

  /** The four upserts for one session's events. */
  function UpsertGroup(db: Db, sid: string, evs: seq<Event>, batchInstall: string, now: int): Db
    requires evs != []
  {
    var agg := Summary(evs, now);
    var install := Coalesce(FirstInstall(evs), batchInstall);
    var inserted := sid !in db.sessions;
    var inc: nat := if inserted then 1 else 0;
    db.(devices := if install != "" then UpsertDevice(db.devices, install, agg, Fingerprint(evs)) else db.devices,
        sessions := db.sessions[sid :=
          if inserted then Session(install, agg)
          else Session(Coalesce(db.sessions[sid].installId, install), Merge(db.sessions[sid].agg, agg))],
        users := if agg.user != "" then UpsertSeen(db.users, agg.user, agg, inc) else db.users,
        userDevices := if agg.user != "" && install != ""
                       then UpsertSeen(db.userDevices, (agg.user, install), agg, inc) else db.userDevices)
  }

  function ApplyGroups(db: Db, order: seq<string>, events: seq<Event>, batchInstall: string, now: int): Db {
    if order == [] then db else
      var before := ApplyGroups(db, order[..|order| - 1], events, batchInstall, now);
      var sid := order[|order| - 1];
      if Of(events, sid) == [] then before else UpsertGroup(before, sid, Of(events, sid), batchInstall, now)
  }

  /** INSERT ... ON CONFLICT (tenant, event id) DO NOTHING; rows without an id never conflict. */
  function Insert(rows: seq<Row>, r: Row): seq<Row> {
    if r.eventId != "" && r.eventId in Ids(rows) then rows else rows + [r]
  }

  function InsertAll(rows: seq<Row>, events: seq<Event>, batchInstall: string, now: int): seq<Row> {
    if events == [] then rows else
      Insert(InsertAll(rows, events[..|events| - 1], batchInstall, now),
             ToRow(events[|events| - 1], batchInstall, now))
  }

  /** The writes of one transaction, after deduplication. */
  function Store(db: Db, events: seq<Event>, batchInstall: string, now: int): Db {
    ApplyGroups(db, Order(events), events, batchInstall, now).(rows := InsertAll(db.rows, events, batchInstall, now))
  }

  function Recorded(db: Db, batchInstall: string, events: seq<Event>, now: int): Db {
    Store(db, Dedupe(Ids(db.rows), events), batchInstall, now)
  }

  // ---------- the store as an object ----------

  lemma {:induction false} OrderHas(events: seq<Event>, sid: string)
    ensures sid in Order(events) <==> sid != "" && Of(events, sid) != []
  {
    if events != [] { OrderHas(events[..|events| - 1], sid); }
  }

  lemma {:induction false} OrderDistinct(events: seq<Event>)
    ensures forall i, j :: 0 <= i < j < |Order(events)| ==> Order(events)[i] != Order(events)[j]
  {
    if events != [] { OrderDistinct(events[..|events| - 1]); }
  }

  lemma IdsOfInsert(rows: seq<Row>, r: Row)
    ensures Ids(rows + [r]) == if r.eventId == "" then Ids(rows) else Ids(rows) + {r.eventId}
  {
    assert forall x :: x in rows + [r] <==> x in rows || x == r;
    if r.eventId != "" { assert r in rows + [r]; }
  }

  lemma GroupsMore(db: Db, order: seq<string>, k: nat, events: seq<Event>, batchInstall: string, now: int)
    requires k < |order| && Of(events, order[k]) != []
    ensures ApplyGroups(db, order[..k + 1], events, batchInstall, now) ==
            UpsertGroup(ApplyGroups(db, order[..k], events, batchInstall, now), order[k], Of(events, order[k]),
                        batchInstall, now)
  {
    assert order[..k + 1][..k] == order[..k];
  }

  class TenantStore {
    var rows: seq<Row>
    var sessions: map<string, Session>
    var devices: map<string, Device>
    var users: map<string, Seen>
    var userDevices: map<(string, string), Seen>

    constructor ()
      ensures View() == Empty
    {
      rows, sessions, devices, users, userDevices := [], map[], map[], map[], map[];
    }

    function View(): Db
      reads this
    {
      Db(rows, sessions, devices, users, userDevices)
    }

    method DedupeEvents(events: seq<Event>) returns (out: seq<Event>)
      ensures out == Dedupe(Ids(rows), events)
    {
      var ids: set<string> := {};
      for i := 0 to |events|
        invariant forall id :: id in ids <==> id != "" && Repeats(events[..i], id)
      {
        assert events[..i + 1] == events[..i] + [events[i]];
        if events[i].eventId != "" {
          ids := ids + {events[i].eventId};
        }
      }
      assert events[..|events|] == events;
      if ids == {} {
        assert forall e :: e in events ==> Repeats(events, e.eventId);
        NoIdsNoDuplicates(Ids(rows), events);
        return events;
      }
      var known := Ids(rows) * ids;
      out := [];
      var inBatch: set<string> := {};
      for i := 0 to |events|
        invariant out == Dedupe(Ids(rows), events[..i])
        invariant inBatch <= set e | e in events[..i] :: e.eventId
        invariant forall id :: id != "" && Repeats(events[..i], id) ==> id in known || id in inBatch
      {
        assert events[..i + 1][..i] == events[..i];
        assert events[..i + 1] == events[..i] + [events[i]];
        var e := events[i];
        if e.eventId != "" {
          assert Repeats(events, e.eventId);
          if e.eventId in known || e.eventId in inBatch {
            continue;
          }
          inBatch := inBatch + {e.eventId};
        }
        out := out + [e];
      }
    }

    /** The five scans over one session's events, done in one pass. */
    method Summarize(evs: seq<Event>) returns (minTs: int, maxTs: int, install: string, user: string,
                                               fingerprint: string, sim: bool)
      requires evs != []
      ensures minTs == MinTs(evs) && maxTs == MaxTs(evs) && sim == AnySim(evs)
      ensures install == FirstInstall(evs) && user == FirstUser(evs) && fingerprint == Fingerprint(evs)
    {
      minTs, maxTs := evs[0].ts, evs[0].ts;
      install, user, fingerprint, sim := "", "", "", false;
      for i := 0 to |evs|
        invariant i == 0 ==> minTs == evs[0].ts && maxTs == evs[0].ts
        invariant i > 0 ==> minTs == MinTs(evs[..i]) && maxTs == MaxTs(evs[..i])
        invariant sim == AnySim(evs[..i])
        invariant install == FirstInstall(evs[..i]) && user == FirstUser(evs[..i])
        invariant fingerprint == Fingerprint(evs[..i])
      {
        assert evs[..i + 1][..i] == evs[..i];
        var e := evs[i];
        if e.ts < minTs { minTs := e.ts; }
        if e.ts > maxTs { maxTs := e.ts; }
        if install == "" && e.installId != "" { install := e.installId; }
        if user == "" && e.userRef != "" { user := e.userRef; }
        if fingerprint == "" && e.typ == "PASSIVE_DEVICE_FINGERPRINT" { fingerprint := e.payload; }
        if e.typ == "PASSIVE_SIM_TELEMETRY" {
          if e.simFlag { sim := true; }
        }
      }
      assert evs[..|evs|] == evs;
    }

    method GroupBySession(events: seq<Event>) returns (bySession: map<string, seq<Event>>, order: seq<string>)
      ensures order == Order(events)
      ensures forall sid :: sid in order ==> sid in bySession && bySession[sid] == Of(events, sid) != []
    {
      bySession, order := map[], [];
      for i := 0 to |events|
        invariant order == Order(events[..i])
        invariant forall sid :: sid in bySession <==> sid in order
        invariant forall sid :: sid in order ==> bySession[sid] == Of(events[..i], sid) != []
      {
        assert events[..i + 1][..i] == events[..i];
        var sid := events[i].sessionId;
        OrderHas(events[..i], sid);
        if sid == "" { continue; }
        if sid !in bySession {
          order := order + [sid];
          bySession := bySession[sid := []];
        }
        bySession := bySession[sid := bySession[sid] + [events[i]]];
      }
      assert events[..|events|] == events;
    }

    method UpsertSession(sid: string, evs: seq<Event>, batchInstall: string, now: int)
      requires evs != []
      modifies this
      ensures View() == UpsertGroup(old(View()), sid, evs, batchInstall, now)
    {
      var minTs, maxTs, installId, userRef, fingerprint, simChanged := Summarize(evs);
      if installId == "" { installId := batchInstall; }
      var agg := Agg(|evs|, MsToTime(minTs, now), MsToTime(maxTs, now), simChanged, userRef);
      if installId != "" {
        devices := UpsertDevice(devices, installId, agg, fingerprint);
      }
      var inc: nat := 0;
      if sid in sessions {
        var row := sessions[sid];
        sessions := sessions[sid := Session(Coalesce(row.installId, installId), Merge(row.agg, agg))];
      } else {
        inc := 1;
        sessions := sessions[sid := Session(installId, agg)];
      }
      if userRef != "" {
        users := UpsertSeen(users, userRef, agg, inc);
        if installId != "" {
          userDevices := UpsertSeen(userDevices, (userRef, installId), agg, inc);
        }
      }
    }

    method UpsertSessions(events: seq<Event>, batchInstall: string, now: int)
      modifies this
      ensures View() == ApplyGroups(old(View()), Order(events), events, batchInstall, now)
    {
      var bySession, order := GroupBySession(events);
      ghost var before := View();
      for k := 0 to |order|
        invariant View() == ApplyGroups(before, order[..k], events, batchInstall, now)
      {
        assert order[k] in order;
        GroupsMore(before, order, k, events, batchInstall, now);
        UpsertSession(order[k], bySession[order[k]], batchInstall, now);
      }
      assert order[..|order|] == order;
    }

    method InsertEvents(events: seq<Event>, batchInstall: string, now: int)
      modifies this`rows
      ensures rows == InsertAll(old(rows), events, batchInstall, now)
    {
      for k := 0 to |events|
        invariant rows == InsertAll(old(rows), events[..k], batchInstall, now)
      {
        assert events[..k + 1][..k] == events[..k];
        var r := ToRow(events[k], batchInstall, now);
        if r.eventId == "" || r.eventId !in Ids(rows) {
          rows := rows + [r];
        }
      }
      assert events[..|events|] == events;
    }

    /** Stores a batch and reports how many of its events were new. */
    method RecordBatch(batchInstall: string, batch: seq<Event>, now: int) returns (stored: nat)
      modifies this
      ensures View() == Recorded(old(View()), batchInstall, batch, now)
      ensures stored == |Dedupe(Ids(old(rows)), batch)|
    {
      var events := DedupeEvents(batch);
      if |events| == 0 { return 0; }
      UpsertSessions(events, batchInstall, now);
      GroupsKeepRows(old(View()), Order(events), events, batchInstall, now);
      assert rows == old(rows);
      InsertEvents(events, batchInstall, now);
      return |events|;
    }
  }

  lemma {:induction false} GroupsKeepRows(db: Db, order: seq<string>, events: seq<Event>, batchInstall: string, now: int)
    ensures ApplyGroups(db, order, events, batchInstall, now).rows == db.rows
  {
    if order != [] { GroupsKeepRows(db, order[..|order| - 1], events, batchInstall, now); }
  }

  lemma {:induction false} NoIdsNoDuplicates(known: set<string>, events: seq<Event>)
    requires forall e :: e in events ==> e.eventId == ""
    ensures Dedupe(known, events) == events
  {
    if events != [] { NoIdsNoDuplicates(known, events[..|events| - 1]); }
  }
}
