/**
 What the tables say after any history of uploads, read off the uploads themselves. Each upload touches every
 session of its surviving events once; the counters, the first and last sightings, the fingerprint and the install
 of a session follow from those touches alone, however the transactions overlapped.
 */
module IngestTables {
  import opened Prelude
  import opened Ingest
  import opened IngestLaws

  // ---------- the columns of a session's share of an upload ----------

  function FirstNonEmpty(texts: seq<string>): string {
    if texts == [] then "" else if texts[0] != "" then texts[0] else FirstNonEmpty(texts[1..])
  }

  function Users(evs: seq<Event>): seq<string> {
    seq(|evs|, i requires 0 <= i < |evs| => evs[i].userRef)
  }

  function Installs(evs: seq<Event>): seq<string> {
    seq(|evs|, i requires 0 <= i < |evs| => evs[i].installId)
  }

  function Prints(evs: seq<Event>): seq<string> {
    seq(|evs|, i requires 0 <= i < |evs| => if evs[i].typ == "PASSIVE_DEVICE_FINGERPRINT" then evs[i].payload else "")
  }

  lemma {:induction false} FirstNonEmptyMore(texts: seq<string>, t: string)
    ensures FirstNonEmpty(texts + [t]) == if FirstNonEmpty(texts) != "" then FirstNonEmpty(texts) else t
  {
    if texts == [] {
      assert [] + [t] == [t];
    } else {
      FirstNonEmptyMore(texts[1..], t);
      assert (texts + [t])[1..] == texts[1..] + [t];
    }
  }

  lemma {:induction false} FirstUserIs(evs: seq<Event>)
    ensures FirstUser(evs) == FirstNonEmpty(Users(evs))
  {
    if evs != [] {
      var rest, text := evs[..|evs| - 1], evs[|evs| - 1].userRef;
      FirstUserIs(rest);
      FirstNonEmptyMore(Users(rest), text);
      assert Users(evs) == Users(rest) + [text];
    }
  }

  lemma {:induction false} FirstInstallIs(evs: seq<Event>)
    ensures FirstInstall(evs) == FirstNonEmpty(Installs(evs))
  {
    if evs != [] {
      var rest, text := evs[..|evs| - 1], evs[|evs| - 1].installId;
      FirstInstallIs(rest);
      FirstNonEmptyMore(Installs(rest), text);
      assert Installs(evs) == Installs(rest) + [text];
    }
  }

  lemma {:induction false} FingerprintIs(evs: seq<Event>)
    ensures Fingerprint(evs) == FirstNonEmpty(Prints(evs))
  {
    if evs != [] {
      var rest, text := evs[..|evs| - 1], Prints(evs)[|evs| - 1];
      FingerprintIs(rest);
      FirstNonEmptyMore(Prints(rest), text);
      assert Prints(evs) == Prints(rest) + [text];
    }
  }

  /** User, install and fingerprint of a group are the first non-empty ones among its events. */
  lemma FirstsAre(evs: seq<Event>)
    ensures FirstUser(evs) == FirstNonEmpty(Users(evs)) && FirstInstall(evs) == FirstNonEmpty(Installs(evs))
    ensures Fingerprint(evs) == FirstNonEmpty(Prints(evs))
  {
    FirstUserIs(evs);
    FirstInstallIs(evs);
    FingerprintIs(evs);
  }

  /** Some event reports a changed SIM. */
  predicate ChangesSim(evs: seq<Event>) {
    exists i :: 0 <= i < |evs| && evs[i].typ == "PASSIVE_SIM_TELEMETRY" && evs[i].simFlag
  }

  lemma {:induction false} ChangesSimIff(evs: seq<Event>)
    ensures AnySim(evs) <==> ChangesSim(evs)
  {
    if evs != [] {
      ChangesSimIff(evs[..|evs| - 1]);
      assert forall i :: 0 <= i < |evs| - 1 ==> evs[..|evs| - 1][i] == evs[i];
    }
  }

  // ---------- the touches of a history ----------

  /** One upload's share for one session: who, on which install, and the span of its timestamps. */
  datatype Touch = Touch(sid: string, user: string, install: string, mark: string, first: int, last: int, sim: bool)

  /** The header's install stands in when no event names one, and the clock for timestamps that are not positive. */
  function TouchOf(sid: string, evs: seq<Event>, header: string, now: int): Touch
    requires evs != []
  {
    var install := FirstNonEmpty(Installs(evs));
    Touch(sid, FirstNonEmpty(Users(evs)), if install != "" then install else header, FirstNonEmpty(Prints(evs)),
          if MinTs(evs) > 0 then MinTs(evs) else now, if MaxTs(evs) > 0 then MaxTs(evs) else now, ChangesSim(evs))
  }

  function TouchesOf(order: seq<string>, events: seq<Event>, header: string, now: int): seq<Touch> {
    if order == [] then [] else
      var before, sid := TouchesOf(order[..|order| - 1], events, header, now), order[|order| - 1];
      if Of(events, sid) == [] then before else before + [TouchOf(sid, Of(events, sid), header, now)]
  }

  function Touches(uploads: seq<Upload>): seq<Touch> {
    if uploads == [] then [] else
      var before, u := uploads[..|uploads| - 1], uploads[|uploads| - 1];
      var events := Survivors(History(before), u);
      Touches(before) + TouchesOf(Order(events), events, u.install, u.now)
  }

  /** The i-th touch is the first of its session: the one that created it. */
  ghost predicate Creates(ts: seq<Touch>, i: nat)
    requires i < |ts|
  {
    forall j :: 0 <= j < i ==> ts[j].sid != ts[i].sid
  }

  /** Whose touches are meant: a user's, a user's on one install, an install's, or a session's. */
  datatype Whose =
    | User(user: string)
    | UserOn(user: string, install: string)
    | Install(install: string)
    | OfSession(sid: string)

  predicate Is(t: Touch, w: Whose) {
    match w
    case User(u) => t.user == u
    case UserOn(u, d) => t.user == u && t.install == d
    case Install(d) => t.install == d
    case OfSession(s) => t.sid == s
  }

  function Mine(ts: seq<Touch>, w: Whose): seq<Touch> {
    if ts == [] then [] else
      var before := Mine(ts[..|ts| - 1], w);
      if Is(ts[|ts| - 1], w) then before + [ts[|ts| - 1]] else before
  }

  /** The sessions created by touches of w. */
  ghost function Created(ts: seq<Touch>, w: Whose): set<nat> {
    set i: nat | i < |ts| && Creates(ts, i) && Is(ts[i], w)
  }

  /** From the first touch to the latest. */
  predicate Spans(mine: seq<Touch>, first: int, last: int) {
    && mine != [] && first == mine[0].first
    && (exists i :: 0 <= i < |mine| && mine[i].last == last) && forall i :: 0 <= i < |mine| ==> mine[i].last <= last
  }

  // ---------- what the tables say ----------

  function SeenOf(db: Db, w: Whose): Option<Seen> {
    match w
    case User(u) => if u in db.users then Some(db.users[u]) else None
    case UserOn(u, d) => if (u, d) in db.userDevices then Some(db.userDevices[(u, d)]) else None
    case _ => None
  }

  /** A row of app_users or user_devices: there is none without a user or install, nor before the first touch. */
  ghost predicate SeenSays(db: Db, ts: seq<Touch>, w: Whose) {
    if w == User("") || (w.UserOn? && (w.user == "" || w.install == "")) || Mine(ts, w) == [] then SeenOf(db, w) == None
    else
      && SeenOf(db, w).Some? && Spans(Mine(ts, w), SeenOf(db, w).value.firstSeen, SeenOf(db, w).value.lastSeen)
      && SeenOf(db, w).value.sessionCount == |Created(ts, w)|
  }

  function LastMark(mine: seq<Touch>): string {
    if mine == [] then ""
    else if mine[|mine| - 1].mark != "" then mine[|mine| - 1].mark
    else LastMark(mine[..|mine| - 1])
  }

  predicate DeviceSays(db: Db, ts: seq<Touch>, d: string) {
    var o, mine := DeviceOf(db, d), Mine(ts, Install(d));
    if d == "" || mine == [] then o == None
    else o.Some? && Spans(mine, o.value.firstSeen, o.value.lastSeen) && o.value.fingerprint == LastMark(mine)
  }

  function TouchUsers(ts: seq<Touch>): seq<string> {
    seq(|ts|, i requires 0 <= i < |ts| => ts[i].user)
  }

  function TouchInstalls(ts: seq<Touch>): seq<string> {
    seq(|ts|, i requires 0 <= i < |ts| => ts[i].install)
  }

  /** First install and user named, earliest start and latest end, and whether the SIM ever changed. */
  predicate Folds(o: Session, mine: seq<Touch>) {
    && mine != [] && o.agg.count > 0
    && o.installId == FirstNonEmpty(TouchInstalls(mine)) && o.agg.user == FirstNonEmpty(TouchUsers(mine))
    && (exists i :: 0 <= i < |mine| && mine[i].first == o.agg.first)
    && (exists i :: 0 <= i < |mine| && mine[i].last == o.agg.last)
    && (o.agg.sim <==> exists i :: 0 <= i < |mine| && mine[i].sim)
    && forall i :: 0 <= i < |mine| ==> o.agg.first <= mine[i].first && mine[i].last <= o.agg.last
  }

  function SessionOf(db: Db, sid: string): Option<Session> {
    if sid in db.sessions then Some(db.sessions[sid]) else None
  }

  predicate RowSays(o: Option<Session>, mine: seq<Touch>) {
    if mine == [] then o == None else o.Some? && Folds(o.value, mine)
  }

  predicate SessionSays(db: Db, ts: seq<Touch>, sid: string) {
    RowSays(SessionOf(db, sid), Mine(ts, OfSession(sid)))
  }

  ghost predicate Says(db: Db, ts: seq<Touch>) {
    && (forall w: Whose :: w.User? || w.UserOn? ==> SeenSays(db, ts, w))
    && (forall d: string :: DeviceSays(db, ts, d))
    && forall sid: string :: SessionSays(db, ts, sid)
  }

  // ---------- one touch ----------

  lemma MineMore(ts: seq<Touch>, t: Touch, w: Whose)
    ensures Mine(ts + [t], w) == if Is(t, w) then Mine(ts, w) + [t] else Mine(ts, w)
  {
    assert (ts + [t])[..|ts|] == ts;
  }

  lemma {:induction false} TouchedIff(ts: seq<Touch>, sid: string)
    ensures Mine(ts, OfSession(sid)) == [] <==> forall j :: 0 <= j < |ts| ==> ts[j].sid != sid
  {
    if ts != [] {
      TouchedIff(ts[..|ts| - 1], sid);
      assert forall j :: 0 <= j < |ts| - 1 ==> ts[..|ts| - 1][j] == ts[j];
    }
  }

  lemma CreatesMore(ts: seq<Touch>, t: Touch, i: nat)
    requires i <= |ts|
    ensures Creates(ts + [t], i) <==> if i < |ts| then Creates(ts, i) else Mine(ts, OfSession(t.sid)) == []
  {
    TouchedIff(ts, t.sid);
    assert forall j :: 0 <= j < |ts| ==> (ts + [t])[j] == ts[j];
  }

  lemma CreatedMore(ts: seq<Touch>, t: Touch, w: Whose)
    ensures |Created(ts + [t], w)| == |Created(ts, w)| + if Mine(ts, OfSession(t.sid)) == [] && Is(t, w) then 1 else 0
  {
    var n, more := |ts|, Mine(ts, OfSession(t.sid)) == [] && Is(t, w);
    forall i: nat ensures i in Created(ts + [t], w) <==> i in Created(ts, w) || (more && i == n) {
      if i <= n { CreatesMore(ts, t, i); }
    }
    OneMore(Created(ts, w), Created(ts + [t], w), n, more);
  }

  lemma SpansMore(mine: seq<Touch>, t: Touch, first: int, last: int)
    requires mine == [] || Spans(mine, first, last)
    ensures Spans(mine + [t], if mine == [] then t.first else first, if mine == [] || t.last > last then t.last else last)
  {
    var more := mine + [t];
    assert more[|mine|] == t;
    if mine != [] {
      var i :| 0 <= i < |mine| && mine[i].last == last;
      assert more[i] == mine[i] && more[0] == mine[0];
    }
  }

  /** A row of app_users or user_devices after a touch. */
  function Met(o: Option<Seen>, t: Touch, inc: nat): Seen {
    if o.None? then Seen(t.first, t.last, inc)
    else Seen(o.value.firstSeen, if t.last > o.value.lastSeen then t.last else o.value.lastSeen, o.value.sessionCount + inc)
  }

  function NewSession(db: Db, sid: string): nat {
    if sid in db.sessions then 0 else 1
  }

  lemma GroupUser(db: Db, sid: string, evs: seq<Event>, header: string, now: int, u: string)
    requires evs != []
    ensures var after, t, o := UpsertGroup(db, sid, evs, header, now), TouchOf(sid, evs, header, now), SeenOf(db, User(u));
      SeenOf(after, User(u)) == if t.user == u && u != "" then Some(Met(o, t, NewSession(db, sid))) else o
  {
    FirstsAre(evs);
  }

  lemma GroupUserOn(db: Db, sid: string, evs: seq<Event>, header: string, now: int, u: string, d: string)
    requires evs != []
    ensures var after, t, o := UpsertGroup(db, sid, evs, header, now), TouchOf(sid, evs, header, now), SeenOf(db, UserOn(u, d));
      SeenOf(after, UserOn(u, d)) ==
        if t.user == u && t.install == d && u != "" && d != "" then Some(Met(o, t, NewSession(db, sid))) else o
  {
    FirstsAre(evs);
  }

  /** What the upserts do to the rows of users, in terms of the touch. */
  lemma GroupSeen(db: Db, sid: string, evs: seq<Event>, header: string, now: int, w: Whose)
    requires evs != [] && (w.User? || w.UserOn?)
    ensures var after, t, o := UpsertGroup(db, sid, evs, header, now), TouchOf(sid, evs, header, now), SeenOf(db, w);
      SeenOf(after, w) ==
        if Is(t, w) && w.user != "" && (w.UserOn? ==> w.install != "") then Some(Met(o, t, NewSession(db, sid))) else o
  {
    match w
    case User(u) => GroupUser(db, sid, evs, header, now, u);
    case UserOn(u, d) => GroupUserOn(db, sid, evs, header, now, u, d);
    case _ =>
  }

  function DeviceOf(db: Db, d: string): Option<Device> {
    if d in db.devices then Some(db.devices[d]) else None
  }

  /** The device row after a touch. */
  function Sighted(o: Option<Device>, t: Touch): Device {
    if o.None? then Device(t.first, t.last, t.mark)
    else Device(o.value.firstSeen, if t.last > o.value.lastSeen then t.last else o.value.lastSeen,
                if t.mark != "" then t.mark else o.value.fingerprint)
  }

  lemma GroupDevice(db: Db, sid: string, evs: seq<Event>, header: string, now: int, d: string)
    requires evs != []
    ensures var after, t := UpsertGroup(db, sid, evs, header, now), TouchOf(sid, evs, header, now);
      DeviceOf(after, d) == if t.install == d && d != "" then Some(Sighted(DeviceOf(db, d), t)) else DeviceOf(db, d)
  {
    FirstsAre(evs);
  }

  lemma SeenStep(db: Db, ts: seq<Touch>, sid: string, evs: seq<Event>, header: string, now: int, w: Whose)
    requires evs != [] && SessionSays(db, ts, sid) && (w.User? || w.UserOn?) && SeenSays(db, ts, w)
    ensures SeenSays(UpsertGroup(db, sid, evs, header, now), ts + [TouchOf(sid, evs, header, now)], w)
  {
    var t := TouchOf(sid, evs, header, now);
    GroupSeen(db, sid, evs, header, now, w);
    MineMore(ts, t, w);
    CreatedMore(ts, t, w);
    if Is(t, w) && SeenOf(db, w).Some? {
      SpansMore(Mine(ts, w), t, SeenOf(db, w).value.firstSeen, SeenOf(db, w).value.lastSeen);
    } else if Is(t, w) && Mine(ts, w) == [] {
      SpansMore([], t, 0, 0);
      NoneCreated(ts, w);
    }
  }

  lemma {:induction false} NoneCreated(ts: seq<Touch>, w: Whose)
    requires Mine(ts, w) == []
    ensures forall i :: 0 <= i < |ts| ==> !Is(ts[i], w)
    ensures Created(ts, w) == {}
  {
    if ts != [] {
      NoneCreated(ts[..|ts| - 1], w);
      assert forall i :: 0 <= i < |ts| - 1 ==> ts[..|ts| - 1][i] == ts[i];
    }
  }

  lemma DeviceStep(db: Db, after: Db, ts: seq<Touch>, t: Touch, d: string)
    requires DeviceSays(db, ts, d)
    requires DeviceOf(after, d) == if t.install == d && d != "" then Some(Sighted(DeviceOf(db, d), t)) else DeviceOf(db, d)
    ensures DeviceSays(after, ts + [t], d)
  {
    var o, mine := DeviceOf(db, d), Mine(ts, Install(d));
    MineMore(ts, t, Install(d));
    if d != "" && t.install == d {
      assert (mine + [t])[..|mine|] == mine;
      if mine == [] { SpansMore(mine, t, 0, 0); } else { SpansMore(mine, t, o.value.firstSeen, o.value.lastSeen); }
    }
  }

  /** The session row after a touch. */
  predicate Folded(o: Option<Session>, after: Session, t: Touch) {
    && after.agg.count > 0
    && (o.None? ==>
          && after.installId == t.install && after.agg.user == t.user
          && after.agg.first == t.first && after.agg.last == t.last && after.agg.sim == t.sim)
    && (o.Some? && o.value.agg.count > 0 ==>
          var s := o.value;
          && after.installId == (if s.installId != "" then s.installId else t.install)
          && after.agg.user == (if s.agg.user != "" then s.agg.user else t.user)
          && after.agg.first == (if t.first < s.agg.first then t.first else s.agg.first)
          && after.agg.last == (if t.last > s.agg.last then t.last else s.agg.last)
          && after.agg.sim == (s.agg.sim || t.sim))
  }

  lemma GroupSession(db: Db, sid: string, evs: seq<Event>, header: string, now: int, s: string)
    requires evs != []
    ensures var after, t := UpsertGroup(db, sid, evs, header, now), TouchOf(sid, evs, header, now);
      if s == sid then SessionOf(after, s).Some? && Folded(SessionOf(db, s), SessionOf(after, s).value, t)
      else SessionOf(after, s) == SessionOf(db, s)
  {
    FirstsAre(evs);
    ChangesSimIff(evs);
  }

  lemma FoldsMore(o: Option<Session>, after: Session, mine: seq<Touch>, t: Touch)
    requires RowSays(o, mine) && Folded(o, after, t)
    ensures RowSays(Some(after), mine + [t])
  {
    var more := mine + [t];
    assert more[|mine|] == t;
    assert forall i :: 0 <= i < |mine| ==> more[i] == mine[i];
    assert TouchInstalls(more) == TouchInstalls(mine) + [t.install] && TouchUsers(more) == TouchUsers(mine) + [t.user];
    FirstNonEmptyMore(TouchInstalls(mine), t.install);
    FirstNonEmptyMore(TouchUsers(mine), t.user);
  }

  lemma SessionStep(db: Db, after: Db, ts: seq<Touch>, t: Touch, s: string)
    requires SessionSays(db, ts, s)
    requires if s == t.sid then SessionOf(after, s).Some? && Folded(SessionOf(db, s), SessionOf(after, s).value, t)
             else SessionOf(after, s) == SessionOf(db, s)
    ensures SessionSays(after, ts + [t], s)
  {
    MineMore(ts, t, OfSession(s));
    if s == t.sid { FoldsMore(SessionOf(db, s), SessionOf(after, s).value, Mine(ts, OfSession(s)), t); }
  }

  lemma GroupSays(db: Db, ts: seq<Touch>, sid: string, evs: seq<Event>, header: string, now: int)
    requires evs != [] && Says(db, ts)
    ensures Says(UpsertGroup(db, sid, evs, header, now), ts + [TouchOf(sid, evs, header, now)])
  {
    var after, more := UpsertGroup(db, sid, evs, header, now), ts + [TouchOf(sid, evs, header, now)];
    forall w: Whose | w.User? || w.UserOn? ensures SeenSays(after, more, w) {
      SeenStep(db, ts, sid, evs, header, now, w);
    }
    forall d: string ensures DeviceSays(after, more, d) {
      GroupDevice(db, sid, evs, header, now, d);
      DeviceStep(db, after, ts, TouchOf(sid, evs, header, now), d);
    }
    forall s: string ensures SessionSays(after, more, s) {
      GroupSession(db, sid, evs, header, now, s);
      SessionStep(db, after, ts, TouchOf(sid, evs, header, now), s);
    }
  }

  // ---------- whole histories ----------

  lemma {:induction false} GroupsSay(db: Db, ts: seq<Touch>, order: seq<string>, events: seq<Event>, header: string, now: int)
    requires Says(db, ts)
    ensures Says(ApplyGroups(db, order, events, header, now), ts + TouchesOf(order, events, header, now))
  {
    if order == [] {
      assert ts + [] == ts;
    } else {
      var rest, sid := order[..|order| - 1], order[|order| - 1];
      GroupsSay(db, ts, rest, events, header, now);
      if Of(events, sid) != [] {
        var before := TouchesOf(rest, events, header, now);
        var t := TouchOf(sid, Of(events, sid), header, now);
        GroupSays(ApplyGroups(db, rest, events, header, now), ts + before, sid, Of(events, sid), header, now);
        assert (ts + before) + [t] == ts + (before + [t]);
      }
    }
  }

  lemma SameTables(a: Db, b: Db, ts: seq<Touch>)
    requires Says(a, ts)
    requires b.sessions == a.sessions && b.devices == a.devices && b.users == a.users && b.userDevices == a.userDevices
    ensures Says(b, ts)
  {
    forall w: Whose | w.User? || w.UserOn? ensures SeenSays(b, ts, w) { assert SeenSays(a, ts, w); }
    forall d: string ensures DeviceSays(b, ts, d) { assert DeviceSays(a, ts, d); }
    forall sid: string ensures SessionSays(b, ts, sid) { assert SessionSays(a, ts, sid); }
  }

  /**
   After every history, overlaps included: a user's session count is exactly the number of sessions created by an
   upload whose first non-empty user reference was that user, and on a device the number of those that also resolved
   to that install. First sightings are those of the first touch, last sightings the latest, the fingerprint is
   the last one sent, and a session's install and user are the first ones named.
   */
  lemma {:induction false} TablesSay(uploads: seq<Upload>)
    ensures Says(History(uploads), Touches(uploads))
  {
    if uploads != [] {
      var rest, u := uploads[..|uploads| - 1], uploads[|uploads| - 1];
      TablesSay(rest);
      var db := History(rest);
      var events := Survivors(db, u);
      GroupsSay(db, Touches(rest), Order(events), events, u.install, u.now);
      SameTables(ApplyGroups(db, Order(events), events, u.install, u.now), History(uploads), Touches(uploads));
    }
  }

  predicate Touched(ts: seq<Touch>, w: Whose) {
    exists i :: 0 <= i < |ts| && Is(ts[i], w)
  }

  /** The counters, spelled out: a row once the user was touched, counting the sessions those touches created. */
  lemma SessionCountIs(uploads: seq<Upload>, w: Whose)
    requires (w.User? || w.UserOn?) && w.user != "" && (w.UserOn? ==> w.install != "")
    ensures SeenOf(History(uploads), w).Some? <==> Touched(Touches(uploads), w)
    ensures SeenOf(History(uploads), w).Some? ==>
              SeenOf(History(uploads), w).value.sessionCount == |Created(Touches(uploads), w)|
  {
    TablesSay(uploads);
    SaysCount(History(uploads), Touches(uploads), w);
  }

  lemma SaysCount(db: Db, ts: seq<Touch>, w: Whose)
    requires (w.User? || w.UserOn?) && w.user != "" && (w.UserOn? ==> w.install != "")
    requires SeenSays(db, ts, w)
    ensures SeenOf(db, w).Some? <==> Touched(ts, w)
    ensures SeenOf(db, w).Some? ==> SeenOf(db, w).value.sessionCount == |Created(ts, w)|
  {
    AnyMine(ts, w);
  }

  lemma {:induction false} AnyMine(ts: seq<Touch>, w: Whose)
    ensures Mine(ts, w) != [] <==> exists i :: 0 <= i < |ts| && Is(ts[i], w)
  {
    if ts != [] {
      AnyMine(ts[..|ts| - 1], w);
      assert forall i :: 0 <= i < |ts| - 1 ==> ts[..|ts| - 1][i] == ts[i];
    }
  }

  // ---------- the rows ----------

  /** The row that stores an event of an upload, column by column. */
  predicate Stores(r: Row, e: Event, u: Upload) {
    && r.eventId == e.eventId && r.sessionId == e.sessionId && r.userRef == e.userRef && r.payload == e.payload
    && (if e.typ == "" then r.typ == "UNKNOWN" else r.typ == e.typ)
    && (if e.installId == "" then r.installId == u.install else r.installId == e.installId)
    && (if e.ts > 0 then r.at == e.ts else r.at == u.now)
    && (r.sim <==> e.typ == "PASSIVE_SIM_TELEMETRY" && e.simFlag)
  }

  lemma {:induction false} DedupeSubset(known: set<string>, events: seq<Event>, e: Event)
    requires e in Dedupe(known, events)
    ensures e in events
  {
    var rest := events[..|events| - 1];
    if e in Dedupe(known, rest) { DedupeSubset(known, rest, e); }
  }

  lemma {:induction false} InsertedFrom(rows: seq<Row>, events: seq<Event>, u: Upload, r: Row)
    requires r in InsertAll(rows, events, u.install, u.now) && r !in rows
    ensures exists e :: e in events && Stores(r, e, u)
  {
    if events != [] {
      var rest, e := events[..|events| - 1], events[|events| - 1];
      if r in InsertAll(rows, rest, u.install, u.now) {
        InsertedFrom(rows, rest, u, r);
      } else {
        assert e in events && Stores(r, e, u);
      }
    }
  }

  /** In every history each stored row is an event of one of its uploads, column by column. */
  lemma {:induction false} RowsAreUploaded(uploads: seq<Upload>, r: Row)
    requires r in History(uploads).rows
    ensures exists u, e :: u in uploads && e in u.events && Stores(r, e, u)
  {
    var rest, u := uploads[..|uploads| - 1], uploads[|uploads| - 1];
    if r in History(rest).rows {
      RowsAreUploaded(rest, r);
      var v, e :| v in rest && e in v.events && Stores(r, e, v);
      assert v in uploads;
    } else {
      InsertedFrom(History(rest).rows, Survivors(History(rest), u), u, r);
      var e :| e in Survivors(History(rest), u) && Stores(r, e, u);
      DedupeSubset(if u.known.Some? then u.known.value else Ids(History(rest).rows), u.events, e);
      assert u in uploads;
    }
  }

  /** Event i of a batch survives: it has no id, or one that is neither known nor borne by an earlier event. */
  predicate Survives(known: set<string>, events: seq<Event>, i: nat)
    requires i < |events|
  {
    || events[i].eventId == ""
    || (events[i].eventId !in known && forall j :: 0 <= j < i ==> events[j].eventId != events[i].eventId)
  }

  lemma SurvivesEarlier(known: set<string>, events: seq<Event>, n: nat)
    requires n <= |events|
    ensures forall i: nat :: i < n ==> Survives(known, events[..n], i) == Survives(known, events, i)
  {}

  lemma DedupeStep(known: set<string>, events: seq<Event>)
    requires events != []
    ensures var n := |events| - 1;
      Dedupe(known, events) == Dedupe(known, events[..n]) + if Survives(known, events, n) then [events[n]] else []
  {
    var n := |events| - 1;
    var id := events[n].eventId;
    if Repeats(events[..n], id) {
      var j :| 0 <= j < n && events[..n][j].eventId == id;
      assert events[j].eventId == id;
    } else {
      assert forall j :: 0 <= j < n ==> events[j] in events[..n];
    }
  }

  /** Deduplication keeps exactly the survivors, in their order: `at` is where each came from. */
  lemma {:induction false} DedupeIs(known: set<string>, events: seq<Event>) returns (at: seq<nat>)
    ensures |at| == |Dedupe(known, events)| && forall k, l :: 0 <= k < l < |at| ==> at[k] < at[l]
    ensures forall k :: 0 <= k < |at| ==> at[k] < |events| && Dedupe(known, events)[k] == events[at[k]]
    ensures forall i: nat :: i < |events| ==> (Survives(known, events, i) <==> i in at)
  {
    if events == [] {
      at := [];
    } else {
      var n: nat := |events| - 1;
      at := DedupeIs(known, events[..n]);
      SurvivesEarlier(known, events, n);
      DedupeStep(known, events);
      assert n !in at;
      if Survives(known, events, n) { at := at + [n]; }
    }
  }

  /** A session's share of a batch is its events, in order: `at` is where each came from. */
  lemma {:induction false} OfIs(events: seq<Event>, sid: string) returns (at: seq<nat>)
    ensures |at| == |Of(events, sid)| && forall k, l :: 0 <= k < l < |at| ==> at[k] < at[l]
    ensures forall k :: 0 <= k < |at| ==> at[k] < |events| && Of(events, sid)[k] == events[at[k]]
    ensures forall i: nat :: i < |events| ==> (events[i].sessionId == sid <==> i in at)
  {
    if events == [] {
      at := [];
    } else {
      var n: nat := |events| - 1;
      at := OfIs(events[..n], sid);
      assert forall i: nat :: i < n ==> events[..n][i] == events[i];
      assert n !in at;
      if events[n].sessionId == sid { at := at + [n]; }
    }
  }

  /** Event i is the first of its session. */
  predicate Opens(events: seq<Event>, i: nat)
    requires i < |events|
  {
    events[i].sessionId != "" && forall j :: 0 <= j < i ==> events[j].sessionId != events[i].sessionId
  }

  lemma OrderStep(events: seq<Event>)
    requires events != []
    ensures var n := |events| - 1;
      Order(events) == Order(events[..n]) + if Opens(events, n) then [events[n].sessionId] else []
  {
    var n := |events| - 1;
    var sid := events[n].sessionId;
    OrderHas(events[..n], sid);
    var at := OfIs(events[..n], sid);
    if at == [] {
      assert forall j: nat :: j < n ==> events[..n][j].sessionId != sid;
      assert forall j :: 0 <= j < n ==> events[j] == events[..n][j];
    } else {
      assert at[0] in at;
    }
  }

  /** Sessions are taken in the order of their first events. */
  lemma {:induction false} OrderIs(events: seq<Event>) returns (at: seq<nat>)
    ensures |at| == |Order(events)| && forall k, l :: 0 <= k < l < |at| ==> at[k] < at[l]
    ensures forall k :: 0 <= k < |at| ==> at[k] < |events| && Order(events)[k] == events[at[k]].sessionId
    ensures forall i: nat :: i < |events| ==> (Opens(events, i) <==> i in at)
  {
    if events == [] {
      at := [];
    } else {
      var n: nat := |events| - 1;
      at := OrderIs(events[..n]);
      assert forall i: nat :: i < n ==> Opens(events[..n], i) == Opens(events, i);
      OrderStep(events);
      assert n !in at;
      if Opens(events, n) { at := at + [n]; }
    }
  }
}
