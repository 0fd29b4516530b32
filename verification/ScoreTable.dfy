/**
 The scoring table: for every code, the condition on the event log and the payment that raises it, and its weight.
 The conditions are stated on the log itself and the numbers are written out; the engine raises a signal exactly
 when the table says so.
 */
module ScoreTable {
  import opened Prelude
  import opened Policy
  import opened Settings
  import opened Scoring
  import opened ScoringLaws

  // ---------- what the log shows ----------

  predicate InCall(e: Event) {
    "BIZ_" <= e.ty && e.call.Some? && (e.call.value.gsm || e.call.value.voip)
  }

  predicate Called(es: seq<Event>) {
    exists i :: 0 <= i < |es| && InCall(es[i])
  }

  /** The first business event in a call had the phone away from the ear. */
  predicate HandsFree(es: seq<Event>) {
    exists i :: 0 <= i < |es| && InCall(es[i]) && (forall j :: 0 <= j < i ==> !InCall(es[j]))
                && (es[i].call.value.speaker || es[i].call.value.bluetooth || es[i].call.value.wired)
  }

  predicate HangsUp(e: Event) {
    e.ty == "PASSIVE_CALL_STATE" && e.payload.CallState? && !e.payload.active
  }

  predicate Sends(e: Event) { e.ty == "BIZ_TXN_INITIATED" }

  predicate Adds(e: Event) { e.ty == "BIZ_PAYEE_ADDED" }

  /** The time of some event with a property and of none later, at a real time. */
  predicate Newest(es: seq<Event>, p: Event -> bool, at: int) {
    && at > 0 && (exists i :: 0 <= i < |es| && p(es[i]) && es[i].ts == at)
    && forall i :: 0 <= i < |es| && p(es[i]) ==> es[i].ts <= at
  }

  /** The last call ended at most five minutes before the last transfer. */
  ghost predicate HungUpJustBefore(es: seq<Event>) {
    exists ended, sent :: Newest(es, HangsUp, ended) && Newest(es, Sends, sent) && ended < sent <= ended + 300000
  }

  /** The payee was added at most half an hour before the last transfer, or before now when none has a time. */
  ghost predicate AddedJustBefore(es: seq<Event>, now: int) {
    exists added :: Newest(es, Adds, added) &&
      if exists sent :: Newest(es, Sends, sent)
      then exists sent :: Newest(es, Sends, sent) && added <= sent <= added + 1800000
      else added <= now <= added + 1800000
  }

  predicate StepsUp(e: Event) {
    e.ty == "BIZ_STEP_UP_RESULT" && e.payload.StepUp?
  }

  /** The latest step-up result, the later in the log on a tie. */
  predicate LastResult(es: seq<Event>, i: nat) {
    && i < |es| && StepsUp(es[i])
    && forall j :: 0 <= j < |es| && StepsUp(es[j]) ==> es[j].ts < es[i].ts || (es[j].ts == es[i].ts && j <= i)
  }

  /** The same letters, in either case. */
  predicate Spells(s: string, capitals: string) {
    |s| == |capitals| &&
    forall i :: 0 <= i < |s| ==>
      s[i] == capitals[i] || ('A' <= capitals[i] <= 'Z' && s[i] as int == capitals[i] as int + 32)
  }

  predicate Failed(outcome: string) {
    Spells(outcome, "FAIL") || Spells(outcome, "FAILURE") || Spells(outcome, "LOCKED")
  }

  predicate StepUpFailed(es: seq<Event>) {
    exists i: nat :: i < |es| && LastResult(es, i) && Failed(es[i].payload.outcome)
  }

  predicate StepUpAbandoned(es: seq<Event>) {
    exists i: nat :: i < |es| && LastResult(es, i) && Spells(es[i].payload.outcome, "ABANDONED")
  }

  function PositiveAmounts(xs: seq<real>): set<nat> {
    set i: nat | i < |xs| && xs[i] > 0.0
  }

  /** The transfers within the window that ends at the last one. */
  ghost function InWindow(es: seq<Event>, windowMin: int): set<nat> {
    set i: nat | i < |es| && es[i].ty == "BIZ_TXN_INITIATED" &&
                 forall j :: 0 <= j < |es| && es[j].ty == "BIZ_TXN_INITIATED" ==> es[i].ts >= es[j].ts - windowMin * 60000
  }

  /** Their number; transfers without a time do not count. */
  ghost function Transfers(es: seq<Event>, windowMin: int): nat {
    if exists i :: 0 <= i < |es| && es[i].ty == "BIZ_TXN_INITIATED" && es[i].ts > 0 then |InWindow(es, windowMin)| else 0
  }

  function Erased(keys: seq<KeyTiming>): set<nat> {
    set i: nat | i < |keys| && keys[i].deletion
  }

  predicate Hesitates(e: Event) {
    e.ty == "PASSIVE_KEYSTROKES" && e.payload.Keystrokes? &&
    ((exists i :: 0 <= i < |e.payload.keys| && e.payload.keys[i].dt > 4000.0) || |Erased(e.payload.keys)| >= 3)
  }

  predicate PastesKeys(e: Event) {
    e.ty == "PASSIVE_KEYSTROKES" && e.payload.Keystrokes? && exists i :: 0 <= i < |e.payload.keys| && e.payload.keys[i].paste
  }

  /** The first event of one of these types. */
  function FirstOf(es: seq<Event>, tys: set<string>): Option<Event> {
    if es == [] then None else if es[0].ty in tys then Some(es[0]) else FirstOf(es[1..], tys)
  }

  function FirstAttestation(es: seq<Event>): Option<Event> {
    if es == [] then None
    else if es[0].ty == "PASSIVE_ATTESTATION" && es[0].payload.Attestation? then Some(es[0])
    else FirstAttestation(es[1..])
  }

  function Read(e: Option<Event>): Payload {
    if e.Some? then e.value.payload else Unreadable
  }

  predicate ReportsRemote(e: Event) {
    e.ty == "PASSIVE_REMOTE_ACCESS" && e.payload.Remote? && (e.payload.sharing || e.payload.accessibilitySuspect)
  }

  predicate Touches(e: Event) {
    e.ty == "PASSIVE_TOUCH_STROKES" && e.payload.Strokes?
  }

  predicate IsRobotic(s: Stroke) {
    s.len.Some? && s.straight.Some? && s.len.value > 30.0 && s.straight.value >= 0.99
  }

  function RoboticIn(ss: seq<Stroke>): set<nat> {
    set i: nat | i < |ss| && IsRobotic(ss[i])
  }

  function Own(e: Event): seq<Stroke> {
    if Touches(e) then e.payload.strokes else []
  }

  /** All touch strokes of the log. */
  function StrokesOf(es: seq<Event>): seq<Stroke> {
    if es == [] then [] else Own(es[0]) + StrokesOf(es[1..])
  }

  predicate Remotely(es: seq<Event>) {
    || (exists i :: 0 <= i < |es| && ReportsRemote(es[i]))
    || (exists i :: 0 <= i < |StrokesOf(es)| && StrokesOf(es)[i].obscured)
    || |RoboticIn(StrokesOf(es))| >= 3
  }

  function Area(g: string): string {
    if |g| <= 4 then g else g[..4]
  }

  predicate Unusual(g: string, history: seq<string>) {
    g != "" && history != [] && forall i :: 0 <= i < |history| ==> Area(history[i]) != Area(g)
  }

  // ---------- the table ----------

  function When(b: bool, weight: int): int {
    if b then weight else 0
  }

  function IntegrityWeight(p: Payload, code: Code): int {
    if !p.Integrity? then 0 else
    match code
    case DEVICE_INTEGRITY => When(p.rooted || p.hooked, 30)
    case EMULATOR => When(p.emulator, 20)
    case ACCESSIBILITY_SERVICES => When(p.accessibility, 15)
    case DEBUG_BUILD => When(p.debuggable, 20)
    case DEV_OPTIONS => When(p.devOptions, 10)
    case SIDELOADED_APP =>
      When(p.installer == Some("") || p.installer == Some("com.android.packageinstaller")
           || p.installer == Some("com.google.android.packageinstaller"), 25)
    case _ => 0
  }

  function NetworkWeight(p: Payload, code: Code): int {
    if !p.Network? then 0 else
    match code
    case VPN_ACTIVE => When(p.vpn, 10)
    case PROXY_CONFIGURED => When(p.proxy, 15)
    case MITM_CA_INSTALLED =>
      When(p.userCas.Some? && p.userCas.value > 0 && (p.systemCas.Some? ==> p.systemCas.value > 0), 30)
    case _ => 0
  }

  function LocationWeight(c: Ctx, e: Option<Event>, code: Code): int {
    if !Read(e).Location? then 0 else
    match code
    case MOCK_LOCATION => When(Read(e).mock, 25)
    case IMPOSSIBLE_TRAVEL => When(Read(e).geohash != "" && e.value.ts > 0 && c.impossibleTravel, 30)
    case GEO_UNUSUAL => When(Unusual(Read(e).geohash, c.historyGeohashes), 10)
    case _ => 0
  }

  /** The weight a code is raised with, 0 when it is not raised: what was done, on which device, by whom and where. */
  ghost function Weight(c: Ctx, t: Txn, code: Code): int {
    if Place(code) < 11 then ConductWeight(c, t, code)
    else if Place(code) < 26 then HandsetWeight(c, code)
    else ProfileWeight(c, t, code)
  }

  ghost function ConductWeight(c: Ctx, t: Txn, code: Code): int {
    var es := c.events;
    match code
    case ACTIVE_CALL => When(Called(es), 35)
    case CALL_HANDS_FREE => When(HandsFree(es), 10)
    case RECENT_CALL => When(!Called(es) && HungUpJustBefore(es), 25)
    case STEP_UP_FAILED => When(StepUpFailed(es), 35)
    case STEP_UP_ABANDONED => When(StepUpAbandoned(es), 20)
    case NEW_PAYEE => When(t.payeeIsNew, 15)
    case RUSHED_NEW_PAYEE => When(t.payeeIsNew && AddedJustBefore(es, c.now), 20)
    case ESCALATING_PAYEE =>
      When(|c.payeePrior| >= 2 && t.amount > 1.3 * c.payeePrior[0] && c.payeePrior[0] > 1.3 * c.payeePrior[1], 35)
    case KNOWN_MULE_PAYEE => When(c.payeeIntel == "confirmed", 55)
    case PAYEE_UNDER_INVESTIGATION => When(c.payeeIntel == "open", 30)
    case GAMBLING_PAYEE => When(c.payeeCategory == "GAMBLING", 10)
    case CRYPTO_P2P_PAYEE => When(c.payeeCategory == "CRYPTO_P2P", 10)
    case INFORMAL_FX_PAYEE => When(c.payeeCategory == "INFORMAL_FX", 12)
    case AMOUNT_ABOVE_PROFILE => When(|PositiveAmounts(c.amountHistory)| >= 3 && t.amount > 3.0 * c.medianAmount, 25)
    case HIGH_AMOUNT =>
      When(|PositiveAmounts(c.amountHistory)| < 3 && t.amount >= (if c.highAmount > 0.0 then c.highAmount else 500000.0), 20)
    case TXN_VELOCITY =>
      var v := VelocityConfig(c.velocity);
      var n := Transfers(es, v.windowMin);
      When(n >= v.threshold, v.baseWeight + v.slope * (n - v.threshold))
    case HESITATION => When(exists i :: 0 <= i < |es| && Hesitates(es[i]), 10)
    case PASTE_INPUT => When(exists i :: 0 <= i < |es| && PastesKeys(es[i]), 10)
    case _ => 0
  }

  ghost function HandsetWeight(c: Ctx, code: Code): int {
    var es := c.events;
    var attested := Read(FirstAttestation(es));
    match code
    case NO_USER_BOUND => When(c.userRef == "", 20)
    case NEW_DEVICE_FOR_USER =>
      When(c.userRef != "" && c.deviceFirstSeen.Some? && c.sessionStart.Some?
           && c.deviceFirstSeen.value + 60000 >= c.sessionStart.value, 25)
    case SIM_CHANGED => When(c.simChanged, 15)
    case NEW_INSTALL =>
      var p := Read(FirstOf(es, {"PASSIVE_WEB_FINGERPRINT", "PASSIVE_DEVICE_FINGERPRINT"}));
      When(p.Fingerprint? && p.installAgeMs.Some? && 0 <= p.installAgeMs.value < 86400000, 15)
    case DEVICE_INTEGRITY | EMULATOR | ACCESSIBILITY_SERVICES | DEBUG_BUILD | DEV_OPTIONS | SIDELOADED_APP =>
      IntegrityWeight(Read(FirstOf(es, {"PASSIVE_APP_INTEGRITY"})), code)
    case ATTESTATION_FAILED => When(attested.Attestation? && attested.verified && attested.failed, 40)
    case ATTESTATION_MISSING =>
      When(attested.Attestation? && !(attested.verified && attested.failed) && attested.android
           && ("API_ERROR" <= attested.status || "UNAVAILABLE" <= attested.status), 10)
    case VPN_ACTIVE | PROXY_CONFIGURED | MITM_CA_INSTALLED => NetworkWeight(Read(FirstOf(es, {"PASSIVE_NET_INTEGRITY"})), code)
    case CLONE_CONTAINER =>
      var p := Read(FirstOf(es, {"PASSIVE_APP_CONTAINER"}));
      When(p.Container? && (p.virtualized || (p.secondaryUser && !p.admin)), 20)
    case SCREENSHOT => When(FirstOf(es, {"PASSIVE_SCREENSHOT"}).Some?, 10)
    case _ => 0
  }

  ghost function ProfileWeight(c: Ctx, t: Txn, code: Code): int {
    var es := c.events;
    match code
    case TOUCH_ANOMALY => When(c.touchAnomaly, 25)
    case REMOTE_ACCESS => When(Remotely(es), 35)
    case HEADLESS_BROWSER =>
      var p := Read(FirstOf(es, {"PASSIVE_WEB_FINGERPRINT"}));
      When(p.Fingerprint? && p.headless, 30)
    case MOUSE_ANOMALY => When(c.mouseAnomaly, 25)
    case KEYSTROKE_ANOMALY => When(c.cadenceAnomaly, 20)
    case MOCK_LOCATION | IMPOSSIBLE_TRAVEL | GEO_UNUSUAL => LocationWeight(c, FirstOf(es, {"PASSIVE_LOCATION_COARSE"}), code)
    case RAPID_IN_OUT =>
      When(c.hasBankFlow && c.flowIn72 > 0.0 && c.flowLastIn.Some? && c.flowPrior90d == 0
           && c.now - c.flowLastIn.value < 86400000 && t.amount >= 0.6 * c.flowIn72, 30)
    case FAN_OUT_24H => When(c.hasBankFlow && c.flowFan >= 3, 20)
    case DORMANT_REACTIVATED =>
      When(c.prevSessionAt.Some? && c.sessionStart.Some? && c.sessionStart.value - c.prevSessionAt.value > 7776000000, 25)
    case RAPID_TO_TXN =>
      var sent := FirstOf(es, {"BIZ_TXN_INITIATED"});
      When(t.payeeIsNew && sent.Some? && 0 <= sent.value.ts - es[0].ts < 20000, 10)
    case _ => 0
  }

  // ---------- the scans mean what the table says ----------

  lemma {:induction false} FirstIs(es: seq<Event>, p: Event -> bool) returns (i: nat)
    ensures First(es, p).None? <==> forall j :: 0 <= j < |es| ==> !p(es[j])
    ensures First(es, p).Some? ==> i < |es| && First(es, p).value == es[i] && p(es[i]) && forall j :: 0 <= j < i ==> !p(es[j])
  {
    i := 0;
    if es != [] {
      var init := es[..|es| - 1];
      i := FirstIs(init, p);
      assert forall j :: 0 <= j < |init| ==> init[j] == es[j];
      if First(init, p).None? { i := |es| - 1; }
    }
  }

  lemma {:induction false} FirstOfIs(es: seq<Event>, p: Event -> bool, tys: set<string>)
    requires forall e: Event :: p(e) <==> e.ty in tys
    ensures First(es, p) == FirstOf(es, tys)
  {
    if es != [] {
      FirstOfIs(es[1..], p, tys);
      FirstFront(es, p);
    }
  }

  lemma {:induction false} FirstFront(es: seq<Event>, p: Event -> bool)
    requires es != []
    ensures First(es, p) == if p(es[0]) then Some(es[0]) else First(es[1..], p)
  {
    var init := es[..|es| - 1];
    if init == [] {
      assert es[1..] == [] && First(init, p) == None;
    } else {
      FirstFront(init, p);
      assert es[1..][..|es[1..]| - 1] == init[1..];
    }
  }

  lemma {:induction false} FirstAttestationIs(es: seq<Event>)
    ensures First(es, AttestationEvent) == FirstAttestation(es)
  {
    if es != [] {
      FirstAttestationIs(es[1..]);
      FirstFront(es, AttestationEvent);
    }
  }

  lemma NewestIs(es: seq<Event>, p: Event -> bool, q: Event -> bool)
    requires forall e: Event :: p(e) <==> q(e)
    ensures forall at :: Newest(es, q, at) <==> at > 0 && at == Latest(es, p)
  {
    LatestIs(es, p);
    var last := Latest(es, p);
    if last > 0 {
      var i :| 0 <= i < |es| && p(es[i]) && es[i].ts == last;
      assert q(es[i]);
      assert Newest(es, q, last);
    }
    forall at ensures Newest(es, q, at) ==> at > 0 && at == last {
      if Newest(es, q, at) {
        var i :| 0 <= i < |es| && q(es[i]) && es[i].ts == at;
        assert p(es[i]);
      }
    }
  }

  lemma {:induction false} LastStepUpIs(es: seq<Event>) returns (i: nat)
    ensures (forall j :: 0 <= j < |es| ==> !StepsUp(es[j])) ==> LastStepUp(es) == (0, "")
    ensures (exists j :: 0 <= j < |es| && StepsUp(es[j])) ==>
              LastResult(es, i) && LastStepUp(es) == (es[i].ts, Upper(es[i].payload.outcome))
  {
    i := 0;
    if es != [] {
      var init, e := es[..|es| - 1], es[|es| - 1];
      i := LastStepUpIs(init);
      assert forall j :: 0 <= j < |init| ==> init[j] == es[j];
      if StepsUp(e) && (i >= |init| || !LastResult(init, i) || e.ts >= init[i].ts) { i := |es| - 1; }
    }
  }

  lemma {:induction false} UpperAt(s: string)
    ensures forall i :: 0 <= i < |s| ==> Upper(s)[i] == UpperChar(s[i])
  {
    if s != "" { UpperAt(s[1..]); }
  }

  lemma UpperSpells(s: string, capitals: string)
    requires forall i :: 0 <= i < |capitals| ==> 'A' <= capitals[i] <= 'Z'
    ensures Upper(s) == capitals <==> Spells(s, capitals)
  {
    UpperAt(s);
    if Spells(s, capitals) {
      forall i | 0 <= i < |s| ensures Upper(s)[i] == capitals[i] {
        var upper := s[i];
        assert upper == capitals[i] || upper as int == capitals[i] as int + 32;
      }
    }
  }

  lemma {:induction false} PositivesAre(xs: seq<real>)
    ensures Positives(xs) == |PositiveAmounts(xs)|
  {
    if xs != [] {
      var n: nat := |xs| - 1;
      PositivesAre(xs[..n]);
      OneMore(PositiveAmounts(xs[..n]), PositiveAmounts(xs), n, xs[n] > 0.0);
    }
  }

  lemma {:induction false} DeletionsAre(keys: seq<KeyTiming>)
    ensures Deletions(keys) == |Erased(keys)|
  {
    if keys != [] {
      var n: nat := |keys| - 1;
      DeletionsAre(keys[..n]);
      OneMore(Erased(keys[..n]), Erased(keys), n, keys[n].deletion);
    }
  }

  lemma {:induction false} RoboticAre(ss: seq<Stroke>)
    ensures RoboticCount(ss) == |RoboticIn(ss)|
  {
    if ss != [] {
      var n: nat := |ss| - 1;
      RoboticAre(ss[..n]);
      OneMore(RoboticIn(ss[..n]), RoboticIn(ss), n, Robotic(ss[n]));
    }
  }

  lemma Regroup<T>(a: seq<T>, b: seq<T>, c: seq<T>)
    ensures (a + b) + c == a + (b + c)
  {}

  lemma {:induction false} StrokesFront(es: seq<Event>)
    requires es != []
    ensures AllStrokes(es) == Own(es[0]) + AllStrokes(es[1..])
  {
    var init, last := es[..|es| - 1], es[|es| - 1];
    assert AllStrokes(es) == AllStrokes(init) + Own(last);
    if init == [] {
      assert es[1..] == [] && AllStrokes([]) == [];
    } else {
      StrokesFront(init);
      assert es[1..][..|es[1..]| - 1] == init[1..];
      assert AllStrokes(es[1..]) == AllStrokes(init[1..]) + Own(last);
      Regroup(Own(es[0]), AllStrokes(init[1..]), Own(last));
    }
  }

  lemma {:induction false} StrokesAre(es: seq<Event>)
    ensures AllStrokes(es) == StrokesOf(es)
  {
    if es != [] {
      StrokesFront(es);
      StrokesAre(es[1..]);
    }
  }

  lemma RemotelyIff(es: seq<Event>)
    ensures RemoteControlled(es) <==> Remotely(es)
  {
    var i := FirstIs(es, RemoteEvent);
    assert forall j :: 0 <= j < |es| ==> (RemoteEvent(es[j]) <==> ReportsRemote(es[j]));
    StrokesAre(es);
    RoboticAre(StrokesOf(es));
  }

  // ---------- the velocity window ----------

  /** The transfers no older than a cutoff. */
  function Later(es: seq<Event>, cutoff: int): set<nat> {
    set i: nat | i < |es| && es[i].ty == "BIZ_TXN_INITIATED" && es[i].ts >= cutoff
  }

  lemma {:induction false} SinceAre(es: seq<Event>, cutoff: int)
    ensures Since(es, Transfer, cutoff) == |Later(es, cutoff)|
  {
    if es != [] {
      var n: nat := |es| - 1;
      SinceAre(es[..n], cutoff);
      OneMore(Later(es[..n], cutoff), Later(es, cutoff), n, Transfer(es[n]) && es[n].ts >= cutoff);
    }
  }

  /** The velocity count is the number of transfers at or after the last one's time less the window, in milliseconds. */
  lemma VelocityIs(es: seq<Event>, windowMin: int)
    ensures VelocityCount(es, windowMin) == Transfers(es, windowMin)
  {
    LatestIs(es, Transfer);
    var last := Latest(es, Transfer);
    if last > 0 {
      var k :| 0 <= k < |es| && Transfer(es[k]) && es[k].ts == last;
      SinceAre(es, last - windowMin * 60000);
      forall i: nat | i < |es| ensures i in Later(es, last - windowMin * 60000) <==> i in InWindow(es, windowMin) {
        WindowIs(es, windowMin, last, k, i);
      }
      assert Later(es, last - windowMin * 60000) == InWindow(es, windowMin);
    } else {
      assert forall i :: 0 <= i < |es| && es[i].ty == "BIZ_TXN_INITIATED" ==> Transfer(es[i]);
    }
  }

  lemma WindowIs(es: seq<Event>, windowMin: int, last: int, k: nat, i: nat)
    requires k < |es| && es[k].ty == "BIZ_TXN_INITIATED" && es[k].ts == last && i < |es|
    requires forall j :: 0 <= j < |es| && Transfer(es[j]) ==> es[j].ts <= last
    ensures i in Later(es, last - windowMin * 60000) <==> i in InWindow(es, windowMin)
  {
    var w := windowMin * 60000;
    forall j | 0 <= j < |es| && es[j].ty == "BIZ_TXN_INITIATED" ensures es[j].ts - w <= last - w { assert Transfer(es[j]); }
  }

  // ---------- the sections against the table ----------

  /** The list holds exactly what f raises in places lo to hi - 1. */
  ghost predicate Lists(s: seq<Signal>, lo: nat, hi: nat, f: Code -> int) {
    forall x: Signal :: x in s <==> lo <= Place(x.code) < hi && x.weight == f(x.code) && x.weight > 0
  }

  lemma ListsJoin(a: seq<Signal>, b: seq<Signal>, lo: nat, mid: nat, hi: nat, f: Code -> int)
    requires lo <= mid <= hi && Lists(a, lo, mid, f) && Lists(b, mid, hi, f)
    ensures Lists(a + b, lo, hi, f)
  {
    forall x: Signal
      ensures x in a + b <==> lo <= Place(x.code) < hi && x.weight == f(x.code) && x.weight > 0
    {
      assert x in a + b <==> x in a || x in b;
    }
  }

  /** A place where nothing but this code can be raised. */
  ghost predicate Only(code: Code, k: nat, f: Code -> int) {
    Place(code) == k && forall y: Code :: Place(y) == k && y != code ==> f(y) == 0
  }

  /** The code that can be raised in its place instead. */
  function Partner(code: Code): Code {
    match code
    case ACTIVE_CALL => RECENT_CALL
    case RECENT_CALL => ACTIVE_CALL
    case STEP_UP_FAILED => STEP_UP_ABANDONED
    case STEP_UP_ABANDONED => STEP_UP_FAILED
    case KNOWN_MULE_PAYEE => PAYEE_UNDER_INVESTIGATION
    case PAYEE_UNDER_INVESTIGATION => KNOWN_MULE_PAYEE
    case AMOUNT_ABOVE_PROFILE => HIGH_AMOUNT
    case HIGH_AMOUNT => AMOUNT_ABOVE_PROFILE
    case NO_USER_BOUND => NEW_DEVICE_FOR_USER
    case NEW_DEVICE_FOR_USER => NO_USER_BOUND
    case ATTESTATION_FAILED => ATTESTATION_MISSING
    case ATTESTATION_MISSING => ATTESTATION_FAILED
    case _ => code
  }

  /** A code of each place. */
  function At(k: nat): Code {
    match k
    case 0 => ACTIVE_CALL case 1 => CALL_HANDS_FREE case 2 => STEP_UP_FAILED case 3 => NEW_PAYEE case 4 => RUSHED_NEW_PAYEE
    case 5 => ESCALATING_PAYEE case 6 => KNOWN_MULE_PAYEE case 8 => AMOUNT_ABOVE_PROFILE case 9 => TXN_VELOCITY
    case 11 => NO_USER_BOUND case 12 => SIM_CHANGED case 13 => NEW_INSTALL case 14 => DEVICE_INTEGRITY case 15 => EMULATOR
    case 16 => ACCESSIBILITY_SERVICES case 17 => DEBUG_BUILD case 18 => DEV_OPTIONS case 19 => SIDELOADED_APP
    case 20 => ATTESTATION_FAILED case 21 => VPN_ACTIVE case 22 => PROXY_CONFIGURED case 23 => MITM_CA_INSTALLED
    case 24 => CLONE_CONTAINER case 25 => SCREENSHOT case 26 => TOUCH_ANOMALY case 27 => REMOTE_ACCESS
    case 28 => HEADLESS_BROWSER case 29 => MOUSE_ANOMALY case 30 => KEYSTROKE_ANOMALY case 31 => MOCK_LOCATION
    case 32 => IMPOSSIBLE_TRAVEL case 33 => GEO_UNUSUAL case 34 => RAPID_IN_OUT case 35 => FAN_OUT_24H
    case 36 => DORMANT_REACTIVATED case _ => RAPID_TO_TXN
  }

  /** A code is that of its place, or the partner of it. */
  predicate AtItsPlace(x: Code) {
    x == At(Place(x)) || (x == Partner(At(Place(x))) && Partner(x) == At(Place(x)))
  }

  lemma CallPlaces(x: Code)
    requires 0 <= Place(x) < 3
    ensures AtItsPlace(x)
  {}

  lemma PayeePlaces(x: Code)
    requires 3 <= Place(x) < 10 && Place(x) != 7
    ensures AtItsPlace(x)
  {}

  lemma DevicePlaces(x: Code)
    requires 11 <= Place(x) < 17
    ensures AtItsPlace(x)
  {}

  lemma IntegrityPlaces(x: Code)
    requires 17 <= Place(x) < 23
    ensures AtItsPlace(x)
  {}

  lemma NetworkPlaces(x: Code)
    requires 23 <= Place(x) < 30
    ensures AtItsPlace(x)
  {}

  lemma MoneyPlaces(x: Code)
    requires 30 <= Place(x)
    ensures AtItsPlace(x)
  {}

  lemma AtPlace(x: Code)
    requires Place(x) != 7 && Place(x) != 10
    ensures AtItsPlace(x)
  {
    if Place(x) < 3 { CallPlaces(x); }
    else if Place(x) < 11 { PayeePlaces(x); }
    else if Place(x) < 17 { DevicePlaces(x); }
    else if Place(x) < 23 { IntegrityPlaces(x); }
    else if Place(x) < 30 { NetworkPlaces(x); }
    else { MoneyPlaces(x); }
  }

  lemma Partners(x: Code, y: Code)
    requires Place(x) == Place(y) && AtItsPlace(x) && AtItsPlace(y)
    ensures y == x || y == Partner(x)
  {}

  lemma OnlyWith(code: Code, k: nat, f: Code -> int)
    requires Place(code) == k && k != 7 && k != 10 && (Partner(code) != code ==> f(Partner(code)) == 0)
    ensures Only(code, k, f)
  {
    AtPlace(code);
    forall y: Code | Place(y) == k && y != code ensures f(y) == 0 {
      AtPlace(y);
      Partners(code, y);
    }
  }

  lemma ListsOne(b: bool, code: Code, w: int, k: nat, f: Code -> int)
    requires Only(code, k, f) && w > 0 && f(code) == When(b, w)
    ensures Lists(If(b, code, w), k, k + 1, f)
  {
    forall x: Signal
      ensures x in If(b, code, w) <==> k <= Place(x.code) < k + 1 && x.weight == f(x.code) && x.weight > 0
    {
      assert x in If(b, code, w) <==> b && x == Signal(code, w);
    }
  }

  lemma ListsAlone(b: bool, code: Code, w: int, k: nat, f: Code -> int)
    requires Place(code) == k && k != 7 && k != 10 && Partner(code) == code && w > 0 && f(code) == When(b, w)
    ensures Lists(If(b, code, w), k, k + 1, f)
  {
    OnlyWith(code, k, f);
    ListsOne(b, code, w, k, f);
  }

  /** Two codes that exclude each other share a place. */
  lemma ListsEither(b: bool, code: Code, w: int, a: bool, other: Code, v: int, k: nat, f: Code -> int)
    requires Place(code) == k && Place(other) == k && k != 7 && k != 10
    requires Partner(code) == other && Partner(other) == code && w > 0 && v > 0
    requires f(code) == When(b, w) && f(other) == When(!b && a, v)
    ensures Lists(if b then If(true, code, w) else If(a, other, v), k, k + 1, f)
  {
    if b {
      OnlyWith(code, k, f);
      ListsOne(true, code, w, k, f);
    } else {
      OnlyWith(other, k, f);
      ListsOne(a, other, v, k, f);
    }
  }

  /** f is the table. */
  ghost predicate Reads(f: Code -> int, c: Ctx, t: Txn) {
    forall code :: f(code) == Weight(c, t, code)
  }

  lemma ReadsConduct(f: Code -> int, c: Ctx, t: Txn, code: Code)
    requires Reads(f, c, t) && Place(code) < 11
    ensures f(code) == ConductWeight(c, t, code)
  {}

  lemma ReadsHandset(f: Code -> int, c: Ctx, t: Txn, code: Code)
    requires Reads(f, c, t) && 11 <= Place(code) < 26
    ensures f(code) == HandsetWeight(c, code)
  {}

  lemma ReadsProfile(f: Code -> int, c: Ctx, t: Txn, code: Code)
    requires Reads(f, c, t) && 26 <= Place(code)
    ensures f(code) == ProfileWeight(c, t, code)
  {}

  // ---------- calls, step-ups, payee and amount ----------

  lemma HungUpIff(es: seq<Event>)
    ensures var ended, sent := Latest(es, CallEnd), Latest(es, Transfer);
      HungUpJustBefore(es) <==> ended > 0 && sent > ended && sent - ended <= 5 * MINUTE
  {
    NewestIs(es, CallEnd, HangsUp);
    NewestIs(es, Transfer, Sends);
    var ended, sent := Latest(es, CallEnd), Latest(es, Transfer);
    if ended > 0 && sent > ended { assert Newest(es, HangsUp, ended) && Newest(es, Sends, sent); }
  }

  lemma CallScans(es: seq<Event>)
    ensures var call := First(es, DuringCall);
      && (call.Some? <==> Called(es)) && (call.None? ==> !HandsFree(es))
      && (call.Some? ==> call.value.call.Some?)
      && (call.Some? ==> var k := call.value.call.value; HandsFree(es) <==> k.speaker || k.bluetooth || k.wired)
  {
    var i := FirstIs(es, DuringCall);
    assert forall j :: 0 <= j < |es| ==> (DuringCall(es[j]) <==> InCall(es[j]));
  }

  lemma CallsListed(c: Ctx, t: Txn, f: Code -> int)
    requires Reads(f, c, t)
    ensures Lists(Calls(c.events), 0, 2, f)
  {
    CallScans(c.events);
    HungUpIff(c.events);
    ReadsConduct(f, c, t, ACTIVE_CALL);
    ReadsConduct(f, c, t, CALL_HANDS_FREE);
    ReadsConduct(f, c, t, RECENT_CALL);
    var called, hands, recent := Called(c.events), HandsFree(c.events), HungUpJustBefore(c.events);
    var first := if called then If(true, ACTIVE_CALL, 35) else If(recent, RECENT_CALL, 25);
    ListsEither(called, ACTIVE_CALL, 35, recent, RECENT_CALL, 25, 0, f);
    ListsAlone(hands, CALL_HANDS_FREE, 10, 1, f);
    ListsJoin(first, If(hands, CALL_HANDS_FREE, 10), 0, 1, 2, f);
    assert Calls(c.events) == first + If(hands, CALL_HANDS_FREE, 10);
  }

  lemma StepUpScans(es: seq<Event>)
    ensures var outcome := LastStepUp(es).1;
      && (StepUpFailed(es) <==> outcome == "FAIL" || outcome == "FAILURE" || outcome == "LOCKED")
      && (StepUpAbandoned(es) <==> outcome == "ABANDONED")
  {
    var i := LastStepUpIs(es);
    if exists j :: 0 <= j < |es| && StepsUp(es[j]) {
      var outcome := es[i].payload.outcome;
      UpperSpells(outcome, "FAIL");
      UpperSpells(outcome, "FAILURE");
      UpperSpells(outcome, "LOCKED");
      UpperSpells(outcome, "ABANDONED");
      assert forall j: nat :: j < |es| && LastResult(es, j) ==> j == i;
    }
  }

  lemma StepUpsListed(c: Ctx, t: Txn, f: Code -> int)
    requires Reads(f, c, t)
    ensures Lists(StepUps(c.events), 2, 3, f)
  {
    StepUpScans(c.events);
    ReadsConduct(f, c, t, STEP_UP_FAILED);
    ReadsConduct(f, c, t, STEP_UP_ABANDONED);
    ListsEither(StepUpFailed(c.events), STEP_UP_FAILED, 35, StepUpAbandoned(c.events), STEP_UP_ABANDONED, 20, 2, f);
  }

  lemma AddedIff(es: seq<Event>, now: int)
    ensures var added := Latest(es, PayeeAdded);
      var sent := if Latest(es, Transfer) == 0 then now else Latest(es, Transfer);
      AddedJustBefore(es, now) <==> added > 0 && sent >= added && sent - added <= 30 * MINUTE
  {
    NewestIs(es, PayeeAdded, Adds);
    NewestIs(es, Transfer, Sends);
    var added, sent := Latest(es, PayeeAdded), Latest(es, Transfer);
    assert added > 0 ==> Newest(es, Adds, added);
    assert sent > 0 ==> Newest(es, Sends, sent);
  }

  lemma NewPayeeListed(c: Ctx, t: Txn, f: Code -> int)
    requires Reads(f, c, t)
    ensures Lists(NewPayee(c, t), 3, 5, f)
  {
    AddedIff(c.events, c.now);
    ReadsConduct(f, c, t, NEW_PAYEE);
    ReadsConduct(f, c, t, RUSHED_NEW_PAYEE);
    var isNew, rushed := t.payeeIsNew, t.payeeIsNew && AddedJustBefore(c.events, c.now);
    ListsAlone(isNew, NEW_PAYEE, 15, 3, f);
    ListsAlone(rushed, RUSHED_NEW_PAYEE, 20, 4, f);
    ListsJoin(If(isNew, NEW_PAYEE, 15), If(rushed, RUSHED_NEW_PAYEE, 20), 3, 4, 5, f);
    assert NewPayee(c, t) == If(isNew, NEW_PAYEE, 15) + If(rushed, RUSHED_NEW_PAYEE, 20);
  }

  lemma PayeeListed(c: Ctx, t: Txn, f: Code -> int)
    requires Reads(f, c, t)
    ensures Lists(Escalation(c, t), 5, 6, f) && Lists(Reputation(c), 6, 7, f)
  {
    ReadsConduct(f, c, t, ESCALATING_PAYEE);
    ReadsConduct(f, c, t, KNOWN_MULE_PAYEE);
    ReadsConduct(f, c, t, PAYEE_UNDER_INVESTIGATION);
    var p := c.payeePrior;
    ListsAlone(|p| >= 2 && t.amount > 1.3 * p[0] && p[0] > 1.3 * p[1], ESCALATING_PAYEE, 35, 5, f);
    ListsEither(c.payeeIntel == "confirmed", KNOWN_MULE_PAYEE, 55, c.payeeIntel == "open", PAYEE_UNDER_INVESTIGATION, 30, 6, f);
  }

  lemma OnlyCategory(code: Code, f: Code -> int)
    requires Place(code) == 7
    requires forall y :: y in {GAMBLING_PAYEE, CRYPTO_P2P_PAYEE, INFORMAL_FX_PAYEE} && y != code ==> f(y) == 0
    ensures Only(code, 7, f)
  {}

  lemma CategoryListed(c: Ctx, t: Txn, f: Code -> int)
    requires Reads(f, c, t)
    ensures Lists(Category(c), 7, 8, f)
  {
    ReadsConduct(f, c, t, GAMBLING_PAYEE);
    ReadsConduct(f, c, t, CRYPTO_P2P_PAYEE);
    ReadsConduct(f, c, t, INFORMAL_FX_PAYEE);
    var code, w := INFORMAL_FX_PAYEE, 12;
    if c.payeeCategory == "GAMBLING" { code, w := GAMBLING_PAYEE, 10; }
    if c.payeeCategory == "CRYPTO_P2P" { code, w := CRYPTO_P2P_PAYEE, 10; }
    OnlyCategory(code, f);
    ListsOne(f(code) > 0, code, w, 7, f);
  }

  lemma AmountListed(c: Ctx, t: Txn, f: Code -> int)
    requires Reads(f, c, t)
    ensures Lists(Amount(c, t), 8, 9, f)
  {
    PositivesAre(c.amountHistory);
    ReadsConduct(f, c, t, AMOUNT_ABOVE_PROFILE);
    ReadsConduct(f, c, t, HIGH_AMOUNT);
    var known := |PositiveAmounts(c.amountHistory)| >= 3;
    ListsEither(f(AMOUNT_ABOVE_PROFILE) > 0, AMOUNT_ABOVE_PROFILE, 25, f(HIGH_AMOUNT) > 0, HIGH_AMOUNT, 20, 8, f);
  }

  lemma RapidListed(c: Ctx, t: Txn, f: Code -> int)
    requires Reads(f, c, t)
    ensures Lists(Rapid(c), 9, 10, f)
  {
    var v := VelocityConfig(c.velocity);
    VelocityIs(c.events, v.windowMin);
    ReadsConduct(f, c, t, TXN_VELOCITY);
    var n := Transfers(c.events, v.windowMin);
    OnlyWith(TXN_VELOCITY, 9, f);
    if n >= v.threshold {
      ExtraWeight(v.slope, n - v.threshold);
      ListsOne(true, TXN_VELOCITY, v.baseWeight + v.slope * (n - v.threshold), 9, f);
    } else {
      ListsOne(false, TXN_VELOCITY, 1, 9, f);
    }
  }

  lemma ExtraWeight(slope: int, excess: int)
    requires slope > 0 && excess >= 0
    ensures slope * excess >= 0
  {}

  // ---------- typing, device and network ----------

  lemma {:induction false} HesitatedIff(es: seq<Event>)
    ensures Hesitated(es) <==> exists i :: 0 <= i < |es| && Hesitates(es[i])
  {
    if es != [] {
      var init, e := es[..|es| - 1], es[|es| - 1];
      HesitatedIff(init);
      if TypingEvent(e) { DeletionsAre(e.payload.keys); }
      assert forall i :: 0 <= i < |init| ==> init[i] == es[i];
    }
  }

  lemma PastedIff(es: seq<Event>)
    ensures PastedIn(es) <==> exists i :: 0 <= i < |es| && PastesKeys(es[i])
  {
    PastesIff(es);
    assert forall i :: 0 <= i < |es| ==> (PastesKeys(es[i]) <==> TypingEvent(es[i]) && Pasted(es[i].payload.keys));
  }

  lemma ListsBoth(s: seq<Signal>, hesitates: bool, pastes: bool, f: Code -> int)
    requires f(HESITATION) == When(hesitates, 10) && f(PASTE_INPUT) == When(pastes, 10)
    requires forall x :: x in s <==> (hesitates && x == Signal(HESITATION, 10)) || (pastes && x == Signal(PASTE_INPUT, 10))
    ensures Lists(s, 10, 11, f)
  {
    assert forall y: Code :: Place(y) == 10 ==> y == HESITATION || y == PASTE_INPUT;
  }

  lemma TypingListed(c: Ctx, t: Txn, f: Code -> int)
    requires Reads(f, c, t)
    ensures Lists(Typing(c.events), 10, 11, f)
  {
    HesitatedIff(c.events);
    PastedIff(c.events);
    TypingShape(c.events);
    ReadsConduct(f, c, t, HESITATION);
    ReadsConduct(f, c, t, PASTE_INPUT);
    ListsBoth(Typing(c.events), Hesitated(c.events), PastedIn(c.events), f);
  }

  lemma ConductListed(c: Ctx, t: Txn, f: Code -> int)
    requires Reads(f, c, t)
    ensures Lists(Conduct(c, t), 0, 11, f)
  {
    CallsListed(c, t, f);
    StepUpsListed(c, t, f);
    NewPayeeListed(c, t, f);
    PayeeListed(c, t, f);
    CategoryListed(c, t, f);
    AmountListed(c, t, f);
    RapidListed(c, t, f);
    TypingListed(c, t, f);
    var five := Calls(c.events) + StepUps(c.events) + NewPayee(c, t) + Escalation(c, t) + Reputation(c);
    Lists5(Calls(c.events), StepUps(c.events), NewPayee(c, t), Escalation(c, t), Reputation(c), 0, 2, 3, 5, 6, 7, f);
    Lists5(five, Category(c), Amount(c, t), Rapid(c), Typing(c.events), 0, 7, 8, 9, 10, 11, f);
  }

  lemma Lists5(a: seq<Signal>, b: seq<Signal>, c: seq<Signal>, d: seq<Signal>, e: seq<Signal>,
               p: nat, q: nat, r: nat, s: nat, t: nat, u: nat, f: Code -> int)
    requires p <= q <= r <= s <= t <= u && Lists(a, p, q, f) && Lists(b, q, r, f) && Lists(c, r, s, f)
    requires Lists(d, s, t, f) && Lists(e, t, u, f)
    ensures Lists(a + b + c + d + e, p, u, f)
  {
    ListsJoin(a, b, p, q, r, f);
    ListsJoin(a + b, c, p, r, s, f);
    ListsJoin(a + b + c, d, p, s, t, f);
    ListsJoin(a + b + c + d, e, p, t, u, f);
  }

  lemma ListsMore(s: seq<Signal>, b: bool, code: Code, w: int, lo: nat, k: nat, f: Code -> int)
    requires Lists(s, lo, k, f) && lo <= k
    requires Place(code) == k && k != 7 && k != 10 && Partner(code) == code && w > 0 && f(code) == When(b, w)
    ensures Lists(s + If(b, code, w), lo, k + 1, f)
  {
    ListsAlone(b, code, w, k, f);
    ListsJoin(s, If(b, code, w), lo, k, k + 1, f);
  }

  lemma DeviceListed(c: Ctx, t: Txn, f: Code -> int)
    requires Reads(f, c, t)
    ensures Lists(Device(c), 11, 13, f)
  {
    ReadsHandset(f, c, t, NO_USER_BOUND);
    ReadsHandset(f, c, t, NEW_DEVICE_FOR_USER);
    ReadsHandset(f, c, t, SIM_CHANGED);
    var recent := f(NEW_DEVICE_FOR_USER) > 0;
    var first := if c.userRef == "" then If(true, NO_USER_BOUND, 20) else If(recent, NEW_DEVICE_FOR_USER, 25);
    ListsEither(c.userRef == "", NO_USER_BOUND, 20, recent, NEW_DEVICE_FOR_USER, 25, 11, f);
    ListsMore(first, c.simChanged, SIM_CHANGED, 15, 11, 12, f);
  }

  lemma InstallListed(c: Ctx, t: Txn, f: Code -> int)
    requires Reads(f, c, t)
    ensures Lists(Install(First(c.events, FingerprintEvent)), 13, 14, f)
  {
    FirstOfIs(c.events, FingerprintEvent, {"PASSIVE_WEB_FINGERPRINT", "PASSIVE_DEVICE_FINGERPRINT"});
    ReadsHandset(f, c, t, NEW_INSTALL);
    ListsAlone(f(NEW_INSTALL) > 0, NEW_INSTALL, 15, 13, f);
  }

  lemma ListsThree(s: seq<Signal>, b1: bool, c1: Code, w1: int, b2: bool, c2: Code, w2: int, b3: bool, c3: Code, w3: int,
                   lo: nat, k: nat, f: Code -> int)
    requires Lists(s, lo, k, f) && lo <= k && k > 11 && w1 > 0 && w2 > 0 && w3 > 0
    requires Partner(c1) == c1 && Partner(c2) == c2 && Partner(c3) == c3
    requires Place(c1) == k && Place(c2) == k + 1 && Place(c3) == k + 2
    requires f(c1) == When(b1, w1) && f(c2) == When(b2, w2) && f(c3) == When(b3, w3)
    ensures Lists(s + If(b1, c1, w1) + If(b2, c2, w2) + If(b3, c3, w3), lo, k + 3, f)
  {
    ListsMore(s, b1, c1, w1, lo, k, f);
    ListsMore(s + If(b1, c1, w1), b2, c2, w2, lo, k + 1, f);
    ListsMore(s + If(b1, c1, w1) + If(b2, c2, w2), b3, c3, w3, lo, k + 2, f);
  }

  lemma ListsNone(k: nat, f: Code -> int)
    ensures Lists([], k, k, f)
  {}

  lemma FromNone(a: seq<Signal>, b: seq<Signal>, c: seq<Signal>)
    ensures [] + a + b + c == a + b + c
  {}

  lemma IntegrityFirst(p: Payload, f: Code -> int)
    requires p.Integrity? && forall code :: 14 <= Place(code) < 17 ==> f(code) == IntegrityWeight(p, code)
    ensures Lists(If(p.rooted || p.hooked, DEVICE_INTEGRITY, 30) + If(p.emulator, EMULATOR, 20)
                  + If(p.accessibility, ACCESSIBILITY_SERVICES, 15), 14, 17, f)
  {
    var a, b, c := p.rooted || p.hooked, p.emulator, p.accessibility;
    ListsNone(14, f);
    ListsThree([], a, DEVICE_INTEGRITY, 30, b, EMULATOR, 20, c, ACCESSIBILITY_SERVICES, 15, 14, 14, f);
    FromNone(If(a, DEVICE_INTEGRITY, 30), If(b, EMULATOR, 20), If(c, ACCESSIBILITY_SERVICES, 15));
  }

  lemma SideloadedIs(p: Payload)
    requires p.Integrity?
    ensures IntegrityWeight(p, SIDELOADED_APP) == When(p.installer.Some? && ManualInstaller(p.installer.value), 25)
  {}

  lemma IntegrityRest(s: seq<Signal>, p: Payload, sideloaded: bool, f: Code -> int)
    requires p.Integrity?
    requires f(DEBUG_BUILD) == IntegrityWeight(p, DEBUG_BUILD) && f(DEV_OPTIONS) == IntegrityWeight(p, DEV_OPTIONS)
    requires f(SIDELOADED_APP) == When(sideloaded, 25) && Lists(s, 14, 17, f)
    ensures Lists(s + If(p.debuggable, DEBUG_BUILD, 20) + If(p.devOptions, DEV_OPTIONS, 10) + If(sideloaded, SIDELOADED_APP, 25),
                  14, 20, f)
  {
    ListsThree(s, p.debuggable, DEBUG_BUILD, 20, p.devOptions, DEV_OPTIONS, 10, sideloaded, SIDELOADED_APP, 25, 14, 17, f);
  }

  lemma IntegrityOf(e: Option<Event>, f: Code -> int)
    requires forall code :: 14 <= Place(code) < 20 ==> f(code) == IntegrityWeight(Read(e), code)
    ensures Lists(IntegritySignals(e), 14, 20, f)
  {
    var p := Read(e);
    if p.Integrity? {
      IntegrityFirst(p, f);
      SideloadedIs(p);
      IntegrityRest(If(p.rooted || p.hooked, DEVICE_INTEGRITY, 30) + If(p.emulator, EMULATOR, 20)
                    + If(p.accessibility, ACCESSIBILITY_SERVICES, 15),
                    p, p.installer.Some? && ManualInstaller(p.installer.value), f);
    } else {
      assert forall code :: 14 <= Place(code) < 20 ==> f(code) == 0;
    }
  }

  lemma IntegrityReads(c: Ctx, t: Txn, f: Code -> int, code: Code)
    requires Reads(f, c, t) && 14 <= Place(code) < 20
    ensures f(code) == IntegrityWeight(Read(FirstOf(c.events, {"PASSIVE_APP_INTEGRITY"})), code)
  {}

  lemma IntegrityListed(c: Ctx, t: Txn, f: Code -> int)
    requires Reads(f, c, t)
    ensures Lists(IntegritySignals(First(c.events, IntegrityEvent)), 14, 20, f)
  {
    FirstOfIs(c.events, IntegrityEvent, {"PASSIVE_APP_INTEGRITY"});
    forall code | 14 <= Place(code) < 20
      ensures f(code) == IntegrityWeight(Read(First(c.events, IntegrityEvent)), code)
    {
      IntegrityReads(c, t, f, code);
    }
    IntegrityOf(First(c.events, IntegrityEvent), f);
  }

  lemma AttestationListed(c: Ctx, t: Txn, f: Code -> int)
    requires Reads(f, c, t)
    ensures Lists(AttestationSignals(First(c.events, AttestationEvent)), 20, 21, f)
  {
    FirstAttestationIs(c.events);
    ReadsHandset(f, c, t, ATTESTATION_FAILED);
    ReadsHandset(f, c, t, ATTESTATION_MISSING);
    ListsEither(f(ATTESTATION_FAILED) > 0, ATTESTATION_FAILED, 40, f(ATTESTATION_MISSING) > 0, ATTESTATION_MISSING, 10, 20, f);
  }

  lemma NetworkOf(e: Option<Event>, f: Code -> int)
    requires forall code :: 21 <= Place(code) < 24 ==> f(code) == NetworkWeight(Read(e), code)
    ensures Lists(NetworkSignals(e), 21, 24, f)
  {
    var p := Read(e);
    ListsNone(21, f);
    if p.Network? {
      var mitm := (p.systemCas.None? || p.systemCas.value > 0) && p.userCas.Some? && p.userCas.value > 0;
      ListsThree([], p.vpn, VPN_ACTIVE, 10, p.proxy, PROXY_CONFIGURED, 15, mitm, MITM_CA_INSTALLED, 30, 21, 21, f);
      FromNone(If(p.vpn, VPN_ACTIVE, 10), If(p.proxy, PROXY_CONFIGURED, 15), If(mitm, MITM_CA_INSTALLED, 30));
    }
  }

  lemma NetworkReads(c: Ctx, t: Txn, f: Code -> int, code: Code)
    requires Reads(f, c, t) && 21 <= Place(code) < 24
    ensures f(code) == NetworkWeight(Read(FirstOf(c.events, {"PASSIVE_NET_INTEGRITY"})), code)
  {}

  lemma NetworkListed(c: Ctx, t: Txn, f: Code -> int)
    requires Reads(f, c, t)
    ensures Lists(NetworkSignals(First(c.events, NetworkEvent)), 21, 24, f)
  {
    FirstOfIs(c.events, NetworkEvent, {"PASSIVE_NET_INTEGRITY"});
    forall code | 21 <= Place(code) < 24
      ensures f(code) == NetworkWeight(Read(First(c.events, NetworkEvent)), code)
    {
      NetworkReads(c, t, f, code);
    }
    NetworkOf(First(c.events, NetworkEvent), f);
  }

  lemma CloneListed(c: Ctx, t: Txn, f: Code -> int)
    requires Reads(f, c, t)
    ensures Lists(CloneSignals(First(c.events, ContainerEvent)), 24, 25, f)
  {
    FirstOfIs(c.events, ContainerEvent, {"PASSIVE_APP_CONTAINER"});
    ReadsHandset(f, c, t, CLONE_CONTAINER);
    ListsAlone(f(CLONE_CONTAINER) > 0, CLONE_CONTAINER, 20, 24, f);
  }

  lemma ScreenshotListed(c: Ctx, t: Txn, f: Code -> int)
    requires Reads(f, c, t)
    ensures Lists(Screenshot(First(c.events, ScreenshotEvent)), 25, 26, f)
  {
    FirstOfIs(c.events, ScreenshotEvent, {"PASSIVE_SCREENSHOT"});
    ReadsHandset(f, c, t, SCREENSHOT);
    ListsAlone(f(SCREENSHOT) > 0, SCREENSHOT, 10, 25, f);
  }

  lemma HandsetListed(c: Ctx, t: Txn, f: Code -> int)
    requires Reads(f, c, t)
    ensures Lists(Handset(c), 11, 26, f)
  {
    var es := c.events;
    DeviceListed(c, t, f);
    InstallListed(c, t, f);
    IntegrityListed(c, t, f);
    AttestationListed(c, t, f);
    NetworkListed(c, t, f);
    CloneListed(c, t, f);
    ScreenshotListed(c, t, f);
    var install, integrity := Install(First(es, FingerprintEvent)), IntegritySignals(First(es, IntegrityEvent));
    var attestation, network := AttestationSignals(First(es, AttestationEvent)), NetworkSignals(First(es, NetworkEvent));
    var clone, shot := CloneSignals(First(es, ContainerEvent)), Screenshot(First(es, ScreenshotEvent));
    Lists5(Device(c), install, integrity, attestation, network, 11, 13, 14, 20, 21, 24, f);
    var five := Device(c) + install + integrity + attestation + network;
    ListsJoin(five, clone, 11, 24, 25, f);
    ListsJoin(five + clone, shot, 11, 25, 26, f);
  }

  // ---------- behaviour, place and money ----------

  lemma RemoteListed(c: Ctx, t: Txn, f: Code -> int)
    requires Reads(f, c, t)
    ensures Lists(RemoteAccess(c), 27, 28, f)
  {
    RemotelyIff(c.events);
    ReadsProfile(f, c, t, REMOTE_ACCESS);
    ListsAlone(Remotely(c.events), REMOTE_ACCESS, 35, 27, f);
  }

  lemma HeadlessListed(c: Ctx, t: Txn, f: Code -> int)
    requires Reads(f, c, t)
    ensures Lists(Headless(First(c.events, WebEvent)), 28, 29, f)
  {
    FirstOfIs(c.events, WebEvent, {"PASSIVE_WEB_FINGERPRINT"});
    ReadsProfile(f, c, t, HEADLESS_BROWSER);
    ListsAlone(f(HEADLESS_BROWSER) > 0, HEADLESS_BROWSER, 30, 28, f);
  }

  lemma StatisticsListed(c: Ctx, t: Txn, f: Code -> int)
    requires Reads(f, c, t)
    ensures Lists(If(c.touchAnomaly, TOUCH_ANOMALY, 25), 26, 27, f) && Lists(If(c.mouseAnomaly, MOUSE_ANOMALY, 25), 29, 30, f)
    ensures Lists(If(c.cadenceAnomaly, KEYSTROKE_ANOMALY, 20), 30, 31, f)
  {
    ReadsProfile(f, c, t, TOUCH_ANOMALY);
    ListsAlone(c.touchAnomaly, TOUCH_ANOMALY, 25, 26, f);
    ReadsProfile(f, c, t, MOUSE_ANOMALY);
    ListsAlone(c.mouseAnomaly, MOUSE_ANOMALY, 25, 29, f);
    ReadsProfile(f, c, t, KEYSTROKE_ANOMALY);
    ListsAlone(c.cadenceAnomaly, KEYSTROKE_ANOMALY, 20, 30, f);
  }

  lemma AnomaliesListed(c: Ctx, t: Txn, f: Code -> int)
    requires Reads(f, c, t)
    ensures Lists(Anomalies(c), 26, 31, f)
  {
    StatisticsListed(c, t, f);
    RemoteListed(c, t, f);
    HeadlessListed(c, t, f);
    Lists5(If(c.touchAnomaly, TOUCH_ANOMALY, 25), RemoteAccess(c), Headless(First(c.events, WebEvent)),
           If(c.mouseAnomaly, MOUSE_ANOMALY, 25), If(c.cadenceAnomaly, KEYSTROKE_ANOMALY, 20), 26, 27, 28, 29, 30, 31, f);
  }

  lemma UnusualIff(g: string, history: seq<string>)
    ensures g != "" && history != [] && !KnownArea(g, history) <==> Unusual(g, history)
  {
    assert forall h: string :: Prefix4(h) == Area(h);
  }

  lemma GeographyOf(c: Ctx, e: Option<Event>, f: Code -> int)
    requires forall code :: 31 <= Place(code) < 34 ==> f(code) == LocationWeight(c, e, code)
    ensures Lists(Geography(c, e), 31, 34, f)
  {
    var read := Read(e).Location?;
    var g := if read then Read(e).geohash else "";
    UnusualIff(g, c.historyGeohashes);
    var mock, unusual := read && Read(e).mock, Unusual(g, c.historyGeohashes);
    var travel := g != "" && e.value.ts > 0 && c.impossibleTravel;
    ListsNone(31, f);
    ListsThree([], mock, MOCK_LOCATION, 25, travel, IMPOSSIBLE_TRAVEL, 30, unusual, GEO_UNUSUAL, 10, 31, 31, f);
    FromNone(If(mock, MOCK_LOCATION, 25), If(travel, IMPOSSIBLE_TRAVEL, 30), If(unusual, GEO_UNUSUAL, 10));
  }

  lemma LocationReads(c: Ctx, t: Txn, f: Code -> int, code: Code)
    requires Reads(f, c, t) && 31 <= Place(code) < 34
    ensures f(code) == LocationWeight(c, FirstOf(c.events, {"PASSIVE_LOCATION_COARSE"}), code)
  {}

  lemma GeographyListed(c: Ctx, t: Txn, f: Code -> int)
    requires Reads(f, c, t)
    ensures Lists(Geography(c, First(c.events, LocationEvent)), 31, 34, f)
  {
    FirstOfIs(c.events, LocationEvent, {"PASSIVE_LOCATION_COARSE"});
    forall code | 31 <= Place(code) < 34
      ensures f(code) == LocationWeight(c, First(c.events, LocationEvent), code)
    {
      LocationReads(c, t, f, code);
    }
    GeographyOf(c, First(c.events, LocationEvent), f);
  }

  lemma MoneyListed(c: Ctx, t: Txn, f: Code -> int)
    requires Reads(f, c, t)
    ensures Lists(BankFlow(c, t), 34, 36, f) && Lists(Dormancy(c), 36, 37, f)
  {
    ReadsProfile(f, c, t, RAPID_IN_OUT);
    ReadsProfile(f, c, t, FAN_OUT_24H);
    ReadsProfile(f, c, t, DORMANT_REACTIVATED);
    ListsAlone(f(RAPID_IN_OUT) > 0, RAPID_IN_OUT, 30, 34, f);
    ListsMore(If(f(RAPID_IN_OUT) > 0, RAPID_IN_OUT, 30), f(FAN_OUT_24H) > 0, FAN_OUT_24H, 20, 34, 35, f);
    ListsAlone(f(DORMANT_REACTIVATED) > 0, DORMANT_REACTIVATED, 25, 36, f);
  }

  lemma HurryListed(c: Ctx, t: Txn, f: Code -> int)
    requires Reads(f, c, t)
    ensures Lists(Hurry(c, t), 37, 38, f)
  {
    FirstOfIs(c.events, Transfer, {"BIZ_TXN_INITIATED"});
    ReadsProfile(f, c, t, RAPID_TO_TXN);
    ListsAlone(f(RAPID_TO_TXN) > 0, RAPID_TO_TXN, 10, 37, f);
  }

  lemma ProfileListed(c: Ctx, t: Txn, f: Code -> int)
    requires Reads(f, c, t)
    ensures Lists(Profile(c, t), 26, 38, f)
  {
    AnomaliesListed(c, t, f);
    GeographyListed(c, t, f);
    MoneyListed(c, t, f);
    HurryListed(c, t, f);
    Lists5(Anomalies(c), Geography(c, First(c.events, LocationEvent)), BankFlow(c, t), Dormancy(c), Hurry(c, t),
           26, 31, 34, 36, 37, 38, f);
  }

  lemma AllListed(c: Ctx, t: Txn, f: Code -> int)
    requires Reads(f, c, t)
    ensures Lists(Signals(c, t), 0, 38, f)
  {
    ConductListed(c, t, f);
    HandsetListed(c, t, f);
    ProfileListed(c, t, f);
    ListsJoin(Conduct(c, t), Handset(c), 0, 11, 26, f);
    ListsJoin(Conduct(c, t) + Handset(c), Profile(c, t), 0, 26, 38, f);
  }

  /** Over any log and payment: a signal is raised exactly when the table raises its code with its weight. */
  lemma SignalsAreTable(c: Ctx, t: Txn, x: Signal)
    ensures x in Scoring.Result(Signals(c, t), c.userRef).signals <==> x.weight == Weight(c, t, x.code) && x.weight > 0
  {
    var f := code => Weight(c, t, code);
    AllListed(c, t, f);
    assert f(x.code) == Weight(c, t, x.code);
    PlaceBound(x.code);
  }

  lemma PlaceBound(code: Code)
    ensures Place(code) < 38
  {}

  /** What a signal adds for each transfer beyond the threshold. */
  lemma VelocityWeight(c: Ctx, t: Txn)
    ensures var v := VelocityConfig(c.velocity);
      var n := Transfers(c.events, v.windowMin);
      Weight(c, t, TXN_VELOCITY) == if n >= v.threshold then v.baseWeight + v.slope * (n - v.threshold) else 0
    ensures var v := VelocityConfig(c.velocity);
      Weight(c, t, TXN_VELOCITY) > 0 <==> Transfers(c.events, v.windowMin) >= v.threshold
  {
    var v := VelocityConfig(c.velocity);
    var n := Transfers(c.events, v.windowMin);
    if n >= v.threshold { ExtraWeight(v.slope, n - v.threshold); }
  }

  /** In particular the velocity signal: raised exactly when the transfers in the window reach the threshold. */
  lemma VelocityIff(c: Ctx, t: Txn, w: int)
    ensures var v := VelocityConfig(c.velocity);
      var n := Transfers(c.events, v.windowMin);
      Signal(TXN_VELOCITY, w) in Scoring.Result(Signals(c, t), c.userRef).signals <==>
        n >= v.threshold && w == v.baseWeight + v.slope * (n - v.threshold)
  {
    SignalsAreTable(c, t, Signal(TXN_VELOCITY, w));
    VelocityWeight(c, t);
  }

  // ---------- the score and the label ----------

  lemma HasFrom(s: seq<Signal>, code: Code, w: int)
    requires forall x :: x in s && x.code == code ==> x.weight == w && w > 0
    requires w > 0 ==> Signal(code, w) in s
    ensures Has(s, code) <==> w > 0
  {
    if Has(s, code) {
      var i :| 0 <= i < |s| && s[i].code == code;
      assert s[i] in s;
    }
    if w > 0 {
      var i :| 0 <= i < |s| && s[i] == Signal(code, w);
      assert s[i].code == code;
    }
  }

  lemma HasIff(c: Ctx, t: Txn, code: Code)
    ensures Has(Signals(c, t), code) <==> Weight(c, t, code) > 0
  {
    var s, w := Signals(c, t), Weight(c, t, code);
    SignalsAreTable(c, t, Signal(code, w));
    forall x | x in s && x.code == code ensures x.weight == w && w > 0 { SignalsAreTable(c, t, x); }
    HasFrom(s, code, w);
  }

  ghost predicate Raises(c: Ctx, t: Txn, code: Code) {
    Weight(c, t, code) > 0
  }

  predicate Takeover(code: Code) {
    match code
    case REMOTE_ACCESS | NEW_DEVICE_FOR_USER | DEVICE_INTEGRITY | ATTESTATION_FAILED | SIDELOADED_APP | DEBUG_BUILD
       | STEP_UP_FAILED | TXN_VELOCITY | ACCESSIBILITY_SERVICES | TOUCH_ANOMALY | KEYSTROKE_ANOMALY | MOUSE_ANOMALY
       | HEADLESS_BROWSER | IMPOSSIBLE_TRAVEL | MOCK_LOCATION => true
    case _ => false
  }

  /** Coaching first, then takeover of a known user, then mule conduct, then a new account. */
  function Verdict(coached: bool, takenOver: bool, mule: bool, newAccount: bool): string {
    if coached then "APP Scam" else if takenOver then "Account Takeover" else if mule then "Money Mule"
    else if newAccount then "New Account Fraud" else ""
  }

  ghost predicate TakenOver(c: Ctx, t: Txn) {
    c.userRef != "" && exists code :: Takeover(code) && Raises(c, t, code)
  }

  ghost predicate MuleLike(c: Ctx, t: Txn) {
    Raises(c, t, DORMANT_REACTIVATED) || Raises(c, t, RAPID_IN_OUT)
  }

  ghost predicate NewAccount(c: Ctx, t: Txn) {
    c.userRef == "" && (Raises(c, t, EMULATOR) || Raises(c, t, PASTE_INPUT) || Raises(c, t, HEADLESS_BROWSER)
                        || Raises(c, t, MOCK_LOCATION))
  }

  lemma NotTakenOver(s: seq<Signal>)
    requires forall code :: Takeover(code) ==> !Has(s, code)
    ensures !LooksTakenOver(s)
  {}

  lemma TakeoverLooks(s: seq<Signal>, code: Code)
    requires Takeover(code) && Has(s, code)
    ensures LooksTakenOver(s)
  {}

  lemma TakenOverIff(c: Ctx, t: Txn)
    ensures c.userRef != "" && LooksTakenOver(Signals(c, t)) <==> TakenOver(c, t)
  {
    forall code ensures Has(Signals(c, t), code) <==> Raises(c, t, code) { HasIff(c, t, code); }
    if exists code :: Takeover(code) && Raises(c, t, code) {
      var code :| Takeover(code) && Raises(c, t, code);
      TakeoverLooks(Signals(c, t), code);
    } else {
      NotTakenOver(Signals(c, t));
    }
  }

  lemma MuleIff(c: Ctx, t: Txn)
    ensures Has(Signals(c, t), DORMANT_REACTIVATED) || Has(Signals(c, t), RAPID_IN_OUT) <==> MuleLike(c, t)
  {
    HasIff(c, t, DORMANT_REACTIVATED);
    HasIff(c, t, RAPID_IN_OUT);
  }

  lemma NoUserWeight(c: Ctx, t: Txn)
    ensures Weight(c, t, NO_USER_BOUND) == When(c.userRef == "", 20)
  {}

  lemma NoUserIff(c: Ctx, t: Txn)
    ensures Has(Signals(c, t), NO_USER_BOUND) <==> c.userRef == ""
  {
    HasIff(c, t, NO_USER_BOUND);
    NoUserWeight(c, t);
  }

  predicate LooksNew(s: seq<Signal>) {
    Has(s, NO_USER_BOUND) && (Has(s, EMULATOR) || Has(s, PASTE_INPUT) || Has(s, HEADLESS_BROWSER) || Has(s, MOCK_LOCATION))
  }

  lemma NewAccountIff(c: Ctx, t: Txn)
    ensures LooksNew(Signals(c, t)) <==> NewAccount(c, t)
  {
    NoUserIff(c, t);
    forall code ensures Has(Signals(c, t), code) <==> Raises(c, t, code) { HasIff(c, t, code); }
  }

  lemma ThreatIs(s: seq<Signal>, userRef: string)
    ensures Threat(s, userRef) ==
      Verdict(Threat(s, userRef) == APP_SCAM, userRef != "" && LooksTakenOver(s),
              Has(s, DORMANT_REACTIVATED) || Has(s, RAPID_IN_OUT), LooksNew(s))
  {}

  /** Every session's label is the one its log, its payment and the table call for. */
  lemma LabelIs(c: Ctx, t: Txn)
    ensures Threat(Signals(c, t), c.userRef) == Verdict(Coached(c, t), TakenOver(c, t), MuleLike(c, t), NewAccount(c, t))
  {
    ScamLabelIff(c, t);
    TakenOverIff(c, t);
    MuleIff(c, t);
    NewAccountIff(c, t);
    ThreatIs(Signals(c, t), c.userRef);
  }

  /** The sum is a sum and the reasons are the codes, over every split of the signals. */
  lemma {:induction false} SumIs(a: seq<Signal>, b: seq<Signal>)
    ensures Total(a + b) == Total(a) + Total(b) && Codes(a + b) == Codes(a) + Codes(b)
    ensures |b| == 1 ==> Total(b) == b[0].weight && Codes(b) == [b[0].code]
    ensures Score(a) == if Total(a) <= 100 then Total(a) else 100
  {
    if b == [] {
      assert a + b == a;
    } else {
      var init := b[..|b| - 1];
      assert (a + b)[..|a + b| - 1] == a + init;
      SumIs(a, init);
      if |b| == 1 { assert init == []; }
    }
  }
}
