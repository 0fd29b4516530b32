/**
 The session scoring engine: which signals an event log raises, in which order and with which weights, the
 capped sum, and the threat label. Times are milliseconds, 0 standing for no time. Statistics that need
 square roots or trigonometry, and the median, are inputs; labels and evidence texts are left out.
 */
module Scoring {
  import opened Prelude
  import opened Policy
  import opened Settings

  datatype CallSignals = CallSignals(gsm: bool, voip: bool, speaker: bool, bluetooth: bool, wired: bool)

  datatype KeyTiming = KeyTiming(dt: real, deletion: bool, paste: bool)

  datatype Stroke = Stroke(obscured: bool, len: Option<real>, straight: Option<real>)

  /** An event's payload as the struct its type decodes to; Unreadable when it does not decode. */
  datatype Payload =
    | Unreadable
    | CallState(active: bool)
    | StepUp(outcome: string)
    | Keystrokes(keys: seq<KeyTiming>)
    | Fingerprint(installAgeMs: Option<int>, headless: bool)
    | Integrity(rooted: bool, hooked: bool, emulator: bool, accessibility: bool, debuggable: bool,
                devOptions: bool, installer: Option<string>)
    | Attestation(android: bool, verified: bool, failed: bool, status: string)
    | Network(vpn: bool, proxy: bool, userCas: Option<int>, systemCas: Option<int>)
    | Container(virtualized: bool, secondaryUser: bool, admin: bool)
    | Strokes(strokes: seq<Stroke>)
    | Remote(sharing: bool, accessibilitySuspect: bool)
    | Location(geohash: string, mock: bool)

  datatype Event = Event(ty: string, ts: nat, call: Option<CallSignals>, payload: Payload)

  datatype Txn = Txn(amount: real, payeeIsNew: bool)

  /** Everything the handler looked up; `now` is the server's clock. */
  datatype Ctx = Ctx(
    userRef: string, sessionStart: Option<int>, simChanged: bool, events: seq<Event>,
    deviceFirstSeen: Option<int>, prevSessionAt: Option<int>,
    payeePrior: seq<real>, payeeIntel: string, payeeCategory: string,
    amountHistory: seq<real>, medianAmount: real, highAmount: real, velocity: Velocity,
    touchAnomaly: bool, mouseAnomaly: bool, cadenceAnomaly: bool, impossibleTravel: bool,
    historyGeohashes: seq<string>, hasBankFlow: bool, flowIn72: real, flowLastIn: Option<int>,
    flowFan: int, flowPrior90d: int, now: nat)

  const MINUTE := 60 * 1000
  const HOUR := 60 * MINUTE
  const DAY := 24 * HOUR
  const DEFAULT_HIGH_AMOUNT := 500000.0

  function If(b: bool, code: Code, weight: int): seq<Signal> {
    if b then [Signal(code, weight)] else []
  }

  // ---------- scans of the log ----------

  /** The first event with a property. */
  function First(es: seq<Event>, p: Event -> bool): Option<Event> {
    if es == [] then None else
      var r := First(es[..|es| - 1], p);
      if r.Some? then r else if p(es[|es| - 1]) then Some(es[|es| - 1]) else None
  }

  /** The latest time of an event with a property, 0 if there is none. */
  function Latest(es: seq<Event>, p: Event -> bool): nat {
    if es == [] then 0 else
      var at := Latest(es[..|es| - 1], p);
      var e := es[|es| - 1];
      if p(e) && e.ts > at then e.ts else at
  }

  /** How many events with a property are no older than a cutoff. */
  function Since(es: seq<Event>, p: Event -> bool, cutoff: int): nat {
    if es == [] then 0 else
      Since(es[..|es| - 1], p, cutoff) + if p(es[|es| - 1]) && es[|es| - 1].ts >= cutoff then 1 else 0
  }

  method FindFirst(es: seq<Event>, p: Event -> bool) returns (r: Option<Event>)
    ensures r == First(es, p)
  {
    for i := 0 to |es|
      invariant First(es[..i], p) == None
    {
      assert es[..i + 1][..i] == es[..i];
      if p(es[i]) {
        FirstStays(es, p, i + 1);
        return Some(es[i]);
      }
    }
    assert es[..|es|] == es;
    return None;
  }

  lemma {:induction false} FirstStays(es: seq<Event>, p: Event -> bool, i: nat)
    requires i <= |es| && First(es[..i], p).Some?
    ensures First(es, p) == First(es[..i], p)
  {
    if i == |es| {
      assert es[..i] == es;
    } else {
      assert es[..|es| - 1][..i] == es[..i];
      FirstStays(es[..|es| - 1], p, i);
    }
  }

  method FindLatest(es: seq<Event>, p: Event -> bool) returns (at: nat)
    ensures at == Latest(es, p)
  {
    at := 0;
    for i := 0 to |es|
      invariant at == Latest(es[..i], p)
    {
      assert es[..i + 1][..i] == es[..i];
      if p(es[i]) && es[i].ts > at { at := es[i].ts; }
    }
    assert es[..|es|] == es;
  }

  // ---------- calls and step-ups ----------

  predicate Transfer(e: Event) { e.ty == "BIZ_TXN_INITIATED" }

  predicate DuringCall(e: Event) {
    |e.ty| >= 4 && e.ty[..4] == "BIZ_" && e.call.Some? && (e.call.value.gsm || e.call.value.voip)
  }

  predicate CallEnd(e: Event) {
    e.ty == "PASSIVE_CALL_STATE" && e.payload.CallState? && !e.payload.active
  }

  function Calls(es: seq<Event>): seq<Signal> {
    var call := First(es, DuringCall);
    if call.Some? && call.value.call.Some? then
      var c := call.value.call.value;
      If(true, ACTIVE_CALL, 35) + If(c.speaker || c.bluetooth || c.wired, CALL_HANDS_FREE, 10)
    else
      var ended, sent := Latest(es, CallEnd), Latest(es, Transfer);
      If(ended > 0 && sent > ended && sent - ended <= 5 * MINUTE, RECENT_CALL, 25)
  }

  function UpperChar(c: char): char {
    if 'a' <= c <= 'z' then (c as int - 32) as char else c
  }

  function Upper(s: string): (r: string)
    ensures |r| == |s|
  {
    if s == "" then "" else [UpperChar(s[0])] + Upper(s[1..])
  }

  /** Time and outcome of the last step-up result; later in the log wins a tie. */
  function LastStepUp(es: seq<Event>): (nat, string) {
    if es == [] then (0, "") else
      var last := LastStepUp(es[..|es| - 1]);
      var e := es[|es| - 1];
      if e.ty == "BIZ_STEP_UP_RESULT" && e.payload.StepUp? && e.ts >= last.0 then (e.ts, Upper(e.payload.outcome)) else last
  }

  function StepUps(es: seq<Event>): seq<Signal> {
    var outcome := LastStepUp(es).1;
    if outcome == "FAIL" || outcome == "FAILURE" || outcome == "LOCKED" then If(true, STEP_UP_FAILED, 35)
    else If(outcome == "ABANDONED", STEP_UP_ABANDONED, 20)
  }

  method FindLastStepUp(es: seq<Event>) returns (outcome: string)
    ensures outcome == LastStepUp(es).1
  {
    var at: nat := 0;
    outcome := "";
    for i := 0 to |es|
      invariant (at, outcome) == LastStepUp(es[..i])
    {
      assert es[..i + 1][..i] == es[..i];
      var e := es[i];
      if e.ty == "BIZ_STEP_UP_RESULT" && e.payload.StepUp? && e.ts >= at {
        at, outcome := e.ts, Upper(e.payload.outcome);
      }
    }
    assert es[..|es|] == es;
  }

  // ---------- payee and amount ----------

  predicate PayeeAdded(e: Event) { e.ty == "BIZ_PAYEE_ADDED" }

  function NewPayee(c: Ctx, t: Txn): seq<Signal> {
    if !t.payeeIsNew then [] else
      var added := Latest(c.events, PayeeAdded);
      var sent := if Latest(c.events, Transfer) == 0 then c.now else Latest(c.events, Transfer);
      If(true, NEW_PAYEE, 15)
        + If(added > 0 && sent >= added && sent - added <= 30 * MINUTE, RUSHED_NEW_PAYEE, 20)
  }

  function Escalation(c: Ctx, t: Txn): seq<Signal> {
    var p := c.payeePrior;
    If(|p| >= 2 && t.amount > 1.3 * p[0] && p[0] > 1.3 * p[1], ESCALATING_PAYEE, 35)
  }

  function Reputation(c: Ctx): seq<Signal> {
    if c.payeeIntel == "confirmed" then If(true, KNOWN_MULE_PAYEE, 55)
    else If(c.payeeIntel == "open", PAYEE_UNDER_INVESTIGATION, 30)
  }

  function Category(c: Ctx): seq<Signal> {
    if c.payeeCategory == "GAMBLING" then If(true, GAMBLING_PAYEE, 10)
    else if c.payeeCategory == "CRYPTO_P2P" then If(true, CRYPTO_P2P_PAYEE, 10)
    else If(c.payeeCategory == "INFORMAL_FX", INFORMAL_FX_PAYEE, 12)
  }

  function Positives(xs: seq<real>): nat {
    if xs == [] then 0 else Positives(xs[..|xs| - 1]) + if xs[|xs| - 1] > 0.0 then 1 else 0
  }

  function Cutoff(t: real): real {
    if t > 0.0 then t else DEFAULT_HIGH_AMOUNT
  }

  /** Against the user's own median once there are three positive amounts, else against the tenant's cutoff. */
  function Amount(c: Ctx, t: Txn): seq<Signal> {
    if Positives(c.amountHistory) >= 3 then If(t.amount > 3.0 * c.medianAmount, AMOUNT_ABOVE_PROFILE, 25)
    else If(t.amount >= Cutoff(c.highAmount), HIGH_AMOUNT, 20)
  }

  method CountPositives(xs: seq<real>) returns (n: nat)
    ensures n == Positives(xs)
  {
    n := 0;
    for i := 0 to |xs|
      invariant n == Positives(xs[..i])
    {
      assert xs[..i + 1][..i] == xs[..i];
      if xs[i] > 0.0 { n := n + 1; }
    }
    assert xs[..|xs|] == xs;
  }

  // ---------- velocity ----------

  /** Transfers in the window that ends at the last one. */
  function VelocityCount(es: seq<Event>, windowMin: int): nat {
    var last := Latest(es, Transfer);
    if last == 0 then 0 else Since(es, Transfer, last - windowMin * MINUTE)
  }

  function Rapid(c: Ctx): seq<Signal> {
    var v := VelocityConfig(c.velocity);
    var count := VelocityCount(c.events, v.windowMin);
    If(count >= v.threshold, TXN_VELOCITY, v.baseWeight + v.slope * (count - v.threshold))
  }

  function TransferTimes(es: seq<Event>): seq<nat> {
    if es == [] then [] else
      TransferTimes(es[..|es| - 1]) + if Transfer(es[|es| - 1]) then [es[|es| - 1].ts] else []
  }

  function SinceTimes(ts: seq<nat>, cutoff: int): nat {
    if ts == [] then 0 else SinceTimes(ts[..|ts| - 1], cutoff) + if ts[|ts| - 1] >= cutoff then 1 else 0
  }

  lemma {:induction false} SinceTimesIs(es: seq<Event>, cutoff: int)
    ensures SinceTimes(TransferTimes(es), cutoff) == Since(es, Transfer, cutoff)
  {
    if es != [] {
      SinceTimesIs(es[..|es| - 1], cutoff);
      var ts, before := TransferTimes(es), TransferTimes(es[..|es| - 1]);
      if Transfer(es[|es| - 1]) { assert ts[..|ts| - 1] == before; } else { assert ts == before; }
    }
  }

  /** One pass collects the times and the latest, a second counts. */
  method CountVelocity(es: seq<Event>, windowMin: int) returns (count: nat)
    ensures count == VelocityCount(es, windowMin)
  {
    var last: nat := 0;
    var times: seq<nat> := [];
    for i := 0 to |es|
      invariant last == Latest(es[..i], Transfer) && times == TransferTimes(es[..i])
    {
      assert es[..i + 1][..i] == es[..i];
      if es[i].ty == "BIZ_TXN_INITIATED" {
        times := times + [es[i].ts];
        if es[i].ts > last { last := es[i].ts; }
      }
    }
    assert es[..|es|] == es;
    count := 0;
    if last != 0 {
      for i := 0 to |times|
        invariant count == SinceTimes(times[..i], last - windowMin * MINUTE)
      {
        assert times[..i + 1][..i] == times[..i];
        if times[i] >= last - windowMin * MINUTE { count := count + 1; }
      }
      assert times[..|times|] == times;
      SinceTimesIs(es, last - windowMin * MINUTE);
    }
  }

  // ---------- keystrokes ----------

  function Deletions(keys: seq<KeyTiming>): nat {
    if keys == [] then 0 else Deletions(keys[..|keys| - 1]) + if keys[|keys| - 1].deletion then 1 else 0
  }

  predicate Hesitant(keys: seq<KeyTiming>) {
    (exists i :: 0 <= i < |keys| && keys[i].dt > 4000.0) || Deletions(keys) >= 3
  }

  predicate Pasted(keys: seq<KeyTiming>) {
    exists i :: 0 <= i < |keys| && keys[i].paste
  }

  predicate TypingEvent(e: Event) {
    e.ty == "PASSIVE_KEYSTROKES" && e.payload.Keystrokes?
  }

  /** Some event of the log shows hesitation. */
  predicate Hesitated(es: seq<Event>) {
    es != [] && (Hesitated(es[..|es| - 1]) || (TypingEvent(es[|es| - 1]) && Hesitant(es[|es| - 1].payload.keys)))
  }

  predicate PastedIn(es: seq<Event>) {
    es != [] && (PastedIn(es[..|es| - 1]) || (TypingEvent(es[|es| - 1]) && Pasted(es[|es| - 1].payload.keys)))
  }

  /** Each of the two once, in the order the log first shows them. */
  function Typing(es: seq<Event>): seq<Signal> {
    if es == [] then [] else
      var init, e := es[..|es| - 1], es[|es| - 1];
      Typing(init)
        + If(TypingEvent(e) && Hesitant(e.payload.keys) && !Hesitated(init), HESITATION, 10)
        + If(TypingEvent(e) && Pasted(e.payload.keys) && !PastedIn(init), PASTE_INPUT, 10)
  }

  method ScanKeys(keys: seq<KeyTiming>) returns (hesitant: bool, pasted: bool)
    ensures hesitant == Hesitant(keys) && pasted == Pasted(keys)
  {
    var deletes, longPause := 0, false;
    pasted := false;
    for j := 0 to |keys|
      invariant deletes == Deletions(keys[..j])
      invariant longPause == exists k :: 0 <= k < j && keys[k].dt > 4000.0
      invariant pasted == exists k :: 0 <= k < j && keys[k].paste
    {
      assert keys[..j + 1][..j] == keys[..j];
      if keys[j].deletion { deletes := deletes + 1; }
      if keys[j].dt > 4000.0 { longPause := true; }
      if keys[j].paste { pasted := true; }
    }
    assert keys[..|keys|] == keys;
    hesitant := longPause || deletes >= 3;
  }

  method ScanTyping(es: seq<Event>) returns (signals: seq<Signal>)
    ensures signals == Typing(es)
  {
    signals := [];
    var hesitationDone, pasteDone := false, false;
    for i := 0 to |es|
      invariant signals == Typing(es[..i])
      invariant hesitationDone == Hesitated(es[..i]) && pasteDone == PastedIn(es[..i])
    {
      assert es[..i + 1][..i] == es[..i];
      if es[i].ty != "PASSIVE_KEYSTROKES" || !es[i].payload.Keystrokes? { continue; }
      var hesitant, pasted := ScanKeys(es[i].payload.keys);
      if hesitant && !hesitationDone {
        hesitationDone := true;
        signals := signals + [Signal(HESITATION, 10)];
      }
      if pasted && !pasteDone {
        pasteDone := true;
        signals := signals + [Signal(PASTE_INPUT, 10)];
      }
    }
    assert es[..|es|] == es;
  }

  // ---------- device ----------

  function Device(c: Ctx): seq<Signal> {
    (if c.userRef == "" then If(true, NO_USER_BOUND, 20)
     else If(c.deviceFirstSeen.Some? && c.sessionStart.Some?
             && c.deviceFirstSeen.value >= c.sessionStart.value - MINUTE, NEW_DEVICE_FOR_USER, 25))
      + If(c.simChanged, SIM_CHANGED, 15)
  }

  predicate FingerprintEvent(e: Event) {
    e.ty == "PASSIVE_WEB_FINGERPRINT" || e.ty == "PASSIVE_DEVICE_FINGERPRINT"
  }

  function Install(e: Option<Event>): seq<Signal> {
    If(e.Some? && e.value.payload.Fingerprint? && e.value.payload.installAgeMs.Some?
       && 0 <= e.value.payload.installAgeMs.value < DAY, NEW_INSTALL, 15)
  }

  predicate ManualInstaller(pkg: string) {
    pkg == "" || pkg == "com.android.packageinstaller" || pkg == "com.google.android.packageinstaller"
  }

  function IntegritySignals(e: Option<Event>): seq<Signal> {
    if e.None? || !e.value.payload.Integrity? then [] else
      var p := e.value.payload;
      If(p.rooted || p.hooked, DEVICE_INTEGRITY, 30) + If(p.emulator, EMULATOR, 20)
        + If(p.accessibility, ACCESSIBILITY_SERVICES, 15) + If(p.debuggable, DEBUG_BUILD, 20)
        + If(p.devOptions, DEV_OPTIONS, 10)
        + If(p.installer.Some? && ManualInstaller(p.installer.value), SIDELOADED_APP, 25)
  }

  predicate AttestationEvent(e: Event) {
    e.ty == "PASSIVE_ATTESTATION" && e.payload.Attestation?
  }

  function AttestationSignals(e: Option<Event>): seq<Signal> {
    if e.None? || !e.value.payload.Attestation? then [] else
      var p := e.value.payload;
      if p.verified && p.failed then If(true, ATTESTATION_FAILED, 40)
      else If(p.android && ("API_ERROR" <= p.status || "UNAVAILABLE" <= p.status), ATTESTATION_MISSING, 10)
  }

  function NetworkSignals(e: Option<Event>): seq<Signal> {
    if e.None? || !e.value.payload.Network? then [] else
      var p := e.value.payload;
      var storeRead := p.systemCas.None? || p.systemCas.value > 0;
      If(p.vpn, VPN_ACTIVE, 10) + If(p.proxy, PROXY_CONFIGURED, 15)
        + If(storeRead && p.userCas.Some? && p.userCas.value > 0, MITM_CA_INSTALLED, 30)
  }

  function CloneSignals(e: Option<Event>): seq<Signal> {
    If(e.Some? && e.value.payload.Container?
       && (e.value.payload.virtualized || (e.value.payload.secondaryUser && !e.value.payload.admin)), CLONE_CONTAINER, 20)
  }

  // ---------- behaviour ----------

  function AllStrokes(es: seq<Event>): seq<Stroke> {
    if es == [] then [] else
      var e := es[|es| - 1];
      AllStrokes(es[..|es| - 1])
        + if e.ty == "PASSIVE_TOUCH_STROKES" && e.payload.Strokes? then e.payload.strokes else []
  }

  predicate Robotic(s: Stroke) {
    s.len.Some? && s.len.value > 30.0 && s.straight.Some? && s.straight.value >= 0.99
  }

  function RoboticCount(ss: seq<Stroke>): nat {
    if ss == [] then 0 else RoboticCount(ss[..|ss| - 1]) + if Robotic(ss[|ss| - 1]) then 1 else 0
  }

  predicate RemoteEvent(e: Event) {
    e.ty == "PASSIVE_REMOTE_ACCESS" && e.payload.Remote? && (e.payload.sharing || e.payload.accessibilitySuspect)
  }

  predicate Overlaid(ss: seq<Stroke>) {
    exists i :: 0 <= i < |ss| && ss[i].obscured
  }

  predicate RemoteControlled(es: seq<Event>) {
    First(es, RemoteEvent).Some? || Overlaid(AllStrokes(es)) || RoboticCount(AllStrokes(es)) >= 3
  }

  /** Three fallbacks in turn: reported by the device, an overlay, injected strokes. */
  method DetectRemote(es: seq<Event>) returns (remote: bool)
    ensures remote == RemoteControlled(es)
  {
    var strokes: seq<Stroke> := [];
    for i := 0 to |es|
      invariant strokes == AllStrokes(es[..i])
    {
      assert es[..i + 1][..i] == es[..i];
      if es[i].ty == "PASSIVE_TOUCH_STROKES" && es[i].payload.Strokes? { strokes := strokes + es[i].payload.strokes; }
    }
    assert es[..|es|] == es;
    var reported := FindFirst(es, RemoteEvent);
    if reported.Some? { return true; }
    var robotic := 0;
    for i := 0 to |strokes|
      invariant !Overlaid(strokes[..i]) && robotic == RoboticCount(strokes[..i])
    {
      assert strokes[..i + 1][..i] == strokes[..i];
      if strokes[i].obscured { return true; }
      assert strokes[..i + 1] == strokes[..i] + [strokes[i]];
      if Robotic(strokes[i]) { robotic := robotic + 1; }
    }
    assert strokes[..|strokes|] == strokes;
    return robotic >= 3;
  }

  // ---------- location, money, dormancy ----------

  function Prefix4(g: string): string {
    if |g| > 4 then g[..4] else g
  }

  predicate KnownArea(g: string, history: seq<string>) {
    exists i :: 0 <= i < |history| && Prefix4(history[i]) == Prefix4(g)
  }

  function Geography(c: Ctx, e: Option<Event>): seq<Signal> {
    var read := e.Some? && e.value.payload.Location?;
    var g := if read then e.value.payload.geohash else "";
    If(read && e.value.payload.mock, MOCK_LOCATION, 25)
      + If(g != "" && e.value.ts > 0 && c.impossibleTravel, IMPOSSIBLE_TRAVEL, 30)
      + If(g != "" && c.historyGeohashes != [] && !KnownArea(g, c.historyGeohashes), GEO_UNUSUAL, 10)
  }

  /** Most of what came in within three days, on an account unused for ninety, goes out within one. */
  predicate RapidInOut(c: Ctx, t: Txn) {
    c.hasBankFlow && c.flowIn72 > 0.0 && c.flowLastIn.Some? && c.flowPrior90d == 0
    && c.now - c.flowLastIn.value < DAY && t.amount >= 0.6 * c.flowIn72
  }

  function BankFlow(c: Ctx, t: Txn): seq<Signal> {
    If(RapidInOut(c, t), RAPID_IN_OUT, 30) + If(c.hasBankFlow && c.flowFan >= 3, FAN_OUT_24H, 20)
  }

  function Dormancy(c: Ctx): seq<Signal> {
    If(c.prevSessionAt.Some? && c.sessionStart.Some?
       && c.sessionStart.value - c.prevSessionAt.value > 90 * DAY, DORMANT_REACTIVATED, 25)
  }

  function Hurry(c: Ctx, t: Txn): seq<Signal> {
    var txn := First(c.events, Transfer);
    If(t.payeeIsNew && c.events != [] && txn.Some?
       && 0 <= txn.value.ts - c.events[0].ts < 20 * 1000, RAPID_TO_TXN, 10)
  }

  // ---------- the whole session ----------

  predicate IntegrityEvent(e: Event) { e.ty == "PASSIVE_APP_INTEGRITY" }

  predicate NetworkEvent(e: Event) { e.ty == "PASSIVE_NET_INTEGRITY" }

  predicate ContainerEvent(e: Event) { e.ty == "PASSIVE_APP_CONTAINER" }

  predicate ScreenshotEvent(e: Event) { e.ty == "PASSIVE_SCREENSHOT" }

  predicate WebEvent(e: Event) { e.ty == "PASSIVE_WEB_FINGERPRINT" }

  predicate LocationEvent(e: Event) { e.ty == "PASSIVE_LOCATION_COARSE" }

  function Headless(e: Option<Event>): seq<Signal> {
    If(e.Some? && e.value.payload.Fingerprint? && e.value.payload.headless, HEADLESS_BROWSER, 30)
  }

  function Screenshot(e: Option<Event>): seq<Signal> {
    If(e.Some?, SCREENSHOT, 10)
  }

  function RemoteAccess(c: Ctx): seq<Signal> {
    If(RemoteControlled(c.events), REMOTE_ACCESS, 35)
  }

  /** The engine's sections in the order they append, in three runs. */
  function Conduct(c: Ctx, t: Txn): seq<Signal> {
    Calls(c.events) + StepUps(c.events) + NewPayee(c, t) + Escalation(c, t) + Reputation(c) + Category(c)
      + Amount(c, t) + Rapid(c) + Typing(c.events)
  }

  function Handset(c: Ctx): seq<Signal> {
    Device(c) + Install(First(c.events, FingerprintEvent)) + IntegritySignals(First(c.events, IntegrityEvent))
      + AttestationSignals(First(c.events, AttestationEvent)) + NetworkSignals(First(c.events, NetworkEvent))
      + CloneSignals(First(c.events, ContainerEvent)) + Screenshot(First(c.events, ScreenshotEvent))
  }

  function Anomalies(c: Ctx): seq<Signal> {
    If(c.touchAnomaly, TOUCH_ANOMALY, 25) + RemoteAccess(c) + Headless(First(c.events, WebEvent))
      + If(c.mouseAnomaly, MOUSE_ANOMALY, 25) + If(c.cadenceAnomaly, KEYSTROKE_ANOMALY, 20)
  }

  function Profile(c: Ctx, t: Txn): seq<Signal> {
    Anomalies(c) + Geography(c, First(c.events, LocationEvent)) + BankFlow(c, t) + Dormancy(c) + Hurry(c, t)
  }

  function Signals(c: Ctx, t: Txn): seq<Signal> {
    Conduct(c, t) + Handset(c) + Profile(c, t)
  }

  function Total(signals: seq<Signal>): int {
    if signals == [] then 0 else Total(signals[..|signals| - 1]) + signals[|signals| - 1].weight
  }

  function Score(signals: seq<Signal>): int {
    if Total(signals) > 100 then 100 else Total(signals)
  }

  predicate Has(signals: seq<Signal>, code: Code) {
    exists i :: 0 <= i < |signals| && signals[i].code == code
  }

  predicate LooksCoached(s: seq<Signal>) {
    || Has(s, KNOWN_MULE_PAYEE) || Has(s, ESCALATING_PAYEE)
    || (Has(s, PASTE_INPUT) && Has(s, NEW_PAYEE))
    || ((Has(s, ACTIVE_CALL) || Has(s, RECENT_CALL) || Has(s, RUSHED_NEW_PAYEE))
        && (Has(s, NEW_PAYEE) || Has(s, AMOUNT_ABOVE_PROFILE) || Has(s, HIGH_AMOUNT)))
  }

  predicate LooksTakenOver(s: seq<Signal>) {
    || Has(s, REMOTE_ACCESS) || Has(s, NEW_DEVICE_FOR_USER) || Has(s, DEVICE_INTEGRITY) || Has(s, ATTESTATION_FAILED)
    || Has(s, SIDELOADED_APP) || Has(s, DEBUG_BUILD) || Has(s, STEP_UP_FAILED) || Has(s, TXN_VELOCITY)
    || Has(s, ACCESSIBILITY_SERVICES) || Has(s, TOUCH_ANOMALY) || Has(s, KEYSTROKE_ANOMALY) || Has(s, MOUSE_ANOMALY)
    || Has(s, HEADLESS_BROWSER) || Has(s, IMPOSSIBLE_TRAVEL) || Has(s, MOCK_LOCATION)
  }

  function Threat(s: seq<Signal>, userRef: string): string {
    if LooksCoached(s) then APP_SCAM
    else if userRef != "" && LooksTakenOver(s) then "Account Takeover"
    else if Has(s, DORMANT_REACTIVATED) || Has(s, RAPID_IN_OUT) then "Money Mule"
    else if Has(s, NO_USER_BOUND)
            && (Has(s, EMULATOR) || Has(s, PASTE_INPUT) || Has(s, HEADLESS_BROWSER) || Has(s, MOCK_LOCATION))
    then "New Account Fraud"
    else ""
  }

  datatype ScoreResult = ScoreResult(score: int, reasons: seq<Code>, signals: seq<Signal>, threat: string)

  function Codes(s: seq<Signal>): seq<Code> {
    if s == [] then [] else Codes(s[..|s| - 1]) + [s[|s| - 1].code]
  }

  /** The capped sum, the codes and the threat label of a list of signals. */
  function Result(signals: seq<Signal>, userRef: string): ScoreResult {
    ScoreResult(Score(signals), Codes(signals), signals, Threat(signals, userRef))
  }

  method Finish(signals: seq<Signal>, userRef: string) returns (r: ScoreResult)
    ensures r == Result(signals, userRef)
  {
    var total := 0;
    var reasons: seq<Code> := [];
    for i := 0 to |signals|
      invariant total == Total(signals[..i]) && reasons == Codes(signals[..i])
    {
      assert signals[..i + 1][..i] == signals[..i];
      total := total + signals[i].weight;
      reasons := reasons + [signals[i].code];
    }
    assert signals[..|signals|] == signals;
    if total > 100 { total := 100; }
    return ScoreResult(total, reasons, signals, Threat(signals, userRef));
  }

  method ScanCalls(es: seq<Event>) returns (signals: seq<Signal>)
    ensures signals == Calls(es)
  {
    var call := FindFirst(es, DuringCall);
    if call.Some? && call.value.call.Some? {
      var c := call.value.call.value;
      signals := [Signal(ACTIVE_CALL, 35)];
      if c.speaker || c.bluetooth || c.wired { signals := signals + [Signal(CALL_HANDS_FREE, 10)]; }
      return;
    }
    var ended := FindLatest(es, CallEnd);
    var sent := FindLatest(es, Transfer);
    signals := If(ended > 0 && sent > ended && sent - ended <= 5 * MINUTE, RECENT_CALL, 25);
  }

  method ScanPayee(c: Ctx, t: Txn) returns (signals: seq<Signal>)
    ensures signals == NewPayee(c, t)
  {
    if !t.payeeIsNew { return []; }
    signals := [Signal(NEW_PAYEE, 15)];
    var added := FindLatest(c.events, PayeeAdded);
    var sent := FindLatest(c.events, Transfer);
    if sent == 0 { sent := c.now; }
    if added > 0 && sent >= added && sent - added <= 30 * MINUTE {
      signals := signals + [Signal(RUSHED_NEW_PAYEE, 20)];
    }
  }

  method ScanStepUps(es: seq<Event>) returns (signals: seq<Signal>)
    ensures signals == StepUps(es)
  {
    var outcome := FindLastStepUp(es);
    if outcome == "FAIL" || outcome == "FAILURE" || outcome == "LOCKED" { return [Signal(STEP_UP_FAILED, 35)]; }
    if outcome == "ABANDONED" { return [Signal(STEP_UP_ABANDONED, 20)]; }
    return [];
  }

  method ScanAmount(c: Ctx, t: Txn) returns (signals: seq<Signal>)
    ensures signals == Amount(c, t)
  {
    var n := CountPositives(c.amountHistory);
    if n >= 3 {
      signals := If(t.amount > 3.0 * c.medianAmount, AMOUNT_ABOVE_PROFILE, 25);
    } else {
      signals := If(t.amount >= Cutoff(c.highAmount), HIGH_AMOUNT, 20);
    }
  }

  method ScanVelocity(c: Ctx) returns (signals: seq<Signal>)
    ensures signals == Rapid(c)
  {
    var v := VelocityConfig(c.velocity);
    var count := CountVelocity(c.events, v.windowMin);
    signals := [];
    if count >= v.threshold { signals := [Signal(TXN_VELOCITY, v.baseWeight + v.slope * (count - v.threshold))]; }
  }

  method ScoreConduct(c: Ctx, t: Txn) returns (signals: seq<Signal>)
    ensures signals == Conduct(c, t)
  {
    signals := ScanCalls(c.events);
    var part := ScanStepUps(c.events);
    signals := signals + part;
    part := ScanPayee(c, t);
    signals := signals + part;
    signals := signals + Escalation(c, t) + Reputation(c) + Category(c);
    part := ScanAmount(c, t);
    signals := signals + part;
    part := ScanVelocity(c);
    signals := signals + part;
    part := ScanTyping(c.events);
    signals := signals + part;
  }

  method ScoreHandset(c: Ctx) returns (signals: seq<Signal>)
    ensures signals == Handset(c)
  {
    signals := Device(c);
    var e := FindFirst(c.events, FingerprintEvent);
    signals := signals + Install(e);
    e := FindFirst(c.events, IntegrityEvent);
    signals := signals + IntegritySignals(e);
    e := FindFirst(c.events, AttestationEvent);
    signals := signals + AttestationSignals(e);
    e := FindFirst(c.events, NetworkEvent);
    signals := signals + NetworkSignals(e);
    e := FindFirst(c.events, ContainerEvent);
    signals := signals + CloneSignals(e);
    e := FindFirst(c.events, ScreenshotEvent);
    signals := signals + Screenshot(e);
  }

  method ScoreProfile(c: Ctx, t: Txn) returns (signals: seq<Signal>)
    ensures signals == Profile(c, t)
  {
    signals := If(c.touchAnomaly, TOUCH_ANOMALY, 25);
    var remote := DetectRemote(c.events);
    signals := signals + If(remote, REMOTE_ACCESS, 35);
    var e := FindFirst(c.events, WebEvent);
    signals := signals + Headless(e);
    signals := signals + If(c.mouseAnomaly, MOUSE_ANOMALY, 25) + If(c.cadenceAnomaly, KEYSTROKE_ANOMALY, 20);
    e := FindFirst(c.events, LocationEvent);
    signals := signals + Geography(c, e);
    signals := signals + BankFlow(c, t) + Dormancy(c);
    e := FindFirst(c.events, Transfer);
    signals := signals + If(t.payeeIsNew && c.events != [] && e.Some?
                            && 0 <= e.value.ts - c.events[0].ts < 20 * 1000, RAPID_TO_TXN, 10);
  }

  /** The whole engine. */
  method ScoreSession(c: Ctx, t: Txn) returns (r: ScoreResult)
    ensures r == Result(Signals(c, t), c.userRef)
  {
    var signals := ScoreConduct(c, t);
    var part := ScoreHandset(c);
    signals := signals + part;
    part := ScoreProfile(c, t);
    signals := signals + part;
    r := Finish(signals, c.userRef);
  }
}
