/** What holds of every score: distinct codes, a capped sum, order-free velocity, and how victims are treated. */
module ScoringLaws {
  import opened Prelude
  import opened Policy
  import opened Settings
  import opened Scoring

  // ---------- codes and weights ----------

  /** A code's place in the order the engine can raise them; alternatives share one. */
  function Place(code: Code): nat {
    match code
    case ACTIVE_CALL | RECENT_CALL => 0
    case CALL_HANDS_FREE => 1
    case STEP_UP_FAILED | STEP_UP_ABANDONED => 2
    case NEW_PAYEE => 3
    case RUSHED_NEW_PAYEE => 4
    case ESCALATING_PAYEE => 5
    case KNOWN_MULE_PAYEE | PAYEE_UNDER_INVESTIGATION => 6
    case GAMBLING_PAYEE | CRYPTO_P2P_PAYEE | INFORMAL_FX_PAYEE => 7
    case AMOUNT_ABOVE_PROFILE | HIGH_AMOUNT => 8
    case TXN_VELOCITY => 9
    case HESITATION | PASTE_INPUT => 10
    case NO_USER_BOUND | NEW_DEVICE_FOR_USER => 11
    case SIM_CHANGED => 12
    case NEW_INSTALL => 13
    case DEVICE_INTEGRITY => 14
    case EMULATOR => 15
    case ACCESSIBILITY_SERVICES => 16
    case DEBUG_BUILD => 17
    case DEV_OPTIONS => 18
    case SIDELOADED_APP => 19
    case ATTESTATION_FAILED | ATTESTATION_MISSING => 20
    case VPN_ACTIVE => 21
    case PROXY_CONFIGURED => 22
    case MITM_CA_INSTALLED => 23
    case CLONE_CONTAINER => 24
    case SCREENSHOT => 25
    case TOUCH_ANOMALY => 26
    case REMOTE_ACCESS => 27
    case HEADLESS_BROWSER => 28
    case MOUSE_ANOMALY => 29
    case KEYSTROKE_ANOMALY => 30
    case MOCK_LOCATION => 31
    case IMPOSSIBLE_TRAVEL => 32
    case GEO_UNUSUAL => 33
    case RAPID_IN_OUT => 34
    case FAN_OUT_24H => 35
    case DORMANT_REACTIVATED => 36
    case RAPID_TO_TXN => 37
  }

  function CodeSet(s: seq<Signal>): set<Code> {
    if s == [] then {} else CodeSet(s[..|s| - 1]) + {s[|s| - 1].code}
  }

  /** Positive weights, distinct codes, in rising places from lo to hi - 1. */
  predicate Block(s: seq<Signal>, lo: nat, hi: nat) {
    s == [] ||
    (var x := s[|s| - 1];
     && x.weight > 0 && lo <= Place(x.code) < hi
     && Block(s[..|s| - 1], lo, Place(x.code) + 1) && x.code !in CodeSet(s[..|s| - 1]))
  }

  lemma {:induction false} PlacesIn(s: seq<Signal>, lo: nat, hi: nat, code: Code)
    requires Block(s, lo, hi) && code in CodeSet(s)
    ensures lo <= Place(code) < hi
  {
    var x := s[|s| - 1];
    if code != x.code { PlacesIn(s[..|s| - 1], lo, Place(x.code) + 1, code); }
  }

  lemma {:induction false} Widen(s: seq<Signal>, lo: nat, hi: nat, p: nat, q: nat)
    requires Block(s, lo, hi) && p <= lo && hi <= q
    ensures Block(s, p, q)
  {
    if s != [] {
      var next := Place(s[|s| - 1].code) + 1;
      Widen(s[..|s| - 1], lo, next, p, next);
    }
  }

  lemma {:induction false} CodeSetJoin(a: seq<Signal>, b: seq<Signal>)
    ensures CodeSet(a + b) == CodeSet(a) + CodeSet(b)
  {
    if b == [] {
      assert a + b == a;
    } else {
      CodeSetJoin(a, b[..|b| - 1]);
      assert (a + b)[..|a + b| - 1] == a + b[..|b| - 1];
    }
  }

  lemma {:induction false} Join(a: seq<Signal>, b: seq<Signal>, lo: nat, mid: nat, hi: nat)
    requires Block(a, lo, mid) && Block(b, mid, hi) && lo <= mid <= hi
    ensures Block(a + b, lo, hi)
  {
    if b == [] {
      assert a + b == a;
      Widen(a, lo, mid, lo, hi);
    } else {
      var init, x := b[..|b| - 1], b[|b| - 1];
      Join(a, init, lo, mid, Place(x.code) + 1);
      assert (a + b)[..|a + b| - 1] == a + init;
      CodeSetJoin(a, init);
      if x.code in CodeSet(a) { PlacesIn(a, lo, mid, x.code); }
    }
  }

  lemma {:induction false} BlockWeights(s: seq<Signal>, lo: nat, hi: nat)
    requires Block(s, lo, hi)
    ensures forall i :: 0 <= i < |s| ==> s[i].weight > 0 && s[i].code in CodeSet(s)
  {
    if s != [] {
      var init := s[..|s| - 1];
      BlockWeights(init, lo, Place(s[|s| - 1].code) + 1);
      assert forall i :: 0 <= i < |init| ==> init[i] == s[i];
    }
  }

  predicate Before(a: Code, b: Code) {
    a != b && Place(a) <= Place(b)
  }

  lemma LastComesLast(s: seq<Signal>, lo: nat, hi: nat, i: nat)
    requires Block(s, lo, hi) && i < |s| - 1
    ensures Before(s[i].code, s[|s| - 1].code)
  {
    var init, x := s[..|s| - 1], s[|s| - 1];
    var next := Place(x.code) + 1;
    BlockWeights(init, lo, next);
    assert init[i] == s[i];
    PlacesIn(init, lo, next, init[i].code);
  }

  lemma {:induction false} BlockMeans(s: seq<Signal>, lo: nat, hi: nat)
    requires Block(s, lo, hi)
    ensures forall i, j :: 0 <= i < j < |s| ==> Before(s[i].code, s[j].code)
  {
    if s != [] {
      var init := s[..|s| - 1];
      BlockMeans(init, lo, Place(s[|s| - 1].code) + 1);
      forall i, j | 0 <= i < j < |s| ensures Before(s[i].code, s[j].code) {
        if j < |s| - 1 { assert init[i] == s[i] && init[j] == s[j]; } else { LastComesLast(s, lo, hi, i); }
      }
    }
  }

  /** Typing raises each of its two codes at most once, in the order the log shows them. */
  lemma {:induction false} TypingShape(es: seq<Event>)
    ensures !Hesitated(es) && !PastedIn(es) ==> Typing(es) == []
    ensures Hesitated(es) && !PastedIn(es) ==> Typing(es) == [Signal(HESITATION, 10)]
    ensures !Hesitated(es) && PastedIn(es) ==> Typing(es) == [Signal(PASTE_INPUT, 10)]
    ensures Hesitated(es) && PastedIn(es) ==>
      Typing(es) == [Signal(HESITATION, 10), Signal(PASTE_INPUT, 10)]
      || Typing(es) == [Signal(PASTE_INPUT, 10), Signal(HESITATION, 10)]
  {
    if es != [] { TypingShape(es[..|es| - 1]); }
  }

  /** A conditional signal at its place. */
  lemma One(b: bool, code: Code, weight: int, k: nat)
    requires b ==> weight > 0 && Place(code) == k
    ensures Block(If(b, code, weight), k, k + 1)
  {
    if b { Single(Signal(code, weight), k); }
  }

  lemma Single(x: Signal, k: nat)
    requires x.weight > 0 && Place(x.code) == k
    ensures Block([x], k, k + 1) && CodeSet([x]) == {x.code}
  {
    var s := [x];
    assert s[..|s| - 1] == [];
  }

  lemma Ifs2(b1: bool, c1: Code, w1: int, b2: bool, c2: Code, w2: int, k: nat)
    requires w1 > 0 && w2 > 0 && Place(c1) == k && Place(c2) == k + 1
    ensures Block(If(b1, c1, w1) + If(b2, c2, w2), k, k + 2)
  {
    One(b1, c1, w1, k);
    One(b2, c2, w2, k + 1);
    Join(If(b1, c1, w1), If(b2, c2, w2), k, k + 1, k + 2);
  }

  lemma IfMore(s: seq<Signal>, b: bool, c: Code, w: int, lo: nat, k: nat)
    requires Block(s, lo, k) && lo <= k && w > 0 && Place(c) == k
    ensures Block(s + If(b, c, w), lo, k + 1)
  {
    One(b, c, w, k);
    Join(s, If(b, c, w), lo, k, k + 1);
  }

  lemma Ifs3(b1: bool, c1: Code, w1: int, b2: bool, c2: Code, w2: int, b3: bool, c3: Code, w3: int, k: nat)
    requires w1 > 0 && w2 > 0 && w3 > 0 && Place(c1) == k && Place(c2) == k + 1 && Place(c3) == k + 2
    ensures Block(If(b1, c1, w1) + If(b2, c2, w2) + If(b3, c3, w3), k, k + 3)
  {
    Ifs2(b1, c1, w1, b2, c2, w2, k);
    IfMore(If(b1, c1, w1) + If(b2, c2, w2), b3, c3, w3, k, k + 2);
  }

  lemma CallsBlock(es: seq<Event>)
    ensures Block(Calls(es), 0, 2)
  {
    var call := First(es, DuringCall);
    if call.Some? && call.value.call.Some? {
      var c := call.value.call.value;
      var hands := c.speaker || c.bluetooth || c.wired;
      Ifs2(true, ACTIVE_CALL, 35, hands, CALL_HANDS_FREE, 10, 0);
    } else {
      var ended, sent := Latest(es, CallEnd), Latest(es, Transfer);
      var recent := ended > 0 && sent > ended && sent - ended <= 5 * MINUTE;
      One(recent, RECENT_CALL, 25, 0);
      Widen(If(recent, RECENT_CALL, 25), 0, 1, 0, 2);
    }
  }

  lemma StepUpsBlock(es: seq<Event>)
    ensures Block(StepUps(es), 2, 3)
  {
    One(true, STEP_UP_FAILED, 35, 2);
    One(LastStepUp(es).1 == "ABANDONED", STEP_UP_ABANDONED, 20, 2);
  }

  lemma NewPayeeBlock(c: Ctx, t: Txn)
    ensures Block(NewPayee(c, t), 3, 5)
  {
    if t.payeeIsNew {
      var added := Latest(c.events, PayeeAdded);
      var sent := if Latest(c.events, Transfer) == 0 then c.now else Latest(c.events, Transfer);
      var rushed := added > 0 && sent >= added && sent - added <= 30 * MINUTE;
      Ifs2(true, NEW_PAYEE, 15, rushed, RUSHED_NEW_PAYEE, 20, 3);
    }
  }

  lemma PayeeBlocks(c: Ctx, t: Txn)
    ensures Block(Escalation(c, t), 5, 6) && Block(Reputation(c), 6, 7)
  {
    var p := c.payeePrior;
    One(|p| >= 2 && t.amount > 1.3 * p[0] && p[0] > 1.3 * p[1], ESCALATING_PAYEE, 35, 5);
    One(true, KNOWN_MULE_PAYEE, 55, 6);
    One(c.payeeIntel == "open", PAYEE_UNDER_INVESTIGATION, 30, 6);
  }

  lemma CategoryBlock(c: Ctx)
    ensures Block(Category(c), 7, 8)
  {
    One(true, GAMBLING_PAYEE, 10, 7);
    One(true, CRYPTO_P2P_PAYEE, 10, 7);
    One(c.payeeCategory == "INFORMAL_FX", INFORMAL_FX_PAYEE, 12, 7);
  }

  lemma AmountBlock(c: Ctx, t: Txn)
    ensures Block(Amount(c, t), 8, 9)
  {
    One(t.amount > 3.0 * c.medianAmount, AMOUNT_ABOVE_PROFILE, 25, 8);
    One(t.amount >= Cutoff(c.highAmount), HIGH_AMOUNT, 20, 8);
  }

  lemma RapidBlock(c: Ctx)
    ensures Block(Rapid(c), 9, 10)
  {
    var v := VelocityConfig(c.velocity);
    var count := VelocityCount(c.events, v.windowMin);
    if count >= v.threshold { assert v.slope * (count - v.threshold) >= 0; }
    One(count >= v.threshold, TXN_VELOCITY, v.baseWeight + v.slope * (count - v.threshold), 9);
  }

  lemma Pair(x: Signal, y: Signal, k: nat)
    requires x.weight > 0 && y.weight > 0 && x.code != y.code && Place(x.code) == Place(y.code) == k
    ensures Block([x, y], k, k + 1) && Block([x], k, k + 1) && Block([y], k, k + 1)
  {
    Single(x, k);
    Single(y, k);
    var s := [x, y];
    assert s[..|s| - 1] == [x];
  }

  lemma TypingBlock(es: seq<Event>)
    ensures Block(Typing(es), 10, 11)
  {
    TypingShape(es);
    var h, p := Signal(HESITATION, 10), Signal(PASTE_INPUT, 10);
    Pair(h, p, 10);
    Pair(p, h, 10);
  }

  lemma ConductBlock(c: Ctx, t: Txn)
    ensures Block(Conduct(c, t), 0, 11)
  {
    CallsBlock(c.events);
    StepUpsBlock(c.events);
    NewPayeeBlock(c, t);
    PayeeBlocks(c, t);
    CategoryBlock(c);
    AmountBlock(c, t);
    RapidBlock(c);
    TypingBlock(c.events);
    Join5(Calls(c.events), StepUps(c.events), NewPayee(c, t), Escalation(c, t), Reputation(c), 0, 2, 3, 5, 6, 7);
    Join5(Calls(c.events) + StepUps(c.events) + NewPayee(c, t) + Escalation(c, t) + Reputation(c),
          Category(c), Amount(c, t), Rapid(c), Typing(c.events), 0, 7, 8, 9, 10, 11);
  }

  lemma Join5(a: seq<Signal>, b: seq<Signal>, c: seq<Signal>, d: seq<Signal>, e: seq<Signal>,
              p: nat, q: nat, r: nat, s: nat, t: nat, u: nat)
    requires p <= q <= r <= s <= t <= u
    requires Block(a, p, q) && Block(b, q, r) && Block(c, r, s) && Block(d, s, t) && Block(e, t, u)
    ensures Block(a + b + c + d + e, p, u)
  {
    Join(a, b, p, q, r);
    Join(a + b, c, p, r, s);
    Join(a + b + c, d, p, s, t);
    Join(a + b + c + d, e, p, t, u);
  }

  lemma DeviceBlock(c: Ctx)
    ensures Block(Device(c), 11, 13)
  {
    var fresh_ := c.deviceFirstSeen.Some? && c.sessionStart.Some?
                  && c.deviceFirstSeen.value >= c.sessionStart.value - MINUTE;
    One(true, NO_USER_BOUND, 20, 11);
    One(fresh_, NEW_DEVICE_FOR_USER, 25, 11);
    One(c.simChanged, SIM_CHANGED, 15, 12);
    var first := if c.userRef == "" then If(true, NO_USER_BOUND, 20) else If(fresh_, NEW_DEVICE_FOR_USER, 25);
    Join(first, If(c.simChanged, SIM_CHANGED, 15), 11, 12, 13);
  }

  lemma IntegrityBlock(e: Option<Event>)
    ensures Block(IntegritySignals(e), 14, 20)
  {
    if e.Some? && e.value.payload.Integrity? {
      var p := e.value.payload;
      var sideloaded := p.installer.Some? && ManualInstaller(p.installer.value);
      Ifs6(p.rooted || p.hooked, p.emulator, p.accessibility, p.debuggable, p.devOptions, sideloaded);
    }
  }

  lemma Ifs6(b1: bool, b2: bool, b3: bool, b4: bool, b5: bool, b6: bool)
    ensures Block(If(b1, DEVICE_INTEGRITY, 30) + If(b2, EMULATOR, 20) + If(b3, ACCESSIBILITY_SERVICES, 15)
                  + If(b4, DEBUG_BUILD, 20) + If(b5, DEV_OPTIONS, 10) + If(b6, SIDELOADED_APP, 25), 14, 20)
  {
    Ifs3(b1, DEVICE_INTEGRITY, 30, b2, EMULATOR, 20, b3, ACCESSIBILITY_SERVICES, 15, 14);
    IfsMore3(If(b1, DEVICE_INTEGRITY, 30) + If(b2, EMULATOR, 20) + If(b3, ACCESSIBILITY_SERVICES, 15),
             b4, DEBUG_BUILD, 20, b5, DEV_OPTIONS, 10, b6, SIDELOADED_APP, 25, 14, 17);
  }

  lemma IfsMore3(s: seq<Signal>, b1: bool, c1: Code, w1: int, b2: bool, c2: Code, w2: int,
                 b3: bool, c3: Code, w3: int, lo: nat, k: nat)
    requires Block(s, lo, k) && lo <= k
    requires w1 > 0 && w2 > 0 && w3 > 0 && Place(c1) == k && Place(c2) == k + 1 && Place(c3) == k + 2
    ensures Block(s + If(b1, c1, w1) + If(b2, c2, w2) + If(b3, c3, w3), lo, k + 3)
  {
    IfMore(s, b1, c1, w1, lo, k);
    IfMore(s + If(b1, c1, w1), b2, c2, w2, lo, k + 1);
    IfMore(s + If(b1, c1, w1) + If(b2, c2, w2), b3, c3, w3, lo, k + 2);
  }

  lemma AttestationBlock(e: Option<Event>)
    ensures Block(AttestationSignals(e), 20, 21)
  {
    if e.Some? && e.value.payload.Attestation? {
      var p := e.value.payload;
      One(true, ATTESTATION_FAILED, 40, 20);
      One(p.android && ("API_ERROR" <= p.status || "UNAVAILABLE" <= p.status), ATTESTATION_MISSING, 10, 20);
    }
  }

  lemma NetworkBlock(e: Option<Event>)
    ensures Block(NetworkSignals(e), 21, 24)
  {
    if e.Some? && e.value.payload.Network? {
      var p := e.value.payload;
      var mitm := (p.systemCas.None? || p.systemCas.value > 0) && p.userCas.Some? && p.userCas.value > 0;
      Ifs3(p.vpn, VPN_ACTIVE, 10, p.proxy, PROXY_CONFIGURED, 15, mitm, MITM_CA_INSTALLED, 30, 21);
    }
  }

  lemma InstallBlock(e: Option<Event>)
    ensures Block(Install(e), 13, 14)
  {
    One(Install(e) != [], NEW_INSTALL, 15, 13);
  }

  lemma CloneBlock(e: Option<Event>)
    ensures Block(CloneSignals(e), 24, 25)
  {
    One(CloneSignals(e) != [], CLONE_CONTAINER, 20, 24);
  }

  lemma ScreenshotBlock(e: Option<Event>)
    ensures Block(Screenshot(e), 25, 26)
  {
    One(e.Some?, SCREENSHOT, 10, 25);
  }

  lemma HandsetBlock(c: Ctx)
    ensures Block(Handset(c), 11, 26)
  {
    var es := c.events;
    var fingerprint, integrity := First(es, FingerprintEvent), First(es, IntegrityEvent);
    var attestation, network := First(es, AttestationEvent), First(es, NetworkEvent);
    var container, screenshot := First(es, ContainerEvent), First(es, ScreenshotEvent);
    DeviceBlock(c);
    IntegrityBlock(integrity);
    AttestationBlock(attestation);
    NetworkBlock(network);
    InstallBlock(fingerprint);
    CloneBlock(container);
    ScreenshotBlock(screenshot);
    var five := Device(c) + Install(fingerprint) + IntegritySignals(integrity) + AttestationSignals(attestation)
                + NetworkSignals(network);
    Join5(Device(c), Install(fingerprint), IntegritySignals(integrity), AttestationSignals(attestation),
          NetworkSignals(network), 11, 13, 14, 20, 21, 24);
    Join(five, CloneSignals(container), 11, 24, 25);
    Join(five + CloneSignals(container), Screenshot(screenshot), 11, 25, 26);
  }

  lemma GeographyBlock(c: Ctx, e: Option<Event>)
    ensures Block(Geography(c, e), 31, 34)
  {
    var read := e.Some? && e.value.payload.Location?;
    var g := if read then e.value.payload.geohash else "";
    var mock := read && e.value.payload.mock;
    var travel := g != "" && e.value.ts > 0 && c.impossibleTravel;
    var unusual := g != "" && c.historyGeohashes != [] && !KnownArea(g, c.historyGeohashes);
    Ifs3(mock, MOCK_LOCATION, 25, travel, IMPOSSIBLE_TRAVEL, 30, unusual, GEO_UNUSUAL, 10, 31);
  }

  lemma LastBlocks(c: Ctx, t: Txn)
    ensures Block(Dormancy(c), 36, 37) && Block(Hurry(c, t), 37, 38)
  {
    One(Dormancy(c) != [], DORMANT_REACTIVATED, 25, 36);
    One(Hurry(c, t) != [], RAPID_TO_TXN, 10, 37);
  }

  lemma Ifs5(b1: bool, b2: bool, b3: bool, b4: bool, b5: bool)
    ensures Block(If(b1, TOUCH_ANOMALY, 25) + If(b2, REMOTE_ACCESS, 35) + If(b3, HEADLESS_BROWSER, 30)
                  + If(b4, MOUSE_ANOMALY, 25) + If(b5, KEYSTROKE_ANOMALY, 20), 26, 31)
  {
    Ifs2(b1, TOUCH_ANOMALY, 25, b2, REMOTE_ACCESS, 35, 26);
    IfsMore3(If(b1, TOUCH_ANOMALY, 25) + If(b2, REMOTE_ACCESS, 35),
             b3, HEADLESS_BROWSER, 30, b4, MOUSE_ANOMALY, 25, b5, KEYSTROKE_ANOMALY, 20, 26, 28);
  }

  lemma AnomaliesBlock(c: Ctx)
    ensures Block(Anomalies(c), 26, 31)
  {
    var web := First(c.events, WebEvent);
    Ifs5(c.touchAnomaly, RemoteControlled(c.events),
         web.Some? && web.value.payload.Fingerprint? && web.value.payload.headless, c.mouseAnomaly, c.cadenceAnomaly);
  }

  lemma ProfileBlock(c: Ctx, t: Txn)
    ensures Block(Profile(c, t), 26, 38)
  {
    var location := First(c.events, LocationEvent);
    AnomaliesBlock(c);
    GeographyBlock(c, location);
    Ifs2(RapidInOut(c, t), RAPID_IN_OUT, 30, c.hasBankFlow && c.flowFan >= 3, FAN_OUT_24H, 20, 34);
    LastBlocks(c, t);
    Join5(Anomalies(c), Geography(c, location), BankFlow(c, t), Dormancy(c), Hurry(c, t), 26, 31, 34, 36, 37, 38);
  }

  /** Over any event log: no code is raised twice, every weight is positive, and the codes come in their places. */
  lemma CodesDistinct(c: Ctx, t: Txn)
    ensures var s := Signals(c, t);
            && (forall i :: 0 <= i < |s| ==> s[i].weight > 0)
            && (forall i, j :: 0 <= i < j < |s| ==> Before(s[i].code, s[j].code))
  {
    ConductBlock(c, t);
    HandsetBlock(c);
    ProfileBlock(c, t);
    Join(Conduct(c, t), Handset(c), 0, 11, 26);
    Join(Conduct(c, t) + Handset(c), Profile(c, t), 0, 26, 38);
    BlockWeights(Signals(c, t), 0, 38);
    BlockMeans(Signals(c, t), 0, 38);
  }

  lemma {:induction false} TotalAtLeast(s: seq<Signal>, i: nat)
    requires forall j :: 0 <= j < |s| ==> s[j].weight > 0
    ensures Total(s) >= |s|
    ensures i < |s| ==> Total(s) >= s[i].weight
  {
    if s != [] {
      var init := s[..|s| - 1];
      assert forall j :: 0 <= j < |init| ==> init[j] == s[j];
      TotalAtLeast(init, i);
    }
  }

  /** The score is within 0 to 100, and 0 exactly when nothing was raised. */
  lemma ScoreRange(c: Ctx, t: Txn)
    ensures var s := Signals(c, t);
            0 <= Score(s) <= 100 && (Score(s) == 0 <==> s == [])
  {
    CodesDistinct(c, t);
    TotalAtLeast(Signals(c, t), 0);
  }

  // ---------- velocity does not depend on the order of the log ----------

  lemma {:induction false} SinceConcat(a: seq<Event>, b: seq<Event>, p: Event -> bool, cutoff: int)
    ensures Since(a + b, p, cutoff) == Since(a, p, cutoff) + Since(b, p, cutoff)
  {
    if b == [] {
      assert a + b == a;
    } else {
      SinceConcat(a, b[..|b| - 1], p, cutoff);
      assert (a + b)[..|a + b| - 1] == a + b[..|b| - 1];
    }
  }

  lemma RemoveOne(init: seq<Event>, e: Event, fs: seq<Event>, j: nat)
    requires j < |fs| && fs[j] == e && multiset(init + [e]) == multiset(fs)
    ensures multiset(init) == multiset(fs[..j] + fs[j + 1..])
  {
    var a, b := fs[..j], fs[j + 1..];
    assert fs == a + [e] + b;
    assert multiset(fs) == multiset(a) + multiset{e} + multiset(b);
    assert multiset(init + [e]) == multiset(init) + multiset{e};
    assert multiset(a + b) == multiset(a) + multiset(b);
    forall x ensures multiset(init)[x] == multiset(a + b)[x] {
      assert multiset(init + [e])[x] == multiset(fs)[x];
    }
  }

  lemma {:induction false} SincePermuted(es: seq<Event>, fs: seq<Event>, p: Event -> bool, cutoff: int)
    requires multiset(es) == multiset(fs)
    ensures Since(es, p, cutoff) == Since(fs, p, cutoff)
    decreases |es|
  {
    assert |es| == |multiset(es)| == |multiset(fs)| == |fs|;
    if es != [] {
      var init, e := es[..|es| - 1], es[|es| - 1];
      assert es == init + [e];
      assert e in multiset(fs);
      var j :| 0 <= j < |fs| && fs[j] == e;
      RemoveOne(init, e, fs, j);
      SincePermuted(init, fs[..j] + fs[j + 1..], p, cutoff);
      SinceRemoved(fs, p, cutoff, j);
    }
  }

  lemma SinceRemoved(fs: seq<Event>, p: Event -> bool, cutoff: int, j: nat)
    requires j < |fs|
    ensures Since(fs, p, cutoff)
         == Since(fs[..j] + fs[j + 1..], p, cutoff) + if p(fs[j]) && fs[j].ts >= cutoff then 1 else 0
  {
    var a, b := fs[..j + 1], fs[j + 1..];
    assert fs == a + b && a[..j] == fs[..j];
    SinceConcat(a, b, p, cutoff);
    SinceConcat(fs[..j], b, p, cutoff);
  }

  lemma {:induction false} LatestIs(es: seq<Event>, p: Event -> bool)
    ensures forall i :: 0 <= i < |es| && p(es[i]) ==> es[i].ts <= Latest(es, p)
    ensures Latest(es, p) > 0 ==> exists i :: 0 <= i < |es| && p(es[i]) && es[i].ts == Latest(es, p)
  {
    if es != [] {
      var init := es[..|es| - 1];
      LatestIs(init, p);
      assert forall i :: 0 <= i < |init| ==> init[i] == es[i];
      assert p(es[|es| - 1]) ==> es[|es| - 1].ts <= Latest(es, p);
    }
  }

  lemma LatestWithin(es: seq<Event>, fs: seq<Event>, p: Event -> bool)
    requires multiset(es) == multiset(fs)
    ensures Latest(es, p) <= Latest(fs, p)
  {
    LatestIs(es, p);
    LatestIs(fs, p);
    if Latest(es, p) > 0 {
      var i :| 0 <= i < |es| && p(es[i]) && es[i].ts == Latest(es, p);
      assert es[i] in multiset(fs);
      var j :| 0 <= j < |fs| && fs[j] == es[i];
    }
  }

  /** Reordering the log changes neither the transfer count nor the velocity signal. */
  lemma VelocityOrderFree(c: Ctx, shuffled: seq<Event>)
    requires multiset(shuffled) == multiset(c.events)
    ensures Rapid(c.(events := shuffled)) == Rapid(c)
  {
    LatestWithin(c.events, shuffled, Transfer);
    LatestWithin(shuffled, c.events, Transfer);
    var v := VelocityConfig(c.velocity);
    SincePermuted(shuffled, c.events, Transfer, Latest(c.events, Transfer) - v.windowMin * MINUTE);
  }

  /** The last transfer is always inside its own window, so any transfer at a real time counts at least one. */
  lemma VelocityCountsTheLast(es: seq<Event>, windowMin: int, i: nat)
    requires i < |es| && Transfer(es[i]) && es[i].ts > 0 && windowMin > 0
    ensures VelocityCount(es, windowMin) >= 1
  {
    LatestIs(es, Transfer);
    var j :| 0 <= j < |es| && Transfer(es[j]) && es[j].ts == Latest(es, Transfer);
    SinceAtLeastOne(es, Transfer, Latest(es, Transfer) - windowMin * MINUTE, j);
  }

  lemma {:induction false} SinceAtLeastOne(es: seq<Event>, p: Event -> bool, cutoff: int, j: nat)
    requires j < |es| && p(es[j]) && es[j].ts >= cutoff
    ensures Since(es, p, cutoff) >= 1
  {
    if j < |es| - 1 { SinceAtLeastOne(es[..|es| - 1], p, cutoff, j); }
  }

  // ---------- confirmed fraud destinations ----------

  /** The mule signal is among the signals, with its weight. */
  lemma MuleRaised(c: Ctx, t: Txn) returns (i: nat)
    requires c.payeeIntel == "confirmed"
    ensures i < |Signals(c, t)| && Signals(c, t)[i] == Signal(KNOWN_MULE_PAYEE, 55)
  {
    var before := Calls(c.events) + StepUps(c.events) + NewPayee(c, t) + Escalation(c, t);
    assert Reputation(c) == [Signal(KNOWN_MULE_PAYEE, 55)];
    i := |before|;
    assert (before + Reputation(c))[i] == Signal(KNOWN_MULE_PAYEE, 55);
    var conduct := before + Reputation(c) + Category(c) + Amount(c, t) + Rapid(c) + Typing(c.events);
    assert conduct == Conduct(c, t);
    assert conduct[i] == Signal(KNOWN_MULE_PAYEE, 55);
    assert Signals(c, t)[i] == conduct[i];
  }

  /**
   A payment to a confirmed fraud destination scores at least 55 and is labelled a scam, so whatever the
   tenant's bands its payer is never sent to an identity check.
   */
  lemma ConfirmedPayee(c: Ctx, t: Txn, bands: Bands)
    requires c.payeeIntel == "confirmed"
    ensures var s := Signals(c, t);
            && Score(s) >= 55 && Threat(s, c.userRef) == APP_SCAM
            && InterventionFor(Decide(Score(s), bands), Threat(s, c.userRef)) != "IDENTITY"
  {
    var s := Signals(c, t);
    CodesDistinct(c, t);
    var i := MuleRaised(c, t);
    MuleScore(s, i);
    MuleIsScam(s, c.userRef, i);
    ScamNeverIdentity(Decide(Score(s), bands));
  }

  lemma MuleScore(s: seq<Signal>, i: nat)
    requires (forall j :: 0 <= j < |s| ==> s[j].weight > 0) && i < |s| && s[i].weight == 55
    ensures Score(s) >= 55
  {
    TotalAtLeast(s, i);
  }

  lemma ScamNeverIdentity(d: Decision)
    ensures InterventionFor(d, APP_SCAM) != "IDENTITY"
  {}

  lemma MuleIsScam(s: seq<Signal>, userRef: string, i: nat)
    requires i < |s| && s[i].code == KNOWN_MULE_PAYEE
    ensures Threat(s, userRef) == APP_SCAM
  {
    assert Has(s, KNOWN_MULE_PAYEE);
  }

  /** Nothing known but the payee's reputation. */
  function Plain(): Ctx {
    Ctx("user", None, false, [], None, None, [], "confirmed", "", [], 0.0, 0.0, Velocity(0, 0, 0, 0),
        false, false, false, false, [], false, 0.0, None, 0, 0, 1)
  }

  lemma PlainConduct(t: Txn)
    requires t == Txn(0.0, false)
    ensures Conduct(Plain(), t) == [Signal(KNOWN_MULE_PAYEE, 55)]
  {
    var c := Plain();
    assert c.events == [];
    assert Calls(c.events) == [] && StepUps(c.events) == [] && NewPayee(c, t) == [] && Escalation(c, t) == [];
    assert Category(c) == [] && Amount(c, t) == [] && Rapid(c) == [] && Typing(c.events) == [];
  }

  lemma PlainRest(t: Txn)
    requires t == Txn(0.0, false)
    ensures Handset(Plain()) == [] && Profile(Plain(), t) == []
  {
    assert Plain().events == [];
  }

  lemma OneSignal(a: seq<Signal>, b: seq<Signal>, d: seq<Signal>)
    requires a == [Signal(KNOWN_MULE_PAYEE, 55)] && b == [] && d == []
    ensures Score(a + b + d) == 55
  {
    var s := a + b + d;
    assert s == [Signal(KNOWN_MULE_PAYEE, 55)];
    assert Total(s[..|s| - 1]) == 0;
    assert Total(s) == 55;
  }

  lemma PlainScore()
    ensures Score(Signals(Plain(), Txn(0.0, false))) == 55
  {
    var c, t := Plain(), Txn(0.0, false);
    PlainConduct(t);
    PlainRest(t);
    OneSignal(Conduct(c, t), Handset(c), Profile(c, t));
  }

  /** A confirmed fraud destination always stops a payment exactly when one of the bands starts at 55 or below. */
  lemma ConfirmedPayeeStoppedIff(bands: Bands)
    ensures (forall c: Ctx, t: Txn :: c.payeeIntel == "confirmed" ==> Decide(Score(Signals(c, t)), bands) != ALLOW)
            <==> (bands.stepUpAt <= 55 || bands.holdAt <= 55)
  {
    if bands.stepUpAt <= 55 || bands.holdAt <= 55 {
      forall c: Ctx, t: Txn | c.payeeIntel == "confirmed" ensures Decide(Score(Signals(c, t)), bands) != ALLOW {
        ConfirmedPayee(c, t, bands);
      }
    } else {
      PlainScore();
      assert Decide(Score(Signals(Plain(), Txn(0.0, false))), bands) == ALLOW;
    }
  }

  // ---------- who is warned of a scam instead of asked for an identity check ----------

  /** The section of the engine that raises the codes of a place. */
  function Section(c: Ctx, t: Txn, place: nat): seq<Signal> {
    if place < 2 then Calls(c.events)
    else if place == 2 then StepUps(c.events)
    else if place < 5 then NewPayee(c, t)
    else if place == 5 then Escalation(c, t)
    else if place == 6 then Reputation(c)
    else if place == 7 then Category(c)
    else if place == 8 then Amount(c, t)
    else if place == 9 then Rapid(c)
    else if place == 10 then Typing(c.events)
    else if place < 26 then Handset(c)
    else Profile(c, t)
  }

  lemma Outside(s: seq<Signal>, lo: nat, hi: nat, code: Code)
    requires Block(s, lo, hi)
    ensures code in CodeSet(s) ==> lo <= Place(code) < hi
  {
    if code in CodeSet(s) { PlacesIn(s, lo, hi, code); }
  }

  lemma CodeSet5(a: seq<Signal>, b: seq<Signal>, c: seq<Signal>, d: seq<Signal>, e: seq<Signal>)
    ensures CodeSet(a + b + c + d + e) == CodeSet(a) + CodeSet(b) + CodeSet(c) + CodeSet(d) + CodeSet(e)
  {
    CodeSetJoin(a, b);
    CodeSetJoin(a + b, c);
    CodeSetJoin(a + b + c, d);
    CodeSetJoin(a + b + c + d, e);
  }

  lemma ConductCodes(c: Ctx, t: Txn)
    ensures CodeSet(Conduct(c, t)) ==
            CodeSet(Calls(c.events)) + CodeSet(StepUps(c.events)) + CodeSet(NewPayee(c, t)) + CodeSet(Escalation(c, t))
            + CodeSet(Reputation(c)) + CodeSet(Category(c)) + CodeSet(Amount(c, t)) + CodeSet(Rapid(c))
            + CodeSet(Typing(c.events))
  {
    var five := Calls(c.events) + StepUps(c.events) + NewPayee(c, t) + Escalation(c, t) + Reputation(c);
    CodeSet5(Calls(c.events), StepUps(c.events), NewPayee(c, t), Escalation(c, t), Reputation(c));
    CodeSet5(five, Category(c), Amount(c, t), Rapid(c), Typing(c.events));
  }

  lemma OutsideConduct(c: Ctx, t: Txn, code: Code)
    ensures code in CodeSet(Calls(c.events)) ==> Place(code) < 2
    ensures code in CodeSet(StepUps(c.events)) ==> Place(code) == 2
    ensures code in CodeSet(NewPayee(c, t)) ==> 3 <= Place(code) < 5
    ensures code in CodeSet(Escalation(c, t)) ==> Place(code) == 5
    ensures code in CodeSet(Reputation(c)) ==> Place(code) == 6
    ensures code in CodeSet(Category(c)) ==> Place(code) == 7
    ensures code in CodeSet(Amount(c, t)) ==> Place(code) == 8
    ensures code in CodeSet(Rapid(c)) ==> Place(code) == 9
    ensures code in CodeSet(Typing(c.events)) ==> Place(code) == 10
  {
    CallsBlock(c.events);
    Outside(Calls(c.events), 0, 2, code);
    StepUpsBlock(c.events);
    Outside(StepUps(c.events), 2, 3, code);
    NewPayeeBlock(c, t);
    Outside(NewPayee(c, t), 3, 5, code);
    PayeeBlocks(c, t);
    Outside(Escalation(c, t), 5, 6, code);
    Outside(Reputation(c), 6, 7, code);
    CategoryBlock(c);
    Outside(Category(c), 7, 8, code);
    AmountBlock(c, t);
    Outside(Amount(c, t), 8, 9, code);
    RapidBlock(c);
    Outside(Rapid(c), 9, 10, code);
    TypingBlock(c.events);
    Outside(Typing(c.events), 10, 11, code);
  }

  lemma {:induction false} HasCode(s: seq<Signal>, code: Code)
    ensures Has(s, code) <==> code in CodeSet(s)
  {
    if s != [] {
      HasCode(s[..|s| - 1], code);
      assert s == s[..|s| - 1] + [s[|s| - 1]];
    }
  }

  lemma ConductBySection(c: Ctx, t: Txn, code: Code)
    requires Place(code) < 11
    ensures code in CodeSet(Conduct(c, t)) <==> code in CodeSet(Section(c, t, Place(code)))
  {
    ConductCodes(c, t);
    OutsideConduct(c, t, code);
  }

  lemma OnlyConduct(a: seq<Signal>, b: seq<Signal>, d: seq<Signal>, code: Code)
    requires Block(b, 11, 26) && Block(d, 26, 38) && Place(code) < 11
    ensures Has(a + b + d, code) <==> code in CodeSet(a)
  {
    HasCode(a + b + d, code);
    CodeSetJoin(a, b);
    CodeSetJoin(a + b, d);
    Outside(b, 11, 26, code);
    Outside(d, 26, 38, code);
  }

  /** The code is among the signals exactly when its own section raised it. */
  predicate Raised(s: seq<Signal>, c: Ctx, t: Txn, code: Code) {
    Has(s, code) <==> code in CodeSet(Section(c, t, Place(code)))
  }

  /** So it is for every code of the conduct sections. */
  ghost predicate BySection(s: seq<Signal>, c: Ctx, t: Txn) {
    forall code {:trigger Raised(s, c, t, code)} :: Place(code) < 11 ==> Raised(s, c, t, code)
  }

  lemma RaisedBySection(c: Ctx, t: Txn)
    ensures BySection(Signals(c, t), c, t)
  {
    HandsetBlock(c);
    ProfileBlock(c, t);
    forall code | Place(code) < 11
      ensures Raised(Signals(c, t), c, t, code)
    {
      OnlyConduct(Conduct(c, t), Handset(c), Profile(c, t), code);
      ConductBySection(c, t, code);
    }
  }

  lemma CodesOfTwo(b1: bool, c1: Code, w1: int, b2: bool, c2: Code, w2: int)
    ensures CodeSet(If(b1, c1, w1)) == if b1 then {c1} else {}
    ensures CodeSet(If(b1, c1, w1) + If(b2, c2, w2)) == (if b1 then {c1} else {}) + (if b2 then {c2} else {})
  {
    var a, b := If(b1, c1, w1), If(b2, c2, w2);
    if b1 { assert a[..|a| - 1] == []; }
    if b2 { assert b[..|b| - 1] == []; }
    CodeSetJoin(a, b);
  }

  /** A business event was sent during a call. */
  predicate OnCall(es: seq<Event>) {
    exists i :: 0 <= i < |es| && DuringCall(es[i])
  }

  predicate JustHungUp(es: seq<Event>) {
    var ended, sent := Latest(es, CallEnd), Latest(es, Transfer);
    ended > 0 && sent > ended && sent - ended <= 300000
  }

  /** The payee was added at most half an hour before the transfer. */
  predicate RushedPayee(c: Ctx) {
    var added := Latest(c.events, PayeeAdded);
    var sent := if Latest(c.events, Transfer) == 0 then c.now else Latest(c.events, Transfer);
    added > 0 && sent >= added && sent - added <= 1800000
  }

  predicate Escalates(c: Ctx, t: Txn) {
    var p := c.payeePrior;
    |p| >= 2 && t.amount > 1.3 * p[0] && p[0] > 1.3 * p[1]
  }

  /** Three times the user's median once there is a profile, else the tenant's cutoff. */
  predicate LargeAmount(c: Ctx, t: Txn) {
    if Positives(c.amountHistory) >= 3 then t.amount > 3.0 * c.medianAmount else t.amount >= Cutoff(c.highAmount)
  }

  predicate Pastes(es: seq<Event>) {
    exists i :: 0 <= i < |es| && TypingEvent(es[i]) && Pasted(es[i].payload.keys)
  }

  /** What the log and the payment show of somebody being talked into it. */
  predicate Coached(c: Ctx, t: Txn) {
    || c.payeeIntel == "confirmed" || Escalates(c, t)
    || (t.payeeIsNew && Pastes(c.events))
    || ((OnCall(c.events) || JustHungUp(c.events)) && (t.payeeIsNew || LargeAmount(c, t)))
    || (t.payeeIsNew && RushedPayee(c))
  }

  lemma {:induction false} FirstIff(es: seq<Event>, p: Event -> bool)
    ensures First(es, p).Some? <==> exists i :: 0 <= i < |es| && p(es[i])
    ensures First(es, p).Some? ==> p(First(es, p).value)
  {
    if es != [] {
      var init := es[..|es| - 1];
      FirstIff(init, p);
      assert forall i :: 0 <= i < |init| ==> init[i] == es[i];
    }
  }

  lemma {:induction false} PastesIff(es: seq<Event>)
    ensures PastedIn(es) <==> Pastes(es)
  {
    if es != [] {
      var init := es[..|es| - 1];
      PastesIff(init);
      assert forall i :: 0 <= i < |init| ==> init[i] == es[i];
    }
  }

  lemma CallCodes(es: seq<Event>)
    ensures ACTIVE_CALL in CodeSet(Calls(es)) || RECENT_CALL in CodeSet(Calls(es)) <==> OnCall(es) || JustHungUp(es)
  {
    FirstIff(es, DuringCall);
    var call := First(es, DuringCall);
    if call.Some? {
      var k := call.value.call.value;
      CodesOfTwo(true, ACTIVE_CALL, 35, k.speaker || k.bluetooth || k.wired, CALL_HANDS_FREE, 10);
    } else {
      CodesOfTwo(JustHungUp(es), RECENT_CALL, 25, false, RECENT_CALL, 25);
    }
  }

  lemma NewPayeeCodes(c: Ctx, t: Txn)
    ensures NEW_PAYEE in CodeSet(NewPayee(c, t)) <==> t.payeeIsNew
    ensures RUSHED_NEW_PAYEE in CodeSet(NewPayee(c, t)) <==> t.payeeIsNew && RushedPayee(c)
  {
    CodesOfTwo(true, NEW_PAYEE, 15, RushedPayee(c), RUSHED_NEW_PAYEE, 20);
  }

  lemma PayeeCodes(c: Ctx, t: Txn)
    ensures ESCALATING_PAYEE in CodeSet(Escalation(c, t)) <==> Escalates(c, t)
    ensures KNOWN_MULE_PAYEE in CodeSet(Reputation(c)) <==> c.payeeIntel == "confirmed"
  {
    CodesOfTwo(Escalates(c, t), ESCALATING_PAYEE, 35, false, ESCALATING_PAYEE, 35);
    CodesOfTwo(true, KNOWN_MULE_PAYEE, 55, false, KNOWN_MULE_PAYEE, 55);
    CodesOfTwo(c.payeeIntel == "open", PAYEE_UNDER_INVESTIGATION, 30, false, KNOWN_MULE_PAYEE, 55);
  }

  lemma AmountCodes(c: Ctx, t: Txn)
    ensures AMOUNT_ABOVE_PROFILE in CodeSet(Amount(c, t)) || HIGH_AMOUNT in CodeSet(Amount(c, t)) <==> LargeAmount(c, t)
  {
    CodesOfTwo(LargeAmount(c, t), AMOUNT_ABOVE_PROFILE, 25, false, HIGH_AMOUNT, 20);
    CodesOfTwo(LargeAmount(c, t), HIGH_AMOUNT, 20, false, HIGH_AMOUNT, 20);
  }

  lemma {:induction false} PasteCode(es: seq<Event>)
    ensures PASTE_INPUT in CodeSet(Typing(es)) <==> Pastes(es)
    ensures HESITATION in CodeSet(Typing(es)) ==> Hesitated(es)
  {
    PastesIff(es);
    if es != [] {
      var init, e := es[..|es| - 1], es[|es| - 1];
      PasteCode(init);
      PastesIff(init);
      var hesitates := TypingEvent(e) && Hesitant(e.payload.keys) && !Hesitated(init);
      var pastes := TypingEvent(e) && Pasted(e.payload.keys) && !PastedIn(init);
      var a, b := If(hesitates, HESITATION, 10), If(pastes, PASTE_INPUT, 10);
      CodesOfTwo(hesitates, HESITATION, 10, pastes, PASTE_INPUT, 10);
      CodesOfTwo(pastes, PASTE_INPUT, 10, false, PASTE_INPUT, 10);
      CodeSetJoin(Typing(init), a);
      CodeSetJoin(Typing(init) + a, b);
    }
  }

  lemma CallRaised(s: seq<Signal>, c: Ctx, t: Txn)
    requires BySection(s, c, t)
    ensures Has(s, ACTIVE_CALL) || Has(s, RECENT_CALL) <==> OnCall(c.events) || JustHungUp(c.events)
  {
    CallCodes(c.events);
    assert Raised(s, c, t, ACTIVE_CALL) && Raised(s, c, t, RECENT_CALL);
  }

  lemma PayeeRaised(s: seq<Signal>, c: Ctx, t: Txn)
    requires BySection(s, c, t)
    ensures Has(s, NEW_PAYEE) <==> t.payeeIsNew
    ensures Has(s, RUSHED_NEW_PAYEE) <==> t.payeeIsNew && RushedPayee(c)
    ensures Has(s, ESCALATING_PAYEE) <==> Escalates(c, t)
    ensures Has(s, KNOWN_MULE_PAYEE) <==> c.payeeIntel == "confirmed"
  {
    NewPayeeCodes(c, t);
    assert Raised(s, c, t, NEW_PAYEE) && Raised(s, c, t, RUSHED_NEW_PAYEE);
    PayeeCodes(c, t);
    assert Raised(s, c, t, ESCALATING_PAYEE) && Raised(s, c, t, KNOWN_MULE_PAYEE);
  }

  lemma AmountRaised(s: seq<Signal>, c: Ctx, t: Txn)
    requires BySection(s, c, t)
    ensures Has(s, AMOUNT_ABOVE_PROFILE) || Has(s, HIGH_AMOUNT) <==> LargeAmount(c, t)
  {
    AmountCodes(c, t);
    assert Raised(s, c, t, AMOUNT_ABOVE_PROFILE) && Raised(s, c, t, HIGH_AMOUNT);
  }

  lemma PasteRaised(s: seq<Signal>, c: Ctx, t: Txn)
    requires BySection(s, c, t)
    ensures Has(s, PASTE_INPUT) <==> Pastes(c.events)
  {
    PasteCode(c.events);
    assert Raised(s, c, t, PASTE_INPUT);
  }

  lemma LooksIff(s: seq<Signal>, c: Ctx, t: Txn)
    requires BySection(s, c, t)
    ensures LooksCoached(s) <==> Coached(c, t)
  {
    CallRaised(s, c, t);
    PayeeRaised(s, c, t);
    AmountRaised(s, c, t);
    PasteRaised(s, c, t);
  }

  lemma CoachedIff(s: seq<Signal>, c: Ctx, t: Txn)
    requires BySection(s, c, t)
    ensures Threat(s, c.userRef) == APP_SCAM <==> Coached(c, t)
  {
    LooksIff(s, c, t);
  }

  /** A session is labelled a scam exactly when the log and the payment show coaching, whatever else they show. */
  lemma ScamLabelIff(c: Ctx, t: Txn)
    ensures Threat(Signals(c, t), c.userRef) == APP_SCAM <==> Coached(c, t)
  {
    RaisedBySection(c, t);
    CoachedIff(Signals(c, t), c, t);
  }

  /** The payer is sent to an identity check, which a coached victim would pass, exactly when the decision is to
      step up and nothing shows coaching; a coached payer is warned instead. */
  lemma IdentityCheckIff(c: Ctx, t: Txn, bands: Bands)
    ensures var s := Signals(c, t);
      var intervention := InterventionFor(Decide(Score(s), bands), Threat(s, c.userRef));
      && (intervention == "IDENTITY" <==> Decide(Score(s), bands) == STEP_UP && !Coached(c, t))
      && (intervention == "SCAM_WARNING" <==> Decide(Score(s), bands) == STEP_UP && Coached(c, t))
  {
    ScamLabelIff(c, t);
  }
}
