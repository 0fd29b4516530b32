/**
 The Expo SDK's session, token cache and kill switch. Its code runs on one thread, so a step is whatever
 runs between two awaits; mints complete, and waiting callers resume, at any later time and in any order.
 Session ids are numbered in the order they are generated; times are in milliseconds.
 */
module ExpoSession {
  import opened Prelude

  /** What the server put in a token. */
  datatype Token = Token(session: nat, user: Option<string>)

  datatype Mint = Mint(session: nat, user: Option<string>)

  datatype Kind = Telemetry(name: string) | CommandAck(commandId: string)

  datatype Event = Event(session: nat, user: Option<string>, kind: Kind)

  /** A server command; `target` is None when it names no session. */
  datatype Command = Command(id: string, kind: string, target: Option<nat>)

  /**
   The module-level state. `sent` is everything handed to the transport, `callbacks` the sessions reported
   to the host, and `terminated`, which is history, the sessions the kill switch ended.
   */
  datatype Sdk = Sdk(sessionId: nat, userRef: Option<string>, token: Option<Token>, tokenUserRef: Option<string>,
                     tokenMintedAt: int, inflight: Option<Mint>, nextId: nat, listening: bool,
                     sent: seq<Event>, callbacks: seq<nat>, terminated: seq<nat>)

  const TOKEN_TTL := 45 * 60 * 1000
  const TERMINATE := "TERMINATE_SESSION"

  /** Fresh, and minted for the current user; the session is not compared. */
  predicate Usable(k: Sdk, now: int) {
    k.token.Some? && k.tokenUserRef == k.userRef && now - k.tokenMintedAt < TOKEN_TTL
  }

  function Emit(k: Sdk, kind: Kind): Sdk {
    k.(sent := k.sent + [Event(k.sessionId, k.userRef, kind)])
  }

  /** Joins the mint in flight or starts one for the current identity. */
  function Refresh(k: Sdk): Sdk {
    if k.inflight.Some? then k else k.(inflight := Some(Mint(k.sessionId, k.userRef)))
  }

  /** A mint completes: cached only if it succeeded and the session has not rotated since it began. */
  function Land(k: Sdk, ok: bool, now: int): Sdk
    requires k.inflight.Some?
  {
    var m := k.inflight.value;
    if ok && m.session == k.sessionId
    then k.(inflight := None, token := Some(Token(m.session, m.user)), tokenUserRef := m.user, tokenMintedAt := now)
    else k.(inflight := None)
  }

  function Login(k: Sdk, user: string): Sdk {
    k.(userRef := Some(user))
  }

  function Logout(k: Sdk): Sdk {
    k.(userRef := None, sessionId := k.nextId, nextId := k.nextId + 1)
  }

  predicate Applies(k: Sdk, c: Command) {
    c.kind == TERMINATE && (c.target.Some? ==> c.target.value == k.sessionId)
  }

  /** Unbinds the user, moves to a new session id, clears the cache and asks for a token. */
  function Rotate(k: Sdk): Sdk {
    Refresh(k.(userRef := None, sessionId := k.nextId, nextId := k.nextId + 1,
               token := None, tokenUserRef := None, tokenMintedAt := 0))
  }

  function Handle(k: Sdk, c: Command): Sdk {
    if !Applies(k, c) then k else
      var acked := Emit(k, CommandAck(c.id));
      Rotate(acked).(callbacks := if k.listening then k.callbacks + [k.sessionId] else k.callbacks,
                        terminated := k.terminated + [k.sessionId])
  }

  function HandleAll(k: Sdk, commands: seq<Command>): Sdk {
    if commands == [] then k
    else Handle(HandleAll(k, commands[..|commands| - 1]), commands[|commands| - 1])
  }

  // ---------- the SDK's own methods ----------

  class FraudSdk {
    var sessionId: nat
    var userRef: Option<string>
    var token: Option<Token>
    var tokenUserRef: Option<string>
    var tokenMintedAt: int
    var tokenInflight: Option<Mint>
    var ids: nat
    var listening: bool
    var sent: seq<Event>
    var callbacks: seq<nat>
    ghost var terminated: seq<nat>

    constructor ()
      ensures View() == Fresh
    {
      sessionId, userRef, token, tokenUserRef, tokenMintedAt, tokenInflight := 0, None, None, None, 0, None;
      ids, listening, sent, callbacks, terminated := 1, false, [], [], [];
    }

    ghost function View(): Sdk
      reads this
    {
      Sdk(sessionId, userRef, token, tokenUserRef, tokenMintedAt, tokenInflight, ids, listening, sent, callbacks,
          terminated)
    }

    method NewId() returns (id: nat)
      modifies this`ids
      ensures id == old(ids) && ids == old(ids) + 1
    {
      id := ids;
      ids := ids + 1;
    }

    method Enqueue(kind: Kind)
      modifies this`sent
      ensures View() == Emit(old(View()), kind)
    {
      sent := sent + [Event(sessionId, userRef, kind)];
    }

    method TokenUsable(now: int) returns (b: bool)
      ensures b == Usable(View(), now)
    {
      if token.None? { return false; }
      if tokenUserRef != userRef { return false; }
      return now - tokenMintedAt < TOKEN_TTL;
    }

    method RefreshToken()
      modifies this`tokenInflight
      ensures tokenInflight == if old(tokenInflight).Some? then old(tokenInflight) else Some(Mint(sessionId, userRef))
    {
      if tokenInflight.Some? { return; }
      tokenInflight := Some(Mint(sessionId, userRef));
    }

    /** The tail of the mint, after its response arrived. */
    method MintCompleted(ok: bool, now: int)
      requires tokenInflight.Some?
      modifies this
      ensures View() == Land(old(View()), ok, now)
    {
      var mint := tokenInflight.value;
      if ok {
        if sessionId == mint.session {
          token := Some(Token(mint.session, mint.user));
          tokenUserRef := mint.user;
          tokenMintedAt := now;
        }
      }
      tokenInflight := None;
    }

    method RotateSession()
      modifies `userRef, `sessionId, `ids, `token, `tokenUserRef, `tokenMintedAt, `tokenInflight
      ensures View() == Rotate(old(View()))
    {
      userRef := None;
      sessionId := NewId();
      token, tokenUserRef, tokenMintedAt := None, None, 0;
      RefreshToken();
    }

    /** The body of the command loop. */
    method HandleCommand(cmd: Command)
      modifies this
      ensures View() == Handle(old(View()), cmd)
    {
      if cmd.kind != TERMINATE { return; }
      var current := sessionId;
      if cmd.target.Some? && cmd.target.value != current { return; }
      Enqueue(CommandAck(cmd.id));
      RotateSession();
      terminated := terminated + [current];
      if listening { callbacks := callbacks + [current]; }
    }

    method HandleServerCommands(commands: seq<Command>)
      modifies this
      ensures View() == HandleAll(old(View()), commands)
    {
      ghost var before := View();
      for i := 0 to |commands|
        invariant View() == HandleAll(before, commands[..i])
      {
        assert commands[..i + 1][..i] == commands[..i];
        HandleCommand(commands[i]);
      }
      assert commands[..|commands|] == commands;
    }

    method OnSessionTerminated()
      modifies this`listening
      ensures View() == old(View()).(listening := true)
    {
      listening := true;
    }

    method SetUser(user: string, now: int) returns (usable: bool)
      modifies this
      ensures usable == Usable(Login(old(View()), user), now)
      ensures View() == if usable then Login(old(View()), user) else Refresh(Login(old(View()), user))
    {
      userRef := Some(user);
      usable := TokenUsable(now);
      if !usable { RefreshToken(); }
    }

    method ClearUser(now: int) returns (usable: bool)
      modifies this
      ensures usable == Usable(Logout(old(View())), now)
      ensures View() == if usable then Logout(old(View())) else Refresh(Logout(old(View())))
    {
      userRef := None;
      sessionId := NewId();
      usable := TokenUsable(now);
      if !usable { RefreshToken(); }
    }
  }

  const Fresh := Sdk(0, None, None, None, 0, None, 1, false, [], [], [])

  // ---------- runs ----------

  /**
   One ensureToken call: suspended on a mint, runnable after it, or finished. `awaited` counts the mints it
   has begun to await. The rest is history, taken at the start of the call: the identity it was made under,
   the time, and the identity changes and failed mints so far.
   */
  datatype Status = Suspended | Runnable | Returned(token: Option<Token>, undisturbed: bool)

  datatype Call = Call(status: Status, awaited: nat, session: nat, user: Option<string>,
                       since: int, changes: nat, failures: nat)

  datatype State = State(sdk: Sdk, calls: map<nat, Call>, now: int, changes: nat, failures: nat)

  datatype Step =
    | Tick(ms: nat)
    | Track(name: string)
    | Warm
    | Listen
    | GetToken(call: nat)
    | SetUser(call: nat, user: string)
    | ClearUser(call: nat)
    | Receive(c: Command)
    | MintDone(ok: bool)
    | Resume(call: nat)

  const Start := State(Fresh, map[], 0, 0, 0)

  /** Since the call began, no identity change, no failed mint, and less than a token's lifetime. */
  predicate Undisturbed(s: State, c: Call) {
    c.changes == s.changes && c.failures == s.failures && s.now - c.since < 45 * 60 * 1000
  }

  /** One pass of ensureToken's loop from the state's own identity. */
  function Proceed(s: State, id: nat, c: Call): State {
    if Usable(s.sdk, s.now) then
      s.(calls := s.calls[id := c.(status := Returned(s.sdk.token, Undisturbed(s, c)))])
    else if c.awaited < 2 then
      s.(calls := s.calls[id := c.(status := Suspended, awaited := c.awaited + 1)], sdk := Refresh(s.sdk))
    else
      s.(calls := s.calls[id := c.(status := Returned(None, Undisturbed(s, c)))])
  }

  function Ensure(s: State, id: nat): State {
    Proceed(s, id, Call(Runnable, 0, s.sdk.sessionId, s.sdk.userRef, s.now, s.changes, s.failures))
  }

  /** Everyone suspended awaits the one mint in flight. */
  function Wake(calls: map<nat, Call>): map<nat, Call> {
    map id | id in calls :: if calls[id].status.Suspended? then calls[id].(status := Runnable) else calls[id]
  }

  predicate Enabled(s: State, step: Step) {
    match step
    case GetToken(id) => id !in s.calls
    case SetUser(id, _) => id !in s.calls
    case ClearUser(id) => id !in s.calls
    case MintDone(_) => s.sdk.inflight.Some?
    case Resume(id) => id in s.calls && s.calls[id].status.Runnable?
    case _ => true
  }

  /** A step that is not enabled leaves the state as it is. */
  function Apply(s: State, step: Step): State {
    if !Enabled(s, step) then s else
    match step
    case Tick(ms) => s.(now := s.now + ms)
    case Track(name) => s.(sdk := Emit(s.sdk, Telemetry(name)))
    case Warm => s.(sdk := Refresh(s.sdk))
    case Listen => s.(sdk := s.sdk.(listening := true))
    case GetToken(id) => Ensure(s, id)
    case SetUser(id, user) =>
      var changed := if s.sdk.userRef == Some(user) then 0 else 1;
      Ensure(s.(sdk := Login(s.sdk, user), changes := s.changes + changed), id)
    case ClearUser(id) => Ensure(s.(sdk := Logout(s.sdk), changes := s.changes + 1), id)
    case Receive(c) =>
      s.(sdk := Handle(s.sdk, c), changes := s.changes + if Applies(s.sdk, c) then 1 else 0)
    case MintDone(ok) =>
      s.(sdk := Land(s.sdk, ok, s.now), calls := Wake(s.calls), failures := s.failures + if ok then 0 else 1)
    case Resume(id) => Proceed(s, id, s.calls[id])
  }

  function After(trace: seq<Step>): State {
    if trace == [] then Start else Apply(After(trace[..|trace| - 1]), trace[|trace| - 1])
  }

  // ---------- the kill switch ----------

  /** The sessions that acked a command, in order. */
  function AckSessions(sent: seq<Event>): seq<nat> {
    if sent == [] then [] else
      var e := sent[|sent| - 1];
      AckSessions(sent[..|sent| - 1]) + if e.kind.CommandAck? then [e.session] else []
  }

  ghost predicate Distinct(ids: seq<nat>) {
    forall i, j :: 0 <= i < j < |ids| ==> ids[i] != ids[j]
  }

  ghost predicate LastWord(sent: seq<Event>) {
    forall i, j :: 0 <= i < j < |sent| && sent[i].kind.CommandAck? ==> sent[j].session != sent[i].session
  }

  /** The dead sessions are distinct, old, and not the current one; the host heard of each at most once. */
  ghost predicate DeadOk(k: Sdk) {
    && k.sessionId < k.nextId && k.sessionId !in k.terminated
    && (forall id :: id in k.terminated ==> id < k.nextId)
    && Distinct(k.terminated) && Distinct(k.callbacks) && (forall id :: id in k.callbacks ==> id in k.terminated)
  }

  ghost predicate SentOk(sent: seq<Event>, terminated: seq<nat>) {
    && AckSessions(sent) == terminated && LastWord(sent)
    && (forall i :: 0 <= i < |sent| && sent[i].kind.CommandAck? ==> sent[i].session in terminated)
  }

  predicate TokenOk(k: Sdk) {
    k.token.Some? ==> k.token.value.session !in k.terminated && k.token.value.session < k.nextId
                      && k.token.value.user == k.tokenUserRef
  }

  ghost predicate SdkOk(k: Sdk) {
    DeadOk(k) && SentOk(k.sent, k.terminated) && TokenOk(k)
  }

  lemma EmitKeeps(k: Sdk, kind: Kind, terminated: seq<nat>)
    requires SdkOk(k)
    requires terminated == if kind.CommandAck? then k.terminated + [k.sessionId] else k.terminated
    ensures SentOk(Emit(k, kind).sent, terminated)
  {
    assert Emit(k, kind).sent[..|k.sent|] == k.sent;
  }

  lemma MoreDead(k: Sdk, t: Sdk)
    requires DeadOk(k) && t.terminated == k.terminated + [k.sessionId]
    requires t.callbacks == k.callbacks || t.callbacks == k.callbacks + [k.sessionId]
    requires t.sessionId == k.nextId && t.nextId == k.nextId + 1
    ensures DeadOk(t)
  {}

  lemma LandKeeps(k: Sdk, ok: bool, now: int)
    requires SdkOk(k) && k.inflight.Some?
    ensures SdkOk(Land(k, ok, now))
  {}

  lemma RefreshKeeps(k: Sdk)
    requires SdkOk(k)
    ensures SdkOk(Refresh(k))
  {}

  lemma LogoutKeeps(k: Sdk)
    requires SdkOk(k)
    ensures SdkOk(Logout(k))
  {}

  lemma ProceedSdk(s: State, id: nat, c: Call)
    ensures Proceed(s, id, c).sdk == s.sdk || Proceed(s, id, c).sdk == Refresh(s.sdk)
  {}

  lemma EnsureSdk(s: State, id: nat, k: Sdk)
    requires SdkOk(k) && s.sdk == k
    ensures SdkOk(Ensure(s, id).sdk)
  {
    RefreshKeeps(k);
    ProceedSdk(s, id, Call(Runnable, 0, k.sessionId, k.userRef, s.now, s.changes, s.failures));
  }

  /** The steps that start or continue an awaited token. */
  predicate Awaiting(step: Step) {
    step.GetToken? || step.SetUser? || step.ClearUser? || step.Resume?
  }

  lemma AwaitKeeps(s: State, step: Step)
    requires SdkOk(s.sdk) && Enabled(s, step) && Awaiting(step)
    ensures SdkOk(Apply(s, step).sdk)
  {
    match step
    case GetToken(id) => EnsureSdk(s, id, s.sdk);
    case SetUser(id, user) =>
      var changed := if s.sdk.userRef == Some(user) then 0 else 1;
      EnsureSdk(s.(sdk := Login(s.sdk, user), changes := s.changes + changed), id, Login(s.sdk, user));
    case ClearUser(id) =>
      LogoutKeeps(s.sdk);
      EnsureSdk(s.(sdk := Logout(s.sdk), changes := s.changes + 1), id, Logout(s.sdk));
    case Resume(id) =>
      RefreshKeeps(s.sdk);
      ProceedSdk(s, id, s.calls[id]);
  }

  lemma {:induction false} EverySdkOk(trace: seq<Step>)
    ensures SdkOk(After(trace).sdk)
  {
    if trace == [] {
    } else {
      EverySdkOk(trace[..|trace| - 1]);
      var s, step := After(trace[..|trace| - 1]), trace[|trace| - 1];
      if Enabled(s, step) {
        match step
        case Tick(_) =>
        case Track(name) => EmitKeeps(s.sdk, Telemetry(name), s.sdk.terminated);
        case Warm => RefreshKeeps(s.sdk);
        case Listen =>
        case Receive(c) =>
          if Applies(s.sdk, c) {
            EmitKeeps(s.sdk, CommandAck(c.id), s.sdk.terminated + [s.sdk.sessionId]);
            MoreDead(s.sdk, Handle(s.sdk, c));
          }
        case MintDone(ok) => LandKeeps(s.sdk, ok, s.now);
        case _ => AwaitKeeps(s, step);
      }
    }
  }

  /**
   However terminate commands are repeated, delayed or interleaved with mints and logouts: the host hears of
   each session once, the acks come from exactly the sessions that died and are the last thing sent under
   them, and no token of a dead session is in the cache.
   */
  lemma KillSwitch(trace: seq<Step>)
    ensures var k := After(trace).sdk;
            && Distinct(k.callbacks)
            && AckSessions(k.sent) == k.terminated && LastWord(k.sent)
            && k.sessionId !in k.terminated
            && (k.token.Some? ==> k.token.value.session !in k.terminated)
  {
    EverySdkOk(trace);
  }

  /** Step n of the run ends session `id`. */
  predicate Dies(trace: seq<Step>, n: nat, id: nat)
    requires n < |trace|
  {
    var k := After(trace[..n]).sdk;
    trace[n].Receive? && Applies(k, trace[n].c) && k.sessionId == id
  }

  lemma DeathStep(s: State, step: Step)
    ensures var k, t := s.sdk, Apply(s, step).sdk;
      var dead := if step.Receive? && Applies(k, step.c) then [k.sessionId] else [];
      && t.terminated == k.terminated + dead
      && t.callbacks == k.callbacks + (if k.listening then dead else [])
      && t.listening == (k.listening || step.Listen?)
  {}

  /** The host hears of exactly the sessions that a command ended while its callback was set. */
  lemma {:induction false} HeardIff(trace: seq<Step>, id: nat)
    ensures id in After(trace).sdk.terminated <==> exists n: nat :: n < |trace| && Dies(trace, n, id)
    ensures id in After(trace).sdk.callbacks <==>
              exists n: nat :: n < |trace| && Dies(trace, n, id) && After(trace[..n]).sdk.listening
  {
    if trace != [] {
      var m := |trace| - 1;
      HeardIff(trace[..m], id);
      DeathStep(After(trace[..m]), trace[m]);
      forall n: nat | n < m ensures trace[..m][..n] == trace[..n] && Dies(trace[..m], n, id) == Dies(trace, n, id) {
        assert trace[..m][..n] == trace[..n];
      }
      assert Dies(trace, m, id) ==> id in After(trace).sdk.terminated;
    }
  }

  /** From the moment the callback is set, every session that dies is reported, in order; before it, none is. */
  lemma {:induction false} EveryDeathReported(trace: seq<Step>, n: nat)
    requires n <= |trace|
    ensures var k, before := After(trace).sdk, After(trace[..n]).sdk;
      && before.terminated <= k.terminated
      && (before.listening ==> k.listening && k.callbacks == before.callbacks + k.terminated[|before.terminated|..])
      && (!k.listening ==> k.callbacks == [])
  {
    if n == |trace| {
      assert trace[..n] == trace;
      if trace != [] {
        EveryDeathReported(trace[..|trace| - 1], 0);
        DeathStep(After(trace[..|trace| - 1]), trace[|trace| - 1]);
      }
    } else {
      assert trace[..|trace| - 1][..n] == trace[..n];
      EveryDeathReported(trace[..|trace| - 1], n);
      DeathStep(After(trace[..|trace| - 1]), trace[|trace| - 1]);
    }
  }

  /** A command for a session that is no longer current, a repeat included, does nothing at all. */
  lemma StaleCommandIgnored(trace: seq<Step>, c: Command)
    requires c.target.Some? && c.target.value in After(trace).sdk.terminated
    ensures Handle(After(trace).sdk, c) == After(trace).sdk
  {
    EverySdkOk(trace);
  }

  /**
   Logout serves a token of the session it just left exactly when the cached token is anonymous and fresh:
   the cache is not cleared and its session is not compared.
   */
  lemma LogoutServesOldTokenIff(trace: seq<Step>, id: nat)
    requires id !in After(trace).calls
    ensures var s := After(trace); var s' := Apply(s, ClearUser(id));
            (s'.calls[id].status.Returned? && s'.calls[id].status.token.Some?
              && s'.calls[id].status.token.value.session != s'.sdk.sessionId)
            <==> (s.sdk.token.Some? && s.sdk.token.value.user.None? && s.now - s.sdk.tokenMintedAt < 45 * 60 * 1000)
  {
    EverySdkOk(trace);
  }

  // ---------- ensureToken ----------

  /** The cache holds a token for the call's user, minted after the call began. */
  predicate Supplied(s: State, c: Call) {
    s.sdk.token == Some(Token(c.session, c.user)) && s.sdk.tokenUserRef == c.user && c.since <= s.sdk.tokenMintedAt
  }

  predicate OwnMint(k: Sdk, c: Call) {
    k.inflight == Some(Mint(c.session, c.user))
  }

  /** What holds of a call that has not returned while its identity stands. */
  predicate Pending(s: State, c: Call) {
    && c.awaited > 0 && c.session == s.sdk.sessionId && c.user == s.sdk.userRef
    && (Usable(s.sdk, s.now) ==> s.sdk.token.value.session == c.session)
  }

  /**
   A suspended call always has a mint to wake it. Undisturbed, its second mint is its own; once that lands
   the cache supplies it.
   */
  predicate CallOk(s: State, c: Call) {
    && c.changes <= s.changes && c.failures <= s.failures && c.since <= s.now && c.awaited <= 2
    && match c.status
       case Suspended =>
         && s.sdk.inflight.Some?
         && (c.changes == s.changes ==> Pending(s, c))
         && (Undisturbed(s, c) && c.awaited == 2 ==> OwnMint(s.sdk, c))
       case Runnable =>
         && (c.changes == s.changes ==> Pending(s, c))
         && (Undisturbed(s, c) ==>
               && (s.sdk.inflight.None? || OwnMint(s.sdk, c))
               && (c.awaited == 2 ==> Supplied(s, c)))
       case Returned(token, undisturbed) =>
         undisturbed ==>
           token.Some? && token.value.user == c.user && (c.awaited > 0 ==> token.value.session == c.session)
  }

  ghost predicate CallsOk(s: State) {
    forall id :: id in s.calls ==> CallOk(s, s.calls[id])
  }

  /** The cached token is recorded under its own user and was minted in the past. */
  predicate CacheOk(s: State) {
    0 <= s.now && s.sdk.tokenMintedAt <= s.now && (s.sdk.token.Some? ==> s.sdk.token.value.user == s.sdk.tokenUserRef)
  }

  ghost predicate Ok(s: State) {
    CacheOk(s) && CallsOk(s)
  }

  /** The state a call that is about to run sees. */
  predicate Ready(s: State, c: Call) {
    c.status.Runnable? && (CallOk(s, c) || c == Call(Runnable, 0, s.sdk.sessionId, s.sdk.userRef, s.now, s.changes, s.failures))
  }

  lemma ProceedOwn(s: State, id: nat, c: Call)
    requires CacheOk(s) && Ready(s, c)
    ensures CallOk(Proceed(s, id, c), Proceed(s, id, c).calls[id])
  {}

  /** Another call's pass can only start a mint, for the identity everyone undisturbed shares. */
  lemma RefreshOther(s: State, t: State, d: Call)
    requires CallOk(s, d) && t.sdk == Refresh(s.sdk) && t.now == s.now && t.changes == s.changes && t.failures == s.failures
    ensures CallOk(t, d)
  {}

  lemma ProceedKeeps(s: State, id: nat, c: Call)
    requires Ok(s) && Ready(s, c)
    ensures Ok(Proceed(s, id, c))
  {
    var t := Proceed(s, id, c);
    forall other | other in t.calls ensures CallOk(t, t.calls[other]) {
      if other == id {
        ProceedOwn(s, id, c);
      } else {
        RefreshOther(s, t.(sdk := Refresh(s.sdk)), s.calls[other]);
      }
    }
  }

  /** An identity change disturbs every call still open; the mint in flight, if any, stays. */
  lemma ChangeKeeps(s: State, t: State, d: Call)
    requires CallOk(s, d) && t.now == s.now && t.failures == s.failures && t.changes > s.changes
    requires s.sdk.inflight.Some? ==> t.sdk.inflight.Some?
    ensures CallOk(t, d)
  {}

  lemma TickKeeps(s: State, ms: nat, d: Call)
    requires CallOk(s, d)
    ensures CallOk(s.(now := s.now + ms), d)
  {}

  lemma LandCall(s: State, ok: bool, d: Call)
    requires CacheOk(s) && s.sdk.inflight.Some? && CallOk(s, d)
    ensures CallOk(Apply(s, MintDone(ok)), if d.status.Suspended? then d.(status := Runnable) else d)
  {}

  /** setUser and clearUser: the identity moves first, then a new call begins under it. */
  lemma EntryKeeps(s: State, id: nat, u: State)
    requires Ok(s) && CacheOk(u) && u.sdk.inflight == s.sdk.inflight
    requires u.calls == s.calls && u.now == s.now && u.failures == s.failures
    requires u == s || u.changes > s.changes
    ensures Ok(Ensure(u, id))
  {
    forall other | other in u.calls ensures CallOk(u, u.calls[other]) {
      assert CallOk(s, s.calls[other]);
      if u != s { ChangeKeeps(s, u, s.calls[other]); }
    }
    ProceedKeeps(u, id, Call(Runnable, 0, u.sdk.sessionId, u.sdk.userRef, u.now, u.changes, u.failures));
  }

  lemma AwaitRun(s: State, step: Step)
    requires Ok(s) && Enabled(s, step) && Awaiting(step)
    ensures Ok(Apply(s, step))
  {
    match step
    case GetToken(id) => EntryKeeps(s, id, s);
    case SetUser(id, user) =>
      var changed := if s.sdk.userRef == Some(user) then 0 else 1;
      EntryKeeps(s, id, s.(sdk := Login(s.sdk, user), changes := s.changes + changed));
    case ClearUser(id) => EntryKeeps(s, id, s.(sdk := Logout(s.sdk), changes := s.changes + 1));
    case Resume(id) => ProceedKeeps(s, id, s.calls[id]);
  }

  lemma CallKeeps(s: State, step: Step, d: Call)
    requires CacheOk(s) && CallOk(s, d) && Enabled(s, step) && !Awaiting(step) && !step.MintDone?
    ensures CallOk(Apply(s, step), d)
  {
    match step
    case Tick(ms) => TickKeeps(s, ms, d);
    case Warm => RefreshOther(s, Apply(s, step), d);
    case Receive(c) => if Applies(s.sdk, c) { ChangeKeeps(s, Apply(s, step), d); }
    case _ =>
  }

  lemma StepKeeps(s: State, step: Step)
    requires Ok(s)
    ensures Ok(Apply(s, step))
  {
    if !Enabled(s, step) { return; }
    var t := Apply(s, step);
    if Awaiting(step) {
      AwaitRun(s, step);
    } else if step.MintDone? {
      forall id | id in t.calls ensures CallOk(t, t.calls[id]) { LandCall(s, step.ok, s.calls[id]); }
    } else {
      forall id | id in t.calls ensures CallOk(t, t.calls[id]) { CallKeeps(s, step, s.calls[id]); }
    }
  }

  lemma {:induction false} EveryRunOk(trace: seq<Step>)
    ensures Ok(After(trace))
  {
    if trace == [] {
    } else {
      EveryRunOk(trace[..|trace| - 1]);
      StepKeeps(After(trace[..|trace| - 1]), trace[|trace| - 1]);
    }
  }

  /**
   ensureToken awaits at most two mints. A call during which the identity stands, no mint fails and less
   than a token's lifetime passes returns a token for its user, and one minted for its session if it had to
   wait at all, even when the first mint it awaited had been started for somebody else.
   */
  lemma AtMostTwoMints(trace: seq<Step>, id: nat)
    requires id in After(trace).calls
    ensures After(trace).calls[id].awaited <= 2
    ensures var c := After(trace).calls[id];
            c.status.Returned? && c.status.undisturbed ==>
              && c.status.token.Some? && c.status.token.value.user == c.user
              && (c.awaited > 0 ==> c.status.token.value.session == c.session)
  {
    EveryRunOk(trace);
    assert CallOk(After(trace), After(trace).calls[id]);
  }

  /** No call is left suspended without a mint in flight to wake it. */
  lemma NoLostWakeup(trace: seq<Step>, id: nat)
    requires id in After(trace).calls && After(trace).calls[id].status.Suspended?
    ensures After(trace).sdk.inflight.Some?
  {
    EveryRunOk(trace);
    assert CallOk(After(trace), After(trace).calls[id]);
  }

  /** The call an awaiting step begins or continues. */
  function CallOf(step: Step): nat
    requires Awaiting(step)
  {
    match step
    case GetToken(id) => id
    case SetUser(id, _) => id
    case ClearUser(id) => id
    case Resume(id) => id
  }

  /** A token handed out, at once or after a mint, is never one of a session the kill switch ended. */
  lemma ServedTokenAlive(trace: seq<Step>, step: Step)
    requires Awaiting(step) && Enabled(After(trace), step)
    ensures var s := Apply(After(trace), step);
      var c := s.calls[CallOf(step)];
      c.status.Returned? && c.status.token.Some? ==> c.status.token.value.session !in s.sdk.terminated
  {
    EverySdkOk(trace);
  }
}
