/**
 The Android SDK's session, token cache and kill switch. Several threads call in; a step is one call, or
 the completion of one mint on the single worker thread. Session ids are numbered in the order they are
 generated; times are in milliseconds.
 */
module AndroidSession {
  import opened Prelude
  import TenantKeys

  /** What the server put in a token; `iat` is when it did. */
  datatype Token = Token(session: nat, user: Option<string>, iat: int)

  /** A queued mint with the identity it captured; `reply` names the tokenAsync call it answers, if any. */
  datatype Task = Task(session: nat, user: Option<string>, reply: Option<nat>)

  datatype Kind = Telemetry(name: string) | CommandAck(commandId: string)

  datatype Event = Event(session: nat, user: Option<string>, kind: Kind)

  /** `target` is None when the command names no session. */
  datatype Command = Command(id: string, kind: string, target: Option<nat>)

  /** `terminated` is history: the sessions the kill switch ended. */
  datatype Sdk = Sdk(sessionId: nat, userRef: Option<string>, lastActivity: int,
                     token: Option<Token>, tokenSession: nat, tokenUser: Option<string>, tokenMintedAt: int,
                     tasks: seq<Task>, nextId: nat, listening: bool,
                     sent: seq<Event>, callbacks: seq<nat>, terminated: seq<nat>)

  const TOKEN_TTL := 45 * 60 * 1000
  const TERMINATE := "TERMINATE_SESSION"

  predicate Usable(k: Sdk, now: int) {
    k.token.Some? && k.sessionId == k.tokenSession && k.userRef == k.tokenUser && now - k.tokenMintedAt < TOKEN_TTL
  }

  function Rotate(k: Sdk, now: int): Sdk {
    k.(sessionId := k.nextId, nextId := k.nextId + 1, lastActivity := now)
  }

  /** Any interaction; after an idle gap longer than the timeout it starts a new session. */
  function Touched(k: Sdk, idleTimeout: int, now: int): Sdk {
    if now - k.lastActivity > idleTimeout then Rotate(k, now) else k.(lastActivity := now)
  }

  function Refresh(k: Sdk): Sdk {
    k.(tasks := k.tasks + [Task(k.sessionId, k.userRef, None)])
  }

  function Login(k: Sdk, user: string): Sdk {
    Refresh(k.(userRef := Some(user)))
  }

  function Logout(k: Sdk, now: int): Sdk {
    Refresh(Rotate(k.(userRef := None), now))
  }

  /** A mint completes: cached unless it failed or the session has rotated since the request. */
  function Land(k: Sdk, task: Task, iat: Option<int>, now: int): Sdk {
    if iat.Some? && task.session == k.sessionId
    then k.(token := Some(Token(task.session, task.user, iat.value)),
            tokenSession := task.session, tokenUser := task.user, tokenMintedAt := now)
    else k
  }

  function Emit(k: Sdk, kind: Kind): Sdk {
    k.(sent := k.sent + [Event(k.sessionId, k.userRef, kind)])
  }

  predicate Applies(k: Sdk, c: Command) {
    c.kind == TERMINATE && (c.target.Some? ==> c.target.value == k.sessionId)
  }

  function Handle(k: Sdk, c: Command, now: int): Sdk {
    if !Applies(k, c) then k else
      var rotated := Rotate(Emit(k, CommandAck(c.id)).(userRef := None), now);
      Refresh(rotated.(token := None)).(callbacks := if k.listening then k.callbacks + [k.sessionId] else k.callbacks,
                                        terminated := k.terminated + [k.sessionId])
  }

  function HandleAll(k: Sdk, commands: seq<Option<Command>>, now: int): Sdk {
    if commands == [] then k else
      var before := HandleAll(k, commands[..|commands| - 1], now);
      var c := commands[|commands| - 1];
      if c.Some? then Handle(before, c.value, now) else before
  }

  // ---------- the SDK's own methods ----------

  class SessionManager {
    const idleTimeoutMs: int
    var sessionId: nat
    var userRef: Option<string>
    var lastActivityMs: int
    var cachedToken: Option<Token>
    var tokenSessionId: nat
    var tokenUserRef: Option<string>
    var tokenMintedAt: int
    var executor: seq<Task>
    var ids: nat
    var listening: bool
    var queue: seq<Event>
    var posted: seq<nat>
    ghost var terminated: seq<nat>

    constructor (idleTimeout: int, now: int)
      ensures View() == Fresh(now) && idleTimeoutMs == idleTimeout
    {
      idleTimeoutMs := idleTimeout;
      sessionId, userRef, lastActivityMs, cachedToken, tokenSessionId, tokenUserRef := 0, None, now, None, 0, None;
      tokenMintedAt, executor, ids, listening, queue, posted, terminated := 0, [], 1, false, [], [], [];
    }

    ghost function View(): Sdk
      reads this
    {
      Sdk(sessionId, userRef, lastActivityMs, cachedToken, tokenSessionId, tokenUserRef, tokenMintedAt,
          executor, ids, listening, queue, posted, terminated)
    }

    method RotateSession(now: int)
      modifies `sessionId, `ids, `lastActivityMs
      ensures View() == Rotate(old(View()), now)
    {
      sessionId := ids;
      ids := ids + 1;
      lastActivityMs := now;
    }

    method Touch(now: int)
      modifies `sessionId, `ids, `lastActivityMs
      ensures View() == Touched(old(View()), idleTimeoutMs, now)
    {
      var last := lastActivityMs;
      lastActivityMs := now;
      if now - last > idleTimeoutMs { RotateSession(now); }
    }

    method RefreshTokenAsync()
      modifies `executor
      ensures View() == Refresh(old(View()))
    {
      executor := executor + [Task(sessionId, userRef, None)];
    }

    method SetUser(user: string)
      modifies this
      ensures View() == Login(old(View()), user)
    {
      userRef := Some(user);
      RefreshTokenAsync();
    }

    method ClearUser(now: int)
      modifies this
      ensures View() == Logout(old(View()), now)
    {
      userRef := None;
      RotateSession(now);
      RefreshTokenAsync();
    }

    method TokenUsable(now: int) returns (b: bool)
      ensures b == Usable(View(), now)
    {
      if cachedToken.None? { return false; }
      if sessionId != tokenSessionId { return false; }
      if userRef != tokenUserRef { return false; }
      return now - tokenMintedAt < TOKEN_TTL;
    }

    /** The worker's task once the mint answered; `iat` is None when it failed. */
    method MintCompleted(task: Task, iat: Option<int>, now: int)
      modifies this
      ensures View() == Land(old(View()), task, iat, now)
    {
      if iat.Some? && task.session == sessionId {
        cachedToken := Some(Token(task.session, task.user, iat.value));
        tokenSessionId := task.session;
        tokenUserRef := task.user;
        tokenMintedAt := now;
      }
    }

    method CurrentToken(now: int) returns (t: Option<Token>)
      modifies `executor
      ensures t == if Usable(old(View()), now) then old(cachedToken) else None
      ensures View() == if Usable(old(View()), now) then old(View()) else Refresh(old(View()))
    {
      var usable := TokenUsable(now);
      if usable { return cachedToken; }
      RefreshTokenAsync();
      return None;
    }

    method SetCommandListener(on: bool)
      modifies `listening
      ensures View() == old(View()).(listening := on)
    {
      listening := on;
    }

    method EnqueuePassive(kind: Kind)
      modifies `queue
      ensures View() == Emit(old(View()), kind)
    {
      queue := queue + [Event(sessionId, userRef, kind)];
    }

    /** The part of the command loop that runs for a live terminate command. */
    method EndSession(id: string, now: int)
      modifies this
      ensures View() == Handle(old(View()), Command(id, TERMINATE, None), now)
    {
      var current := sessionId;
      EnqueuePassive(CommandAck(id));
      userRef := None;
      RotateSession(now);
      cachedToken := None;
      RefreshTokenAsync();
      if listening { posted := posted + [current]; }
      terminated := terminated + [current];
    }

    method HandleServerCommands(commands: seq<Option<Command>>, now: int)
      modifies this
      ensures View() == HandleAll(old(View()), commands, now)
    {
      ghost var before := View();
      for i := 0 to |commands|
        invariant View() == HandleAll(before, commands[..i], now)
      {
        assert commands[..i + 1][..i] == commands[..i];
        if commands[i].None? { continue; }
        var cmd := commands[i].value;
        if cmd.kind != TERMINATE { continue; }
        if cmd.target.Some? && cmd.target.value != sessionId { continue; }
        EndSession(cmd.id, now);
      }
      assert commands[..|commands|] == commands;
    }
  }

  function Fresh(now: int): Sdk {
    Sdk(0, None, now, None, 0, None, 0, [], 1, false, [], [], [])
  }

  // ---------- runs ----------

  datatype Running = Running(task: Task, startedAt: int)

  /** `handed` records what each token call was given. */
  datatype State = State(sdk: Sdk, worker: Option<Running>, now: int, handed: map<nat, Option<Token>>)

  datatype Step =
    | Tick(ms: nat)
    | Touch
    | SetListener(on: bool)
    | Track(name: string)
    | SetUser(user: string)
    | ClearUser
    | Receive(c: Command)
    | CurrentToken(call: nat)
    | TokenAsync(call: nat)
    | MintStart
    | MintDone(iat: Option<int>)

  const Start := State(Fresh(0), None, 0, map[])

  /** No answer was given for this call and none is pending. */
  predicate NewCall(s: State, call: nat) {
    && call !in s.handed && (s.worker.Some? ==> s.worker.value.task.reply != Some(call))
    && forall i :: 0 <= i < |s.sdk.tasks| ==> s.sdk.tasks[i].reply != Some(call)
  }

  predicate Enabled(s: State, step: Step) {
    match step
    case CurrentToken(call) => NewCall(s, call)
    case TokenAsync(call) => NewCall(s, call)
    case MintStart => s.worker.None? && s.sdk.tasks != []
    case MintDone(iat) => s.worker.Some? && (iat.Some? ==> s.worker.value.startedAt <= iat.value <= s.now)
    case _ => true
  }

  /** A step that is not enabled leaves the state as it is. */
  function Apply(idle: int, s: State, step: Step): State {
    if !Enabled(s, step) then s else
    match step
    case Tick(ms) => s.(now := s.now + ms)
    case Touch => s.(sdk := Touched(s.sdk, idle, s.now))
    case SetListener(on) => s.(sdk := s.sdk.(listening := on))
    case Track(name) => s.(sdk := Emit(s.sdk, Telemetry(name)))
    case SetUser(user) => s.(sdk := Login(s.sdk, user))
    case ClearUser => s.(sdk := Logout(s.sdk, s.now))
    case Receive(c) => s.(sdk := Handle(s.sdk, c, s.now))
    case CurrentToken(call) =>
      if Usable(s.sdk, s.now) then s.(handed := s.handed[call := s.sdk.token])
      else s.(sdk := Refresh(s.sdk), handed := s.handed[call := None])
    case TokenAsync(call) =>
      if Usable(s.sdk, s.now) then s.(handed := s.handed[call := s.sdk.token])
      else s.(sdk := s.sdk.(tasks := s.sdk.tasks + [Task(s.sdk.sessionId, s.sdk.userRef, Some(call))]))
    case MintStart =>
      s.(worker := Some(Running(s.sdk.tasks[0], s.now)), sdk := s.sdk.(tasks := s.sdk.tasks[1..]))
    case MintDone(iat) =>
      var task := s.worker.value.task;
      var out := if iat.Some? then Some(Token(task.session, task.user, iat.value)) else None;
      s.(sdk := Land(s.sdk, task, iat, s.now), worker := None,
         handed := if task.reply.Some? then s.handed[task.reply.value := out] else s.handed)
  }

  function After(idle: int, trace: seq<Step>): State {
    if trace == [] then Start else Apply(idle, After(idle, trace[..|trace| - 1]), trace[|trace| - 1])
  }

  // ---------- what every run keeps ----------

  function AckSessions(sent: seq<Event>): seq<nat> {
    if sent == [] then [] else
      var e := sent[|sent| - 1];
      AckSessions(sent[..|sent| - 1]) + if e.kind.CommandAck? then [e.session] else []
  }

  ghost predicate Distinct(ids: seq<nat>) {
    forall i, j :: 0 <= i < j < |ids| ==> ids[i] != ids[j]
  }

  ghost predicate DeadOk(k: Sdk) {
    && k.sessionId < k.nextId && k.sessionId !in k.terminated
    && (forall id :: id in k.terminated ==> id < k.nextId)
    && Distinct(k.terminated) && Distinct(k.callbacks) && (forall id :: id in k.callbacks ==> id in k.terminated)
    && AckSessions(k.sent) == k.terminated
  }

  /** The cache's own record of its token is right, and the token was stamped before it was cached. */
  predicate CacheOk(k: Sdk, now: int) {
    k.token.Some? ==>
      && k.token.value.session == k.tokenSession && k.token.value.user == k.tokenUser
      && k.token.value.iat <= k.tokenMintedAt <= now
      && k.tokenSession < k.nextId && k.tokenSession !in k.terminated
  }

  ghost predicate Ok(s: State) {
    DeadOk(s.sdk) && CacheOk(s.sdk, s.now)
  }

  lemma EmitAcks(k: Sdk, kind: Kind)
    ensures AckSessions(Emit(k, kind).sent)
         == AckSessions(k.sent) + if kind.CommandAck? then [k.sessionId] else []
  {
    assert Emit(k, kind).sent[..|k.sent|] == k.sent;
  }

  lemma MoreDead(k: Sdk, t: Sdk)
    requires DeadOk(k) && t.terminated == k.terminated + [k.sessionId]
    requires t.callbacks == k.callbacks || t.callbacks == k.callbacks + [k.sessionId]
    requires t.sessionId == k.nextId && t.nextId == k.nextId + 1 && AckSessions(t.sent) == t.terminated
    ensures DeadOk(t)
  {}

  lemma HandleKeeps(k: Sdk, c: Command, now: int)
    requires DeadOk(k) && CacheOk(k, now)
    ensures DeadOk(Handle(k, c, now)) && CacheOk(Handle(k, c, now), now)
  {
    EmitAcks(k, CommandAck(c.id));
    if Applies(k, c) { MoreDead(k, Handle(k, c, now)); }
  }

  lemma StepKeeps(idle: int, s: State, step: Step)
    requires Ok(s)
    ensures Ok(Apply(idle, s, step))
  {
    if !Enabled(s, step) { return; }
    match step
    case Track(name) => EmitAcks(s.sdk, Telemetry(name));
    case Receive(c) => HandleKeeps(s.sdk, c, s.now);
    case _ =>
  }

  lemma {:induction false} EveryRunOk(idle: int, trace: seq<Step>)
    ensures Ok(After(idle, trace))
  {
    if trace == [] {
    } else {
      EveryRunOk(idle, trace[..|trace| - 1]);
      StepKeeps(idle, After(idle, trace[..|trace| - 1]), trace[|trace| - 1]);
    }
  }

  // ---------- the token cache ----------

  /** Key k of some run of the server fleet has been live for a second when the token arrives. */
  ghost predicate Serving(fleet: seq<TenantKeys.Step>, instance: nat, k: nat, arrival: int) {
    TenantKeys.Serves(TenantKeys.After(fleet), instance, k) && TenantKeys.After(fleet).now == arrival
  }

  /** What that instance answers to a token signed with that key and stamped in the second of `iat`. */
  ghost function Answer(fleet: seq<TenantKeys.Step>, instance: nat, k: nat, iat: int, body: string)
    : Result<string, TenantKeys.TokenError>
    requires instance in TenantKeys.After(fleet).caches && k < |TenantKeys.After(fleet).db.keys|
  {
    var s := TenantKeys.After(fleet);
    var row := s.db.keys[k];
    TenantKeys.SessionAnswer(s.caches[instance], row.tenant, iat / 1000, body, TenantKeys.Hmac(row.secret, body),
                             s.db, true, s.now)
  }

  /** Whichever server the token meets, in whatever run, takes it. */
  ghost predicate ServerAccepts(iat: int, arrival: int) {
    forall fleet, instance, k, body :: Serving(fleet, instance, k, arrival) ==> Answer(fleet, instance, k, iat, body).Ok?
  }

  /** From the second second on, every server takes a token exactly while it is an hour old in whole seconds. */
  lemma ServerAcceptsIff(iat: int, arrival: int)
    ensures arrival / 1000 - iat / 1000 <= 3600 ==> ServerAccepts(iat, arrival)
    ensures arrival >= 1000 ==> (ServerAccepts(iat, arrival) <==> arrival / 1000 - iat / 1000 <= 3600)
  {
    forall fleet, instance, k, body | Serving(fleet, instance, k, arrival)
      ensures Answer(fleet, instance, k, iat, body).Ok? <==> arrival / 1000 - iat / 1000 <= 3600
    {
      TenantKeys.SessionTokenIff(fleet, instance, k, iat / 1000, body);
    }
    if arrival >= 1000 {
      var fleet := TenantKeys.KeyLiveAt(arrival);
      assert Serving(fleet, 0, 0, arrival);
      assert ServerAccepts(iat, arrival) ==> Answer(fleet, 0, 0, iat, "").Ok?;
    }
  }

  /**
   In every run, whatever currentToken hands out was minted for the session and user current at that very
   moment, for a session nobody terminated, and was cached less than 45 minutes ago.
   */
  lemma CurrentTokenIsCurrent(idle: int, trace: seq<Step>, call: nat)
    requires Enabled(After(idle, trace), CurrentToken(call))
    ensures var s := After(idle, trace);
            var t := Apply(idle, s, CurrentToken(call)).handed[call];
            t.Some? ==>
              && t.value.session == s.sdk.sessionId && t.value.user == s.sdk.userRef
              && t.value.session !in s.sdk.terminated
              && t.value.iat <= s.sdk.tokenMintedAt && s.now - s.sdk.tokenMintedAt < 45 * 60 * 1000
  {
    EveryRunOk(idle, trace);
  }

  /** Mint latency and the token's way to the server, together. */
  function Delay(s: State, arrival: int): int
    requires s.sdk.token.Some?
  {
    (s.sdk.tokenMintedAt - s.sdk.token.value.iat) + (arrival - s.now)
  }

  /** With at most 15 minutes of latency, before caching and after serving together, the server accepts it. */
  lemma ServedTokenAccepted(idle: int, trace: seq<Step>, arrival: int)
    requires var s := After(idle, trace); Usable(s.sdk, s.now) && Delay(s, arrival) <= 15 * 60 * 1000
    ensures ServerAccepts(After(idle, trace).sdk.token.value.iat, arrival)
  {
    var s := After(idle, trace);
    SecondsApart(s.sdk.token.value.iat, arrival);
    ServerAcceptsIff(s.sdk.token.value.iat, arrival);
  }

  lemma SecondsApart(a: int, b: int)
    requires b - a <= 3600000
    ensures b / 1000 - a / 1000 <= 3600
  {}

  /** A token stamped at iat, served at the given age and `delay` ms later at the server. */
  ghost predicate AcceptedAfter(iat: nat, age: nat, delay: nat) {
    ServerAccepts(iat, iat + delay + age)
  }

  /** The exact budget in whole milliseconds: with any more, some token under 45 minutes old is refused. */
  lemma LatencyBudgetIff(delay: nat)
    ensures (forall iat: nat, age: nat :: age < 45 * 60 * 1000 ==> AcceptedAfter(iat, age, delay)) <==>
            delay <= 15 * 60 * 1000 + 1
  {
    if delay <= 15 * 60 * 1000 + 1 {
      forall iat: nat, age: nat | age < 45 * 60 * 1000 ensures AcceptedAfter(iat, age, delay) {
        SecondsApart(iat, iat + delay + age);
        ServerAcceptsIff(iat, iat + delay + age);
      }
    } else {
      ServerAcceptsIff(999, 999 + delay + 2699999);
      assert !AcceptedAfter(999, 2699999, delay);
    }
  }

  // ---------- the kill switch ----------

  /** Each terminated session is acked once from inside itself, in order, and reported to the host at most once. */
  lemma KillSwitch(idle: int, trace: seq<Step>)
    ensures var k := After(idle, trace).sdk;
            && Distinct(k.callbacks) && AckSessions(k.sent) == k.terminated
            && k.sessionId !in k.terminated
            && (k.token.Some? ==> k.token.value.session !in k.terminated)
  {
    EveryRunOk(idle, trace);
  }

  /** Step n of the run ends session `id`. */
  predicate Dies(idle: int, trace: seq<Step>, n: nat, id: nat)
    requires n < |trace|
  {
    var k := After(idle, trace[..n]).sdk;
    trace[n].Receive? && Applies(k, trace[n].c) && k.sessionId == id
  }

  lemma DeathStep(idle: int, s: State, step: Step)
    ensures var k, t := s.sdk, Apply(idle, s, step).sdk;
      var dead := if step.Receive? && Applies(k, step.c) then [k.sessionId] else [];
      && t.terminated == k.terminated + dead
      && t.callbacks == k.callbacks + (if k.listening then dead else [])
      && t.listening == if step.SetListener? then step.on else k.listening
  {}

  /** The host hears of exactly the sessions that a command ended while a listener was registered. */
  lemma {:induction false} HeardIff(idle: int, trace: seq<Step>, id: nat)
    ensures id in After(idle, trace).sdk.terminated <==> exists n: nat :: n < |trace| && Dies(idle, trace, n, id)
    ensures id in After(idle, trace).sdk.callbacks <==>
              exists n: nat :: n < |trace| && Dies(idle, trace, n, id) && After(idle, trace[..n]).sdk.listening
  {
    if trace != [] {
      var m := |trace| - 1;
      HeardIff(idle, trace[..m], id);
      DeathStep(idle, After(idle, trace[..m]), trace[m]);
      forall n: nat | n < m
        ensures trace[..m][..n] == trace[..n] && Dies(idle, trace[..m], n, id) == Dies(idle, trace, n, id)
      {
        assert trace[..m][..n] == trace[..n];
      }
      assert Dies(idle, trace, m, id) ==> id in After(idle, trace).sdk.terminated;
    }
  }

  /** As long as a listener stays registered, every session that dies is reported, in order. */
  lemma {:induction false} EveryDeathReported(idle: int, trace: seq<Step>, n: nat)
    requires n <= |trace| && After(idle, trace[..n]).sdk.listening
    requires forall i :: n <= i < |trace| ==> trace[i] != SetListener(false)
    ensures var k, before := After(idle, trace).sdk, After(idle, trace[..n]).sdk;
      && k.listening && before.terminated <= k.terminated
      && k.callbacks == before.callbacks + k.terminated[|before.terminated|..]
  {
    if n == |trace| {
      assert trace[..n] == trace;
    } else {
      var m := |trace| - 1;
      assert trace[..m][..n] == trace[..n];
      EveryDeathReported(idle, trace[..m], n);
      DeathStep(idle, After(idle, trace[..m]), trace[m]);
    }
  }

  /** A repeated or late command for a session already ended changes nothing. */
  lemma StaleCommandIgnored(idle: int, trace: seq<Step>, c: Command)
    requires c.target.Some? && c.target.value in After(idle, trace).sdk.terminated
    ensures var s := After(idle, trace); Handle(s.sdk, c, s.now) == s.sdk
  {
    EveryRunOk(idle, trace);
  }

  // ---------- tokenAsync ----------

  predicate AsksFor(t: Task, call: nat, session: nat, user: Option<string>) {
    t.reply == Some(call) ==> t.session == session && t.user == user
  }

  /** Whatever is pending for the call, or was handed to it, carries the given identity. */
  ghost predicate CallFor(s: State, call: nat, session: nat, user: Option<string>) {
    && !NewCall(s, call)
    && (forall i :: 0 <= i < |s.sdk.tasks| ==> AsksFor(s.sdk.tasks[i], call, session, user))
    && (s.worker.Some? ==> AsksFor(s.worker.value.task, call, session, user))
    && (call in s.handed && s.handed[call].Some? ==>
          s.handed[call].value.session == session && s.handed[call].value.user == user)
  }

  lemma CallForStep(idle: int, s: State, step: Step, call: nat, session: nat, user: Option<string>)
    requires CallFor(s, call, session, user)
    ensures CallFor(Apply(idle, s, step), call, session, user)
  {
    if !Enabled(s, step) { return; }
    var t := Apply(idle, s, step);
    match step
    case MintStart => MintStartKeepsCall(s, call);
    case MintDone(iat) => MintDoneKeepsCall(idle, s, iat, call, session, user);
    case _ =>
      assert s.sdk.tasks <= t.sdk.tasks && t.worker == s.worker;
      assert forall i :: 0 <= i < |s.sdk.tasks| ==> t.sdk.tasks[i] == s.sdk.tasks[i];
  }

  lemma MintDoneKeepsCall(idle: int, s: State, iat: Option<int>, call: nat, session: nat, user: Option<string>)
    requires CallFor(s, call, session, user) && Enabled(s, MintDone(iat))
    ensures CallFor(Apply(idle, s, MintDone(iat)), call, session, user)
  {
    assert Apply(idle, s, MintDone(iat)).sdk.tasks == s.sdk.tasks;
  }

  lemma MintStartKeepsCall(s: State, call: nat)
    requires Enabled(s, MintStart) && !NewCall(s, call)
    ensures !NewCall(Apply(0, s, MintStart), call)
  {
    var t := Apply(0, s, MintStart);
    if call !in s.handed {
      var i :| 0 <= i < |s.sdk.tasks| && s.sdk.tasks[i].reply == Some(call);
      if i > 0 { assert t.sdk.tasks[i - 1] == s.sdk.tasks[i]; }
    }
  }

  lemma {:induction false} CallForRun(idle: int, trace: seq<Step>, n: nat, call: nat, session: nat, user: Option<string>)
    requires n <= |trace| && CallFor(After(idle, trace[..n]), call, session, user)
    ensures CallFor(After(idle, trace), call, session, user)
  {
    if n == |trace| {
      assert trace[..n] == trace;
    } else {
      var init := trace[..|trace| - 1];
      assert init[..n] == trace[..n];
      CallForRun(idle, init, n, call, session, user);
      CallForStep(idle, After(idle, init), trace[|trace| - 1], call, session, user);
    }
  }

  /**
   A tokenAsync call that has to mint is answered with a token for the session and user of the moment it was
   made, however late: so after a rotation it is handed a token the cache itself refuses, and after a kill
   switch one of the session that was ended.
   */
  lemma AsyncTokenKeepsItsIdentity(idle: int, trace: seq<Step>, n: nat, call: nat)
    requires n < |trace| && trace[n] == TokenAsync(call)
    requires var s := After(idle, trace[..n]); Enabled(s, TokenAsync(call)) && !Usable(s.sdk, s.now)
    requires call in After(idle, trace).handed && After(idle, trace).handed[call].Some?
    ensures var t := After(idle, trace).handed[call].value;
            var s0 := After(idle, trace[..n]).sdk;
            && t.session == s0.sessionId && t.user == s0.userRef
            && (t.session in After(idle, trace).sdk.terminated <==> s0.sessionId in After(idle, trace).sdk.terminated)
  {
    var s := After(idle, trace[..n]);
    assert trace[..n + 1][..n] == trace[..n];
    var s1 := After(idle, trace[..n + 1]);
    assert s1.sdk.tasks == s.sdk.tasks + [Task(s.sdk.sessionId, s.sdk.userRef, Some(call))];
    assert s1.sdk.tasks[|s.sdk.tasks|].reply == Some(call);
    CallForRun(idle, trace, n + 1, call, s.sdk.sessionId, s.sdk.userRef);
  }

  /** From any moment the worker is idle, a kill during the mint delivers a token of the killed session. */
  lemma AsyncTokenAfterKill(idle: int, s: State, call: nat, id: string)
    requires Ok(s) && Enabled(s, TokenAsync(call)) && !Usable(s.sdk, s.now) && s.worker.None? && s.sdk.tasks == []
    ensures var a := Apply(idle, s, TokenAsync(call));
            var b := Apply(idle, a, MintStart);
            var c := Apply(idle, b, Receive(Command(id, TERMINATE, None)));
            var d := Apply(idle, c, MintDone(Some(s.now)));
            && d.handed[call] == Some(Token(s.sdk.sessionId, s.sdk.userRef, s.now))
            && s.sdk.sessionId in d.sdk.terminated && d.sdk.token.None?
  {
    var task := Task(s.sdk.sessionId, s.sdk.userRef, Some(call));
    var a := Apply(idle, s, TokenAsync(call));
    assert a == s.(sdk := s.sdk.(tasks := [task]));
    var b := Apply(idle, a, MintStart);
    assert b == s.(worker := Some(Running(task, s.now)));
    var c := Apply(idle, b, Receive(Command(id, TERMINATE, None)));
    assert c.worker == b.worker && c.sdk.sessionId == s.sdk.nextId;
  }
}
