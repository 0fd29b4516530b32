/**
 What a run of the Android SDK says, read off its steps: who is bound, when a session starts, which events are
 sent, and which token a call is given. Nothing here looks at the token cache.
 */
module AndroidRuns {
  import opened Prelude
  import opened AndroidSession

  /** A terminate command that names the current session, or none. */
  predicate Kills(s: State, step: Step) {
    step.Receive? && step.c.kind == "TERMINATE_SESSION" && (step.c.target.Some? ==> step.c.target.value == s.sdk.sessionId)
  }

  /** The user bound last, unless a logout or the kill switch came since. */
  function User(idle: int, trace: seq<Step>): Option<string> {
    if trace == [] then None else
      var before, step := trace[..|trace| - 1], trace[|trace| - 1];
      if step.SetUser? then Some(step.user)
      else if step.ClearUser? || Kills(After(idle, before), step) then None
      else User(idle, before)
  }

  /** When the user last interacted, or the session last changed. */
  function Activity(idle: int, trace: seq<Step>): int {
    if trace == [] then 0 else
      var before, step := trace[..|trace| - 1], trace[|trace| - 1];
      if step.Touch? || step.ClearUser? || Kills(After(idle, before), step) then After(idle, before).now
      else Activity(idle, before)
  }

  /** The events of the run, each with the session and the user of its moment. */
  function Log(idle: int, trace: seq<Step>): seq<Event> {
    if trace == [] then [] else
      var before, step := trace[..|trace| - 1], trace[|trace| - 1];
      var session, user := After(idle, before).sdk.sessionId, User(idle, before);
      Log(idle, before) +
        if step.Track? then [Event(session, user, Telemetry(step.name))]
        else if Kills(After(idle, before), step) then [Event(session, user, CommandAck(step.c.id))]
        else []
  }

  datatype Mint = Mint(session: nat, user: Option<string>, iat: int, at: int)

  function Minted(s: State, step: Step): seq<Mint> {
    if step.MintDone? && step.iat.Some? && Enabled(s, step)
    then [Mint(s.worker.value.task.session, s.worker.value.task.user, step.iat.value, s.now)] else []
  }

  /** The mints that succeeded, with the identity each was requested for and the time it completed. */
  function Mints(idle: int, trace: seq<Step>): seq<Mint> {
    if trace == [] then [] else
      Mints(idle, trace[..|trace| - 1]) + Minted(After(idle, trace[..|trace| - 1]), trace[|trace| - 1])
  }

  function LastFor(ms: seq<Mint>, session: nat): Option<Mint> {
    if ms == [] then None
    else if ms[|ms| - 1].session == session then Some(ms[|ms| - 1])
    else LastFor(ms[..|ms| - 1], session)
  }

  // ---------- identity ----------

  lemma {:induction false} UserIs(idle: int, trace: seq<Step>)
    ensures After(idle, trace).sdk.userRef == User(idle, trace)
  {
    if trace != [] { UserIs(idle, trace[..|trace| - 1]); }
  }

  lemma {:induction false} ActivityIs(idle: int, trace: seq<Step>)
    ensures After(idle, trace).sdk.lastActivity == Activity(idle, trace)
  {
    if trace != [] { ActivityIs(idle, trace[..|trace| - 1]); }
  }

  lemma SessionStep(idle: int, s: State, step: Step)
    requires s.sdk.sessionId < s.sdk.nextId
    ensures var k, t := s.sdk, Apply(idle, s, step).sdk;
      k.nextId <= t.nextId && t.sessionId < t.nextId && (t.sessionId == k.sessionId || t.sessionId == k.nextId)
  {}

  lemma {:induction false} SessionsRise(idle: int, trace: seq<Step>, n: nat)
    requires n <= |trace|
    ensures After(idle, trace[..n]).sdk.sessionId <= After(idle, trace).sdk.sessionId < After(idle, trace).sdk.nextId
  {
    if n == |trace| { assert trace[..n] == trace; }
    if trace != [] {
      var before := trace[..|trace| - 1];
      if n < |trace| { assert before[..n] == trace[..n]; }
      SessionsRise(idle, before, if n < |trace| then n else |before|);
      SessionStep(idle, After(idle, before), trace[|trace| - 1]);
    }
  }

  lemma StartStep(idle: int, s: State, step: Step)
    requires s.sdk.sessionId < s.sdk.nextId
    ensures Apply(idle, s, step).sdk.sessionId != s.sdk.sessionId <==>
              step.ClearUser? || Kills(s, step) || (step.Touch? && s.now - s.sdk.lastActivity > idle)
    ensures Apply(idle, s, step).sdk.sessionId != s.sdk.sessionId ==> Apply(idle, s, step).sdk.sessionId == s.sdk.nextId
  {}

  /**
   In every run a session starts at a logout, at a kill, and at an interaction that follows a pause longer than the
   idle timeout; at nothing else, and never with an id used before.
   */
  lemma SessionStartsIff(idle: int, trace: seq<Step>, step: Step)
    ensures var s := After(idle, trace);
      Apply(idle, s, step).sdk.sessionId != s.sdk.sessionId <==>
        step.ClearUser? || Kills(s, step) || (step.Touch? && s.now - Activity(idle, trace) > idle)
    ensures var s := After(idle, trace);
      Apply(idle, s, step).sdk.sessionId != s.sdk.sessionId ==>
        forall n :: 0 <= n <= |trace| ==> After(idle, trace[..n]).sdk.sessionId < Apply(idle, s, step).sdk.sessionId
  {
    ActivityIs(idle, trace);
    forall n | 0 <= n <= |trace|
      ensures After(idle, trace[..n]).sdk.sessionId <= After(idle, trace).sdk.sessionId < After(idle, trace).sdk.nextId
    {
      SessionsRise(idle, trace, n);
    }
    SessionsRise(idle, trace, 0);
    StartStep(idle, After(idle, trace), step);
  }

  lemma SentStep(idle: int, s: State, step: Step)
    ensures Apply(idle, s, step).sdk.sent == s.sdk.sent +
      if step.Track? then [Event(s.sdk.sessionId, s.sdk.userRef, Telemetry(step.name))]
      else if Kills(s, step) then [Event(s.sdk.sessionId, s.sdk.userRef, CommandAck(step.c.id))]
      else []
  {
    assert s.sdk.sent + [] == s.sdk.sent;
  }

  /** Everything sent in a run is what its steps say, under the session and user of the moment. */
  lemma {:induction false} SentIs(idle: int, trace: seq<Step>)
    ensures After(idle, trace).sdk.sent == Log(idle, trace)
  {
    if trace != [] {
      SentIs(idle, trace[..|trace| - 1]);
      UserIs(idle, trace[..|trace| - 1]);
      SentStep(idle, After(idle, trace[..|trace| - 1]), trace[|trace| - 1]);
    }
  }

  // ---------- the token a call is given ----------

  /** Every session ever named was generated before. */
  ghost predicate Older(s: State, ms: seq<Mint>) {
    && s.sdk.sessionId < s.sdk.nextId
    && (s.sdk.token.Some? ==> s.sdk.tokenSession < s.sdk.nextId)
    && (s.worker.Some? ==> s.worker.value.task.session < s.sdk.nextId)
    && (forall i :: 0 <= i < |s.sdk.tasks| ==> s.sdk.tasks[i].session < s.sdk.nextId)
    && (forall i :: 0 <= i < |ms| ==> ms[i].session < s.sdk.nextId)
  }

  /** The cache holds the last mint of the current session, or nothing for it. */
  predicate Caches(k: Sdk, m: Option<Mint>) {
    if m.None? then k.token.Some? ==> k.tokenSession != k.sessionId else
      && k.token == Some(Token(k.sessionId, m.value.user, m.value.iat))
      && k.tokenSession == k.sessionId && k.tokenUser == m.value.user && k.tokenMintedAt == m.value.at
  }

  lemma {:induction false} NoneFor(ms: seq<Mint>, session: nat)
    requires forall i :: 0 <= i < |ms| ==> ms[i].session < session
    ensures LastFor(ms, session) == None
  {
    if ms != [] { NoneFor(ms[..|ms| - 1], session); }
  }

  lemma OlderStep(idle: int, s: State, ms: seq<Mint>, step: Step)
    requires Older(s, ms)
    ensures Older(Apply(idle, s, step), ms + Minted(s, step))
  {}

  predicate SameCache(k: Sdk, t: Sdk) {
    t.token == k.token && t.tokenSession == k.tokenSession && t.tokenUser == k.tokenUser && t.tokenMintedAt == k.tokenMintedAt
  }

  lemma CacheStep(idle: int, s: State, step: Step)
    requires s.sdk.sessionId < s.sdk.nextId
    ensures var k, t, m := s.sdk, Apply(idle, s, step).sdk, Minted(s, step);
      if t.sessionId != k.sessionId then
        t.sessionId == k.nextId && m == [] && (t.token.Some? ==> SameCache(k, t))
      else if m == [] || m[0].session != k.sessionId then SameCache(k, t)
      else Caches(t, Some(m[0]))
  {}

  lemma LastForMore(ms: seq<Mint>, more: seq<Mint>, session: nat)
    requires |more| <= 1
    ensures LastFor(ms + more, session) ==
            if more != [] && more[0].session == session then Some(more[0]) else LastFor(ms, session)
  {
    if more == [] { assert ms + more == ms; } else { assert (ms + more)[..|ms|] == ms; }
  }

  lemma CachesStep(idle: int, s: State, ms: seq<Mint>, step: Step)
    requires Older(s, ms) && Caches(s.sdk, LastFor(ms, s.sdk.sessionId))
    ensures var t := Apply(idle, s, step).sdk; Caches(t, LastFor(ms + Minted(s, step), t.sessionId))
  {
    var t := Apply(idle, s, step).sdk;
    CacheStep(idle, s, step);
    LastForMore(ms, Minted(s, step), t.sessionId);
    if t.sessionId != s.sdk.sessionId { NoneFor(ms, t.sessionId); }
  }

  lemma {:induction false} CacheIsLastMint(idle: int, trace: seq<Step>)
    ensures Older(After(idle, trace), Mints(idle, trace))
    ensures Caches(After(idle, trace).sdk, LastFor(Mints(idle, trace), After(idle, trace).sdk.sessionId))
  {
    if trace != [] {
      var before, step := trace[..|trace| - 1], trace[|trace| - 1];
      CacheIsLastMint(idle, before);
      OlderStep(idle, After(idle, before), Mints(idle, before), step);
      CachesStep(idle, After(idle, before), Mints(idle, before), step);
    }
  }

  /** The token a call may be served: the last mint of this session, if it was for this user and under 45 minutes ago. */
  function Serveable(idle: int, trace: seq<Step>): Option<Token> {
    var s := After(idle, trace);
    var m := LastFor(Mints(idle, trace), s.sdk.sessionId);
    if m.Some? && m.value.user == User(idle, trace) && s.now - m.value.at < 45 * 60 * 1000
    then Some(Token(s.sdk.sessionId, m.value.user, m.value.iat)) else None
  }

  /**
   In every run currentToken hands out the token of the last mint that succeeded for the current session, and queues
   nothing, exactly when that mint was for the current user and completed less than 45 minutes ago. Otherwise it
   hands out nothing and queues one mint for the current session and user.
   */
  lemma CurrentTokenIff(idle: int, trace: seq<Step>, call: nat)
    requires Enabled(After(idle, trace), CurrentToken(call))
    ensures var s, token := After(idle, trace), Serveable(idle, trace);
      var t := Apply(idle, s, CurrentToken(call));
      && call in t.handed && t.handed[call] == token
      && t.sdk == s.sdk.(tasks := s.sdk.tasks +
           if token.Some? then [] else [Task(s.sdk.sessionId, User(idle, trace), None)])
  {
    CacheIsLastMint(idle, trace);
    UserIs(idle, trace);
    assert After(idle, trace).sdk.tasks + [] == After(idle, trace).sdk.tasks;
  }

  /** The same for tokenAsync, whose mint will answer the call. */
  lemma TokenAsyncIff(idle: int, trace: seq<Step>, call: nat)
    requires Enabled(After(idle, trace), TokenAsync(call))
    ensures var s, token := After(idle, trace), Serveable(idle, trace);
      var t := Apply(idle, s, TokenAsync(call));
      && (call in t.handed <==> token.Some?) && (token.Some? ==> t.handed[call] == token)
      && t.sdk == s.sdk.(tasks := s.sdk.tasks +
           if token.Some? then [] else [Task(s.sdk.sessionId, User(idle, trace), Some(call))])
  {
    CacheIsLastMint(idle, trace);
    UserIs(idle, trace);
    assert After(idle, trace).sdk.tasks + [] == After(idle, trace).sdk.tasks;
  }

  /** The mint a step asks for: at every change of identity, and for every call that cannot be served. */
  function Asked(idle: int, before: seq<Step>, step: Step): seq<Task> {
    var s := After(idle, before);
    var session := Apply(idle, s, step).sdk.sessionId;
    if step.SetUser? then [Task(session, Some(step.user), None)]
    else if step.ClearUser? || Kills(s, step) then [Task(session, None, None)]
    else if (step.CurrentToken? || step.TokenAsync?) && NewCall(s, step.call) && Serveable(idle, before).None? then
      [Task(session, User(idle, before), if step.CurrentToken? then None else Some(step.call))]
    else []
  }

  function Requests(idle: int, trace: seq<Step>): seq<Task> {
    if trace == [] then [] else
      Requests(idle, trace[..|trace| - 1]) + Asked(idle, trace[..|trace| - 1], trace[|trace| - 1])
  }

  /** How many mints the worker has begun. */
  function Begun(idle: int, trace: seq<Step>): nat {
    if trace == [] then 0 else
      var before, step := trace[..|trace| - 1], trace[|trace| - 1];
      Begun(idle, before) + if step.MintStart? && Enabled(After(idle, before), step) then 1 else 0
  }

  lemma UsableIff(idle: int, trace: seq<Step>)
    ensures Usable(After(idle, trace).sdk, After(idle, trace).now) <==> Serveable(idle, trace).Some?
  {
    UserIs(idle, trace);
    CacheIsLastMint(idle, trace);
  }

  /** The mint a step asks for, from the state it happens in. */
  function Asks(idle: int, s: State, step: Step): seq<Task> {
    var k := Apply(idle, s, step).sdk;
    var call := (step.CurrentToken? || step.TokenAsync?) && Enabled(s, step) && !Usable(s.sdk, s.now);
    if step.SetUser? || step.ClearUser? || Kills(s, step) || (call && step.CurrentToken?) then
      [Task(k.sessionId, k.userRef, None)]
    else if call then [Task(k.sessionId, k.userRef, Some(step.call))]
    else []
  }

  lemma TaskStep(idle: int, s: State, step: Step)
    ensures var t := Apply(idle, s, step);
      if step.MintStart? && Enabled(s, step) then
        s.sdk.tasks != [] && t.sdk.tasks == s.sdk.tasks[1..] && t.worker.Some? && t.worker.value.task == s.sdk.tasks[0]
      else t.sdk.tasks == s.sdk.tasks + Asks(idle, s, step) && (t.worker.Some? ==> t.worker == s.worker)
  {
    assert s.sdk.tasks + [] == s.sdk.tasks;
  }

  lemma AskedIs(idle: int, before: seq<Step>, step: Step)
    ensures Asked(idle, before, step) == Asks(idle, After(idle, before), step)
  {
    UsableIff(idle, before);
    UserIs(idle, before);
  }

  predicate Queue(s: State, asked: seq<Task>, begun: nat) {
    && begun <= |asked| && s.sdk.tasks == asked[begun..]
    && (s.worker.Some? ==> begun > 0 && s.worker.value.task == asked[begun - 1])
  }

  /** In every run the worker mints for exactly the requests of the run, one after another and in their order. */
  lemma {:induction false} RequestsInOrder(idle: int, trace: seq<Step>)
    ensures Queue(After(idle, trace), Requests(idle, trace), Begun(idle, trace))
  {
    if trace != [] {
      var before, step := trace[..|trace| - 1], trace[|trace| - 1];
      RequestsInOrder(idle, before);
      TaskStep(idle, After(idle, before), step);
      AskedIs(idle, before, step);
      if step.MintStart? { assert Asked(idle, before, step) == [] && Requests(idle, trace) == Requests(idle, before); }
    }
  }
}
