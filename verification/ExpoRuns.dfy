/**
 What a run of the Expo SDK says, read off its steps: who is bound, when a session starts, which events are handed
 to the transport, and what an awaited token is answered with. Nothing here looks at the token cache.
 */
module ExpoRuns {
  import opened Prelude
  import opened ExpoSession

  /** A terminate command that names the current session, or none. */
  predicate Kills(s: State, step: Step) {
    step.Receive? && step.c.kind == "TERMINATE_SESSION" && (step.c.target.Some? ==> step.c.target.value == s.sdk.sessionId)
  }

  /** The step's call is a new one. */
  predicate Begins(s: State, step: Step) {
    (step.SetUser? || step.ClearUser?) && step.call !in s.calls
  }

  /** The user bound last, unless a logout or the kill switch came since. */
  function User(trace: seq<Step>): Option<string> {
    if trace == [] then None else
      var before, step := trace[..|trace| - 1], trace[|trace| - 1];
      if Begins(After(before), step) then (if step.SetUser? then Some(step.user) else None)
      else if Kills(After(before), step) then None
      else User(before)
  }

  /** The events of the run, each with the session and the user of its moment. */
  function Log(trace: seq<Step>): seq<Event> {
    if trace == [] then [] else
      var before, step := trace[..|trace| - 1], trace[|trace| - 1];
      var session, user := After(before).sdk.sessionId, User(before);
      Log(before) +
        if step.Track? then [Event(session, user, Telemetry(step.name))]
        else if Kills(After(before), step) then [Event(session, user, CommandAck(step.c.id))]
        else []
  }

  datatype Cached = Cached(session: nat, user: Option<string>, at: int)

  /** The last mint that succeeded for the session of its moment, unless the kill switch came since. */
  function LastMint(trace: seq<Step>): Option<Cached> {
    if trace == [] then None else
      var before, step := trace[..|trace| - 1], trace[|trace| - 1];
      var s := After(before);
      if step == MintDone(true) && s.sdk.inflight.Some? && s.sdk.inflight.value.session == s.sdk.sessionId
      then Some(Cached(s.sdk.inflight.value.session, s.sdk.inflight.value.user, s.now))
      else if Kills(s, step) then None
      else LastMint(before)
  }

  predicate Holds(k: Sdk, m: Option<Cached>) {
    if m.None? then k.token.None? else
      && k.token == Some(Token(m.value.session, m.value.user))
      && k.tokenUserRef == m.value.user && k.tokenMintedAt == m.value.at
  }

  /** Passes of ensureToken leave everything but the mint in flight alone. */
  lemma ProceedLeaves(s: State, id: nat, c: Call)
    ensures Proceed(s, id, c).sdk == s.sdk.(inflight := Proceed(s, id, c).sdk.inflight)
    ensures Proceed(s, id, c).now == s.now
  {}

  /** What one step does to everything but the mint in flight. */
  lemma StepIdentity(s: State, step: Step)
    ensures var k, t := s.sdk, Apply(s, step).sdk;
      if Kills(s, step) then t.userRef == None && t.sessionId == k.nextId && t.nextId == k.nextId + 1 && t.token == None
      else if Begins(s, step) then
        if step.SetUser? then t.userRef == Some(step.user) && t.sessionId == k.sessionId && t.nextId == k.nextId
        else t.userRef == None && t.sessionId == k.nextId && t.nextId == k.nextId + 1
      else t.userRef == k.userRef && t.sessionId == k.sessionId && t.nextId == k.nextId
    ensures var k, t := s.sdk, Apply(s, step).sdk;
      !Kills(s, step) && !step.MintDone? ==>
        t.token == k.token && t.tokenUserRef == k.tokenUserRef && t.tokenMintedAt == k.tokenMintedAt
    ensures Apply(s, step).sdk.sent == s.sdk.sent +
      if step.Track? then [Event(s.sdk.sessionId, s.sdk.userRef, Telemetry(step.name))]
      else if Kills(s, step) then [Event(s.sdk.sessionId, s.sdk.userRef, CommandAck(step.c.id))]
      else []
  {
    assert s.sdk.sent + [] == s.sdk.sent;
  }

  lemma {:induction false} UserIs(trace: seq<Step>)
    ensures After(trace).sdk.userRef == User(trace)
  {
    if trace != [] {
      UserIs(trace[..|trace| - 1]);
      StepIdentity(After(trace[..|trace| - 1]), trace[|trace| - 1]);
    }
  }

  /** Everything handed to the transport in a run is what its steps say, under the session and user of the moment. */
  lemma {:induction false} SentIs(trace: seq<Step>)
    ensures After(trace).sdk.sent == Log(trace)
  {
    if trace != [] {
      SentIs(trace[..|trace| - 1]);
      UserIs(trace[..|trace| - 1]);
      StepIdentity(After(trace[..|trace| - 1]), trace[|trace| - 1]);
    }
  }

  lemma {:induction false} SessionsRise(trace: seq<Step>, n: nat)
    requires n <= |trace|
    ensures After(trace[..n]).sdk.sessionId <= After(trace).sdk.sessionId < After(trace).sdk.nextId
  {
    if n == |trace| { assert trace[..n] == trace; }
    if trace != [] {
      var before := trace[..|trace| - 1];
      if n < |trace| { assert before[..n] == trace[..n]; }
      SessionsRise(before, if n < |trace| then n else |before|);
      StepIdentity(After(before), trace[|trace| - 1]);
    }
  }

  /** In every run a session starts at a logout and at a kill, at nothing else, and never with an id used before. */
  lemma SessionStartsIff(trace: seq<Step>, step: Step)
    ensures var s := After(trace);
      Apply(s, step).sdk.sessionId != s.sdk.sessionId <==> Kills(s, step) || (step.ClearUser? && step.call !in s.calls)
    ensures var s := After(trace);
      Apply(s, step).sdk.sessionId != s.sdk.sessionId ==>
        forall n :: 0 <= n <= |trace| ==> After(trace[..n]).sdk.sessionId < Apply(s, step).sdk.sessionId
  {
    StepIdentity(After(trace), step);
    forall n | 0 <= n <= |trace|
      ensures After(trace[..n]).sdk.sessionId <= After(trace).sdk.sessionId < After(trace).sdk.nextId
    {
      SessionsRise(trace, n);
    }
    SessionsRise(trace, 0);
  }

  lemma {:induction false} CacheIsLastMint(trace: seq<Step>)
    ensures Holds(After(trace).sdk, LastMint(trace))
  {
    if trace != [] {
      CacheIsLastMint(trace[..|trace| - 1]);
      StepIdentity(After(trace[..|trace| - 1]), trace[|trace| - 1]);
    }
  }

  /** The user an awaiting step runs for: a login's or a logout's own, else the one bound. */
  function AskedFor(trace: seq<Step>, step: Step): Option<string> {
    if step.SetUser? then Some(step.user) else if step.ClearUser? then None else User(trace)
  }

  /** How many mints the call has awaited before this step. */
  function AwaitedBefore(s: State, step: Step): nat {
    if step.Resume? && step.call in s.calls then s.calls[step.call].awaited else 0
  }

  /** What one pass answers, from the state it runs in. */
  lemma PassIs(u: State, id: nat, c: Call, m: Option<Cached>)
    requires Holds(u.sdk, m)
    ensures var t := Proceed(u, id, c);
      var young := m.Some? && m.value.user == u.sdk.userRef && u.now - m.value.at < 45 * 60 * 1000;
      && id in t.calls
      && (young ==> t.calls[id].status.Returned? && t.calls[id].status.token == Some(Token(m.value.session, m.value.user))
                    && t.sdk.inflight == u.sdk.inflight)
      && (!young && c.awaited < 2 ==>
            && t.calls[id].status.Suspended? && t.calls[id].awaited == c.awaited + 1
            && t.sdk.inflight == if u.sdk.inflight.Some? then u.sdk.inflight else Some(Mint(u.sdk.sessionId, u.sdk.userRef)))
      && (!young && c.awaited >= 2 ==>
            t.calls[id].status.Returned? && t.calls[id].status.token == None && t.sdk.inflight == u.sdk.inflight)
  {}

  /**
   In every run an awaited token is, at once or on resuming, the last mint's exactly when that was for the caller's
   user and completed less than 45 minutes ago, whatever session it was for. Otherwise the call awaits the mint in
   flight, or one it starts for the identity of the moment, and gives up with nothing after the second.
   */
  lemma AwaitIff(trace: seq<Step>, step: Step)
    requires Awaiting(step) && Enabled(After(trace), step)
    ensures var s, t, m, user := After(trace), Apply(After(trace), step), LastMint(trace), AskedFor(trace, step);
      var young := m.Some? && m.value.user == user && s.now - m.value.at < 45 * 60 * 1000;
      var awaited := AwaitedBefore(s, step);
      && CallOf(step) in t.calls
      && (young ==>
            && t.calls[CallOf(step)].status.Returned? && t.sdk.inflight == s.sdk.inflight
            && t.calls[CallOf(step)].status.token == Some(Token(m.value.session, m.value.user)))
      && (!young && awaited < 2 ==>
            && t.calls[CallOf(step)].status.Suspended? && t.calls[CallOf(step)].awaited == awaited + 1
            && t.sdk.inflight == if s.sdk.inflight.Some? then s.sdk.inflight else Some(Mint(t.sdk.sessionId, user)))
      && (!young && awaited >= 2 ==>
            && t.calls[CallOf(step)].status.Returned? && t.sdk.inflight == s.sdk.inflight
            && t.calls[CallOf(step)].status.token == None)
  {
    var s, m := After(trace), LastMint(trace);
    CacheIsLastMint(trace);
    UserIs(trace);
    StepIdentity(s, step);
    match step
    case GetToken(id) => PassIs(s, id, Call(Runnable, 0, s.sdk.sessionId, s.sdk.userRef, s.now, s.changes, s.failures), m);
    case SetUser(id, user) =>
      var changed := if s.sdk.userRef == Some(user) then 0 else 1;
      var u := s.(sdk := Login(s.sdk, user), changes := s.changes + changed);
      PassIs(u, id, Call(Runnable, 0, u.sdk.sessionId, u.sdk.userRef, u.now, u.changes, u.failures), m);
    case ClearUser(id) =>
      var u := s.(sdk := Logout(s.sdk), changes := s.changes + 1);
      PassIs(u, id, Call(Runnable, 0, u.sdk.sessionId, u.sdk.userRef, u.now, u.changes, u.failures), m);
    case Resume(id) => PassIs(s, id, s.calls[id], m);
  }
}
