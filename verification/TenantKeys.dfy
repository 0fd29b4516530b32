/**
 Signing-key versions in the shared database, the per-instance cache that serves them, and the two
 signature checks that go through the cache. Times are in milliseconds.
 */
module TenantKeys {
  import opened Prelude

  datatype KeyState = Active | Retiring | Revoked

  /**
   A row of tenant_keys. `liveFrom` is its creation time; `revokedAt` is history, the time of its first
   revocation, and means nothing before that.
   */
  datatype KeyRow = KeyRow(tenant: string, kid: string, secret: string, state: KeyState,
                           liveFrom: int, revokedAt: int)

  datatype Db = Db(tenants: seq<string>, keys: seq<KeyRow>)

  datatype TenantKey = TenantKey(kid: string, secret: string, state: KeyState)

  /** One instance's cache; its keys are never Revoked. */
  datatype Cache = Cache(tenants: map<string, seq<TenantKey>>, lastLoad: int)

  /** An HMAC: equal only for equal key and body. */
  datatype Signature = Hmac(secret: string, body: string)

  const STALE_AFTER := 5000
  const RELOAD_EVERY := 1000
  const TOKEN_LIFE := 3600

  predicate Live(row: KeyRow) {
    row.state != Revoked
  }

  /** The live keys of one tenant, in table order. */
  function KeysOf(rows: seq<KeyRow>, id: string): seq<TenantKey> {
    if rows == [] then [] else
      var row := rows[|rows| - 1];
      var before := KeysOf(rows[..|rows| - 1], id);
      if Live(row) && row.tenant == id then before + [TenantKey(row.kid, row.secret, row.state)] else before
  }

  function View(tenants: seq<string>, rows: seq<KeyRow>): map<string, seq<TenantKey>> {
    map id | id in tenants :: KeysOf(rows, id)
  }

  lemma ViewMore(tenants: seq<string>, rows: seq<KeyRow>, i: nat)
    requires i < |rows|
    ensures var r, before := rows[i], View(tenants, rows[..i]);
            View(tenants, rows[..i + 1])
              == if Live(r) && r.tenant in before
                 then before[r.tenant := before[r.tenant] + [TenantKey(r.kid, r.secret, r.state)]]
                 else before
  {
    assert rows[..i + 1][..i] == rows[..i];
  }

  function Load(db: Db, now: int): Cache {
    Cache(View(db.tenants, db.keys), now)
  }

  /** The cache after a forced refresh, and whether it was refreshed; `up` says whether the queries succeed. */
  function TryReload(c: Cache, db: Db, up: bool, now: int): (Cache, bool) {
    if now - c.lastLoad < RELOAD_EVERY || !up then (c, false) else (Load(db, now), true)
  }

  /** The cache getTenant answers from. */
  function Lookup(c: Cache, id: string, db: Db, up: bool, now: int): Cache {
    if id !in c.tenants || now - c.lastLoad > STALE_AFTER then TryReload(c, db, up, now).0 else c
  }

  function Secrets(keys: seq<TenantKey>): set<string> {
    set k | k in keys :: k.secret
  }

  /** Some of the keys made the signature. */
  predicate Signed(keys: seq<TenantKey>, body: string, sig: Signature) {
    sig.body == body && sig.secret in Secrets(keys)
  }

  predicate Checks(c: Cache, id: string, body: string, sig: Signature) {
    id in c.tenants && Signed(c.tenants[id], body, sig)
  }

  lemma SignedMore(keys: seq<TenantKey>, i: nat, body: string, sig: Signature)
    requires i < |keys|
    ensures Signed(keys[..i + 1], body, sig) <==> Signed(keys[..i], body, sig) || Hmac(keys[i].secret, body) == sig
    ensures Hmac(keys[i].secret, body) == sig ==> Signed(keys, body, sig)
  {
    assert keys[..i + 1] == keys[..i] + [keys[i]];
    assert Secrets(keys[..i] + [keys[i]]) == Secrets(keys[..i]) + {keys[i].secret};
    assert keys[i] in keys;
  }

  function Verify(c: Cache, id: string, body: string, sig: Signature, db: Db, up: bool, now: int): (Cache, bool) {
    var first := Lookup(c, id, db, up, now);
    if Checks(first, id, body, sig) then (first, true) else
      var (reloaded, ok) := TryReload(first, db, up, now);
      if !ok then (reloaded, false) else
        var second := Lookup(reloaded, id, db, up, now);
        (second, Checks(second, id, body, sig))
  }

  datatype TokenError = UnknownTenant | BadSignature | Expired

  /** What a session token stamped at `iat`, in seconds, is answered with. */
  function SessionAnswer(c: Cache, id: string, iat: int, body: string, sig: Signature, db: Db, up: bool, now: int)
    : Result<string, TokenError>
  {
    if id !in Lookup(c, id, db, up, now).tenants then Err(UnknownTenant)
    else if !Verify(c, id, body, sig, db, up, now).1 then Err(BadSignature)
    else if now / 1000 - iat > TOKEN_LIFE then Err(Expired)
    else Ok(id)
  }

  // ---------- the server instance ----------

  class ServerInstance {
    var tenants: map<string, seq<TenantKey>>
    var lastTenantLoad: int

    constructor (db: Db, now: int)
      ensures Contents() == Load(db, now)
    {
      tenants, lastTenantLoad := map[], now;
      new;
      LoadTenants(db, now);
    }

    ghost function Contents(): Cache
      reads this
    {
      Cache(tenants, lastTenantLoad)
    }

    /** Tenants first, then each live key appended to its tenant; a key without a tenant is skipped. */
    method LoadTenants(db: Db, now: int)
      modifies this
      ensures Contents() == Load(db, now)
    {
      var out: map<string, seq<TenantKey>> := map[];
      for i := 0 to |db.tenants|
        invariant out == View(db.tenants[..i], [])
      {
        assert db.tenants[..i + 1] == db.tenants[..i] + [db.tenants[i]];
        out := out[db.tenants[i] := []];
      }
      assert db.tenants[..|db.tenants|] == db.tenants;
      for i := 0 to |db.keys|
        invariant out == View(db.tenants, db.keys[..i])
      {
        var r := db.keys[i];
        ViewMore(db.tenants, db.keys, i);
        if Live(r) && r.tenant in out {
          out := out[r.tenant := out[r.tenant] + [TenantKey(r.kid, r.secret, r.state)]];
        }
      }
      assert db.keys[..|db.keys|] == db.keys;
      tenants := out;
      lastTenantLoad := now;
    }

    method TryReloadTenants(db: Db, up: bool, now: int) returns (ok: bool)
      modifies this
      ensures (Contents(), ok) == TryReload(old(Contents()), db, up, now)
    {
      var recent := now - lastTenantLoad < RELOAD_EVERY;
      if recent { return false; }
      if !up { return false; }
      LoadTenants(db, now);
      return true;
    }

    method GetTenant(id: string, db: Db, up: bool, now: int) returns (keys: seq<TenantKey>, ok: bool)
      modifies this
      ensures Contents() == Lookup(old(Contents()), id, db, up, now)
      ensures ok <==> id in tenants
      ensures keys == if ok then tenants[id] else []
    {
      ok := id in tenants;
      keys := if ok then tenants[id] else [];
      var stale := now - lastTenantLoad > STALE_AFTER;
      if !ok || stale {
        var reloaded := TryReloadTenants(db, up, now);
        if reloaded {
          ok := id in tenants;
          keys := if ok then tenants[id] else [];
        }
      }
    }

    /** The closure both attempts of VerifyTenantSig call. */
    method Check(id: string, body: string, sig: Signature, db: Db, up: bool, now: int) returns (found: bool)
      modifies this
      ensures Contents() == Lookup(old(Contents()), id, db, up, now)
      ensures found <==> Checks(Contents(), id, body, sig)
    {
      var keys, ok := GetTenant(id, db, up, now);
      if !ok { return false; }
      for i := 0 to |keys|
        invariant !Signed(keys[..i], body, sig)
        modifies {}
      {
        SignedMore(keys, i, body, sig);
        if Hmac(keys[i].secret, body) == sig { return true; }
      }
      assert keys[..|keys|] == keys;
      return false;
    }

    method VerifyTenantSig(id: string, body: string, sig: Signature, db: Db, up: bool, now: int) returns (ok: bool)
      modifies this
      ensures (Contents(), ok) == Verify(old(Contents()), id, body, sig, db, up, now)
    {
      var found := Check(id, body, sig, db, up, now);
      if found { return true; }
      var reloaded := TryReloadTenants(db, up, now);
      if reloaded {
        ok := Check(id, body, sig, db, up, now);
        return ok;
      }
      return false;
    }

    /**
     Accepts exactly what Verify accepts, as long as the token is not over an hour old; `iat` is in
     seconds. Two attempts over the cached keys, with one forced reload in between.
     */
    method VerifySessionToken(id: string, iat: int, body: string, sig: Signature, db: Db, up: bool, now: int)
      returns (r: Result<string, TokenError>)
      modifies this
      ensures r == SessionAnswer(old(Contents()), id, iat, body, sig, db, up, now)
      ensures r.Ok? <==> Verify(old(Contents()), id, body, sig, db, up, now).1 && now / 1000 - iat <= 3600
      ensures r == Err(Expired) <==> Verify(old(Contents()), id, body, sig, db, up, now).1 && now / 1000 - iat > 3600
      ensures Contents() == Verify(old(Contents()), id, body, sig, db, up, now).0
    {
      var keys, ok := GetTenant(id, db, up, now);
      ghost var first := Contents();
      if !ok {
        UnknownStaysUnknown(old(Contents()), id, body, sig, db, up, now);
        return Err(UnknownTenant);
      }
      var verified := false;
      var attempt := 0;
      ghost var reloaded := false;
      while attempt < 2 && !verified
        invariant 0 <= attempt <= 2
        invariant attempt == 0 ==> Contents() == first && !verified && !reloaded
        invariant attempt > 0 && verified && !reloaded ==> Contents() == first
        invariant keys == if id in tenants then tenants[id] else []
        invariant attempt > 0 && !reloaded && !verified ==>
          Contents() == first && !Checks(first, id, body, sig) && !TryReload(first, db, up, now).1
        invariant reloaded ==>
          && !Checks(first, id, body, sig) && TryReload(first, db, up, now).1
          && Contents() == Lookup(TryReload(first, db, up, now).0, id, db, up, now)
        invariant verified ==> Checks(Contents(), id, body, sig)
        invariant attempt == 2 && !verified ==> !Checks(Contents(), id, body, sig)
      {
        var i := 0;
        while i < |keys| && !verified
          invariant 0 <= i <= |keys|
          invariant verified ==> Signed(keys, body, sig)
          invariant !verified ==> !Signed(keys[..i], body, sig)
          modifies {}
        {
          SignedMore(keys, i, body, sig);
          if Hmac(keys[i].secret, body) == sig { verified := true; }
          i := i + 1;
        }
        assert keys[..|keys|] == keys;
        assert verified <==> Checks(Contents(), id, body, sig);
        if !verified && attempt == 0 {
          var again := TryReloadTenants(db, up, now);
          if again {
            reloaded := true;
            keys, ok := GetTenant(id, db, up, now);
          }
        }
        attempt := attempt + 1;
      }
      if !verified { return Err(BadSignature); }
      var age := now / 1000 - iat;
      if age > TOKEN_LIFE { return Err(Expired); }
      return Ok(id);
    }
  }

  /** A tenant getTenant does not find after its own reload attempt cannot verify anything either. */
  lemma UnknownStaysUnknown(c: Cache, id: string, body: string, sig: Signature, db: Db, up: bool, now: int)
    requires id !in Lookup(c, id, db, up, now).tenants
    ensures Verify(c, id, body, sig, db, up, now) == (Lookup(c, id, db, up, now), false)
  {}

  // ---------- the database ----------

  /** Retires whatever is active: the first statement of a rotation. */
  function RetireActive(rows: seq<KeyRow>, id: string): (r: seq<KeyRow>)
    ensures |r| == |rows|
    ensures forall i :: 0 <= i < |rows| ==>
      r[i] == if rows[i].tenant == id && rows[i].state == Active then rows[i].(state := Retiring) else rows[i]
  {
    if rows == [] then [] else
      var row := rows[|rows| - 1];
      RetireActive(rows[..|rows| - 1], id)
        + [if row.tenant == id && row.state == Active then row.(state := Retiring) else row]
  }

  /** The second statement of a rotation: fails, changing nothing, when the tenant already has that kid. */
  function InsertKey(rows: seq<KeyRow>, id: string, kid: string, secret: string, now: int): seq<KeyRow> {
    if HasKid(rows, id, kid) then rows else rows + [KeyRow(id, kid, secret, Active, now, 0)]
  }

  predicate HasKid(rows: seq<KeyRow>, id: string, kid: string) {
    exists i :: 0 <= i < |rows| && rows[i].tenant == id && rows[i].kid == kid
  }

  function RevokeKid(rows: seq<KeyRow>, id: string, kid: string, now: int): (r: seq<KeyRow>)
    ensures |r| == |rows|
    ensures forall i :: 0 <= i < |rows| ==>
      r[i] == if rows[i].tenant == id && rows[i].kid == kid && Live(rows[i])
              then rows[i].(state := Revoked, revokedAt := now) else rows[i]
  {
    if rows == [] then [] else
      var row := rows[|rows| - 1];
      RevokeKid(rows[..|rows| - 1], id, kid, now)
        + [if row.tenant == id && row.kid == kid && Live(row) then row.(state := Revoked, revokedAt := now) else row]
  }

  // ---------- any number of instances over one database ----------

  datatype State = State(db: Db, caches: map<nat, Cache>, now: int)

  datatype Step =
    | Tick(ms: nat)
    | CreateTenant(id: string)
    | Retire(id: string)
    | Insert(id: string, kid: string, secret: string)
    | Revoke(id: string, kid: string)
    | Refresh(instance: nat)
    | Use(instance: nat, id: string, body: string, sig: Signature, up: bool)

  const Start := State(Db([], []), map[], 0)

  predicate HasSecret(rows: seq<KeyRow>, secret: string) {
    exists i :: 0 <= i < |rows| && rows[i].secret == secret
  }

  /** A key row needs its tenant row, and a generated secret is one never seen before. */
  predicate Enabled(s: State, step: Step) {
    match step
    case CreateTenant(id) => id !in s.db.tenants
    case Insert(id, _, secret) => id in s.db.tenants && !HasSecret(s.db.keys, secret)
    case Use(instance, _, _, _, _) => instance in s.caches
    case _ => true
  }

  /** A step that is not enabled leaves the state as it is. */
  function Apply(s: State, step: Step): State {
    if !Enabled(s, step) then s else
    match step
    case Tick(ms) => s.(now := s.now + ms)
    case CreateTenant(id) => s.(db := s.db.(tenants := s.db.tenants + [id]))
    case Retire(id) => s.(db := s.db.(keys := RetireActive(s.db.keys, id)))
    case Insert(id, kid, secret) => s.(db := s.db.(keys := InsertKey(s.db.keys, id, kid, secret, s.now)))
    case Revoke(id, kid) => s.(db := s.db.(keys := RevokeKid(s.db.keys, id, kid, s.now)))
    case Refresh(instance) => s.(caches := s.caches[instance := Load(s.db, s.now)])
    case Use(instance, id, body, sig, up) =>
      s.(caches := s.caches[instance := Verify(s.caches[instance], id, body, sig, s.db, up, s.now).0])
  }

  function After(trace: seq<Step>): State {
    if trace == [] then Start else Apply(After(trace[..|trace| - 1]), trace[|trace| - 1])
  }

  // ---------- what every run keeps ----------

  predicate Cached(c: Cache, row: KeyRow) {
    row.tenant in c.tenants && row.secret in Secrets(c.tenants[row.tenant])
  }

  ghost predicate RowsOk(db: Db, now: int) {
    && (forall i :: 0 <= i < |db.keys| ==>
          db.keys[i].tenant in db.tenants && db.keys[i].liveFrom <= now && (Live(db.keys[i]) || db.keys[i].revokedAt <= now))
    && forall i, j :: 0 <= i < j < |db.keys| ==> db.keys[i].secret != db.keys[j].secret
  }

  /** A cached secret belongs to a row of that tenant that was live when the cache was loaded. */
  ghost predicate NothingDead(c: Cache, keys: seq<KeyRow>) {
    forall id, secret :: id in c.tenants && secret in Secrets(c.tenants[id]) ==>
      exists i :: 0 <= i < |keys| && keys[i].tenant == id && keys[i].secret == secret
                  && (Live(keys[i]) || keys[i].revokedAt >= c.lastLoad)
  }

  /** A live row older than the load is cached. */
  ghost predicate NothingMissing(c: Cache, keys: seq<KeyRow>) {
    forall i :: 0 <= i < |keys| && Live(keys[i]) && keys[i].liveFrom < c.lastLoad ==> Cached(c, keys[i])
  }

  ghost predicate CacheOk(c: Cache, db: Db, now: int) {
    c.lastLoad <= now && NothingDead(c, db.keys) && NothingMissing(c, db.keys)
  }

  ghost predicate Coherent(s: State) {
    RowsOk(s.db, s.now) && forall i :: i in s.caches ==> CacheOk(s.caches[i], s.db, s.now)
  }

  lemma {:induction false} KeysOfSecrets(rows: seq<KeyRow>, id: string, secret: string)
    ensures secret in Secrets(KeysOf(rows, id)) <==>
            exists i :: 0 <= i < |rows| && Live(rows[i]) && rows[i].tenant == id && rows[i].secret == secret
  {
    if rows != [] {
      var init, row := rows[..|rows| - 1], rows[|rows| - 1];
      KeysOfSecrets(init, id, secret);
      var before := KeysOf(init, id);
      if Live(row) && row.tenant == id {
        var k := TenantKey(row.kid, row.secret, row.state);
        assert KeysOf(rows, id) == before + [k];
        assert Secrets(before + [k]) == Secrets(before) + {k.secret};
      }
      assert forall i :: 0 <= i < |init| ==> init[i] == rows[i];
    }
  }

  /** A cached list holds exactly the live keys of the tenant, each with its own columns, in table order. */
  lemma {:induction false} KeysOfIff(rows: seq<KeyRow>, id: string, k: TenantKey, n: nat)
    requires n <= |rows|
    ensures k in KeysOf(rows, id) <==>
            exists i :: 0 <= i < |rows| && rows[i].tenant == id && rows[i].state != Revoked
                        && rows[i].kid == k.kid && rows[i].secret == k.secret && rows[i].state == k.state
    ensures KeysOf(rows[..n], id) <= KeysOf(rows, id)
  {
    if rows == [] {
    } else if n == |rows| {
      KeysOfIff(rows, id, k, n - 1);
      assert rows[..n] == rows;
    } else {
      var init, row := rows[..|rows| - 1], rows[|rows| - 1];
      assert init[..n] == rows[..n];
      KeysOfIff(init, id, k, n);
      assert forall i :: 0 <= i < |init| ==> init[i] == rows[i];
    }
  }

  lemma LoadOk(db: Db, now: int)
    requires RowsOk(db, now)
    ensures CacheOk(Load(db, now), db, now)
    ensures forall i :: 0 <= i < |db.keys| ==> (Cached(Load(db, now), db.keys[i]) <==> Live(db.keys[i]))
  {
    var c := Load(db, now);
    forall id, secret | id in c.tenants && secret in Secrets(c.tenants[id])
      ensures exists i :: 0 <= i < |db.keys| && db.keys[i].tenant == id && db.keys[i].secret == secret
                          && (Live(db.keys[i]) || db.keys[i].revokedAt >= c.lastLoad)
    {
      KeysOfSecrets(db.keys, id, secret);
    }
    forall i | 0 <= i < |db.keys| ensures Cached(c, db.keys[i]) <==> Live(db.keys[i]) {
      KeysOfSecrets(db.keys, db.keys[i].tenant, db.keys[i].secret);
    }
  }

  /** Rows may be added, retired or revoked; a row added or revoked is added or revoked now. */
  ghost predicate Moved(old_: seq<KeyRow>, keys: seq<KeyRow>, now: int) {
    && |old_| <= |keys|
    && (forall i :: 0 <= i < |old_| ==>
          && keys[i].tenant == old_[i].tenant && keys[i].secret == old_[i].secret
          && keys[i].liveFrom == old_[i].liveFrom
          && (Live(keys[i]) ==> Live(old_[i]))
          && (!Live(keys[i]) ==> keys[i].revokedAt == if Live(old_[i]) then now else old_[i].revokedAt))
    && forall i :: |old_| <= i < |keys| ==> keys[i].liveFrom == now
  }

  lemma MoveKeeps(c: Cache, old_: seq<KeyRow>, keys: seq<KeyRow>, now: int)
    requires c.lastLoad <= now && NothingDead(c, old_) && NothingMissing(c, old_) && Moved(old_, keys, now)
    ensures NothingDead(c, keys) && NothingMissing(c, keys)
  {
    forall id, secret | id in c.tenants && secret in Secrets(c.tenants[id])
      ensures exists i :: 0 <= i < |keys| && keys[i].tenant == id && keys[i].secret == secret
                          && (Live(keys[i]) || keys[i].revokedAt >= c.lastLoad)
    {
      var i :| 0 <= i < |old_| && old_[i].tenant == id && old_[i].secret == secret
               && (Live(old_[i]) || old_[i].revokedAt >= c.lastLoad);
      assert keys[i].tenant == id;
    }
    forall i | 0 <= i < |keys| && Live(keys[i]) && keys[i].liveFrom < c.lastLoad ensures Cached(c, keys[i]) {
      assert i < |old_| && Cached(c, old_[i]);
    }
  }

  lemma VerifyKeepsOk(c: Cache, id: string, body: string, sig: Signature, db: Db, up: bool, now: int)
    requires RowsOk(db, now) && CacheOk(c, db, now)
    ensures CacheOk(Verify(c, id, body, sig, db, up, now).0, db, now)
  {
    LoadOk(db, now);
  }

  lemma StepKeeps(s: State, step: Step)
    requires Coherent(s)
    ensures Coherent(Apply(s, step))
  {
    if !Enabled(s, step) { return; }
    var s' := Apply(s, step);
    match step
    case Tick(_) =>
    case CreateTenant(_) =>
    case Refresh(_) => LoadOk(s.db, s.now);
    case Use(i, id, body, sig, up) => VerifyKeepsOk(s.caches[i], id, body, sig, s.db, up, s.now);
    case _ =>
      assert Moved(s.db.keys, s'.db.keys, s.now);
      forall i | i in s.caches ensures CacheOk(s.caches[i], s'.db, s.now) {
        MoveKeeps(s.caches[i], s.db.keys, s'.db.keys, s.now);
      }
  }

  lemma {:induction false} EveryRunOk(trace: seq<Step>)
    ensures Coherent(After(trace))
  {
    if trace == [] {
    } else {
      EveryRunOk(trace[..|trace| - 1]);
      StepKeeps(After(trace[..|trace| - 1]), trace[|trace| - 1]);
    }
  }

  // ---------- the life of a key, read off the steps ----------

  /** When a revocation first named row k, if one did. */
  function Killed(trace: seq<Step>, k: nat): Option<int> {
    if trace == [] then None else
      var before, step := trace[..|trace| - 1], trace[|trace| - 1];
      var s := After(before);
      if Killed(before, k).Some? then Killed(before, k)
      else if k < |s.db.keys| && step == Revoke(s.db.keys[k].tenant, s.db.keys[k].kid) then Some(s.now)
      else None
  }

  /** When row k was inserted, and by which step. */
  function Inserted(trace: seq<Step>, k: nat): Option<(int, Step)> {
    if trace == [] then None else
      var before, step := trace[..|trace| - 1], trace[|trace| - 1];
      if k < |After(before).db.keys| then Inserted(before, k) else Some((After(before).now, step))
  }

  /** Rows are only appended, one by an insertion at a time, and keep their tenant, kid and secret. */
  lemma StepRows(s: State, step: Step, k: nat)
    requires k < |Apply(s, step).db.keys|
    ensures var t := Apply(s, step);
      if k < |s.db.keys| then
        var r, r' := s.db.keys[k], t.db.keys[k];
        && r'.tenant == r.tenant && r'.kid == r.kid && r'.secret == r.secret && r'.liveFrom == r.liveFrom
        && (r.state == Revoked ==> r' == r)
        && (r.state != Revoked && step == Revoke(r.tenant, r.kid) ==> r'.state == Revoked && r'.revokedAt == s.now)
        && (step != Revoke(r.tenant, r.kid) ==> (r'.state == Revoked <==> r.state == Revoked) && r'.revokedAt == r.revokedAt)
      else
        && step.Insert? && k == |s.db.keys| && t.db.keys[k] == KeyRow(step.id, step.kid, step.secret, Active, s.now, 0)
  {}

  /**
   In every run a key comes from one insertion, active and with that step's tenant, kid and secret, and is revoked
   exactly when a revocation named its tenant and kid later: no rotation ever ends a key.
   */
  lemma {:induction false} KeyLife(trace: seq<Step>, k: nat)
    requires k < |After(trace).db.keys|
    ensures var r := After(trace).db.keys[k];
      && (r.state == Revoked <==> Killed(trace, k).Some?) && (r.state == Revoked ==> Killed(trace, k) == Some(r.revokedAt))
      && Inserted(trace, k) == Some((r.liveFrom, Insert(r.tenant, r.kid, r.secret)))
  {
    var before, step := trace[..|trace| - 1], trace[|trace| - 1];
    StepRows(After(before), step, k);
    if k < |After(before).db.keys| { KeyLife(before, k); } else { NotYet(before, k); }
  }

  lemma {:induction false} NotYet(trace: seq<Step>, k: nat)
    requires k >= |After(trace).db.keys|
    ensures Killed(trace, k) == None
  {
    if trace != [] {
      RowsStay(After(trace[..|trace| - 1]), trace[|trace| - 1]);
      NotYet(trace[..|trace| - 1], k);
    }
  }

  lemma RowsStay(s: State, step: Step)
    ensures |s.db.keys| <= |Apply(s, step).db.keys|
  {}

  // ---------- both sides of the freshness bound ----------

  /** The instance runs, and key k has been live for at least a second. */
  predicate Serves(s: State, instance: nat, k: nat) {
    instance in s.caches && k < |s.db.keys| && Live(s.db.keys[k]) && s.now - s.db.keys[k].liveFrom >= 1000
  }

  /** In every run, a key live for at least a second is accepted by every instance, whatever its cache holds. */
  lemma LiveKeyAccepted(trace: seq<Step>, instance: nat, k: nat, body: string)
    requires Serves(After(trace), instance, k)
    ensures var s := After(trace); var row := s.db.keys[k];
            Verify(s.caches[instance], row.tenant, body, Hmac(row.secret, body), s.db, true, s.now).1
  {
    EveryRunOk(trace);
    var s := After(trace);
    LoadOk(s.db, s.now);
    assert CacheOk(s.caches[instance], s.db, s.now);
    assert Cached(Load(s.db, s.now), s.db.keys[k]);
  }

  /** In every run, a key revoked more than five seconds ago is rejected by every instance whose reload succeeds. */
  lemma RevokedKeyRejected(trace: seq<Step>, instance: nat, k: nat, id: string, body: string)
    requires var s := After(trace);
             && instance in s.caches && k < |s.db.keys| && !Live(s.db.keys[k])
             && s.now - s.db.keys[k].revokedAt > 5000
    ensures var s := After(trace);
            !Verify(s.caches[instance], id, body, Hmac(s.db.keys[k].secret, body), s.db, true, s.now).1
  {
    EveryRunOk(trace);
    var s := After(trace);
    LoadOk(s.db, s.now);
    var c, sig := s.caches[instance], Hmac(s.db.keys[k].secret, body);
    FreshCacheRejects(Load(s.db, s.now), s.db, k, id, body);
    if c.lastLoad > s.db.keys[k].revokedAt { FreshCacheRejects(c, s.db, k, id, body); }
  }

  /** A key that is live, or was revoked at most five seconds ago. */
  predicate Recent(row: KeyRow, now: int) {
    Live(row) || now - row.revokedAt <= 5000
  }

  /**
   In every run, a token signed with a key live for at least a second is accepted by every instance exactly while
   it is at most an hour old, and refused as expired after that.
   */
  lemma SessionTokenIff(trace: seq<Step>, instance: nat, k: nat, iat: int, body: string)
    requires Serves(After(trace), instance, k)
    ensures var s := After(trace); var row := s.db.keys[k];
            SessionAnswer(s.caches[instance], row.tenant, iat, body, Hmac(row.secret, body), s.db, true, s.now)
              == if s.now / 1000 - iat <= 3600 then Ok(row.tenant) else Err(Expired)
  {
    var s := After(trace); var row := s.db.keys[k];
    LiveKeyAccepted(trace, instance, k, body);
    if row.tenant !in Lookup(s.caches[instance], row.tenant, s.db, true, s.now).tenants {
      UnknownStaysUnknown(s.caches[instance], row.tenant, body, Hmac(row.secret, body), s.db, true, s.now);
      assert false;
    }
  }

  /** Conversely: what an instance that reaches the database accepts was signed with a recent key of that tenant. */
  lemma AcceptedIsSigned(trace: seq<Step>, instance: nat, id: string, iat: int, body: string, sig: Signature)
    requires instance in After(trace).caches
    ensures var s := After(trace);
      SessionAnswer(s.caches[instance], id, iat, body, sig, s.db, true, s.now).Ok? ==>
        && sig.body == body && s.now / 1000 - iat <= 3600
        && exists i :: 0 <= i < |s.db.keys| && s.db.keys[i].tenant == id && s.db.keys[i].secret == sig.secret
                       && Recent(s.db.keys[i], s.now)
  {
    EveryRunOk(trace);
    var s := After(trace);
    LoadOk(s.db, s.now);
    var c := s.caches[instance];
    if Checks(Load(s.db, s.now), id, body, sig) { CheckedIsSigned(Load(s.db, s.now), s.db, id, body, sig, s.now); }
    if s.now - c.lastLoad <= 5000 && Checks(c, id, body, sig) { CheckedIsSigned(c, s.db, id, body, sig, s.now); }
  }

  /** No instance caches a tenant that was not created. */
  ghost predicate OnlyCreated(s: State) {
    forall i, id :: i in s.caches && id in s.caches[i].tenants ==> id in s.db.tenants
  }

  lemma CachesStep(s: State, step: Step)
    requires OnlyCreated(s)
    ensures OnlyCreated(Apply(s, step))
  {}

  lemma {:induction false} EveryRunOnlyCreated(trace: seq<Step>)
    ensures OnlyCreated(After(trace))
  {
    if trace != [] {
      EveryRunOnlyCreated(trace[..|trace| - 1]);
      CachesStep(After(trace[..|trace| - 1]), trace[|trace| - 1]);
    }
  }

  /** In every run a token of a tenant never created is answered as such, database or not. */
  lemma NeverCreated(trace: seq<Step>, instance: nat, id: string, iat: int, body: string, sig: Signature, up: bool)
    requires instance in After(trace).caches && id !in After(trace).db.tenants
    ensures var s := After(trace);
      SessionAnswer(s.caches[instance], id, iat, body, sig, s.db, up, s.now) == Err(UnknownTenant)
  {
    EveryRunOnlyCreated(trace);
  }

  lemma CheckedIsSigned(c: Cache, db: Db, id: string, body: string, sig: Signature, now: int)
    requires NothingDead(c, db.keys) && now - c.lastLoad <= 5000 && Checks(c, id, body, sig)
    ensures exists i :: 0 <= i < |db.keys| && db.keys[i].tenant == id && db.keys[i].secret == sig.secret
                        && Recent(db.keys[i], now)
  {
    assert sig.secret in Secrets(c.tenants[id]);
    var i :| 0 <= i < |db.keys| && db.keys[i].tenant == id && db.keys[i].secret == sig.secret
             && (Live(db.keys[i]) || db.keys[i].revokedAt >= c.lastLoad);
    assert Recent(db.keys[i], now);
  }

  lemma FreshCacheRejects(c: Cache, db: Db, k: nat, id: string, body: string)
    requires k < |db.keys| && !Live(db.keys[k]) && NothingDead(c, db.keys) && c.lastLoad > db.keys[k].revokedAt
    requires forall i, j :: 0 <= i < j < |db.keys| ==> db.keys[i].secret != db.keys[j].secret
    ensures !Checks(c, id, body, Hmac(db.keys[k].secret, body))
  {
    assert forall i :: 0 <= i < |db.keys| && db.keys[i].secret == db.keys[k].secret ==> i == k;
  }

  // ---------- the bounds are tight ----------

  lemma Extend(trace: seq<Step>, step: Step, s: State, t: State)
    requires After(trace) == s && Apply(s, step) == t
    ensures After(trace + [step]) == t
  {
    assert (trace + [step])[..|trace|] == trace;
  }

  lemma Begin(step: Step, s: State) returns (trace: seq<Step>)
    requires Apply(Start, step) == s
    ensures After(trace) == s
  {
    trace := [step];
    assert trace[..0] == [];
  }

  /** One tenant with one active key; the caches as given. */
  function OneKey(caches: map<nat, Cache>, now: int): State {
    State(Db(["t"], [KeyRow("t", "k1", "secret", Active, 0, 0)]), caches, now)
  }

  lemma LoadsOneKey(row: KeyRow, now: int)
    requires row.tenant == "t" && Live(row)
    ensures Load(Db(["t"], [row]), now) == Cache(map["t" := [TenantKey(row.kid, row.secret, row.state)]], now)
  {
    var k := TenantKey(row.kid, row.secret, row.state);
    assert [row][..0] == [];
    assert KeysOf([row], "t") == [] + [k] == [k];
    LoadsOne(Db(["t"], [row]), now);
  }

  lemma LoadsOne(db: Db, now: int)
    requires db.tenants == ["t"]
    ensures Load(db, now) == Cache(map["t" := KeysOf(db.keys, "t")], now)
  {
    assert forall id :: id in db.tenants <==> id == "t";
  }

  /** A key younger than a second can be rejected, at any age below the bound. */
  lemma YoungKeyMayBeRejected(age: nat) returns (trace: seq<Step>)
    requires age < 1000
    ensures var s := After(trace);
            && 0 in s.caches && |s.db.keys| == 1 && Live(s.db.keys[0]) && s.now - s.db.keys[0].liveFrom == age
            && !Verify(s.caches[0], "t", "body", Hmac(s.db.keys[0].secret, "body"), s.db, true, s.now).1
  {
    var c := Cache(map["t" := []], 0);
    var s2 := State(Db(["t"], []), map[0 := c], 0);
    var t2 := ReachEmpty();
    var t3 := t2 + [Insert("t", "k1", "secret")];
    Extend(t2, Insert("t", "k1", "secret"), s2, OneKey(map[0 := c], 0));
    Extend(t3, Tick(age), OneKey(map[0 := c], 0), OneKey(map[0 := c], age));
    trace := t3 + [Tick(age)];
  }

  lemma ReachEmpty() returns (trace: seq<Step>)
    ensures After(trace) == State(Db(["t"], []), map[0 := Cache(map["t" := []], 0)], 0)
  {
    var s1 := State(Db(["t"], []), map[], 0);
    LoadsOne(s1.db, 0);
    var t1 := Begin(CreateTenant("t"), s1);
    Extend(t1, Refresh(0), s1, s1.(caches := map[0 := Load(s1.db, 0)]));
    trace := t1 + [Refresh(0)];
  }

  lemma ReachOneKey() returns (trace: seq<Step>)
    ensures After(trace) == OneKey(map[0 := Load(OneKey(map[], 0).db, 0)], 0)
  {
    var s1 := State(Db(["t"], []), map[], 0);
    var t1 := Begin(CreateTenant("t"), s1);
    Extend(t1, Insert("t", "k1", "secret"), s1, OneKey(map[], 0));
    var t2 := t1 + [Insert("t", "k1", "secret")];
    Extend(t2, Refresh(0), OneKey(map[], 0), OneKey(map[0 := Load(OneKey(map[], 0).db, 0)], 0));
    trace := t2 + [Refresh(0)];
  }

  /** At every time from one second on, some run has an instance and a key live for a second. */
  lemma KeyLiveAt(at: nat) returns (trace: seq<Step>)
    requires at >= 1000
    ensures Serves(After(trace), 0, 0) && After(trace).now == at
  {
    var t := ReachOneKey();
    Extend(t, Tick(at), After(t), After(t).(now := at));
    trace := t + [Tick(at)];
  }

  /**
   A revoked key can be accepted up to exactly five seconds after its revocation, and for as long as the
   database cannot be reached after that.
   */
  lemma RevokedKeyMayBeAccepted(age: nat, up: bool) returns (trace: seq<Step>)
    requires age <= 5000 || !up
    ensures var s := After(trace);
            && 0 in s.caches && |s.db.keys| == 1 && !Live(s.db.keys[0]) && s.now - s.db.keys[0].revokedAt == age
            && Verify(s.caches[0], "t", "body", Hmac(s.db.keys[0].secret, "body"), s.db, up, s.now).1
  {
    var t := ReachOneKey();
    var row := KeyRow("t", "k1", "secret", Active, 0, 0);
    LoadsOneKey(row, 0);
    var s := After(t);
    var s' := s.(db := Db(["t"], [row.(state := Revoked, revokedAt := 0)]));
    Extend(t, Revoke("t", "k1"), s, s');
    Extend(t + [Revoke("t", "k1")], Tick(age), s', s'.(now := age));
    trace := t + [Revoke("t", "k1")] + [Tick(age)];
    assert TenantKey("k1", "secret", Active) in s'.caches[0].tenants["t"];
  }

  // ---------- two requests on one instance ----------

  /** Verify when another request of the same instance may install a newer cache after the first check. */
  function VerifyRaced(c: Cache, other: Option<Cache>, id: string, body: string, sig: Signature,
                       db: Db, up: bool, now: int): bool
  {
    var first := Lookup(c, id, db, up, now);
    if Checks(first, id, body, sig) then true else
      var current := if other.Some? then other.value else first;
      var (reloaded, ok) := TryReload(current, db, up, now);
      ok && Checks(Lookup(reloaded, id, db, up, now), id, body, sig)
  }

  /**
   The reload limit is shared by all requests of an instance, so a key live for a second is refused exactly
   when the first check missed it and another request reloaded within the last second: the loser is not
   given a second look at the cache that already holds the key.
   */
  lemma RacedRejectionIff(c: Cache, other: Option<Cache>, db: Db, k: nat, body: string, now: int)
    requires RowsOk(db, now) && CacheOk(c, db, now)
    requires k < |db.keys| && Live(db.keys[k]) && now - db.keys[k].liveFrom >= 1000
    ensures var row := db.keys[k];
            var sig := Hmac(row.secret, body);
            var missed := !Checks(Lookup(c, row.tenant, db, true, now), row.tenant, body, sig);
            var lately := other.Some? && now - other.value.lastLoad < 1000;
            !VerifyRaced(c, other, row.tenant, body, sig, db, true, now) <==> missed && lately
  {
    LoadOk(db, now);
    assert Cached(Load(db, now), db.keys[k]);
    var first := Lookup(c, db.keys[k].tenant, db, true, now);
    assert first == c || first == Load(db, now);
    assert Cached(first, db.keys[k]) || db.keys[k].liveFrom >= first.lastLoad;
  }

  // ---------- rotation and revocation from the console ----------

  function Actives(rows: seq<KeyRow>, id: string): nat {
    if rows == [] then 0 else
      var row := rows[|rows| - 1];
      Actives(rows[..|rows| - 1], id) + if row.tenant == id && row.state == Active then 1 else 0
  }

  /** Active keys other than one kid, as revocation counts them. */
  function OtherActives(rows: seq<KeyRow>, id: string, kid: string): nat {
    if rows == [] then 0 else
      var row := rows[|rows| - 1];
      OtherActives(rows[..|rows| - 1], id, kid)
        + if row.tenant == id && row.state == Active && row.kid != kid then 1 else 0
  }

  function Rotate(rows: seq<KeyRow>, id: string, kid: string, secret: string, now: int): seq<KeyRow> {
    InsertKey(RetireActive(rows, id), id, kid, secret, now)
  }

  function RevokeGuarded(rows: seq<KeyRow>, id: string, kid: string, now: int): seq<KeyRow> {
    if OtherActives(rows, id, kid) == 0 then rows else RevokeKid(rows, id, kid, now)
  }

  datatype RevokeError = OnlyActiveKey | NoSuchKey

  class KeyTable {
    var rows: seq<KeyRow>

    constructor (start: seq<KeyRow>)
      ensures rows == start
    {
      rows := start;
    }

    method CountOtherActives(id: string, kid: string) returns (n: nat)
      ensures n == OtherActives(rows, id, kid)
    {
      n := 0;
      for i := 0 to |rows|
        invariant n == OtherActives(rows[..i], id, kid)
      {
        assert rows[..i + 1][..i] == rows[..i];
        if rows[i].tenant == id && rows[i].state == Active && rows[i].kid != kid { n := n + 1; }
      }
      assert rows[..|rows|] == rows;
    }

    /** Two statements: when the insert is refused the old key has already been retired. */
    method RotateTenantKey(id: string, kid: string, secret: string, now: int) returns (ok: bool)
      modifies this
      ensures ok <==> !HasKid(old(rows), id, kid)
      ensures rows == Rotate(old(rows), id, kid, secret, now)
    {
      var before := rows;
      rows := RetireActive(rows, id);
      assert HasKid(rows, id, kid) <==> HasKid(before, id, kid) by { RetireKeepsKids(before, id, kid); }
      var taken := exists i :: 0 <= i < |rows| && rows[i].tenant == id && rows[i].kid == kid;
      if taken { return false; }
      rows := rows + [KeyRow(id, kid, secret, Active, now, 0)];
      return true;
    }

    method RevokeTenantKey(id: string, kid: string, now: int) returns (r: Result<bool, RevokeError>)
      modifies this
      ensures rows == RevokeGuarded(old(rows), id, kid, now)
      ensures r == Err(OnlyActiveKey) <==> OtherActives(old(rows), id, kid) == 0
      ensures r.Ok? <==> OtherActives(old(rows), id, kid) > 0 && HasKid(old(rows), id, kid)
    {
      var others := CountOtherActives(id, kid);
      if others == 0 { return Err(OnlyActiveKey); }
      var matched := exists i :: 0 <= i < |rows| && rows[i].tenant == id && rows[i].kid == kid;
      rows := RevokeKid(rows, id, kid, now);
      if !matched { return Err(NoSuchKey); }
      return Ok(true);
    }
  }

  lemma RetireKeepsKids(rows: seq<KeyRow>, id: string, kid: string)
    ensures HasKid(RetireActive(rows, id), id, kid) <==> HasKid(rows, id, kid)
  {
    var r := RetireActive(rows, id);
    assert forall i :: 0 <= i < |rows| ==> r[i].tenant == rows[i].tenant && r[i].kid == rows[i].kid;
  }

  lemma {:induction false} RetireActives(rows: seq<KeyRow>, id: string, other: string)
    ensures Actives(RetireActive(rows, id), other) == if other == id then 0 else Actives(rows, other)
  {
    if rows != [] {
      RetireActives(rows[..|rows| - 1], id, other);
      var r := RetireActive(rows, id);
      assert r[..|r| - 1] == RetireActive(rows[..|rows| - 1], id);
    }
  }

  lemma {:induction false} RevokeActives(rows: seq<KeyRow>, id: string, kid: string, now: int, other: string)
    ensures Actives(RevokeKid(rows, id, kid, now), other)
         == if other == id then OtherActives(rows, id, kid) else Actives(rows, other)
    ensures OtherActives(rows, id, kid) <= Actives(rows, id)
  {
    if rows != [] {
      RevokeActives(rows[..|rows| - 1], id, kid, now, other);
      var r := RevokeKid(rows, id, kid, now);
      assert r[..|r| - 1] == RevokeKid(rows[..|rows| - 1], id, kid, now);
    }
  }

  lemma InsertActives(rows: seq<KeyRow>, id: string, kid: string, secret: string, now: int, other: string)
    ensures Actives(InsertKey(rows, id, kid, secret, now), other)
         == Actives(rows, other) + if other == id && !HasKid(rows, id, kid) then 1 else 0
  {
    var row := KeyRow(id, kid, secret, Active, now, 0);
    assert (rows + [row])[..|rows|] == rows;
  }

  /** A rotation leaves exactly one active key, or none when the generated kid was already taken. */
  lemma RotateActives(rows: seq<KeyRow>, id: string, kid: string, secret: string, now: int)
    ensures Actives(Rotate(rows, id, kid, secret, now), id) == if HasKid(rows, id, kid) then 0 else 1
  {
    RetireActives(rows, id, id);
    RetireKeepsKids(rows, id, kid);
    InsertActives(RetireActive(rows, id), id, kid, secret, now, id);
  }

  /** The guard never lets a revocation take the last active key. */
  lemma RevokeActivesGuarded(rows: seq<KeyRow>, id: string, kid: string, now: int)
    ensures Actives(rows, id) > 0 ==> Actives(RevokeGuarded(rows, id, kid, now), id) > 0
    ensures Actives(rows, id) <= 1 ==> Actives(RevokeGuarded(rows, id, kid, now), id) == Actives(rows, id)
  {
    RevokeActives(rows, id, kid, now, id);
  }

  datatype ConsoleOp = RotateOp(kid: string, secret: string) | RevokeOp(kid: string)

  function Serial(rows: seq<KeyRow>, id: string, ops: seq<ConsoleOp>, now: int): seq<KeyRow> {
    if ops == [] then rows else
      var before := Serial(rows, id, ops[..|ops| - 1], now);
      match ops[|ops| - 1]
      case RotateOp(kid, secret) => Rotate(before, id, kid, secret, now)
      case RevokeOp(kid) => RevokeGuarded(before, id, kid, now)
  }

  /** The last rotation, if any, drew a kid the tenant did not have. */
  predicate LastKidFresh(rows: seq<KeyRow>, id: string, ops: seq<ConsoleOp>, now: int) {
    if ops == [] then true else
      match ops[|ops| - 1]
      case RotateOp(kid, _) => !HasKid(Serial(rows, id, ops[..|ops| - 1], now), id, kid)
      case RevokeOp(_) => LastKidFresh(rows, id, ops[..|ops| - 1], now)
  }

  /** Serialised console operations keep exactly one active key iff the last generated kid was fresh. */
  lemma {:induction false} SerialKeepsOneActive(rows: seq<KeyRow>, id: string, ops: seq<ConsoleOp>, now: int)
    requires Actives(rows, id) == 1
    ensures Actives(Serial(rows, id, ops, now), id) == if LastKidFresh(rows, id, ops, now) then 1 else 0
  {
    if ops == [] {
    } else {
      var before := Serial(rows, id, ops[..|ops| - 1], now);
      SerialKeepsOneActive(rows, id, ops[..|ops| - 1], now);
      match ops[|ops| - 1]
      case RotateOp(kid, secret) => RotateActives(before, id, kid, secret, now);
      case RevokeOp(kid) => RevokeActivesGuarded(before, id, kid, now);
    }
  }

  /** Two rotations whose statements interleave leave two active keys. */
  lemma InterleavedRotations(rows: seq<KeyRow>, id: string, a: string, b: string, sa: string, sb: string, now: int)
    requires a != b && !HasKid(rows, id, a) && !HasKid(rows, id, b)
    ensures var retired := RetireActive(RetireActive(rows, id), id);
            Actives(InsertKey(InsertKey(retired, id, a, sa, now), id, b, sb, now), id) == 2
  {
    var once := RetireActive(rows, id);
    var twice := RetireActive(once, id);
    RetireActives(once, id, id);
    RetireKeepsKids(rows, id, a);
    RetireKeepsKids(once, id, a);
    RetireKeepsKids(rows, id, b);
    RetireKeepsKids(once, id, b);
    InsertActives(twice, id, a, sa, now, id);
    var first := InsertKey(twice, id, a, sa, now);
    assert !HasKid(first, id, b);
    InsertActives(first, id, b, sb, now, id);
  }

  lemma {:induction false} OthersAfterRevoke(rows: seq<KeyRow>, id: string, a: string, b: string, now: int)
    requires a != b
    ensures OtherActives(RevokeKid(rows, id, a, now), id, b) + Actives(rows, id)
         == OtherActives(rows, id, a) + OtherActives(rows, id, b)
  {
    if rows != [] {
      OthersAfterRevoke(rows[..|rows| - 1], id, a, b, now);
      var r := RevokeKid(rows, id, a, now);
      assert r[..|r| - 1] == RevokeKid(rows[..|rows| - 1], id, a, now);
    }
  }

  /**
   Two revocations that both count before either updates leave no active key when those two were the only
   ones: each counted the other's key as the spare.
   */
  lemma InterleavedRevocations(rows: seq<KeyRow>, id: string, a: string, b: string, now: int)
    requires a != b && Actives(rows, id) == 2 && OtherActives(rows, id, a) == 1 && OtherActives(rows, id, b) == 1
    ensures Actives(RevokeKid(RevokeKid(rows, id, a, now), id, b, now), id) == 0
  {
    OthersAfterRevoke(rows, id, a, b, now);
    RevokeActives(RevokeKid(rows, id, a, now), id, b, now, id);
  }

  // ---------- every interleaving of console statements ----------

  /** What concurrent rotations and revocations of one tenant send the database, in the order it arrives. */
  datatype Statement = RetireAll | NewKey(kid: string, secret: string) | Take(kid: string)

  function Exec(rows: seq<KeyRow>, id: string, stmts: seq<Statement>, now: int): seq<KeyRow> {
    if stmts == [] then rows else
      var before := Exec(rows, id, stmts[..|stmts| - 1], now);
      match stmts[|stmts| - 1]
      case RetireAll => RetireActive(before, id)
      case NewKey(kid, secret) => InsertKey(before, id, kid, secret, now)
      case Take(kid) => RevokeKid(before, id, kid, now)
  }

  predicate Inserts(stmts: seq<Statement>, kid: string) {
    exists i :: 0 <= i < |stmts| && stmts[i].NewKey? && stmts[i].kid == kid
  }

  /** The insert at i is the first to use a kid the tenant did not have. */
  predicate FirstUse(rows: seq<KeyRow>, id: string, stmts: seq<Statement>, i: nat)
    requires i < |stmts|
  {
    stmts[i].NewKey? && !HasKid(rows, id, stmts[i].kid) && !Inserts(stmts[..i], stmts[i].kid)
  }

  predicate IsActive(rows: seq<KeyRow>, id: string, kid: string) {
    exists i :: 0 <= i < |rows| && rows[i].tenant == id && rows[i].kid == kid && rows[i].state == Active
  }

  /** A statement that makes an active key with this kid inactive. */
  predicate Ends(st: Statement, kid: string) {
    st.RetireAll? || st == Take(kid)
  }

  ghost predicate Untouched(stmts: seq<Statement>, from: nat, kid: string) {
    forall j :: from <= j < |stmts| ==> !Ends(stmts[j], kid)
  }

  /** The key was active from the start or first inserted on the way, and nothing retired or took it since. */
  ghost predicate Survives(rows: seq<KeyRow>, id: string, stmts: seq<Statement>, kid: string) {
    || (IsActive(rows, id, kid) && Untouched(stmts, 0, kid))
    || exists i: nat :: i < |stmts| && FirstUse(rows, id, stmts, i) && stmts[i].kid == kid && Untouched(stmts, i + 1, kid)
  }

  lemma {:induction false} ExecKids(rows: seq<KeyRow>, id: string, stmts: seq<Statement>, now: int, kid: string)
    ensures HasKid(Exec(rows, id, stmts, now), id, kid) <==> HasKid(rows, id, kid) || Inserts(stmts, kid)
  {
    if stmts != [] {
      var rest, last := stmts[..|stmts| - 1], stmts[|stmts| - 1];
      var before := Exec(rows, id, rest, now);
      ExecKids(rows, id, rest, now, kid);
      assert Inserts(stmts, kid) <==> Inserts(rest, kid) || (last.NewKey? && last.kid == kid) by {
        assert stmts == rest + [last];
        assert forall i :: 0 <= i < |rest| ==> stmts[i] == rest[i];
      }
      match last
      case RetireAll => RetireKeepsKids(before, id, kid);
      case NewKey(k, secret) => InsertKids(before, id, k, secret, now, kid);
      case Take(k) => TakeKids(before, id, k, now, kid);
    }
  }

  lemma InsertKids(rows: seq<KeyRow>, id: string, k: string, secret: string, now: int, kid: string)
    ensures HasKid(InsertKey(rows, id, k, secret, now), id, kid) <==> HasKid(rows, id, kid) || k == kid
    ensures IsActive(InsertKey(rows, id, k, secret, now), id, kid) <==>
              IsActive(rows, id, kid) || (k == kid && !HasKid(rows, id, kid))
  {
    var after := InsertKey(rows, id, k, secret, now);
    assert forall i :: 0 <= i < |rows| ==> after[i] == rows[i];
    if !HasKid(rows, id, k) { assert after[|rows|] == KeyRow(id, k, secret, Active, now, 0); }
  }

  lemma TakeKids(rows: seq<KeyRow>, id: string, k: string, now: int, kid: string)
    ensures HasKid(RevokeKid(rows, id, k, now), id, kid) <==> HasKid(rows, id, kid)
    ensures IsActive(RevokeKid(rows, id, k, now), id, kid) <==> IsActive(rows, id, kid) && k != kid
  {
    var after := RevokeKid(rows, id, k, now);
    assert forall i :: 0 <= i < |rows| ==> after[i].tenant == rows[i].tenant && after[i].kid == rows[i].kid;
  }

  lemma SurvivesMore(rows: seq<KeyRow>, id: string, rest: seq<Statement>, last: Statement, kid: string)
    ensures Survives(rows, id, rest + [last], kid) <==>
            (Survives(rows, id, rest, kid) && !Ends(last, kid))
            || (last.NewKey? && last.kid == kid && FirstUse(rows, id, rest + [last], |rest|))
  {
    var stmts := rest + [last];
    forall i: nat | i < |rest| ensures FirstUse(rows, id, stmts, i) <==> FirstUse(rows, id, rest, i) {
      assert stmts[..i] == rest[..i];
    }
    forall from: nat | from <= |rest| ensures Untouched(stmts, from, kid) <==> Untouched(rest, from, kid) && !Ends(last, kid) {
      assert forall j :: 0 <= j < |rest| ==> stmts[j] == rest[j];
      assert stmts[|rest|] == last;
    }
    if last.NewKey? && last.kid == kid && FirstUse(rows, id, stmts, |rest|) { assert Untouched(stmts, |rest| + 1, kid); }
  }

  /** However the statements of any number of rotations and revocations interleave, exactly these keys stay active. */
  lemma {:induction false} KeyActiveIff(rows: seq<KeyRow>, id: string, stmts: seq<Statement>, now: int, kid: string)
    ensures IsActive(Exec(rows, id, stmts, now), id, kid) <==> Survives(rows, id, stmts, kid)
  {
    if stmts != [] {
      var rest, last := stmts[..|stmts| - 1], stmts[|stmts| - 1];
      var before := Exec(rows, id, rest, now);
      KeyActiveIff(rows, id, rest, now, kid);
      ExecKids(rows, id, rest, now, kid);
      assert stmts == rest + [last] && (rest + [last])[..|rest|] == rest;
      SurvivesMore(rows, id, rest, last, kid);
      match last
      case RetireAll =>
      case NewKey(k, secret) => InsertKids(before, id, k, secret, now, kid);
      case Take(k) => TakeKids(before, id, k, now, kid);
    }
  }

  lemma {:induction false} SomeActive(rows: seq<KeyRow>, id: string)
    ensures Actives(rows, id) > 0 <==> exists kid :: IsActive(rows, id, kid)
  {
    if rows != [] {
      var rest, row := rows[..|rows| - 1], rows[|rows| - 1];
      SomeActive(rest, id);
      forall kid
        ensures IsActive(rows, id, kid) <==>
                IsActive(rest, id, kid) || (row.tenant == id && row.kid == kid && row.state == Active)
      {
        assert rows == rest + [row];
        assert forall i :: 0 <= i < |rest| ==> rows[i] == rest[i];
      }
      if row.tenant == id && row.state == Active { assert IsActive(rows, id, row.kid); }
    }
  }

  /** Revocations whatever their guards had counted: the tenant is left without an active key exactly when they
      took every one it had. */
  lemma RevocationsLeaveNoneIff(rows: seq<KeyRow>, id: string, stmts: seq<Statement>, now: int)
    requires forall i :: 0 <= i < |stmts| ==> stmts[i].Take?
    ensures Actives(Exec(rows, id, stmts, now), id) == 0 <==> forall kid :: IsActive(rows, id, kid) ==> Take(kid) in stmts
  {
    SomeActive(Exec(rows, id, stmts, now), id);
    forall kid ensures IsActive(Exec(rows, id, stmts, now), id, kid) <==> IsActive(rows, id, kid) && Take(kid) !in stmts {
      KeyActiveIff(rows, id, stmts, now, kid);
    }
  }

  /** The inserts that are not followed by another retirement. */
  ghost function Last(rows: seq<KeyRow>, id: string, stmts: seq<Statement>): set<nat> {
    set i: nat | i < |stmts| && FirstUse(rows, id, stmts, i) && RetireAll !in stmts[i..] :: i
  }

  lemma LastMore(rows: seq<KeyRow>, id: string, rest: seq<Statement>, last: Statement)
    ensures Last(rows, id, rest + [last]) ==
            if last.RetireAll? then {}
            else Last(rows, id, rest) + if FirstUse(rows, id, rest + [last], |rest|) then {|rest|} else {}
  {
    var stmts := rest + [last];
    forall i: nat | i < |rest|
      ensures FirstUse(rows, id, stmts, i) <==> FirstUse(rows, id, rest, i)
      ensures RetireAll in stmts[i..] <==> RetireAll in rest[i..] || last.RetireAll?
    {
      assert stmts[..i] == rest[..i] && stmts[i..] == rest[i..] + [last];
    }
    assert stmts[|rest|..] == [last];
  }

  /** Interleaved rotations: one active key for each first use of a kid since the last retirement. */
  lemma {:induction false} RotationActives(rows: seq<KeyRow>, id: string, stmts: seq<Statement>, now: int)
    requires forall i :: 0 <= i < |stmts| ==> !stmts[i].Take?
    ensures Actives(Exec(rows, id, stmts, now), id) ==
            |Last(rows, id, stmts)| + if RetireAll in stmts then 0 else Actives(rows, id)
  {
    if stmts == [] {
      assert Last(rows, id, stmts) == {};
    } else {
      var rest, last := stmts[..|stmts| - 1], stmts[|stmts| - 1];
      var before := Exec(rows, id, rest, now);
      RotationActives(rows, id, rest, now);
      assert stmts == rest + [last] && (rest + [last])[..|rest|] == rest;
      LastMore(rows, id, rest, last);
      match last
      case RetireAll => RetireActives(before, id, id);
      case NewKey(kid, secret) =>
        ExecKids(rows, id, rest, now, kid);
        InsertActives(before, id, kid, secret, now, id);
        assert |rest| !in Last(rows, id, rest);
    }
  }

  /** Rotations leave exactly one active key exactly when one insert with a new kid follows the last retirement. */
  lemma RotationsLeaveOneIff(rows: seq<KeyRow>, id: string, stmts: seq<Statement>, now: int)
    requires RetireAll in stmts && forall i :: 0 <= i < |stmts| ==> !stmts[i].Take?
    ensures Actives(Exec(rows, id, stmts, now), id) == 1 <==> exists i :: Last(rows, id, stmts) == {i}
  {
    RotationActives(rows, id, stmts, now);
    var inserts := Last(rows, id, stmts);
    if |inserts| == 1 {
      var i :| i in inserts;
      assert |inserts - {i}| == 0;
      assert inserts == {i};
    }
  }

  // ---------- the signing key ----------

  /** The key new tokens and webhooks are signed with. */
  method ActiveKey(keys: seq<TenantKey>) returns (r: Option<TenantKey>)
    ensures r.Some? ==> exists i :: 0 <= i < |keys| && r.value == keys[i] && keys[i].state == Active
                                    && forall j :: 0 <= j < i ==> keys[j].state != Active
    ensures r.None? ==> forall i :: 0 <= i < |keys| ==> keys[i].state != Active
  {
    for i := 0 to |keys|
      invariant forall j :: 0 <= j < i ==> keys[j].state != Active
    {
      if keys[i].state == Active { return Some(keys[i]); }
    }
    return None;
  }

  function ActiveCount(keys: seq<TenantKey>): nat {
    if keys == [] then 0 else ActiveCount(keys[..|keys| - 1]) + if keys[|keys| - 1].state == Active then 1 else 0
  }

  /** A load carries over exactly the active keys of the table, so one active row means one possible signer. */
  lemma {:induction false} LoadKeepsActives(rows: seq<KeyRow>, id: string)
    ensures ActiveCount(KeysOf(rows, id)) == Actives(rows, id)
  {
    if rows != [] {
      var init, row := rows[..|rows| - 1], rows[|rows| - 1];
      LoadKeepsActives(init, id);
      var before, keys := KeysOf(init, id), KeysOf(rows, id);
      if Live(row) && row.tenant == id { assert keys[..|keys| - 1] == before; }
    }
  }
}
