// The case lock: a Redis key holding a token for a limited time, and the service that
// acquires, renews and releases it and keeps one heartbeat timer per key.
module CaseLock {
  import opened Wrappers

  type Key = string
  type Token = string

  // ---- Redis -------------------------------------------------------------------------

  datatype Stored = Stored(token: Token, expiresAt: int)

  type Store = map<Key, Stored>

  // The token a GET returns; an expired key is gone.
  function Live(store: Store, key: Key, now: int): Option<Token> {
    if key in store && now < store[key].expiresAt then Some(store[key].token) else None
  }

  // The answers to a SET with NX: done, not done, or an error.
  datatype SetReply = SetOk | SetNil | SetError

  // SET key token PX ttl NX; a time to live that is not positive is an error.
  function SetIfAbsent(store: Store, key: Key, token: Token, ttlMs: int, now: int): (Store, SetReply) {
    if ttlMs <= 0 then (store, SetError)
    else if Live(store, key, now).Some? then (store, SetNil)
    else (store[key := Stored(token, now + ttlMs)], SetOk)
  }

  // The renewal script; PEXPIRE with a time that is not positive deletes the key.
  function RenewScript(store: Store, key: Key, token: Token, ttlMs: int, now: int): (Store, bool) {
    if Live(store, key, now) != Some(token) then (store, false)
    else if ttlMs > 0 then (store[key := Stored(token, now + ttlMs)], true)
    else (store - {key}, true)
  }

  // The release script.
  function ReleaseScript(store: Store, key: Key, token: Token, now: int): (Store, bool) {
    if Live(store, key, now) != Some(token) then (store, false) else (store - {key}, true)
  }

  // A handle whose token is not the one stored neither extends nor deletes anything.
  lemma StrangersChangeNothing(store: Store, key: Key, token: Token, ttlMs: int, now: int)
    ensures Live(store, key, now) != Some(token) <==> RenewScript(store, key, token, ttlMs, now) == (store, false)
    ensures Live(store, key, now) != Some(token) <==> ReleaseScript(store, key, token, now) == (store, false)
    ensures forall k :: k != key ==>
              Live(RenewScript(store, key, token, ttlMs, now).0, k, now) == Live(store, k, now) ==
              Live(ReleaseScript(store, key, token, now).0, k, now) == Live(SetIfAbsent(store, key, token, ttlMs, now).0, k, now)
  {
  }

  // A lock that was set, or renewed by its holder, lives for exactly its time to live from then on;
  // one that its holder released is gone. A time to live that is not positive sets nothing, and
  // renewing with it deletes the lock.
  lemma LockLife(store: Store, key: Key, token: Token, ttlMs: int, now: int, later: int)
    requires later >= now
    ensures var (set_, reply) := SetIfAbsent(store, key, token, ttlMs, now);
            && (reply == SetError <==> ttlMs <= 0)
            && (reply == SetNil <==> ttlMs > 0 && Live(store, key, now).Some?)
            && (reply == SetOk ==> Live(set_, key, later) == if later < now + ttlMs then Some(token) else None)
            && (reply != SetOk ==> set_ == store)
    ensures Live(store, key, now) == Some(token) ==>
              var (renewed, ok) := RenewScript(store, key, token, ttlMs, now);
              ok && Live(renewed, key, later) == if later < now + ttlMs then Some(token) else None
    ensures Live(store, key, now) == Some(token) && ttlMs <= 0 ==>
              RenewScript(store, key, token, ttlMs, now) == ReleaseScript(store, key, token, now) == (store - {key}, true)
    ensures Live(store, key, now) == Some(token) ==>
              var (released, ok) := ReleaseScript(store, key, token, now); ok && Live(released, key, later) == None
    ensures Live(store, key, now).Some? <==> exists s :: key in store && store[key] == s && now < s.expiresAt
  {
  }

  class Redis {
    var store: Store
    var now: int

    constructor ()
      ensures store == map[]
    {
      store, now := map[], 0;
    }

    method SetNxPx(key: Key, token: Token, ttlMs: int) returns (reply: SetReply)
      modifies this`store
      ensures (store, reply) == SetIfAbsent(old(store), key, token, ttlMs, now)
    {
      if ttlMs <= 0 {
        return SetError;
      }
      if key in store && now < store[key].expiresAt {
        return SetNil;
      }
      store := store[key := Stored(token, now + ttlMs)];
      reply := SetOk;
    }

    method Get(key: Key) returns (token: Option<Token>)
      ensures token == Live(store, key, now)
    {
      token := if key in store && now < store[key].expiresAt then Some(store[key].token) else None;
    }

    method EvalRenew(key: Key, token: Token, ttlMs: int) returns (ok: bool)
      modifies this`store
      ensures (store, ok) == RenewScript(old(store), key, token, ttlMs, now)
    {
      var stored := Get(key);
      if stored != Some(token) {
        return false;
      }
      store := if ttlMs > 0 then store[key := Stored(token, now + ttlMs)] else store - {key};
      ok := true;
    }

    method EvalRelease(key: Key, token: Token) returns (ok: bool)
      modifies this`store
      ensures (store, ok) == ReleaseScript(old(store), key, token, now)
    {
      var stored := Get(key);
      if stored != Some(token) {
        return false;
      }
      store := store - {key};
      ok := true;
    }
  }

  // ---- Heartbeat timers -----------------------------------------------------------------

  datatype Handle = Handle(key: Key, token: Token, ttlMs: int)

  type TimerId = nat

  // The map from lock key to timer, and the interval timers that are running with the handle
  // each of them renews.
  datatype Beats = Beats(active: map<Key, TimerId>, running: map<TimerId, Handle>)

  const NO_BEATS := Beats(map[], map[])

  function Stop(b: Beats, key: Key): Beats {
    if key in b.active then Beats(b.active - {key}, b.running - {b.active[key]}) else b
  }

  function Start(b: Beats, handle: Handle, id: TimerId): Beats {
    var c := Stop(b, handle.key);
    Beats(c.active[handle.key := id], c.running[id := handle])
  }

  // Every running timer is the one registered for its key, so at most one runs per key.
  ghost predicate OneTimerPerKey(b: Beats) {
    && (forall id :: id in b.running ==> b.running[id].key in b.active && b.active[b.running[id].key] == id)
    && (forall key :: key in b.active ==> b.active[key] in b.running && b.running[b.active[key]].key == key)
  }

  lemma StopKeepsOneTimer(b: Beats, key: Key)
    requires OneTimerPerKey(b)
    ensures OneTimerPerKey(Stop(b, key))
    ensures forall id :: id in Stop(b, key).running <==> id in b.running && b.running[id].key != key
  {
  }

  lemma StartKeepsOneTimer(b: Beats, handle: Handle, id: TimerId)
    requires OneTimerPerKey(b) && id !in b.running
    ensures OneTimerPerKey(Start(b, handle, id))
    ensures Start(b, handle, id).running[id] == handle
    ensures forall i :: i in Start(b, handle, id).running && i != id ==> i in b.running && b.running[i].key != handle.key
  {
    StopKeepsOneTimer(b, handle.key);
  }

  datatype LockError = Conflict | RedisFailed

  datatype Config = Config(ttlMs: int, heartbeatIntervalMs: int, keyPrefix: string)

  const DEFAULT_CONFIG := Config(30000, 10000, "")

  function FormatKey(prefix: string, caseId: string): Key {
    if prefix != "" then prefix + ":case:" + caseId + ":lock" else "visaflow:case:" + caseId + ":lock"
  }

  // The key of the orphan recovery.
  function OrphanKey(lockPrefix: string, caseId: string): Key {
    lockPrefix + ":" + caseId + ":lock"
  }

  // The API and the orphan recovery lock the same key exactly when the API's prefix is the
  // default one, left out or spelled out.
  lemma KeysAgree(prefix: string, caseId: string)
    ensures FormatKey(prefix, caseId) == OrphanKey("visaflow:case", caseId) <==> prefix == "" || prefix == "visaflow"
  {
    var tail := ":case:" + caseId + ":lock";
    assert OrphanKey("visaflow:case", caseId) == "visaflow" + tail;
    if prefix != "" {
      assert FormatKey(prefix, caseId) == prefix + tail;
      if prefix + tail == "visaflow" + tail {
        assert |prefix| == 8;
        assert prefix == (prefix + tail)[..8] == ("visaflow" + tail)[..8] == "visaflow";
      }
    } else {
      assert FormatKey(prefix, caseId) == "visaflow" + tail;
    }
  }

  // Without a configuration the service locks a case for thirty seconds and renews the lock every
  // ten, under this key.
  lemma DefaultService(caseId: string)
    ensures FormatKey(DEFAULT_CONFIG.keyPrefix, caseId) == "visaflow:case:" + caseId + ":lock"
    ensures DEFAULT_CONFIG.ttlMs == 30000 && DEFAULT_CONFIG.heartbeatIntervalMs == 10000
  {
  }

  class CaseLockService {
    const redis: Redis
    const config: Config
    var activeHeartbeats: map<Key, TimerId>
    var running: map<TimerId, Handle>
    var nextTimer: TimerId

    ghost predicate Valid()
      reads this
    {
      && config.heartbeatIntervalMs < config.ttlMs
      && OneTimerPerKey(Value())
      && forall id :: id in running ==> id < nextTimer
    }

    function Value(): Beats
      reads this
    {
      Beats(activeHeartbeats, running)
    }

    constructor (redis: Redis, config: Config)
      requires config.heartbeatIntervalMs < config.ttlMs
      ensures Valid() && Value() == NO_BEATS && this.redis == redis && this.config == config
    {
      this.redis, this.config := redis, config;
      activeHeartbeats, running, nextTimer := map[], map[], 0;
    }

    method AcquireLock(caseId: string, token: Token, ttlOverride: Option<int>) returns (r: Result<Handle, LockError>)
      modifies redis`store
      ensures var key := FormatKey(config.keyPrefix, caseId);
              var ttlMs := ttlOverride.GetOr(config.ttlMs);
              && redis.store == SetIfAbsent(old(redis.store), key, token, ttlMs, redis.now).0
              && r == if ttlMs <= 0 then Err(RedisFailed)
                      else if Live(old(redis.store), key, redis.now).Some? then Err(Conflict)
                      else Ok(Handle(key, token, ttlMs))
    {
      var key := FormatKey(config.keyPrefix, caseId);
      var ttlMs := ttlOverride.GetOr(config.ttlMs);
      var result := redis.SetNxPx(key, token, ttlMs);
      if result.SetError? {
        return Err(RedisFailed);
      }
      r := if result != SetOk then Err(Conflict) else Ok(Handle(key, token, ttlMs));
    }

    method RenewLock(handle: Handle, extendTtlMs: Option<int>) returns (renewed: bool)
      modifies redis`store
      ensures (redis.store, renewed)
           == RenewScript(old(redis.store), handle.key, handle.token, extendTtlMs.GetOr(handle.ttlMs), redis.now)
    {
      renewed := redis.EvalRenew(handle.key, handle.token, extendTtlMs.GetOr(handle.ttlMs));
    }

    method ReleaseLock(handle: Handle) returns (released: bool)
      requires Valid()
      modifies this`activeHeartbeats, this`running, redis`store
      ensures Valid() && Value() == Stop(old(Value()), handle.key)
      ensures (redis.store, released) == ReleaseScript(old(redis.store), handle.key, handle.token, redis.now)
    {
      StopHeartbeat(handle);
      released := redis.EvalRelease(handle.key, handle.token);
    }

    method StartHeartbeat(handle: Handle) returns (timer: TimerId)
      requires Valid()
      modifies this`activeHeartbeats, this`running, this`nextTimer
      ensures Valid() && timer == old(nextTimer) && nextTimer == timer + 1
      ensures Value() == Start(old(Value()), handle, timer)
    {
      StartKeepsOneTimer(Value(), handle, nextTimer);
      if handle.key in activeHeartbeats {
        StopHeartbeat(handle);
      }
      timer := nextTimer;
      nextTimer := nextTimer + 1;
      running := running[timer := handle];
      activeHeartbeats := activeHeartbeats[handle.key := timer];
    }

    method StopHeartbeat(handle: Handle)
      requires Valid()
      modifies this`activeHeartbeats, this`running
      ensures Valid() && Value() == Stop(old(Value()), handle.key)
    {
      StopKeepsOneTimer(Value(), handle.key);
      if handle.key in activeHeartbeats {
        var timer := activeHeartbeats[handle.key];
        running := running - {timer};
        activeHeartbeats := activeHeartbeats - {handle.key};
      }
    }

    // What a timer does when its interval has passed and the renewal is answered; lost says
    // that the holder's callback is called.
    method Beat(timer: TimerId, fault: bool) returns (lost: bool)
      requires Valid() && timer in running
      modifies this`activeHeartbeats, this`running, redis`store
      ensures Valid()
      ensures var handle := old(running[timer]);
              var (store, renewed) := RenewScript(old(redis.store), handle.key, handle.token, handle.ttlMs, redis.now);
              && redis.store == (if fault then old(redis.store) else store)
              && lost == (fault || !renewed)
              && Value() == if lost then Stop(old(Value()), handle.key) else old(Value())
    {
      var handle := running[timer];
      var renewed := false;
      if !fault {
        renewed := RenewLock(handle, None);
      }
      lost := !renewed;
      if lost {
        StopHeartbeat(handle);
      }
    }
  }

  // The service refuses a configuration whose heartbeat cannot keep the lock alive.
  method CreateService(redis: Redis, config: Config := DEFAULT_CONFIG) returns (r: Result<CaseLockService, string>)
    ensures r.Err? <==> config.heartbeatIntervalMs >= config.ttlMs
    ensures config == DEFAULT_CONFIG ==> r.Ok?
    ensures r.Ok? ==> fresh(r.value) && r.value.Valid() && r.value.redis == redis && r.value.config == config
  {
    if config.heartbeatIntervalMs >= config.ttlMs {
      return Err("CaseLockConfig invalid");
    }
    var service := new CaseLockService(redis, config);
    r := Ok(service);
  }
}
