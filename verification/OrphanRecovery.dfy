// The recovery of one orphaned case: it takes the case lock for a fixed time, without a
// heartbeat, looks at the case again and releases its own lock whatever happened.
module OrphanRecovery {
  import opened Wrappers
  import opened CaseStatus
  import opened CaseRecord
  import opened CaseLock

  const LOCK_TTL_MS := 30000

  const DEFAULT_LOCK_PREFIX := "visaflow:case"

  // Between a service and a recovery that were both created without a configuration of their own:
  // for as long as the lock of either lives, the other one does not get the lock of the same case.
  lemma DefaultsExcludeEachOther(store: Store, caseId: string, token: Token, other: Token, now: int, later: int)
    ensures var api, orphan := FormatKey(DEFAULT_CONFIG.keyPrefix, caseId), OrphanKey(DEFAULT_LOCK_PREFIX, caseId);
            && api == orphan == "visaflow:case:" + caseId + ":lock"
            && DEFAULT_CONFIG.ttlMs == LOCK_TTL_MS == 30000
            && (SetIfAbsent(store, api, token, DEFAULT_CONFIG.ttlMs, now).1 == SetOk && later < now + 30000 ==>
                  var held := SetIfAbsent(store, api, token, DEFAULT_CONFIG.ttlMs, now).0;
                  Live(held, orphan, later) == Some(token)
                  && SetIfAbsent(held, orphan, other, LOCK_TTL_MS, later) == (held, SetNil))
            && (SetIfAbsent(store, orphan, token, LOCK_TTL_MS, now).1 == SetOk && later < now + 30000 ==>
                  var held := SetIfAbsent(store, orphan, token, LOCK_TTL_MS, now).0;
                  Live(held, api, later) == Some(token)
                  && SetIfAbsent(held, api, other, DEFAULT_CONFIG.ttlMs, later) == (held, SetNil))
  {
    KeysAgree(DEFAULT_CONFIG.keyPrefix, caseId);
    DefaultService(caseId);
  }

  datatype Recovery = NoAction | FlaggedAsStuck

  // What reconcileOrphan reports for a candidate whose status has not changed.
  function ReconcileOrphan(candidate: Status, current: Status): Recovery {
    if current != candidate then NoAction
    else if candidate == Authenticating || candidate == Booking then FlaggedAsStuck
    else NoAction
  }

  class OrphanCaseRecoveryService {
    const redis: Redis
    const row: CaseRow
    const lockPrefix: string

    constructor (redis: Redis, row: CaseRow, lockPrefix: string := DEFAULT_LOCK_PREFIX)
      ensures this.redis == redis && this.row == row && this.lockPrefix == lockPrefix
    {
      this.redis, this.row, this.lockPrefix := redis, row, lockPrefix;
    }

    // elapsed is how long the recovery takes between acquisition and release.
    method RecoverCandidate(caseId: string, candidate: Status, token: Token, elapsed: nat) returns (r: Option<Recovery>)
      modifies redis
      // it proceeds exactly when no live lock is stored and the status is still the candidate's
      ensures r.None? <==> old(Live(redis.store, OrphanKey(lockPrefix, caseId), redis.now)).Some? || row.status != candidate
      ensures r.Some? ==> (r.value == FlaggedAsStuck <==> candidate == Authenticating || candidate == Booking)
      // a lock it did not get is left alone
      ensures old(Live(redis.store, OrphanKey(lockPrefix, caseId), redis.now)).Some? ==> redis.store == old(redis.store)
      // a lock it got is gone in the end: released, or lapsed on its own
      ensures old(Live(redis.store, OrphanKey(lockPrefix, caseId), redis.now)).None? ==>
                Live(redis.store, OrphanKey(lockPrefix, caseId), redis.now).None?
                && (elapsed < LOCK_TTL_MS ==> redis.store == old(redis.store) - {OrphanKey(lockPrefix, caseId)})
      ensures forall key :: key != OrphanKey(lockPrefix, caseId) ==>
                (key in redis.store <==> key in old(redis.store))
                && (key in redis.store ==> redis.store[key] == old(redis.store)[key])
    {
      var lockKey := OrphanKey(lockPrefix, caseId);
      var acquired := redis.SetNxPx(lockKey, token, LOCK_TTL_MS);
      if acquired != SetOk {
        return None;
      }
      redis.now := redis.now + elapsed;
      r := if row.status != candidate then None else Some(ReconcileOrphan(candidate, row.status));
      var released := redis.EvalRelease(lockKey, token);
    }
  }
}
