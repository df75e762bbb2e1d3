/** The store itself: commands issued one after the other, with others acting in between. */
module IdempotencyStore {
  import opened Common
  import opened Idempotency

  /** One turn of the retry loop, case by case. */
  lemma AcquireUnfolds(r: Redis, key: string, owner: string, fingerprint: string, ttl: int, gaps: nat -> Gap,
                       attempt: nat)
    requires attempt < MAX_RETRIES
    ensures
      var run := AcquireFrom(r, key, owner, fingerprint, ttl, gaps, attempt);
      var r2 := Run(r, gaps(attempt).between);
      if ttl <= 0 then run == AcquireRun(r, Failed, [Moment(r, r)])
      else if Live(r, key).None? then
        var locked := Put(r, key, Lock(owner, fingerprint), ttl);
        run == AcquireRun(locked, GotLock, [Moment(r, locked)])
      else if Live(r2, key).None? then
        var rest := AcquireFrom(Run(r2, gaps(attempt).after), key, owner, fingerprint, ttl, gaps, attempt + 1);
        run == rest.(moments := [Moment(r, r2)] + rest.moments)
      else
        var found := Live(r2, key).value;
        run == AcquireRun(r2, if found.state == Completed && found.response.Some?
                              then FoundCompleted(found.fingerprint, found.response.value)
                              else FoundInFlight(found.fingerprint), [Moment(r, r2)])
  {
  }

  class RedisIdempotencyStore {
    var redis: Redis

    constructor (redis: Redis)
      ensures this.redis == redis
    {
      this.redis := redis;
    }

    method Others(ops: seq<Op>)
      modifies this
      ensures redis == Run(old(redis), ops)
    {
      for i := 0 to |ops|
        invariant Run(redis, ops[i..]) == Run(old(redis), ops)
      {
        redis := Apply(redis, ops[i]).0;
        assert ops[i..][1..] == ops[i + 1..];
      }
    }

    /** The retry loop; `moments` records Redis at each SET and GET. */
    method Acquire(key: string, owner: string, fingerprint: string, lockTtl: int, gaps: nat -> Gap)
      returns (result: AcquireResult, ghost moments: seq<Moment>)
      modifies this
      ensures
        var run := AcquireFrom(old(redis), key, owner, fingerprint, lockTtl, gaps, 0);
        redis == run.redis && result == run.result && moments == run.moments
    {
      moments := [];
      for attempt := 0 to MAX_RETRIES
        invariant
          var rest := AcquireFrom(redis, key, owner, fingerprint, lockTtl, gaps, attempt);
          AcquireFrom(old(redis), key, owner, fingerprint, lockTtl, gaps, 0) == rest.(moments := moments + rest.moments)
      {
        AcquireUnfolds(redis, key, owner, fingerprint, lockTtl, gaps, attempt);
        hide AcquireFrom, Live, Run;
        ghost var atSet := redis;
        if lockTtl <= 0 {
          moments := moments + [Moment(atSet, redis)];
          return Failed, moments;
        }
        if Live(redis, key).None? {
          redis := Put(redis, key, Lock(owner, fingerprint), lockTtl);
          moments := moments + [Moment(atSet, redis)];
          return GotLock, moments;
        }
        Others(gaps(attempt).between);
        ghost var atGet := redis;
        moments := moments + [Moment(atSet, atGet)];
        var rawData := Live(redis, key);
        if rawData.Some? {
          var parsed := rawData.value;
          if parsed.state == Completed && parsed.response.Some? {
            result := FoundCompleted(parsed.fingerprint, parsed.response.value);
          } else {
            result := FoundInFlight(parsed.fingerprint);
          }
          return;
        }
        Others(gaps(attempt).after);
      }
      result := KeptChanging;
    }

    method Complete(key: string, owner: string, response: Payload, ttl: int, between: seq<Op>) returns (reply: Reply)
      modifies this
      ensures (redis, reply) == SplitComplete(old(redis), between, key, owner, response, ttl)
    {
      var rawData := Live(redis, key);
      Others(between);
      if rawData.None? || rawData.value.state != InFlight || rawData.value.owner != Some(owner) {
        return Answer(false);
      }
      if ttl <= 0 { return RedisError; }
      redis := Put(redis, key, Record(Completed, None, rawData.value.fingerprint, Some(response)), ttl);
      reply := Answer(true);
    }

    method Release(key: string, owner: string, between: seq<Op>) returns (reply: Reply)
      modifies this
      ensures (redis, reply) == SplitRelease(old(redis), between, key, owner)
    {
      var rawData := Live(redis, key);
      Others(between);
      if rawData.None? || rawData.value.state != InFlight || rawData.value.owner != Some(owner) {
        return Answer(false);
      }
      var deleted := Live(redis, key).Some?;
      if !deleted { return Answer(false); }
      redis := redis.(entries := redis.entries - {FullKey(key)});
      reply := Answer(true);
    }

    method Extend(key: string, owner: string, lockTtl: int, between: seq<Op>) returns (reply: Reply)
      modifies this
      ensures (redis, reply) == SplitExtend(old(redis), between, key, owner, lockTtl)
    {
      var rawData := Live(redis, key);
      Others(between);
      if rawData.None? || rawData.value.state != InFlight || rawData.value.owner != Some(owner) {
        return Answer(false);
      }
      var held := Live(redis, key);
      if held.None? { return Answer(false); }
      redis := Put(redis, key, held.value, lockTtl);
      reply := Answer(true);
    }
  }
}
