/**
 * The idempotency store over a Redis key space with an explicit clock. Each operation here is
 * one atomic command, or the store's check and the write that follows it with nothing between;
 * or only that write, which arrives any time after its check.
 */
module Idempotency {
  import opened Common

  datatype State = InFlight | Completed

  type Payload = string

  datatype Record = Record(state: State, owner: Option<string>, fingerprint: string, response: Option<Payload>)

  datatype Entry = Entry(record: Record, expiresAt: int)

  /** Keys as Redis stores them; an entry whose time has come is gone. */
  datatype Redis = Redis(now: int, entries: map<string, Entry>)

  const PREFIX := "idempotency:"
  const MAX_RETRIES := 5

  function FullKey(key: string): string { PREFIX + key }

  function Live(r: Redis, key: string): Option<Record> {
    var k := FullKey(key);
    if k in r.entries && r.now < r.entries[k].expiresAt then Some(r.entries[k].record) else None
  }

  function Put(r: Redis, key: string, record: Record, ttl: int): Redis {
    r.(entries := r.entries[FullKey(key) := Entry(record, r.now + ttl)])
  }

  function Lock(owner: string, fingerprint: string): Record { Record(InFlight, Some(owner), fingerprint, None) }

  predicate Owns(record: Option<Record>, owner: string) {
    record.Some? && record.value.state == InFlight && record.value.owner == Some(owner)
  }

  datatype Op =
    | Tick(elapsed: nat)
    | TrySet(key: string, owner: string, fingerprint: string, ttl: int)   // SET NX PX of `acquire`
    | Look(key: string)                                                   // GET of `acquire`
    | Complete(key: string, owner: string, response: Payload, ttl: int)
    | Release(key: string, owner: string)
    | Extend(key: string, owner: string, ttl: int)
    // the writes of the last three alone, long after their check found `owner` in possession
    | LateSet(key: string, owner: string, fingerprint: string, response: Payload, ttl: int)
    | LateDel(key: string, owner: string)
    | LateExpire(key: string, owner: string, ttl: int)

  datatype Reply =
    | Ticked
    | Acquired
    | Refused
    | Absent
    | SeenInFlight(fingerprint: string)
    | SeenCompleted(fingerprint: string, response: Payload)
    | Answer(ok: bool)
    | RedisError                        // SET rejects an expiry that is not positive

  function Seen(record: Option<Record>): Reply {
    match record
    case None => Absent
    case Some(found) =>
      if found.state == Completed && found.response.Some?
      then SeenCompleted(found.fingerprint, found.response.value)
      else SeenInFlight(found.fingerprint)
  }

  function Apply(r: Redis, op: Op): (Redis, Reply) {
    match op
    case Tick(elapsed) => (r.(now := r.now + elapsed), Ticked)
    case TrySet(key, owner, fingerprint, ttl) =>
      if ttl <= 0 then (r, RedisError)
      else if Live(r, key).Some? then (r, Refused)
      else (Put(r, key, Lock(owner, fingerprint), ttl), Acquired)
    case Look(key) => (r, Seen(Live(r, key)))
    case Complete(key, owner, response, ttl) =>
      if !Owns(Live(r, key), owner) then (r, Answer(false))
      else if ttl <= 0 then (r, RedisError)
      else (Put(r, key, Record(Completed, None, Live(r, key).value.fingerprint, Some(response)), ttl), Answer(true))
    case Release(key, owner) =>
      if !Owns(Live(r, key), owner) then (r, Answer(false))
      else (r.(entries := r.entries - {FullKey(key)}), Answer(true))
    case Extend(key, owner, ttl) =>
      if !Owns(Live(r, key), owner) then (r, Answer(false))
      else (Put(r, key, Live(r, key).value, ttl), Answer(true))   // a ttl <= 0 expires the key at once
    case LateSet(key, _, fingerprint, response, ttl) =>
      if ttl <= 0 then (r, RedisError)
      else (Put(r, key, Record(Completed, None, fingerprint, Some(response)), ttl), Answer(true))
    case LateDel(key, _) =>
      if Live(r, key).None? then (r, Answer(false))
      else (r.(entries := r.entries - {FullKey(key)}), Answer(true))
    case LateExpire(key, _, ttl) =>
      if Live(r, key).None? then (r, Answer(false)) else (Put(r, key, Live(r, key).value, ttl), Answer(true))
  }

  function Run(r: Redis, ops: seq<Op>): Redis
    decreases |ops|
  {
    if ops == [] then r else Run(Apply(r, ops[0]).0, ops[1..])
  }

  function Replies(r: Redis, ops: seq<Op>): (replies: seq<Reply>)
    ensures |replies| == |ops|
    decreases |ops|
  {
    if ops == [] then [] else [Apply(r, ops[0]).1] + Replies(Apply(r, ops[0]).0, ops[1..])
  }

  /** Keys are kept apart from each other, and by their prefix from everything else in Redis. */
  lemma KeysDiffer(a: string, b: string)
    ensures FullKey(a) == FullKey(b) <==> a == b
    ensures FullKey(a)[..12] == "idempotency:"
  {
    if FullKey(a) == FullKey(b) {
      assert FullKey(a)[|PREFIX|..] == a && FullKey(b)[|PREFIX|..] == b;
    }
  }

  // ----- the lock -----

  /** `owner` holds the key until `deadline`. */
  predicate Leased(r: Redis, key: string, owner: string, fingerprint: string, deadline: int) {
    && Live(r, key) == Some(Lock(owner, fingerprint))
    && r.entries[FullKey(key)].expiresAt == deadline
  }

  predicate IsAbout(op: Op, key: string) { !op.Tick? && op.key == key }

  /** The owner ends its lease with this operation. */
  predicate Ends(op: Op, key: string, owner: string) {
    (op.Complete? || op.Release? || op.LateSet? || op.LateDel?) && op.key == key && op.owner == owner
  }

  /** The owner moves its deadline with this operation. */
  predicate Prolongs(op: Op, key: string, owner: string) {
    (op.Extend? || op.LateExpire?) && op.key == key && op.owner == owner
  }

  function DeadlineAfter(now: int, deadline: int, op: Op, key: string, owner: string): int {
    if Prolongs(op, key, owner) then now + op.ttl else deadline
  }

  /** A late write on the key by somebody whose own lease is over, and that is not without effect. */
  predicate Intrudes(op: Op, now: int, deadline: int, key: string, owner: string) {
    match op
    case LateSet(k, who, _, _, ttl) => k == key && who != owner && ttl > 0
    case LateDel(k, who) => k == key && who != owner
    case LateExpire(k, who, ttl) => k == key && who != owner && now + ttl != deadline
    case _ => false
  }

  /** From the operations alone: no late write on the key lands outside its writer's lease. */
  predicate Fenced(now: int, deadline: int, ops: seq<Op>, key: string, owner: string)
    decreases |ops|
  {
    ops == [] ||
    (!Intrudes(ops[0], now, deadline, key, owner) &&
     Fenced(NowAfter(now, ops[0]), DeadlineAfter(now, deadline, ops[0], key, owner), ops[1..], key, owner))
  }

  function NowAfter(now: int, op: Op): int { if op.Tick? then now + op.elapsed else now }

  /**
   * From the operations alone: the owner neither completes nor releases, and the clock never
   * reaches the deadline it was given or last extended to.
   */
  predicate StillLeased(now: int, deadline: int, ops: seq<Op>, key: string, owner: string)
    decreases |ops|
  {
    && now < deadline
    && (ops != [] ==>
          && !Ends(ops[0], key, owner)
          && StillLeased(NowAfter(now, ops[0]), DeadlineAfter(now, deadline, ops[0], key, owner), ops[1..], key, owner))
  }

  /** What a lease makes every operation on the key answer. */
  predicate KeepsOut(op: Op, reply: Reply, key: string, owner: string, fingerprint: string) {
    IsAbout(op, key) ==>
      match op
      case TrySet(_, _, _, _) => reply == Refused || reply == RedisError
      case Look(_) => reply == SeenInFlight(fingerprint)
      case Complete(_, who, _, _) => who != owner ==> reply == Answer(false)
      case Release(_, who) => who != owner ==> reply == Answer(false)
      case Extend(_, who, _) => who != owner ==> reply == Answer(false)
      case _ => true
  }

  lemma LeaseStep(r: Redis, op: Op, key: string, owner: string, fingerprint: string, deadline: int)
    requires Leased(r, key, owner, fingerprint, deadline) && !Ends(op, key, owner)
    requires !Intrudes(op, r.now, deadline, key, owner)
    ensures
      var r', deadline' := Apply(r, op).0, DeadlineAfter(r.now, deadline, op, key, owner);
      && r'.now == NowAfter(r.now, op)
      && KeepsOut(op, Apply(r, op).1, key, owner, fingerprint)
      && (r'.now < deadline' ==> Leased(r', key, owner, fingerprint, deadline'))
      && (r'.now >= deadline' ==> Live(r', key).None?)
      && (IsAbout(op, key) && !Prolongs(op, key, owner) ==> r' == r)
  {
    if !op.Tick? {
      KeysDiffer(op.key, key);
    }
    if op.LateExpire? && op.key == key && op.owner != owner {
      assert Apply(r, op).0.entries == r.entries;
    }
  }

  /**
   * Mutual exclusion: for as long as the lease lasts and late writes keep to their writers' leases,
   * through any operations of anybody on any key, nobody else acquires, everybody who looks sees the
   * owner's fingerprint, and what others try on the key is answered with false.
   */
  lemma {:induction false} LockIsExclusive(r: Redis, ops: seq<Op>, key: string, owner: string,
                                           fingerprint: string, deadline: int)
    requires Leased(r, key, owner, fingerprint, deadline)
    requires StillLeased(r.now, deadline, ops, key, owner) && Fenced(r.now, deadline, ops, key, owner)
    ensures forall i :: 0 <= i < |ops| ==> KeepsOut(ops[i], Replies(r, ops)[i], key, owner, fingerprint)
    ensures Live(Run(r, ops), key) == Some(Lock(owner, fingerprint))
    decreases |ops|
  {
    if ops != [] {
      LeaseStep(r, ops[0], key, owner, fingerprint, deadline);
      var deadline' := DeadlineAfter(r.now, deadline, ops[0], key, owner);
      assert StillLeased(NowAfter(r.now, ops[0]), deadline', ops[1..], key, owner);
      LockIsExclusive(Apply(r, ops[0]).0, ops[1..], key, owner, fingerprint, deadline');
      forall i | 0 <= i < |ops| ensures KeepsOut(ops[i], Replies(r, ops)[i], key, owner, fingerprint) {
        if i > 0 {
          assert ops[i] == ops[1..][i - 1];
        }
      }
    }
  }

  /** The owner's lease is intact at every moment of the run, with the deadline it was last given. */
  predicate LeaseKept(r: Redis, ops: seq<Op>, key: string, owner: string, fingerprint: string, deadline: int)
    decreases |ops|
  {
    && Leased(r, key, owner, fingerprint, deadline)
    && (ops != [] ==> LeaseKept(Apply(r, ops[0]).0, ops[1..], key, owner, fingerprint,
                                DeadlineAfter(r.now, deadline, ops[0], key, owner)))
  }

  /**
   * The lock is exclusive exactly when late writes are fenced: while the owner neither ends its lease
   * nor lets it lapse, the lease stays intact throughout if and only if no late write on the key
   * lands outside its writer's lease.
   */
  lemma {:induction false} ExclusiveIffFenced(r: Redis, ops: seq<Op>, key: string, owner: string,
                                              fingerprint: string, deadline: int)
    requires Leased(r, key, owner, fingerprint, deadline)
    requires StillLeased(r.now, deadline, ops, key, owner)
    ensures LeaseKept(r, ops, key, owner, fingerprint, deadline) <==> Fenced(r.now, deadline, ops, key, owner)
    decreases |ops|
  {
    if ops != [] && !Intrudes(ops[0], r.now, deadline, key, owner) {
      LeaseStep(r, ops[0], key, owner, fingerprint, deadline);
      var deadline' := DeadlineAfter(r.now, deadline, ops[0], key, owner);
      assert StillLeased(NowAfter(r.now, ops[0]), deadline', ops[1..], key, owner);
      ExclusiveIffFenced(Apply(r, ops[0]).0, ops[1..], key, owner, fingerprint, deadline');
    }
  }

  lemma AcquiredIsLeased(r: Redis, key: string, owner: string, fingerprint: string, ttl: int)
    ensures
      var (r', reply) := Apply(r, TrySet(key, owner, fingerprint, ttl));
      reply == Acquired ==> Leased(r', key, owner, fingerprint, r.now + ttl)
  {
  }

  /**
   * Between two acquisitions of one key, the first owner completed, released or let its lease lapse,
   * or a late write landed outside its writer's lease.
   */
  lemma TwoAcquisitionsNeedAnEnd(r: Redis, key: string, first: string, second: string, f1: string, f2: string,
                                 ttl1: int, ttl2: int, between: seq<Op>)
    requires Apply(r, TrySet(key, first, f1, ttl1)).1 == Acquired
    requires Apply(Run(Apply(r, TrySet(key, first, f1, ttl1)).0, between), TrySet(key, second, f2, ttl2)).1 == Acquired
    ensures !StillLeased(r.now, r.now + ttl1, between, key, first) || !Fenced(r.now, r.now + ttl1, between, key, first)
  {
    AcquiredIsLeased(r, key, first, f1, ttl1);
    if StillLeased(r.now, r.now + ttl1, between, key, first) && Fenced(r.now, r.now + ttl1, between, key, first) {
      LockIsExclusive(Apply(r, TrySet(key, first, f1, ttl1)).0, between, key, first, f1, r.now + ttl1);
    }
  }

  // ----- the stored response -----

  predicate Stored(r: Redis, key: string, fingerprint: string, response: Payload, until: int) {
    && Live(r, key) == Some(Record(Completed, None, fingerprint, Some(response)))
    && r.entries[FullKey(key)].expiresAt == until
  }

  function Elapsed(ops: seq<Op>): nat {
    if ops == [] then 0 else (if ops[0].Tick? then ops[0].elapsed else 0) + Elapsed(ops[1..])
  }

  predicate Replays(op: Op, reply: Reply, key: string, fingerprint: string, response: Payload) {
    IsAbout(op, key) ==>
      match op
      case TrySet(_, _, _, _) => reply == Refused || reply == RedisError
      case Look(_) => reply == SeenCompleted(fingerprint, response)
      case Complete(_, _, _, _) => reply == Answer(false)
      case Release(_, _) => reply == Answer(false)
      case Extend(_, _, _) => reply == Answer(false)
      case _ => true
  }

  /** A late write on the key that changes what is stored. */
  predicate Disturbs(op: Op, now: int, key: string, fingerprint: string, response: Payload, until: int) {
    match op
    case LateSet(k, _, f, other, ttl) =>
      k == key && ttl > 0 && !(f == fingerprint && other == response && now + ttl == until)
    case LateDel(k, _) => k == key
    case LateExpire(k, _, ttl) => k == key && now + ttl != until
    case _ => false
  }

  predicate Undisturbed(now: int, ops: seq<Op>, key: string, fingerprint: string, response: Payload, until: int)
    decreases |ops|
  {
    ops == [] ||
    (!Disturbs(ops[0], now, key, fingerprint, response, until) &&
     Undisturbed(NowAfter(now, ops[0]), ops[1..], key, fingerprint, response, until))
  }

  predicate StoredThroughout(r: Redis, ops: seq<Op>, key: string, fingerprint: string, response: Payload, until: int)
    decreases |ops|
  {
    && Stored(r, key, fingerprint, response, until)
    && (ops != [] ==> StoredThroughout(Apply(r, ops[0]).0, ops[1..], key, fingerprint, response, until))
  }

  lemma StoredStep(r: Redis, op: Op, key: string, fingerprint: string, response: Payload, until: int)
    requires Stored(r, key, fingerprint, response, until) && NowAfter(r.now, op) < until
    ensures Apply(r, op).0.now == NowAfter(r.now, op)
    ensures Stored(Apply(r, op).0, key, fingerprint, response, until) <==>
              !Disturbs(op, r.now, key, fingerprint, response, until)
    ensures !Disturbs(op, r.now, key, fingerprint, response, until) ==>
              Replays(op, Apply(r, op).1, key, fingerprint, response)
  {
    if !op.Tick? {
      KeysDiffer(op.key, key);
    }
  }

  /** A response stays stored until its retention lapses exactly when no late write on the key changes it. */
  lemma {:induction false} StoredIffUndisturbed(r: Redis, ops: seq<Op>, key: string, fingerprint: string,
                                                response: Payload, until: int)
    requires Stored(r, key, fingerprint, response, until) && r.now + Elapsed(ops) < until
    ensures StoredThroughout(r, ops, key, fingerprint, response, until) <==>
              Undisturbed(r.now, ops, key, fingerprint, response, until)
    decreases |ops|
  {
    if ops != [] {
      StoredStep(r, ops[0], key, fingerprint, response, until);
      if !Disturbs(ops[0], r.now, key, fingerprint, response, until) {
        StoredIffUndisturbed(Apply(r, ops[0]).0, ops[1..], key, fingerprint, response, until);
      }
    }
  }

  lemma {:induction false} StoredResponseStays(r: Redis, ops: seq<Op>, key: string, fingerprint: string,
                                               response: Payload, until: int)
    requires Stored(r, key, fingerprint, response, until) && r.now + Elapsed(ops) < until
    requires Undisturbed(r.now, ops, key, fingerprint, response, until)
    ensures forall i :: 0 <= i < |ops| ==> Replays(ops[i], Replies(r, ops)[i], key, fingerprint, response)
    ensures Stored(Run(r, ops), key, fingerprint, response, until)
    decreases |ops|
  {
    if ops != [] {
      StoredStep(r, ops[0], key, fingerprint, response, until);
      StoredResponseStays(Apply(r, ops[0]).0, ops[1..], key, fingerprint, response, until);
      forall i | 0 <= i < |ops| ensures Replays(ops[i], Replies(r, ops)[i], key, fingerprint, response) {
        if i > 0 {
          assert ops[i] == ops[1..][i - 1];
        }
      }
    }
  }

  lemma CompleteStores(held: Redis, between: seq<Op>, key: string, owner: string, fingerprint: string,
                       response: Payload, retention: int)
    requires Owns(Live(held, key), owner) ==> Live(held, key) == Some(Lock(owner, fingerprint))
    requires SplitComplete(held, between, key, owner, response, retention).1 == Answer(true)
    ensures
      var done := SplitComplete(held, between, key, owner, response, retention).0;
      Stored(done, key, fingerprint, response, done.now + retention)
  {
  }

  lemma LeasedIsLock(r: Redis, key: string, owner: string, fingerprint: string, deadline: int)
    requires Leased(r, key, owner, fingerprint, deadline)
    ensures Live(r, key) == Some(Lock(owner, fingerprint))
  {
  }

  /** As long as the owner's token is not used for another acquisition, what it owns is its first lock. */
  lemma {:induction false} OwnedIsFirstLock(r: Redis, ops: seq<Op>, key: string, owner: string, fingerprint: string)
    requires Owns(Live(r, key), owner) ==> Live(r, key) == Some(Lock(owner, fingerprint))
    requires forall i :: 0 <= i < |ops| ==> !(ops[i].TrySet? && ops[i].key == key && ops[i].owner == owner)
    ensures
      var end := Live(Run(r, ops), key);
      Owns(end, owner) ==> end == Some(Lock(owner, fingerprint))
    decreases |ops|
  {
    if ops != [] {
      if !ops[0].Tick? {
        KeysDiffer(ops[0].key, key);
      }
      OwnedIsFirstLock(Apply(r, ops[0]).0, ops[1..], key, owner, fingerprint);
    }
  }

  /**
   * The life of one request: once an attempt has acquired and its `complete` has returned true, every
   * later look, until the retention lapses or a late write changes the key, sees its own response and
   * its own fingerprint, whatever anybody did in the meantime, even between its GET and its SET, and
   * whatever anybody completes, releases or extends afterwards.
   */
  lemma CompletedReplays(r: Redis, key: string, owner: string, fingerprint: string, ttl: int, work: seq<Op>,
                         between: seq<Op>, response: Payload, retention: int, later: seq<Op>)
    requires Apply(r, TrySet(key, owner, fingerprint, ttl)).1 == Acquired
    requires forall i :: 0 <= i < |work| ==> !(work[i].TrySet? && work[i].key == key && work[i].owner == owner)
    requires
      var held := Run(Apply(r, TrySet(key, owner, fingerprint, ttl)).0, work);
      var (done, reply) := SplitComplete(held, between, key, owner, response, retention);
      && reply == Answer(true)
      && Undisturbed(done.now, later, key, fingerprint, response, done.now + retention)
    requires Elapsed(later) < retention
    ensures
      var held := Run(Apply(r, TrySet(key, owner, fingerprint, ttl)).0, work);
      var done := SplitComplete(held, between, key, owner, response, retention).0;
      forall i :: 0 <= i < |later| ==> Replays(later[i], Replies(done, later)[i], key, fingerprint, response)
  {
    hide *;
    AcquiredIsLeased(r, key, owner, fingerprint, ttl);
    var start := Apply(r, TrySet(key, owner, fingerprint, ttl)).0;
    LeasedIsLock(start, key, owner, fingerprint, r.now + ttl);
    OwnedIsFirstLock(start, work, key, owner, fingerprint);
    var held := Run(start, work);
    CompleteStores(held, between, key, owner, fingerprint, response, retention);
    var done := SplitComplete(held, between, key, owner, response, retention).0;
    StoredResponseStays(done, later, key, fingerprint, response, done.now + retention);
  }

  // ----- the acquire loop -----

  datatype AcquireResult =
    | GotLock
    | FoundInFlight(fingerprint: string)
    | FoundCompleted(fingerprint: string, response: Payload)
    | KeptChanging
    | Failed

  /** What others do between one attempt's SET and GET, and after its GET. */
  datatype Gap = Gap(between: seq<Op>, after: seq<Op>)

  /** Redis when one attempt's SET is issued, and when its GET is. */
  datatype Moment = Moment(atSet: Redis, atGet: Redis)

  datatype AcquireRun = AcquireRun(redis: Redis, result: AcquireResult, moments: seq<Moment>)

  function AcquireFrom(r: Redis, key: string, owner: string, fingerprint: string, ttl: int, gaps: nat -> Gap,
                       attempt: nat): AcquireRun
    decreases MAX_RETRIES - attempt
  {
    if attempt >= MAX_RETRIES then AcquireRun(r, KeptChanging, [])
    else
      var (r1, reply) := Apply(r, TrySet(key, owner, fingerprint, ttl));
      if reply == Acquired || reply == RedisError then
        AcquireRun(r1, if reply == Acquired then GotLock else Failed, [Moment(r, r1)])
      else
        var r2 := Run(r1, gaps(attempt).between);
        match Seen(Live(r2, key))
        case SeenCompleted(f, response) => AcquireRun(r2, FoundCompleted(f, response), [Moment(r, r2)])
        case SeenInFlight(f) => AcquireRun(r2, FoundInFlight(f), [Moment(r, r2)])
        case _ =>
          var rest := AcquireFrom(Run(r2, gaps(attempt).after), key, owner, fingerprint, ttl, gaps, attempt + 1);
          rest.(moments := [Moment(r, r2)] + rest.moments)
  }

  /** The result is what the key's state at one instant inside the call calls for. */
  predicate MatchesInstant(run: AcquireRun, key: string, ttl: int) {
    run.moments != [] &&
    var last := run.moments[|run.moments| - 1];
    match run.result
    case GotLock => Live(last.atSet, key).None?
    case FoundInFlight(f) => Seen(Live(last.atGet, key)) == SeenInFlight(f)
    case FoundCompleted(f, response) => Seen(Live(last.atGet, key)) == SeenCompleted(f, response)
    case KeptChanging => true
    case Failed => ttl <= 0
  }

  predicate Vanished(m: Moment, key: string) { Live(m.atSet, key).Some? && Live(m.atGet, key).None? }

  /** At most `left` attempts, of which all but the last found the key at their SET and not at their GET. */
  predicate RetriedOnlyWhenVanished(run: AcquireRun, key: string, left: nat) {
    && 1 <= |run.moments| <= left
    && (forall i :: 0 <= i < |run.moments| - 1 ==> Vanished(run.moments[i], key))
    && (run.result == KeptChanging <==>
          |run.moments| == left && Vanished(run.moments[|run.moments| - 1], key))
  }

  lemma OneMoreRetry(rest: AcquireRun, m: Moment, key: string, ttl: int, left: nat)
    requires MatchesInstant(rest, key, ttl) && RetriedOnlyWhenVanished(rest, key, left) && Vanished(m, key)
    ensures
      var run := rest.(moments := [m] + rest.moments);
      MatchesInstant(run, key, ttl) && RetriedOnlyWhenVanished(run, key, left + 1)
  {
    var all := [m] + rest.moments;
    assert forall i :: 0 < i < |all| ==> all[i] == rest.moments[i - 1];
  }

  lemma FirstAttemptDecides(r: Redis, key: string, owner: string, fingerprint: string, ttl: int,
                            gaps: nat -> Gap, attempt: nat)
    requires attempt < MAX_RETRIES
    requires !(ttl > 0 && Live(r, key).Some? && Live(Run(r, gaps(attempt).between), key).None?)
    ensures
      var run := AcquireFrom(r, key, owner, fingerprint, ttl, gaps, attempt);
      |run.moments| == 1 && run.result != KeptChanging && MatchesInstant(run, key, ttl)
    ensures
      var m := AcquireFrom(r, key, owner, fingerprint, ttl, gaps, attempt).moments[0];
      !Vanished(m, key)
  {
  }

  lemma VanishedKeyRetries(r: Redis, key: string, owner: string, fingerprint: string, ttl: int,
                           gaps: nat -> Gap, attempt: nat)
    requires attempt < MAX_RETRIES
    requires ttl > 0 && Live(r, key).Some? && Live(Run(r, gaps(attempt).between), key).None?
    ensures
      var r2 := Run(r, gaps(attempt).between);
      var rest := AcquireFrom(Run(r2, gaps(attempt).after), key, owner, fingerprint, ttl, gaps, attempt + 1);
      && Vanished(Moment(r, r2), key)
      && AcquireFrom(r, key, owner, fingerprint, ttl, gaps, attempt) == rest.(moments := [Moment(r, r2)] + rest.moments)
      && (attempt + 1 == MAX_RETRIES ==> rest.result == KeptChanging && rest.moments == [])
  {
  }

  /**
   * Whatever happens between its commands, `acquire` ends within five attempts, every result but the
   * error describes the key at one single instant, every attempt before the last found the key at
   * its SET and not at its GET, and the error comes exactly when all five did.
   */
  lemma {:induction false} AcquireSeesOneInstant(r: Redis, key: string, owner: string, fingerprint: string,
                                                 ttl: int, gaps: nat -> Gap, attempt: nat)
    requires attempt < MAX_RETRIES
    ensures
      var run := AcquireFrom(r, key, owner, fingerprint, ttl, gaps, attempt);
      && MatchesInstant(run, key, ttl)
      && RetriedOnlyWhenVanished(run, key, MAX_RETRIES - attempt)
    decreases MAX_RETRIES - attempt
  {
    var r2 := Run(r, gaps(attempt).between);
    if ttl > 0 && Live(r, key).Some? && Live(r2, key).None? {
      VanishedKeyRetries(r, key, owner, fingerprint, ttl, gaps, attempt);
      hide AcquireFrom, Run, Live;
      var rest := AcquireFrom(Run(r2, gaps(attempt).after), key, owner, fingerprint, ttl, gaps, attempt + 1);
      if attempt + 1 < MAX_RETRIES {
        AcquireSeesOneInstant(Run(r2, gaps(attempt).after), key, owner, fingerprint, ttl, gaps, attempt + 1);
        OneMoreRetry(rest, Moment(r, r2), key, ttl, MAX_RETRIES - attempt - 1);
      }
    } else {
      FirstAttemptDecides(r, key, owner, fingerprint, ttl, gaps, attempt);
    }
  }

  /** The whole call makes one to five attempts, and fails exactly when all five saw the key vanish. */
  lemma AcquireTriesFiveTimes(r: Redis, key: string, owner: string, fingerprint: string, ttl: int, gaps: nat -> Gap)
    ensures
      var run := AcquireFrom(r, key, owner, fingerprint, ttl, gaps, 0);
      && 1 <= |run.moments| <= 5
      && (run.result == KeptChanging <==>
            |run.moments| == 5 && forall i :: 0 <= i < 5 ==> Vanished(run.moments[i], key))
  {
    AcquireSeesOneInstant(r, key, owner, fingerprint, ttl, gaps, 0);
    hide AcquireFrom, Vanished, MatchesInstant;
  }

  /** While somebody's lease lasts, the whole loop answers in-flight with that owner's fingerprint. */
  lemma AcquireDuringLease(r: Redis, key: string, holder: string, held: string, deadline: int,
                           owner: string, fingerprint: string, ttl: int, gaps: nat -> Gap)
    requires Leased(r, key, holder, held, deadline) && ttl > 0
    requires StillLeased(r.now, deadline, gaps(0).between, key, holder)
    requires Fenced(r.now, deadline, gaps(0).between, key, holder)
    ensures AcquireFrom(r, key, owner, fingerprint, ttl, gaps, 0).result == FoundInFlight(held)
  {
    LockIsExclusive(r, gaps(0).between, key, holder, held, deadline);
  }

  /** Until the retention lapses, the whole loop answers completed with the stored response. */
  lemma AcquireAfterCompletion(r: Redis, key: string, stored: string, response: Payload, until: int,
                               owner: string, fingerprint: string, ttl: int, gaps: nat -> Gap)
    requires Stored(r, key, stored, response, until) && ttl > 0
    requires r.now + Elapsed(gaps(0).between) < until
    requires Undisturbed(r.now, gaps(0).between, key, stored, response, until)
    ensures AcquireFrom(r, key, owner, fingerprint, ttl, gaps, 0).result == FoundCompleted(stored, response)
  {
    StoredResponseStays(r, gaps(0).between, key, stored, response, until);
  }

  // ----- GET and write with others in between -----

  /** `complete` as it is: what GET found decides, and the SET comes after whatever others did. */
  function SplitComplete(r: Redis, between: seq<Op>, key: string, owner: string, response: Payload,
                         ttl: int): (Redis, Reply) {
    var found, r1 := Live(r, key), Run(r, between);
    if !Owns(found, owner) then (r1, Answer(false))
    else if ttl <= 0 then (r1, RedisError)
    else (Put(r1, key, Record(Completed, None, found.value.fingerprint, Some(response)), ttl), Answer(true))
  }

  /** `release` as it is: DEL removes whatever the key holds by then. */
  function SplitRelease(r: Redis, between: seq<Op>, key: string, owner: string): (Redis, Reply) {
    var r1 := Run(r, between);
    if !Owns(Live(r, key), owner) || Live(r1, key).None? then (r1, Answer(false))
    else (r1.(entries := r1.entries - {FullKey(key)}), Answer(true))
  }

  /** `extend` as it is: PEXPIRE moves the expiry of whatever the key holds by then. */
  function SplitExtend(r: Redis, between: seq<Op>, key: string, owner: string, ttl: int): (Redis, Reply) {
    var r1 := Run(r, between);
    if !Owns(Live(r, key), owner) || Live(r1, key).None? then (r1, Answer(false))
    else (Put(r1, key, Live(r1, key).value, ttl), Answer(true))
  }

  /** An operation whose check passed is the others' steps followed by its late write. */
  lemma SplitIsLateWrite(r: Redis, between: seq<Op>, key: string, owner: string, response: Payload, ttl: int)
    requires Owns(Live(r, key), owner)
    ensures SplitComplete(r, between, key, owner, response, ttl) ==
              Apply(Run(r, between), LateSet(key, owner, Live(r, key).value.fingerprint, response, ttl))
    ensures SplitRelease(r, between, key, owner) == Apply(Run(r, between), LateDel(key, owner))
    ensures SplitExtend(r, between, key, owner, ttl) == Apply(Run(r, between), LateExpire(key, owner, ttl))
  {
  }

  /** The owner itself only extends meanwhile, and nobody else uses its token. */
  predicate OnlyExtends(ops: seq<Op>, key: string, owner: string) {
    forall i :: 0 <= i < |ops| ==>
      !Ends(ops[i], key, owner) && !(ops[i].TrySet? && ops[i].key == key && ops[i].owner == owner)
  }

  lemma {:induction false} LostStaysLost(r: Redis, ops: seq<Op>, key: string, owner: string)
    requires !Owns(Live(r, key), owner) && OnlyExtends(ops, key, owner)
    ensures !Owns(Live(Run(r, ops), key), owner)
    decreases |ops|
  {
    if ops != [] {
      if !ops[0].Tick? {
        KeysDiffer(ops[0].key, key);
      }
      assert OnlyExtends(ops[1..], key, owner);
      LostStaysLost(Apply(r, ops[0]).0, ops[1..], key, owner);
    }
  }

  /**
   * Fencing holds exactly while the lease does: the owner still holds the key when its write comes
   * if and only if the clock stayed below the deadline all the way.
   */
  lemma {:induction false} FencedIffStillLeased(r: Redis, ops: seq<Op>, key: string, owner: string,
                                                fingerprint: string, deadline: int)
    requires Leased(r, key, owner, fingerprint, deadline) && OnlyExtends(ops, key, owner)
    requires Fenced(r.now, deadline, ops, key, owner)
    ensures Owns(Live(Run(r, ops), key), owner) <==> StillLeased(r.now, deadline, ops, key, owner)
    decreases |ops|
  {
    if ops != [] {
      LeaseStep(r, ops[0], key, owner, fingerprint, deadline);
      assert OnlyExtends(ops[1..], key, owner);
      var r', deadline' := Apply(r, ops[0]).0, DeadlineAfter(r.now, deadline, ops[0], key, owner);
      if r'.now < deadline' {
        FencedIffStillLeased(r', ops[1..], key, owner, fingerprint, deadline');
      } else {
        LostStaysLost(r', ops[1..], key, owner);
      }
    }
  }

  /** Within the lease, each split operation is the others' steps followed by the atomic one. */
  lemma SplitIsAtomicWithinLease(r: Redis, between: seq<Op>, key: string, owner: string, fingerprint: string,
                                 deadline: int,
                                 response: Payload, ttl: int)
    requires Leased(r, key, owner, fingerprint, deadline)
    requires StillLeased(r.now, deadline, between, key, owner) && Fenced(r.now, deadline, between, key, owner)
    ensures SplitComplete(r, between, key, owner, response, ttl) ==
              Apply(Run(r, between), Complete(key, owner, response, ttl))
    ensures SplitRelease(r, between, key, owner) == Apply(Run(r, between), Release(key, owner))
    ensures SplitExtend(r, between, key, owner, ttl) == Apply(Run(r, between), Extend(key, owner, ttl))
  {
    LockIsExclusive(r, between, key, owner, fingerprint, deadline);
  }

  /** With nothing in between, each split operation is the atomic one, whoever calls it. */
  lemma SplitWithNothingBetween(r: Redis, key: string, owner: string, response: Payload, ttl: int)
    ensures SplitComplete(r, [], key, owner, response, ttl) == Apply(r, Complete(key, owner, response, ttl))
    ensures SplitRelease(r, [], key, owner) == Apply(r, Release(key, owner))
    ensures SplitExtend(r, [], key, owner, ttl) == Apply(r, Extend(key, owner, ttl))
  {
    assert Run(r, []) == r;
  }

  /** Past the lease, `complete` overwrites the next owner's lock and still answers true. */
  lemma StalledCompleteOverwritesNextOwner()
    ensures
      var r := Put(Redis(0, map[]), "k", Lock("first", "f"), 10);
      var between := [Tick(10), TrySet("k", "second", "g", 10)];
      && Owns(Live(Run(r, between), "k"), "second")
      && SplitComplete(r, between, "k", "first", "late", 60).1 == Answer(true)
      && Live(SplitComplete(r, between, "k", "first", "late", 60).0, "k") ==
           Some(Record(Completed, None, "f", Some("late")))
  {
    var r := Put(Redis(0, map[]), "k", Lock("first", "f"), 10);
    var between := [Tick(10), TrySet("k", "second", "g", 10)];
    var r1 := Apply(r, between[0]).0;
    var r2 := Apply(r1, TrySet("k", "second", "g", 10)).0;
    assert between[1..] == [TrySet("k", "second", "g", 10)] && between[1..][1..] == [];
    assert Run(r1, between[1..]) == Run(r2, []) == r2;
  }

  /** Past the lease, `release` deletes the next owner's lock, and a third acquires while that one's lease lasts. */
  lemma StalledReleaseAdmitsThird()
    ensures
      var r := Put(Redis(0, map[]), "k", Lock("first", "f"), 10);
      var between := [Tick(10), TrySet("k", "second", "g", 10)];
      var late := SplitRelease(r, between, "k", "first").0;
      && Leased(Run(r, between), "k", "second", "g", 20) && late.now < 20
      && Apply(late, TrySet("k", "third", "h", 10)).1 == Acquired
  {
    var r := Put(Redis(0, map[]), "k", Lock("first", "f"), 10);
    var between := [Tick(10), TrySet("k", "second", "g", 10)];
    var r1 := Apply(r, between[0]).0;
    var r2 := Apply(r1, TrySet("k", "second", "g", 10)).0;
    assert between[1..] == [TrySet("k", "second", "g", 10)] && between[1..][1..] == [];
    assert Run(r1, between[1..]) == Run(r2, []) == r2;
  }
}
