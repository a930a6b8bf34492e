/** The idempotency middleware: done keys and lock keys in Redis, rows in the database, and requests
    that take one Redis command or SQL statement at a time. */
module Idempotency {
  import opened Basics

  type Time = int
  type Key = string
  type RequestId = nat

  const LOCK_TTL_S := 30
  const RESPONSE_TTL_S := 72 * 3600

  /** `readable`: the stored text can be parsed. */
  datatype Cached = Cached(status: nat, body: string, readable: bool, expires: Time)

  /** `Garbled`: the request has read a done key it cannot parse and is about to delete that key.
      A handler section runs from the lock to its release; `lock` is the expiry the request set. */
  datatype Phase =
    | Arrived
    | Garbled
    | RedisMissed
    | Missed
    | Replayed(status: nat, body: string)
    | InFlight409
    | Unguarded
    | Handling(lock: Option<Time>)
    | Answered(lock: Option<Time>, status: nat, body: string)
    | DoneTried(lock: Option<Time>, status: nat, body: string)
    | RowTried(lock: Option<Time>, status: nat, body: string)
    | Sent(status: nat, body: string)
    | Crashed

  /** `redis`: whether Redis was ready when the request came in. */
  datatype Request = Request(key: Key, redis: bool, phase: Phase)

  datatype Store = Store(done: map<Key, Cached>, locks: map<Key, Time>, rows: map<Key, Cached>)

  datatype State = State(now: Time, store: Store, requests: map<RequestId, Request>)

  datatype Step =
    | Tick(seconds: nat)
    | Arrive(r: RequestId, key: Key, redis: bool)
    | GetDone(r: RequestId, ok: bool)          // ok: the command or statement did not fail
    | DropDone(r: RequestId, ok: bool)
    | GetRow(r: RequestId, ok: bool)
    | TryLock(r: RequestId, ok: bool)
    | Answer(r: RequestId, status: nat, body: string)
    | StoreDone(r: RequestId, ok: bool)
    | StoreRow(r: RequestId, ok: bool)
    | Release(r: RequestId, ok: bool)
    | Crash(r: RequestId)

  predicate Success(status: nat) { 200 <= status < 300 }

  predicate Live(m: map<Key, Cached>, k: Key, now: Time) { k in m && now < m[k].expires }

  predicate Locked(locks: map<Key, Time>, k: Key, now: Time) { k in locks && now < locks[k] }

  // ----- one request, one command -----

  /** The response a request has produced, as it is stored at `now`. */
  function FreshResponse(phase: Phase, now: Time): Cached
    requires phase.Answered? || phase.DoneTried?
  {
    Cached(phase.status, phase.body, true, now + RESPONSE_TTL_S)
  }

  /** What a request does next: its new phase and the store after the command. */
  function Advance(now: Time, s: Store, q: Request, step: Step): (Phase, Store) {
    var k, phase := q.key, q.phase;
    match step
    case GetDone(_, ok) =>
      if phase != Arrived then (phase, s)
      else if !q.redis || !ok || !Live(s.done, k, now) then (RedisMissed, s)
      else if !s.done[k].readable then (Garbled, s)
      else (Replayed(s.done[k].status, s.done[k].body), s)
    case DropDone(_, ok) =>
      if phase != Garbled then (phase, s) else (RedisMissed, if ok then s.(done := s.done - {k}) else s)
    case GetRow(_, ok) =>
      if phase != RedisMissed then (phase, s)
      else if ok && Live(s.rows, k, now) && s.rows[k].readable then (Replayed(s.rows[k].status, s.rows[k].body), s)
      else (Missed, s)
    case TryLock(_, ok) =>
      if phase != Missed then (phase, s)
      else if !q.redis then (Handling(None), s)
      else if !ok then (Unguarded, s)
      else if Locked(s.locks, k, now) then (InFlight409, s)
      else (Handling(Some(now + LOCK_TTL_S)), s.(locks := s.locks[k := now + LOCK_TTL_S]))
    case Answer(_, status, body) =>
      if phase.Handling? then (Answered(phase.lock, status, body), s)
      else if phase.Unguarded? then (Sent(status, body), s)
      else (phase, s)
    case StoreDone(_, ok) =>
      if !phase.Answered? then (phase, s)
      else
        (DoneTried(phase.lock, phase.status, phase.body),
         if Success(phase.status) && q.redis && ok
         then s.(done := s.done[k := FreshResponse(phase, now)]) else s)
    case StoreRow(_, ok) =>
      if !phase.DoneTried? then (phase, s)
      else
        (RowTried(phase.lock, phase.status, phase.body),
         if Success(phase.status) && ok
         then s.(rows := s.rows[k := if k in s.rows then FreshResponse(phase, now).(expires := s.rows[k].expires)
                                     else FreshResponse(phase, now)]) else s)
    case Release(_, ok) =>
      if !phase.RowTried? then (phase, s)
      else (Sent(phase.status, phase.body), if phase.lock.Some? && ok then s.(locks := s.locks - {k}) else s)
    case Crash(_) => (Crashed, s)
    case _ => (phase, s)
  }

  function Apply(s: State, step: Step): State {
    match step
    case Tick(seconds) => s.(now := s.now + seconds)
    case Arrive(r, key, redis) =>
      if r in s.requests then s else s.(requests := s.requests[r := Request(key, redis, Arrived)])
    case _ =>
      if step.r !in s.requests then s
      else
        var q := s.requests[step.r];
        var (phase, store) := Advance(s.now, s.store, q, step);
        s.(store := store, requests := s.requests[step.r := q.(phase := phase)])
  }

  function Exec(s: State, steps: seq<Step>): State
    decreases |steps|
  {
    if steps == [] then s else Exec(Apply(s, steps[0]), steps[1..])
  }

  // ----- the middleware as the code runs it -----

  class Middleware {
    var done: map<Key, Cached>
    var locks: map<Key, Time>
    var rows: map<Key, Cached>

    ghost function Stored(): Store
      reads this
    {
      Store(done, locks, rows)
    }

    constructor ()
      ensures Stored() == Store(map[], map[], map[])
    {
      done, locks, rows := map[], map[], map[];
    }

    /** runIdempotency up to the handler, without interruption: the request's phase when it is over. */
    method RunIdempotency(now: Time, key: Key, redis: bool, getOk: bool, dropOk: bool, rowOk: bool, lockOk: bool)
      returns (phase: Phase)
      modifies this
      ensures var q := Request(key, redis, Arrived);
              var (p1, s1) := Advance(now, old(Stored()), q, GetDone(0, getOk));
              var (p2, s2) := Advance(now, s1, q.(phase := p1), DropDone(0, dropOk));
              var (p3, s3) := Advance(now, s2, q.(phase := p2), GetRow(0, rowOk));
              (phase, Stored()) == Advance(now, s3, q.(phase := p3), TryLock(0, lockOk))
      ensures var hit := redis && getOk && key in old(done) && now < old(done)[key].expires;
              var good := hit && old(done)[key].readable;
              var found := rowOk && key in old(rows) && now < old(rows)[key].expires && old(rows)[key].readable;
              && rows == old(rows)
              && done == (if hit && !good && dropOk then old(done) - {key} else old(done))
              && match phase
                 case Replayed(status, body) =>
                   && (good || found) && locks == old(locks)
                   && (status, body) == (if good then (old(done)[key].status, old(done)[key].body)
                                         else (old(rows)[key].status, old(rows)[key].body))
                 case Handling(None) => !good && !found && !redis && locks == old(locks)
                 case Handling(Some(lock)) =>
                   && !good && !found && redis && lockOk && lock == now + 30
                   && (key in old(locks) ==> old(locks)[key] <= now) && locks == old(locks)[key := lock]
                 case InFlight409 =>
                   && !good && !found && redis && lockOk
                   && key in old(locks) && now < old(locks)[key] && locks == old(locks)
                 case Unguarded => !good && !found && redis && !lockOk && locks == old(locks)
                 case _ => false
    {
      if redis && getOk && Live(done, key, now) {
        if done[key].readable {
          return Replayed(done[key].status, done[key].body);
        }
        if dropOk {
          done := done - {key};
        }
      }
      if rowOk && Live(rows, key, now) && rows[key].readable {
        return Replayed(rows[key].status, rows[key].body);
      }
      var lock: Option<Time> := None;
      if redis {
        if !lockOk {
          return Unguarded;
        }
        if Locked(locks, key, now) {
          return InFlight409;
        }
        lock := Some(now + LOCK_TTL_S);
        locks := locks[key := now + LOCK_TTL_S];
      }
      phase := Handling(lock);
    }

    /** The wrapped res.json: cache a 2xx response, then release the lock in any case. */
    method CaptureResponse(now: Time, key: Key, redis: bool, lock: Option<Time>, status: nat, body: string,
                           doneOk: bool, rowOk: bool, releaseOk: bool)
      modifies this
      ensures var q := Request(key, redis, Answered(lock, status, body));
              var (p1, s1) := Advance(now, old(Stored()), q, StoreDone(0, doneOk));
              var (p2, s2) := Advance(now, s1, q.(phase := p1), StoreRow(0, rowOk));
              (Sent(status, body), Stored()) == Advance(now, s2, q.(phase := p2), Release(0, releaseOk))
      ensures var stores := 200 <= status <= 299;
              var fresh72h := Cached(status, body, true, now + 259_200);
              && done == (if stores && redis && doneOk then old(done)[key := fresh72h] else old(done))
              && rows == (if !stores || !rowOk then old(rows)
                          else if key in old(rows) then old(rows)[key := fresh72h.(expires := old(rows)[key].expires)]
                          else old(rows)[key := fresh72h])
              && locks == (if lock.Some? && releaseOk then old(locks) - {key} else old(locks))
    {
      if Success(status) {
        if redis && doneOk {
          done := done[key := Cached(status, body, true, now + RESPONSE_TTL_S)];
        }
        if rowOk {
          var expires := if key in rows then rows[key].expires else now + RESPONSE_TTL_S;
          rows := rows[key := Cached(status, body, true, expires)];
        }
      }
      if lock.Some? && releaseOk {
        locks := locks - {key};
      }
    }
  }

  // ----- the protocol, phase by phase -----

  /** The step that belongs to a phase, apart from a crash. */
  predicate Belongs(step: Step, phase: Phase) {
    match phase
    case Arrived => step.GetDone?
    case Garbled => step.DropDone?
    case RedisMissed => step.GetRow?
    case Missed => step.TryLock?
    case Unguarded => step.Answer?
    case Handling(_) => step.Answer?
    case Answered(_, _, _) => step.StoreDone?
    case DoneTried(_, _, _) => step.StoreRow?
    case RowTried(_, _, _) => step.Release?
    case _ => false
  }

  /** Every request goes through the protocol in its order: each phase waits for its own step, other steps
      do nothing to the request or the store, and a request that is over stays so but for a crash. */
  lemma PhasesMoveInOrder(now: Time, s: Store, q: Request, step: Step)
    requires !step.Tick? && !step.Arrive?
    ensures var (phase, s') := Advance(now, s, q, step);
            if step.Crash? then phase == Crashed && s' == s
            else if !Belongs(step, q.phase) then phase == q.phase && s' == s
            else match q.phase
                 case Arrived => phase == RedisMissed || phase == Garbled || phase.Replayed?
                 case Garbled => phase == RedisMissed
                 case RedisMissed => phase == Missed || phase.Replayed?
                 case Missed => phase == Unguarded || phase == InFlight409 || phase.Handling?
                 case Unguarded => phase == Sent(step.status, step.body)
                 case Handling(lock) => phase == Answered(lock, step.status, step.body)
                 case Answered(lock, status, body) => phase == DoneTried(lock, status, body)
                 case DoneTried(lock, status, body) => phase == RowTried(lock, status, body)
                 case RowTried(_, status, body) => phase == Sent(status, body)
                 case _ => false
  {
  }

  // ----- mutual exclusion -----

  /** The request is between entering its handler and the release of its lock. */
  predicate InSection(q: Request) {
    q.phase.Unguarded? || q.phase.Handling? || q.phase.Answered? || q.phase.DoneTried? || q.phase.RowTried?
  }

  /** Redis answers every command of the run. */
  predicate RedisStaysUp(steps: seq<Step>) {
    forall x :: x in steps ==>
      && (x.Arrive? ==> x.redis)
      && (x.GetDone? || x.DropDone? || x.TryLock? || x.StoreDone? || x.Release? ==> x.ok)
  }

  /** The database answers every statement of the run. */
  predicate DatabaseStaysUp(steps: seq<Step>) {
    forall x :: x in steps ==> (x.GetRow? || x.StoreRow? ==> x.ok)
  }

  /** No section of the key outlasts the lock it was entered with. */
  predicate InTime(s: State, k: Key) {
    forall r :: r in s.requests && WillRelease(s.requests[r], k) ==> s.now < s.requests[r].phase.lock.value
  }

  predicate AlwaysInTime(s: State, steps: seq<Step>, k: Key)
    decreases |steps|
  {
    InTime(s, k) && (steps != [] ==> AlwaysInTime(Apply(s, steps[0]), steps[1..], k))
  }

  /** A request in its section that will delete the lock key when it releases. */
  predicate WillRelease(q: Request, k: Key) {
    q.key == k && InSection(q) && !q.phase.Unguarded? && q.phase.lock.Some?
  }

  /** The lock the request set is the one that is there. */
  predicate OwnsLock(locks: map<Key, Time>, q: Request, k: Key) {
    q.redis && (InSection(q) ==> WillRelease(q, k) && k in locks && locks[k] == q.phase.lock.value)
  }

  predicate Exclusive(s: State, k: Key) {
    && (forall r :: r in s.requests && s.requests[r].key == k ==> OwnsLock(s.store.locks, s.requests[r], k))
    && (forall r, p :: r in s.requests && p in s.requests ==> Apart(s, r, p, k))
  }

  predicate Apart(s: State, r: RequestId, p: RequestId, k: Key)
    requires r in s.requests && p in s.requests
  {
    s.requests[r].key == s.requests[p].key == k && InSection(s.requests[r]) && InSection(s.requests[p]) ==> r == p
  }

  /** The step's own request keeps its lock in step with the lock key, and enters its section only over
      a key nobody holds. */
  lemma OwnStep(now: Time, store: Store, q: Request, step: Step)
    requires OwnsLock(store.locks, q, q.key) && RedisStaysUp([step])
    ensures var (phase, store') := Advance(now, store, q, step);
            var q' := q.(phase := phase);
            && OwnsLock(store'.locks, q', q.key)
            && (InSection(q') && !InSection(q) ==> !Locked(store.locks, q.key, now))
            && (store'.locks == store.locks || InSection(q) || InSection(q'))
  {
    assert step in [step];
  }

  /** A step touches the lock of its own request's key only. */
  lemma OtherLocksStay(now: Time, store: Store, q: Request, step: Step, k: Key)
    requires k != q.key
    ensures var (_, store') := Advance(now, store, q, step);
            (k in store'.locks <==> k in store.locks) && (k in store.locks ==> store'.locks[k] == store.locks[k])
  {
  }

  lemma StepKeepsLocked(s: State, step: Step, r: RequestId, k: Key)
    requires Exclusive(s, k) && InTime(s, k) && RedisStaysUp([step])
    requires r in Apply(s, step).requests && Apply(s, step).requests[r].key == k
    ensures OwnsLock(Apply(s, step).store.locks, Apply(s, step).requests[r], k)
  {
    assert step in [step];
    if r in s.requests {
      assert OwnsLock(s.store.locks, s.requests[r], k);
      if !step.Tick? && step.r in s.requests {
        assert Apart(s, r, step.r, k);
        if s.requests[step.r].key == k {
          OwnStep(s.now, s.store, s.requests[step.r], step);
        } else {
          OtherLocksStay(s.now, s.store, s.requests[step.r], step, k);
        }
      }
    }
  }

  lemma StepKeepsApart(s: State, step: Step, r: RequestId, p: RequestId, k: Key)
    requires Exclusive(s, k) && InTime(s, k) && RedisStaysUp([step])
    requires r in Apply(s, step).requests && p in Apply(s, step).requests
    ensures Apart(Apply(s, step), r, p, k)
  {
    if r in s.requests && p in s.requests && s.requests[r].key == s.requests[p].key == k {
      assert Apart(s, r, p, k);
      OwnStep(s.now, s.store, s.requests[r], step);
      OwnStep(s.now, s.store, s.requests[p], step);
    }
  }

  lemma StepKeepsExclusive(s: State, step: Step, k: Key)
    requires Exclusive(s, k) && InTime(s, k) && RedisStaysUp([step])
    ensures Exclusive(Apply(s, step), k)
  {
    var s' := Apply(s, step);
    forall r | r in s'.requests && s'.requests[r].key == k ensures OwnsLock(s'.store.locks, s'.requests[r], k) {
      StepKeepsLocked(s, step, r, k);
    }
    forall r, p | r in s'.requests && p in s'.requests ensures Apart(s', r, p, k) {
      StepKeepsApart(s, step, r, p, k);
    }
  }

  /** While Redis stays up and every section of a scoped key ends before its lock expires, two requests
      with that key are never in their handlers at once, whatever happens to other keys. */
  lemma {:induction false} SectionsNeverOverlap(s: State, steps: seq<Step>, k: Key)
    requires Exclusive(s, k) && RedisStaysUp(steps) && AlwaysInTime(s, steps, k)
    ensures Exclusive(Exec(s, steps), k)
    decreases |steps|
  {
    if steps == [] {
    } else {
      assert RedisStaysUp([steps[0]]) && RedisStaysUp(steps[1..]);
      StepKeepsExclusive(s, steps[0], k);
      SectionsNeverOverlap(Apply(s, steps[0]), steps[1..], k);
    }
  }

  // ----- replay -----

  /** The step stores a 2xx response for the key in Redis. */
  predicate Stores(s: State, step: Step, k: Key) {
    && step.StoreDone? && step.ok && step.r in s.requests
    && var q := s.requests[step.r];
    q.key == k && q.redis && q.phase.Answered? && Success(q.phase.status)
  }

  /** The response stored last for the key in a run, with its expiry; `before` if there was none. */
  function LastStored(s: State, steps: seq<Step>, k: Key, before: Option<Cached>): Option<Cached>
    decreases |steps|
  {
    if steps == [] then before
    else
      var last := if Stores(s, steps[0], k) then Some(FreshResponse(s.requests[steps[0].r].phase, s.now)) else before;
      LastStored(Apply(s, steps[0]), steps[1..], k, last)
  }

  function Lookup(m: map<Key, Cached>, k: Key): Option<Cached> { if k in m then Some(m[k]) else None }

  /** Every done key can be read, and no request is about to delete one. */
  predicate Clean(s: State) {
    && (forall k :: k in s.store.done ==> s.store.done[k].readable)
    && (forall r :: r in s.requests ==> s.requests[r].phase != Garbled)
  }

  lemma DoneStep(s: State, step: Step, k: Key)
    requires Clean(s)
    ensures Clean(Apply(s, step))
    ensures Lookup(Apply(s, step).store.done, k) ==
            if Stores(s, step, k) then Some(FreshResponse(s.requests[step.r].phase, s.now))
            else Lookup(s.store.done, k)
  {
  }

  lemma {:induction false} DoneIsLastStored(s: State, steps: seq<Step>, k: Key)
    requires Clean(s)
    ensures Lookup(Exec(s, steps).store.done, k) == LastStored(s, steps, k, Lookup(s.store.done, k))
    ensures Clean(Exec(s, steps))
    decreases |steps|
  {
    if steps == [] {
    } else {
      DoneStep(s, steps[0], k);
      DoneIsLastStored(Apply(s, steps[0]), steps[1..], k);
    }
  }

  /** A lookup replays exactly the most recently stored 2xx response while that is unexpired, and
      goes on to the database otherwise. */
  lemma LookupReplaysLastStored(s: State, steps: seq<Step>, r: RequestId)
    requires Clean(s) && s.store.done == map[]
    requires var s' := Exec(s, steps); r in s'.requests && s'.requests[r].phase == Arrived && s'.requests[r].redis
    ensures var s' := Exec(s, steps);
            var last := LastStored(s, steps, s'.requests[r].key, None);
            Apply(s', GetDone(r, true)).requests[r].phase ==
            if last.Some? && s'.now < last.value.expires then Replayed(last.value.status, last.value.body)
            else RedisMissed
  {
    DoneIsLastStored(s, steps, Exec(s, steps).requests[r].key);
  }

  lemma {:induction false} TimeOnlyPasses(s: State, steps: seq<Step>)
    ensures s.now <= Exec(s, steps).now
    decreases |steps|
  {
    if steps == [] {
    } else {
      TimeOnlyPasses(Apply(s, steps[0]), steps[1..]);
    }
  }

  /** The database upsert keeps the expiry of a row that is already there. A response stored at `now`
      is therefore found by a database lookup within its time to live exactly when the key had no row,
      or one whose old expiry has not passed at the lookup. */
  lemma StoredRowIsFoundExactlyWhen(s: Store, now: Time, later: Time, writer: Request, reader: Request)
    requires writer.phase.DoneTried? && Success(writer.phase.status)
    requires reader.key == writer.key && reader.phase == RedisMissed
    requires now <= later < now + RESPONSE_TTL_S
    ensures var (_, s') := Advance(now, s, writer, StoreRow(0, true));
            Advance(later, s', reader, GetRow(1, true)).0 == Replayed(writer.phase.status, writer.phase.body)
            <==> (writer.key !in s.rows || later < s.rows[writer.key].expires)
  {
  }

  // ----- which requests may still execute once a response is cached -----

  predicate WillDrop(q: Request, k: Key) { q.key == k && q.phase == Garbled }

  /** Some request that has read an unreadable entry of the key has yet to delete the key. */
  predicate DropPending(s: State, k: Key) {
    exists p :: p in s.requests && WillDrop(s.requests[p], k)
  }

  /** The request has passed the Redis lookup, or makes none, or will find that its entry is deleted. */
  predicate PastRedis(s: State, q: Request) {
    || q.phase == RedisMissed
    || q.phase == Garbled
    || (q.phase == Arrived && (!q.redis || DropPending(s, q.key)))
  }

  predicate ReleasePending(s: State, k: Key) { exists p :: p in s.requests && WillRelease(s.requests[p], k) }

  /** The lock does not stop the request: it needs none, or the lock is free, runs out before `until`, or
      is still to be released. */
  predicate LockGivesWay(s: State, q: Request, until: Time) {
    || !q.redis
    || q.key !in s.store.locks
    || s.store.locks[q.key] < until
    || ReleasePending(s, q.key)
  }

  /** The key has a row that can be read, and until `until`. */
  predicate RowLasts(s: State, k: Key, until: Time) {
    k in s.store.rows && s.store.rows[k].readable && until <= s.store.rows[k].expires
  }

  predicate DoneLasts(s: State, k: Key, until: Time) {
    k in s.store.done && s.store.done[k].readable && until <= s.store.done[k].expires
  }

  /** The request has passed both lookups, or the one in Redis and the database has no answer for it that
      lasts until `until`. `db`: the database answers. */
  predicate MayMiss(s: State, q: Request, db: bool, until: Time) {
    q.phase == Missed || (PastRedis(s, q) && !(db && RowLasts(s, q.key, until)))
  }

  /** What lets a request run its handler although a response is cached until `until`. */
  predicate Loose(s: State, q: Request, db: bool, until: Time) {
    MayMiss(s, q, db, until) && LockGivesWay(s, q, until)
  }

  predicate IsOver(q: Request) { q.phase.Replayed? || q.phase == InFlight409 || q.phase.Sent? || q.phase == Crashed }

  /** The key is answered, in the database or in Redis, to whoever has not looked up. */
  predicate IsAnswered(s: State, k: Key, db: bool, until: Time) {
    (db && RowLasts(s, k, until)) || (DoneLasts(s, k, until) && !DropPending(s, k))
  }

  predicate HasNotMissed(s: State, r: RequestId, k: Key, db: bool, until: Time) {
    r in s.requests && s.requests[r].key == k ==>
      !InSection(s.requests[r]) && !MayMiss(s, s.requests[r], db, until)
  }

  /** A state from which request r cannot get into its handler before `until`: it is over, or it will be
      answered, or it will find the lock taken. */
  predicate Caught(s: State, r: RequestId, k: Key, db: bool, until: Time) {
    || (r in s.requests && IsOver(s.requests[r]))
    || (IsAnswered(s, k, db, until) && HasNotMissed(s, r, k, db, until))
    || (&& r in s.requests && s.requests[r].key == k && !InSection(s.requests[r])
        && !LockGivesWay(s, s.requests[r], until))
  }

  /** While the entry lasts, nobody reads it in vain. */
  lemma NoNewDrop(s: State, step: Step, k: Key)
    requires DoneLasts(s, k, s.now + 1) && !DropPending(s, k)
    ensures !DropPending(Apply(s, step), k)
  {
    var s' := Apply(s, step);
    forall p | p in s'.requests ensures !WillDrop(s'.requests[p], k) {
      assert p in s.requests ==> !WillDrop(s.requests[p], k);
    }
  }

  /** A lock that nobody will release stays, and stops everybody. */
  lemma LockStays(s: State, step: Step, r: RequestId, k: Key, until: Time)
    requires RedisStaysUp([step]) && s.now < until
    requires r in s.requests && s.requests[r].key == k && !InSection(s.requests[r])
    requires !LockGivesWay(s, s.requests[r], until)
    ensures var s' := Apply(s, step);
            s'.requests[r].key == k && !InSection(s'.requests[r]) && !LockGivesWay(s', s'.requests[r], until)
  {
    assert step in [step];
    var s' := Apply(s, step);
    forall p | p in s'.requests ensures !WillRelease(s'.requests[p], k) {
      assert p in s.requests ==> !WillRelease(s.requests[p], k);
    }
  }

  /** An answered key stays answered, and is not missed. */
  lemma AnswerStays(s: State, step: Step, r: RequestId, k: Key, db: bool, until: Time)
    requires RedisStaysUp([step]) && (db ==> DatabaseStaysUp([step]))
    requires s.now < until <= s.now + RESPONSE_TTL_S
    requires IsAnswered(s, k, db, until) && HasNotMissed(s, r, k, db, until)
    requires !(r in s.requests && IsOver(s.requests[r]))
    ensures var s' := Apply(s, step);
            || (r in s'.requests && IsOver(s'.requests[r]))
            || (IsAnswered(s', k, db, until) && HasNotMissed(s', r, k, db, until))
  {
    assert step in [step];
    if DoneLasts(s, k, until) && !DropPending(s, k) {
      NoNewDrop(s, step, k);
    }
  }

  lemma StaysCaughtStep(s: State, step: Step, r: RequestId, k: Key, db: bool, until: Time)
    requires RedisStaysUp([step]) && (db ==> DatabaseStaysUp([step]))
    requires s.now < until <= s.now + RESPONSE_TTL_S
    requires Caught(s, r, k, db, until)
    ensures Caught(Apply(s, step), r, k, db, until)
  {
    assert step in [step];
    if r in s.requests && IsOver(s.requests[r]) {
      assert IsOver(Apply(s, step).requests[r]);
    } else if IsAnswered(s, k, db, until) && HasNotMissed(s, r, k, db, until) {
      AnswerStays(s, step, r, k, db, until);
    } else {
      LockStays(s, step, r, k, until);
    }
  }

  lemma {:induction false} StaysCaught(s: State, steps: seq<Step>, r: RequestId, k: Key, db: bool, until: Time)
    requires RedisStaysUp(steps) && (db ==> DatabaseStaysUp(steps))
    requires Exec(s, steps).now < until <= s.now + RESPONSE_TTL_S
    requires Caught(s, r, k, db, until)
    ensures Caught(Exec(s, steps), r, k, db, until)
    decreases |steps|
  {
    if steps == [] {
    } else {
      var s1 := Apply(s, steps[0]);
      TimeOnlyPasses(s1, steps[1..]);
      assert steps[0] in steps;
      StaysCaughtStep(s, steps[0], r, k, db, until);
      StaysCaught(s1, steps[1..], r, k, db, until);
    }
  }

  /** The run, with Redis up throughout, brings request r into its handler before `until`. */
  predicate Executes(s: State, steps: seq<Step>, r: RequestId, k: Key, db: bool, until: Time) {
    var s' := Exec(s, steps);
    && RedisStaysUp(steps) && (db ==> DatabaseStaysUp(steps))
    && s'.now < until
    && r in s'.requests && s'.requests[r].key == k && InSection(s'.requests[r])
  }

  ghost predicate MayExecute(s: State, r: RequestId, k: Key, db: bool, until: Time) {
    exists steps :: Executes(s, steps, r, k, db, until)
  }

  lemma MayAfterStep(s: State, step: Step, r: RequestId, k: Key, db: bool, until: Time)
    requires RedisStaysUp([step]) && (db ==> DatabaseStaysUp([step]))
    requires MayExecute(Apply(s, step), r, k, db, until)
    ensures MayExecute(s, r, k, db, until)
  {
    var rest :| Executes(Apply(s, step), rest, r, k, db, until);
    var steps := [step] + rest;
    assert steps[1..] == rest && step in [step];
    assert Executes(s, steps, r, k, db, until);
  }

  lemma ExecutesFromSection(s: State, r: RequestId, k: Key, db: bool, until: Time)
    requires s.now < until && r in s.requests && s.requests[r].key == k && InSection(s.requests[r])
    ensures MayExecute(s, r, k, db, until)
  {
    assert Executes(s, [], r, k, db, until);
  }

  /** A request past both lookups, with no lock in its way, enters its handler. */
  lemma UnlockedMayExecute(s: State, r: RequestId, k: Key, db: bool, until: Time)
    requires r in s.requests && s.requests[r].key == k && s.requests[r].phase == Missed
    requires s.now < until && (s.requests[r].redis ==> !Locked(s.store.locks, k, s.now))
    ensures MayExecute(s, r, k, db, until)
  {
    ExecutesFromSection(Apply(s, TryLock(r, true)), r, k, db, until);
    MayAfterStep(s, TryLock(r, true), r, k, db, until);
  }

  /** How far a section is from the release of its lock. */
  function ToRelease(phase: Phase): nat {
    match phase
    case Handling(_) => 3
    case Answered(_, _, _) => 2
    case DoneTried(_, _, _) => 1
    case _ => 0
  }

  /** A section's next step, with an answer that is not stored. */
  function TowardsRelease(p: RequestId, phase: Phase): Step {
    match phase
    case Handling(_) => Answer(p, 500, "")
    case Answered(_, _, _) => StoreDone(p, true)
    case DoneTried(_, _, _) => StoreRow(p, true)
    case _ => Release(p, true)
  }

  /** The holder p goes on to its release, and then r takes the lock. */
  lemma {:induction false} ReleasedMayExecute(s: State, r: RequestId, p: RequestId, k: Key, db: bool, until: Time)
    requires r in s.requests && s.requests[r].key == k && s.requests[r].phase == Missed && s.now < until
    requires p in s.requests && WillRelease(s.requests[p], k)
    ensures MayExecute(s, r, k, db, until)
    decreases ToRelease(s.requests[p].phase)
  {
    var step := TowardsRelease(p, s.requests[p].phase);
    if step.Release? {
      UnlockedMayExecute(Apply(s, step), r, k, db, until);
    } else {
      ReleasedMayExecute(Apply(s, step), r, p, k, db, until);
    }
    MayAfterStep(s, step, r, k, db, until);
  }

  lemma MissedMayExecute(s: State, r: RequestId, k: Key, db: bool, until: Time)
    requires r in s.requests && s.requests[r].key == k && s.requests[r].phase == Missed
    requires s.now < until && LockGivesWay(s, s.requests[r], until)
    ensures MayExecute(s, r, k, db, until)
  {
    if !s.requests[r].redis || !Locked(s.store.locks, k, s.now) {
      UnlockedMayExecute(s, r, k, db, until);
    } else if s.store.locks[k] < until {
      var pause := Tick(s.store.locks[k] - s.now);
      UnlockedMayExecute(Apply(s, pause), r, k, db, until);
      MayAfterStep(s, pause, r, k, db, until);
    } else {
      var p :| p in s.requests && WillRelease(s.requests[p], k);
      ReleasedMayExecute(s, r, p, k, db, until);
    }
  }

  /** Changes at a request outside its section leave the locks and their holders as they are. */
  lemma LockStillGivesWay(s: State, s': State, r: RequestId, until: Time)
    requires r in s.requests && r in s'.requests && LockGivesWay(s, s.requests[r], until)
    requires s'.store.locks == s.store.locks && s'.requests[r].(phase := Missed) == s.requests[r].(phase := Missed)
    requires forall p :: p in s.requests && InSection(s.requests[p]) ==>
               p in s'.requests && s'.requests[p] == s.requests[p]
    ensures LockGivesWay(s', s'.requests[r], until)
  {
    if p :| p in s.requests && WillRelease(s.requests[p], s.requests[r].key) {
      assert WillRelease(s'.requests[p], s.requests[r].key);
    }
  }

  /** A request past the Redis lookup waits until the database has no answer, or cannot give it. */
  lemma RedisMissedMayExecute(s: State, r: RequestId, k: Key, db: bool, until: Time)
    requires r in s.requests && s.requests[r].key == k && s.requests[r].phase == RedisMissed
    requires s.now < until && LockGivesWay(s, s.requests[r], until)
    requires !(db && RowLasts(s, k, until))
    ensures MayExecute(s, r, k, db, until)
  {
    var pause := Tick(if db && Live(s.store.rows, k, s.now) && s.store.rows[k].readable
                      then s.store.rows[k].expires - s.now else 0);
    var s1 := Apply(s, pause);
    var s2 := Apply(s1, GetRow(r, db));
    LockStillGivesWay(s, s2, r, until);
    MissedMayExecute(s2, r, k, db, until);
    MayAfterStep(s1, GetRow(r, db), r, k, db, until);
    MayAfterStep(s, pause, r, k, db, until);
  }

  /** A step after which the request is past the Redis lookup, at the same time and with the same locks,
      holders and rows. */
  lemma PastRedisAfterStep(s: State, step: Step, r: RequestId, k: Key, db: bool, until: Time)
    requires r in s.requests && s.requests[r].key == k && !InSection(s.requests[r])
    requires s.now < until && LockGivesWay(s, s.requests[r], until) && !(db && RowLasts(s, k, until))
    requires (step.GetDone? && step.r == r) || (step.DropDone? && step.r == r)
    requires RedisStaysUp([step]) && Apply(s, step).requests[r].phase == RedisMissed
    ensures MayExecute(s, r, k, db, until)
  {
    LockStillGivesWay(s, Apply(s, step), r, until);
    RedisMissedMayExecute(Apply(s, step), r, k, db, until);
    assert step in [step];
    MayAfterStep(s, step, r, k, db, until);
  }

  lemma LooseMayExecute(s: State, r: RequestId, k: Key, db: bool, until: Time)
    requires r in s.requests && s.requests[r].key == k && s.now < until
    requires Loose(s, s.requests[r], db, until)
    ensures MayExecute(s, r, k, db, until)
  {
    match s.requests[r].phase
    case Missed => MissedMayExecute(s, r, k, db, until);
    case RedisMissed => RedisMissedMayExecute(s, r, k, db, until);
    case Garbled => PastRedisAfterStep(s, DropDone(r, true), r, k, db, until);
    case Arrived =>
      if !s.requests[r].redis {
        PastRedisAfterStep(s, GetDone(r, true), r, k, db, until);
      } else {
        var p :| p in s.requests && WillDrop(s.requests[p], k);
        var s1 := Apply(s, DropDone(p, true));
        LockStillGivesWay(s, s1, r, until);
        PastRedisAfterStep(s1, GetDone(r, true), r, k, db, until);
        MayAfterStep(s, DropDone(p, true), r, k, db, until);
      }
  }

  /** Exactly which requests can still run their handler while a response to their key is cached, Redis
      answering from now on: those past both lookups, and those past the Redis lookup (or without one, or
      sent past it by the deletion of an unreadable entry) unless the database answers and its row lasts
      as long; in each case if the lock gives way in time. All others are answered from a cache, get
      409, or wait. `until` is the expiry of the cached response. */
  lemma MayExecuteExactlyWhen(s: State, r: RequestId, k: Key, db: bool)
    requires r in s.requests && s.requests[r].key == k && !InSection(s.requests[r])
    requires k in s.store.done && s.store.done[k].readable
    requires s.now < s.store.done[k].expires <= s.now + RESPONSE_TTL_S
    ensures var until := s.store.done[k].expires;
            MayExecute(s, r, k, db, until) <==> Loose(s, s.requests[r], db, until)
  {
    var until := s.store.done[k].expires;
    if Loose(s, s.requests[r], db, until) {
      LooseMayExecute(s, r, k, db, until);
    } else if MayExecute(s, r, k, db, until) {
      var steps :| Executes(s, steps, r, k, db, until);
      StaysCaught(s, steps, r, k, db, until);
    }
  }

  /** Once a 2xx response has been stored, a request that had not looked up by then, or comes later,
      never reaches its handler before the response expires: it waits or is answered from the cache. */
  lemma LateLookupNeverExecutes(s: State, store: Step, steps: seq<Step>, r: RequestId, k: Key)
    requires Stores(s, store, k) && !DropPending(s, k) && RedisStaysUp(steps)
    requires r !in s.requests || (s.requests[r].phase == Arrived && s.requests[r].redis) || IsOver(s.requests[r])
    requires Exec(Apply(s, store), steps).now < s.now + RESPONSE_TTL_S
    ensures var s' := Exec(Apply(s, store), steps);
            r in s'.requests && s'.requests[r].key == k ==> !InSection(s'.requests[r])
  {
    var s1 := Apply(s, store);
    assert !DropPending(s1, k) by {
      assert forall p :: p in s1.requests ==> p in s.requests && !WillDrop(s.requests[p], k);
    }
    StaysCaught(s1, steps, r, k, false, s.now + RESPONSE_TTL_S);
  }

  const EMPTY := State(0, Store(map[], map[], map[]), map[])

  /** Nothing stored outlasts its time to live. */
  predicate Recent(s: State) {
    && (forall k :: k in s.store.done ==> s.store.done[k].expires <= s.now + RESPONSE_TTL_S)
    && (forall k :: k in s.store.locks ==> s.store.locks[k] <= s.now + LOCK_TTL_S)
  }

  lemma {:induction false} RunKeepsRecent(s: State, steps: seq<Step>)
    requires Recent(s)
    ensures Recent(Exec(s, steps))
    decreases |steps|
  {
    if steps == [] {
    } else {
      RunKeepsRecent(Apply(s, steps[0]), steps[1..]);
    }
  }

  /** The same for the states the middleware reaches: after any run from an empty store, failures of
      Redis and the database included, a request of a key with a cached response that has more than the
      lock's time to live left may from then on run its handler exactly if it has missed in both places,
      or in Redis and either the database fails or its row runs out before the cached response. */
  lemma RepeatsExactlyWhen(before: seq<Step>, r: RequestId, k: Key, db: bool)
    requires var s := Exec(EMPTY, before);
             && r in s.requests && s.requests[r].key == k && s.requests[r].redis && !InSection(s.requests[r])
             && k in s.store.done && s.now + LOCK_TTL_S < s.store.done[k].expires
    ensures var s := Exec(EMPTY, before);
            var until := s.store.done[k].expires;
            MayExecute(s, r, k, db, until) <==>
            || s.requests[r].phase == Missed
            || (s.requests[r].phase == RedisMissed
                && !(db && k in s.store.rows && s.store.rows[k].readable && until <= s.store.rows[k].expires))
  {
    var s := Exec(EMPTY, before);
    RunKeepsRecent(EMPTY, before);
    DoneIsLastStored(EMPTY, before, k);
    assert !DropPending(s, k);
    MayExecuteExactlyWhen(s, r, k, db);
  }

  // ----- not at most once -----

  /** The step brings a request of the key into its handler. */
  predicate Enters(s: State, step: Step, k: Key) {
    && step.TryLock? && step.r in s.requests && s.requests[step.r].key == k
    && !InSection(s.requests[step.r]) && InSection(Apply(s, step).requests[step.r])
  }

  /** The step stores a 2xx response to the key, in Redis or in the database. */
  predicate StoresAnywhere(s: State, step: Step, k: Key) {
    || Stores(s, step, k)
    || (&& step.StoreRow? && step.ok && step.r in s.requests
        && var q := s.requests[step.r];
        q.key == k && q.phase.DoneTried? && Success(q.phase.status))
  }

  function LastTime(s: State, step: Step, k: Key, last: Option<Time>): Option<Time> {
    if StoresAnywhere(s, step, k) then Some(s.now) else last
  }

  /** The step enters a handler although a response stored at `last` should still be replayed. */
  predicate IsRepeat(s: State, step: Step, k: Key, last: Option<Time>) {
    Enters(s, step, k) && last.Some? && s.now < last.value + RESPONSE_TTL_S
  }

  /** How often in a run a handler is entered within the time to live of a response stored before. */
  function Repeats(s: State, steps: seq<Step>, k: Key, last: Option<Time>): nat
    decreases |steps|
  {
    if steps == [] then 0
    else (if IsRepeat(s, steps[0], k, last) then 1 else 0)
         + Repeats(Apply(s, steps[0]), steps[1..], k, LastTime(s, steps[0], k, last))
  }

  /** Each request comes when all before it are over. */
  predicate OneAtATime(s: State, steps: seq<Step>)
    decreases |steps|
  {
    steps != [] ==>
      && (steps[0].Arrive? ==> forall r :: r in s.requests ==> IsOver(s.requests[r]))
      && OneAtATime(Apply(s, steps[0]), steps[1..])
  }

  /** Two kinds of harmless run. Redis and the database answer everything and no time passes; or Redis
      is down, the database answers everything, and requests come one at a time. */
  datatype Setting = AllUp | RedisDown

  predicate Allowed(step: Step, setting: Setting) {
    && (step.GetRow? || step.StoreRow? ==> step.ok)
    && match setting
       case AllUp => RedisStaysUp([step]) && !step.Tick?
       case RedisDown => step.Arrive? ==> !step.redis
  }

  predicate Harmless(s: State, steps: seq<Step>, setting: Setting) {
    && (forall x :: x in steps ==> Allowed(x, setting))
    && (setting == RedisDown ==> OneAtATime(s, steps))
  }

  ghost predicate MayRepeat(s: State, k: Key, last: Option<Time>, n: nat, setting: Setting) {
    exists steps :: Harmless(s, steps, setting) && Repeats(s, steps, k, last) == n
  }

  lemma RepeatsAfterStep(s: State, step: Step, k: Key, last: Option<Time>, n: nat, setting: Setting)
    requires Allowed(step, setting)
    requires setting == RedisDown && step.Arrive? ==> forall r :: r in s.requests ==> IsOver(s.requests[r])
    requires MayRepeat(Apply(s, step), k, LastTime(s, step, k, last), n, setting)
    ensures MayRepeat(s, k, last, n + if IsRepeat(s, step, k, last) then 1 else 0, setting)
  {
    var rest :| Harmless(Apply(s, step), rest, setting)
                && Repeats(Apply(s, step), rest, k, LastTime(s, step, k, last)) == n;
    var steps := [step] + rest;
    assert steps[0] == step && steps[1..] == rest;
    assert Harmless(s, steps, setting);
    assert Repeats(s, steps, k, last) == n + if IsRepeat(s, step, k, last) then 1 else 0;
  }

  /** A request that comes while nothing is cached looks up in vain in both places; only its own entry
      changes. */
  function AfterLookup(s: State, r: RequestId, k: Key, redis: bool): State {
    s.(requests := s.requests[r := Request(k, redis, Missed)])
  }

  lemma LookupInVain(s: State, r: RequestId, k: Key, last: Option<Time>, n: nat, setting: Setting)
    requires r !in s.requests && !Live(s.store.done, k, s.now) && !Live(s.store.rows, k, s.now)
    requires setting == RedisDown ==> forall p :: p in s.requests ==> IsOver(s.requests[p])
    requires MayRepeat(AfterLookup(s, r, k, setting == AllUp), k, last, n, setting)
    ensures MayRepeat(s, k, last, n, setting)
  {
    var a, b, c := Arrive(r, k, setting == AllUp), GetDone(r, true), GetRow(r, true);
    var s1 := Apply(s, a);
    var s2 := Apply(s1, b);
    assert Apply(s2, c) == AfterLookup(s, r, k, setting == AllUp);
    RepeatsAfterStep(s2, c, k, last, n, setting);
    RepeatsAfterStep(s1, b, k, last, n, setting);
    RepeatsAfterStep(s, a, k, last, n, setting);
  }

  /** What a request past its lookups leaves when it has run its handler over a free lock: it is over,
      its 2xx response is stored, and the lock is free. No other request or key changes. */
  function AfterHandler(s: State, r: RequestId, status: nat, body: string): State
    requires r in s.requests
  {
    var q := s.requests[r];
    var k, stored := q.key, Cached(status, body, true, s.now + RESPONSE_TTL_S);
    s.(store := Store(if q.redis then s.store.done[k := stored] else s.store.done,
                      if q.redis then s.store.locks - {k} else s.store.locks,
                      s.store.rows[k := if k in s.store.rows then stored.(expires := s.store.rows[k].expires)
                                        else stored]),
       requests := s.requests[r := q.(phase := Sent(status, body))])
  }

  /** The request holds the lock it set, has its answer, and has yet to store it. */
  predicate HasAnswer(s: State, r: RequestId, k: Key, status: nat, body: string, redis: bool) {
    r in s.requests && Success(status)
    && s.requests[r] == Request(k, redis, Answered(if redis then Some(s.now + LOCK_TTL_S) else None, status, body))
  }

  /** Store in Redis, store in the database, release. */
  lemma CaptureRepeats(s: State, r: RequestId, k: Key, status: nat, body: string, last: Option<Time>, n: nat,
                       setting: Setting)
    requires HasAnswer(s, r, k, status, body, setting == AllUp)
    requires MayRepeat(AfterHandler(s, r, status, body), k, Some(s.now), n, setting)
    ensures MayRepeat(s, k, last, n, setting)
  {
    var c, d, e := StoreDone(r, true), StoreRow(r, true), Release(r, true);
    var s1 := Apply(s, c);
    var s2 := Apply(s1, d);
    assert Apply(s2, e) == AfterHandler(s, r, status, body);
    RepeatsAfterStep(s2, e, k, Some(s.now), n, setting);
    RepeatsAfterStep(s1, d, k, LastTime(s, c, k, last), n, setting);
    RepeatsAfterStep(s, c, k, last, n, setting);
  }

  /** The way through the handler is one entry, and a repeat if a response was stored lately. */
  lemma HandlerRepeats(s: State, r: RequestId, k: Key, status: nat, body: string, last: Option<Time>, n: nat,
                       setting: Setting)
    requires r in s.requests && s.requests[r] == Request(k, setting == AllUp, Missed) && Success(status)
    requires !Locked(s.store.locks, k, s.now)
    requires MayRepeat(AfterHandler(s, r, status, body), k, Some(s.now), n, setting)
    ensures MayRepeat(s, k, last, n + if last.Some? && s.now < last.value + RESPONSE_TTL_S then 1 else 0, setting)
  {
    var a, b := TryLock(r, true), Answer(r, status, body);
    var s1 := Apply(s, a);
    var s2 := Apply(s1, b);
    assert AfterHandler(s2, r, status, body) == AfterHandler(s, r, status, body);
    CaptureRepeats(s2, r, k, status, body, last, n, setting);
    RepeatsAfterStep(s1, b, k, last, n, setting);
    RepeatsAfterStep(s, a, k, last, n, setting);
  }

  lemma NoMoreRepeats(s: State, k: Key, last: Option<Time>, setting: Setting)
    ensures MayRepeat(s, k, last, 0, setting)
  {
    assert Harmless(s, [], setting) && Repeats(s, [], k, last) == 0;
  }

  /** The requests from `from` up to n have looked up in vain, and the lock is free. */
  predicate Waiting(s: State, from: nat, n: nat, k: Key) {
    && !Locked(s.store.locks, k, s.now)
    && forall r :: from <= r < n ==> r in s.requests && s.requests[r] == Request(k, true, Missed)
  }

  lemma {:induction false} WaitingRequestsRepeat(s: State, from: nat, n: nat, k: Key, status: nat, body: string,
                                                 last: Time)
    requires Waiting(s, from, n, k) && from <= n && Success(status) && s.now < last + RESPONSE_TTL_S
    ensures MayRepeat(s, k, Some(last), n - from, AllUp)
    decreases n - from
  {
    if from == n {
      NoMoreRepeats(s, k, Some(last), AllUp);
    } else {
      WaitingRequestsRepeat(AfterHandler(s, from, status, body), from + 1, n, k, status, body, s.now);
      HandlerRepeats(s, from, k, status, body, Some(last), n - from - 1, AllUp);
    }
  }

  lemma {:induction false} ArrivalsRepeat(s: State, i: nat, n: nat, k: Key, status: nat, body: string)
    requires s.store == EMPTY.store && Waiting(s, 0, i, k) && i <= n + 1 && Success(status)
    requires forall r :: i <= r ==> r !in s.requests
    ensures MayRepeat(s, k, None, n, AllUp)
    decreases n + 1 - i
  {
    if i == n + 1 {
      WaitingRequestsRepeat(AfterHandler(s, 0, status, body), 1, i, k, status, body, s.now);
      HandlerRepeats(s, 0, k, status, body, None, n, AllUp);
    } else {
      ArrivalsRepeat(AfterLookup(s, i, k, true), i + 1, n, k, status, body);
      LookupInVain(s, i, k, None, n, AllUp);
    }
  }

  /** The middleware is not at-most-once, and no bound on repeats holds: for every n there is a run from
      an empty store, with Redis and the database up throughout and no time passing, in which handlers
      of one key are entered n times although its response is stored. The requests all looked up before
      the first of them stored; nobody looks again after taking the lock. */
  lemma RepeatsAreUnbounded(k: Key, n: nat)
    ensures MayRepeat(EMPTY, k, None, n, AllUp)
  {
    ArrivalsRepeat(EMPTY, 0, n, k, 200, "");
  }

  /** The key has an expired row, every request is over, and Redis has nothing. */
  predicate RowIsOld(s: State, i: nat, k: Key) {
    && k in s.store.rows && s.store.rows[k].expires <= s.now
    && s.store.done == map[] && s.store.locks == map[]
    && forall r :: r in s.requests ==> r < i && IsOver(s.requests[r])
  }

  lemma {:induction false} OldRowRepeats(s: State, i: nat, k: Key, n: nat, last: Time)
    requires RowIsOld(s, i, k)
    ensures MayRepeat(s, k, Some(last), n, RedisDown)
    decreases n, s.now - last
  {
    var counts := s.now < last + RESPONSE_TTL_S;
    if n == 0 {
      NoMoreRepeats(s, k, Some(last), RedisDown);
    } else {
      var m := if counts then n - 1 else n;
      OldRowRepeats(AfterHandler(AfterLookup(s, i, k, false), i, 200, ""), i + 1, k, m, s.now);
      HandlerRepeats(AfterLookup(s, i, k, false), i, k, 200, "", Some(last), m, RedisDown);
      LookupInVain(s, i, k, Some(last), n, RedisDown);
    }
  }

  /** With Redis down the database alone does not keep a key at most once either, even for requests
      that come strictly one after another: one response, its time to live, and from then on every
      request runs its handler, because each response is stored under the expiry that has passed. */
  lemma OldRowsRepeatOneAtATime(k: Key, n: nat)
    ensures MayRepeat(EMPTY, k, None, n, RedisDown)
  {
    var looked := AfterLookup(EMPTY, 0, k, false);
    var answered := AfterHandler(looked, 0, 200, "");
    OldRowRepeats(Apply(answered, Tick(RESPONSE_TTL_S)), 1, k, n, 0);
    RepeatsAfterStep(answered, Tick(RESPONSE_TTL_S), k, Some(0), n, RedisDown);
    HandlerRepeats(looked, 0, k, 200, "", None, n, RedisDown);
    LookupInVain(EMPTY, 0, k, None, n, RedisDown);
  }

  // ----- overlapping sections -----

  predicate NoStepOf(steps: seq<Step>, p: RequestId) {
    forall x :: x in steps ==> x.Tick? || x.r != p
  }

  /** The run, without a step of p, ends before `until` with p and r both in their sections of the key.
      `up`: Redis answers every command. */
  predicate Overlaps(s: State, steps: seq<Step>, p: RequestId, r: RequestId, k: Key, up: bool, until: Time) {
    var s' := Exec(s, steps);
    && (up ==> RedisStaysUp(steps)) && NoStepOf(steps, p) && s'.now < until
    && p in s'.requests && s'.requests[p].key == k && InSection(s'.requests[p])
    && r in s'.requests && s'.requests[r].key == k && InSection(s'.requests[r])
  }

  ghost predicate MayOverlap(s: State, p: RequestId, r: RequestId, k: Key, up: bool, until: Time) {
    exists steps :: Overlaps(s, steps, p, r, k, up, until)
  }

  lemma OverlapsAfterStep(s: State, step: Step, p: RequestId, r: RequestId, k: Key, up: bool, until: Time)
    requires (up ==> RedisStaysUp([step])) && NoStepOf([step], p)
    requires MayOverlap(Apply(s, step), p, r, k, up, until)
    ensures MayOverlap(s, p, r, k, up, until)
  {
    var rest :| Overlaps(Apply(s, step), rest, p, r, k, up, until);
    var steps := [step] + rest;
    assert steps[1..] == rest && step in [step];
    assert Overlaps(s, steps, p, r, k, up, until);
  }

  /** p is in its section of the key, and r has looked up in vain for the same key. */
  predicate OneInOneWaiting(s: State, p: RequestId, r: RequestId, k: Key) {
    && p in s.requests && s.requests[p].key == k && InSection(s.requests[p])
    && r in s.requests && s.requests[r].key == k && s.requests[r].phase == Missed
  }

  /** A request other than p has a section of the key whose end deletes the lock key, whoever set it. */
  predicate OtherReleases(s: State, p: RequestId, k: Key) {
    exists q :: q in s.requests && q != p && WillRelease(s.requests[q], k)
  }

  /** The lock lasts until `until`, and only p might delete it; r is not in its section. */
  predicate KeptOut(s: State, p: RequestId, r: RequestId, k: Key, until: Time) {
    && k in s.store.locks && until <= s.store.locks[k] && !OtherReleases(s, p, k)
    && r in s.requests && r != p && s.requests[r].key == k && s.requests[r].redis && !InSection(s.requests[r])
  }

  lemma StaysKeptOut(s: State, step: Step, p: RequestId, r: RequestId, k: Key, until: Time)
    requires RedisStaysUp([step]) && NoStepOf([step], p) && s.now < until && KeptOut(s, p, r, k, until)
    ensures KeptOut(Apply(s, step), p, r, k, until)
  {
    assert step in [step];
    var s' := Apply(s, step);
    forall q | q in s'.requests && q != p ensures !WillRelease(s'.requests[q], k) {
      assert q in s.requests ==> !WillRelease(s.requests[q], k);
    }
  }

  lemma {:induction false} LockKeepsOut(s: State, steps: seq<Step>, p: RequestId, r: RequestId, k: Key, until: Time)
    requires RedisStaysUp(steps) && NoStepOf(steps, p) && Exec(s, steps).now < until && KeptOut(s, p, r, k, until)
    ensures KeptOut(Exec(s, steps), p, r, k, until)
    decreases |steps|
  {
    if steps == [] {
    } else {
      var s1 := Apply(s, steps[0]);
      TimeOnlyPasses(s1, steps[1..]);
      assert steps[0] in steps;
      StaysKeptOut(s, steps[0], p, r, k, until);
      LockKeepsOut(s1, steps[1..], p, r, k, until);
    }
  }

  lemma EntersBeside(s: State, p: RequestId, r: RequestId, k: Key, up: bool, until: Time)
    requires OneInOneWaiting(s, p, r, k) && s.now < until
    requires up && s.requests[r].redis ==> !Locked(s.store.locks, k, s.now)
    ensures MayOverlap(s, p, r, k, up, until)
  {
    assert Overlaps(Apply(s, TryLock(r, up)), [], p, r, k, up, until);
    OverlapsAfterStep(s, TryLock(r, up), p, r, k, up, until);
  }

  /** Another request goes on to its release, which deletes the lock key, and then r takes the lock. */
  lemma {:induction false} EntersAfterRelease(s: State, p: RequestId, r: RequestId, q: RequestId, k: Key, up: bool,
                                              until: Time)
    requires OneInOneWaiting(s, p, r, k) && s.now < until
    requires q in s.requests && q != p && WillRelease(s.requests[q], k)
    ensures MayOverlap(s, p, r, k, up, until)
    decreases ToRelease(s.requests[q].phase)
  {
    var step := TowardsRelease(q, s.requests[q].phase);
    if step.Release? {
      EntersBeside(Apply(s, step), p, r, k, up, until);
    } else {
      EntersAfterRelease(Apply(s, step), p, r, q, k, up, until);
    }
    OverlapsAfterStep(s, step, p, r, k, up, until);
  }

  /** Exactly when a second handler section of a key can begin beside a first. While p is in its section
      and takes no step, a request r that has looked up in vain can enter its own before `until` if and
      only if Redis fails, or was not ready when r came, or the lock is not there or runs out before
      `until`, or some third request has a section of the key to end: `releaseLock` deletes the key
      without asking whose it is. */
  lemma SectionsOverlapExactlyWhen(s: State, p: RequestId, r: RequestId, k: Key, up: bool, until: Time)
    requires OneInOneWaiting(s, p, r, k) && s.now < until
    ensures MayOverlap(s, p, r, k, up, until) <==>
            || !up
            || !s.requests[r].redis
            || k !in s.store.locks
            || s.store.locks[k] < until
            || exists q :: q in s.requests && q != p && WillRelease(s.requests[q], k)
  {
    if !up || !s.requests[r].redis || !Locked(s.store.locks, k, s.now) {
      EntersBeside(s, p, r, k, up, until);
    } else if s.store.locks[k] < until {
      var pause := Tick(s.store.locks[k] - s.now);
      EntersBeside(Apply(s, pause), p, r, k, up, until);
      OverlapsAfterStep(s, pause, p, r, k, up, until);
    } else if q :| q in s.requests && q != p && WillRelease(s.requests[q], k) {
      EntersAfterRelease(s, p, r, q, k, up, until);
    } else if MayOverlap(s, p, r, k, up, until) {
      var steps :| Overlaps(s, steps, p, r, k, up, until);
      LockKeepsOut(s, steps, p, r, k, until);
    }
  }

  // ----- two runs from an empty store -----

  /** Redis and the database answer everything, and the run ends in the goal. */
  predicate LeadsTo(s: State, steps: seq<Step>, goal: State -> bool) {
    RedisStaysUp(steps) && DatabaseStaysUp(steps) && goal(Exec(s, steps))
  }

  ghost predicate MayReach(s: State, goal: State -> bool) { exists steps :: LeadsTo(s, steps, goal) }

  lemma ReachesAtOnce(s: State, goal: State -> bool)
    requires goal(s)
    ensures MayReach(s, goal)
  {
    assert LeadsTo(s, [], goal);
  }

  lemma ReachesAfterStep(s: State, step: Step, goal: State -> bool)
    requires RedisStaysUp([step]) && DatabaseStaysUp([step]) && MayReach(Apply(s, step), goal)
    ensures MayReach(s, goal)
  {
    var rest :| LeadsTo(Apply(s, step), rest, goal);
    var steps := [step] + rest;
    assert steps[1..] == rest && step in [step];
    assert LeadsTo(s, steps, goal);
  }

  lemma LookupReaches(s: State, r: RequestId, k: Key, goal: State -> bool)
    requires r !in s.requests && !Live(s.store.done, k, s.now) && !Live(s.store.rows, k, s.now)
    requires MayReach(AfterLookup(s, r, k, true), goal)
    ensures MayReach(s, goal)
  {
    var a, b, c := Arrive(r, k, true), GetDone(r, true), GetRow(r, true);
    var s1 := Apply(s, a);
    var s2 := Apply(s1, b);
    assert Apply(s2, c) == AfterLookup(s, r, k, true);
    ReachesAfterStep(s2, c, goal);
    ReachesAfterStep(s1, b, goal);
    ReachesAfterStep(s, a, goal);
  }

  predicate Handles(s: State, r: RequestId, k: Key, lock: Time) {
    r in s.requests && s.requests[r] == Request(k, true, Handling(Some(lock)))
  }

  /** Two requests handle the key at time `now`, the first under a lock until `lock`. */
  function BothGoal(p: RequestId, r: RequestId, k: Key, now: Time, lock: Time): State -> bool {
    (s: State) => s.now == now && Handles(s, p, k, lock) && Handles(s, r, k, now + LOCK_TTL_S)
  }

  /** From an empty store, with everything up: a handler that takes as long as the lock's time to live is
      joined by a second one. */
  lemma SlowHandlersOverlap(k: Key)
    ensures MayReach(EMPTY, BothGoal(0, 1, k, LOCK_TTL_S, LOCK_TTL_S))
  {
    var goal := BothGoal(0, 1, k, LOCK_TTL_S, LOCK_TTL_S);
    var s1 := AfterLookup(EMPTY, 0, k, true);
    var s2 := Apply(s1, TryLock(0, true));
    var s3 := AfterLookup(s2, 1, k, true);
    var s4 := Apply(s3, Tick(LOCK_TTL_S));
    ReachesAtOnce(Apply(s4, TryLock(1, true)), goal);
    ReachesAfterStep(s4, TryLock(1, true), goal);
    ReachesAfterStep(s3, Tick(LOCK_TTL_S), goal);
    LookupReaches(s2, 1, k, goal);
    ReachesAfterStep(s1, TryLock(0, true), goal);
    LookupReaches(EMPTY, 0, k, goal);
  }

  /** Requests 0, 1 and 2 have looked up in vain; 0 has handled the key for the lock's time to live, and 1
      has just taken the lock, for as long again. */
  predicate Overtaken(s: State, k: Key) {
    && s.now == LOCK_TTL_S && k in s.store.locks && s.store.locks[k] == 2 * LOCK_TTL_S
    && Handles(s, 0, k, LOCK_TTL_S) && Handles(s, 1, k, 2 * LOCK_TTL_S)
    && 2 in s.requests && s.requests[2] == Request(k, true, Missed)
  }

  /** 0 fails, releases the lock of 1, and 2 takes it. */
  lemma OvertakenReleases(s: State, k: Key)
    requires Overtaken(s, k)
    ensures MayReach(s, BothGoal(1, 2, k, LOCK_TTL_S, 2 * LOCK_TTL_S))
  {
    var goal := BothGoal(1, 2, k, LOCK_TTL_S, 2 * LOCK_TTL_S);
    var a, b, c, d, e := Answer(0, 500, ""), StoreDone(0, true), StoreRow(0, true), Release(0, true), TryLock(2, true);
    var s1 := Apply(s, a);
    var s2 := Apply(s1, b);
    var s3 := Apply(s2, c);
    var s4 := Apply(s3, d);
    ReachesAtOnce(Apply(s4, e), goal);
    ReachesAfterStep(s4, e, goal);
    ReachesAfterStep(s3, d, goal);
    ReachesAfterStep(s2, c, goal);
    ReachesAfterStep(s1, b, goal);
    ReachesAfterStep(s, a, goal);
  }

  lemma WaitingIsOvertaken(s: State, k: Key)
    requires Waiting(s, 0, 3, k) && s.now == 0
    ensures MayReach(s, BothGoal(1, 2, k, LOCK_TTL_S, 2 * LOCK_TTL_S))
  {
    var goal := BothGoal(1, 2, k, LOCK_TTL_S, 2 * LOCK_TTL_S);
    var s1 := Apply(s, TryLock(0, true));
    var s2 := Apply(s1, Tick(LOCK_TTL_S));
    OvertakenReleases(Apply(s2, TryLock(1, true)), k);
    ReachesAfterStep(s2, TryLock(1, true), goal);
    ReachesAfterStep(s1, Tick(LOCK_TTL_S), goal);
    ReachesAfterStep(s, TryLock(0, true), goal);
  }

  /** From an empty store, with everything up: a slow handler releases its successor's lock, and a third
      request joins the successor although that has its whole time to live left. */
  lemma StaleReleaseOverlaps(k: Key)
    ensures MayReach(EMPTY, BothGoal(1, 2, k, LOCK_TTL_S, 2 * LOCK_TTL_S))
  {
    var goal := BothGoal(1, 2, k, LOCK_TTL_S, 2 * LOCK_TTL_S);
    var s1 := AfterLookup(EMPTY, 0, k, true);
    var s2 := AfterLookup(s1, 1, k, true);
    WaitingIsOvertaken(AfterLookup(s2, 2, k, true), k);
    LookupReaches(s2, 2, k, goal);
    LookupReaches(s1, 1, k, goal);
    LookupReaches(EMPTY, 0, k, goal);
  }
}
