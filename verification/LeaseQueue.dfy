/** The job table of atomic-engine.js. Every SQL statement is one step; it changes each row on its
    own, so a step is given by what it does to one row. */
module LeaseQueue {
  import opened Basics

  type JobId = nat
  type WorkerId = nat
  type CallId = nat
  type Time = int

  datatype Status = Pending | Processing | Processed | DeadLetter

  datatype Row = Row(
    status: Status,
    leasedBy: Option<WorkerId>,
    leaseExpiresAt: Option<Time>,
    leaseVersion: nat,
    attemptCount: nat,
    runAfter: Option<Time>,
    shardKey: nat,
    regionId: nat,
    priority: int,
    createdAt: Time,
    result: Option<string>,
    error: Option<string>)

  type Table = map<JobId, Row>

  /** Per-queue settings: MAX_RETRY_ATTEMPTS, LEASE_TIMEOUT_MS and RETRY_DELAY_BASELINE_MS. */
  datatype Config = Config(maxAttempts: nat, leaseMs: nat, retryBaseMs: nat)

  const BACKOFF_CAP_MS: nat := 600_000

  /** A commitFailure call between its SELECT and its UPDATE: the arguments and the value it read. */
  datatype FailCall = FailCall(id: JobId, worker: WorkerId, version: nat, attempt: nat, error: string, forced: bool)

  datatype State = State(rows: Table, calls: map<CallId, FailCall>)

  /** One SQL statement, with the values it is called with. The arguments are arbitrary: a worker
      may pass a lease version it lost long ago. */
  datatype Step =
    | Claim(now: Time, calledAt: Time, worker: WorkerId, shards: seq<nat>, region: nat, picked: set<JobId>)
    | Extend(now: Time, id: JobId, worker: WorkerId, version: nat, extendMs: nat)
    | Success(now: Time, id: JobId, worker: WorkerId, version: nat, result: Option<string>)
    | FailRead(now: Time, call: CallId, id: JobId, worker: WorkerId, version: nat, error: string, forced: bool)
    | FailWrite(now: Time, call: CallId, random: nat)
    | SweepRetry(now: Time)
    | SweepDead(now: Time)

  // ----- statement guards -----

  predicate Open(r: Row) { r.status == Pending || r.status == Processing }

  predicate Eligible(r: Row, now: Time, shards: seq<nat>, region: nat) {
    && r.status == Pending
    && (r.runAfter == None || r.runAfter.value <= now)
    && (shards == [] || r.shardKey in shards)
    && r.regionId == region
  }

  /** The fence shared by every statement a worker issues for a row it claimed. */
  predicate Holds(r: Row, worker: WorkerId, version: nat) {
    r.leasedBy == Some(worker) && r.leaseVersion == version && r.status == Processing
  }

  /** A NULL expiry compares as unknown, so it never counts as expired. */
  predicate Expired(r: Row, now: Time) {
    r.status == Processing && r.leaseExpiresAt.Some? && r.leaseExpiresAt.value < now
  }

  /** ORDER BY priority DESC, created_at ASC. */
  predicate Before(x: Row, y: Row) {
    x.priority > y.priority || (x.priority == y.priority && x.createdAt < y.createdAt)
  }

  // ----- row effects -----

  function Claimed(r: Row, worker: WorkerId, expires: Time): Row {
    r.(status := Processing, leasedBy := Some(worker), leaseExpiresAt := Some(expires),
       leaseVersion := r.leaseVersion + 1)
  }

  function Extended(r: Row, expires: Time): Row { r.(leaseExpiresAt := Some(expires)) }

  function Succeeded(r: Row, result: Option<string>): Row {
    r.(status := Processed, leasedBy := None, leaseExpiresAt := None, result := result)
  }

  /** Exponential backoff with full jitter: a delay below min(cap, base * 2^attempt). */
  function NextRunAt(cfg: Config, now: Time, attempt: nat, random: nat): Time {
    var bound := Min(BACKOFF_CAP_MS, cfg.retryBaseMs * Pow2(attempt));
    if bound <= 0 then now else now + random % bound
  }

  function FailedOnce(cfg: Config, r: Row, f: FailCall, now: Time, random: nat): Row {
    var next := f.attempt + 1;
    if next >= cfg.maxAttempts || f.forced then
      r.(status := DeadLetter, leasedBy := None, leaseExpiresAt := None,
         attemptCount := next, error := Some(f.error))
    else
      r.(status := Pending, leasedBy := None, leaseExpiresAt := None,
         attemptCount := next, error := Some(f.error),
         runAfter := Some(NextRunAt(cfg, now, next, random)))
  }

  function Reclaimed(r: Row): Row {
    r.(status := Pending, leasedBy := None, leaseExpiresAt := None, leaseVersion := r.leaseVersion + 1)
  }

  function SweptDead(r: Row): Row {
    r.(status := DeadLetter, leaseVersion := r.leaseVersion + 1,
       error := if r.error.Some? then r.error else Some("Exceeded max attempts during lease recovery"))
  }

  function RowAfter(cfg: Config, calls: map<CallId, FailCall>, id: JobId, r: Row, step: Step): Row {
    match step
    case Claim(now, calledAt, worker, shards, region, picked) =>
      if id in picked && Eligible(r, now, shards, region) then Claimed(r, worker, calledAt + cfg.leaseMs) else r
    case Extend(now, i, worker, version, extendMs) =>
      if id == i && Holds(r, worker, version) then Extended(r, now + extendMs) else r
    case Success(now, i, worker, version, result) =>
      if id == i && Holds(r, worker, version) then Succeeded(r, result) else r
    case FailRead(_, _, _, _, _, _, _) => r
    case FailWrite(now, call, random) =>
      if call in calls && calls[call].id == id && Holds(r, calls[call].worker, calls[call].version)
      then FailedOnce(cfg, r, calls[call], now, random)
      else r
    case SweepRetry(now) =>
      if Expired(r, now) && r.attemptCount < cfg.maxAttempts then Reclaimed(r) else r
    case SweepDead(now) =>
      if Expired(r, now) && r.attemptCount >= cfg.maxAttempts then SweptDead(r) else r
  }

  function RowsAfter(cfg: Config, s: State, step: Step): Table {
    map id | id in s.rows :: RowAfter(cfg, s.calls, id, s.rows[id], step)
  }

  function CallsAfter(s: State, step: Step): map<CallId, FailCall> {
    match step
    case FailRead(_, call, id, worker, version, error, forced) =>
      if call !in s.calls && id in s.rows && Holds(s.rows[id], worker, version)
      then s.calls[call := FailCall(id, worker, version, s.rows[id].attemptCount, error, forced)]
      else s.calls
    case FailWrite(_, call, _) => s.calls - {call}
    case _ => s.calls
  }

  function Apply(cfg: Config, s: State, step: Step): State {
    State(RowsAfter(cfg, s, step), CallsAfter(s, step))
  }

  function Exec(cfg: Config, s: State, steps: seq<Step>): State
    decreases |steps|
  {
    if steps == [] then s else Exec(cfg, Apply(cfg, s, steps[0]), steps[1..])
  }

  lemma TwoSteps(cfg: Config, s: State, a: Step, b: Step)
    ensures Exec(cfg, s, [a, b]) == Apply(cfg, Apply(cfg, s, a), b)
  {
    var s1 := Apply(cfg, s, a);
    assert [a, b][1..] == [b] && [b][1..] == [];
    assert Exec(cfg, s1, [b]) == Exec(cfg, Apply(cfg, s1, b), []);
  }

  /** The two sweep statements together: exactly the processing rows whose lease has run out are taken
      from their holder and get a new version; they wait again while they have attempts left, and are
      dead letters otherwise. */
  lemma SweepRecoversExpired(cfg: Config, t: Table, now: Time, id: JobId)
    requires id in t
    ensures var t' := Exec(cfg, State(t, map[]), [SweepRetry(now), SweepDead(now)]).rows;
            && t'.Keys == t.Keys
            && var r, r' := t[id], t'[id];
            if r.status != Processing || r.leaseExpiresAt == None || r.leaseExpiresAt.value >= now then r' == r
            else if r.attemptCount < cfg.maxAttempts then
              r' == r.(status := Pending, leasedBy := None, leaseExpiresAt := None, leaseVersion := r.leaseVersion + 1)
            else
              && r' == r.(status := DeadLetter, leaseVersion := r.leaseVersion + 1, error := r'.error)
              && r'.error.Some? && (r.error.Some? ==> r'.error == r.error)
  {
    TwoSteps(cfg, State(t, map[]), SweepRetry(now), SweepDead(now));
  }

  // ----- the claim's choice of rows -----

  function Candidates(t: Table, locked: set<JobId>, now: Time, shards: seq<nat>, region: nat): set<JobId> {
    set id | id in t && id !in locked && Eligible(t[id], now, shards, region)
  }

  /** What ORDER BY ... LIMIT n takes from a set of candidates: as many as allowed, none of them
      outranked by a candidate that was left behind. */
  ghost predicate IsTopBatch(t: Table, candidates: set<JobId>, picked: set<JobId>, n: nat)
    requires candidates <= t.Keys
  {
    && picked <= candidates
    && |picked| == Min(n, |candidates|)
    && forall a, b :: a in picked && b in candidates - picked ==> !Before(t[b], t[a])
  }

  method FirstOf(t: Table, candidates: set<JobId>) returns (best: JobId)
    requires candidates != {} && candidates <= t.Keys
    ensures best in candidates
    ensures forall c :: c in candidates ==> !Before(t[c], t[best])
  {
    best :| best in candidates;
    var rest := candidates - {best};
    while rest != {}
      invariant rest <= candidates && best in candidates
      invariant forall c :: c in candidates - rest ==> !Before(t[c], t[best])
      decreases |rest|
    {
      var c :| c in rest;
      if Before(t[c], t[best]) {
        best := c;
      }
      rest := rest - {c};
    }
  }

  method SelectBatch(t: Table, candidates: set<JobId>, n: nat) returns (picked: set<JobId>)
    requires candidates <= t.Keys
    ensures IsTopBatch(t, candidates, picked, n)
  {
    picked := {};
    var rest := candidates;
    while |picked| < n && rest != {}
      invariant picked !! rest && picked + rest == candidates
      invariant |picked| <= n && |picked| + |rest| == |candidates|
      invariant forall a, b :: a in picked && b in rest ==> !Before(t[b], t[a])
      decreases |rest|
    {
      var best := FirstOf(t, rest);
      picked := picked + {best};
      rest := rest - {best};
    }
    assert candidates - picked == rest;
  }

  // ----- the engine -----

  /** A candidate is left only by a full batch. */
  lemma LeftMeansFull(t: Table, candidates: set<JobId>, picked: set<JobId>, n: nat, id: JobId)
    requires candidates <= t.Keys && IsTopBatch(t, candidates, picked, n) && id in candidates - picked
    ensures |picked| == n
    ensures forall a :: a in picked ==> !Before(t[id], t[a])
  {
    Subset(picked + {id}, candidates);
  }

  lemma {:induction false} Subset(a: set<JobId>, b: set<JobId>)
    requires a <= b
    ensures |a| <= |b|
    decreases |a|
  {
    if a == {} {
    } else {
      var x :| x in a;
      Subset(a - {x}, b - {x});
    }
  }

  /** A claim rewrites the rows it picked and no other. */
  lemma ClaimRewritesPicked(cfg: Config, t: Table, claim: Step, claimed: Table)
    requires claim.Claim? && claimed.Keys == claim.picked <= t.Keys
    requires forall id :: id in claimed ==>
               && Eligible(t[id], claim.now, claim.shards, claim.region)
               && claimed[id] == Claimed(t[id], claim.worker, claim.calledAt + cfg.leaseMs)
    ensures RowsAfter(cfg, State(t, map[]), claim) == t + claimed
  {
  }

  /** At most the row `id` differs. */
  predicate OnlyRow(t: Table, t': Table, id: JobId) {
    t'.Keys == t.Keys && forall j :: j in t && j != id ==> t'[j] == t[j]
  }

  /** The table and the functions of the engine that change it. */
  class Engine {
    var rows: Table
    var heartbeats: map<WorkerId, bool>  // drain_requested of each registered worker
    const cfg: Config

    constructor (cfg: Config, rows: Table, heartbeats: map<WorkerId, bool>)
      ensures this.cfg == cfg && this.rows == rows && this.heartbeats == heartbeats
    {
      this.cfg := cfg;
      this.rows := rows;
      this.heartbeats := heartbeats;
    }

    predicate Draining(worker: WorkerId)
      reads this`heartbeats
    {
      worker in heartbeats && heartbeats[worker]
    }

    /** `locked` are the rows other transactions hold at this moment; SKIP LOCKED passes over them. A row
        is given out only if it was pending, due, of the region and of the worker's shards; such a row is
        left only if the batch is full, and for no row of lower rank. */
    method AtomicClaim(calledAt: Time, now: Time, worker: WorkerId, batchSize: nat, shards: seq<nat>, region: nat,
                       locked: set<JobId>) returns (claimed: Table)
      modifies this`rows
      ensures Draining(worker) ==> claimed == map[] && rows == old(rows)
      ensures rows ==
              RowsAfter(cfg, State(old(rows), map[]), Claim(now, calledAt, worker, shards, region, claimed.Keys))
      ensures claimed.Keys <= rows.Keys && forall id :: id in claimed ==> claimed[id] == rows[id]
      ensures !Draining(worker) ==>
                IsTopBatch(old(rows), Candidates(old(rows), locked, now, shards, region), claimed.Keys, batchSize)
      ensures |claimed| <= batchSize
      ensures forall id :: id in claimed ==>
                var r := old(rows)[id];
                && r.status == Pending && (r.runAfter.Some? ==> r.runAfter.value <= now) && r.regionId == region
                && (shards != [] ==> r.shardKey in shards) && id !in locked
                && claimed[id] == r.(status := Processing, leasedBy := Some(worker),
                                     leaseExpiresAt := Some(calledAt + cfg.leaseMs), leaseVersion := r.leaseVersion + 1)
      ensures forall id :: id in old(rows) && id !in claimed && id !in locked && !Draining(worker) ==>
                var r := old(rows)[id];
                r.status == Pending && (r.runAfter.Some? ==> r.runAfter.value <= now) && r.regionId == region
                && (shards != [] ==> r.shardKey in shards) ==>
                  && |claimed| == batchSize
                  && forall taken :: taken in claimed ==>
                       || claimed[taken].priority > r.priority
                       || (claimed[taken].priority == r.priority && claimed[taken].createdAt <= r.createdAt)
    {
      if Draining(worker) {
        claimed := map[];
        ClaimRewritesPicked(cfg, rows, Claim(now, calledAt, worker, shards, region, {}), claimed);
        assert rows + claimed == rows;
        return;
      }
      var candidates := Candidates(rows, locked, now, shards, region);
      var picked := SelectBatch(rows, candidates, batchSize);
      claimed := map id | id in picked :: Claimed(rows[id], worker, calledAt + cfg.leaseMs);
      assert claimed.Keys == picked;
      ClaimRewritesPicked(cfg, rows, Claim(now, calledAt, worker, shards, region, picked), claimed);
      forall id | id in candidates - picked
        ensures |picked| == batchSize && forall a :: a in picked ==> !Before(rows[id], rows[a])
      {
        LeftMeansFull(rows, candidates, picked, batchSize, id);
      }
      rows := rows + claimed;
    }

    method ExtendLease(now: Time, id: JobId, worker: WorkerId, version: nat, extendMs: nat) returns (ok: bool)
      modifies this`rows
      ensures ok <==> id in old(rows) && Holds(old(rows)[id], worker, version)
      ensures rows == RowsAfter(cfg, State(old(rows), map[]), Extend(now, id, worker, version, extendMs))
      ensures OnlyRow(old(rows), rows, id)
      ensures id in rows ==>
                var r := old(rows)[id];
                rows[id] == if r.status == Processing && r.leasedBy == Some(worker) && r.leaseVersion == version
                            then r.(leaseExpiresAt := Some(now + extendMs)) else r
    {
      ok := id in rows && Holds(rows[id], worker, version);
      if ok {
        rows := rows[id := Extended(rows[id], now + extendMs)];
      }
    }

    method CommitSuccess(now: Time, id: JobId, worker: WorkerId, version: nat, result: Option<string>)
      modifies this`rows
      ensures rows == RowsAfter(cfg, State(old(rows), map[]), Success(now, id, worker, version, result))
      ensures OnlyRow(old(rows), rows, id)
      ensures id in rows ==>
                var r := old(rows)[id];
                rows[id] == if r.status == Processing && r.leasedBy == Some(worker) && r.leaseVersion == version
                            then r.(status := Processed, leasedBy := None, leaseExpiresAt := None, result := result)
                            else r
    {
      if id in rows && Holds(rows[id], worker, version) {
        rows := rows[id := Succeeded(rows[id], result)];
      }
    }

    /** The SELECT of commitFailure. */
    method ReadAttempt(id: JobId, worker: WorkerId, version: nat) returns (attempt: Option<nat>)
      ensures attempt == if id in rows && Holds(rows[id], worker, version) then Some(rows[id].attemptCount) else None
    {
      attempt := None;
      if id in rows && Holds(rows[id], worker, version) {
        attempt := Some(rows[id].attemptCount);
      }
    }

    /** The UPDATE of commitFailure, with what the SELECT returned earlier. */
    method WriteFailure(now: Time, call: FailCall, random: nat)
      modifies this`rows
      ensures rows == RowsAfter(cfg, State(old(rows), map[0 := call]), FailWrite(now, 0, random))
      ensures OnlyRow(old(rows), rows, call.id)
      ensures call.id in rows ==>
                var r, r' := old(rows)[call.id], rows[call.id];
                if r.status != Processing || r.leasedBy != Some(call.worker) || r.leaseVersion != call.version
                then r' == r
                else if call.attempt + 1 >= cfg.maxAttempts || call.forced then
                  r' == r.(status := DeadLetter, leasedBy := None, leaseExpiresAt := None,
                           attemptCount := call.attempt + 1, error := Some(call.error))
                else
                  r' == r.(status := Pending, leasedBy := None, leaseExpiresAt := None,
                           attemptCount := call.attempt + 1, error := Some(call.error), runAfter := r'.runAfter)
    {
      if call.id in rows && Holds(rows[call.id], call.worker, call.version) {
        rows := rows[call.id := FailedOnce(cfg, rows[call.id], call, now, random)];
      }
    }

    /** commitFailure with nothing in between: two steps of the table in a row. */
    method CommitFailure(now: Time, id: JobId, worker: WorkerId, version: nat, error: string, forced: bool, random: nat)
      modifies this`rows
      ensures rows == Exec(cfg, State(old(rows), map[]),
                           [FailRead(now, 0, id, worker, version, error, forced), FailWrite(now, 0, random)]).rows
      ensures OnlyRow(old(rows), rows, id)
      ensures id in rows ==>
                var r, r' := old(rows)[id], rows[id];
                if r.status != Processing || r.leasedBy != Some(worker) || r.leaseVersion != version then r' == r
                else
                  && r'.attemptCount == r.attemptCount + 1 && r'.error == Some(error)
                  && r'.leasedBy == None && r'.leaseExpiresAt == None && r'.leaseVersion == version
                  && r'.status == if r.attemptCount + 1 >= cfg.maxAttempts || forced then DeadLetter else Pending
    {
      ghost var read, write := FailRead(now, 0, id, worker, version, error, forced), FailWrite(now, 0, random);
      TwoSteps(cfg, State(rows, map[]), read, write);
      assert RowsAfter(cfg, State(rows, map[]), read) == rows;
      var attempt := ReadAttempt(id, worker, version);
      if attempt.Some? {
        WriteFailure(now, FailCall(id, worker, version, attempt.value, error, forced), random);
      }
    }

    /** The recovery sweep: two UPDATE statements in a row. */
    method ReclaimExpiredLeases(now: Time)
      modifies this`rows
      ensures rows == Exec(cfg, State(old(rows), map[]), [SweepRetry(now), SweepDead(now)]).rows
    {
      ghost var s0 := State(rows, map[]);
      TwoSteps(cfg, s0, SweepRetry(now), SweepDead(now));
      var max := cfg.maxAttempts;
      rows := map id | id in rows ::
        if Expired(rows[id], now) && rows[id].attemptCount < max then Reclaimed(rows[id]) else rows[id];
      assert rows == RowsAfter(cfg, s0, SweepRetry(now));
      ghost var s1 := State(rows, map[]);
      rows := map id | id in rows ::
        if Expired(rows[id], now) && rows[id].attemptCount >= max then SweptDead(rows[id]) else rows[id];
      assert rows == RowsAfter(cfg, s1, SweepDead(now));
    }

    method RequestWorkerDrain(worker: WorkerId)
      modifies this`heartbeats
      ensures heartbeats == if worker in old(heartbeats) then old(heartbeats)[worker := true] else old(heartbeats)
    {
      if worker in heartbeats {
        heartbeats := heartbeats[worker := true];
      }
    }
  }
}
