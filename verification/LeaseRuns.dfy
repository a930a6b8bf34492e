/** What every interleaving of engine statements keeps: fencing, accounting, the reachable-state
    invariant, atomicity of commitFailure, timed leases and bounded retries. */
module LeaseRuns {
  import opened Basics
  import opened LeaseQueue

  // ----- runs -----

  lemma {:induction false} ExecAppend(cfg: Config, s: State, xs: seq<Step>, ys: seq<Step>)
    ensures Exec(cfg, s, xs + ys) == Exec(cfg, Exec(cfg, s, xs), ys)
    decreases |xs|
  {
    if xs == [] {
      assert xs + ys == ys;
    } else {
      assert (xs + ys)[1..] == xs[1..] + ys;
      ExecAppend(cfg, Apply(cfg, s, xs[0]), xs[1..], ys);
    }
  }

  lemma {:induction false} ExecKeys(cfg: Config, s: State, steps: seq<Step>)
    ensures Exec(cfg, s, steps).rows.Keys == s.rows.Keys
    decreases |steps|
  {
    if steps == [] {
    } else {
      ExecKeys(cfg, Apply(cfg, s, steps[0]), steps[1..]);
    }
  }

  /** The row `id` after the run. */
  function RowAt(cfg: Config, s: State, steps: seq<Step>, id: JobId): Row
    requires id in s.rows
  {
    ExecKeys(cfg, s, steps);
    Exec(cfg, s, steps).rows[id]
  }

  /** The row `id` just before the i-th step. */
  function RowBefore(cfg: Config, s: State, steps: seq<Step>, i: nat, id: JobId): Row
    requires id in s.rows && i <= |steps|
  {
    RowAt(cfg, s, steps[..i], id)
  }

  // ----- what a step did to a row -----

  datatype Effect = Untouched | WasClaimed | WasExtended | WasReclaimed | WasCompleted | WasFailed

  function EffectOn(cfg: Config, s: State, step: Step, id: JobId): Effect
    requires id in s.rows
  {
    var r := s.rows[id];
    match step
    case Claim(now, _, _, shards, region, picked) =>
      if id in picked && Eligible(r, now, shards, region) then WasClaimed else Untouched
    case Extend(_, i, worker, version, _) => if id == i && Holds(r, worker, version) then WasExtended else Untouched
    case Success(_, i, worker, version, _) => if id == i && Holds(r, worker, version) then WasCompleted else Untouched
    case FailRead(_, _, _, _, _, _, _) => Untouched
    case FailWrite(_, call, _) =>
      if call in s.calls && s.calls[call].id == id && Holds(r, s.calls[call].worker, s.calls[call].version)
      then WasFailed else Untouched
    case SweepRetry(now) => if Expired(r, now) && r.attemptCount < cfg.maxAttempts then WasReclaimed else Untouched
    case SweepDead(now) => if Expired(r, now) && r.attemptCount >= cfg.maxAttempts then WasReclaimed else Untouched
  }

  predicate IsCommit(e: Effect) { e == WasCompleted || e == WasFailed }

  /** How often a run had an effect of the given kind on the row. */
  function Count(cfg: Config, s: State, steps: seq<Step>, id: JobId, e: Effect): nat
    requires id in s.rows
    decreases |steps|
  {
    if steps == [] then 0
    else (if EffectOn(cfg, s, steps[0], id) == e then 1 else 0) + Count(cfg, Apply(cfg, s, steps[0]), steps[1..], id, e)
  }

  // ----- fencing -----

  /** The fence (row, v) is spent: the version has moved on, or the row has left `processing` under it. */
  predicate Spent(r: Row, v: nat) {
    r.leaseVersion > v || (r.leaseVersion == v && r.status != Processing)
  }

  lemma {:induction false} SpentForever(cfg: Config, s: State, steps: seq<Step>, id: JobId, v: nat)
    requires id in s.rows && Spent(s.rows[id], v)
    ensures Spent(RowAt(cfg, s, steps, id), v)
    decreases |steps|
  {
    if steps == [] {
    } else {
      SpentForever(cfg, Apply(cfg, s, steps[0]), steps[1..], id, v);
    }
  }

  lemma {:induction false} VersionGrows(cfg: Config, s: State, steps: seq<Step>, id: JobId)
    requires id in s.rows
    ensures RowAt(cfg, s, steps, id).leaseVersion >= s.rows[id].leaseVersion
    decreases |steps|
  {
    if steps == [] {
    } else {
      VersionGrows(cfg, Apply(cfg, s, steps[0]), steps[1..], id);
    }
  }

  /** The state before the j-th step is a run away from the state after the i-th. */
  lemma BetweenSteps(cfg: Config, s: State, steps: seq<Step>, i: nat, j: nat)
    requires i < j <= |steps|
    ensures Exec(cfg, s, steps[..j]) == Exec(cfg, Apply(cfg, Exec(cfg, s, steps[..i]), steps[i]), steps[i + 1..j])
  {
    assert steps[..j] == steps[..i] + steps[i..j];
    ExecAppend(cfg, s, steps[..i], steps[i..j]);
    assert steps[i..j][0] == steps[i] && steps[i..j][1..] == steps[i + 1..j];
  }

  function EffectAt(cfg: Config, s: State, steps: seq<Step>, i: nat, id: JobId): Effect
    requires id in s.rows && i < |steps|
  {
    ExecKeys(cfg, s, steps[..i]);
    EffectOn(cfg, Exec(cfg, s, steps[..i]), steps[i], id)
  }

  /** What one step does to the version of a row. */
  lemma VersionStep(cfg: Config, s: State, step: Step, id: JobId)
    requires id in s.rows
    ensures var e, r, r' := EffectOn(cfg, s, step, id), s.rows[id], Apply(cfg, s, step).rows[id];
            && r'.leaseVersion == r.leaseVersion + (if e == WasClaimed || e == WasReclaimed then 1 else 0)
            && (e == WasClaimed <==> r.status == Pending && r'.status == Processing)
            && (IsCommit(e) ==> r.status == Processing && r'.status != Processing)
            && (e == WasReclaimed ==> r.status == Processing && r'.status != Processing)
            && (e == WasExtended ==> r.status == r'.status == Processing)
  {
  }

  lemma AfterStep(cfg: Config, s: State, steps: seq<Step>, i: nat, id: JobId)
    requires id in s.rows && i < |steps|
    ensures id in Exec(cfg, s, steps[..i]).rows
    ensures RowBefore(cfg, s, steps, i + 1, id) == Apply(cfg, Exec(cfg, s, steps[..i]), steps[i]).rows[id]
  {
    ExecKeys(cfg, s, steps[..i]);
    BetweenSteps(cfg, s, steps, i, i + 1);
    assert steps[i + 1..i + 1] == [];
  }

  /** Versions never go back between two steps of a run. */
  lemma VersionGrowsBetween(cfg: Config, s: State, steps: seq<Step>, i: nat, j: nat, id: JobId)
    requires id in s.rows && i < j < |steps|
    ensures RowBefore(cfg, s, steps, i + 1, id).leaseVersion <= RowBefore(cfg, s, steps, j, id).leaseVersion
  {
    AfterStep(cfg, s, steps, i, id);
    BetweenSteps(cfg, s, steps, i, j);
    VersionGrows(cfg, Apply(cfg, Exec(cfg, s, steps[..i]), steps[i]), steps[i + 1..j], id);
  }

  /** No (row, lease_version) pair is handed out twice: of two claims of a row, by any workers, the
      later one always gets a larger version. */
  lemma NoVersionHandedOutTwice(cfg: Config, s: State, steps: seq<Step>, i: nat, j: nat, id: JobId)
    requires id in s.rows && i < j < |steps|
    requires EffectAt(cfg, s, steps, i, id) == WasClaimed && EffectAt(cfg, s, steps, j, id) == WasClaimed
    ensures RowBefore(cfg, s, steps, i + 1, id).leaseVersion < RowBefore(cfg, s, steps, j + 1, id).leaseVersion
  {
    VersionGrowsBetween(cfg, s, steps, i, j, id);
    AfterStep(cfg, s, steps, j, id);
    VersionStep(cfg, Exec(cfg, s, steps[..j]), steps[j], id);
  }

  /** Every claim is committed at most once: two commits that took effect on a row did so under
      different lease versions. */
  lemma OneCommitPerClaim(cfg: Config, s: State, steps: seq<Step>, i: nat, j: nat, id: JobId)
    requires id in s.rows && i < j < |steps|
    requires IsCommit(EffectAt(cfg, s, steps, i, id)) && IsCommit(EffectAt(cfg, s, steps, j, id))
    ensures RowBefore(cfg, s, steps, i, id).leaseVersion < RowBefore(cfg, s, steps, j, id).leaseVersion
  {
    var v := RowBefore(cfg, s, steps, i, id).leaseVersion;
    AfterStep(cfg, s, steps, i, id);
    VersionStep(cfg, Exec(cfg, s, steps[..i]), steps[i], id);
    BetweenSteps(cfg, s, steps, i, j);
    SpentForever(cfg, Apply(cfg, Exec(cfg, s, steps[..i]), steps[i]), steps[i + 1..j], id, v);
    AfterStep(cfg, s, steps, j, id);
    VersionStep(cfg, Exec(cfg, s, steps[..j]), steps[j], id);
  }

  /** The row and version a worker's statement is fenced by. */
  predicate FencedBy(s: State, step: Step, id: JobId, v: nat) {
    match step
    case Extend(_, i, _, version, _) => i == id && version == v
    case Success(_, i, _, version, _) => i == id && version == v
    case FailRead(_, _, i, _, version, _, _) => i == id && version == v
    case FailWrite(_, call, _) => call in s.calls && s.calls[call].id == id && s.calls[call].version == v
    case _ => false
  }

  /** Zombie guard: once the version moved past v (or was committed under v), no extension and no
      commit fenced by v changes any row, however much later it arrives. */
  lemma SupersededHolderIsHarmless(cfg: Config, s: State, steps: seq<Step>, step: Step, id: JobId, v: nat)
    requires id in s.rows && Spent(s.rows[id], v)
    requires FencedBy(Exec(cfg, s, steps), step, id, v)
    ensures Apply(cfg, Exec(cfg, s, steps), step).rows == Exec(cfg, s, steps).rows
  {
    ExecKeys(cfg, s, steps);
    SpentForever(cfg, s, steps, id, v);
  }

  /** `processed` and `dead_letter` rows never change again. */
  lemma {:induction false} TerminalRowsAreFrozen(cfg: Config, s: State, steps: seq<Step>, id: JobId)
    requires id in s.rows && !Open(s.rows[id])
    ensures RowAt(cfg, s, steps, id) == s.rows[id]
    decreases |steps|
  {
    if steps == [] {
    } else {
      TerminalRowsAreFrozen(cfg, Apply(cfg, s, steps[0]), steps[1..], id);
    }
  }

  // ----- commitFailure -----

  /** What a SELECT of commitFailure read is still true if the fence it was read under still holds. */
  predicate ReadIsCurrent(r: Row, f: FailCall) {
    f.version <= r.leaseVersion && (Holds(r, f.worker, f.version) ==> r.attemptCount == f.attempt)
  }

  predicate ReadsAreCurrent(s: State) {
    forall c :: c in s.calls ==> s.calls[c].id in s.rows && ReadIsCurrent(s.rows[s.calls[c].id], s.calls[c])
  }

  lemma ReadStaysCurrent(cfg: Config, calls: map<CallId, FailCall>, id: JobId, r: Row, step: Step, f: FailCall)
    requires ReadIsCurrent(r, f)
    ensures ReadIsCurrent(RowAfter(cfg, calls, id, r, step), f)
  {
  }

  lemma StepKeepsReads(cfg: Config, s: State, step: Step)
    requires ReadsAreCurrent(s)
    ensures ReadsAreCurrent(Apply(cfg, s, step))
  {
    var s' := Apply(cfg, s, step);
    forall c | c in s'.calls
      ensures s'.calls[c].id in s'.rows && ReadIsCurrent(s'.rows[s'.calls[c].id], s'.calls[c])
    {
      if c in s.calls {
        ReadStaysCurrent(cfg, s.calls, s.calls[c].id, s.rows[s.calls[c].id], step, s.calls[c]);
      }
    }
  }

  lemma {:induction false} ReadsStayCurrent(cfg: Config, s: State, steps: seq<Step>)
    requires ReadsAreCurrent(s)
    ensures ReadsAreCurrent(Exec(cfg, s, steps))
    decreases |steps|
  {
    if steps == [] {
    } else {
      StepKeepsReads(cfg, s, steps[0]);
      ReadsStayCurrent(cfg, Apply(cfg, s, steps[0]), steps[1..]);
    }
  }

  /** commitFailure's SELECT and UPDATE act as one atomic step: with any statements of any workers in
      between, the UPDATE either changes nothing or adds one to the attempt count the row has now. */
  lemma CommitFailureIsAtomic(cfg: Config, s: State, steps: seq<Step>, now: Time, call: CallId, random: nat)
    requires ReadsAreCurrent(s)
    ensures var pre := Exec(cfg, s, steps);
            var post := Apply(cfg, pre, FailWrite(now, call, random));
            || post.rows == pre.rows
            || (&& call in pre.calls
                && var f := pre.calls[call];
                && f.id in pre.rows && Holds(pre.rows[f.id], f.worker, f.version)
                && post.rows == pre.rows[f.id := FailedOnce(cfg, pre.rows[f.id],
                                                            f.(attempt := pre.rows[f.id].attemptCount), now, random)]
                && post.rows[f.id].attemptCount == pre.rows[f.id].attemptCount + 1)
  {
    ReadsStayCurrent(cfg, s, steps);
  }

  /** No UPDATE of this commitFailure call. */
  predicate NoWriteOf(steps: seq<Step>, call: CallId) { forall x :: x in steps ==> !(x.FailWrite? && x.call == call) }

  lemma {:induction false} CallStays(cfg: Config, s: State, steps: seq<Step>, call: CallId)
    requires call in s.calls && NoWriteOf(steps, call)
    ensures call in Exec(cfg, s, steps).calls && Exec(cfg, s, steps).calls[call] == s.calls[call]
    decreases |steps|
  {
    if steps == [] {
    } else {
      assert steps[0] in steps;
      CallStays(cfg, Apply(cfg, s, steps[0]), steps[1..], call);
    }
  }

  /** A failure that has been read is written, however late: after any statements of any workers, the
      UPDATE counts the attempt exactly if its worker still holds the row under the version it read. */
  lemma LateFailureCountsExactlyWhen(cfg: Config, s: State, read: Step, steps: seq<Step>, now: Time, random: nat)
    requires ReadsAreCurrent(s) && read.FailRead? && read.call !in s.calls && NoWriteOf(steps, read.call)
    requires read.id in s.rows && Holds(s.rows[read.id], read.worker, read.version)
    ensures var pre := Exec(cfg, Apply(cfg, s, read), steps);
            var post := Apply(cfg, pre, FailWrite(now, read.call, random));
            && read.id in pre.rows && read.id in post.rows
            && var r, r' := pre.rows[read.id], post.rows[read.id];
            if Holds(r, read.worker, read.version) then
              r'.attemptCount == r.attemptCount + 1 && r'.status != Processing && r'.error == Some(read.error)
            else r' == r
  {
    var s1 := Apply(cfg, s, read);
    assert s1.rows == s.rows;
    StepKeepsReads(cfg, s, read);
    ReadsStayCurrent(cfg, s1, steps);
    CallStays(cfg, s1, steps, read.call);
    ExecKeys(cfg, s1, steps);
  }

  // ----- accounting -----

  function Busy(r: Row): nat { if r.status == Processing then 1 else 0 }

  /** For every row and every run: the version grew by claims plus reclaims; every claim was ended by
      a reclaim or an effective commit or is still running; the attempt count grew by the number of
      effective commitFailure calls. */
  lemma {:induction false} Accounting(cfg: Config, s: State, steps: seq<Step>, id: JobId)
    requires id in s.rows && ReadsAreCurrent(s)
    ensures var r, r' := s.rows[id], RowAt(cfg, s, steps, id);
            var claims, reclaims := Count(cfg, s, steps, id, WasClaimed), Count(cfg, s, steps, id, WasReclaimed);
            var completed, failed := Count(cfg, s, steps, id, WasCompleted), Count(cfg, s, steps, id, WasFailed);
            && r'.leaseVersion == r.leaseVersion + claims + reclaims
            && Busy(r) + claims == reclaims + completed + failed + Busy(r')
            && r'.attemptCount == r.attemptCount + failed
    decreases |steps|
  {
    if steps == [] {
    } else {
      StepKeepsReads(cfg, s, steps[0]);
      VersionStep(cfg, s, steps[0], id);
      Accounting(cfg, Apply(cfg, s, steps[0]), steps[1..], id);
    }
  }

  // ----- reachable states -----

  predicate RowOk(cfg: Config, r: Row) {
    && (Open(r) ==> r.attemptCount < cfg.maxAttempts)
    && (r.leasedBy.Some? <==> r.status == Processing)
    && (r.leaseExpiresAt.Some? <==> r.status == Processing)
    && (r.status == Processed ==> r.attemptCount < cfg.maxAttempts)
    && (r.status == DeadLetter ==> 1 <= r.attemptCount <= cfg.maxAttempts)
  }

  predicate Sound(cfg: Config, s: State) {
    ReadsAreCurrent(s) && forall id :: id in s.rows ==> RowOk(cfg, s.rows[id])
  }

  /** Freshly inserted rows and no call in progress. */
  predicate Initial(cfg: Config, s: State) {
    && cfg.maxAttempts >= 1
    && s.calls == map[]
    && forall id :: id in s.rows ==>
         var r := s.rows[id];
         r.status == Pending && r.leasedBy == None && r.leaseExpiresAt == None && r.attemptCount == 0
  }

  lemma RowStaysOk(cfg: Config, calls: map<CallId, FailCall>, id: JobId, r: Row, step: Step)
    requires RowOk(cfg, r)
    requires step.FailWrite? && step.call in calls && calls[step.call].id == id ==> ReadIsCurrent(r, calls[step.call])
    ensures RowOk(cfg, RowAfter(cfg, calls, id, r, step))
  {
  }

  lemma StepKeepsSound(cfg: Config, s: State, step: Step)
    requires Sound(cfg, s)
    ensures Sound(cfg, Apply(cfg, s, step))
  {
    StepKeepsReads(cfg, s, step);
    forall id | id in s.rows ensures RowOk(cfg, Apply(cfg, s, step).rows[id]) {
      RowStaysOk(cfg, s.calls, id, s.rows[id], step);
    }
  }

  lemma {:induction false} RunKeepsSound(cfg: Config, s: State, steps: seq<Step>)
    requires Sound(cfg, s)
    ensures Sound(cfg, Exec(cfg, s, steps))
    decreases |steps|
  {
    if steps == [] {
    } else {
      StepKeepsSound(cfg, s, steps[0]);
      RunKeepsSound(cfg, Apply(cfg, s, steps[0]), steps[1..]);
    }
  }

  /** In every reachable state an open row has attempts left and a lease is recorded exactly on the
      rows being processed; so the sweep's dead-letter UPDATE never matches a row. */
  lemma ReachableStates(cfg: Config, s: State, steps: seq<Step>, now: Time)
    requires Initial(cfg, s)
    ensures var s' := Exec(cfg, s, steps);
            && (forall id :: id in s'.rows ==> RowOk(cfg, s'.rows[id]))
            && Apply(cfg, s', SweepDead(now)).rows == s'.rows
  {
    RunKeepsSound(cfg, s, steps);
  }

  // ----- bounded retries -----

  function Remaining(cfg: Config, r: Row): nat {
    if Open(r) && r.attemptCount < cfg.maxAttempts then cfg.maxAttempts - r.attemptCount else 0
  }

  /** The attempts left over all open rows. */
  ghost function Budget(cfg: Config, t: Table): nat { Sum(RemainingOf(cfg, t)) }

  function RemainingOf(cfg: Config, t: Table): map<JobId, nat> { map id | id in t :: Remaining(cfg, t[id]) }

  lemma StepNeverAddsBudget(cfg: Config, s: State, step: Step)
    requires Sound(cfg, s)
    ensures Budget(cfg, Apply(cfg, s, step).rows) <= Budget(cfg, s.rows)
  {
    var t := Apply(cfg, s, step).rows;
    forall id | id in s.rows ensures Remaining(cfg, t[id]) <= Remaining(cfg, s.rows[id]) {
      assert RowOk(cfg, s.rows[id]);
    }
    SumMonotone(RemainingOf(cfg, s.rows), RemainingOf(cfg, t));
  }

  /** A commit touches its own row only, and takes at least one attempt from it. */
  lemma CommitSpendsRow(cfg: Config, s: State, step: Step, id: JobId, j: JobId)
    requires Sound(cfg, s) && id in s.rows && j in s.rows && IsCommit(EffectOn(cfg, s, step, id))
    ensures j != id ==> RowAfter(cfg, s.calls, j, s.rows[j], step) == s.rows[j]
    ensures Remaining(cfg, RowAfter(cfg, s.calls, id, s.rows[id], step)) < Remaining(cfg, s.rows[id])
  {
    assert RowOk(cfg, s.rows[id]);
  }

  /** Every commit that takes effect uses up budget. */
  lemma CommitSpendsBudget(cfg: Config, s: State, step: Step, id: JobId)
    requires Sound(cfg, s) && id in s.rows && IsCommit(EffectOn(cfg, s, step, id))
    ensures Budget(cfg, Apply(cfg, s, step).rows) < Budget(cfg, s.rows)
  {
    var f, g := RemainingOf(cfg, s.rows), RemainingOf(cfg, RowsAfter(cfg, s, step));
    forall j | j in f ensures j != id ==> f[j] == g[j] {
      CommitSpendsRow(cfg, s, step, id, j);
    }
    CommitSpendsRow(cfg, s, step, id, id);
    SumUpdate(f, g, id);
  }

  /** The number of steps of the run that committed some row. */
  ghost function Commits(cfg: Config, s: State, steps: seq<Step>): nat
    decreases |steps|
  {
    if steps == [] then 0
    else (if exists id :: id in s.rows && IsCommit(EffectOn(cfg, s, steps[0], id)) then 1 else 0)
         + Commits(cfg, Apply(cfg, s, steps[0]), steps[1..])
  }

  lemma {:induction false} CommitsAreBounded(cfg: Config, s: State, steps: seq<Step>)
    requires Sound(cfg, s)
    ensures Commits(cfg, s, steps) + Budget(cfg, Exec(cfg, s, steps).rows) <= Budget(cfg, s.rows)
    decreases |steps|
  {
    if steps == [] {
    } else {
      StepKeepsSound(cfg, s, steps[0]);
      StepNeverAddsBudget(cfg, s, steps[0]);
      if id :| id in s.rows && IsCommit(EffectOn(cfg, s, steps[0], id)) {
        CommitSpendsBudget(cfg, s, steps[0], id);
      }
      CommitsAreBounded(cfg, Apply(cfg, s, steps[0]), steps[1..]);
    }
  }

  lemma CompletionStep(cfg: Config, s: State, step: Step, id: JobId)
    requires id in s.rows
    ensures EffectOn(cfg, s, step, id) == WasCompleted <==>
            s.rows[id].status != Processed && Apply(cfg, s, step).rows[id].status == Processed
    ensures !Open(s.rows[id]) ==> Apply(cfg, s, step).rows[id] == s.rows[id]
  {
  }

  /** A row that completes stays below the limit, and a completed row cannot complete again. */
  lemma {:induction false} CompletedAtMostOnce(cfg: Config, s: State, steps: seq<Step>, id: JobId)
    requires id in s.rows && Sound(cfg, s)
    ensures Count(cfg, s, steps, id, WasCompleted) ==
            (if Open(s.rows[id]) && RowAt(cfg, s, steps, id).status == Processed then 1 else 0)
    decreases |steps|
  {
    if steps == [] {
    } else {
      var s' := Apply(cfg, s, steps[0]);
      StepKeepsSound(cfg, s, steps[0]);
      CompletedAtMostOnce(cfg, s', steps[1..], id);
      CompletionStep(cfg, s, steps[0], id);
      if !Open(s'.rows[id]) { TerminalRowsAreFrozen(cfg, s', steps[1..], id); }
    }
  }

  /** No row is claimed more than maxAttempts times plus once per reclaim; in a run where every
      claimed item reaches its commit (no reclaim), a row that used up its claims and is not running
      has ended in `processed` or `dead_letter`. */
  lemma ClaimsAreBounded(cfg: Config, s: State, steps: seq<Step>, id: JobId)
    requires Initial(cfg, s) && id in s.rows
    ensures var claims, reclaims := Count(cfg, s, steps, id, WasClaimed), Count(cfg, s, steps, id, WasReclaimed);
            var r := RowAt(cfg, s, steps, id);
            && claims <= cfg.maxAttempts + reclaims
            && (claims == cfg.maxAttempts + reclaims && r.status != Processing ==>
                  r.status == Processed || r.status == DeadLetter)
  {
    Accounting(cfg, s, steps, id);
    CompletedAtMostOnce(cfg, s, steps, id);
    RunKeepsSound(cfg, s, steps);
    ExecKeys(cfg, s, steps);
    assert RowOk(cfg, Exec(cfg, s, steps).rows[id]);
  }

  // ----- timed leases -----

  predicate Monotone(steps: seq<Step>) {
    forall i, j :: 0 <= i < j < |steps| ==> steps[i].now <= steps[j].now
  }

  predicate Beats(step: Step, id: JobId, worker: WorkerId, v: nat) {
    step.Extend? && step.id == id && step.worker == worker && step.version == v
  }

  predicate Finishes(s: State, step: Step, id: JobId, worker: WorkerId, v: nat) {
    match step
    case Success(_, i, w, version, _) => i == id && w == worker && version == v
    case FailWrite(_, call, _) =>
      call in s.calls && s.calls[call].id == id && s.calls[call].worker == worker && s.calls[call].version == v
    case _ => false
  }

  /** The run ends with the holder's commit; each of its heartbeats, and the commit, comes less than
      the lease timeout after the last renewal. Nothing is asked of the other workers' steps. */
  predicate Timely(cfg: Config, s: State, steps: seq<Step>, id: JobId, worker: WorkerId, v: nat, last: Time)
    decreases |steps|
  {
    && steps != []
    && var x := steps[0];
    if Finishes(s, x, id, worker, v) then |steps| == 1 && x.now < last + cfg.leaseMs
    else if Beats(x, id, worker, v) then
      && x.now < last + cfg.leaseMs && x.extendMs == cfg.leaseMs
      && Timely(cfg, Apply(cfg, s, x), steps[1..], id, worker, v, x.now)
    else Timely(cfg, Apply(cfg, s, x), steps[1..], id, worker, v, last)
  }

  /** A step's effect, counted from the first step of the run or from the second. */
  lemma EffectFromSecond(cfg: Config, s: State, steps: seq<Step>, i: nat, id: JobId)
    requires id in s.rows && 0 < i < |steps|
    ensures EffectAt(cfg, s, steps, i, id) == EffectAt(cfg, Apply(cfg, s, steps[0]), steps[1..], i - 1, id)
  {
    assert steps[..i][1..] == steps[1..][..i - 1] && steps[..i][0] == steps[0];
  }

  /** The next renewal or commit is ahead, so no step before it is late. */
  lemma {:induction false} NothingIsLate(cfg: Config, s: State, steps: seq<Step>, id: JobId, worker: WorkerId, v: nat,
                                         last: Time)
    requires Timely(cfg, s, steps, id, worker, v, last) && Monotone(steps)
    ensures steps[0].now < last + cfg.leaseMs
    decreases |steps|
  {
    var x := steps[0];
    if !Finishes(s, x, id, worker, v) && !Beats(x, id, worker, v) {
      NothingIsLate(cfg, Apply(cfg, s, x), steps[1..], id, worker, v, last);
      assert steps[0].now <= steps[1].now;
    }
  }

  /** The row is held, under a lease that runs from `last`. */
  predicate LeasedFrom(cfg: Config, s: State, id: JobId, worker: WorkerId, v: nat, last: Time) {
    id in s.rows && Holds(s.rows[id], worker, v) && s.rows[id].leaseExpiresAt == Some(last + cfg.leaseMs)
  }

  /** One step that is not late, other than the holder's commit: the row stays held. */
  lemma HolderStays(cfg: Config, s: State, x: Step, id: JobId, worker: WorkerId, v: nat, last: Time)
    requires LeasedFrom(cfg, s, id, worker, v, last) && !Finishes(s, x, id, worker, v)
    requires x.now <= last + cfg.leaseMs && (Beats(x, id, worker, v) ==> x.extendMs == cfg.leaseMs)
    ensures EffectOn(cfg, s, x, id) != WasReclaimed
    ensures LeasedFrom(cfg, Apply(cfg, s, x), id, worker, v, if Beats(x, id, worker, v) then x.now else last)
  {
  }

  lemma HolderCommits(cfg: Config, s: State, x: Step, id: JobId, worker: WorkerId, v: nat, last: Time)
    requires LeasedFrom(cfg, s, id, worker, v, last) && Finishes(s, x, id, worker, v)
    ensures Count(cfg, s, [x], id, WasReclaimed) == 0 && IsCommit(EffectAt(cfg, s, [x], 0, id))
  {
    assert [x][..0] == [] && [x][1..] == [];
    assert Count(cfg, s, [x], id, WasReclaimed) ==
           (if EffectOn(cfg, s, x, id) == WasReclaimed then 1 else 0)
           + Count(cfg, Apply(cfg, s, x), [], id, WasReclaimed);
  }

  /** Timed lease safety: if every heartbeat lands in time, no sweep of any worker reclaims the row
      before its holder commits, and that commit takes effect. */
  lemma {:induction false} TimelyHolderCommits(cfg: Config, s: State, steps: seq<Step>, id: JobId, worker: WorkerId,
                                               v: nat, last: Time)
    requires LeasedFrom(cfg, s, id, worker, v, last)
    requires Timely(cfg, s, steps, id, worker, v, last) && Monotone(steps)
    ensures Count(cfg, s, steps, id, WasReclaimed) == 0
    ensures IsCommit(EffectAt(cfg, s, steps, |steps| - 1, id))
    decreases |steps|
  {
    var x := steps[0];
    if Finishes(s, x, id, worker, v) {
      assert steps == [x];
      HolderCommits(cfg, s, x, id, worker, v, last);
    } else {
      NothingIsLate(cfg, s, steps, id, worker, v, last);
      HolderStays(cfg, s, x, id, worker, v, last);
      var last' := if Beats(x, id, worker, v) then x.now else last;
      TimelyHolderCommits(cfg, Apply(cfg, s, x), steps[1..], id, worker, v, last');
      EffectFromSecond(cfg, s, steps, |steps| - 1, id);
    }
  }

  /** The time of the holder's last renewal in the run. */
  function LastBeat(steps: seq<Step>, id: JobId, worker: WorkerId, v: nat, last: Time): Time
    decreases |steps|
  {
    if steps == [] then last
    else LastBeat(steps[1..], id, worker, v, if Beats(steps[0], id, worker, v) then steps[0].now else last)
  }

  /** The holder is still at work: it has not committed, it renews for a full lease each time, and no
      step of anybody comes later than the lease timeout after its last renewal. */
  predicate OnTime(cfg: Config, s: State, steps: seq<Step>, id: JobId, worker: WorkerId, v: nat, last: Time)
    decreases |steps|
  {
    steps != [] ==>
      var x := steps[0];
      && x.now <= last + cfg.leaseMs && !Finishes(s, x, id, worker, v)
      && (Beats(x, id, worker, v) ==> x.extendMs == cfg.leaseMs)
      && OnTime(cfg, Apply(cfg, s, x), steps[1..], id, worker, v, if Beats(x, id, worker, v) then x.now else last)
  }

  /** A holder at work keeps its row, whatever other workers and sweeps do, for as long as it beats in
      time: nothing has reclaimed the row, and the lease runs to the timeout after its last beat. The
      next sweep takes the row exactly if it comes later than that. */
  lemma {:induction false} WorkingHolderKeepsItsRow(cfg: Config, s: State, steps: seq<Step>, id: JobId,
                                                    worker: WorkerId, v: nat, last: Time, at: Time)
    requires LeasedFrom(cfg, s, id, worker, v, last)
    requires OnTime(cfg, s, steps, id, worker, v, last)
    ensures Count(cfg, s, steps, id, WasReclaimed) == 0 && Holds(RowAt(cfg, s, steps, id), worker, v)
    ensures Expired(RowAt(cfg, s, steps, id), at) <==> at > LastBeat(steps, id, worker, v, last) + cfg.leaseMs
    decreases |steps|
  {
    if steps == [] {
    } else {
      HolderStays(cfg, s, steps[0], id, worker, v, last);
      var last' := if Beats(steps[0], id, worker, v) then steps[0].now else last;
      WorkingHolderKeepsItsRow(cfg, Apply(cfg, s, steps[0]), steps[1..], id, worker, v, last', at);
    }
  }

  /** Up to its commit, a timely holder is at work and on time. */
  lemma {:induction false} TimelyMeansOnTime(cfg: Config, s: State, steps: seq<Step>, id: JobId, worker: WorkerId,
                                             v: nat, last: Time, n: nat)
    requires Timely(cfg, s, steps, id, worker, v, last) && Monotone(steps) && n < |steps|
    ensures OnTime(cfg, s, steps[..n], id, worker, v, last)
    decreases n
  {
    if n == 0 {
    } else {
      NothingIsLate(cfg, s, steps, id, worker, v, last);
      var last' := if Beats(steps[0], id, worker, v) then steps[0].now else last;
      TimelyMeansOnTime(cfg, Apply(cfg, s, steps[0]), steps[1..], id, worker, v, last', n - 1);
      assert steps[..n][0] == steps[0] && steps[..n][1..] == steps[1..][..n - 1];
    }
  }

  lemma ClaimLeases(cfg: Config, s: State, claim: Step, id: JobId)
    requires id in s.rows && claim.Claim? && EffectOn(cfg, s, claim, id) == WasClaimed
    ensures LeasedFrom(cfg, Apply(cfg, s, claim), id, claim.worker, s.rows[id].leaseVersion + 1, claim.calledAt)
  {
  }

  /** The same from the claim on: the claim's lease runs from the moment atomicClaim was called. */
  lemma TimelyClaimCommits(cfg: Config, s: State, run: seq<Step>, id: JobId)
    requires id in s.rows && run != [] && run[0].Claim? && EffectOn(cfg, s, run[0], id) == WasClaimed
    requires var v := s.rows[id].leaseVersion + 1;
             Timely(cfg, Apply(cfg, s, run[0]), run[1..], id, run[0].worker, v, run[0].calledAt)
    requires Monotone(run[1..])
    ensures Count(cfg, s, run, id, WasReclaimed) == 0
    ensures IsCommit(EffectAt(cfg, s, run, |run| - 1, id))
  {
    var claim, v := run[0], s.rows[id].leaseVersion + 1;
    ClaimLeases(cfg, s, claim, id);
    TimelyHolderCommits(cfg, Apply(cfg, s, claim), run[1..], id, claim.worker, v, claim.calledAt);
    EffectFromSecond(cfg, s, run, |run| - 1, id);
  }

  // ----- configured intervals -----

  datatype QueueKey =
    | WebhookEvents | EmailDispatch | RefundRetry | BookingExpiry | PaymentReconciliation | OutboxRelay
    | Unconfigured

  function LeaseTimeoutMs(q: QueueKey): nat {
    match q
    case WebhookEvents => 30_000
    case EmailDispatch => 60_000
    case RefundRetry => 120_000
    case BookingExpiry => 55_000
    case PaymentReconciliation => 280_000
    case OutboxRelay => 30_000
    case Unconfigured => 30_000
  }

  function HeartbeatMs(q: QueueKey): nat {
    match q
    case WebhookEvents => 10_000
    case EmailDispatch => 20_000
    case RefundRetry => 40_000
    case BookingExpiry => 18_000
    case PaymentReconciliation => 90_000
    case OutboxRelay => 10_000
    case Unconfigured => 15_000
  }

  /** The heartbeat timer fires at every multiple of its interval after the claim. */
  function DueAt(q: QueueKey, claimedAt: Time, k: nat): Time { claimedAt + k * HeartbeatMs(q) }

  predicate LeaseCovers(q: QueueKey, landed: Time, next: Time) { next < landed + LeaseTimeoutMs(q) }

  /** A heartbeat may be lost: for a configured queue, if beat k lands when due or later, beat k + 1 is
      lost, and beat k + 2 lands before beat k + 3 is due, the lease has not run out in between. The
      fallback intervals of a queue without settings do not leave that room. */
  lemma OneLostBeatIsTolerated(q: QueueKey, claimedAt: Time, k: nat)
    ensures q != Unconfigured <==>
            forall landed, next :: DueAt(q, claimedAt, k) <= landed <= next < DueAt(q, claimedAt, k + 3) ==>
              LeaseCovers(q, landed, next)
  {
    var due, h := DueAt(q, claimedAt, k), HeartbeatMs(q);
    assert DueAt(q, claimedAt, k + 3) == due + 3 * h by { assert (k + 3) * h == k * h + 3 * h; }
    assert 3 * h <= LeaseTimeoutMs(q) <==> q != Unconfigured;
    if q == Unconfigured {
      assert !LeaseCovers(q, due, due + 30_000);
    }
  }

  // ----- backoff -----

  lemma ProductIsPositive(a: nat, b: nat)
    requires a >= 1 && b >= 1
    ensures a * b >= 1
  {
  }

  lemma Remainder(x: nat, n: nat)
    requires n >= 1
    ensures 0 <= x % n < n && (x < n ==> x % n == x)
  {
  }

  lemma BackoffWindow(cfg: Config, now: Time, attempt: nat, random: nat)
    requires cfg.retryBaseMs >= 1
    ensures var window := Min(600_000, cfg.retryBaseMs * Pow2(attempt));
            && now <= NextRunAt(cfg, now, attempt, random) < now + window
            && (random < window ==> NextRunAt(cfg, now, attempt, random) == now + random)
  {
    ProductIsPositive(cfg.retryBaseMs, Pow2(attempt));
    var bound := Min(BACKOFF_CAP_MS, cfg.retryBaseMs * Pow2(attempt));
    Remainder(random, bound);
  }

  /** A failed attempt that may be retried comes back within the backoff window of its new attempt count, at
      most ten minutes, where a random number below the window is the delay itself, so every delay in it
      is possible; and no worker can claim it before its time. */
  lemma RetryWaitsItsBackoff(cfg: Config, r: Row, f: FailCall, now: Time, random: nat, at: Time, shards: seq<nat>)
    requires cfg.retryBaseMs >= 1 && f.attempt + 1 < cfg.maxAttempts && !f.forced
    ensures var r' := FailedOnce(cfg, r, f, now, random);
            && r'.runAfter.Some?
            && var window := Min(600_000, cfg.retryBaseMs * Pow2(f.attempt + 1));
            && now <= r'.runAfter.value < now + window
            && (random < window ==> r'.runAfter.value == now + random)
            && (Eligible(r', at, shards, r'.regionId) ==> r'.runAfter.value <= at)
  {
    BackoffWindow(cfg, now, f.attempt + 1, random);
  }
}
