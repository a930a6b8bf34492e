/** The side-effect journal of atomic-engine.js, and its use by workers on top of the lease queue. */
module SideEffects {
  import opened Basics
  import Q = LeaseQueue
  import Runs = LeaseRuns

  type JobId = Q.JobId
  type OpKey = string
  type Token = nat

  /** None stands for every falsy response; the journal keeps NULL for it. */
  type Response = Option<nat>

  datatype EntryState = Initiated | Executing | Completed | Failed

  datatype Entry = Entry(state: EntryState, token: Token, response: Response, retryCount: nat)

  type Journal = map<OpKey, Entry>

  // ----- the journal's statements -----

  datatype InsertResult = Inserted | Conflict | TokenTaken

  /** INSERT ... ON CONFLICT (operation_key) DO NOTHING. A replay token already in the table violates
      its own UNIQUE constraint, which the conflict clause does not cover. */
  function InsertOutcome(j: Journal, key: OpKey, token: Token): InsertResult {
    if key in j then Conflict
    else if exists k | k in j :: j[k].token == token then TokenTaken
    else Inserted
  }

  function InsertEntry(j: Journal, key: OpKey, token: Token): Journal {
    if InsertOutcome(j, key, token) == Inserted then j[key := Entry(Initiated, token, None, 0)] else j
  }

  function MarkExecuting(j: Journal, key: OpKey): Journal {
    if key in j then j[key := j[key].(state := Executing)] else j
  }

  function MarkCompleted(j: Journal, key: OpKey, response: Response): Journal {
    if key in j then j[key := j[key].(state := Completed, response := response)] else j
  }

  function MarkFailed(j: Journal, key: OpKey): Journal {
    if key in j then j[key := j[key].(state := Failed, retryCount := j[key].retryCount + 1)] else j
  }

  datatype Slot =
    | AlreadyExecuted(result: Response, replayToken: Token)
    | Proceed(token: Option<Token>)
    | InsertFailed

  /** What acquireSideEffectSlot answers when its statements run without interruption, but for a cleanup
      that may delete a conflicting entry before it is read. */
  function SlotFor(j: Journal, key: OpKey, newToken: Token, cleanedUp: bool): Slot {
    match InsertOutcome(j, key, newToken)
    case Inserted => Proceed(Some(newToken))
    case TokenTaken => InsertFailed
    case Conflict =>
      if cleanedUp then Proceed(None)
      else if j[key].state == Completed then AlreadyExecuted(j[key].response, j[key].token)
      else Proceed(Some(j[key].token))
  }

  class SideEffectJournal {
    var entries: Journal

    constructor ()
      ensures entries == map[]
    {
      entries := map[];
    }

    method AcquireSideEffectSlot(key: OpKey, newToken: Token, cleanedUp: bool) returns (slot: Slot)
      modifies this
      ensures slot == SlotFor(old(entries), key, newToken, cleanedUp)
      ensures entries == match InsertOutcome(old(entries), key, newToken)
                         case Inserted => MarkExecuting(InsertEntry(old(entries), key, newToken), key)
                         case Conflict => if cleanedUp then old(entries) - {key} else old(entries)
                         case TokenTaken => old(entries)
      ensures match slot
              case AlreadyExecuted(result, token) =>
                && !cleanedUp && key in old(entries) && old(entries)[key].state == EntryState.Completed
                && result == old(entries)[key].response && token == old(entries)[key].token && entries == old(entries)
              case Proceed(None) => cleanedUp && key in old(entries) && entries == old(entries) - {key}
              case Proceed(Some(token)) =>
                if key in old(entries) then
                  && !cleanedUp && old(entries)[key].state != EntryState.Completed
                  && token == old(entries)[key].token && entries == old(entries)
                else
                  token == newToken && entries == old(entries)[key := Entry(Executing, newToken, None, 0)]
              case InsertFailed =>
                && key !in old(entries) && entries == old(entries)
                && exists k :: k in entries && entries[k].token == newToken
    {
      var outcome := InsertOutcome(entries, key, newToken);
      entries := InsertEntry(entries, key, newToken);
      if outcome == TokenTaken {
        return InsertFailed;
      }
      if outcome == Conflict {
        if cleanedUp {
          entries := entries - {key};
        }
        if key !in entries {
          return Proceed(None);
        }
        var entry := entries[key];
        if entry.state == Completed {
          return AlreadyExecuted(entry.response, entry.token);
        }
        return Proceed(Some(entry.token));
      }
      entries := entries[key := entries[key].(state := Executing)];
      slot := Proceed(Some(newToken));
    }

    method CompleteSideEffect(key: OpKey, response: Response)
      modifies this
      ensures entries == MarkCompleted(old(entries), key, response)
      ensures entries == if key !in old(entries) then old(entries)
                         else old(entries)[key := old(entries)[key].(state := EntryState.Completed,
                                                                     response := response)]
    {
      if key in entries {
        entries := entries[key := entries[key].(state := Completed, response := response)];
      }
    }

    method FailSideEffect(key: OpKey)
      modifies this
      ensures entries == MarkFailed(old(entries), key)
      ensures entries == if key !in old(entries) then old(entries)
                         else old(entries)[key := old(entries)[key].(state := EntryState.Failed,
                                                                     retryCount := old(entries)[key].retryCount + 1)]
    {
      if key in entries {
        entries := entries[key := entries[key].(state := Failed, retryCount := entries[key].retryCount + 1)];
      }
    }
  }

  // ----- workers, provider, journal and queue together -----

  /** One claim of one job: the job and the lease version the claim was given. */
  type SessionId = (JobId, nat)

  /** Where a worker stands in: acquire the slot, call the provider, complete the slot, commit. */
  datatype Phase =
    | Started
    | Conflicted(key: OpKey)
    | Created(key: OpKey, token: Token)
    | Ready(key: OpKey, token: Token)
    | Answered(key: OpKey, token: Token, response: Response)
    | Recorded(key: OpKey)
    | Replayed(key: OpKey, result: Response)
    | Erred

  /** `attempt`: the attempt count of the claimed row, which the worker is given with it. */
  datatype Session = Session(worker: Q.WorkerId, attempt: nat, phase: Phase)

  /** One effect the provider has carried out, and the session's call it was carried out for. */
  datatype Effect = Effect(job: JobId, attempt: nat, key: OpKey, token: Token)

  /** The provider remembers the tokens it has applied, with the response it gave. */
  datatype Provider = Provider(applied: map<Token, Response>, log: seq<Effect>)

  datatype Sys = Sys(queue: Q.State, journal: Journal, provider: Provider, sessions: map<SessionId, Session>)

  datatype CallResult = Answer | LostAnswer | Refusal

  datatype Step =
    | Queue(q: Q.Step)                                       // claims, heartbeats, sweeps, commitFailure
    | Insert(sid: SessionId, key: OpKey, newToken: Token)       // acquireSideEffectSlot, statement by statement
    | Select(sid: SessionId)
    | SetExecuting(sid: SessionId)
    | Call(sid: SessionId, response: Response, outcome: CallResult)
    | Complete(sid: SessionId)
    | FailEffect(sid: SessionId, key: OpKey)
    | Commit(sid: SessionId, now: Q.Time, result: Option<string>)
    | Crash(sid: SessionId)

  function EntriesOf(log: seq<Effect>, job: JobId): set<nat> { set i | 0 <= i < |log| && log[i].job == job }

  /** The number of effects carried out for a job. */
  function EffectsOf(log: seq<Effect>, job: JobId): nat { |EntriesOf(log, job)| }

  /** The provider carries out a request once per replay token. */
  function Request(p: Provider, e: Effect, response: Response): Provider {
    if e.token in p.applied then p else Provider(p.applied[e.token := response], p.log + [e])
  }

  function Goto(s: Sys, sid: SessionId, phase: Phase): map<SessionId, Session>
    requires sid in s.sessions
  {
    s.sessions[sid := s.sessions[sid].(phase := phase)]
  }

  /** The sessions opened by a claim. */
  function Opened(cfg: Q.Config, s: Sys, step: Q.Step): map<SessionId, Session> {
    if step.Claim? then
      map id | id in s.queue.rows && Runs.EffectOn(cfg, s.queue, step, id) == Runs.WasClaimed
        :: (id, s.queue.rows[id].leaseVersion + 1) := Session(step.worker, s.queue.rows[id].attemptCount, Started)
    else map[]
  }

  predicate Enabled(s: Sys, step: Step) {
    match step
    case Queue(q) => !q.Success?
    case Insert(sid, _, _) => sid in s.sessions && s.sessions[sid].phase == Started
    case Select(sid) =>
      sid in s.sessions && s.sessions[sid].phase.Conflicted? && s.sessions[sid].phase.key in s.journal
    case SetExecuting(sid) => sid in s.sessions && s.sessions[sid].phase.Created?
    case Call(sid, _, _) => sid in s.sessions && s.sessions[sid].phase.Ready?
    case Complete(sid) => sid in s.sessions && s.sessions[sid].phase.Answered?
    case FailEffect(sid, _) => sid in s.sessions
    case Commit(sid, _, _) => sid in s.sessions && (s.sessions[sid].phase.Recorded? || s.sessions[sid].phase.Replayed?)
    case Crash(sid) => sid in s.sessions
  }

  /** A step a session is not ready for does nothing. Sessions outlive their lease: a paused worker
      goes on from where it stopped. */
  function Apply(cfg: Q.Config, s: Sys, step: Step): Sys {
    if !Enabled(s, step) then s else
    match step
    case Queue(q) => s.(queue := Q.Apply(cfg, s.queue, q), sessions := s.sessions + Opened(cfg, s, q))
    case Insert(sid, key, newToken) =>
      var phase := match InsertOutcome(s.journal, key, newToken)
                   case Inserted => Created(key, newToken)
                   case Conflict => Conflicted(key)
                   case TokenTaken => Erred;
      s.(journal := InsertEntry(s.journal, key, newToken), sessions := Goto(s, sid, phase))
    case Select(sid) =>
      var key := s.sessions[sid].phase.key;
      var e := s.journal[key];
      s.(sessions := Goto(s, sid, if e.state == Completed then Replayed(key, e.response) else Ready(key, e.token)))
    case SetExecuting(sid) =>
      var ph := s.sessions[sid].phase;
      s.(journal := MarkExecuting(s.journal, ph.key), sessions := Goto(s, sid, Ready(ph.key, ph.token)))
    case Call(sid, response, outcome) =>
      var ph := s.sessions[sid].phase;
      if outcome == Refusal then s.(sessions := Goto(s, sid, Erred))
      else
        var p := Request(s.provider, Effect(sid.0, s.sessions[sid].attempt, ph.key, ph.token), response);
        s.(provider := p,
           sessions := Goto(s, sid, if outcome == LostAnswer then Erred
                                    else Answered(ph.key, ph.token, p.applied[ph.token])))
    case Complete(sid) =>
      var ph := s.sessions[sid].phase;
      s.(journal := MarkCompleted(s.journal, ph.key, ph.response), sessions := Goto(s, sid, Recorded(ph.key)))
    case FailEffect(sid, key) => s.(journal := MarkFailed(s.journal, key), sessions := Goto(s, sid, Erred))
    case Commit(sid, now, result) =>
      s.(queue := Q.Apply(cfg, s.queue, Q.Success(now, sid.0, s.sessions[sid].worker, sid.1, result)),
         sessions := s.sessions - {sid})
    case Crash(sid) => s.(sessions := s.sessions - {sid})
  }

  function Exec(cfg: Q.Config, s: Sys, steps: seq<Step>): Sys
    decreases |steps|
  {
    if steps == [] then s else Exec(cfg, Apply(cfg, s, steps[0]), steps[1..])
  }

  function Start(rows: Q.Table): Sys {
    Sys(Q.State(rows, map[]), map[], Provider(map[], []), map[])
  }

  // ----- the queue inside the system -----

  /** The statements a step issues on the job table: none or one. */
  function QueueStep(s: Sys, x: Step): seq<Q.Step> {
    if !Enabled(s, x) then []
    else if x.Queue? then [x.q]
    else if x.Commit? then [Q.Success(x.now, x.sid.0, s.sessions[x.sid].worker, x.sid.1, x.result)]
    else []
  }

  /** The statements a system run issues on the job table. */
  function QueueSteps(cfg: Q.Config, s: Sys, steps: seq<Step>): seq<Q.Step>
    decreases |steps|
  {
    if steps == [] then [] else QueueStep(s, steps[0]) + QueueSteps(cfg, Apply(cfg, s, steps[0]), steps[1..])
  }

  lemma StepRefinesQueue(cfg: Q.Config, s: Sys, x: Step)
    ensures Apply(cfg, s, x).queue == if QueueStep(s, x) == [] then s.queue
                                      else Q.Apply(cfg, s.queue, QueueStep(s, x)[0])
  {
  }

  /** A system run is, for the job table, a run of the lease queue; all its theorems carry over. */
  lemma {:induction false} SystemRefinesQueue(cfg: Q.Config, s: Sys, steps: seq<Step>)
    ensures Exec(cfg, s, steps).queue == Q.Exec(cfg, s.queue, QueueSteps(cfg, s, steps))
    decreases |steps|
  {
    if steps == [] {
    } else {
      StepRefinesQueue(cfg, s, steps[0]);
      SystemRefinesQueue(cfg, Apply(cfg, s, steps[0]), steps[1..]);
      var one, rest := QueueStep(s, steps[0]), QueueSteps(cfg, Apply(cfg, s, steps[0]), steps[1..]);
      if one == [] {
        assert one + rest == rest;
      } else {
        assert (one + rest)[0] == one[0] && (one + rest)[1..] == rest;
      }
    }
  }

  // ----- once per operation key -----

  /** The external effect of the operation key has happened. */
  predicate Done(s: Sys, key: OpKey) {
    key in s.journal && s.journal[key].token in s.provider.applied
  }

  predicate TokensAreUnique(j: Journal) {
    forall a, b :: a in j && b in j && j[a].token == j[b].token ==> a == b
  }

  /** The log has one entry per applied token, with the key that the journal gave the token to. */
  predicate LogIsExact(s: Sys) {
    && (forall e :: e in s.provider.log ==>
          e.token in s.provider.applied && e.key in s.journal && s.journal[e.key].token == e.token)
    && (forall t :: t in s.provider.applied ==> exists e :: e in s.provider.log && e.token == t)
    && (forall i, j :: 0 <= i < j < |s.provider.log| ==> s.provider.log[i].token != s.provider.log[j].token)
  }

  predicate EntryOk(s: Sys, key: OpKey)
    requires key in s.journal
  {
    var e := s.journal[key];
    && (e.state == Completed ==> e.token in s.provider.applied && e.response == s.provider.applied[e.token])
    && (e.response.Some? ==> e.token in s.provider.applied && s.provider.applied[e.token] == e.response)
  }

  predicate PhaseOk(s: Sys, phase: Phase) {
    match phase
    case Started => true
    case Erred => true
    case Conflicted(key) => key in s.journal
    case Created(key, token) => key in s.journal && s.journal[key].token == token
    case Ready(key, token) => key in s.journal && s.journal[key].token == token
    case Answered(key, token, response) =>
      && key in s.journal && s.journal[key].token == token
      && token in s.provider.applied && s.provider.applied[token] == response
    case Recorded(key) => Done(s, key)
    case Replayed(key, response) => Done(s, key) && response == s.provider.applied[s.journal[key].token]
  }

  ghost predicate Invariant(s: Sys) {
    && TokensAreUnique(s.journal)
    && LogIsExact(s)
    && (forall k :: k in s.journal ==> EntryOk(s, k))
    && (forall sid :: sid in s.sessions ==> PhaseOk(s, s.sessions[sid].phase))
  }

  /** What has been set up for a key stays: its journal token and every applied token. */
  predicate Grows(s: Sys, s': Sys) {
    && (forall k :: k in s.journal ==> k in s'.journal && s'.journal[k].token == s.journal[k].token)
    && (forall t :: t in s.provider.applied ==>
          t in s'.provider.applied && s'.provider.applied[t] == s.provider.applied[t])
  }

  lemma StepGrows(cfg: Q.Config, s: Sys, step: Step)
    ensures Grows(s, Apply(cfg, s, step))
  {
  }

  /** A call that takes effect adds its own entry, under the key whose token it used. */
  lemma CallExtendsLog(s: Sys, p: Provider, e: Effect, response: Response)
    requires LogIsExact(s) && e.token !in s.provider.applied && p == Request(s.provider, e, response)
    requires e.key in s.journal && s.journal[e.key].token == e.token
    ensures LogIsExact(s.(provider := p))
  {
    assert p.log == s.provider.log + [e] && e in p.log;
    forall t | t in p.applied ensures exists x :: x in p.log && x.token == t {
      if t in s.provider.applied {
        var x :| x in s.provider.log && x.token == t;
        assert x in p.log;
      }
    }
  }

  lemma StepKeepsLog(cfg: Q.Config, s: Sys, step: Step)
    requires Invariant(s)
    ensures var s' := Apply(cfg, s, step); TokensAreUnique(s'.journal) && LogIsExact(s')
  {
    var s' := Apply(cfg, s, step);
    StepGrows(cfg, s, step);
    if s'.provider != s.provider {
      var x := s.sessions[step.sid];
      assert PhaseOk(s, x.phase);
      CallExtendsLog(s, s'.provider, Effect(step.sid.0, x.attempt, x.phase.key, x.phase.token), step.response);
    }
  }

  lemma SameEntryStaysOk(s: Sys, s': Sys, key: OpKey)
    requires key in s.journal && EntryOk(s, key) && Grows(s, s')
    requires key in s'.journal && s'.journal[key] == s.journal[key]
    ensures EntryOk(s', key)
  {
  }

  /** The four UPDATE and INSERT statements of the journal. */
  lemma WrittenEntryIsOk(cfg: Q.Config, s: Sys, step: Step, key: OpKey)
    requires Invariant(s) && Enabled(s, step)
    requires step.Insert? || step.SetExecuting? || step.Complete? || step.FailEffect?
    requires key in Apply(cfg, s, step).journal
    ensures EntryOk(Apply(cfg, s, step), key)
  {
    assert key in s.journal ==> EntryOk(s, key);
    if step.Complete? {
      assert PhaseOk(s, s.sessions[step.sid].phase);
    }
  }

  lemma EntryStaysOk(cfg: Q.Config, s: Sys, step: Step, key: OpKey)
    requires Invariant(s) && key in Apply(cfg, s, step).journal
    ensures EntryOk(Apply(cfg, s, step), key)
  {
    if Enabled(s, step) && (step.Insert? || step.SetExecuting? || step.Complete? || step.FailEffect?) {
      WrittenEntryIsOk(cfg, s, step, key);
    } else {
      StepGrows(cfg, s, step);
      SameEntryStaysOk(s, Apply(cfg, s, step), key);
    }
  }

  lemma StepKeepsEntries(cfg: Q.Config, s: Sys, step: Step)
    requires Invariant(s)
    ensures var s' := Apply(cfg, s, step); forall k :: k in s'.journal ==> EntryOk(s', k)
  {
    forall k | k in Apply(cfg, s, step).journal ensures EntryOk(Apply(cfg, s, step), k) {
      EntryStaysOk(cfg, s, step, k);
    }
  }

  lemma PhaseOkGrows(s: Sys, s': Sys, phase: Phase)
    requires PhaseOk(s, phase) && Grows(s, s')
    ensures PhaseOk(s', phase)
  {
  }

  /** Sessions that the step does not move. */
  lemma OtherPhasesStayOk(cfg: Q.Config, s: Sys, step: Step, sid: SessionId)
    requires Invariant(s) && sid in Apply(cfg, s, step).sessions
    requires !(sid in s.sessions && Apply(cfg, s, step).sessions[sid] != s.sessions[sid])
    ensures PhaseOk(Apply(cfg, s, step), Apply(cfg, s, step).sessions[sid].phase)
  {
    StepGrows(cfg, s, step);
    if sid in s.sessions {
      PhaseOkGrows(s, Apply(cfg, s, step), s.sessions[sid].phase);
    }
  }

  lemma AcquireKeepsPhase(cfg: Q.Config, s: Sys, step: Step)
    requires Invariant(s) && Enabled(s, step) && (step.Insert? || step.Select? || step.SetExecuting?)
    ensures PhaseOk(Apply(cfg, s, step), Apply(cfg, s, step).sessions[step.sid].phase)
  {
    var phase := s.sessions[step.sid].phase;
    assert PhaseOk(s, phase);
    if step.Select? { assert EntryOk(s, phase.key); }
  }

  lemma CallKeepsPhase(cfg: Q.Config, s: Sys, step: Step)
    requires Invariant(s) && Enabled(s, step) && (step.Call? || step.Complete?)
    ensures PhaseOk(Apply(cfg, s, step), Apply(cfg, s, step).sessions[step.sid].phase)
  {
    assert PhaseOk(s, s.sessions[step.sid].phase);
  }

  lemma ClaimsStartSessions(cfg: Q.Config, s: Sys, step: Step, sid: SessionId)
    requires Enabled(s, step) && step.Queue? && sid in Opened(cfg, s, step.q)
    ensures Apply(cfg, s, step).sessions[sid].phase == Started
  {
  }

  lemma StepKeepsPhases(cfg: Q.Config, s: Sys, step: Step)
    requires Invariant(s)
    ensures var s' := Apply(cfg, s, step); forall sid :: sid in s'.sessions ==> PhaseOk(s', s'.sessions[sid].phase)
  {
    var s' := Apply(cfg, s, step);
    forall sid | sid in s'.sessions ensures PhaseOk(s', s'.sessions[sid].phase) {
      if sid in s.sessions && s'.sessions[sid] != s.sessions[sid] {
        if step.Queue? {
          ClaimsStartSessions(cfg, s, step, sid);
        } else if step.Call? || step.Complete? {
          CallKeepsPhase(cfg, s, step);
        } else if !step.FailEffect? {
          AcquireKeepsPhase(cfg, s, step);
        }
      } else {
        OtherPhasesStayOk(cfg, s, step, sid);
      }
    }
  }

  lemma {:induction false} RunKeepsInvariant(cfg: Q.Config, s: Sys, steps: seq<Step>)
    requires Invariant(s)
    ensures Invariant(Exec(cfg, s, steps))
    decreases |steps|
  {
    if steps == [] {
    } else {
      StepKeepsLog(cfg, s, steps[0]);
      StepKeepsEntries(cfg, s, steps[0]);
      StepKeepsPhases(cfg, s, steps[0]);
      RunKeepsInvariant(cfg, Apply(cfg, s, steps[0]), steps[1..]);
    }
  }

  lemma LogKeysAreUnique(s: Sys)
    requires Invariant(s)
    ensures forall i, j :: 0 <= i < j < |s.provider.log| ==> s.provider.log[i].key != s.provider.log[j].key
  {
    var log := s.provider.log;
    forall i, j | 0 <= i < j < |log| ensures log[i].key != log[j].key {
      assert log[i] in log && log[j] in log;
    }
  }

  /** Whatever keys the workers choose: in every run, with crashes, retries, lost answers and workers
      that lost their lease, no two effects were carried out under one operation key. */
  lemma OncePerKey(cfg: Q.Config, rows: Q.Table, steps: seq<Step>, i: nat, j: nat)
    requires i < j < |Exec(cfg, Start(rows), steps).provider.log|
    ensures var log := Exec(cfg, Start(rows), steps).provider.log; log[i].key != log[j].key
  {
    RunKeepsInvariant(cfg, Start(rows), steps);
    LogKeysAreUnique(Exec(cfg, Start(rows), steps));
  }

  /** A refused call has no effect; a lost answer has it and the worker does not learn of it; an answered
      one has it, unless the token was used before, and gives the worker the response it first got. */
  lemma CallsByOutcome(cfg: Q.Config, s: Sys, sid: SessionId, response: Response, outcome: CallResult)
    requires sid in s.sessions && s.sessions[sid].phase.Ready?
    ensures var s' := Apply(cfg, s, Call(sid, response, outcome));
            var key, token := s.sessions[sid].phase.key, s.sessions[sid].phase.token;
            var again := token in s.provider.applied;
            && s'.journal == s.journal && s'.queue == s.queue && sid in s'.sessions
            && s'.provider.log == (if outcome == Refusal || again then s.provider.log
                                   else s.provider.log + [Effect(sid.0, s.sessions[sid].attempt, key, token)])
            && match outcome
               case Refusal => s'.provider == s.provider && s'.sessions[sid].phase == Erred
               case LostAnswer => token in s'.provider.applied && s'.sessions[sid].phase == Erred
               case Answer =>
                 s'.sessions[sid].phase ==
                 Answered(key, token, if again then s.provider.applied[token] else response)
  {
  }

  /** A commit and a crash end the session. */
  lemma SessionsEnd(cfg: Q.Config, s: Sys, step: Step)
    requires Enabled(s, step) && (step.Commit? || step.Crash?)
    ensures Apply(cfg, s, step).sessions == s.sessions - {step.sid}
    ensures step.Crash? ==> Apply(cfg, s, step) == s.(sessions := s.sessions - {step.sid})
  {
  }

  // ----- the slot and the steps -----

  /** acquireSideEffectSlot by a session that has just started, its statements one after another. */
  function Acquired(cfg: Q.Config, s: Sys, sid: SessionId, key: OpKey, newToken: Token): Sys {
    var s1 := Apply(cfg, s, Insert(sid, key, newToken));
    if sid !in s1.sessions then s1
    else if s1.sessions[sid].phase.Conflicted? then Apply(cfg, s1, Select(sid))
    else Apply(cfg, s1, SetExecuting(sid))
  }

  /** The answer of acquireSideEffectSlot is where its statements take the session: it is replayed, goes on
      with a token, or fails, each exactly if the slot says so, and the journal is left alike. */
  lemma SlotIsWhereTheStepsLead(cfg: Q.Config, s: Sys, sid: SessionId, key: OpKey, newToken: Token)
    requires sid in s.sessions && s.sessions[sid].phase == Started
    ensures var slot, s' := SlotFor(s.journal, key, newToken, false), Acquired(cfg, s, sid, key, newToken);
            && sid in s'.sessions
            && var phase := s'.sessions[sid].phase;
            && (forall r :: phase == Replayed(key, r) <==> exists t :: slot == AlreadyExecuted(r, t))
            && (forall t :: phase == Ready(key, t) <==> slot == Proceed(Some(t)))
            && (phase == Erred <==> slot == InsertFailed)
            && s'.journal == if slot == Proceed(Some(newToken)) && key !in s.journal
                             then s.journal[key := Entry(Executing, newToken, None, 0)] else s.journal
  {
    var slot, s' := SlotFor(s.journal, key, newToken, false), Acquired(cfg, s, sid, key, newToken);
    if slot.AlreadyExecuted? {
      assert slot == AlreadyExecuted(slot.result, slot.replayToken);
    }
  }

  /** In every reachable state the slot tells the truth: only a completed entry is reported as executed,
      with the response its effect got; any other entry sends the worker on with the entry's token. */
  lemma SlotTellsTheTruth(cfg: Q.Config, rows: Q.Table, steps: seq<Step>, key: OpKey, newToken: Token)
    ensures var s := Exec(cfg, Start(rows), steps);
            match SlotFor(s.journal, key, newToken, false)
            case AlreadyExecuted(r, t) =>
              && key in s.journal && s.journal[key].state == Completed && s.journal[key].token == t
              && t in s.provider.applied && s.provider.applied[t] == r
              && exists e :: e in s.provider.log && e.key == key
            case Proceed(t) =>
              if key in s.journal then s.journal[key].state != Completed && t == Some(s.journal[key].token)
              else t == Some(newToken)
            case InsertFailed => key !in s.journal && exists k :: k in s.journal && s.journal[k].token == newToken
  {
    RunKeepsInvariant(cfg, Start(rows), steps);
    var s := Exec(cfg, Start(rows), steps);
    if SlotFor(s.journal, key, newToken, false).AlreadyExecuted? {
      assert EntryOk(s, key);
      var e :| e in s.provider.log && e.token == s.journal[key].token;
      assert e.key == key;
    }
  }

  // ----- once per job -----

  /** How the workers name their operations: a key for every job and attempt. */
  type Naming = (JobId, nat) -> OpKey

  predicate NamesIts(s: Sys, step: Step, name: Naming) {
    step.Insert? && Enabled(s, step) ==> step.key == name(step.sid.0, s.sessions[step.sid].attempt)
  }

  /** Every session of the run uses the key of its job and attempt. */
  predicate Follows(cfg: Q.Config, s: Sys, steps: seq<Step>, name: Naming)
    decreases |steps|
  {
    steps != [] ==> NamesIts(s, steps[0], name) && Follows(cfg, Apply(cfg, s, steps[0]), steps[1..], name)
  }

  predicate HasKey(phase: Phase) { !phase.Started? && !phase.Erred? }

  predicate SessionNamed(sid: SessionId, x: Session, name: Naming) {
    HasKey(x.phase) ==> x.phase.key == name(sid.0, x.attempt)
  }

  ghost predicate Named(s: Sys, name: Naming) {
    && (forall sid :: sid in s.sessions ==> SessionNamed(sid, s.sessions[sid], name))
    && (forall e :: e in s.provider.log ==> e.key == name(e.job, e.attempt))
    && (forall id :: id in s.queue.rows && s.queue.rows[id].status == Q.Processed ==> Settled(s, id, name))
  }

  /** The effect has happened under one of the job's keys. */
  ghost predicate Settled(s: Sys, job: JobId, name: Naming) { exists a: nat :: Done(s, name(job, a)) }

  /** A row becomes `processed` only by the commit of a session of that job. */
  lemma OnlySuccessProcesses(cfg: Q.Config, s: Sys, step: Step, id: JobId)
    requires id in s.queue.rows && s.queue.rows[id].status != Q.Processed
    requires Apply(cfg, s, step).queue.rows[id].status == Q.Processed
    ensures Enabled(s, step) && step.Commit? && step.sid.0 == id
  {
  }

  lemma StepKeepsNamed(cfg: Q.Config, s: Sys, step: Step, name: Naming)
    requires Invariant(s) && Named(s, name) && NamesIts(s, step, name)
    ensures Named(Apply(cfg, s, step), name)
  {
    var s' := Apply(cfg, s, step);
    StepGrows(cfg, s, step);
    forall sid | sid in s'.sessions ensures SessionNamed(sid, s'.sessions[sid], name) {
      assert sid in s.sessions ==> SessionNamed(sid, s.sessions[sid], name);
    }
    forall id | id in s'.queue.rows && s'.queue.rows[id].status == Q.Processed ensures Settled(s', id, name) {
      ProcessedIsSettled(cfg, s, step, name, id);
    }
  }

  lemma ProcessedIsSettled(cfg: Q.Config, s: Sys, step: Step, name: Naming, id: JobId)
    requires Invariant(s) && Named(s, name)
    requires id in Apply(cfg, s, step).queue.rows && Apply(cfg, s, step).queue.rows[id].status == Q.Processed
    ensures Settled(Apply(cfg, s, step), id, name)
  {
    var s' := Apply(cfg, s, step);
    StepGrows(cfg, s, step);
    if s.queue.rows[id].status == Q.Processed {
      assert Settled(s, id, name);
      var a: nat :| Done(s, name(id, a));
      assert Done(s', name(id, a));
    } else {
      OnlySuccessProcesses(cfg, s, step, id);
      var x := s.sessions[step.sid];
      assert PhaseOk(s, x.phase) && SessionNamed(step.sid, x, name);
      assert Done(s', name(id, x.attempt));
    }
  }

  lemma {:induction false} RunKeepsNamed(cfg: Q.Config, s: Sys, steps: seq<Step>, name: Naming)
    requires Invariant(s) && Named(s, name) && Follows(cfg, s, steps, name)
    ensures Invariant(Exec(cfg, s, steps)) && Named(Exec(cfg, s, steps), name)
    decreases |steps|
  {
    RunKeepsInvariant(cfg, s, steps);
    if steps == [] {
    } else {
      StepKeepsNamed(cfg, s, steps[0], name);
      RunKeepsInvariant(cfg, s, [steps[0]]);
      assert [steps[0]][1..] == [] && Exec(cfg, s, [steps[0]]) == Exec(cfg, Apply(cfg, s, steps[0]), []);
      RunKeepsNamed(cfg, Apply(cfg, s, steps[0]), steps[1..], name);
    }
  }

  /** A job whose entries in the log all have one key has at most one. */
  lemma OneKeyMeansOnce(log: seq<Effect>, job: JobId)
    requires forall i, j :: 0 <= i < j < |log| ==> log[i].key != log[j].key
    requires forall i, j :: i in EntriesOf(log, job) && j in EntriesOf(log, job) ==> log[i].key == log[j].key
    ensures EffectsOf(log, job) <= 1
  {
    var entries := EntriesOf(log, job);
    if entries != {} {
      var i :| i in entries;
      assert forall j :: j in entries ==> j == i;
      assert entries == {i};
    }
  }

  /** One key per job, whatever the attempt, and none in common. */
  ghost predicate OneKeyPerJob(name: Naming) {
    forall j, k, a: nat, b: nat :: name(j, a) == name(k, b) <==> j == k
  }

  lemma DoneHasEntry(s: Sys, key: OpKey) returns (i: nat)
    requires TokensAreUnique(s.journal) && LogIsExact(s) && Done(s, key)
    ensures i < |s.provider.log| && s.provider.log[i].key == key
  {
    var e :| e in s.provider.log && e.token == s.journal[key].token;
    i :| 0 <= i < |s.provider.log| && s.provider.log[i] == e;
  }

  lemma SettledHasEffect(s: Sys, job: JobId, name: Naming)
    requires TokensAreUnique(s.journal) && LogIsExact(s) && Settled(s, job, name) && OneKeyPerJob(name)
    requires forall e :: e in s.provider.log ==> e.key == name(e.job, e.attempt)
    ensures EffectsOf(s.provider.log, job) >= 1
  {
    var a: nat :| Done(s, name(job, a));
    var i := DoneHasEntry(s, name(job, a));
    var e := s.provider.log[i];
    assert e in s.provider.log && name(e.job, e.attempt) == name(job, a);
    assert i in EntriesOf(s.provider.log, job);
  }

  /** End to end: if the workers use one operation key per job, then in every run, with crashes, retries,
      lost answers and workers that lost their lease, the external effect of each job happens at most
      once, and exactly once for every row that is `processed`. */
  lemma ExactlyOnce(cfg: Q.Config, rows: Q.Table, steps: seq<Step>, name: Naming, job: JobId)
    requires forall id :: id in rows ==> rows[id].status == Q.Pending
    requires OneKeyPerJob(name) && Follows(cfg, Start(rows), steps, name)
    ensures var s := Exec(cfg, Start(rows), steps);
            && EffectsOf(s.provider.log, job) <= 1
            && (job in s.queue.rows && s.queue.rows[job].status == Q.Processed ==>
                  EffectsOf(s.provider.log, job) == 1)
  {
    RunKeepsNamed(cfg, Start(rows), steps, name);
    var s := Exec(cfg, Start(rows), steps);
    LogKeysAreUnique(s);
    forall i, j | i in EntriesOf(s.provider.log, job) && j in EntriesOf(s.provider.log, job)
      ensures s.provider.log[i].key == s.provider.log[j].key
    {
      assert s.provider.log[i] in s.provider.log && s.provider.log[j] in s.provider.log;
    }
    OneKeyMeansOnce(s.provider.log, job);
    if job in s.queue.rows && s.queue.rows[job].status == Q.Processed {
      assert Settled(s, job, name);
      SettledHasEffect(s, job, name);
    }
  }

  /** `alreadyExecuted` hands back the very response of the one effect under the key, or NULL if that
      response was falsy. */
  lemma ReplayReturnsTheResponse(cfg: Q.Config, rows: Q.Table, steps: seq<Step>, sid: SessionId)
    requires var s := Exec(cfg, Start(rows), steps); sid in s.sessions && s.sessions[sid].phase.Replayed?
    ensures var s := Exec(cfg, Start(rows), steps);
            var key := s.sessions[sid].phase.key;
            && key in s.journal && s.journal[key].token in s.provider.applied
            && s.sessions[sid].phase.result == s.provider.applied[s.journal[key].token]
            && exists e :: e in s.provider.log && e.key == key
  {
    RunKeepsInvariant(cfg, Start(rows), steps);
    var s := Exec(cfg, Start(rows), steps);
    var key := s.sessions[sid].phase.key;
    assert PhaseOk(s, s.sessions[sid].phase);
    var e :| e in s.provider.log && e.token == s.journal[key].token;
    assert e.key == key;
  }

  /** The i-th step of the run is a completeSideEffect that took place for the key. */
  predicate CompletesAt(cfg: Q.Config, s: Sys, steps: seq<Step>, i: int, key: OpKey) {
    && 0 <= i < |steps|
    && var before := Exec(cfg, s, steps[..i]);
    Enabled(before, steps[i]) && steps[i].Complete? && before.sessions[steps[i].sid].phase.key == key
  }

  predicate Finished(s: Sys, key: OpKey) {
    || (key in s.journal && s.journal[key].state == Completed)
    || exists sid :: sid in s.sessions && s.sessions[sid].phase.Replayed? && s.sessions[sid].phase.key == key
  }

  lemma OnlyCompletionFinishes(cfg: Q.Config, s: Sys, step: Step, key: OpKey)
    requires !Finished(s, key) && Finished(Apply(cfg, s, step), key)
    ensures Enabled(s, step) && step.Complete? && s.sessions[step.sid].phase.key == key
  {
  }

  /** `alreadyExecuted` is only ever answered after a completeSideEffect for that key. */
  lemma {:induction false} ReplayOnlyAfterCompletion(cfg: Q.Config, s: Sys, steps: seq<Step>, key: OpKey)
    requires !Finished(s, key) && Finished(Exec(cfg, s, steps), key)
    ensures exists i :: CompletesAt(cfg, s, steps, i, key)
    decreases |steps|
  {
    var s1 := Apply(cfg, s, steps[0]);
    if Finished(s1, key) {
      OnlyCompletionFinishes(cfg, s, steps[0], key);
      assert steps[..0] == [] && CompletesAt(cfg, s, steps, 0, key);
    } else {
      ReplayOnlyAfterCompletion(cfg, s1, steps[1..], key);
      var i :| CompletesAt(cfg, s1, steps[1..], i, key);
      assert steps[..i + 1][1..] == steps[1..][..i] && steps[..i + 1][0] == steps[0];
      assert CompletesAt(cfg, s, steps, i + 1, key);
    }
  }

  // ----- `completed` is not final -----

  /** A completed entry loses that state exactly when a late acquire marks it executing or a late
      failSideEffect marks it failed: neither UPDATE looks at the state it overwrites. */
  lemma CompletedIsLostExactlyBy(cfg: Q.Config, s: Sys, step: Step, key: OpKey)
    requires key in s.journal && s.journal[key].state == Completed
    ensures Apply(cfg, s, step).journal[key].state != Completed <==>
            && Enabled(s, step)
            && ((step.SetExecuting? && s.sessions[step.sid].phase.key == key) || (step.FailEffect? && step.key == key))
  {
  }

  /** The i-th step of the run overwrites the completed entry. */
  predicate OverwritesAt(cfg: Q.Config, s: Sys, steps: seq<Step>, i: int, key: OpKey) {
    && 0 <= i < |steps|
    && var before := Exec(cfg, s, steps[..i]);
    && key in before.journal && before.journal[key].state == Completed
    && Enabled(before, steps[i])
    && ((steps[i].SetExecuting? && before.sessions[steps[i].sid].phase.key == key)
        || (steps[i].FailEffect? && steps[i].key == key))
  }

  /** In any run, an entry that was completed and is not any more was overwritten by one of these two. */
  lemma {:induction false} CompletedIsOverwritten(cfg: Q.Config, s: Sys, steps: seq<Step>, key: OpKey)
    requires key in s.journal && s.journal[key].state == Completed
    ensures var j := Exec(cfg, s, steps).journal;
            key in j && (j[key].state == Completed || exists i :: OverwritesAt(cfg, s, steps, i, key))
    decreases |steps|
  {
    if steps == [] {
    } else {
      var s1 := Apply(cfg, s, steps[0]);
      CompletedIsLostExactlyBy(cfg, s, steps[0], key);
      if s1.journal[key].state == Completed {
        CompletedIsOverwritten(cfg, s1, steps[1..], key);
        if i :| OverwritesAt(cfg, s1, steps[1..], i, key) {
          assert steps[..i + 1][1..] == steps[1..][..i] && steps[..i + 1][0] == steps[0];
          assert OverwritesAt(cfg, s, steps, i + 1, key);
        }
      } else {
        assert steps[..0] == [] && OverwritesAt(cfg, s, steps, 0, key);
        EntryStays(cfg, s, steps, key);
      }
    }
  }

  lemma {:induction false} EntryStays(cfg: Q.Config, s: Sys, steps: seq<Step>, key: OpKey)
    requires key in s.journal
    ensures key in Exec(cfg, s, steps).journal
    decreases |steps|
  {
    if steps == [] {
    } else {
      StepGrows(cfg, s, steps[0]);
      EntryStays(cfg, Apply(cfg, s, steps[0]), steps[1..], key);
    }
  }

  /** A session has inserted the entry of the key, and is yet to mark it executing. */
  predicate MarkPending(s: Sys, key: OpKey) {
    exists sid :: sid in s.sessions && WillMark(s.sessions[sid], key)
  }

  predicate WillMark(x: Session, key: OpKey) { x.phase.Created? && x.phase.key == key }

  /** No failSideEffect for the key. */
  predicate NoFailure(steps: seq<Step>, key: OpKey) {
    forall x :: x in steps ==> !(x.FailEffect? && x.key == key)
  }

  predicate LosesCompleted(cfg: Q.Config, s: Sys, steps: seq<Step>, key: OpKey) {
    var j := Exec(cfg, s, steps).journal;
    NoFailure(steps, key) && key in j && j[key].state != Completed
  }

  lemma NoNewMark(cfg: Q.Config, s: Sys, step: Step, key: OpKey)
    requires key in s.journal && !MarkPending(s, key)
    ensures !MarkPending(Apply(cfg, s, step), key)
  {
    var s' := Apply(cfg, s, step);
    forall sid | sid in s'.sessions ensures !WillMark(s'.sessions[sid], key) {
      assert sid in s.sessions ==> !WillMark(s.sessions[sid], key);
    }
  }

  lemma {:induction false} StaysCompleted(cfg: Q.Config, s: Sys, steps: seq<Step>, key: OpKey)
    requires key in s.journal && s.journal[key].state == Completed && !MarkPending(s, key) && NoFailure(steps, key)
    ensures !LosesCompleted(cfg, s, steps, key)
    decreases |steps|
  {
    if steps == [] {
    } else {
      assert steps[0] in steps;
      NoNewMark(cfg, s, steps[0], key);
      CompletedIsLostExactlyBy(cfg, s, steps[0], key);
      StepGrows(cfg, s, steps[0]);
      StaysCompleted(cfg, Apply(cfg, s, steps[0]), steps[1..], key);
    }
  }

  /** Which completed entries are final: with no failSideEffect for the key to come, one can still lose
      its state exactly if some session has inserted the key and is yet to mark it executing. */
  lemma CompletedMayBeLostExactlyWhen(cfg: Q.Config, s: Sys, key: OpKey)
    requires key in s.journal && s.journal[key].state == Completed
    ensures (exists steps :: LosesCompleted(cfg, s, steps, key)) <==>
            exists sid :: sid in s.sessions && s.sessions[sid].phase.Created? && s.sessions[sid].phase.key == key
  {
    if sid :| sid in s.sessions && WillMark(s.sessions[sid], key) {
      var steps := [SetExecuting(sid)];
      assert steps[1..] == [] && Exec(cfg, s, steps) == Exec(cfg, Apply(cfg, s, steps[0]), []);
      assert LosesCompleted(cfg, s, steps, key);
    } else {
      forall steps ensures !LosesCompleted(cfg, s, steps, key) {
        if NoFailure(steps, key) {
          StaysCompleted(cfg, s, steps, key);
        }
      }
    }
  }

  // ----- runs that reach a goal -----

  /** The time after the step; only statements on the job table are timed. */
  function Clock(step: Step, at: Q.Time): Q.Time {
    match step
    case Queue(q) => q.now
    case Commit(_, now, _) => now
    case _ => at
  }

  /** Times do not go back, from `at` on. */
  predicate TimesRise(steps: seq<Step>, at: Q.Time)
    decreases |steps|
  {
    steps != [] ==> at <= Clock(steps[0], at) && TimesRise(steps[1..], Clock(steps[0], at))
  }

  ghost predicate MayReach(cfg: Q.Config, s: Sys, at: Q.Time, name: Naming, goal: Sys -> bool) {
    exists steps :: Follows(cfg, s, steps, name) && TimesRise(steps, at) && goal(Exec(cfg, s, steps))
  }

  lemma ReachesAtOnce(cfg: Q.Config, s: Sys, at: Q.Time, name: Naming, goal: Sys -> bool)
    requires goal(s)
    ensures MayReach(cfg, s, at, name, goal)
  {
    assert Follows(cfg, s, [], name) && TimesRise([], at) && goal(Exec(cfg, s, []));
  }

  lemma ReachesAfterStep(cfg: Q.Config, s: Sys, step: Step, at: Q.Time, name: Naming, goal: Sys -> bool)
    requires NamesIts(s, step, name) && at <= Clock(step, at)
    requires MayReach(cfg, Apply(cfg, s, step), Clock(step, at), name, goal)
    ensures MayReach(cfg, s, at, name, goal)
  {
    var rest :| Follows(cfg, Apply(cfg, s, step), rest, name) && TimesRise(rest, Clock(step, at))
                && goal(Exec(cfg, Apply(cfg, s, step), rest));
    var steps := [step] + rest;
    assert steps[0] == step && steps[1..] == rest;
    assert Follows(cfg, s, steps, name) && TimesRise(steps, at) && goal(Exec(cfg, s, steps));
  }

  /** What the steps of one job are to leave as it is: the journal, the provider and, if one is named, the
      row of another job. */
  datatype Rest = Rest(journal: Journal, provider: Provider, other: Option<(JobId, Q.Row)>)

  predicate Keeps(s: Sys, job: JobId, rest: Rest) {
    && s.journal == rest.journal && s.provider == rest.provider
    && (rest.other.Some? ==>
          var (k, row) := rest.other.value;
          k != job && k in s.queue.rows && s.queue.rows[k] == row)
  }

  function RestOf(s: Sys): Rest { Rest(s.journal, s.provider, None) }

  /** The job waits for its attempt number a, due at `now`; no commitFailure is under way. */
  predicate Waits(s: Sys, job: JobId, a: nat, now: Q.Time, rest: Rest) {
    && job in s.queue.rows && s.queue.calls == map[]
    && var r := s.queue.rows[job];
    && Q.Eligible(r, now, [], r.regionId) && r.attemptCount == a
    && Keeps(s, job, rest)
  }

  /** Worker 0 holds the job in its attempt number a, in the session named. */
  predicate Holding(s: Sys, sid: SessionId, a: nat, rest: Rest) {
    && sid.0 in s.queue.rows && s.queue.calls == map[]
    && Q.Holds(s.queue.rows[sid.0], 0, sid.1) && s.queue.rows[sid.0].attemptCount == a
    && Keeps(s, sid.0, rest)
  }

  function ClaimBy(s: Sys, job: JobId, now: Q.Time, worker: Q.WorkerId): Step
    requires job in s.queue.rows
  {
    Queue(Q.Claim(now, now, worker, [], s.queue.rows[job].regionId, {job}))
  }

  /** The claim opens the job's session under the next version. */
  lemma ClaimOpens(cfg: Q.Config, s: Sys, sid: SessionId, a: nat, now: Q.Time, worker: Q.WorkerId,
                   rest: Rest)
    requires Waits(s, sid.0, a, now, rest) && sid.1 == s.queue.rows[sid.0].leaseVersion + 1
    ensures var begun := Opened(cfg, s, ClaimBy(s, sid.0, now, worker).q);
            sid in begun && begun[sid] == Session(worker, a, Started)
  {
    assert Runs.EffectOn(cfg, s.queue, ClaimBy(s, sid.0, now, worker).q, sid.0) == Runs.WasClaimed;
  }

  lemma AfterClaim(cfg: Q.Config, s: Sys, sid: SessionId, a: nat, now: Q.Time, worker: Q.WorkerId,
                   rest: Rest)
    requires Waits(s, sid.0, a, now, rest) && sid.1 == s.queue.rows[sid.0].leaseVersion + 1
    ensures var s' := Apply(cfg, s, ClaimBy(s, sid.0, now, worker));
            && sid.0 in s'.queue.rows && s'.queue.calls == map[]
            && s'.queue.rows[sid.0] == Q.Claimed(s.queue.rows[sid.0], worker, now + cfg.leaseMs)
            && Keeps(s', sid.0, rest)
            && sid in s'.sessions && s'.sessions[sid] == Session(worker, a, Started)
  {
    ClaimOpens(cfg, s, sid, a, now, worker, rest);
  }

  lemma ClaimKeepsSession(cfg: Q.Config, s: Sys, claim: Step, sid: SessionId)
    requires claim.Queue? && sid in s.sessions && sid.0 in s.queue.rows
    requires sid.1 <= s.queue.rows[sid.0].leaseVersion
    ensures var s' := Apply(cfg, s, claim); sid in s'.sessions && s'.sessions[sid] == s.sessions[sid]
  {
    assert sid !in Opened(cfg, s, claim.q);
  }

  /** The attempt fails and the job waits for the next one, which is due at once. */
  lemma FailsBack(cfg: Q.Config, s: Sys, sid: SessionId, a: nat, now: Q.Time, rest: Rest, name: Naming,
                  goal: Sys -> bool)
    requires Holding(s, sid, a, rest) && a + 1 < cfg.maxAttempts
    requires forall s' :: Waits(s', sid.0, a + 1, now, rest) ==> MayReach(cfg, s', now, name, goal)
    ensures MayReach(cfg, s, now, name, goal)
  {
    var read := Queue(Q.FailRead(now, 0, sid.0, 0, sid.1, "", false));
    var write := Queue(Q.FailWrite(now, 0, 0));
    var s1 := Apply(cfg, s, read);
    assert s1.queue.rows[sid.0] == s.queue.rows[sid.0];
    assert s1.queue.calls == map[0 := Q.FailCall(sid.0, 0, sid.1, a, "", false)];
    var s2 := Apply(cfg, s1, write);
    assert s2.queue.calls == map[];
    assert Waits(s2, sid.0, a + 1, now, rest);
    ReachesAfterStep(cfg, s1, write, now, name, goal);
    ReachesAfterStep(cfg, s, read, now, name, goal);
  }

  lemma FailRound(cfg: Q.Config, s: Sys, job: JobId, a: nat, now: Q.Time, rest: Rest, name: Naming,
                  goal: Sys -> bool)
    requires Waits(s, job, a, now, rest) && a + 1 < cfg.maxAttempts
    requires forall s' :: Waits(s', job, a + 1, now, rest) ==> MayReach(cfg, s', now, name, goal)
    ensures MayReach(cfg, s, now, name, goal)
  {
    var sid := (job, s.queue.rows[job].leaseVersion + 1);
    AfterClaim(cfg, s, sid, a, now, 0, rest);
    FailsBack(cfg, Apply(cfg, s, ClaimBy(s, job, now, 0)), sid, a, now, rest, name, goal);
    ReachesAfterStep(cfg, s, ClaimBy(s, job, now, 0), now, name, goal);
  }

  /** Failing attempts lead to any attempt below the limit. */
  lemma {:induction false} ReachesAttempt(cfg: Q.Config, s: Sys, job: JobId, a: nat, b: nat, now: Q.Time, rest: Rest,
                                          name: Naming, goal: Sys -> bool)
    requires Waits(s, job, a, now, rest) && a <= b < cfg.maxAttempts
    requires forall s' :: Waits(s', job, b, now, rest) ==> MayReach(cfg, s', now, name, goal)
    ensures MayReach(cfg, s, now, name, goal)
    decreases b - a
  {
    if a == b {
    } else {
      forall s' | Waits(s', job, a + 1, now, rest) ensures MayReach(cfg, s', now, name, goal) {
        ReachesAttempt(cfg, s', job, a + 1, b, now, rest, name, goal);
      }
      FailRound(cfg, s, job, a, now, rest, name, goal);
    }
  }

  /** After an effect: the entry of its key, in the given state, and the effect in the provider's log. */
  function WithEffect(rest: Rest, e: Effect, state: EntryState): Rest {
    rest.(journal := rest.journal[e.key := Entry(state, e.token, None, 0)],
          provider := Provider(rest.provider.applied[e.token := None], rest.provider.log + [e]))
  }

  ghost predicate ReachedFromHolding(cfg: Q.Config, job: JobId, a: nat, now: Q.Time, rest: Rest, name: Naming,
                                     goal: Sys -> bool) {
    forall s, v: nat :: Holding(s, (job, v), a, rest) ==> MayReach(cfg, s, now, name, goal)
  }

  /** The key and the token have not been used. */
  predicate Unused(rest: Rest, e: Effect) {
    InsertOutcome(rest.journal, e.key, e.token) == Inserted && e.token !in rest.provider.applied
  }

  /** Acquire the slot under a new key and call the provider, whose answer is lost. */
  lemma EffectInSession(cfg: Q.Config, s: Sys, sid: SessionId, now: Q.Time, rest: Rest, e: Effect, name: Naming,
                        goal: Sys -> bool)
    requires Holding(s, sid, e.attempt, rest) && e.job == sid.0 && e.key == name(sid.0, e.attempt) && Unused(rest, e)
    requires sid in s.sessions && s.sessions[sid] == Session(0, e.attempt, Started)
    requires ReachedFromHolding(cfg, sid.0, e.attempt, now, WithEffect(rest, e, Executing), name, goal)
    ensures MayReach(cfg, s, now, name, goal)
  {
    var s1 := Apply(cfg, s, Insert(sid, e.key, e.token));
    var s2 := Apply(cfg, s1, SetExecuting(sid));
    var s3 := Apply(cfg, s2, Call(sid, None, LostAnswer));
    assert s2.journal == WithEffect(rest, e, Executing).journal;
    assert s3.provider == WithEffect(rest, e, Executing).provider;
    assert Holding(s3, (sid.0, sid.1), e.attempt, WithEffect(rest, e, Executing));
    ReachesAfterStep(cfg, s2, Call(sid, None, LostAnswer), now, name, goal);
    ReachesAfterStep(cfg, s1, SetExecuting(sid), now, name, goal);
    ReachesAfterStep(cfg, s, Insert(sid, e.key, e.token), now, name, goal);
  }

  lemma EffectRound(cfg: Q.Config, s: Sys, now: Q.Time, rest: Rest, e: Effect, name: Naming, goal: Sys -> bool)
    requires Waits(s, e.job, e.attempt, now, rest) && e.key == name(e.job, e.attempt) && Unused(rest, e)
    requires ReachedFromHolding(cfg, e.job, e.attempt, now, WithEffect(rest, e, Executing), name, goal)
    ensures MayReach(cfg, s, now, name, goal)
  {
    var sid, claim := (e.job, s.queue.rows[e.job].leaseVersion + 1), ClaimBy(s, e.job, now, 0);
    AfterClaim(cfg, s, sid, e.attempt, now, 0, rest);
    EffectInSession(cfg, Apply(cfg, s, claim), sid, now, rest, e, name, goal);
    ReachesAfterStep(cfg, s, claim, now, name, goal);
  }

  // ----- which namings give one effect per job -----

  function TwiceGoal(job: JobId): Sys -> bool { (s: Sys) => EffectsOf(s.provider.log, job) >= 2 }

  const NO_EFFECTS := Rest(map[], Provider(map[], []), None)

  function EffectAs(job: JobId, a: nat, token: Token, name: Naming): Effect { Effect(job, a, name(job, a), token) }

  lemma SecondEffect(cfg: Q.Config, s: Sys, job: JobId, a: nat, now: Q.Time, name: Naming)
    requires name(job, a) != name(job, a + 1)
    requires Waits(s, job, a + 1, now, WithEffect(NO_EFFECTS, EffectAs(job, a, 0, name), Executing))
    ensures MayReach(cfg, s, now, name, TwiceGoal(job))
  {
    var rest := WithEffect(NO_EFFECTS, EffectAs(job, a, 0, name), Executing);
    var e := EffectAs(job, a + 1, 1, name);
    forall s', v: nat | Holding(s', (job, v), a + 1, WithEffect(rest, e, Executing))
      ensures MayReach(cfg, s', now, name, TwiceGoal(job))
    {
      assert EntriesOf(s'.provider.log, job) == {0, 1};
      ReachesAtOnce(cfg, s', now, name, TwiceGoal(job));
    }
    EffectRound(cfg, s, now, rest, e, name, TwiceGoal(job));
  }

  lemma TwoEffects(cfg: Q.Config, s: Sys, job: JobId, a: nat, now: Q.Time, name: Naming)
    requires name(job, a) != name(job, a + 1) && a + 1 < cfg.maxAttempts
    requires Waits(s, job, a, now, NO_EFFECTS)
    ensures MayReach(cfg, s, now, name, TwiceGoal(job))
  {
    var e := EffectAs(job, a, 0, name);
    var rest := WithEffect(NO_EFFECTS, e, Executing);
    forall s', v: nat | Holding(s', (job, v), a, rest) ensures MayReach(cfg, s', now, name, TwiceGoal(job)) {
      forall s'' | Waits(s'', job, a + 1, now, rest) ensures MayReach(cfg, s'', now, name, TwiceGoal(job)) {
        SecondEffect(cfg, s'', job, a, now, name);
      }
      FailsBack(cfg, s', (job, v), a, now, rest, name, TwiceGoal(job));
    }
    EffectRound(cfg, s, now, NO_EFFECTS, e, name, TwiceGoal(job));
  }

  /** When a pending row can be claimed. */
  function DueAt(r: Q.Row): Q.Time { if r.runAfter.Some? then r.runAfter.value else 0 }

  lemma ChangingKeysRepeat(cfg: Q.Config, rows: Q.Table, name: Naming, job: JobId, a: nat)
    requires Runs.Initial(cfg, Q.State(rows, map[])) && job in rows
    requires name(job, a) != name(job, a + 1) && a + 1 < cfg.maxAttempts
    ensures MayReach(cfg, Start(rows), DueAt(rows[job]), name, TwiceGoal(job))
  {
    var now := DueAt(rows[job]);
    forall s | Waits(s, job, a, now, NO_EFFECTS) ensures MayReach(cfg, s, now, name, TwiceGoal(job)) {
      TwoEffects(cfg, s, job, a, now, name);
    }
    ReachesAttempt(cfg, Start(rows), job, 0, a, now, NO_EFFECTS, name, TwiceGoal(job));
  }

  ghost predicate AttemptsBounded(cfg: Q.Config, s: Sys) {
    && Runs.Sound(cfg, s.queue)
    && (forall sid :: sid in s.sessions ==> s.sessions[sid].attempt < cfg.maxAttempts)
    && (forall e :: e in s.provider.log ==> e.attempt < cfg.maxAttempts)
  }

  lemma SessionStaysBounded(cfg: Q.Config, s: Sys, step: Step, sid: SessionId)
    requires AttemptsBounded(cfg, s) && sid in Apply(cfg, s, step).sessions
    ensures Apply(cfg, s, step).sessions[sid].attempt < cfg.maxAttempts
  {
    if Enabled(s, step) && step.Queue? && sid in Opened(cfg, s, step.q) {
      assert Runs.RowOk(cfg, s.queue.rows[sid.0]);
    } else {
      assert sid in s.sessions;
    }
  }

  lemma StepKeepsAttempts(cfg: Q.Config, s: Sys, step: Step)
    requires AttemptsBounded(cfg, s)
    ensures AttemptsBounded(cfg, Apply(cfg, s, step))
  {
    StepRefinesQueue(cfg, s, step);
    if QueueStep(s, step) != [] {
      Runs.StepKeepsSound(cfg, s.queue, QueueStep(s, step)[0]);
    }
    forall sid | sid in Apply(cfg, s, step).sessions
      ensures Apply(cfg, s, step).sessions[sid].attempt < cfg.maxAttempts
    {
      SessionStaysBounded(cfg, s, step, sid);
    }
  }

  lemma {:induction false} RunKeepsAttempts(cfg: Q.Config, s: Sys, steps: seq<Step>)
    requires AttemptsBounded(cfg, s)
    ensures AttemptsBounded(cfg, Exec(cfg, s, steps))
    decreases |steps|
  {
    if steps == [] {
    } else {
      StepKeepsAttempts(cfg, s, steps[0]);
      RunKeepsAttempts(cfg, Apply(cfg, s, steps[0]), steps[1..]);
    }
  }

  /** The job's keys for the attempts it can have are one key. */
  ghost predicate OneKeyFor(cfg: Q.Config, name: Naming, job: JobId) {
    forall a: nat, b: nat :: a < cfg.maxAttempts && b < cfg.maxAttempts ==> name(job, a) == name(job, b)
  }

  lemma {:induction false} NeighboursDiffer(name: Naming, job: JobId, a: nat, b: nat) returns (c: nat)
    requires a < b && name(job, a) != name(job, b)
    ensures a <= c < b && name(job, c) != name(job, c + 1)
    decreases b - a
  {
    if name(job, a) != name(job, a + 1) {
      c := a;
    } else {
      c := NeighboursDiffer(name, job, a + 1, b);
    }
  }

  lemma OneKeyRunsOnce(cfg: Q.Config, rows: Q.Table, steps: seq<Step>, name: Naming, job: JobId)
    requires Runs.Initial(cfg, Q.State(rows, map[]))
    requires OneKeyFor(cfg, name, job) && Follows(cfg, Start(rows), steps, name)
    ensures EffectsOf(Exec(cfg, Start(rows), steps).provider.log, job) <= 1
  {
    RunKeepsNamed(cfg, Start(rows), steps, name);
    RunKeepsAttempts(cfg, Start(rows), steps);
    var s := Exec(cfg, Start(rows), steps);
    LogKeysAreUnique(s);
    forall i, j | i in EntriesOf(s.provider.log, job) && j in EntriesOf(s.provider.log, job)
      ensures s.provider.log[i].key == s.provider.log[j].key
    {
      var d, e := s.provider.log[i], s.provider.log[j];
      assert d in s.provider.log && e in s.provider.log;
      assert name(job, d.attempt) == name(job, e.attempt);
    }
    OneKeyMeansOnce(s.provider.log, job);
  }

  /** The exact condition on the keys: whatever happens, the effect of a job happens at most once, if and
      only if its key is the same for all attempts it can have, and this is so for all runs as for those
      in which time does not go back. With a key for each attempt, as the schema describes it, a lost
      answer is enough for a second effect. */
  lemma AtMostOnceExactlyWhen(cfg: Q.Config, rows: Q.Table, name: Naming, job: JobId)
    requires Runs.Initial(cfg, Q.State(rows, map[])) && job in rows
    ensures OneKeyFor(cfg, name, job) <==>
            forall steps :: Follows(cfg, Start(rows), steps, name) ==>
              EffectsOf(Exec(cfg, Start(rows), steps).provider.log, job) <= 1
    ensures OneKeyFor(cfg, name, job) <==>
            forall steps :: Follows(cfg, Start(rows), steps, name) && TimesRise(steps, DueAt(rows[job])) ==>
              EffectsOf(Exec(cfg, Start(rows), steps).provider.log, job) <= 1
  {
    if OneKeyFor(cfg, name, job) {
      forall steps | Follows(cfg, Start(rows), steps, name)
        ensures EffectsOf(Exec(cfg, Start(rows), steps).provider.log, job) <= 1
      {
        OneKeyRunsOnce(cfg, rows, steps, name, job);
      }
    } else {
      var a: nat, b: nat :| a < cfg.maxAttempts && b < cfg.maxAttempts && name(job, a) != name(job, b);
      var c := NeighboursDiffer(name, job, Min(a, b), Max(a, b));
      ChangingKeysRepeat(cfg, rows, name, job, c);
      var steps :| Follows(cfg, Start(rows), steps, name) && TimesRise(steps, DueAt(rows[job]))
                   && TwiceGoal(job)(Exec(cfg, Start(rows), steps));
      assert EffectsOf(Exec(cfg, Start(rows), steps).provider.log, job) >= 2;
    }
  }

  // ----- which namings give exactly one effect per processed job -----

  /** Over the jobs of the table and the attempts they can have: one key per job, and none in common. */
  ghost predicate OneKeyEach(cfg: Q.Config, rows: Q.Table, name: Naming) {
    forall j, k, a: nat, b: nat ::
      j in rows && k in rows && a < cfg.maxAttempts && b < cfg.maxAttempts ==> (name(j, a) == name(k, b) <==> j == k)
  }

  /** Every job has had at most one effect, and exactly one if it is processed. */
  predicate OnceEach(s: Sys, rows: Q.Table) {
    forall job :: job in rows ==>
      && EffectsOf(s.provider.log, job) <= 1
      && (job in s.queue.rows && s.queue.rows[job].status == Q.Processed ==> EffectsOf(s.provider.log, job) == 1)
  }

  /** Sessions and effects belong to rows, and the effect of a processed row has happened under a key the
      row can have had. */
  ghost predicate Known(cfg: Q.Config, s: Sys, name: Naming) {
    && (forall sid :: sid in s.sessions ==> sid.0 in s.queue.rows)
    && (forall e :: e in s.provider.log ==> e.job in s.queue.rows)
    && (forall id :: id in s.queue.rows && s.queue.rows[id].status == Q.Processed ==> SettledInTime(cfg, s, id, name))
  }

  ghost predicate SettledInTime(cfg: Q.Config, s: Sys, job: JobId, name: Naming) {
    exists a: nat :: a < cfg.maxAttempts && Done(s, name(job, a))
  }

  lemma StepKeepsKeys(cfg: Q.Config, s: Sys, step: Step)
    ensures Apply(cfg, s, step).queue.rows.Keys == s.queue.rows.Keys
  {
  }

  lemma SettledStays(cfg: Q.Config, s: Sys, s': Sys, id: JobId, name: Naming)
    requires SettledInTime(cfg, s, id, name) && Grows(s, s')
    ensures SettledInTime(cfg, s', id, name)
  {
    var a: nat :| a < cfg.maxAttempts && Done(s, name(id, a));
    assert Done(s', name(id, a));
  }

  lemma ProcessedInTime(cfg: Q.Config, s: Sys, step: Step, name: Naming, id: JobId)
    requires Invariant(s) && Named(s, name) && AttemptsBounded(cfg, s) && Known(cfg, s, name)
    requires id in s.queue.rows && id in Apply(cfg, s, step).queue.rows
    requires Apply(cfg, s, step).queue.rows[id].status == Q.Processed
    ensures SettledInTime(cfg, Apply(cfg, s, step), id, name)
  {
    var s' := Apply(cfg, s, step);
    StepGrows(cfg, s, step);
    if s.queue.rows[id].status == Q.Processed {
      SettledStays(cfg, s, s', id, name);
    } else {
      OnlySuccessProcesses(cfg, s, step, id);
      var x := s.sessions[step.sid];
      assert PhaseOk(s, x.phase) && SessionNamed(step.sid, x, name);
      assert x.attempt < cfg.maxAttempts && Done(s', name(id, x.attempt));
    }
  }

  lemma StepKeepsOwners(cfg: Q.Config, s: Sys, step: Step, name: Naming)
    requires Known(cfg, s, name)
    ensures var s' := Apply(cfg, s, step);
            && (forall sid :: sid in s'.sessions ==> sid.0 in s.queue.rows)
            && (forall e :: e in s'.provider.log ==> e.job in s.queue.rows)
  {
  }

  lemma StepKeepsKnown(cfg: Q.Config, s: Sys, step: Step, name: Naming)
    requires Invariant(s) && Named(s, name) && AttemptsBounded(cfg, s) && Known(cfg, s, name)
    ensures Known(cfg, Apply(cfg, s, step), name)
  {
    var s' := Apply(cfg, s, step);
    StepKeepsKeys(cfg, s, step);
    StepKeepsOwners(cfg, s, step, name);
    forall id | id in s'.queue.rows && s'.queue.rows[id].status == Q.Processed
      ensures SettledInTime(cfg, s', id, name)
    {
      ProcessedInTime(cfg, s, step, name, id);
    }
  }

  lemma {:induction false} RunKeepsKnown(cfg: Q.Config, s: Sys, steps: seq<Step>, name: Naming)
    requires Invariant(s) && Named(s, name) && AttemptsBounded(cfg, s) && Known(cfg, s, name)
    requires Follows(cfg, s, steps, name)
    ensures Known(cfg, Exec(cfg, s, steps), name) && Exec(cfg, s, steps).queue.rows.Keys == s.queue.rows.Keys
    decreases |steps|
  {
    if steps == [] {
    } else {
      StepKeepsKeys(cfg, s, steps[0]);
      StepKeepsKnown(cfg, s, steps[0], name);
      StepKeepsNamed(cfg, s, steps[0], name);
      StepKeepsAttempts(cfg, s, steps[0]);
      RunKeepsInvariant(cfg, s, [steps[0]]);
      assert [steps[0]][1..] == [] && Exec(cfg, s, [steps[0]]) == Exec(cfg, Apply(cfg, s, steps[0]), []);
      RunKeepsKnown(cfg, Apply(cfg, s, steps[0]), steps[1..], name);
    }
  }

  lemma KnownHasEffect(cfg: Q.Config, s: Sys, name: Naming, job: JobId)
    requires TokensAreUnique(s.journal) && LogIsExact(s) && SettledInTime(cfg, s, job, name)
    requires OneKeyEach(cfg, s.queue.rows, name) && job in s.queue.rows
    requires forall e :: e in s.provider.log ==>
               e.key == name(e.job, e.attempt) && e.attempt < cfg.maxAttempts && e.job in s.queue.rows
    ensures EffectsOf(s.provider.log, job) >= 1
  {
    var a: nat :| a < cfg.maxAttempts && Done(s, name(job, a));
    var i := DoneHasEntry(s, name(job, a));
    var e := s.provider.log[i];
    assert e in s.provider.log && name(e.job, e.attempt) == name(job, a);
    assert i in EntriesOf(s.provider.log, job);
  }

  lemma OneKeyEachRunsOnce(cfg: Q.Config, rows: Q.Table, steps: seq<Step>, name: Naming)
    requires Runs.Initial(cfg, Q.State(rows, map[]))
    requires OneKeyEach(cfg, rows, name) && Follows(cfg, Start(rows), steps, name)
    ensures OnceEach(Exec(cfg, Start(rows), steps), rows)
  {
    RunKeepsKnown(cfg, Start(rows), steps, name);
    RunKeepsNamed(cfg, Start(rows), steps, name);
    RunKeepsAttempts(cfg, Start(rows), steps);
    var s := Exec(cfg, Start(rows), steps);
    forall job | job in rows
      ensures EffectsOf(s.provider.log, job) <= 1
      ensures s.queue.rows[job].status == Q.Processed ==> EffectsOf(s.provider.log, job) == 1
    {
      OneKeyRunsOnce(cfg, rows, steps, name, job);
      if s.queue.rows[job].status == Q.Processed {
        KnownHasEffect(cfg, s, name, job);
      }
    }
  }

  /** Some job of the table has had two effects, or is processed without one. */
  function NotOnceGoal(rows: Q.Table): Sys -> bool { (s: Sys) => !OnceEach(s, rows) }

  /** The session finds the entry completed and commits. */
  lemma ReplayCommits(cfg: Q.Config, s: Sys, sid: SessionId, a: nat, now: Q.Time, rest: Rest, rows: Q.Table,
                      name: Naming)
    requires Holding(s, sid, a, rest) && sid.0 in rows && EffectsOf(rest.provider.log, sid.0) == 0
    requires sid in s.sessions && s.sessions[sid] == Session(0, a, Started)
    requires var key := name(sid.0, a); key in rest.journal && rest.journal[key].state == Completed
    ensures MayReach(cfg, s, now, name, NotOnceGoal(rows))
  {
    var s1 := Apply(cfg, s, Insert(sid, name(sid.0, a), 1));
    var s2 := Apply(cfg, s1, Select(sid));
    var s3 := Apply(cfg, s2, Commit(sid, now, None));
    assert s3.queue.rows[sid.0].status == Q.Processed;
    assert !OnceEach(s3, rows);
    ReachesAtOnce(cfg, s3, now, name, NotOnceGoal(rows));
    ReachesAfterStep(cfg, s2, Commit(sid, now, None), now, name, NotOnceGoal(rows));
    ReachesAfterStep(cfg, s1, Select(sid), now, name, NotOnceGoal(rows));
    ReachesAfterStep(cfg, s, Insert(sid, name(sid.0, a), 1), now, name, NotOnceGoal(rows));
  }

  lemma ReplayRound(cfg: Q.Config, s: Sys, job: JobId, a: nat, now: Q.Time, rest: Rest, rows: Q.Table, name: Naming)
    requires Waits(s, job, a, now, rest) && job in rows && EffectsOf(rest.provider.log, job) == 0
    requires name(job, a) in rest.journal && rest.journal[name(job, a)].state == Completed
    ensures MayReach(cfg, s, now, name, NotOnceGoal(rows))
  {
    var sid, claim := (job, s.queue.rows[job].leaseVersion + 1), ClaimBy(s, job, now, 0);
    AfterClaim(cfg, s, sid, a, now, 0, rest);
    ReplayCommits(cfg, Apply(cfg, s, claim), sid, a, now, rest, rows, name);
    ReachesAfterStep(cfg, s, claim, now, name, NotOnceGoal(rows));
  }

  /** The first job's session carries out the effect and completes the entry. */
  lemma FirstJobCompletes(cfg: Q.Config, s: Sys, sid: SessionId, now: Q.Time, rest: Rest, e: Effect, name: Naming,
                          goal: Sys -> bool)
    requires Holding(s, sid, e.attempt, rest) && e.job == sid.0 && e.key == name(sid.0, e.attempt) && Unused(rest, e)
    requires sid in s.sessions && s.sessions[sid] == Session(0, e.attempt, Started)
    requires forall s': Sys :: s'.queue.calls == map[] && Keeps(s', sid.0, WithEffect(rest, e, Completed)) ==>
               MayReach(cfg, s', now, name, goal)
    ensures MayReach(cfg, s, now, name, goal)
  {
    var s1 := Apply(cfg, s, Insert(sid, e.key, e.token));
    var s2 := Apply(cfg, s1, SetExecuting(sid));
    var s3 := Apply(cfg, s2, Call(sid, None, Answer));
    var s4 := Apply(cfg, s3, Complete(sid));
    assert s4.journal == WithEffect(rest, e, Completed).journal;
    assert s4.provider == WithEffect(rest, e, Completed).provider;
    assert Keeps(s4, sid.0, WithEffect(rest, e, Completed));
    ReachesAfterStep(cfg, s3, Complete(sid), now, name, goal);
    ReachesAfterStep(cfg, s2, Call(sid, None, Answer), now, name, goal);
    ReachesAfterStep(cfg, s1, SetExecuting(sid), now, name, goal);
    ReachesAfterStep(cfg, s, Insert(sid, e.key, e.token), now, name, goal);
  }

  lemma FirstJobRound(cfg: Q.Config, s: Sys, now: Q.Time, rest: Rest, e: Effect, name: Naming, goal: Sys -> bool)
    requires Waits(s, e.job, e.attempt, now, rest) && e.key == name(e.job, e.attempt) && Unused(rest, e)
    requires forall s': Sys :: s'.queue.calls == map[] && Keeps(s', e.job, WithEffect(rest, e, Completed)) ==>
               MayReach(cfg, s', now, name, goal)
    ensures MayReach(cfg, s, now, name, goal)
  {
    var sid, claim := (e.job, s.queue.rows[e.job].leaseVersion + 1), ClaimBy(s, e.job, now, 0);
    AfterClaim(cfg, s, sid, e.attempt, now, 0, rest);
    FirstJobCompletes(cfg, Apply(cfg, s, claim), sid, now, rest, e, name, goal);
    ReachesAfterStep(cfg, s, claim, now, name, goal);
  }

  /** The second job comes to the attempt that has the first job's key, and is replayed. */
  lemma SecondJobReplays(cfg: Q.Config, rows: Q.Table, s: Sys, e: Effect, k: JobId, b: nat, now: Q.Time, name: Naming)
    requires Runs.Initial(cfg, Q.State(rows, map[])) && k in rows && k != e.job && b < cfg.maxAttempts
    requires name(k, b) == e.key && now >= DueAt(rows[k])
    requires s.queue.calls == map[]
    requires Keeps(s, e.job, WithEffect(NO_EFFECTS.(other := Some((k, rows[k]))), e, Completed))
    ensures MayReach(cfg, s, now, name, NotOnceGoal(rows))
  {
    var rest := WithEffect(NO_EFFECTS, e, Completed);
    assert EffectsOf(rest.provider.log, k) == 0 by {
      assert EntriesOf(rest.provider.log, k) == {};
    }
    forall s' | Waits(s', k, b, now, rest) ensures MayReach(cfg, s', now, name, NotOnceGoal(rows)) {
      ReplayRound(cfg, s', k, b, now, rest, rows, name);
    }
    ReachesAttempt(cfg, s, k, 0, b, now, rest, name, NotOnceGoal(rows));
  }

  /** Two jobs that can have one key: the second is processed without an effect of its own. */
  lemma SharedKeysReplay(cfg: Q.Config, rows: Q.Table, name: Naming, j: JobId, a: nat, k: JobId, b: nat)
    requires Runs.Initial(cfg, Q.State(rows, map[])) && j in rows && k in rows && j != k
    requires name(j, a) == name(k, b) && a < cfg.maxAttempts && b < cfg.maxAttempts
    ensures MayReach(cfg, Start(rows), Max(DueAt(rows[j]), DueAt(rows[k])), name, NotOnceGoal(rows))
  {
    var now := Max(DueAt(rows[j]), DueAt(rows[k]));
    var rest, e := NO_EFFECTS.(other := Some((k, rows[k]))), EffectAs(j, a, 0, name);
    forall s | Waits(s, j, a, now, rest) ensures MayReach(cfg, s, now, name, NotOnceGoal(rows)) {
      forall s': Sys | s'.queue.calls == map[] && Keeps(s', j, WithEffect(rest, e, Completed))
        ensures MayReach(cfg, s', now, name, NotOnceGoal(rows))
      {
        SecondJobReplays(cfg, rows, s', e, k, b, now, name);
      }
      FirstJobRound(cfg, s, now, rest, e, name, NotOnceGoal(rows));
    }
    ReachesAttempt(cfg, Start(rows), j, 0, a, now, rest, name, NotOnceGoal(rows));
  }

  /** A run with these names after which some job has had two effects, or is processed without one. */
  predicate Breaks(cfg: Q.Config, rows: Q.Table, steps: seq<Step>, name: Naming) {
    Follows(cfg, Start(rows), steps, name) && !OnceEach(Exec(cfg, Start(rows), steps), rows)
  }

  predicate BreaksInTime(cfg: Q.Config, rows: Q.Table, steps: seq<Step>, at: Q.Time, name: Naming) {
    Breaks(cfg, rows, steps, name) && TimesRise(steps, at)
  }

  lemma BadKeysBreak(cfg: Q.Config, rows: Q.Table, name: Naming) returns (steps: seq<Step>, at: Q.Time)
    requires Runs.Initial(cfg, Q.State(rows, map[])) && !OneKeyEach(cfg, rows, name)
    ensures BreaksInTime(cfg, rows, steps, at, name)
  {
    var j, k, a: nat, b: nat :|
      && j in rows && k in rows && a < cfg.maxAttempts && b < cfg.maxAttempts
      && !(name(j, a) == name(k, b) <==> j == k);
    if j == k {
      at := DueAt(rows[j]);
      var c := NeighboursDiffer(name, j, Min(a, b), Max(a, b));
      ChangingKeysRepeat(cfg, rows, name, j, c);
      steps :| Follows(cfg, Start(rows), steps, name) && TimesRise(steps, at)
               && TwiceGoal(j)(Exec(cfg, Start(rows), steps));
      assert EffectsOf(Exec(cfg, Start(rows), steps).provider.log, j) >= 2;
    } else {
      at := Max(DueAt(rows[j]), DueAt(rows[k]));
      SharedKeysReplay(cfg, rows, name, j, a, k, b);
      steps :| Follows(cfg, Start(rows), steps, name) && TimesRise(steps, at)
               && NotOnceGoal(rows)(Exec(cfg, Start(rows), steps));
    }
  }

  /** The exact condition on the keys for the whole promise: in every run every job's effect happens at
      most once, and exactly once if its row is `processed`, if and only if no job changes its key between
      attempts and no two jobs share one. Where the promise breaks, it breaks in a run in which time does
      not go back. */
  lemma ExactlyOnceExactlyWhen(cfg: Q.Config, rows: Q.Table, name: Naming)
    requires Runs.Initial(cfg, Q.State(rows, map[]))
    ensures OneKeyEach(cfg, rows, name) <==> !exists steps :: Breaks(cfg, rows, steps, name)
    ensures OneKeyEach(cfg, rows, name) <==> !exists steps, at :: BreaksInTime(cfg, rows, steps, at, name)
  {
    if OneKeyEach(cfg, rows, name) {
      forall steps ensures !Breaks(cfg, rows, steps, name) {
        if Follows(cfg, Start(rows), steps, name) {
          OneKeyEachRunsOnce(cfg, rows, steps, name);
        }
      }
    } else {
      var steps, at := BadKeysBreak(cfg, rows, name);
    }
  }

  // ----- how `completed` is lost -----

  /** The session has inserted the entry, and has yet to mark it executing. */
  predicate Paused(s: Sys, sid: SessionId, key: OpKey, token: Token) {
    sid in s.sessions && s.sessions[sid].phase == Created(key, token)
  }

  /** The entry is completed, and a late statement of the paused session would mark it executing. */
  function LostGoal(cfg: Q.Config, sid: SessionId, key: OpKey, token: Token): Sys -> bool {
    (s: Sys) =>
      && key in s.journal && s.journal[key].state == Completed && s.journal[key].token == token
      && Enabled(s, SetExecuting(sid))
      && Apply(cfg, s, SetExecuting(sid)).journal[key] == s.journal[key].(state := Executing)
  }

  /** The first session of the pair is paused before its entry, the second has just begun. */
  predicate FirstPaused(s: Sys, first: SessionId, second: SessionId, a: nat, key: OpKey) {
    && Paused(s, first, key, 0) && first != second
    && second in s.sessions && s.sessions[second] == Session(1, a, Started)
    && key in s.journal && s.journal[key] == Entry(Initiated, 0, None, 0)
  }

  /** A second session of the job finds the entry, calls the provider and completes it. */
  lemma SecondSessionCompletes(cfg: Q.Config, s: Sys, first: SessionId, sid: SessionId, a: nat, now: Q.Time,
                               name: Naming)
    requires FirstPaused(s, first, sid, a, name(sid.0, a))
    ensures MayReach(cfg, s, now, name, LostGoal(cfg, first, name(sid.0, a), 0))
  {
    var key := name(sid.0, a);
    var goal := LostGoal(cfg, first, key, 0);
    var s1 := Apply(cfg, s, Insert(sid, key, 1));
    var s2 := Apply(cfg, s1, Select(sid));
    var s3 := Apply(cfg, s2, Call(sid, Some(1), Answer));
    var s4 := Apply(cfg, s3, Complete(sid));
    ReachesAtOnce(cfg, s4, now, name, goal);
    ReachesAfterStep(cfg, s3, Complete(sid), now, name, goal);
    ReachesAfterStep(cfg, s2, Call(sid, Some(1), Answer), now, name, goal);
    ReachesAfterStep(cfg, s1, Select(sid), now, name, goal);
    ReachesAfterStep(cfg, s, Insert(sid, key, 1), now, name, goal);
  }

  /** The paused session still holds the row under the lease of a claim at `now`. */
  predicate Leased(cfg: Q.Config, s: Sys, sid: SessionId, a: nat, now: Q.Time) {
    && Holding(s, sid, a, RestOf(s))
    && var r := s.queue.rows[sid.0];
    r.leaseExpiresAt == Some(now + cfg.leaseMs) && (r.runAfter == None || r.runAfter.value <= now)
  }

  lemma AfterSweep(cfg: Q.Config, s: Sys, sid: SessionId, a: nat, now: Q.Time)
    requires Leased(cfg, s, sid, a, now) && a < cfg.maxAttempts
    ensures var later := now + cfg.leaseMs + 1;
            var s' := Apply(cfg, s, Queue(Q.SweepRetry(later)));
            && Waits(s', sid.0, a, later, RestOf(s)) && s'.sessions == s.sessions
            && s'.queue.rows[sid.0].leaseVersion == sid.1 + 1
  {
    assert Q.RowAfter(cfg, map[], sid.0, s.queue.rows[sid.0], Q.SweepRetry(now + cfg.leaseMs + 1)) ==
           Q.Reclaimed(s.queue.rows[sid.0]);
  }

  lemma AfterSecondClaim(cfg: Q.Config, s: Sys, sid: SessionId, second: SessionId, a: nat, now: Q.Time, key: OpKey)
    requires Waits(s, sid.0, a, now, RestOf(s)) && sid.1 <= s.queue.rows[sid.0].leaseVersion
    requires second.0 == sid.0 && second.1 == s.queue.rows[sid.0].leaseVersion + 1
    requires Paused(s, sid, key, 0) && key in s.journal && s.journal[key] == Entry(Initiated, 0, None, 0)
    ensures FirstPaused(Apply(cfg, s, ClaimBy(s, sid.0, now, 1)), sid, second, a, key)
  {
    ClaimKeepsSession(cfg, s, ClaimBy(s, sid.0, now, 1), sid);
    AfterClaim(cfg, s, second, a, now, 1, RestOf(s));
  }

  lemma ClaimedAgain(cfg: Q.Config, s: Sys, sid: SessionId, a: nat, now: Q.Time, name: Naming)
    requires Waits(s, sid.0, a, now, RestOf(s)) && sid.1 <= s.queue.rows[sid.0].leaseVersion
    requires Paused(s, sid, name(sid.0, a), 0)
    requires var key := name(sid.0, a); key in s.journal && s.journal[key] == Entry(Initiated, 0, None, 0)
    ensures MayReach(cfg, s, now, name, LostGoal(cfg, sid, name(sid.0, a), 0))
  {
    var second, claim := (sid.0, s.queue.rows[sid.0].leaseVersion + 1), ClaimBy(s, sid.0, now, 1);
    AfterSecondClaim(cfg, s, sid, second, a, now, name(sid.0, a));
    SecondSessionCompletes(cfg, Apply(cfg, s, claim), sid, second, a, now, name);
    ReachesAfterStep(cfg, s, claim, now, name, LostGoal(cfg, sid, name(sid.0, a), 0));
  }

  /** The lease of the paused session runs out, the sweep reclaims the row, and it is claimed again. */
  lemma SweptAndClaimedAgain(cfg: Q.Config, s: Sys, sid: SessionId, a: nat, now: Q.Time, name: Naming)
    requires Leased(cfg, s, sid, a, now) && a < cfg.maxAttempts
    requires Paused(s, sid, name(sid.0, a), 0)
    requires var key := name(sid.0, a); key in s.journal && s.journal[key] == Entry(Initiated, 0, None, 0)
    ensures MayReach(cfg, s, now, name, LostGoal(cfg, sid, name(sid.0, a), 0))
  {
    var later := now + cfg.leaseMs + 1;
    var sweep := Queue(Q.SweepRetry(later));
    AfterSweep(cfg, s, sid, a, now);
    ClaimedAgain(cfg, Apply(cfg, s, sweep), sid, a, later, name);
    ReachesAfterStep(cfg, s, sweep, now, name, LostGoal(cfg, sid, name(sid.0, a), 0));
  }

  /** The first session inserts the entry. */
  lemma InsertedAndPaused(cfg: Q.Config, s: Sys, sid: SessionId, a: nat, now: Q.Time, name: Naming)
    requires Leased(cfg, s, sid, a, now) && a < cfg.maxAttempts && s.journal == map[]
    requires sid in s.sessions && s.sessions[sid] == Session(0, a, Started)
    ensures MayReach(cfg, s, now, name, LostGoal(cfg, sid, name(sid.0, a), 0))
  {
    var insert := Insert(sid, name(sid.0, a), 0);
    SweptAndClaimedAgain(cfg, Apply(cfg, s, insert), sid, a, now, name);
    ReachesAfterStep(cfg, s, insert, now, name, LostGoal(cfg, sid, name(sid.0, a), 0));
  }

  /** How `completed` is lost, from any fresh table and for any job and naming: a worker inserts the
      entry and pauses, its lease is swept, a second worker claims the row, finds the entry unfinished,
      goes on with its token and completes it; the first worker's `executing` UPDATE then finds nothing
      in its way. The token stays, which is what keeps the effect single. */
  lemma CompletedCanBeLost(cfg: Q.Config, rows: Q.Table, name: Naming, job: JobId)
    requires Runs.Initial(cfg, Q.State(rows, map[])) && job in rows
    ensures MayReach(cfg, Start(rows), DueAt(rows[job]), name,
                     LostGoal(cfg, (job, rows[job].leaseVersion + 1), name(job, 0), 0))
  {
    var now := DueAt(rows[job]);
    var s, sid := Start(rows), (job, rows[job].leaseVersion + 1);
    AfterClaim(cfg, s, sid, 0, now, 0, RestOf(s));
    InsertedAndPaused(cfg, Apply(cfg, s, ClaimBy(s, job, now, 0)), sid, 0, now, name);
    ReachesAfterStep(cfg, s, ClaimBy(s, job, now, 0), now, name, LostGoal(cfg, sid, name(job, 0), 0));
  }
}
