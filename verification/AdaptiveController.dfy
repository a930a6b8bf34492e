/** adaptive-controller.js for one queue: a circuit breaker together with concurrency that grows
    additively and shrinks by halves. The controller keeps one such state per queue key. */
module AdaptiveController {
  import opened Basics

  type Time = int

  datatype Circuit = Closed | Open | HalfOpen

  datatype Config = Config(initial: nat, min: nat, max: nat, threshold: nat, openMs: nat, probes: nat)

  const GAIN_EVERY := 20
  const RATE_LIMIT_SPIKE := 3

  datatype State = State(
    circuit: Circuit,
    failures: nat,
    rateLimits: nat,
    openedAt: Option<Time>,
    probes: nat,
    successes: nat,
    concurrency: nat,
    streak: nat,
    draining: bool)

  datatype Event =
    | Poll(now: Time)          // canProcess
    | Succeeded
    | Failed(now: Time)
    | RateLimited
    | SetDraining(on: bool)

  predicate ValidConfig(c: Config) { c.min <= c.initial <= c.max }

  function Fresh(c: Config): State { State(Closed, 0, 0, None, 0, 0, c.initial, 0, false) }

  // ----- transitions -----

  function Increase(c: Config, s: State): State {
    if s.draining then s else s.(concurrency := Min(s.concurrency + 1, c.max))
  }

  function Decrease(c: Config, s: State): State { s.(concurrency := Max(s.concurrency / 2, c.min)) }

  function SlowStart(c: Config): nat { Max(c.min, c.initial / 4) }

  function Close(c: Config, s: State): State {
    s.(circuit := Closed, failures := 0, openedAt := None, probes := 0, successes := 0,
       concurrency := SlowStart(c), streak := 0)
  }

  function ToHalfOpen(c: Config, s: State, now: Time): State {
    if s.circuit == Open && now - (if s.openedAt.Some? then s.openedAt.value else 0) >= c.openMs
    then s.(circuit := HalfOpen, probes := 0, successes := 0)
    else s
  }

  function AfterPoll(c: Config, s: State, now: Time): (State, bool) {
    var s1 := ToHalfOpen(c, s, now);
    match s1.circuit
    case Open => (s1, false)
    case HalfOpen => if s1.probes >= c.probes then (s1, false) else (s1.(probes := s1.probes + 1), true)
    case Closed => (s1, true)
  }

  function AfterSuccess(c: Config, s: State): State {
    var s1 := s.(failures := 0, rateLimits := 0);
    var s2 := if s1.circuit != HalfOpen then s1
              else if s1.successes + 1 >= c.probes then Close(c, s1)
              else s1.(successes := s1.successes + 1);
    var s3 := s2.(streak := s2.streak + 1);
    if s3.streak % GAIN_EVERY == 0 then Increase(c, s3) else s3
  }

  function AfterFailure(c: Config, s: State, now: Time): State {
    var s1 := s.(streak := 0, failures := s.failures + 1);
    var s2 := if s1.failures >= c.threshold && s1.circuit != Open
              then s1.(circuit := Open, openedAt := Some(now)) else s1;
    Decrease(c, s2)
  }

  function AfterRateLimit(c: Config, s: State): State {
    var s1 := s.(streak := 0, rateLimits := s.rateLimits + 1);
    Decrease(c, if s1.rateLimits >= RATE_LIMIT_SPIKE then s1.(failures := s1.failures + 1) else s1)
  }

  function AfterDraining(c: Config, s: State, on: bool): State {
    if on then s.(draining := true, concurrency := c.min) else s.(draining := false)
  }

  function Apply(c: Config, s: State, e: Event): State {
    match e
    case Poll(now) => AfterPoll(c, s, now).0
    case Succeeded => AfterSuccess(c, s)
    case Failed(now) => AfterFailure(c, s, now)
    case RateLimited => AfterRateLimit(c, s)
    case SetDraining(on) => AfterDraining(c, s, on)
  }

  function Exec(c: Config, s: State, events: seq<Event>): State
    decreases |events|
  {
    if events == [] then s else Exec(c, Apply(c, s, events[0]), events[1..])
  }

  predicate Admits(c: Config, s: State, e: Event) { e.Poll? && AfterPoll(c, s, e.now).1 }

  /** The polls let through by a sequence of events. */
  function Admitted(c: Config, s: State, events: seq<Event>): nat
    decreases |events|
  {
    if events == [] then 0
    else (if Admits(c, s, events[0]) then 1 else 0) + Admitted(c, Apply(c, s, events[0]), events[1..])
  }

  // ----- the controller object -----

  class Controller {
    const c: Config
    var circuitState: Circuit
    var consecutiveFailures: nat
    var consecutiveRateLimits: nat
    var openedAt: Option<Time>
    var halfOpenProbes: nat
    var halfOpenSuccesses: nat
    var currentConcurrency: nat
    var successStreak: nat
    var draining: bool

    ghost function View(): State
      reads this
    {
      State(circuitState, consecutiveFailures, consecutiveRateLimits, openedAt, halfOpenProbes, halfOpenSuccesses,
            currentConcurrency, successStreak, draining)
    }

    constructor (c: Config)
      ensures this.c == c && View() == Fresh(c)
      ensures circuitState == Closed && currentConcurrency == c.initial && !draining && openedAt == None
    {
      this.c := c;
      circuitState, consecutiveFailures, consecutiveRateLimits, openedAt := Closed, 0, 0, None;
      halfOpenProbes, halfOpenSuccesses, currentConcurrency, successStreak := 0, 0, c.initial, 0;
      draining := false;
    }

    method CanProcess(now: Time) returns (ok: bool)
      modifies this
      ensures (View(), ok) == AfterPoll(c, old(View()), now)
      ensures var since := if old(openedAt).Some? then old(openedAt).value else 0;
              var turns := old(circuitState) == Open && now - since >= c.openMs;
              var used := if turns then 0 else old(halfOpenProbes);
              && circuitState == (if turns then HalfOpen else old(circuitState))
              && (ok <==> circuitState == Closed || (circuitState == HalfOpen && used < c.probes))
              && halfOpenProbes == (if circuitState == HalfOpen && ok then used + 1 else used)
              && halfOpenSuccesses == (if turns then 0 else old(halfOpenSuccesses))
      ensures unchanged(`consecutiveFailures) && unchanged(`consecutiveRateLimits) && unchanged(`openedAt)
      ensures unchanged(`currentConcurrency) && unchanged(`successStreak) && unchanged(`draining)
    {
      MaybeTransitionToHalfOpen(now);
      if circuitState == Open {
        return false;
      }
      if circuitState == HalfOpen {
        if halfOpenProbes >= c.probes {
          return false;
        }
        halfOpenProbes := halfOpenProbes + 1;
      }
      ok := true;
    }

    method OnSuccess()
      modifies this
      ensures View() == AfterSuccess(c, old(View()))
      ensures consecutiveFailures == 0 && consecutiveRateLimits == 0 && unchanged(`draining)
      ensures var half := old(circuitState) == HalfOpen;
              if half && old(halfOpenSuccesses) + 1 >= c.probes then
                && circuitState == Closed && openedAt == None && halfOpenProbes == halfOpenSuccesses == 0
                && currentConcurrency == Max(c.min, c.initial / 4) && successStreak == 1
              else
                && unchanged(`circuitState) && unchanged(`openedAt) && unchanged(`halfOpenProbes)
                && halfOpenSuccesses == old(halfOpenSuccesses) + (if half then 1 else 0)
                && successStreak == old(successStreak) + 1
                && currentConcurrency == if successStreak % 20 == 0 && !draining
                                         then Min(old(currentConcurrency) + 1, c.max) else old(currentConcurrency)
    {
      consecutiveFailures, consecutiveRateLimits := 0, 0;
      if circuitState == HalfOpen {
        halfOpenSuccesses := halfOpenSuccesses + 1;
        if halfOpenSuccesses >= c.probes {
          CloseCircuit();
        }
      }
      successStreak := successStreak + 1;
      if successStreak % GAIN_EVERY == 0 {
        IncreaseConcurrency();
      }
    }

    method OnFailure(now: Time)
      modifies this
      ensures View() == AfterFailure(c, old(View()), now)
      ensures successStreak == 0 && consecutiveFailures == old(consecutiveFailures) + 1
      ensures var opens := consecutiveFailures >= c.threshold && old(circuitState) != Open;
              && circuitState == (if opens then Open else old(circuitState))
              && openedAt == (if opens then Some(now) else old(openedAt))
      ensures currentConcurrency == Max(old(currentConcurrency) / 2, c.min)
      ensures unchanged(`consecutiveRateLimits) && unchanged(`halfOpenProbes) && unchanged(`halfOpenSuccesses)
      ensures unchanged(`draining)
    {
      successStreak := 0;
      consecutiveFailures := consecutiveFailures + 1;
      if consecutiveFailures >= c.threshold && circuitState != Open {
        circuitState, openedAt := Open, Some(now);
      }
      DecreaseConcurrency();
    }

    method OnRateLimited()
      modifies this
      ensures View() == AfterRateLimit(c, old(View()))
      ensures successStreak == 0 && consecutiveRateLimits == old(consecutiveRateLimits) + 1
      ensures consecutiveFailures == old(consecutiveFailures) + (if consecutiveRateLimits >= 3 then 1 else 0)
      ensures currentConcurrency == Max(old(currentConcurrency) / 2, c.min)
      ensures unchanged(`circuitState) && unchanged(`openedAt) && unchanged(`halfOpenProbes)
      ensures unchanged(`halfOpenSuccesses) && unchanged(`draining)
    {
      successStreak := 0;
      consecutiveRateLimits := consecutiveRateLimits + 1;
      if consecutiveRateLimits >= RATE_LIMIT_SPIKE {
        consecutiveFailures := consecutiveFailures + 1;
      }
      DecreaseConcurrency();
    }

    method Drain(isDraining: bool)
      modifies this
      ensures View() == AfterDraining(c, old(View()), isDraining)
      ensures draining == isDraining
      ensures currentConcurrency == if isDraining then c.min else old(currentConcurrency)
    {
      draining := isDraining;
      if isDraining {
        currentConcurrency := c.min;
      }
    }

    method MaybeTransitionToHalfOpen(now: Time)
      modifies this
      ensures View() == ToHalfOpen(c, old(View()), now)
    {
      if circuitState != Open {
        return;
      }
      var since := if openedAt.Some? then openedAt.value else 0;
      if now - since >= c.openMs {
        circuitState := HalfOpen;
        halfOpenProbes, halfOpenSuccesses := 0, 0;
      }
    }

    method CloseCircuit()
      modifies this
      ensures View() == Close(c, old(View()))
    {
      circuitState, consecutiveFailures, openedAt := Closed, 0, None;
      halfOpenProbes, halfOpenSuccesses := 0, 0;
      currentConcurrency := Max(c.min, c.initial / 4);
      successStreak := 0;
    }

    method IncreaseConcurrency()
      modifies this`currentConcurrency
      ensures View() == Increase(c, old(View()))
    {
      if draining {
        return;
      }
      currentConcurrency := Min(currentConcurrency + 1, c.max);
    }

    method DecreaseConcurrency()
      modifies this`currentConcurrency
      ensures View() == Decrease(c, old(View()))
    {
      currentConcurrency := Max(currentConcurrency / 2, c.min);
    }
  }

  // ----- concurrency -----

  predicate Invariant(c: Config, s: State) {
    && c.min <= s.concurrency <= c.max
    && (s.draining ==> s.concurrency <= SlowStart(c))
    && (s.openedAt.Some? <==> s.circuit != Closed)
    && (s.circuit == HalfOpen ==> s.probes <= c.probes)
    && (s.circuit == HalfOpen ==> s.successes < Max(c.probes, 1))
  }

  lemma StepKeepsInvariant(c: Config, s: State, e: Event)
    requires ValidConfig(c) && Invariant(c, s)
    ensures Invariant(c, Apply(c, s, e))
  {
  }

  /** Over every event sequence: concurrency stays within its limits, and at or below the slow-start
      value while draining; openedAt is set exactly while the circuit is not closed; a half-open
      circuit has let through at most PROBE_COUNT polls. */
  lemma {:induction false} RunKeepsInvariant(c: Config, s: State, events: seq<Event>)
    requires ValidConfig(c) && Invariant(c, s)
    ensures Invariant(c, Exec(c, s, events))
    decreases |events|
  {
    if events == [] {
    } else {
      StepKeepsInvariant(c, s, events[0]);
      RunKeepsInvariant(c, Apply(c, s, events[0]), events[1..]);
    }
  }

  lemma HalvingTwice(x: nat, k: nat)
    ensures x / Pow2(k) / 2 == x / Pow2(k + 1)
  {
    var p := Pow2(k);
    assert Pow2(k + 1) == 2 * p;
    var q := x / p;
    var r := x % p;
    assert x == q * p + r;
    assert q == 2 * (q / 2) + q % 2;
    var rest := (q % 2) * p + r;
    assert x == (q / 2) * (2 * p) + rest by {
      assert q * p == (2 * (q / 2) + q % 2) * p == (q / 2) * (2 * p) + (q % 2) * p;
    }
    assert 0 <= rest < 2 * p by { assert q % 2 == 0 || q % 2 == 1; }
    QuotientIsUnique(x, 2 * p, q / 2, rest);
  }

  /** Failures and rate-limit hits, in any mixture. */
  predicate AllSetbacks(events: seq<Event>) { forall e :: e in events ==> e.Failed? || e.RateLimited? }

  predicate AllSucceed(events: seq<Event>) { forall e :: e in events ==> e.Succeeded? }

  /** k failures or rate-limit hits in a row, whatever the circuit does meanwhile, take c to
      max(min, floor(c / 2^k)). */
  lemma {:induction false} SetbacksHalve(c: Config, s: State, events: seq<Event>)
    requires s.concurrency >= c.min && AllSetbacks(events)
    ensures Exec(c, s, events).concurrency == Max(c.min, s.concurrency / Pow2(|events|))
    decreases |events|
  {
    if events == [] {
      assert Pow2(0) == 1;
    } else {
      var n := |events| - 1;
      var front := events[..n];
      SetbacksHalve(c, s, front);
      ExecLast(c, s, events);
      HalvingTwice(s.concurrency, n);
      assert events[n] in events;
    }
  }

  lemma {:induction false} ExecLast(c: Config, s: State, events: seq<Event>)
    requires events != []
    ensures var n := |events| - 1; Exec(c, s, events) == Apply(c, Exec(c, s, events[..n]), events[n])
    decreases |events|
  {
    var n := |events| - 1;
    if n == 0 {
      assert events[1..] == [];
    } else {
      ExecLast(c, Apply(c, s, events[0]), events[1..]);
      assert events[1..][..n - 1] == events[..n][1..];
    }
  }

  /** n successes in a row from streak s, in a closed circuit that is not draining, add one for every
      multiple of 20 the streak passes, up to the maximum. */
  lemma {:induction false} SuccessesAdd(c: Config, s: State, events: seq<Event>)
    requires s.circuit == Closed && !s.draining && s.concurrency <= c.max && AllSucceed(events)
    ensures var s' := Exec(c, s, events);
            var n := |events|;
            && s'.circuit == Closed && !s'.draining && s'.streak == s.streak + n
            && s'.concurrency ==
               s.concurrency + Min(c.max - s.concurrency, (s.streak + n) / GAIN_EVERY - s.streak / GAIN_EVERY)
    decreases |events|
  {
    if events == [] {
    } else {
      assert events[0] in events;
      SuccessesAdd(c, Apply(c, s, events[0]), events[1..]);
    }
  }

  // ----- the breaker -----

  predicate Early(events: seq<Event>, deadline: Time) {
    forall e :: e in events ==> (e.Poll? ==> e.now < deadline) && (e.Failed? ==> e.now < deadline)
  }

  /** From the moment it opens, the circuit stays open and lets no poll through for the whole timeout. */
  lemma {:induction false} OpenWindowIsShut(c: Config, s: State, events: seq<Event>, since: Time)
    requires s.circuit == Open && s.openedAt == Some(since) && Early(events, since + c.openMs)
    ensures Admitted(c, s, events) == 0
    ensures Exec(c, s, events).circuit == Open && Exec(c, s, events).openedAt == Some(since)
    decreases |events|
  {
    if events == [] {
    } else {
      assert events[0] in events;
      OpenWindowIsShut(c, Apply(c, s, events[0]), events[1..], since);
    }
  }

  /** Only a failure that reaches the threshold opens the circuit, and from its time on no poll is let
      through for a full open timeout, whatever else is reported meanwhile. */
  lemma OpeningStartsAFullWindow(c: Config, s: State, e: Event, events: seq<Event>)
    requires s.circuit != Open && Apply(c, s, e).circuit == Open
    requires e.Failed? ==> Early(events, e.now + c.openMs)
    ensures e.Failed? && s.failures + 1 >= c.threshold
    ensures Admitted(c, Apply(c, s, e), events) == 0 && Exec(c, Apply(c, s, e), events).circuit == Open
  {
    OpenWindowIsShut(c, Apply(c, s, e), events, e.now);
  }

  /** The circuit is half open before every event of the run and after the last. */
  predicate StaysHalfOpen(c: Config, s: State, events: seq<Event>)
    decreases |events|
  {
    s.circuit == HalfOpen && (events != [] ==> StaysHalfOpen(c, Apply(c, s, events[0]), events[1..]))
  }

  function Successes(events: seq<Event>): nat {
    if events == [] then 0 else (if events[0].Succeeded? then 1 else 0) + Successes(events[1..])
  }

  /** Within one half-open period, counted from any point of it: polls let through and successes
      recorded move the two counters one for one, and the polls never exceed PROBE_COUNT. */
  lemma {:induction false} HalfOpenPeriod(c: Config, s: State, events: seq<Event>)
    requires StaysHalfOpen(c, s, events) && s.probes <= c.probes
    ensures var s' := Exec(c, s, events);
            && s'.circuit == HalfOpen
            && s.probes + Admitted(c, s, events) == s'.probes <= c.probes
            && s.successes + Successes(events) == s'.successes
    decreases |events|
  {
    if events == [] {
    } else {
      HalfOpenPeriod(c, Apply(c, s, events[0]), events[1..]);
    }
  }

  /** A half-open period starts with the poll that ends the open timeout; it lets through at most
      PROBE_COUNT polls in all, and if the next event closes the circuit, that event is a success and
      the period has recorded PROBE_COUNT of them (one, if PROBE_COUNT were 0). */
  lemma ClosesOnlyAfterProbes(c: Config, s: State, entry: Event, events: seq<Event>, last: Event)
    requires ValidConfig(c) && Invariant(c, s) && s.circuit == Open
    requires StaysHalfOpen(c, Apply(c, s, entry), events)
    ensures entry.Poll? && (if Admits(c, s, entry) then 1 else 0) + Admitted(c, Apply(c, s, entry), events) <= c.probes
    ensures var s' := Exec(c, Apply(c, s, entry), events);
            Apply(c, s', last).circuit == Closed ==>
              last.Succeeded? && Successes(events) + 1 == Max(c.probes, 1)
  {
    var s1 := Apply(c, s, entry);
    HalfOpenPeriod(c, s1, events);
    RunKeepsInvariant(c, s1, events);
  }

  // ----- does the breaker recover? -----

  /** An item's report. */
  predicate IsReport(e: Event) { e.Succeeded? || e.Failed? }

  function Reports(events: seq<Event>): nat {
    if events == [] then 0 else (if IsReport(events[0]) then 1 else 0) + Reports(events[1..])
  }

  function RateLimits(events: seq<Event>): nat {
    if events == [] then 0 else (if events[0].RateLimited? then 1 else 0) + RateLimits(events[1..])
  }

  /** How many of m rate-limit hits in a row count as failures after `hits` hits. */
  function Spikes(hits: nat, m: nat): nat
    decreases m
  {
    if m == 0 then 0 else (if hits + 1 >= RATE_LIMIT_SPIKE then 1 else 0) + Spikes(hits + 1, m - 1)
  }

  lemma {:induction false} SpikesGrow(a: nat, b: nat, m: nat)
    requires a <= b
    ensures Spikes(a, m) <= Spikes(b, m)
    decreases m
  {
    if m == 0 {
    } else {
      SpikesGrow(a + 1, b + 1, m - 1);
    }
  }

  /** n reports and m rate-limit hits, whatever they are, do not get the circuit out of half open. */
  predicate OutOfReach(c: Config, s: State, n: nat, m: nat) {
    n == 0 || (s.successes + n < c.probes && s.failures + n + Spikes(s.rateLimits, m) < c.threshold)
  }

  /** A half-open circuit whose probes are used up stays half open and shut, however long it waits, if
      what the items and polls under way still report cannot move it. */
  lemma {:induction false} UsedUpProbesStayShut(c: Config, s: State, events: seq<Event>, n: nat, m: nat)
    requires s.circuit == HalfOpen && s.probes >= c.probes && OutOfReach(c, s, n, m)
    requires Reports(events) <= n && RateLimits(events) <= m
    ensures Admitted(c, s, events) == 0
    ensures Exec(c, s, events).circuit == HalfOpen && Exec(c, s, events).probes >= c.probes
    decreases |events|
  {
    if events == [] {
    } else {
      var e := events[0];
      if e.Succeeded? {
        SpikesGrow(0, s.rateLimits, m);
      }
      UsedUpProbesStayShut(c, Apply(c, s, e), events[1..], if IsReport(e) then n - 1 else n,
                           if e.RateLimited? then m - 1 else m);
    }
  }

  /** The time after the event; only polls and failures are timed. */
  function Clock(e: Event, now: Time): Time { if e.Poll? || e.Failed? then e.now else now }

  /** Times do not go back, from `now` on. */
  predicate TimesRise(events: seq<Event>, now: Time)
    decreases |events|
  {
    events != [] ==> now <= Clock(events[0], now) && TimesRise(events[1..], Clock(events[0], now))
  }

  /** Some sequence from `now` on, with at most n reports and m rate-limit hits, gets a poll through. */
  ghost predicate MayRecover(c: Config, s: State, n: nat, m: nat, now: Time) {
    exists events ::
      TimesRise(events, now) && Reports(events) <= n && RateLimits(events) <= m && Admitted(c, s, events) > 0
  }

  lemma RecoversAfterStep(c: Config, s: State, e: Event, n: nat, m: nat, now: Time)
    requires now <= Clock(e, now) && MayRecover(c, Apply(c, s, e), n, m, Clock(e, now))
    ensures MayRecover(c, s, if IsReport(e) then n + 1 else n, if e.RateLimited? then m + 1 else m, now)
  {
    var rest :| TimesRise(rest, Clock(e, now)) && Reports(rest) <= n && RateLimits(rest) <= m
                && Admitted(c, Apply(c, s, e), rest) > 0;
    var events := [e] + rest;
    assert events[0] == e && events[1..] == rest;
    assert TimesRise(events, now) && Admitted(c, s, events) > 0;
  }

  /** A circuit with a probe left, or not half open, lets a poll through, at the latest after the open
      timeout. */
  lemma LeavingRecovers(c: Config, s: State, n: nat, m: nat, now: Time)
    requires c.probes > 0 && (s.circuit != HalfOpen || s.probes < c.probes)
    ensures MayRecover(c, s, n, m, now)
  {
    var poll := Poll(Max(now, (if s.openedAt.Some? then s.openedAt.value else 0) + c.openMs));
    assert Admits(c, s, poll);
    var events := [poll];
    assert events[0] == poll && events[1..] == [];
    assert TimesRise(events, now);
    assert Reports(events) == Reports(events[1..]) && RateLimits(events) == RateLimits(events[1..]);
    assert Admitted(c, s, events) == 1 + Admitted(c, Apply(c, s, poll), events[1..]);
  }

  lemma {:induction false} SuccessesRecover(c: Config, s: State, n: nat, m: nat, now: Time)
    requires s.circuit == HalfOpen && c.probes > 0 && n >= 1 && s.successes + n >= c.probes
    ensures MayRecover(c, s, n, m, now)
    decreases n
  {
    var s1 := Apply(c, s, Succeeded);
    if s1.circuit != HalfOpen {
      LeavingRecovers(c, s1, n - 1, m, now);
    } else {
      SuccessesRecover(c, s1, n - 1, m, now);
    }
    RecoversAfterStep(c, s, Succeeded, n - 1, m, now);
  }

  lemma {:induction false} FailuresRecover(c: Config, s: State, n: nat, m: nat, now: Time)
    requires s.circuit == HalfOpen && c.probes > 0 && n >= 1
    requires s.failures + n + Spikes(s.rateLimits, m) >= c.threshold
    ensures MayRecover(c, s, n, m, now)
    decreases n, m
  {
    if m > 0 {
      FailuresRecover(c, Apply(c, s, RateLimited), n, m - 1, now);
      RecoversAfterStep(c, s, RateLimited, n, m - 1, now);
    } else {
      var s1 := Apply(c, s, Failed(now));
      if s1.circuit != HalfOpen {
        LeavingRecovers(c, s1, n - 1, m, now);
      } else {
        FailuresRecover(c, s1, n - 1, m, now);
      }
      RecoversAfterStep(c, s, Failed(now), n - 1, m, now);
    }
  }

  /** The breaker does not always recover. In a half-open circuit, n items can still report and m polls
      can still hit the rate limit. A poll will ever be let through again exactly if a probe is left, or
      some item can report, and all successes together reach PROBE_COUNT or all failures together, with
      the rate-limit hits that count, reach the threshold. */
  lemma RecoversExactlyWhen(c: Config, s: State, n: nat, m: nat, now: Time)
    requires s.circuit == HalfOpen && s.successes < c.probes
    ensures MayRecover(c, s, n, m, now) <==>
            || s.probes < c.probes
            || (n >= 1 && (s.successes + n >= c.probes || s.failures + n + Spikes(s.rateLimits, m) >= c.threshold))
  {
    if s.probes < c.probes {
      LeavingRecovers(c, s, n, m, now);
    } else if OutOfReach(c, s, n, m) {
      forall events | Reports(events) <= n && RateLimits(events) <= m ensures Admitted(c, s, events) == 0 {
        UsedUpProbesStayShut(c, s, events, n, m);
      }
    } else if s.successes + n >= c.probes {
      SuccessesRecover(c, s, n, m, now);
    } else {
      FailuresRecover(c, s, n, m, now);
    }
  }

  // ----- runs from the start -----

  /** An event, and the number of items claimed by it if it is a poll that is let through. */
  datatype Turn = Turn(e: Event, claimed: nat)

  function Events(turns: seq<Turn>): seq<Event> {
    if turns == [] then [] else [turns[0].e] + Events(turns[1..])
  }

  /** Items that have been claimed and have not reported. */
  function RunningAfter(x: Turn, running: nat): int { running + x.claimed - (if IsReport(x.e) then 1 else 0) }

  /** Time does not go back; only a poll that is let through claims items, and it claims at least `least`;
      only running items report; and no poll meets the rate limit. */
  predicate Sensible(c: Config, s: State, x: Turn, running: nat, now: Time, least: nat) {
    && now <= Clock(x.e, now)
    && (if Admits(c, s, x.e) then x.claimed >= least else x.claimed == 0)
    && RunningAfter(x, running) >= 0
    && !x.e.RateLimited?
  }

  /** A sensible run that ends in the goal. */
  predicate Leads(c: Config, s: State, running: nat, now: Time, turns: seq<Turn>, least: nat,
                  goal: (State, nat) -> bool)
    decreases |turns|
  {
    if turns == [] then goal(s, running)
    else
      var x := turns[0];
      && Sensible(c, s, x, running, now, least)
      && Leads(c, Apply(c, s, x.e), RunningAfter(x, running), Clock(x.e, now), turns[1..], least, goal)
  }

  ghost predicate MayReach(c: Config, s: State, running: nat, now: Time, least: nat, goal: (State, nat) -> bool) {
    exists turns :: Leads(c, s, running, now, turns, least, goal)
  }

  lemma ReachesAtOnce(c: Config, s: State, running: nat, now: Time, least: nat, goal: (State, nat) -> bool)
    requires goal(s, running)
    ensures MayReach(c, s, running, now, least, goal)
  {
    assert Leads(c, s, running, now, [], least, goal);
  }

  lemma ReachesAfterStep(c: Config, s: State, x: Turn, running: nat, now: Time, least: nat,
                         goal: (State, nat) -> bool)
    requires Sensible(c, s, x, running, now, least)
    requires MayReach(c, Apply(c, s, x.e), RunningAfter(x, running), Clock(x.e, now), least, goal)
    ensures MayReach(c, s, running, now, least, goal)
  {
    var rest :| Leads(c, Apply(c, s, x.e), RunningAfter(x, running), Clock(x.e, now), rest, least, goal);
    var turns := [x] + rest;
    assert turns[0] == x && turns[1..] == rest;
    assert Leads(c, s, running, now, turns, least, goal);
  }

  lemma {:induction false} LeadsToGoal(c: Config, s: State, running: nat, now: Time, turns: seq<Turn>, least: nat,
                                       goal: (State, nat) -> bool) returns (left: nat)
    requires Leads(c, s, running, now, turns, least, goal)
    ensures goal(Exec(c, s, Events(turns)), left)
    decreases |turns|
  {
    if turns == [] {
      left := running;
    } else {
      var x := turns[0];
      assert Events(turns)[0] == x.e && Events(turns)[1..] == Events(turns[1..]);
      left := LeadsToGoal(c, Apply(c, s, x.e), RunningAfter(x, running), Clock(x.e, now), turns[1..], least, goal);
    }
  }

  /** The circuit opened at time 0 and no drain is on. */
  predicate JustOpened(s: State) { s.circuit == Open && s.openedAt == Some(0) && !s.draining }

  ghost predicate ReachedFromOpen(c: Config, running: nat, least: nat, goal: (State, nat) -> bool) {
    forall s :: JustOpened(s) ==> MayReach(c, s, running, 0, least, goal)
  }

  lemma {:induction false} FailuresOpen(c: Config, s: State, k: nat, more: nat, least: nat,
                                        goal: (State, nat) -> bool)
    requires s.circuit == Closed && !s.draining && k >= 1 && s.failures + k >= c.threshold
    requires s.failures + k - 1 < Max(c.threshold, 1)
    requires ReachedFromOpen(c, more, least, goal)
    ensures MayReach(c, s, k + more, 0, least, goal)
    decreases k
  {
    var s1 := Apply(c, s, Failed(0));
    if s1.circuit == Open {
      assert k == 1 && JustOpened(s1);
    } else {
      FailuresOpen(c, s1, k - 1, more, least, goal);
    }
    ReachesAfterStep(c, s, Turn(Failed(0), 0), k + more, 0, least, goal);
  }

  /** From the start the circuit can be opened with any number of items still running: one poll claims
      them all. */
  lemma OpensFromFresh(c: Config, more: nat, least: nat, goal: (State, nat) -> bool)
    requires least <= 1 && ReachedFromOpen(c, more, least, goal)
    ensures MayReach(c, Fresh(c), 0, 0, least, goal)
  {
    var k := Max(c.threshold, 1);
    FailuresOpen(c, Fresh(c), k, more, least, goal);
    ReachesAfterStep(c, Fresh(c), Turn(Poll(0), k + more), 0, 0, least, goal);
  }

  /** Polls use up the probes of a half-open circuit, each claiming `least` items. */
  lemma {:induction false} ProbesFill(c: Config, s: State, running: nat, now: Time, least: nat,
                                      goal: (State, nat) -> bool)
    requires s.circuit == HalfOpen && s.probes <= c.probes && least <= 1
    requires MayReach(c, s.(probes := c.probes), running + least * (c.probes - s.probes), now, least, goal)
    ensures MayReach(c, s, running, now, least, goal)
    decreases c.probes - s.probes
  {
    if s.probes == c.probes {
      assert s.(probes := c.probes) == s;
    } else {
      assert least == 0 || least == 1;
      ProbesFill(c, s.(probes := s.probes + 1), running + least, now, least, goal);
      ReachesAfterStep(c, s, Turn(Poll(now), least), running, now, least, goal);
    }
  }

  // ----- draining -----

  function DrainGoal(c: Config): (State, nat) -> bool {
    (s: State, running: nat) => s.draining && s.concurrency > c.min
  }

  lemma {:induction false} SuccessesCloseInDrain(c: Config, s: State, running: nat, now: Time)
    requires s.circuit == HalfOpen && s.draining && s.successes < Max(c.probes, 1) && c.min < c.initial / 4
    requires s.successes + running >= Max(c.probes, 1)
    ensures MayReach(c, s, running, now, 1, DrainGoal(c))
    decreases running
  {
    var s1 := Apply(c, s, Succeeded);
    if s1.circuit == Closed {
      ReachesAtOnce(c, s1, running - 1, now, 1, DrainGoal(c));
    } else {
      SuccessesCloseInDrain(c, s1, running - 1, now);
    }
    ReachesAfterStep(c, s, Turn(Succeeded, 0), running, now, 1, DrainGoal(c));
  }

  lemma DrainsAboveMinimum(c: Config)
    requires c.min < c.initial / 4
    ensures MayReach(c, Fresh(c), 0, 0, 1, DrainGoal(c))
  {
    var running := Max(c.probes, 1);
    forall s | JustOpened(s) ensures MayReach(c, s, running, 0, 1, DrainGoal(c)) {
      var poll := Turn(Poll(c.openMs), if c.probes == 0 then 0 else 1);
      var s1, running1 := Apply(c, s, poll.e), RunningAfter(poll, running);
      SuccessesCloseInDrain(c, Apply(c, s1, SetDraining(true)), running1, c.openMs);
      ReachesAfterStep(c, s1, Turn(SetDraining(true), 0), running1, c.openMs, 1, DrainGoal(c));
      ReachesAfterStep(c, s, poll, running, 0, 1, DrainGoal(c));
    }
    OpensFromFresh(c, running, 1, DrainGoal(c));
  }

  /** Draining does not pin concurrency at its minimum: probes that succeed after the drain has begun
      close the circuit, which sets the slow-start value. Over all runs, draining means the minimum
      exactly for the settings whose slow-start value is the minimum. */
  lemma DrainingPinsExactlyWhen(c: Config)
    requires ValidConfig(c)
    ensures (forall events :: Exec(c, Fresh(c), events).draining ==> Exec(c, Fresh(c), events).concurrency == c.min)
            <==> c.initial / 4 <= c.min
  {
    if c.initial / 4 <= c.min {
      forall events ensures Invariant(c, Exec(c, Fresh(c), events)) {
        RunKeepsInvariant(c, Fresh(c), events);
      }
    } else {
      DrainsAboveMinimum(c);
      var turns :| Leads(c, Fresh(c), 0, 0, turns, 1, DrainGoal(c));
      var _ := LeadsToGoal(c, Fresh(c), 0, 0, turns, 1, DrainGoal(c));
      var events := Events(turns);
      assert Exec(c, Fresh(c), events).draining && Exec(c, Fresh(c), events).concurrency > c.min;
    }
  }

  // ----- runs that get stuck -----

  /** Half open, the probes used up, and no item running that could report. */
  function StuckGoal(c: Config): (State, nat) -> bool {
    (s: State, running: nat) => s.circuit == HalfOpen && s.probes >= c.probes && running == 0
  }

  /** A stuck circuit lets no poll through again, whatever happens. */
  lemma StuckIsForever(c: Config, s: State, events: seq<Event>)
    requires StuckGoal(c)(s, 0) && Reports(events) == 0
    ensures Admitted(c, s, events) == 0 && Exec(c, s, events).circuit == HalfOpen
  {
    UsedUpProbesStayShut(c, s, events, 0, RateLimits(events));
  }

  lemma OpenFills(c: Config, s: State, running: nat, least: nat, goal: (State, nat) -> bool)
    requires s.circuit == Open && s.openedAt == Some(0) && least <= 1
    requires MayReach(c, s.(circuit := HalfOpen, probes := c.probes, successes := 0), running + least * c.probes,
                      c.openMs, least, goal)
    ensures MayReach(c, s, running, 0, least, goal)
  {
    assert least == 0 || least == 1;
    var first := Min(c.probes, 1);
    ProbesFill(c, s.(circuit := HalfOpen, probes := first, successes := 0), running + least * first, c.openMs, least,
               goal);
    ReachesAfterStep(c, s, Turn(Poll(c.openMs), least * first), running, 0, least, goal);
  }

  /** If polls that are let through may claim nothing, every setting has a run from the start that ends
      with the circuit stuck: such polls use up the probes, and no item is left running. */
  lemma EmptyPollsStick(c: Config)
    ensures MayReach(c, Fresh(c), 0, 0, 0, StuckGoal(c))
  {
    forall s | JustOpened(s) ensures MayReach(c, s, 0, 0, 0, StuckGoal(c)) {
      ReachesAtOnce(c, s.(circuit := HalfOpen, probes := c.probes, successes := 0), 0, c.openMs, 0, StuckGoal(c));
      OpenFills(c, s, 0, 0, StuckGoal(c));
    }
    OpensFromFresh(c, 0, 0, StuckGoal(c));
  }

  /** All probes but the last succeed, then one fails; a success before it has reset the failures. */
  lemma {:induction false} LastProbeFails(c: Config, s: State, running: nat, now: Time)
    requires s.circuit == HalfOpen && s.probes == c.probes && s.failures == 0 && c.threshold >= 2
    requires running >= 1 && s.successes + running == c.probes
    ensures MayReach(c, s, running, now, 1, StuckGoal(c))
    decreases running
  {
    if running == 1 {
      ReachesAtOnce(c, Apply(c, s, Failed(now)), 0, now, 1, StuckGoal(c));
      ReachesAfterStep(c, s, Turn(Failed(now), 0), running, now, 1, StuckGoal(c));
    } else {
      LastProbeFails(c, Apply(c, s, Succeeded), running - 1, now);
      ReachesAfterStep(c, s, Turn(Succeeded, 0), running, now, 1, StuckGoal(c));
    }
  }

  /** With no probes at all a half-open circuit is stuck from the start. */
  lemma NoProbesStick(c: Config)
    requires c.probes == 0
    ensures MayReach(c, Fresh(c), 0, 0, 1, StuckGoal(c))
  {
    forall s | JustOpened(s) ensures MayReach(c, s, 0, 0, 1, StuckGoal(c)) {
      ReachesAtOnce(c, s.(circuit := HalfOpen, probes := 0, successes := 0), 0, c.openMs, 1, StuckGoal(c));
      OpenFills(c, s, 0, 1, StuckGoal(c));
    }
    OpensFromFresh(c, 0, 1, StuckGoal(c));
  }

  lemma {:induction false} LowThresholdNeverSticks(c: Config, s: State, running: nat, now: Time, turns: seq<Turn>)
    requires c.threshold <= 1 && c.probes >= 1
    requires s.circuit == HalfOpen ==> s.successes < c.probes && s.probes <= s.successes + running
    ensures !Leads(c, s, running, now, turns, 1, StuckGoal(c))
    decreases |turns|
  {
    if turns == [] {
    } else if Sensible(c, s, turns[0], running, now, 1) {
      var x := turns[0];
      LowThresholdNeverSticks(c, Apply(c, s, x.e), RunningAfter(x, running), Clock(x.e, now), turns[1..]);
    }
  }

  /** Even if every poll that is let through claims something and every item reports, a run from the
      start can end with the circuit half open, its probes used up and nothing left to report. It can
      exactly for a threshold of at least two failures (or no probes at all): then a success in between
      lets a failed probe count too little to reopen the circuit. */
  lemma AllReportedAndStuckExactlyWhen(c: Config)
    ensures MayReach(c, Fresh(c), 0, 0, 1, StuckGoal(c)) <==> c.threshold >= 2 || c.probes == 0
  {
    if c.probes == 0 {
      NoProbesStick(c);
    } else if c.threshold >= 2 {
      forall s | JustOpened(s) ensures MayReach(c, s, 1, 0, 1, StuckGoal(c)) {
        var s1 := Apply(c, s, Succeeded);
        LastProbeFails(c, s1.(circuit := HalfOpen, probes := c.probes, successes := 0), c.probes, c.openMs);
        OpenFills(c, s1, 0, 1, StuckGoal(c));
        ReachesAfterStep(c, s, Turn(Succeeded, 0), 1, 0, 1, StuckGoal(c));
      }
      OpensFromFresh(c, 1, 1, StuckGoal(c));
    } else {
      forall turns ensures !Leads(c, Fresh(c), 0, 0, turns, 1, StuckGoal(c)) {
        LowThresholdNeverSticks(c, Fresh(c), 0, 0, turns);
      }
    }
  }
}
