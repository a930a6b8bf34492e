/** utils/circuitBreakerUtil.js with overlapping calls: `execute` is cut at its await, so any number
    of wrapped calls may be in flight while others begin and end. */
module CircuitBreaker {
  type Time = int

  datatype Mode = Closed | Open | HalfOpen

  datatype Config = Config(failureThreshold: nat, successThreshold: nat, timeout: nat)

  datatype State = State(
    mode: Mode,
    failureCount: nat,
    successCount: nat,
    nextAttempt: Time,
    totalRequests: nat,
    totalErrors: nat,
    totalSuccesses: nat,
    stateTransitions: nat,
    failedFast: nat,      // calls refused without running
    inFlight: nat)        // wrapped calls begun and not ended

  datatype Event = Begin(now: Time) | EndOk | EndError(now: Time) | Reset(now: Time)

  /** Thresholds of 0 or undefined fall back to 5 and 2. */
  predicate ValidConfig(c: Config) { c.failureThreshold >= 1 && c.successThreshold >= 1 }

  function Fresh(now: Time): State { State(Closed, 0, 0, now, 0, 0, 0, 0, 0, 0) }

  predicate Refuses(s: State, now: Time) { s.mode == Open && now < s.nextAttempt }

  function AfterBegin(s: State, now: Time): State {
    var s1 := s.(totalRequests := s.totalRequests + 1);
    if Refuses(s, now) then s1.(failedFast := s1.failedFast + 1)
    else
      var s2 := if s1.mode == Open
                then s1.(mode := HalfOpen, successCount := 0, stateTransitions := s1.stateTransitions + 1) else s1;
      s2.(inFlight := s2.inFlight + 1)
  }

  function RecordSuccess(c: Config, s: State): State {
    var s1 := s.(totalSuccesses := s.totalSuccesses + 1);
    match s.mode
    case HalfOpen =>
      var s2 := s1.(successCount := s1.successCount + 1);
      if s2.successCount >= c.successThreshold
      then s2.(mode := Closed, failureCount := 0, stateTransitions := s2.stateTransitions + 1) else s2
    case Closed => s1.(failureCount := 0)
    case Open => s1
  }

  function RecordFailure(c: Config, s: State, now: Time): State {
    var s1 := s.(totalErrors := s.totalErrors + 1);
    match s.mode
    case HalfOpen =>
      s1.(mode := Open, nextAttempt := now + c.timeout, failureCount := 0, stateTransitions := s1.stateTransitions + 1)
    case Closed =>
      var s2 := s1.(failureCount := s1.failureCount + 1);
      if s2.failureCount >= c.failureThreshold
      then s2.(mode := Open, nextAttempt := now + c.timeout, stateTransitions := s2.stateTransitions + 1) else s2
    case Open => s1
  }

  function Apply(c: Config, s: State, e: Event): State {
    match e
    case Begin(now) => AfterBegin(s, now)
    case EndOk => if s.inFlight == 0 then s else RecordSuccess(c, s).(inFlight := s.inFlight - 1)
    case EndError(now) => if s.inFlight == 0 then s else RecordFailure(c, s, now).(inFlight := s.inFlight - 1)
    case Reset(now) => s.(mode := Closed, failureCount := 0, successCount := 0, nextAttempt := now)
  }

  function Exec(c: Config, s: State, events: seq<Event>): State
    decreases |events|
  {
    if events == [] then s else Exec(c, Apply(c, s, events[0]), events[1..])
  }

  // ----- the breaker object -----

  class Breaker {
    const c: Config
    var mode: Mode
    var failureCount: nat
    var successCount: nat
    var nextAttempt: Time
    var totalRequests: nat
    var totalErrors: nat
    var totalSuccesses: nat
    var stateTransitions: nat
    ghost var failedFast: nat
    ghost var inFlight: nat

    ghost function View(): State
      reads this
    {
      State(mode, failureCount, successCount, nextAttempt, totalRequests, totalErrors, totalSuccesses, stateTransitions,
            failedFast, inFlight)
    }

    constructor (c: Config, now: Time)
      ensures this.c == c && View() == Fresh(now)
    {
      this.c := c;
      mode, failureCount, successCount, nextAttempt := Closed, 0, 0, now;
      totalRequests, totalErrors, totalSuccesses, stateTransitions := 0, 0, 0, 0;
      failedFast, inFlight := 0, 0;
    }

    /** `execute` up to the wrapped call: false when it fails fast. */
    method BeginCall(now: Time) returns (admitted: bool)
      modifies this
      ensures View() == Apply(c, old(View()), Begin(now))
      ensures var turns := old(mode) == Open && now >= old(nextAttempt);
              && (admitted <==> old(mode) != Open || turns)
              && mode == (if turns then HalfOpen else old(mode))
              && successCount == (if turns then 0 else old(successCount))
              && stateTransitions == old(stateTransitions) + (if turns then 1 else 0)
      ensures totalRequests == old(totalRequests) + 1 && unchanged(`failureCount) && unchanged(`nextAttempt)
      ensures unchanged(`totalErrors) && unchanged(`totalSuccesses)
    {
      totalRequests := totalRequests + 1;
      if mode == Open && now < nextAttempt {
        failedFast := failedFast + 1;
        return false;
      }
      if mode == Open && now >= nextAttempt {
        mode, successCount := HalfOpen, 0;
        stateTransitions := stateTransitions + 1;
      }
      inFlight := inFlight + 1;
      admitted := true;
    }

    method CallSucceeded()
      requires inFlight > 0
      modifies this
      ensures View() == Apply(c, old(View()), EndOk)
      ensures totalSuccesses == old(totalSuccesses) + 1 && unchanged(`totalErrors) && unchanged(`nextAttempt)
      ensures var half := old(mode) == HalfOpen;
              var closes := half && old(successCount) + 1 >= c.successThreshold;
              && mode == (if closes then Closed else old(mode))
              && successCount == old(successCount) + (if half then 1 else 0)
              && failureCount == (if closes || old(mode) == Closed then 0 else old(failureCount))
              && stateTransitions == old(stateTransitions) + (if closes then 1 else 0)
    {
      inFlight := inFlight - 1;
      totalSuccesses := totalSuccesses + 1;
      if mode == HalfOpen {
        successCount := successCount + 1;
        if successCount >= c.successThreshold {
          mode, failureCount := Closed, 0;
          stateTransitions := stateTransitions + 1;
        }
      } else if mode == Closed {
        failureCount := 0;
      }
    }

    method CallFailed(now: Time)
      requires inFlight > 0
      modifies this
      ensures View() == Apply(c, old(View()), EndError(now))
      ensures totalErrors == old(totalErrors) + 1 && unchanged(`totalSuccesses) && unchanged(`successCount)
      ensures var opens := old(mode) == HalfOpen
                           || (old(mode) == Closed && old(failureCount) + 1 >= c.failureThreshold);
              && mode == (if opens then Open else old(mode))
              && nextAttempt == (if opens then now + c.timeout else old(nextAttempt))
              && failureCount == (if old(mode) == HalfOpen then 0
                                  else if old(mode) == Closed then old(failureCount) + 1
                                  else old(failureCount))
              && stateTransitions == old(stateTransitions) + (if opens then 1 else 0)
    {
      inFlight := inFlight - 1;
      totalErrors := totalErrors + 1;
      if mode == HalfOpen {
        mode, nextAttempt, failureCount := Open, now + c.timeout, 0;
        stateTransitions := stateTransitions + 1;
      } else if mode == Closed {
        failureCount := failureCount + 1;
        if failureCount >= c.failureThreshold {
          mode, nextAttempt := Open, now + c.timeout;
          stateTransitions := stateTransitions + 1;
        }
      }
    }

    method ResetBreaker(now: Time)
      modifies this
      ensures View() == Apply(c, old(View()), Reset(now))
      ensures mode == Closed && failureCount == successCount == 0 && nextAttempt == now
      ensures unchanged(`totalRequests) && unchanged(`totalErrors) && unchanged(`totalSuccesses)
      ensures unchanged(`stateTransitions)
    {
      mode, failureCount, successCount, nextAttempt := Closed, 0, 0, now;
    }
  }

  // ----- properties -----

  predicate Invariant(c: Config, s: State) {
    && s.totalRequests == s.totalSuccesses + s.totalErrors + s.failedFast + s.inFlight
    && (s.mode == Closed ==> s.failureCount < c.failureThreshold)
    && (s.mode == HalfOpen ==> s.successCount < c.successThreshold)
  }

  /** Every request is accounted for once, and the counters of a closed and of a half-open circuit stay
      below their thresholds, however the calls overlap. */
  lemma {:induction false} RunKeepsInvariant(c: Config, s: State, events: seq<Event>)
    requires ValidConfig(c) && Invariant(c, s)
    ensures Invariant(c, Exec(c, s, events))
    decreases |events|
  {
    if events == [] {
    } else {
      RunKeepsInvariant(c, Apply(c, s, events[0]), events[1..]);
    }
  }

  predicate Within(events: seq<Event>, deadline: Time) {
    forall e :: e in events ==> !e.Reset? && (e.Begin? ==> e.now < deadline)
  }

  function Begins(events: seq<Event>): nat {
    if events == [] then 0 else (if events[0].Begin? then 1 else 0) + Begins(events[1..])
  }

  /** While open and before nextAttempt every request fails fast; late results of calls that were in
      flight when the circuit opened neither close it nor move its deadline. */
  lemma {:induction false} OpenWindowRefuses(c: Config, s: State, events: seq<Event>)
    requires s.mode == Open && Within(events, s.nextAttempt)
    ensures var s' := Exec(c, s, events);
            && s'.mode == Open && s'.nextAttempt == s.nextAttempt
            && s'.failedFast == s.failedFast + Begins(events)
            && s'.inFlight <= s.inFlight
    decreases |events|
  {
    if events == [] {
    } else {
      assert events[0] in events;
      OpenWindowRefuses(c, Apply(c, s, events[0]), events[1..]);
    }
  }

  /** The window has the full length: the event that opens the circuit at time t is a failure, and
      without reset no wrapped call begins before t + timeout. */
  lemma OpeningStartsAFullWindow(c: Config, s: State, e: Event, events: seq<Event>)
    requires s.mode != Open && Apply(c, s, e).mode == Open
    requires e.EndError? ==> Within(events, e.now + c.timeout)
    ensures e.EndError?
    ensures var s1 := Apply(c, s, e);
            Exec(c, s1, events).failedFast == s1.failedFast + Begins(events) && Exec(c, s1, events).mode == Open
  {
    OpenWindowRefuses(c, Apply(c, s, e), events);
  }

  /** A half-open circuit does not limit its trial calls: it admits every one that begins. */
  lemma {:induction false} HalfOpenAdmitsAll(c: Config, s: State, events: seq<Event>)
    requires s.mode == HalfOpen && forall e :: e in events ==> e.Begin?
    ensures Exec(c, s, events).inFlight == s.inFlight + |events| && Exec(c, s, events).mode == HalfOpen
    decreases |events|
  {
    if events == [] {
    } else {
      assert events[0] in events;
      HalfOpenAdmitsAll(c, Apply(c, s, events[0]), events[1..]);
    }
  }

  // ----- opening and recovery -----

  /** The circuit leaves open only by a call that begins when the timeout has passed, which makes it half
      open, or by a reset, which closes it. */
  lemma OpenIsLeftExactlyBy(c: Config, s: State, e: Event)
    requires s.mode == Open
    ensures Apply(c, s, e).mode != Open <==> e.Reset? || (e.Begin? && e.now >= s.nextAttempt)
    ensures Apply(c, s, e).mode == Closed <==> e.Reset?
  {
  }

  /** The first call at or after the deadline is let through and starts a fresh half-open period. */
  lemma RecoveryBegins(c: Config, s: State, now: Time)
    requires s.mode == Open && now >= s.nextAttempt
    ensures var s' := Apply(c, s, Begin(now));
            && s'.mode == HalfOpen && s'.successCount == 0
            && s'.inFlight == s.inFlight + 1 && s'.failedFast == s.failedFast
            && s'.totalRequests == s.totalRequests + 1 && s'.stateTransitions == s.stateTransitions + 1
  {
  }

  /** Calls begin and succeed; only calls in flight end. */
  predicate AllSucceed(c: Config, s: State, events: seq<Event>)
    decreases |events|
  {
    events != [] ==>
      && (events[0].Begin? || (events[0].EndOk? && s.inFlight > 0))
      && AllSucceed(c, Apply(c, s, events[0]), events[1..])
  }

  function Ends(events: seq<Event>): nat {
    if events == [] then 0 else (if events[0].EndOk? then 1 else 0) + Ends(events[1..])
  }

  lemma {:induction false} ClosedStaysClosed(c: Config, s: State, events: seq<Event>)
    requires s.mode == Closed && AllSucceed(c, s, events)
    ensures Exec(c, s, events).mode == Closed
    decreases |events|
  {
    if events == [] {
    } else {
      ClosedStaysClosed(c, Apply(c, s, events[0]), events[1..]);
    }
  }

  /** A half-open circuit in which calls only succeed closes with exactly the success that makes up the
      threshold, and is half open until then. */
  lemma {:induction false} SuccessesCloseExactlyWhen(c: Config, s: State, events: seq<Event>)
    requires s.mode == HalfOpen && s.successCount < c.successThreshold && AllSucceed(c, s, events)
    ensures Exec(c, s, events).mode == if s.successCount + Ends(events) >= c.successThreshold then Closed else HalfOpen
    decreases |events|
  {
    if events == [] {
    } else {
      var s1 := Apply(c, s, events[0]);
      if s1.mode == Closed {
        ClosedStaysClosed(c, s1, events[1..]);
      } else {
        SuccessesCloseExactlyWhen(c, s1, events[1..]);
      }
    }
  }

  /** Recovery from any open circuit: the first call after the timeout, and successThreshold successes
      without a failure, close it, however many other calls begin meanwhile; fewer do not. */
  lemma OpenCircuitRecoversExactlyWhen(c: Config, s: State, now: Time, events: seq<Event>)
    requires ValidConfig(c) && s.mode == Open && now >= s.nextAttempt
    requires AllSucceed(c, Apply(c, s, Begin(now)), events)
    ensures Exec(c, Apply(c, s, Begin(now)), events).mode == Closed <==> Ends(events) >= c.successThreshold
  {
    RecoveryBegins(c, s, now);
    SuccessesCloseExactlyWhen(c, Apply(c, s, Begin(now)), events);
  }

  /** One failure in a half-open circuit opens it again, and every call in a full timeout from then on is
      refused. */
  lemma OneFailureReopens(c: Config, s: State, now: Time, events: seq<Event>)
    requires s.mode == HalfOpen && s.inFlight > 0 && Within(events, now + c.timeout)
    ensures var s1 := Apply(c, s, EndError(now));
            && s1.mode == Open && s1.nextAttempt == now + c.timeout
            && Exec(c, s1, events).mode == Open && Exec(c, s1, events).failedFast == s.failedFast + Begins(events)
  {
    OpenWindowRefuses(c, Apply(c, s, EndError(now)), events);
  }

  /** The failures reported since the last success. */
  function FailuresInARow(events: seq<Event>, before: nat): nat
    decreases |events|
  {
    if events == [] then before
    else FailuresInARow(events[1..], if events[0].EndError? then before + 1 else if events[0].EndOk? then 0 else before)
  }

  /** The circuit is closed before every event of the run; only calls in flight end. */
  predicate StaysClosed(c: Config, s: State, events: seq<Event>)
    decreases |events|
  {
    events != [] ==>
      && s.mode == Closed && !events[0].Reset? && (!events[0].Begin? ==> s.inFlight > 0)
      && StaysClosed(c, Apply(c, s, events[0]), events[1..])
  }

  /** A closed circuit opens exactly with the failure that makes failureThreshold of them in a row. */
  lemma {:induction false} OpensExactlyAtThreshold(c: Config, s: State, events: seq<Event>)
    requires ValidConfig(c) && s.mode == Closed && s.failureCount < c.failureThreshold && StaysClosed(c, s, events)
    ensures var s' := Exec(c, s, events);
            && s'.mode == (if FailuresInARow(events, s.failureCount) >= c.failureThreshold then Open else Closed)
            && s'.failureCount == FailuresInARow(events, s.failureCount)
    decreases |events|
  {
    if events == [] {
    } else {
      var s1 := Apply(c, s, events[0]);
      if s1.mode == Closed {
        OpensExactlyAtThreshold(c, s1, events[1..]);
      } else {
        assert events[1..] == [];
      }
    }
  }
}
