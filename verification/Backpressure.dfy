/** planbuddy_v9/middleware/backpressure.js: admission by priority tier, and the release of a slot when
    its response finishes or its connection closes early. */
module Backpressure {
  import opened Basics

  type RequestId = nat

  datatype Tier = Low | Medium | High

  datatype Config = Config(maxConcurrent: nat, warning: real, critical: real, lagThreshold: real)

  const EXTREME: real := 0.98

  predicate ValidConfig(c: Config) { c.maxConcurrent > 0 && Ordered(c) }

  predicate Ordered(c: Config) { c.warning <= c.critical <= EXTREME }

  /** The tier's verdict at a load, with the database pool's health and the event loop's lag. */
  predicate Allows(c: Config, tier: Tier, load: real, dbCritical: bool, lag: real) {
    match tier
    case Low => load < c.warning && !dbCritical && lag <= c.lagThreshold
    case Medium => load < c.critical && !dbCritical
    case High => load < EXTREME && !dbCritical
  }

  function Load(c: Config, active: int): real
    requires c.maxConcurrent > 0
  {
    active as real / c.maxConcurrent as real
  }

  /** `listening`: admitted responses, whose events are listened to; `open`: those of them that have
      not released their slot. */
  datatype State = State(active: int, total: nat, rejected: nat, listening: set<RequestId>, open: set<RequestId>)

  const IDLE := State(0, 0, 0, {}, {})

  datatype Event =
    | Arrive(r: RequestId, tier: Tier, dbCritical: bool, lag: real)
    | Finish(r: RequestId)
    | Close(r: RequestId, writableEnded: bool)

  predicate Admitted(c: Config, s: State, e: Event)
    requires c.maxConcurrent > 0
  {
    e.Arrive? && e.r !in s.listening && Allows(c, e.tier, Load(c, s.active + 1), e.dbCritical, e.lag)
  }

  function Freed(s: State, r: RequestId): State { s.(active := Max(0, s.active - 1), open := s.open - {r}) }

  function Apply(c: Config, s: State, e: Event): State
    requires c.maxConcurrent > 0
  {
    match e
    case Arrive(r, _, _, _) =>
      if r in s.listening then s   // request ids are not reused
      else if Admitted(c, s, e)
      then s.(active := s.active + 1, total := s.total + 1, listening := s.listening + {r}, open := s.open + {r})
      else s.(total := s.total + 1, rejected := s.rejected + 1)
    case Finish(r) => if r in s.listening then Freed(s, r) else s
    case Close(r, ended) => if r in s.listening && !ended then Freed(s, r) else s
  }

  function Exec(c: Config, s: State, events: seq<Event>): State
    requires c.maxConcurrent > 0
    decreases |events|
  {
    if events == [] then s else Exec(c, Apply(c, s, events[0]), events[1..])
  }

  class Gate {
    const c: Config
    var activeRequests: int
    var totalRequests: nat
    var rejectedRequests: nat
    ghost var listening: set<RequestId>
    ghost var open: set<RequestId>

    ghost function View(): State
      reads this
    {
      State(activeRequests, totalRequests, rejectedRequests, listening, open)
    }

    constructor (c: Config)
      requires c.maxConcurrent > 0
      ensures this.c == c && View() == IDLE
    {
      this.c := c;
      activeRequests, totalRequests, rejectedRequests, listening, open := 0, 0, 0, {}, {};
    }

    /** The stretch of backpressureMiddleware after its await: count, decide, and on refusal uncount. */
    method Admit(r: RequestId, tier: Tier, dbCritical: bool, lag: real) returns (allowed: bool)
      requires c.maxConcurrent > 0 && r !in listening
      modifies this
      ensures allowed <==> Admitted(c, old(View()), Arrive(r, tier, dbCritical, lag))
      ensures View() == Apply(c, old(View()), Arrive(r, tier, dbCritical, lag))
      ensures var load := (old(activeRequests) + 1) as real / c.maxConcurrent as real;
              allowed <==> !dbCritical && match tier
                                          case Low => load < c.warning && lag <= c.lagThreshold
                                          case Medium => load < c.critical
                                          case High => load < 0.98
      ensures activeRequests == old(activeRequests) + (if allowed then 1 else 0)
      ensures totalRequests == old(totalRequests) + 1
      ensures rejectedRequests == old(rejectedRequests) + (if allowed then 0 else 1)
    {
      activeRequests := activeRequests + 1;
      totalRequests := totalRequests + 1;
      var load := activeRequests as real / c.maxConcurrent as real;
      allowed := true;
      if tier == Low {
        if load >= c.warning || dbCritical || lag > c.lagThreshold {
          allowed := false;
        }
      } else if tier == Medium {
        if load >= c.critical || dbCritical {
          allowed := false;
        }
      } else if load >= 0.98 || dbCritical {
        allowed := false;
      }
      if !allowed {
        rejectedRequests := rejectedRequests + 1;
        activeRequests := activeRequests - 1;
        return;
      }
      listening, open := listening + {r}, open + {r};
    }

    method OnFinish(r: RequestId)
      requires c.maxConcurrent > 0 && r in listening
      modifies this
      ensures View() == Apply(c, old(View()), Finish(r))
      ensures activeRequests == Max(0, old(activeRequests) - 1) && open == old(open) - {r}
      ensures unchanged(`totalRequests) && unchanged(`rejectedRequests) && unchanged(`listening)
    {
      activeRequests := Max(0, activeRequests - 1);
      open := open - {r};
    }

    method OnClose(r: RequestId, writableEnded: bool)
      requires c.maxConcurrent > 0 && r in listening
      modifies this
      ensures View() == Apply(c, old(View()), Close(r, writableEnded))
      ensures if writableEnded then unchanged(this)
              else activeRequests == Max(0, old(activeRequests) - 1) && open == old(open) - {r}
      ensures unchanged(`totalRequests) && unchanged(`rejectedRequests) && unchanged(`listening)
    {
      if !writableEnded {
        activeRequests := Max(0, activeRequests - 1);
        open := open - {r};
      }
    }
  }

  // ----- properties -----

  /** No admitted response releases its slot twice. */
  predicate OneRelease(c: Config, s: State, events: seq<Event>)
    requires c.maxConcurrent > 0
    decreases |events|
  {
    events != [] ==>
      && (events[0].Finish? || (events[0].Close? && !events[0].writableEnded) ==>
            events[0].r in s.listening ==> events[0].r in s.open)
      && OneRelease(c, Apply(c, s, events[0]), events[1..])
  }

  predicate Counted(c: Config, s: State) {
    && s.active == |s.open|
    && s.open <= s.listening
    && s.active as real < EXTREME * c.maxConcurrent as real
  }

  lemma BelowExtreme(c: Config, tier: Tier, active: int, dbCritical: bool, lag: real)
    requires ValidConfig(c) && Allows(c, tier, Load(c, active), dbCritical, lag)
    ensures active as real < EXTREME * c.maxConcurrent as real
  {
    var m := c.maxConcurrent as real;
    assert active as real == Load(c, active) * m;
    assert (EXTREME - Load(c, active)) * m > 0.0;
  }

  /** Given one release per admitted response, activeRequests is the number of responses that were
      admitted and have not released their slot (so the clamp at zero never bites), and it never
      reaches 98% of the maximum. */
  lemma {:induction false} ActiveIsCounted(c: Config, s: State, events: seq<Event>)
    requires ValidConfig(c) && Counted(c, s) && OneRelease(c, s, events)
    ensures Counted(c, Exec(c, s, events))
    decreases |events|
  {
    if events == [] {
    } else {
      var e := events[0];
      if Admitted(c, s, e) {
        BelowExtreme(c, e.tier, s.active + 1, e.dbCritical, e.lag);
      }
      ActiveIsCounted(c, Apply(c, s, e), events[1..]);
    }
  }

  // ----- slots that are never released -----

  predicate ReleasesSlot(e: Event, r: RequestId) {
    e == Finish(r) || (e.Close? && e.r == r && !e.writableEnded)
  }

  /** An admitted response keeps its slot exactly as long as it neither finishes nor closes before its
      end: a connection that closes after the end, without `finish`, releases nothing. */
  lemma {:induction false} SlotIsKeptExactlyWhen(c: Config, s: State, events: seq<Event>, r: RequestId)
    requires c.maxConcurrent > 0 && r in s.open && r in s.listening
    ensures r in Exec(c, s, events).open <==> forall e :: e in events ==> !ReleasesSlot(e, r)
    decreases |events|
  {
    if events == [] {
    } else {
      var s1, rest := Apply(c, s, events[0]), events[1..];
      assert forall e :: e in events <==> e == events[0] || e in rest;
      if ReleasesSlot(events[0], r) {
        ReleasedForGood(c, s1, rest, r);
      } else {
        SlotIsKeptExactlyWhen(c, s1, rest, r);
      }
    }
  }

  /** The request is admitted at some point of the run and not released after that. */
  predicate KeepsSlot(c: Config, s: State, events: seq<Event>, r: RequestId)
    requires c.maxConcurrent > 0
    decreases |events|
  {
    events != [] &&
      if Admitted(c, s, events[0]) && events[0].r == r then forall e :: e in events[1..] ==> !ReleasesSlot(e, r)
      else KeepsSlot(c, Apply(c, s, events[0]), events[1..], r)
  }

  lemma {:induction false} OpenMeansKept(c: Config, s: State, events: seq<Event>, r: RequestId)
    requires c.maxConcurrent > 0 && r !in s.listening && r !in s.open
    ensures r in Exec(c, s, events).open <==> KeepsSlot(c, s, events, r)
    decreases |events|
  {
    if events == [] {
    } else if Admitted(c, s, events[0]) && events[0].r == r {
      SlotIsKeptExactlyWhen(c, Apply(c, s, events[0]), events[1..], r);
    } else {
      OpenMeansKept(c, Apply(c, s, events[0]), events[1..], r);
    }
  }

  /** What activeRequests counts: in any run from the start in which nobody releases twice, the requests
      that were admitted and have since neither finished nor closed before their end. */
  lemma ActiveRequestsAreTheKeptSlots(c: Config, events: seq<Event>)
    requires ValidConfig(c) && OneRelease(c, IDLE, events)
    ensures var s := Exec(c, IDLE, events);
            s.active == |set r | r in s.listening && KeepsSlot(c, IDLE, events, r)|
  {
    ActiveIsCounted(c, IDLE, events);
    var s := Exec(c, IDLE, events);
    forall r ensures r in s.open <==> r in s.listening && KeepsSlot(c, IDLE, events, r) {
      OpenMeansKept(c, IDLE, events, r);
    }
    assert s.open == set r | r in s.listening && KeepsSlot(c, IDLE, events, r);
  }

  lemma {:induction false} ReleasedForGood(c: Config, s: State, events: seq<Event>, r: RequestId)
    requires c.maxConcurrent > 0 && r !in s.open && r in s.listening
    ensures r !in Exec(c, s, events).open
    decreases |events|
  {
    if events == [] {
    } else {
      ReleasedForGood(c, Apply(c, s, events[0]), events[1..], r);
    }
  }

  /** No event of the run releases a slot. */
  predicate NoRelease(events: seq<Event>) { forall e :: e in events ==> e.Arrive? || (e.Close? && e.writableEnded) }

  /** The gate admits nobody at its present count. */
  predicate Shut(c: Config, s: State)
    requires c.maxConcurrent > 0
  {
    Load(c, s.active + 1) >= EXTREME
  }

  predicate AdmitsSome(c: Config, s: State, events: seq<Event>)
    requires c.maxConcurrent > 0
    decreases |events|
  {
    events != [] && (Admitted(c, s, events[0]) || AdmitsSome(c, Apply(c, s, events[0]), events[1..]))
  }

  lemma {:induction false} ShutWithoutRelease(c: Config, s: State, events: seq<Event>)
    requires ValidConfig(c) && Shut(c, s) && NoRelease(events)
    ensures !AdmitsSome(c, s, events)
    decreases |events|
  {
    if events == [] {
    } else {
      assert events[0] in events;
      ShutWithoutRelease(c, Apply(c, s, events[0]), events[1..]);
    }
  }

  /** Without a release, the gate may admit another request exactly while the count leaves room below 98%
      of the maximum, kept slots included. */
  lemma AdmitsAgainExactlyWhen(c: Config, s: State)
    requires ValidConfig(c)
    ensures (exists events :: NoRelease(events) && AdmitsSome(c, s, events)) <==> !Shut(c, s)
  {
    if Shut(c, s) {
      forall events | NoRelease(events) ensures !AdmitsSome(c, s, events) {
        ShutWithoutRelease(c, s, events);
      }
    } else {
      var r := NotIn(s.listening);
      var events := [Arrive(r, High, false, 0.0)];
      assert r !in s.listening && NoRelease(events);
      assert AdmitsSome(c, s, events);
    }
  }

  ghost predicate MayShut(c: Config, s: State)
    requires c.maxConcurrent > 0
  {
    exists events :: NoRelease(events) && Shut(c, Exec(c, s, events)) && Closes(c, s, events)
  }

  /** The responses admitted in the run have all closed in it. */
  predicate Closes(c: Config, s: State, events: seq<Event>)
    requires c.maxConcurrent > 0
  {
    forall r :: r in Exec(c, s, events).open && r !in s.open ==> Close(r, true) in events
  }

  lemma {:induction false} LeaksShut(c: Config, s: State)
    requires ValidConfig(c)
    ensures MayShut(c, s)
    decreases c.maxConcurrent - s.active
  {
    if Shut(c, s) {
      assert NoRelease([]) && Exec(c, s, []) == s && Closes(c, s, []);
    } else {
      var r := NotIn(s.listening + s.open);
      assert r !in s.listening && r !in s.open;
      var a, b := Arrive(r, High, false, 0.0), Close(r, true);
      var s1 := Apply(c, s, a);
      BelowExtreme(c, High, s.active + 1, false, 0.0);
      assert Apply(c, s1, b) == s1;
      LeaksShut(c, s1);
      var rest :| NoRelease(rest) && Shut(c, Exec(c, s1, rest)) && Closes(c, s1, rest);
      var events := [a] + ([b] + rest);
      assert events[0] == a && events[1..] == [b] + rest && ([b] + rest)[0] == b && ([b] + rest)[1..] == rest;
      assert Exec(c, s, events) == Exec(c, s1, [b] + rest) == Exec(c, s1, rest);
      assert b in events && forall e :: e in rest ==> e in events;
      assert NoRelease(events) && Closes(c, s, events);
    }
  }

  /** Slots that are not released can shut the gate for good: from the start there is a run after which
      every admitted response has closed, and nobody is admitted any more. */
  lemma LeaksShutTheGate(c: Config)
    requires ValidConfig(c)
    ensures exists events ::
              && NoRelease(events)
              && (forall r :: r in Exec(c, IDLE, events).open ==> Close(r, true) in events)
              && (forall more :: NoRelease(more) ==> !AdmitsSome(c, Exec(c, IDLE, events), more))
  {
    LeaksShut(c, IDLE);
    var events :| NoRelease(events) && Shut(c, Exec(c, IDLE, events)) && Closes(c, IDLE, events);
    AdmitsAgainExactlyWhen(c, Exec(c, IDLE, events));
  }

  // ----- tiers -----

  predicate TiersAreMonotone(c: Config, load: real, dbCritical: bool, lag: real) {
    && (Allows(c, Low, load, dbCritical, lag) ==> Allows(c, Medium, load, dbCritical, lag))
    && (Allows(c, Medium, load, dbCritical, lag) ==> Allows(c, High, load, dbCritical, lag))
  }

  /** Whatever admits a lower tier admits every higher one, at every load, exactly if the thresholds
      are in order; setConfig does not enforce that order. */
  lemma TiersAreMonotoneExactlyWhen(c: Config)
    ensures Ordered(c) <==> forall load, dbCritical, lag :: TiersAreMonotone(c, load, dbCritical, lag)
  {
    if c.warning > c.critical {
      assert !TiersAreMonotone(c, c.critical, false, c.lagThreshold);
    }
    if c.critical > EXTREME {
      assert !TiersAreMonotone(c, EXTREME, false, c.lagThreshold);
    }
  }
}
