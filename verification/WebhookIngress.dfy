/** handleRazorpayWebhook: one stored row per provider event, and at most one enqueue of it, however
    often and however concurrently the event is delivered. */
module WebhookIngress {
  import opened Basics

  type EventId = string
  type RequestId = nat

  /** The three places an envelope id may come from, and the two for the event type. */
  datatype Envelope = Envelope(
    id: Option<string>, eventId: Option<string>, nestedId: Option<string>,
    event: Option<string>, nestedType: Option<string>,
    payload: string)

  /** The timestamp check may name the status it fails with. */
  datatype Verdict = Passed | Failed(status: Option<nat>)

  /** A delivery, with the verdicts of the checks that stand before the insert. `hasBytes`: the body is
      a buffer, or bytes could be extracted from it, and it is not empty. */
  datatype Delivery = Delivery(
    hasBytes: bool,
    timestamp: Verdict,
    signed: bool,            // a signature header is present
    secretConfigured: bool,
    signatureMatches: bool,
    parsed: Option<Envelope>)

  datatype StoredEvent = StoredEvent(eventType: string, payload: string)

  datatype Code =
    | MissingRawBody | BadTimestamp | SignatureMissing | SigningSecretMissing | SignatureMismatch
    | InvalidJson | MissingEventId | DbError

  datatype Reply = Accepted200 | Refused(status: nat, code: Code)

  predicate Truthy(s: Option<string>) { s.Some? && s.value != "" }

  function ExtractEventId(e: Envelope): Option<EventId> {
    if Truthy(e.id) then e.id
    else if Truthy(e.eventId) then e.eventId
    else if Truthy(e.nestedId) then e.nestedId
    else None
  }

  function ExtractEventType(e: Envelope): string {
    if Truthy(e.event) then e.event.value else if Truthy(e.nestedType) then e.nestedType.value else "unknown"
  }

  function StatusOr401(status: Option<nat>): nat { if status.Some? && status.value != 0 then status.value else 401 }

  /** The reply of the checks, if one of them refuses the delivery. */
  function Refusal(d: Delivery): Option<Reply> {
    if !d.hasBytes then Some(Refused(500, MissingRawBody))
    else if d.timestamp.Failed? then Some(Refused(StatusOr401(d.timestamp.status), BadTimestamp))
    else if !d.signed then Some(Refused(401, SignatureMissing))
    else if !d.secretConfigured then Some(Refused(500, SigningSecretMissing))
    else if !d.signatureMatches then Some(Refused(401, SignatureMismatch))
    else if d.parsed == None then Some(Refused(400, InvalidJson))
    else if ExtractEventId(d.parsed.value) == None then Some(Refused(400, MissingEventId))
    else None
  }

  /** `waiting`: requests whose insert returned a row and that have not yet called the queue.
      `enqueued`: the events handed to the queue, in order, whether or not the queue took them. */
  datatype State = State(events: map<EventId, StoredEvent>, waiting: map<RequestId, EventId>, enqueued: seq<EventId>)

  datatype Step =
    | Insert(request: RequestId, delivery: Delivery, dbOk: bool)
    | Enqueue(request: RequestId)
    | Crash(request: RequestId)

  function Stored(d: Delivery): StoredEvent
    requires d.parsed.Some?
  {
    StoredEvent(ExtractEventType(d.parsed.value), d.parsed.value.payload)
  }

  function Apply(s: State, step: Step): State {
    match step
    case Insert(r, d, dbOk) =>
      if Refusal(d).Some? || !dbOk || r in s.waiting then s
      else
        var id := ExtractEventId(d.parsed.value).value;
        if id in s.events then s
        else s.(events := s.events[id := Stored(d)], waiting := s.waiting[r := id])
    case Enqueue(r) =>
      if r in s.waiting then s.(waiting := s.waiting - {r}, enqueued := s.enqueued + [s.waiting[r]]) else s
    case Crash(r) => s.(waiting := s.waiting - {r})
  }

  function Exec(s: State, steps: seq<Step>): State
    decreases |steps|
  {
    if steps == [] then s else Exec(Apply(s, steps[0]), steps[1..])
  }

  const EMPTY := State(map[], map[], [])

  class Ingress {
    var events: map<EventId, StoredEvent>
    var enqueued: seq<EventId>

    constructor ()
      ensures events == map[] && enqueued == []
    {
      events, enqueued := map[], [];
    }

    /** verifySignature: the reply to the error it throws, if it throws one. */
    method VerifySignature(d: Delivery) returns (refusal: Option<Reply>)
      requires d.hasBytes && d.timestamp == Passed
      ensures refusal.Some? ==> refusal == Refusal(d)
      ensures refusal == None <==> d.signed && d.secretConfigured && d.signatureMatches
    {
      if !d.signed {
        return Some(Refused(401, SignatureMissing));
      }
      if !d.secretConfigured {
        return Some(Refused(500, SigningSecretMissing));
      }
      if !d.signatureMatches {
        return Some(Refused(401, SignatureMismatch));
      }
      refusal := None;
    }

    /** One delivery, handled without interruption. */
    method HandleRazorpayWebhook(request: RequestId, d: Delivery, dbOk: bool) returns (reply: Reply)
      modifies this
      ensures reply == if Refusal(d).Some? then Refusal(d).value else if dbOk then Accepted200
                       else Refused(500, DbError)
      ensures match reply
              case Accepted200 => true
              case Refused(status, MissingRawBody) => status == 500 && !d.hasBytes
              case Refused(status, BadTimestamp) =>
                d.timestamp.Failed? && (d.timestamp.status in {None, Some(0)} || d.timestamp.status == Some(status))
                && (d.timestamp.status in {None, Some(0)} ==> status == 401)
              case Refused(status, SignatureMissing) => status == 401 && !d.signed
              case Refused(status, SigningSecretMissing) => status == 500 && d.signed && !d.secretConfigured
              case Refused(status, SignatureMismatch) =>
                status == 401 && d.signed && d.secretConfigured && !d.signatureMatches
              case Refused(status, InvalidJson) => status == 400 && d.signatureMatches && d.parsed == None
              case Refused(status, MissingEventId) => status == 400 && d.signatureMatches && d.parsed.Some?
              case Refused(status, DbError) => status == 500 && d.parsed.Some? && !dbOk
      ensures reply == Accepted200 ==>
                d.hasBytes && d.timestamp == Passed && d.signed && d.secretConfigured && d.signatureMatches
                && d.parsed.Some? && dbOk && ExtractEventId(d.parsed.value).Some?
      ensures if reply == Accepted200 && ExtractEventId(d.parsed.value).value !in old(events) then
                var id := ExtractEventId(d.parsed.value).value;
                id in events && events == old(events)[id := events[id]] && enqueued == old(enqueued) + [id]
              else events == old(events) && enqueued == old(enqueued)
      ensures State(events, map[], enqueued) ==
              Apply(Apply(State(old(events), map[], old(enqueued)), Insert(request, d, dbOk)), Enqueue(request))
    {
      if !d.hasBytes {
        return Refused(500, MissingRawBody);
      }
      if d.timestamp.Failed? {
        return Refused(StatusOr401(d.timestamp.status), BadTimestamp);
      }
      var refusal := VerifySignature(d);
      if refusal.Some? {
        return refusal.value;
      }
      if d.parsed == None {
        return Refused(400, InvalidJson);
      }
      var id := ExtractEventId(d.parsed.value);
      if id == None {
        return Refused(400, MissingEventId);
      }
      if !dbOk {
        return Refused(500, DbError);
      }
      var wasNew := id.value !in events;
      if wasNew {
        events := events[id.value := Stored(d)];
        enqueued := enqueued + [id.value];
      }
      reply := Accepted200;
    }
  }

  predicate Accepts(step: Step, id: EventId) {
    && step.Insert? && Refusal(step.delivery) == None && step.dbOk
    && ExtractEventId(step.delivery.parsed.value) == Some(id)
  }

  predicate Invariant(s: State) {
    && (forall r :: r in s.waiting ==> s.waiting[r] in s.events && s.waiting[r] !in s.enqueued)
    && (forall r, q :: r in s.waiting && q in s.waiting && s.waiting[r] == s.waiting[q] ==> r == q)
    && (forall i :: 0 <= i < |s.enqueued| ==> s.enqueued[i] in s.events)
    && (forall i, j :: 0 <= i < j < |s.enqueued| ==> s.enqueued[i] != s.enqueued[j])
  }

  lemma {:induction false} RunKeepsInvariant(s: State, steps: seq<Step>)
    requires Invariant(s)
    ensures Invariant(Exec(s, steps))
    decreases |steps|
  {
    if steps == [] {
    } else {
      RunKeepsInvariant(Apply(s, steps[0]), steps[1..]);
    }
  }

  /** At most one enqueue attempt per event, and only of a stored event, over every interleaving. */
  lemma EnqueuedAtMostOnce(steps: seq<Step>, i: nat, j: nat)
    requires i < j < |Exec(EMPTY, steps).enqueued|
    ensures var s := Exec(EMPTY, steps); s.enqueued[i] != s.enqueued[j] && s.enqueued[i] in s.events
  {
    RunKeepsInvariant(EMPTY, steps);
  }

  /** Every stored event is enqueued, or about to be. */
  predicate HandedOn(s: State) {
    forall id :: id in s.events ==> id in s.enqueued || exists r :: r in s.waiting && s.waiting[r] == id
  }

  lemma StepHandsOn(s: State, step: Step)
    requires HandedOn(s) && !step.Crash?
    ensures HandedOn(Apply(s, step))
  {
    var s' := Apply(s, step);
    forall id | id in s'.events ensures id in s'.enqueued || exists r :: r in s'.waiting && s'.waiting[r] == id {
      if id !in s.events {
        assert s'.waiting[step.request] == id;
      } else if id in s.enqueued {
      } else {
        var r :| r in s.waiting && s.waiting[r] == id;
        if step == Enqueue(r) {
          assert s'.enqueued[|s.enqueued|] == id;
        } else {
          assert r in s'.waiting && s'.waiting[r] == id;
        }
      }
    }
  }

  /** Nothing but a crash between the insert and the enqueue keeps a stored event from the queue. */
  lemma {:induction false} StoredEventsAreHandedOn(s: State, steps: seq<Step>)
    requires HandedOn(s) && forall x :: x in steps ==> !x.Crash?
    ensures HandedOn(Exec(s, steps))
    decreases |steps|
  {
    if steps == [] {
    } else {
      assert steps[0] in steps;
      StepHandsOn(s, steps[0]);
      StoredEventsAreHandedOn(Apply(s, steps[0]), steps[1..]);
    }
  }

  /** The event is stored, and nobody is about to enqueue it. */
  predicate Stranded(s: State, id: EventId) {
    id in s.events && id !in s.enqueued && forall r :: r in s.waiting ==> s.waiting[r] != id
  }

  lemma {:induction false} StrandedForever(s: State, steps: seq<Step>, id: EventId)
    requires Stranded(s, id)
    ensures Stranded(Exec(s, steps), id)
    decreases |steps|
  {
    if steps == [] {
    } else {
      StrandedForever(Apply(s, steps[0]), steps[1..], id);
    }
  }

  /** Such a crash strands the event for good: it is stored, so no redelivery ever enqueues it. Only a
      reconciliation outside the handler can. */
  lemma CrashStrandsTheEvent(s: State, first: Step, steps: seq<Step>, id: EventId)
    requires Invariant(s) && id !in s.events && Accepts(first, id) && first.request !in s.waiting
    ensures Stranded(Exec(Apply(Apply(s, first), Crash(first.request)), steps), id)
  {
    StrandedForever(Apply(Apply(s, first), Crash(first.request)), steps, id);
  }

  lemma {:induction false} StoredForever(s: State, steps: seq<Step>, id: EventId)
    requires id in s.events
    ensures id in Exec(s, steps).events && Exec(s, steps).events[id] == s.events[id]
    decreases |steps|
  {
    if steps == [] {
    } else {
      StoredForever(Apply(s, steps[0]), steps[1..], id);
    }
  }

  /** Any number of deliveries of one event leaves one row, with the payload of the first delivery
      that was accepted: `steps` brings none for `id`, the next step does, and whatever follows
      changes nothing. */
  lemma FirstPayloadStays(s: State, steps: seq<Step>, first: Step, more: seq<Step>, id: EventId)
    requires id !in s.events && (forall x :: x in steps ==> !Accepts(x, id))
    requires Accepts(first, id) && first.request !in Exec(s, steps).waiting
    ensures id !in Exec(s, steps).events
    ensures var s' := Exec(Apply(Exec(s, steps), first), more);
            var e := first.delivery.parsed.value;
            && Some(id) == (if Truthy(e.id) then e.id else if Truthy(e.eventId) then e.eventId else e.nestedId)
            && id != "" && id in s'.events && s'.events[id].payload == e.payload
            && s'.events[id].eventType == (if Truthy(e.event) then e.event.value
                                           else if Truthy(e.nestedType) then e.nestedType.value
                                           else "unknown")
  {
    NotStoredWithoutDelivery(s, steps, id);
    StoredForever(Apply(Exec(s, steps), first), more, id);
  }

  lemma {:induction false} NotStoredWithoutDelivery(s: State, steps: seq<Step>, id: EventId)
    requires id !in s.events && forall x :: x in steps ==> !Accepts(x, id)
    ensures id !in Exec(s, steps).events
    decreases |steps|
  {
    if steps == [] {
    } else {
      assert steps[0] in steps;
      NotStoredWithoutDelivery(Apply(s, steps[0]), steps[1..], id);
    }
  }
}
