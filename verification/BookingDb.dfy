/** Bookings, trips and payments: the transaction of cancelBooking and the webhook appliers, each run
    without interruption. */
module BookingDb {
  import opened Basics

  type BookingId = nat
  type TripId = nat
  type PaymentId = nat

  datatype BookingStatus = Pending | Confirmed | Completed | Cancelled | Failed | Expired

  datatype PaidStatus = Unpaid | Paid | Refunded | PartiallyRefunded

  datatype Booking = Booking(
    status: BookingStatus,
    tripId: TripId,
    groupSize: nat,
    paidStatus: PaidStatus,
    reason: Option<string>,
    cancelledBy: Option<nat>)

  /** `Success` is a legacy value that only the refund statement still names. */
  datatype PaymentStatus = Created | Captured | NotCaptured | Success | GivenBack

  datatype Payment = Payment(status: PaymentStatus, refundId: Option<string>, bookingId: BookingId)

  /** `trips` holds current_bookings. */
  datatype Db = Db(bookings: map<BookingId, Booking>, trips: map<TripId, nat>, payments: map<PaymentId, Payment>)

  predicate Terminal(status: BookingStatus) { status == Cancelled || status == Failed || status == Expired }

  // ----- cancelBooking -----

  datatype CancelOutcome = BookingNotFound | AlreadyCancelled | TerminalState | TripNotFound | CancelledNow

  function CancelledRow(b: Booking, reason: string, actor: nat): Booking {
    b.(status := Cancelled, reason := Some(reason), cancelledBy := Some(actor))
  }

  function Cancel(db: Db, id: BookingId, reason: string, actor: nat): (Db, CancelOutcome) {
    if id !in db.bookings then (db, BookingNotFound)
    else
      var b := db.bookings[id];
      if b.status == Cancelled then (db, AlreadyCancelled)
      else if Terminal(b.status) then (db, TerminalState)
      else if b.tripId !in db.trips then (db, TripNotFound)
      else (db.(bookings := db.bookings[id := CancelledRow(b, reason, actor)],
                trips := db.trips[b.tripId := Max(db.trips[b.tripId] - b.groupSize, 0)]), CancelledNow)
  }

  // ----- webhook appliers -----

  datatype EventKind = PaymentCaptured | PaymentAuthorized | PaymentFailed | RefundProcessed | RefundPaid | OtherKind

  /** A missing id is None; for a refund id the empty string counts as missing too. */
  datatype Event =
    | PaymentEvent(kind: EventKind, paymentId: Option<PaymentId>)
    | RefundEvent(kind: EventKind, refundId: Option<string>, paymentId: Option<PaymentId>)

  /** The event kinds that run UPDATE statements, and those of them that also update a booking. */
  predicate Mutates(e: Event) {
    match e
    case PaymentEvent(kind, _) => kind == PaymentCaptured || kind == PaymentAuthorized || kind == PaymentFailed
    case RefundEvent(kind, refundId, _) =>
      refundId.Some? && refundId.value != "" && (kind == RefundProcessed || kind == RefundPaid)
  }

  predicate TouchesBooking(e: Event) { Mutates(e) && e.kind != PaymentFailed }

  /** The payment row after the event's UPDATE, which matches only some statuses. */
  function PaymentAfter(e: Event, p: Payment): Payment {
    match e
    case PaymentEvent(kind, _) =>
      if p.status != Created then p else p.(status := if kind == PaymentFailed then NotCaptured else Captured)
    case RefundEvent(_, refundId, _) =>
      if p.status == Captured || p.status == Success then p.(status := GivenBack, refundId := refundId) else p
  }

  /** Whether the event's UPDATE of the booking matches the row. */
  predicate MatchesBooking(e: Event, b: Booking) { e.RefundEvent? || b.status == Pending }

  function BookingAfter(e: Event, b: Booking): Booking {
    if !MatchesBooking(e, b) then b
    else if e.RefundEvent? then b.(paidStatus := Refunded)
    else b.(status := Confirmed, paidStatus := Paid)
  }

  function ApplyEvent(db: Db, e: Event): Db {
    if !Mutates(e) || e.paymentId == None || e.paymentId.value !in db.payments then db
    else
      var id := e.paymentId.value;
      var p := db.payments[id];
      var b := p.bookingId;
      db.(payments := db.payments[id := PaymentAfter(e, p)],
          bookings := if TouchesBooking(e) && b in db.bookings
                      then db.bookings[b := BookingAfter(e, db.bookings[b])] else db.bookings)
  }

  // ----- the transactions as the code runs them -----

  class BookingStore {
    var bookings: map<BookingId, Booking>
    var trips: map<TripId, nat>
    var payments: map<PaymentId, Payment>

    ghost function State(): Db
      reads this
    {
      Db(bookings, trips, payments)
    }

    constructor (db: Db)
      ensures State() == db
    {
      bookings, trips, payments := db.bookings, db.trips, db.payments;
    }

    method CancelBooking(id: BookingId, reason: string, actor: nat) returns (outcome: CancelOutcome)
      modifies this
      ensures (State(), outcome) == Cancel(old(State()), id, reason, actor)
      ensures payments == old(payments)
      ensures outcome != CancelledNow ==> bookings == old(bookings) && trips == old(trips)
      ensures match outcome
              case BookingNotFound => id !in bookings
              case AlreadyCancelled => id in bookings && bookings[id].status == Cancelled
              case TerminalState => id in bookings && bookings[id].status in {Failed, Expired}
              case TripNotFound =>
                && id in bookings && bookings[id].status in {Pending, Confirmed, Completed}
                && bookings[id].tripId !in trips
              case CancelledNow =>
                && id in old(bookings) && old(bookings)[id].status in {Pending, Confirmed, Completed}
                && var b := old(bookings)[id];
                && b.tripId in old(trips)
                && bookings == old(bookings)[id := b.(status := Cancelled, reason := Some(reason),
                                                      cancelledBy := Some(actor))]
                && trips == old(trips)[b.tripId := Max(old(trips)[b.tripId] - b.groupSize, 0)]
    {
      if id !in bookings {
        return BookingNotFound;
      }
      var booking := bookings[id];
      if Terminal(booking.status) {
        if booking.status == Cancelled {
          return AlreadyCancelled;
        }
        return TerminalState;
      }
      var tripId, groupSize := booking.tripId, booking.groupSize;
      if tripId !in trips {
        return TripNotFound;
      }
      bookings := bookings[id := CancelledRow(bookings[id], reason, actor)];
      var count: nat := Max(trips[tripId] as int - groupSize, 0);
      trips := trips[tripId := count];
      outcome := CancelledNow;
    }

    method ApplyPaymentEvent(kind: EventKind, paymentId: Option<PaymentId>)
      modifies this
      ensures State() == ApplyEvent(old(State()), PaymentEvent(kind, paymentId))
    {
      if paymentId == None || paymentId.value !in payments {
        return;
      }
      var id := paymentId.value;
      if kind == PaymentCaptured || kind == PaymentAuthorized {
        if payments[id].status == Created {
          payments := payments[id := payments[id].(status := Captured)];
        }
        var bookingId := payments[id].bookingId;
        if bookingId in bookings && bookings[bookingId].status == Pending {
          bookings := bookings[bookingId := bookings[bookingId].(paidStatus := Paid, status := Confirmed)];
        }
        return;
      }
      if kind == PaymentFailed && payments[id].status == Created {
        payments := payments[id := payments[id].(status := NotCaptured)];
      }
    }

    method ApplyRefundEvent(kind: EventKind, refundId: Option<string>, paymentId: Option<PaymentId>)
      modifies this
      ensures State() == ApplyEvent(old(State()), RefundEvent(kind, refundId, paymentId))
    {
      if refundId == None || refundId.value == "" {
        return;
      }
      if paymentId.Some? && paymentId.value !in payments {
        return;
      }
      if (kind == RefundProcessed || kind == RefundPaid) && paymentId.Some? {
        var id := paymentId.value;
        if payments[id].status == Captured || payments[id].status == Success {
          payments := payments[id := payments[id].(status := GivenBack, refundId := refundId)];
        }
        var bookingId := payments[id].bookingId;
        if bookingId in bookings {
          bookings := bookings[bookingId := bookings[bookingId].(paidStatus := Refunded)];
        }
      }
    }
  }

  // ----- properties of the appliers -----

  /** Applying an event twice in a row equals applying it once. */
  lemma ApplyingTwiceIsOnce(db: Db, e: Event)
    ensures ApplyEvent(ApplyEvent(db, e), e) == ApplyEvent(db, e)
  {
    var db1, db2 := ApplyEvent(db, e), ApplyEvent(ApplyEvent(db, e), e);
    assert db2.payments == db1.payments && db2.bookings == db1.bookings;
  }

  /** What each kind of event does to its payment and that payment's booking: captures and authorisations
      alike capture a created payment and confirm a pending booking; a failure fails a created payment; both
      refund kinds, if they carry a refund id, refund a captured payment and mark the booking; no other
      event changes anything. */
  lemma EventsByKind(db: Db, e: Event, id: PaymentId)
    requires id in db.payments && db.payments[id].bookingId in db.bookings && e.paymentId == Some(id)
    ensures var p, b := db.payments[id], db.bookings[db.payments[id].bookingId];
            var db' := ApplyEvent(db, e);
            && db'.trips == db.trips
            && id in db'.payments && p.bookingId in db'.bookings
            && (forall q :: q in db.payments && q != id ==> q in db'.payments && db'.payments[q] == db.payments[q])
            && (forall c :: c in db.bookings && c != p.bookingId ==>
                  c in db'.bookings && db'.bookings[c] == db.bookings[c])
            && var p', b' := db'.payments[id], db'.bookings[p.bookingId];
            match e
            case PaymentEvent(PaymentCaptured, _) =>
              && p' == (if p.status == Created then p.(status := Captured) else p)
              && b' == (if b.status == Pending then b.(status := Confirmed, paidStatus := Paid) else b)
            case PaymentEvent(PaymentAuthorized, _) =>
              && p' == (if p.status == Created then p.(status := Captured) else p)
              && b' == (if b.status == Pending then b.(status := Confirmed, paidStatus := Paid) else b)
            case PaymentEvent(PaymentFailed, _) =>
              p' == (if p.status == Created then p.(status := NotCaptured) else p) && b' == b
            case PaymentEvent(_, _) => p' == p && b' == b
            case RefundEvent(kind, refundId, _) =>
              if refundId != None && refundId != Some("") && kind in {RefundProcessed, RefundPaid} then
                && p' == (if p.status in {Captured, Success} then p.(status := GivenBack, refundId := refundId) else p)
                && b' == b.(paidStatus := Refunded)
              else p' == p && b' == b
  {
  }
}
