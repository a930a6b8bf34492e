/** Any number of cancelBooking transactions and webhook appliers, cut into their statements and
    interleaved, under row locks that are held until commit or rollback. A transaction's writes are
    visible to others only from its commit on. */
module BookingTransactions {
  import opened Basics
  import opened BookingDb

  type TxId = nat

  datatype Job =
    | CancelJob(booking: BookingId, reason: string, actor: nat)
    | EventJob(e: Event)

  /** How far a transaction has come, with the rows its statements returned or will write. */
  datatype Phase =
    | Begun
    | BookingLocked(row: Booking)
    | Checked(row: Booking)
    | TripLocked(row: Booking)
    | BookingWritten(row: Booking)
    | TripWritten(row: Booking, count: nat)
    | Ended(outcome: CancelOutcome)
    | PaymentLocked(payment: Payment)
    | PaymentWritten(payment: Payment)
    | BookingDecided(payment: Payment, write: Option<Booking>)
    | Applied
    | RolledBack

  datatype Tx = Tx(job: Job, phase: Phase)

  datatype Sys = Sys(db: Db, txs: map<TxId, Tx>)

  /** `Next` runs the transaction's next statement. */
  datatype Step = Begin(t: TxId, job: Job) | Next(t: TxId) | Abort(t: TxId)

  // ----- locks -----

  datatype Row = PaymentRow(p: PaymentId) | BookingRow(b: BookingId) | TripRow(trip: TripId)

  predicate Holds(tx: Tx, row: Row) {
    match tx.job
    case CancelJob(booking, _, _) =>
      var locked := tx.phase.TripLocked? || tx.phase.BookingWritten? || tx.phase.TripWritten?;
      || (row == BookingRow(booking) && (locked || tx.phase.BookingLocked? || tx.phase.Checked?))
      || (locked && row == TripRow(tx.phase.row.tripId))
    case EventJob(e) =>
      || (e.paymentId.Some? && row == PaymentRow(e.paymentId.value)
          && (tx.phase.PaymentLocked? || tx.phase.PaymentWritten? || tx.phase.BookingDecided?))
      || (tx.phase.BookingDecided? && tx.phase.write.Some? && row == BookingRow(tx.phase.payment.bookingId))
  }

  predicate Free(s: Sys, row: Row) { forall t :: t in s.txs ==> !Holds(s.txs[t], row) }

  // ----- statements -----

  function NextCancel(s: Sys, job: Job, phase: Phase): (Phase, Db)
    requires job.CancelJob?
  {
    var db := s.db;
    match phase
    case Begun =>
      if job.booking !in db.bookings then (Ended(BookingNotFound), db)
      else if !Free(s, BookingRow(job.booking)) then (phase, db)
      else (BookingLocked(db.bookings[job.booking]), db)
    case BookingLocked(row) =>
      if row.status == Cancelled then (Ended(AlreadyCancelled), db)
      else if Terminal(row.status) then (Ended(TerminalState), db)
      else (Checked(row), db)
    case Checked(row) =>
      if row.tripId !in db.trips then (Ended(TripNotFound), db)
      else if !Free(s, TripRow(row.tripId)) then (phase, db)
      else (TripLocked(row), db)
    case TripLocked(row) => (BookingWritten(row), db)
    case BookingWritten(row) =>
      if row.tripId !in db.trips then (phase, db)
      else (TripWritten(row, Max(db.trips[row.tripId] - row.groupSize, 0)), db)
    case TripWritten(row, count) =>
      (Ended(CancelledNow),
       db.(bookings := db.bookings[job.booking := CancelledRow(row, job.reason, job.actor)],
           trips := db.trips[row.tripId := count]))
    case _ => (phase, db)
  }

  function NextEvent(s: Sys, e: Event, phase: Phase): (Phase, Db) {
    var db := s.db;
    match phase
    case Begun =>
      if e.paymentId == None || e.paymentId.value !in db.payments then (Applied, db)
      else if e.RefundEvent? && (e.refundId == None || e.refundId.value == "") then (Applied, db)
      else if !Free(s, PaymentRow(e.paymentId.value)) then (phase, db)
      else (PaymentLocked(db.payments[e.paymentId.value]), db)
    case PaymentLocked(p) => (if Mutates(e) then PaymentWritten(p) else Applied, db)
    case PaymentWritten(p) =>
      var b := p.bookingId;
      if !TouchesBooking(e) || b !in db.bookings || !MatchesBooking(e, db.bookings[b])
      then (BookingDecided(p, None), db)
      else if !Free(s, BookingRow(b)) then (phase, db)
      else (BookingDecided(p, Some(BookingAfter(e, db.bookings[b]))), db)
    case BookingDecided(p, write) =>
      if e.paymentId == None then (phase, db)
      else
        (Applied,
         db.(payments := db.payments[e.paymentId.value := PaymentAfter(e, p)],
             bookings := if write.Some? then db.bookings[p.bookingId := write.value] else db.bookings))
    case _ => (phase, db)
  }

  /** A statement that has to wait for a lock leaves everything as it is. */
  function NextOf(s: Sys, tx: Tx): (Phase, Db) {
    match tx.job
    case CancelJob(_, _, _) => NextCancel(s, tx.job, tx.phase)
    case EventJob(e) => NextEvent(s, e, tx.phase)
  }

  predicate Over(phase: Phase) { phase.Ended? || phase.Applied? || phase.RolledBack? }

  function Apply(s: Sys, step: Step): Sys {
    match step
    case Begin(t, job) => if t in s.txs then s else s.(txs := s.txs[t := Tx(job, Begun)])
    case Next(t) =>
      if t !in s.txs then s
      else
        var (phase, db) := NextOf(s, s.txs[t]);
        Sys(db, s.txs[t := s.txs[t].(phase := phase)])
    case Abort(t) =>
      if t !in s.txs || Over(s.txs[t].phase) then s else s.(txs := s.txs[t := s.txs[t].(phase := RolledBack)])
  }

  function Exec(s: Sys, steps: seq<Step>): Sys
    decreases |steps|
  {
    if steps == [] then s else Exec(Apply(s, steps[0]), steps[1..])
  }

  // ----- what every run keeps -----

  function SeatsOf(b: Booking, trip: TripId): nat {
    if b.tripId == trip && !Terminal(b.status) then b.groupSize else 0
  }

  function SeatMap(bookings: map<BookingId, Booking>, trip: TripId): map<BookingId, nat> {
    map b | b in bookings :: SeatsOf(bookings[b], trip)
  }

  /** The seats taken on a trip: the group sizes of its non-terminal bookings. */
  ghost function Seats(bookings: map<BookingId, Booking>, trip: TripId): nat { Sum(SeatMap(bookings, trip)) }

  ghost predicate Conserved(db: Db) {
    forall trip :: trip in db.trips ==> db.trips[trip] == Seats(db.bookings, trip)
  }

  ghost predicate Exclusive(s: Sys) {
    forall t, u, row :: t in s.txs && u in s.txs && Holds(s.txs[t], row) && Holds(s.txs[u], row) ==> t == u
  }

  /** What a transaction knows stays true while it holds its locks. */
  predicate CancelOk(db: Db, job: Job, phase: Phase)
    requires job.CancelJob?
  {
    match phase
    case BookingLocked(row) => job.booking in db.bookings && db.bookings[job.booking] == row
    case Checked(row) => job.booking in db.bookings && db.bookings[job.booking] == row && !Terminal(row.status)
    case TripLocked(row) =>
      job.booking in db.bookings && db.bookings[job.booking] == row && !Terminal(row.status) && row.tripId in db.trips
    case BookingWritten(row) =>
      job.booking in db.bookings && db.bookings[job.booking] == row && !Terminal(row.status) && row.tripId in db.trips
    case TripWritten(row, count) =>
      && job.booking in db.bookings && db.bookings[job.booking] == row && !Terminal(row.status)
      && row.tripId in db.trips && count == db.trips[row.tripId] - row.groupSize
    case _ => true
  }

  predicate EventOk(db: Db, e: Event, phase: Phase) {
    (phase.PaymentLocked? || phase.PaymentWritten? || phase.BookingDecided? ==>
       && e.paymentId.Some? && e.paymentId.value in db.payments && db.payments[e.paymentId.value] == phase.payment
       && (phase.PaymentLocked? || Mutates(e))
       && var b := phase.payment.bookingId;
       && (phase.BookingDecided? && phase.write.Some? ==>
             b in db.bookings && TouchesBooking(e) && phase.write.value == BookingAfter(e, db.bookings[b]))
       && (phase.BookingDecided? && phase.write == None ==>
             !TouchesBooking(e) || b !in db.bookings || !MatchesBooking(e, db.bookings[b])))
  }

  predicate TxOk(db: Db, tx: Tx) {
    match tx.job
    case CancelJob(_, _, _) => CancelOk(db, tx.job, tx.phase)
    case EventJob(e) => EventOk(db, e, tx.phase)
  }

  ghost predicate Invariant(s: Sys) {
    Conserved(s.db) && Exclusive(s) && forall t :: t in s.txs ==> TxOk(s.db, s.txs[t])
  }

  /** GREATEST never clips: a non-terminal booking's seats are all counted in its trip. */
  lemma SeatsAreThere(db: Db, b: BookingId)
    requires Conserved(db) && b in db.bookings && !Terminal(db.bookings[b].status) && db.bookings[b].tripId in db.trips
    ensures db.trips[db.bookings[b].tripId] >= db.bookings[b].groupSize
  {
    SumBounds(SeatMap(db.bookings, db.bookings[b].tripId), b);
  }

  /** The only rows a step writes, and how: the statement's own transaction holds them. */
  predicate Rewrites(db: Db, db': Db, tx: Tx) {
    && db'.bookings.Keys == db.bookings.Keys && db'.trips.Keys == db.trips.Keys && db'.payments.Keys == db.payments.Keys
    && (forall b :: b in db.bookings && !Holds(tx, BookingRow(b)) ==> db'.bookings[b] == db.bookings[b])
    && (forall k :: k in db.trips && !Holds(tx, TripRow(k)) ==> db'.trips[k] == db.trips[k])
    && (forall p :: p in db.payments && !Holds(tx, PaymentRow(p)) ==> db'.payments[p] == db.payments[p])
    && (forall b :: b in db.bookings && db.bookings[b].status != Pending ==> db'.bookings[b].status != Pending)
  }

  lemma NextRewrites(s: Sys, tx: Tx)
    requires TxOk(s.db, tx)
    ensures Rewrites(s.db, NextOf(s, tx).1, tx)
  {
  }

  /** What a transaction knows survives the writes of another one. */
  lemma OthersStayOk(db: Db, db': Db, tx: Tx, writer: Tx)
    requires TxOk(db, tx) && Rewrites(db, db', writer)
    requires forall row :: Holds(tx, row) ==> !Holds(writer, row)
    ensures TxOk(db', tx)
  {
    if tx.job.CancelJob? && !tx.phase.Begun? && !Over(tx.phase) {
      assert Holds(tx, BookingRow(tx.job.booking)) || tx.phase.PaymentLocked? || tx.phase.PaymentWritten?
             || tx.phase.BookingDecided?;
    }
  }

  lemma OwnStaysOk(s: Sys, tx: Tx)
    requires Conserved(s.db) && TxOk(s.db, tx)
    ensures TxOk(NextOf(s, tx).1, tx.(phase := NextOf(s, tx).0))
  {
    if tx.job.CancelJob? && tx.phase.BookingWritten? {
      SeatsAreThere(s.db, tx.job.booking);
    }
  }

  /** The next statement takes at most free locks. */
  lemma NextHolds(s: Sys, tx: Tx, row: Row)
    requires Holds(tx.(phase := NextOf(s, tx).0), row)
    ensures Holds(tx, row) || Free(s, row)
  {
  }

  lemma CancellingFreesSeats(bookings: map<BookingId, Booking>, b: BookingId, row: Booking, trip: TripId)
    requires b in bookings && !Terminal(bookings[b].status)
    requires row.status == Cancelled && row.tripId == bookings[b].tripId
    ensures Seats(bookings[b := row], trip) ==
            Seats(bookings, trip) - (if bookings[b].tripId == trip then bookings[b].groupSize else 0)
  {
    SumUpdate(SeatMap(bookings, trip), SeatMap(bookings[b := row], trip), b);
  }

  lemma CancelKeepsConserved(s: Sys, tx: Tx)
    requires Conserved(s.db) && TxOk(s.db, tx) && tx.job.CancelJob?
    ensures Conserved(NextOf(s, tx).1)
  {
    var db' := NextOf(s, tx).1;
    if tx.phase.TripWritten? {
      forall trip | trip in db'.trips ensures db'.trips[trip] == Seats(db'.bookings, trip) {
        var row := CancelledRow(tx.phase.row, tx.job.reason, tx.job.actor);
        CancellingFreesSeats(s.db.bookings, tx.job.booking, row, trip);
      }
    }
  }

  lemma EventKeepsSeats(bookings: map<BookingId, Booking>, e: Event, b: BookingId, trip: TripId)
    requires b in bookings
    ensures Seats(bookings[b := BookingAfter(e, bookings[b])], trip) == Seats(bookings, trip)
  {
    assert SeatMap(bookings[b := BookingAfter(e, bookings[b])], trip) == SeatMap(bookings, trip);
  }

  lemma EventKeepsConserved(s: Sys, tx: Tx)
    requires Conserved(s.db) && TxOk(s.db, tx) && tx.job.EventJob?
    ensures Conserved(NextOf(s, tx).1)
  {
    if tx.phase.BookingDecided? && tx.phase.write.Some? {
      forall trip | trip in s.db.trips ensures s.db.trips[trip] == Seats(NextOf(s, tx).1.bookings, trip) {
        EventKeepsSeats(s.db.bookings, tx.job.e, tx.phase.payment.bookingId, trip);
      }
    }
  }

  lemma StepKeepsExclusive(s: Sys, step: Step)
    requires Exclusive(s)
    ensures Exclusive(Apply(s, step))
  {
    var s' := Apply(s, step);
    forall t, u, row | t in s'.txs && u in s'.txs && Holds(s'.txs[t], row) && Holds(s'.txs[u], row) ensures t == u {
      if step.Next? && step.t in s.txs && step.t in {t, u} {
        NextHolds(s, s.txs[step.t], row);
      }
    }
  }

  lemma StepKeepsInvariant(s: Sys, step: Step)
    requires Invariant(s)
    ensures Invariant(Apply(s, step))
  {
    StepKeepsExclusive(s, step);
    if step.Next? && step.t in s.txs {
      var tx := s.txs[step.t];
      assert TxOk(s.db, tx);
      NextRewrites(s, tx);
      OwnStaysOk(s, tx);
      if tx.job.CancelJob? { CancelKeepsConserved(s, tx); } else { EventKeepsConserved(s, tx); }
      forall u | u in s.txs && u != step.t ensures TxOk(NextOf(s, tx).1, s.txs[u]) {
        OthersStayOk(s.db, NextOf(s, tx).1, s.txs[u], tx);
      }
    }
  }

  lemma {:induction false} RunKeepsInvariant(s: Sys, steps: seq<Step>)
    requires Invariant(s)
    ensures Invariant(Exec(s, steps))
    decreases |steps|
  {
    if steps == [] {
    } else {
      StepKeepsInvariant(s, steps[0]);
      RunKeepsInvariant(Apply(s, steps[0]), steps[1..]);
    }
  }

  /** Capacity conservation: whatever the interleaving of cancellations and webhooks, every committed
      state counts on each trip exactly the seats of its non-terminal bookings, and no pending trip
      write was clipped at zero. */
  lemma CapacityIsConserved(db: Db, steps: seq<Step>)
    requires Conserved(db)
    ensures var s := Exec(Sys(db, map[]), steps);
            && (forall trip :: trip in s.db.trips ==> s.db.trips[trip] == Seats(s.db.bookings, trip))
            && (forall t :: t in s.txs && s.txs[t].job.CancelJob? && s.txs[t].phase.TripWritten? ==>
                  var row := s.txs[t].phase.row;
                  row.tripId in s.db.trips && s.txs[t].phase.count + row.groupSize == s.db.trips[row.tripId])
  {
    RunKeepsInvariant(Sys(db, map[]), steps);
    var s := Exec(Sys(db, map[]), steps);
    forall t | t in s.txs && s.txs[t].job.CancelJob? && s.txs[t].phase.TripWritten?
      ensures s.txs[t].phase.row.tripId in s.db.trips
      ensures s.txs[t].phase.count + s.txs[t].phase.row.groupSize == s.db.trips[s.txs[t].phase.row.tripId]
    {
      assert TxOk(s.db, s.txs[t]);
    }
  }

  /** What a whole transaction does when nothing runs beside it. */
  function Alone(db: Db, job: Job): (Db, Phase) {
    match job
    case CancelJob(b, reason, actor) => var (db', outcome) := Cancel(db, b, reason, actor); (db', Ended(outcome))
    case EventJob(e) => (ApplyEvent(db, e), Applied)
  }

  /** Interleaved transactions refine uninterrupted ones: at the statement that ends it, a transaction
      answers and changes the committed rows just as it would if it ran as a whole at that moment, and
      no other statement changes a committed row. */
  lemma TransactionsAreAtomic(s: Sys, t: TxId)
    requires Invariant(s) && t in s.txs && !Over(s.txs[t].phase)
    ensures var s' := Apply(s, Next(t));
            if Over(s'.txs[t].phase) then (s'.db, s'.txs[t].phase) == Alone(s.db, s.txs[t].job) else s'.db == s.db
  {
    var tx := s.txs[t];
    assert TxOk(s.db, tx);
    match tx.job
    case CancelJob(b, _, _) =>
      if tx.phase.TripWritten? { SeatsAreThere(s.db, b); }
    case EventJob(e) =>
      if tx.phase.BookingDecided? {
        var b := tx.phase.payment.bookingId;
        assert tx.phase.write == None && TouchesBooking(e) && b in s.db.bookings ==>
                 s.db.bookings[b := BookingAfter(e, s.db.bookings[b])] == s.db.bookings;
      }
  }

  /** A rollback ends its transaction, gives back its locks and leaves the committed rows as they are. */
  lemma AbortRollsBack(s: Sys, t: TxId, row: Row)
    requires t in s.txs && !Over(s.txs[t].phase)
    ensures var s' := Apply(s, Abort(t));
            && s'.db == s.db && s'.txs == s.txs[t := Tx(s.txs[t].job, RolledBack)] && !Holds(s'.txs[t], row)
  {
  }

  // ----- terminal bookings -----

  lemma StepKeepsTerminal(s: Sys, step: Step, b: BookingId)
    requires Invariant(s) && b in s.db.bookings && Terminal(s.db.bookings[b].status)
    ensures b in Apply(s, step).db.bookings && Apply(s, step).db.bookings[b].status == s.db.bookings[b].status
  {
    if step.Next? && step.t in s.txs {
      assert TxOk(s.db, s.txs[step.t]);
    }
  }

  /** A cancelled, failed or expired booking keeps that status: no webhook confirms it again. */
  lemma {:induction false} TerminalBookingsStay(s: Sys, steps: seq<Step>, b: BookingId)
    requires Invariant(s) && b in s.db.bookings && Terminal(s.db.bookings[b].status)
    ensures b in Exec(s, steps).db.bookings && Exec(s, steps).db.bookings[b].status == s.db.bookings[b].status
    decreases |steps|
  {
    if steps == [] {
    } else {
      StepKeepsTerminal(s, steps[0], b);
      StepKeepsInvariant(s, steps[0]);
      TerminalBookingsStay(Apply(s, steps[0]), steps[1..], b);
    }
  }

  /** The step releases the seats of booking `b`. */
  predicate Releases(s: Sys, step: Step, b: BookingId) {
    && step.Next? && step.t in s.txs
    && s.txs[step.t].job.CancelJob? && s.txs[step.t].job.booking == b && s.txs[step.t].phase.TripWritten?
  }

  /** A booking's seats are released at most once: after a release, no later step of any run is one. */
  lemma ReleasedAtMostOnce(s: Sys, step: Step, steps: seq<Step>, again: Step, b: BookingId)
    requires Invariant(s) && Releases(s, step, b)
    ensures !Releases(Exec(Apply(s, step), steps), again, b)
  {
    var s1 := Apply(s, step);
    assert TxOk(s.db, s.txs[step.t]);
    StepKeepsInvariant(s, step);
    TerminalBookingsStay(s1, steps, b);
    RunKeepsInvariant(s1, steps);
  }

  // ----- lock order -----

  /** The row whose lock the transaction's next statement asks for. */
  function Wants(s: Sys, tx: Tx): Option<Row> {
    match tx.job
    case CancelJob(b, _, _) =>
      if tx.phase.Begun? && b in s.db.bookings then Some(BookingRow(b))
      else if tx.phase.Checked? && tx.phase.row.tripId in s.db.trips then Some(TripRow(tx.phase.row.tripId))
      else None
    case EventJob(e) =>
      if tx.phase.Begun? && e.paymentId.Some? then Some(PaymentRow(e.paymentId.value))
      else if tx.phase.PaymentWritten? then Some(BookingRow(tx.phase.payment.bookingId))
      else None
  }

  predicate WaitsFor(s: Sys, t: TxId, u: TxId) {
    && t in s.txs && u in s.txs && t != u
    && Wants(s, s.txs[t]).Some? && Holds(s.txs[u], Wants(s, s.txs[t]).value)
  }

  /** Payment before booking before trip. */
  function Rank(row: Row): nat {
    match row
    case PaymentRow(_) => 0
    case BookingRow(_) => 1
    case TripRow(_) => 2
  }

  lemma LocksAreOrdered(s: Sys, tx: Tx, row: Row)
    requires Holds(tx, row) && Wants(s, tx).Some?
    ensures Rank(row) < Rank(Wants(s, tx).value)
  {
  }

  predicate WaitPath(s: Sys, p: seq<TxId>) {
    forall i :: 0 <= i < |p| - 1 ==> WaitsFor(s, p[i], p[i + 1])
  }

  function WantedRank(s: Sys, t: TxId): nat {
    if t in s.txs && Wants(s, s.txs[t]).Some? then Rank(Wants(s, s.txs[t]).value) else 0
  }

  /** Along a chain of waits the wanted rows rise in rank. */
  lemma {:induction false} RanksRise(s: Sys, p: seq<TxId>, i: nat)
    requires WaitPath(s, p) && i < |p| - 1
    ensures i <= WantedRank(s, p[i]) && WantedRank(s, p[0]) <= WantedRank(s, p[i])
    ensures i > 0 ==> WantedRank(s, p[0]) < WantedRank(s, p[i])
  {
    if i == 0 {
    } else {
      RanksRise(s, p, i - 1);
      assert WaitsFor(s, p[i - 1], p[i]) && WaitsFor(s, p[i], p[i + 1]);
      LocksAreOrdered(s, s.txs[p[i]], Wants(s, s.txs[p[i - 1]]).value);
    }
  }

  /** A chain of waiting transactions has at most three waits, and none closes to a cycle. */
  lemma NoWaitCycle(s: Sys, p: seq<TxId>)
    requires WaitPath(s, p) && |p| >= 2
    ensures |p| <= 4 && p[0] != p[|p| - 1]
  {
    var n := |p| - 1;
    RanksRise(s, p, n - 1);
    assert WaitsFor(s, p[n - 1], p[n]) && WaitsFor(s, p[0], p[1]);
    if p[0] == p[n] {
      LocksAreOrdered(s, s.txs[p[n]], Wants(s, s.txs[p[n - 1]]).value);
    }
  }

  predicate Waiting(s: Sys, t: TxId) { exists u :: u in s.txs && WaitsFor(s, t, u) }

  /** While any transaction is under way, one that is under way does not wait. */
  lemma {:induction false} SomeoneCanMove(s: Sys, t: TxId) returns (u: TxId)
    requires t in s.txs && !Over(s.txs[t].phase)
    ensures u in s.txs && !Over(s.txs[u].phase) && !Waiting(s, u)
    decreases 3 - WantedRank(s, t)
  {
    u := t;
    if Waiting(s, t) {
      u :| u in s.txs && WaitsFor(s, t, u);
      if Waiting(s, u) {
        LocksAreOrdered(s, s.txs[u], Wants(s, s.txs[t]).value);
        u := SomeoneCanMove(s, u);
      }
    }
  }

  // ----- progress -----

  /** Each job is in one of its own phases. */
  predicate Fits(tx: Tx) {
    match tx.job
    case CancelJob(_, _, _) =>
      || tx.phase.Begun? || tx.phase.BookingLocked? || tx.phase.Checked? || tx.phase.TripLocked?
      || tx.phase.BookingWritten? || tx.phase.TripWritten? || tx.phase.Ended? || tx.phase.RolledBack?
    case EventJob(_) =>
      || tx.phase.Begun? || tx.phase.PaymentLocked? || tx.phase.PaymentWritten? || tx.phase.BookingDecided?
      || tx.phase.Applied? || tx.phase.RolledBack?
  }

  predicate AllFit(s: Sys) { forall t :: t in s.txs ==> Fits(s.txs[t]) }

  lemma StepKeepsFit(s: Sys, step: Step)
    requires AllFit(s)
    ensures AllFit(Apply(s, step))
  {
  }

  lemma {:induction false} RunKeepsFit(s: Sys, steps: seq<Step>)
    requires AllFit(s)
    ensures AllFit(Exec(s, steps))
    decreases |steps|
  {
    if steps == [] {
    } else {
      StepKeepsFit(s, steps[0]);
      RunKeepsFit(Apply(s, steps[0]), steps[1..]);
    }
  }

  /** The statements a transaction may still have to run. */
  function Left(phase: Phase): nat {
    match phase
    case Begun => 6
    case BookingLocked(_) => 5
    case Checked(_) => 4
    case TripLocked(_) => 3
    case BookingWritten(_) => 2
    case TripWritten(_, _) => 1
    case PaymentLocked(_) => 3
    case PaymentWritten(_) => 2
    case BookingDecided(_, _) => 1
    case Ended(_) => 0
    case Applied => 0
    case RolledBack => 0
  }

  /** A transaction that is under way and does not wait is moved on by its next statement. */
  lemma NotWaitingMoves(s: Sys, t: TxId)
    requires Invariant(s) && AllFit(s) && t in s.txs && !Over(s.txs[t].phase) && !Waiting(s, t)
    ensures Left(Apply(s, Next(t)).txs[t].phase) < Left(s.txs[t].phase)
  {
    var tx := s.txs[t];
    assert TxOk(s.db, tx) && Fits(tx);
    if Wants(s, tx).Some? {
      var row := Wants(s, tx).value;
      forall u | u in s.txs ensures !Holds(s.txs[u], row) {
        if u == t {
          assert Holds(tx, row) ==> Rank(row) < Rank(row) by {
            if Holds(tx, row) { LocksAreOrdered(s, tx, row); }
          }
        } else {
          assert !WaitsFor(s, t, u);
        }
      }
      assert Free(s, row);
    }
  }

  function LeftMap(s: Sys): map<TxId, nat> { map t | t in s.txs :: Left(s.txs[t].phase) }

  lemma OneLowersSum(s: Sys, s': Sys, t: TxId)
    requires t in s.txs && s'.txs.Keys == s.txs.Keys
    requires forall u :: u in s.txs && u != t ==> s'.txs[u] == s.txs[u]
    requires Left(s'.txs[t].phase) < Left(s.txs[t].phase)
    ensures Sum(LeftMap(s')) < Sum(LeftMap(s))
  {
    SumUpdate(LeftMap(s), LeftMap(s'), t);
  }

  lemma MoveLowersLeft(s: Sys, t: TxId)
    requires Invariant(s) && AllFit(s) && t in s.txs && !Over(s.txs[t].phase) && !Waiting(s, t)
    ensures var s' := Apply(s, Next(t));
            && Invariant(s') && AllFit(s') && s'.txs.Keys == s.txs.Keys
            && Sum(LeftMap(s')) < Sum(LeftMap(s))
  {
    NotWaitingMoves(s, t);
    StepKeepsInvariant(s, Next(t));
    StepKeepsFit(s, Next(t));
    OneLowersSum(s, Apply(s, Next(t)), t);
  }

  /** Nobody is stuck: from every such state, the transactions under way can be run to their ends, one
      statement at a time, without a rollback and without new ones. */
  lemma {:induction false} EveryoneCanFinish(s: Sys) returns (steps: seq<Step>)
    requires Invariant(s) && AllFit(s)
    ensures forall x :: x in steps ==> x.Next?
    ensures |steps| <= Sum(LeftMap(s))
    ensures var s' := Exec(s, steps);
            s'.txs.Keys == s.txs.Keys && forall t :: t in s'.txs ==> Over(s'.txs[t].phase)
    decreases Sum(LeftMap(s))
  {
    if forall t :: t in s.txs ==> Over(s.txs[t].phase) {
      steps := [];
    } else {
      var t :| t in s.txs && !Over(s.txs[t].phase);
      var u := SomeoneCanMove(s, t);
      MoveLowersLeft(s, u);
      var rest := EveryoneCanFinish(Apply(s, Next(u)));
      steps := [Next(u)] + rest;
      assert steps[0] == Next(u) && steps[1..] == rest;
    }
  }

  /** No deadlock and no dead end: any run of cancellations and webhooks, stopped anywhere, can be
      completed so that every transaction is over, in at most six more statements for each. */
  lemma RunsCanFinish(db: Db, steps: seq<Step>) returns (more: seq<Step>)
    requires Conserved(db)
    ensures forall x :: x in more ==> x.Next?
    ensures |more| <= Sum(LeftMap(Exec(Sys(db, map[]), steps)))
    ensures var s' := Exec(Exec(Sys(db, map[]), steps), more);
            && s'.txs.Keys == Exec(Sys(db, map[]), steps).txs.Keys
            && forall t :: t in s'.txs ==> Over(s'.txs[t].phase)
  {
    RunKeepsInvariant(Sys(db, map[]), steps);
    RunKeepsFit(Sys(db, map[]), steps);
    more := EveryoneCanFinish(Exec(Sys(db, map[]), steps));
  }

  // ----- payments -----

  predicate Reaches(a: PaymentStatus, b: PaymentStatus) {
    || a == b
    || (a == Created && (b == Captured || b == NotCaptured || b == GivenBack))
    || ((a == Captured || a == Success) && b == GivenBack)
  }

  predicate RefundIdOk(p: Payment) { p.refundId.Some? <==> p.status == GivenBack }

  predicate Follows(p: Payment, p': Payment) {
    && Reaches(p.status, p'.status)
    && (p.refundId.Some? ==> p'.refundId == p.refundId)
    && p'.bookingId == p.bookingId
  }

  /** Over any run: a payment only moves forward, its refund id is written at most once, and it is set
      exactly while the status is refunded. */
  lemma {:induction false} PaymentsMoveForward(s: Sys, steps: seq<Step>, id: PaymentId)
    requires Invariant(s) && id in s.db.payments && RefundIdOk(s.db.payments[id])
    ensures var db := Exec(s, steps).db;
            id in db.payments && RefundIdOk(db.payments[id]) && Follows(s.db.payments[id], db.payments[id])
    decreases |steps|
  {
    if steps == [] {
    } else {
      var s1 := Apply(s, steps[0]);
      StepKeepsInvariant(s, steps[0]);
      if steps[0].Next? && steps[0].t in s.txs {
        assert TxOk(s.db, s.txs[steps[0].t]);
      }
      assert id in s1.db.payments && RefundIdOk(s1.db.payments[id]) && Follows(s.db.payments[id], s1.db.payments[id]);
      PaymentsMoveForward(s1, steps[1..], id);
    }
  }
}
