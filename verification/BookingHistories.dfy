/** How a payment and its booking stand after any history of captures, failures, refunds and
    cancellations, and so after any interleaved run of webhooks and cancelBooking transactions. */
module BookingHistories {
  import opened Basics
  import opened BookingDb
  import T = BookingTransactions

  // ----- histories -----

  /** The jobs of a history, each run as a whole, one after another. */
  function ApplyAll(db: Db, jobs: seq<T.Job>): Db
    decreases |jobs|
  {
    if jobs == [] then db else ApplyAll(T.Alone(db, jobs[0]).0, jobs[1..])
  }

  /** What a job says about one payment and its booking; an authorisation counts as a capture. */
  datatype News = Captures | Fails | Refunds | Cancels | Nothing

  /** No other payment is for this payment's booking: bookings have at most one. */
  predicate OnlyPayment(db: Db, id: PaymentId) {
    && id in db.payments && db.payments[id].bookingId in db.bookings
    && forall p :: p in db.payments && p != id ==> db.payments[p].bookingId != db.payments[id].bookingId
  }

  function BookingOf(db: Db, id: PaymentId): Booking
    requires id in db.payments && db.payments[id].bookingId in db.bookings
  {
    db.bookings[db.payments[id].bookingId]
  }

  /** A cancellation whose trip is missing changes nothing. */
  function NewsOf(db: Db, job: T.Job, id: PaymentId): News
    requires OnlyPayment(db, id)
  {
    match job
    case CancelJob(b, _, _) =>
      if b == db.payments[id].bookingId && BookingOf(db, id).tripId in db.trips then Cancels else Nothing
    case EventJob(PaymentEvent(kind, paymentId)) =>
      if paymentId != Some(id) then Nothing
      else if kind == PaymentCaptured || kind == PaymentAuthorized then Captures
      else if kind == PaymentFailed then Fails
      else Nothing
    case EventJob(RefundEvent(kind, refundId, paymentId)) =>
      if paymentId != Some(id) || refundId == None || refundId.value == "" then Nothing
      else if kind == RefundProcessed || kind == RefundPaid then Refunds
      else Nothing
  }

  /** The news of a history, as they read at its start. */
  function AllNews(db: Db, jobs: seq<T.Job>, id: PaymentId): seq<News>
    requires OnlyPayment(db, id)
  {
    if jobs == [] then [] else [NewsOf(db, jobs[0], id)] + AllNews(db, jobs[1..], id)
  }

  /** How a payment and its booking stand. */
  datatype Standing = Standing(payment: PaymentStatus, status: BookingStatus, paid: PaidStatus)

  const OPENED := Standing(Created, Pending, Unpaid)
  const PAID := Standing(Captured, Confirmed, Paid)

  function StandingOf(db: Db, id: PaymentId): Standing
    requires OnlyPayment(db, id)
  {
    Standing(db.payments[id].status, BookingOf(db, id).status, BookingOf(db, id).paidStatus)
  }

  function Next(x: Standing, n: News): Standing {
    match n
    case Captures =>
      var y := if x.payment == Created then x.(payment := Captured) else x;
      if x.status == Pending then y.(status := Confirmed, paid := Paid) else y
    case Fails => if x.payment == Created then x.(payment := NotCaptured) else x
    case Refunds =>
      x.(payment := if x.payment == Captured || x.payment == Success then GivenBack else x.payment, paid := Refunded)
    case Cancels => if Terminal(x.status) then x else x.(status := Cancelled)
    case Nothing => x
  }

  function After(x: Standing, news: seq<News>): Standing
    decreases |news|
  {
    if news == [] then x else After(Next(x, news[0]), news[1..])
  }

  /** The rows of a payment and its booking change as their news say, whatever else the jobs do. */
  lemma OneJob(db: Db, job: T.Job, id: PaymentId)
    requires OnlyPayment(db, id)
    ensures var db' := T.Alone(db, job).0;
            && OnlyPayment(db', id) && StandingOf(db', id) == Next(StandingOf(db, id), NewsOf(db, job, id))
            && db'.payments[id].bookingId == db.payments[id].bookingId
            && BookingOf(db', id).tripId == BookingOf(db, id).tripId && db'.trips.Keys == db.trips.Keys
  {
    var db' := T.Alone(db, job).0;
    assert forall p :: p in db.payments ==> p in db'.payments && db'.payments[p].bookingId == db.payments[p].bookingId;
  }

  lemma {:induction false} NewsStay(db: Db, db': Db, jobs: seq<T.Job>, id: PaymentId)
    requires OnlyPayment(db, id) && OnlyPayment(db', id) && db'.payments[id].bookingId == db.payments[id].bookingId
    requires BookingOf(db', id).tripId == BookingOf(db, id).tripId && db'.trips.Keys == db.trips.Keys
    ensures AllNews(db', jobs, id) == AllNews(db, jobs, id)
  {
    if jobs == [] {
    } else {
      NewsStay(db, db', jobs[1..], id);
      assert NewsOf(db', jobs[0], id) == NewsOf(db, jobs[0], id);
    }
  }

  lemma {:induction false} StandingAfterAll(db: Db, jobs: seq<T.Job>, id: PaymentId)
    requires OnlyPayment(db, id)
    ensures var db' := ApplyAll(db, jobs);
            OnlyPayment(db', id) && StandingOf(db', id) == After(StandingOf(db, id), AllNews(db, jobs, id))
    decreases |jobs|
  {
    if jobs == [] {
    } else {
      var db1 := T.Alone(db, jobs[0]).0;
      OneJob(db, jobs[0], id);
      NewsStay(db, db1, jobs[1..], id);
      StandingAfterAll(db1, jobs[1..], id);
      assert AllNews(db, jobs, id)[1..] == AllNews(db, jobs[1..], id);
    }
  }

  // ----- the standing after any history -----

  /** The news before the first capture, and those after it. */
  function Before(news: seq<News>): seq<News> {
    if news == [] || news[0] == Captures then [] else [news[0]] + Before(news[1..])
  }

  function Later(news: seq<News>): seq<News> {
    if news == [] then [] else if news[0] == Captures then news[1..] else Later(news[1..])
  }

  lemma {:induction false} SplitAtCapture(news: seq<News>)
    requires Captures in news
    ensures news == Before(news) + ([Captures] + Later(news)) && Captures !in Before(news)
    decreases |news|
  {
    if news[0] == Captures {
    } else {
      SplitAtCapture(news[1..]);
      assert news == [news[0]] + news[1..];
    }
  }

  /** Any other kind of news comes before the first capture or after it. */
  lemma {:induction false} BeforeOrLater(news: seq<News>, n: News)
    requires n != Captures && Captures in news
    ensures n in news <==> n in Before(news) || n in Later(news)
    decreases |news|
  {
    assert n in news <==> n == news[0] || n in news[1..];
    if news[0] == Captures {
    } else {
      BeforeOrLater(news[1..], n);
    }
  }

  lemma {:induction false} AfterAppend(x: Standing, a: seq<News>, b: seq<News>)
    ensures After(x, a + b) == After(After(x, a), b)
    decreases |a|
  {
    if a == [] {
      assert a + b == b;
    } else {
      assert (a + b)[0] == a[0] && (a + b)[1..] == a[1..] + b;
      AfterAppend(Next(x, a[0]), a[1..], b);
    }
  }

  function CancelledIf(status: BookingStatus, cancelled: bool): BookingStatus {
    if cancelled && !Terminal(status) then Cancelled else status
  }

  /** Without a capture, each kind of news leaves its own mark. */
  lemma {:induction false} AfterNoCapture(x: Standing, news: seq<News>)
    requires Captures !in news && x.payment in {Created, NotCaptured}
    ensures After(x, news) == Standing(
              if Fails in news then NotCaptured else x.payment,
              CancelledIf(x.status, Cancels in news),
              if Refunds in news then Refunded else x.paid)
    decreases |news|
  {
    if news == [] {
    } else {
      AfterNoCapture(Next(x, news[0]), news[1..]);
    }
  }

  /** Once a capture has been seen, the booking is confirmed or cancelled, and only refunds and
      cancellations matter. */
  lemma {:induction false} AfterCapture(x: Standing, news: seq<News>)
    requires x.payment in {Captured, NotCaptured, GivenBack} && x.status in {Confirmed, Cancelled}
    ensures After(x, news) == Standing(
              if Refunds in news && x.payment == Captured then GivenBack else x.payment,
              CancelledIf(x.status, Cancels in news),
              if Refunds in news then Refunded else x.paid)
    decreases |news|
  {
    if news == [] {
    } else {
      AfterCapture(Next(x, news[0]), news[1..]);
    }
  }

  /** The standing of an opened payment and its booking after any history, in closed form. What counts
      is which news came before the first capture and which after it. */
  function Settlement(news: seq<News>): Standing {
    if Captures !in news then
      Standing(if Fails in news then NotCaptured else Created,
               if Cancels in news then Cancelled else Pending,
               if Refunds in news then Refunded else Unpaid)
    else SettledBy(Before(news), Later(news))
  }

  function SettledBy(before: seq<News>, later: seq<News>): Standing {
    Standing(if Fails in before then NotCaptured else if Refunds in later then GivenBack else Captured,
             if Cancels in before || Cancels in later then Cancelled else Confirmed,
             if Refunds in later then Refunded
             else if Cancels !in before then Paid
             else if Refunds in before then Refunded
             else Unpaid)
  }

  lemma AfterFirstCapture(before: seq<News>, later: seq<News>)
    requires Captures !in before
    ensures After(OPENED, before + ([Captures] + later)) == SettledBy(before, later)
  {
    AfterAppend(OPENED, before, [Captures] + later);
    AfterNoCapture(OPENED, before);
    assert ([Captures] + later)[0] == Captures && ([Captures] + later)[1..] == later;
    AfterCapture(Next(After(OPENED, before), Captures), later);
  }

  lemma SettlementIsReached(news: seq<News>)
    ensures After(OPENED, news) == Settlement(news)
  {
    if Captures !in news {
      AfterNoCapture(OPENED, news);
    } else {
      SplitAtCapture(news);
      AfterFirstCapture(Before(news), Later(news));
    }
  }

  // ----- agreement -----

  /** The booking is marked paid exactly if the payment is captured, and refunded exactly if the payment
      is: neither of the two inconsistencies the financial migration counts, in either direction. */
  predicate Agree(x: Standing) {
    (x.paid == Paid <==> x.payment == Captured) && (x.paid == Refunded <==> x.payment == GivenBack)
  }

  /** Histories that do no harm: without a capture, there is no refund; with one, either no failure comes
      before it, and no cancellation that is not made up for by a later refund, or both a failure and a
      cancellation do and nothing is ever refunded. */
  predicate Harmless(news: seq<News>) {
    if Captures !in news then Refunds !in news
    else
      || (Fails !in Before(news) && (Cancels !in Before(news) || Refunds in Later(news)))
      || (Fails in Before(news) && Cancels in Before(news) && Refunds !in news)
  }

  /** What the news report about the money: a refund is only ever made of a captured payment, and a
      capture settles the attempts that failed. */
  function Reported(news: seq<News>): (PaymentStatus, PaidStatus) {
    if Refunds in news then (GivenBack, Refunded)
    else if Captures in news then (Captured, Paid)
    else if Fails in news then (NotCaptured, Unpaid)
    else (Created, Unpaid)
  }

  /** The news come in an order in which they have their effect: a capture before any failure, and after
      it the refund, if there is one; if there is none, no cancellation before the capture. */
  predicate InOrder(news: seq<News>) {
    if Captures !in news then Refunds !in news
    else
      && Fails !in Before(news)
      && if Refunds in news then Refunds in Later(news) else Cancels !in Before(news)
  }

  lemma SettlementAgreesExactlyWhen(news: seq<News>)
    ensures Agree(Settlement(news)) <==> Harmless(news)
    ensures (Settlement(news).payment, Settlement(news).paid) == Reported(news) <==> InOrder(news)
  {
    if Captures in news {
      BeforeOrLater(news, Refunds);
    }
  }

  /** Over any history of whole jobs, cancellations included: an opened payment and its booking agree in
      the end exactly if the history is harmless, and stand as the news report exactly if these come in
      order. */
  lemma HistoryAgreesExactlyWhen(db: Db, jobs: seq<T.Job>, id: PaymentId)
    requires OnlyPayment(db, id) && StandingOf(db, id) == OPENED
    ensures var news, db' := AllNews(db, jobs, id), ApplyAll(db, jobs);
            && OnlyPayment(db', id)
            && var x := StandingOf(db', id);
            && x == Settlement(news)
            && (Agree(x) <==> Harmless(news))
            && ((x.payment, x.paid) == Reported(news) <==> InOrder(news))
  {
    StandingAfterAll(db, jobs, id);
    SettlementIsReached(AllNews(db, jobs, id));
    SettlementAgreesExactlyWhen(AllNews(db, jobs, id));
  }

  // ----- interleaved runs -----

  /** The jobs of the transactions that ended in a run, in the order in which they did; those rolled
      back are not among them. */
  function History(s: T.Sys, steps: seq<T.Step>): seq<T.Job>
    decreases |steps|
  {
    if steps == [] then []
    else
      var rest := History(T.Apply(s, steps[0]), steps[1..]);
      if EndsNow(s, steps[0]) then [s.txs[steps[0].t].job] + rest else rest
  }

  predicate EndsNow(s: T.Sys, step: T.Step) {
    && step.Next? && step.t in s.txs && !T.Over(s.txs[step.t].phase)
    && T.Over(T.Apply(s, step).txs[step.t].phase)
  }

  /** Serialisability: whatever the interleaving, the committed rows are those of the ended transactions
      run as a whole, one after another. */
  lemma {:induction false} RunsAreHistories(s: T.Sys, steps: seq<T.Step>)
    requires T.Invariant(s)
    ensures T.Exec(s, steps).db == ApplyAll(s.db, History(s, steps))
    decreases |steps|
  {
    if steps == [] {
    } else {
      var s1 := T.Apply(s, steps[0]);
      T.StepKeepsInvariant(s, steps[0]);
      RunsAreHistories(s1, steps[1..]);
      StepIsHistory(s, steps[0]);
      var rest := History(s1, steps[1..]);
      if EndsNow(s, steps[0]) {
        assert History(s, steps)[1..] == rest;
      }
    }
  }

  lemma StepIsHistory(s: T.Sys, step: T.Step)
    requires T.Invariant(s)
    ensures T.Apply(s, step).db == if EndsNow(s, step) then T.Alone(s.db, s.txs[step.t].job).0 else s.db
  {
    if step.Next? && step.t in s.txs && !T.Over(s.txs[step.t].phase) {
      T.TransactionsAreAtomic(s, step.t);
    }
  }

  /** In every committed state of every interleaving of webhooks and cancellations: an opened payment and
      its booking agree exactly if the transactions that have ended, in their order, were harmless. */
  lemma RunAgreesExactlyWhen(db: Db, steps: seq<T.Step>, id: PaymentId)
    requires T.Conserved(db) && OnlyPayment(db, id) && StandingOf(db, id) == OPENED
    ensures var s := T.Sys(db, map[]);
            var news, db' := AllNews(db, History(s, steps), id), T.Exec(s, steps).db;
            && OnlyPayment(db', id)
            && var x := StandingOf(db', id);
            && x == Settlement(news)
            && (Agree(x) <==> Harmless(news))
            && ((x.payment, x.paid) == Reported(news) <==> InOrder(news))
  {
    var s := T.Sys(db, map[]);
    RunsAreHistories(s, steps);
    HistoryAgreesExactlyWhen(db, History(s, steps), id);
  }

  // ----- every history is a run -----

  predicate AllOver(s: T.Sys) { forall t :: t in s.txs ==> T.Over(s.txs[t].phase) }

  predicate OnlyNext(steps: seq<T.Step>) { forall x :: x in steps ==> x.Next? }

  lemma {:induction false} NothingEnds(s: T.Sys, steps: seq<T.Step>)
    requires AllOver(s) && OnlyNext(steps)
    ensures History(s, steps) == [] && AllOver(T.Exec(s, steps))
    decreases |steps|
  {
    if steps == [] {
    } else {
      assert steps[0] in steps;
      NothingEnds(T.Apply(s, steps[0]), steps[1..]);
    }
  }

  lemma {:induction false} OneEnds(s: T.Sys, steps: seq<T.Step>, t: T.TxId)
    requires t in s.txs && !T.Over(s.txs[t].phase) && forall u :: u in s.txs && u != t ==> T.Over(s.txs[u].phase)
    requires OnlyNext(steps) && AllOver(T.Exec(s, steps))
    ensures History(s, steps) == [s.txs[t].job]
    decreases |steps|
  {
    if steps == [] {
    } else {
      var s1 := T.Apply(s, steps[0]);
      assert steps[0] in steps;
      if EndsNow(s, steps[0]) {
        NothingEnds(s1, steps[1..]);
      } else {
        OneEnds(s1, steps[1..], t);
      }
    }
  }

  lemma {:induction false} HistoryAppend(s: T.Sys, a: seq<T.Step>, b: seq<T.Step>)
    ensures T.Exec(s, a + b) == T.Exec(T.Exec(s, a), b)
    ensures History(s, a + b) == History(s, a) + History(T.Exec(s, a), b)
    decreases |a|
  {
    if a == [] {
      assert a + b == b;
    } else {
      assert (a + b)[0] == a[0] && (a + b)[1..] == a[1..] + b;
      HistoryAppend(T.Apply(s, a[0]), a[1..], b);
    }
  }

  /** A new transaction can be run to its end. */
  lemma OneJobRuns(s: T.Sys, job: T.Job) returns (steps: seq<T.Step>)
    requires T.Invariant(s) && T.AllFit(s) && AllOver(s)
    ensures History(s, steps) == [job] && AllOver(T.Exec(s, steps))
    ensures T.Invariant(T.Exec(s, steps)) && T.AllFit(T.Exec(s, steps))
  {
    var t := NotIn(s.txs.Keys);
    assert t !in s.txs;
    var begin := T.Begin(t, job);
    var s1 := T.Apply(s, begin);
    T.StepKeepsInvariant(s, begin);
    T.StepKeepsFit(s, begin);
    var rest := T.EveryoneCanFinish(s1);
    OneEnds(s1, rest, t);
    T.RunKeepsInvariant(s1, rest);
    T.RunKeepsFit(s1, rest);
    steps := [begin] + rest;
    assert steps[0] == begin && steps[1..] == rest;
  }

  /** Every sequence of jobs is the history of some run, so what holds of all histories is neither more nor
      less than what holds of all runs. */
  lemma {:induction false} HistoriesAreRuns(s: T.Sys, jobs: seq<T.Job>) returns (steps: seq<T.Step>)
    requires T.Invariant(s) && T.AllFit(s) && AllOver(s)
    ensures History(s, steps) == jobs && T.Exec(s, steps).db == ApplyAll(s.db, jobs)
    decreases |jobs|
  {
    if jobs == [] {
      steps := [];
    } else {
      var first := OneJobRuns(s, jobs[0]);
      var rest := HistoriesAreRuns(T.Exec(s, first), jobs[1..]);
      steps := first + rest;
      HistoryAppend(s, first, rest);
      assert [jobs[0]] + jobs[1..] == jobs;
    }
    RunsAreHistories(s, steps);
  }

  // ----- three ways to disagree -----

  lemma TwoJobs(db: Db, a: T.Job, b: T.Job)
    ensures ApplyAll(db, [a, b]) == T.Alone(T.Alone(db, a).0, b).0
  {
    var db1 := T.Alone(db, a).0;
    assert [a, b][1..] == [b] && [b][1..] == [];
    assert ApplyAll(db1, [b]) == ApplyAll(T.Alone(db1, b).0, []);
  }

  /** A cancellation that overtakes the capture: the payment is captured, its booking cancelled and
      unpaid. */
  lemma CancellationOvertakesCapture(db: Db, id: PaymentId, reason: string, actor: nat)
    requires OnlyPayment(db, id) && StandingOf(db, id) == OPENED && BookingOf(db, id).tripId in db.trips
    ensures var cancel := T.CancelJob(db.payments[id].bookingId, reason, actor);
            var db' := ApplyAll(db, [cancel, T.EventJob(PaymentEvent(PaymentCaptured, Some(id)))]);
            OnlyPayment(db', id) && StandingOf(db', id) == Standing(Captured, Cancelled, Unpaid)
  {
    var cancel := T.CancelJob(db.payments[id].bookingId, reason, actor);
    var capture := T.EventJob(PaymentEvent(PaymentCaptured, Some(id)));
    OneJob(db, cancel, id);
    OneJob(T.Alone(db, cancel).0, capture, id);
    TwoJobs(db, cancel, capture);
  }

  /** A failure that overtakes the capture: the booking ends confirmed and paid, its payment failed. */
  lemma FailureOvertakesCapture(db: Db, id: PaymentId)
    requires OnlyPayment(db, id) && StandingOf(db, id) == OPENED
    ensures var failure := T.EventJob(PaymentEvent(PaymentFailed, Some(id)));
            var db' := ApplyAll(db, [failure, T.EventJob(PaymentEvent(PaymentCaptured, Some(id)))]);
            OnlyPayment(db', id) && StandingOf(db', id) == Standing(NotCaptured, Confirmed, Paid)
  {
    var failure := T.EventJob(PaymentEvent(PaymentFailed, Some(id)));
    var capture := T.EventJob(PaymentEvent(PaymentCaptured, Some(id)));
    OneJob(db, failure, id);
    OneJob(T.Alone(db, failure).0, capture, id);
    TwoJobs(db, failure, capture);
  }

  /** A refund that overtakes the capture is lost: first the booking is refunded and its payment still
      created, and in the end both are paid, with no trace of the refund. */
  lemma RefundOvertakesCapture(db: Db, id: PaymentId, refundId: string)
    requires OnlyPayment(db, id) && StandingOf(db, id) == OPENED && db.payments[id].refundId == None && refundId != ""
    ensures var refund := T.EventJob(RefundEvent(RefundProcessed, Some(refundId), Some(id)));
            var db1 := T.Alone(db, refund).0;
            var db' := ApplyAll(db, [refund, T.EventJob(PaymentEvent(PaymentCaptured, Some(id)))]);
            && OnlyPayment(db1, id) && StandingOf(db1, id) == Standing(Created, Pending, Refunded)
            && OnlyPayment(db', id) && StandingOf(db', id) == PAID && db'.payments[id].refundId == None
  {
    var refund := T.EventJob(RefundEvent(RefundProcessed, Some(refundId), Some(id)));
    var capture := T.EventJob(PaymentEvent(PaymentCaptured, Some(id)));
    OneJob(db, refund, id);
    OneJob(T.Alone(db, refund).0, capture, id);
    TwoJobs(db, refund, capture);
  }
}
