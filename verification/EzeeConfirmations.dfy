/**
 * Confirmations: which call queues the insert-booking message of a booking, and that the message is deleted only
 * once eZee has accepted the confirmation of the reservation, or there was nothing to confirm.
 */
module EzeeConfirmations {
  import opened Wrappers
  import opened Tables
  import opened RoomOrders
  import opened Operations
  import opened Runs
  import opened Payments
  import opened EzeeReconciliation
  import opened EzeeIngestion
  import opened EzeeSync
  import opened EzeeSyncWorker

  /** A worker past the confirmation has had it accepted once in its run, one before it not yet. */
  predicate Justified(worker: Worker, row: Option<BookingRow>, guests: set<GuestId>)
  {
    match worker.stage
    case Fetching(_) => worker.accepted == 1
    case Paying => worker.accepted == 1
    case Deleting => worker.accepted == 1 || !Known(row, guests)
    case _ => worker.accepted == 0
  }

  ghost predicate ConfirmsFirst(w: World)
  {
    forall e | e in w.workers :: Justified(w.workers[e], RowOf(w.db.bookings, e), w.db.guests)
  }

  /** No booking in work gets a guest that it did not have. */
  ghost predicate KeepsUnknown(w: World, after: World)
  {
    forall e | e in w.workers && Known(RowOf(after.db.bookings, e), after.db.guests) ::
      Known(RowOf(w.db.bookings, e), w.db.guests)
  }

  /** An event that leaves the workers alone. */
  lemma UnknownStaysJustified(w: World, after: World)
    requires ConfirmsFirst(w) && KeepsUnknown(w, after) && after.workers == w.workers
    ensures ConfirmsFirst(after)
  {
    hide Known, RowOf;
    forall e | e in after.workers
      ensures Justified(after.workers[e], RowOf(after.db.bookings, e), after.db.guests)
    {
      assert Justified(w.workers[e], RowOf(w.db.bookings, e), w.db.guests);
    }
  }

  /** A call changes no booking's guest, and creates none under an id that has been paid for. */
  lemma LedgerKeepsUnknown(w: World, call: Call, sent: bool)
    requires Possible(w.db, call) && MoneyFirst(w)
    ensures KeepsUnknown(w, Next(w, Ledger(call, sent)))
  {
    hide Perform, Possible, PaidFor, SentBy, KeepsPayments, RowPaid;
    var after := Next(w, Ledger(call, sent));
    CallsMove(w.db, call);
    StepKeepsPayments(w.db, call);
    forall e | e in w.workers && e in after.db.bookings
      ensures e in w.db.bookings && after.db.bookings[e].guest == w.db.bookings[e].guest
    {
      StillPaid(w.db.payments, after.db.payments, e);
      assert RowMoves(w.db.bookings, after.db.bookings, after.db.payments, e);
    }
  }

  lemma RefreshKeepsUnknown(w: World, eri: Eri, tran: Option<Tran>)
    requires Enabled(w, Refresh(eri, tran))
    ensures KeepsUnknown(w, Next(w, Refresh(eri, tran)))
  {
    hide Drift;
  }

  lemma ArrivalHasNoGuest(arrival: Candidate)
    ensures RowFor(arrival.property.id, arrival.summary).guest.None?
  {
  }

  lemma CreateKeepsUnknown(w: World, arrival: Candidate)
    requires Enabled(w, Create(arrival))
    ensures KeepsUnknown(w, Next(w, Create(arrival)))
  {
    hide CandidateEri, RowFor, IsNew;
    ArrivalHasNoGuest(arrival);
  }

  /** Steps of the queue and the lists put at most a new worker to work. */
  lemma QueueKeepsConfirming(w: World, e: Event)
    requires Enabled(w, e) && ConfirmsFirst(w)
    requires !(e.Ledger? || e.Work? || e.Refresh? || e.Create?)
    ensures ConfirmsFirst(Next(w, e))
  {
    hide MessageFor, Perform, Possible, SentBy, WorkerStep, Drift, Apply, RowFor, GeneratedEri, CityCode, IsNew,
      WriteRow, CreateRow, Known, RowOf;
  }

  /** One step of a worker, whatever is on its row. */
  lemma EffectJustified(worker: Worker, row: Option<BookingRow>, guests: set<GuestId>, reply: Remote)
    requires Justified(worker, row, guests)
    ensures var fx := WorkerEffect(worker.stage, row, guests, reply);
            var accepted := worker.accepted + (if worker.stage.Processing? && !reply.Fails? then 1 else 0);
            && (fx.next.Some? ==>
                 Justified(Worker(worker.message, fx.next.value, accepted),
                           if fx.row.Some? then fx.row else row, guests))
  {
    match worker.stage
    case Reading =>
    case Inserting =>
    case Persisting(_) =>
    case Processing(_) =>
    case Fetching(_) =>
    case Paying =>
    case Deleting =>
  }

  lemma OwnWorkerJustified(w: World, eri: Eri, reply: Remote)
    requires eri in w.workers && Justified(w.workers[eri], RowOf(w.db.bookings, eri), w.db.guests)
    ensures var after := WorkerStep(w, eri, reply);
            eri in after.workers ==> Justified(after.workers[eri], RowOf(after.db.bookings, eri), after.db.guests)
  {
    hide Justified, WorkerEffect, Bump;
    EffectJustified(w.workers[eri], RowOf(w.db.bookings, eri), w.db.guests, reply);
  }

  lemma WorkKeepsConfirming(w: World, eri: Eri, reply: Remote)
    requires eri in w.workers && ConfirmsFirst(w)
    ensures ConfirmsFirst(WorkerStep(w, eri, reply))
  {
    hide Justified, WorkerStep;
    var after := WorkerStep(w, eri, reply);
    OwnWorkerJustified(w, eri, reply);
    WorkerWritesOwnRow(w, eri, reply);
    WorkerWorksAlone(w, eri, reply);
  }

  lemma WorkEventKeepsConfirming(w: World, eri: Eri, reply: Remote)
    requires Enabled(w, Work(eri, reply)) && ConfirmsFirst(w)
    ensures ConfirmsFirst(Next(w, Work(eri, reply)))
  {
    hide ConfirmsFirst, WorkerStep;
    WorkKeepsConfirming(w, eri, reply);
  }

  lemma LeavesWorkers(w: World, e: Event)
    requires Enabled(w, e) && (e.Ledger? || e.Refresh? || e.Create?)
    ensures Next(w, e).workers == w.workers
  {
    hide Perform, Possible, SentBy, Drift, Apply, RowFor, CandidateEri;
  }

  lemma StepKeepsConfirming(w: World, e: Event)
    requires Enabled(w, e) && MoneyFirst(w) && ConfirmsFirst(w)
    ensures ConfirmsFirst(Next(w, e))
  {
    hide MoneyFirst, ConfirmsFirst, KeepsUnknown, Next;
    match e
    case Work(eri, reply) => WorkEventKeepsConfirming(w, eri, reply);
    case Ledger(call, sent) =>
      LedgerKeepsUnknown(w, call, sent);
      LeavesWorkers(w, e);
      UnknownStaysJustified(w, Next(w, e));
    case Refresh(eri, tran) =>
      RefreshKeepsUnknown(w, eri, tran);
      LeavesWorkers(w, e);
      UnknownStaysJustified(w, Next(w, e));
    case Create(arrival) =>
      CreateKeepsUnknown(w, arrival);
      LeavesWorkers(w, e);
      UnknownStaysJustified(w, Next(w, e));
    case _ => QueueKeepsConfirming(w, e);
  }

  lemma {:induction false} HistoryKeepsConfirming(w: World, events: seq<Event>)
    requires History(w, events) && MoneyFirst(w) && ConfirmsFirst(w)
    ensures ConfirmsFirst(End(w, events))
    decreases |events|
  {
    hide MoneyFirst, ConfirmsFirst, Next, Enabled;
    if events != [] {
      StepKeepsMoneyFirst(w, events[0]);
      StepKeepsConfirming(w, events[0]);
      HistoryKeepsConfirming(Next(w, events[0]), events[1..]);
    }
  }

  /**
   * In every history a worker that is about to delete its message has had exactly one confirmation
   * accepted by eZee in its run, unless its booking or that booking's guest does not exist.
   */
  lemma DeletingIsConfirmed(properties: set<PropertyId>, guests: set<GuestId>, events: seq<Event>, e: Eri)
    requires History(Start(properties, guests), events)
    requires var w := End(Start(properties, guests), events);
             && e in w.workers && w.workers[e].stage.Deleting?
             && e in w.db.bookings && w.db.bookings[e].guest.Some? && w.db.bookings[e].guest.value in w.db.guests
    ensures End(Start(properties, guests), events).workers[e].accepted == 1
  {
    HistoryKeepsConfirming(Start(properties, guests), events);
    var w := End(Start(properties, guests), events);
    assert Justified(w.workers[e], RowOf(w.db.bookings, e), w.db.guests);
  }

  lemma DeletesLast(stage: Stage, row: Option<BookingRow>, guests: set<GuestId>, reply: Remote)
    ensures WorkerEffect(stage, row, guests, reply).deleted <==> stage.Deleting? && !reply.Fails?
  {
  }

  /** Which events take copies of a message off the queue. */
  lemma OnlyTwoTakeOff(w: World, e: Event, m: Message)
    requires Enabled(w, e) && Next(w, e).queue[m] < w.queue[m]
    ensures || e == DeadLetter(m)
            || (&& e.Work? && e.eri in w.workers
                && w.workers[e.eri].stage.Deleting? && w.workers[e.eri].message == m)
  {
    hide Perform, Possible, SentBy, MessageFor, Drift, Apply, RowFor, CandidateEri, IsNew, CityCode, GeneratedEri,
      WorkerEffect, Bump, RowOf;
    if e.Work? {
      DeletesLast(w.workers[e.eri].stage, RowOf(w.db.bookings, e.eri), w.db.guests, e.reply);
    }
  }

  /**
   * After any history, whatever takes a copy of a message off the queue is the dead-letter queue, or a
   * worker on that message: eZee has accepted its confirmation once, or there is no one to confirm for.
   */
  lemma OnlyConfirmedAreDeleted(
    properties: set<PropertyId>, guests: set<GuestId>, events: seq<Event>, e: Event, m: Message)
    requires History(Start(properties, guests), events)
    requires var w := End(Start(properties, guests), events); Enabled(w, e) && Next(w, e).queue[m] < w.queue[m]
    ensures var w := End(Start(properties, guests), events);
            || e == DeadLetter(m)
            || (&& e.Work? && e.eri in w.workers && m.eri == e.eri
                && w.workers[e.eri].stage.Deleting? && w.workers[e.eri].message == m
                && (w.workers[e.eri].accepted == 1 || !Known(RowOf(w.db.bookings, m.eri), w.db.guests)))
  {
    hide Next, Enabled;
    HistoryKeepsMoneyFirst(Start(properties, guests), events);
    HistoryKeepsConfirming(Start(properties, guests), events);
    var w := End(Start(properties, guests), events);
    OnlyTwoTakeOff(w, e, m);
    if e.Work? {
      assert Justified(w.workers[e.eri], RowOf(w.db.bookings, e.eri), w.db.guests);
    }
  }

  /** What a step stores: the number it was given when it persists, the room it was told when it fetches. */
  predicate StoresHeard(stage: Stage, row: BookingRow, reply: Remote, after: BookingRow)
  {
    && after == row.(reservationNo := after.reservationNo, room := after.room)
    && after.reservationNo == (if stage.Persisting? && !reply.Fails? then Some(stage.no) else row.reservationNo)
    && after.room == (if stage.Fetching? && reply.Answers? && reply.room.Some? && reply.room.value != ""
                      then reply.room else row.room)
  }

  lemma EffectStoresHeard(stage: Stage, row: BookingRow, guests: set<GuestId>, reply: Remote)
    ensures var fx := WorkerEffect(stage, Some(row), guests, reply);
            StoresHeard(stage, row, reply, if fx.row.Some? then fx.row.value else row)
  {
  }

  lemma StoresWhatItHeard(w: World, eri: Eri, reply: Remote)
    requires eri in w.workers && eri in w.db.bookings
    ensures var after := WorkerStep(w, eri, reply).db.bookings;
            && after.Keys == w.db.bookings.Keys
            && StoresHeard(w.workers[eri].stage, w.db.bookings[eri], reply, after[eri])
            && (forall e | e in after && e != eri :: after[e] == w.db.bookings[e])
  {
    hide WorkerEffect, StoresHeard, Bump, Count;
    EffectStoresHeard(w.workers[eri].stage, w.db.bookings[eri], w.db.guests, reply);
  }

  // ---------------------------------------------------------------- what sends a message

  /** No booking becomes confirmed. */
  ghost predicate ConfirmsNone(before: Bookings, after: Bookings)
  {
    forall e | e in before && e in after && after[e].status == Confirmed :: before[e].status == Confirmed
  }

  lemma RollbackConfirmsNone(db: Db, eri: Eri, first: Option<OrderId>)
    requires AnswersPending(db.orders, first, eri)
    ensures ConfirmsNone(db.bookings, RollbackPendingBooking(db, eri, first).db.bookings)
  {
    hide RollbackPendingBooking, ChecksHold, Submitted, AnswersPending, Moved;
    RollbackCases(db, eri, first);
  }

  lemma FailureConfirmsNone(db: Db, x: PaymentId, first: Option<OrderId>)
    requires x in db.payments ==> AnswersPending(db.orders, first, db.payments[x].eri)
    ensures ConfirmsNone(db.bookings, HandlePaymentFailure(db, x, first).db.bookings)
  {
    hide HandlePaymentFailure, RollbackPendingBooking, Unlinked, AnswersPending;
    if x !in db.payments {
      FailureUnknown(db, x, first);
    } else if !FailsNow(db, x) {
      FailureIsFinal(db, x, first);
    } else if db.payments[x].purpose == ForBooking {
      FailureRollsBack(db, x, first);
      RollbackConfirmsNone(SetPayment(db, x, Failed), db.payments[x].eri, first);
    } else {
      FailureUnlinks(db, x, first);
    }
  }

  lemma BookConfirmsNone(
    db: Db, guest: GuestId, request: BookingRequest, offers: seq<RoomOffer>, eri: Eri, newOrder: OrderId)
    ensures ConfirmsNone(db.bookings, CreateBookingOrder(db, guest, request, offers, eri, newOrder).db.bookings)
  {
    hide CreateBookingOrder, FreezesOrders, KeepsBorrowed;
    BookingRowWritten(db, guest, request, offers, eri, newOrder);
  }

  lemma OtherCallsConfirmNone(db: Db, c: Call)
    requires Possible(db, c) && !c.PaymentCaptured?
    ensures ConfirmsNone(db.bookings, Perform(db, c).db.bookings)
  {
    hide ConfirmsNone, CreateBookingOrder, HandlePaymentFailure, AnswersPending, FreezesOrders, KeepsBorrowed;
    match c
    case Book(guest, request, offers, eri, newOrder) =>
      BookConfirmsNone(db, guest, request, offers, eri, newOrder);
    case PaymentFails(x, first) => FailureConfirmsNone(db, x, first);
    case _ => LeavesBookings(db, c);
  }

  lemma LeavesBookings(db: Db, c: Call)
    requires Possible(db, c) && !(c.Book? || c.PaymentFails? || c.PaymentCaptured?)
    ensures ConfirmsNone(db.bookings, Perform(db, c).db.bookings)
  {
    hide Perform, Possible;
    Frame(db, c);
  }

  /** A capture: either nothing is confirmed and nothing sent, or its own booking is and one message is sent. */
  lemma CaptureSendsOwn(db: Db, x: PaymentId, first: Option<OrderId>)
    requires x in db.payments ==> AnswersFulfil(db, x, first)
    ensures var r := FulfilOrder(db, x, first);
            if r.outcome == BookingConfirmed then
              && x in db.payments && db.payments[x].eri in db.bookings
              && r.db.bookings == db.bookings[db.payments[x].eri :=
                                                db.bookings[db.payments[x].eri].(status := Confirmed)]
              && CapturedFor(r.db.payments, x, db.payments[x].eri) && r.db.payments[x].amount == db.payments[x].amount
            else r.db.bookings == db.bookings
  {
    hide FulfilBookingOrder, FulfilAddonOrder, AnswersPending, AnswersPayment, FreezesOrders, KeepsBorrowed,
      OnlyStatusOf, Moved;
    if x in db.payments && db.payments[x].purpose == ForBooking {
      CaptureWrites(db, x, first);
    } else if x in db.payments {
      AddonCaptureWrites(db, x, first);
    }
  }

  /** The booking `e` becomes confirmed by the call. */
  ghost predicate Confirms(db: Db, c: Call, e: Eri)
    requires Possible(db, c)
  {
    && e in db.bookings && db.bookings[e].status != Confirmed
    && e in Perform(db, c).db.bookings && Perform(db, c).db.bookings[e].status == Confirmed
  }

  /**
   * Whatever call confirms a booking sends one message, for that booking and with the amount of a payment that
   * has then been captured for it; a call that is not a confirming capture confirms nothing and sends nothing.
   */
  lemma ConfirmationIsSent(db: Db, c: Call, e: Eri)
    requires Possible(db, c)
    ensures Confirms(db, c, e) ==>
              exists m: Message ::
                SentBy(db, c) == multiset{m} && m.eri == e && MessageFor(Perform(db, c).db.payments, m)
    ensures SentBy(db, c) != multiset{} ==> c.PaymentCaptured? && Perform(db, c).outcome == BookingConfirmed
  {
    if c.PaymentCaptured? {
      hide FulfilOrder, AnswersFulfil, FreezesOrders, KeepsBorrowed, OnlyStatusOf;
      CaptureSendsOwn(db, c.x, c.first);
      if Confirms(db, c, e) {
        var m := Message(db.payments[c.x].eri, db.payments[c.x].amount);
        assert SentBy(db, c) == multiset{m} && m.eri == e;
      }
    } else {
      hide Perform, Possible;
      OtherCallsConfirmNone(db, c);
    }
  }
}
