/**
 * The sync protocol around the tables: captures queue insert-booking messages, an at-least-once queue
 * delivers them, a worker calls the remote API in steps, and a periodic pass queues what got lost and
 * pulls remote state back. Messages may be dropped, duplicated, redelivered or dead-lettered, and a
 * worker may die at any point; a reservation's messages are handled one at a time.
 */
module EzeeSync {
  import opened Wrappers
  import opened RoomOrders
  import opened Tables
  import opened Operations
  import opened Runs
  import opened Payments
  import opened EzeeReconciliation
  import opened EzeeIngestion

  /** The next step of a worker on its message. */
  datatype Stage =
    | Reading
    | Inserting
    | Persisting(no: string)
    | Processing(no: string)
    | Fetching(no: string)
    | Paying
    | Deleting

  /** `accepted` counts the ProcessBooking calls of this run that eZee accepted. */
  datatype Worker = Worker(message: Message, stage: Stage, accepted: nat)

  /** An arrival that the ingestion pass found uncached and is about to create a row for. */
  datatype Candidate = Candidate(property: Property, summary: Summary)

  /** `inserts` counts successful InsertBooking calls, `lost` those whose number was never persisted. */
  datatype World = World(
    db: Db,
    queue: multiset<Message>,
    listed: multiset<Message>,
    watched: map<Eri, BookingRow>,
    uncached: multiset<Candidate>,
    workers: map<Eri, Worker>,
    inserts: map<Eri, nat>,
    lost: map<Eri, nat>)

  datatype Remote = Fails | Inserted(no: string) | InsertedUnheard | Answers(room: Option<string>) | Works

  datatype Event =
    | Ledger(call: Call, sent: bool)
    | Duplicate(m: Message)
    | DeadLetter(m: Message)
    | Deliver(m: Message)
    | Work(eri: Eri, reply: Remote)
    | ListUnsynced(m: Message)
    | Requeue(m: Message, sent: bool)
    | Watch(eri: Eri)
    | Refresh(eri: Eri, tran: Option<Tran>)
    | LookUp(arrival: Candidate)
    | Create(arrival: Candidate)

  function Count(counts: map<Eri, nat>, e: Eri): nat
  {
    if e in counts then counts[e] else 0
  }

  function Bump(counts: map<Eri, nat>, e: Eri): map<Eri, nat>
  {
    counts[e := Count(counts, e) + 1]
  }

  ghost predicate Enabled(w: World, e: Event)
  {
    match e
    case Ledger(call, _) => Possible(w.db, call)
    case Duplicate(m) => m in w.queue
    case DeadLetter(m) => m in w.queue
    case Deliver(m) => m in w.queue && m.eri !in w.workers
    case Work(eri, _) => eri in w.workers
    case ListUnsynced(m) =>
      m.eri in w.db.bookings && Unsynced(m.eri, w.db.bookings[m.eri]) && MessageFor(w.db.payments, m)
    case Requeue(m, _) => m in w.listed
    case Watch(eri) => eri in w.db.bookings && ActiveSynced(w.db.bookings[eri])
    case Refresh(eri, _) => eri in w.watched && eri in w.db.bookings
    case LookUp(arrival) => IsNew(w.db.bookings, CityCode(arrival.property.city), arrival.summary)
    case Create(arrival) => arrival in w.uncached
  }

  /** The message that a call sends: only a capture that has just confirmed its booking sends one. */
  ghost function SentBy(db: Db, call: Call): multiset<Message>
    requires Possible(db, call)
  {
    if call.PaymentCaptured? && Perform(db, call).outcome == BookingConfirmed && call.x in db.payments
    then multiset{Message(db.payments[call.x].eri, db.payments[call.x].amount)}
    else multiset{}
  }

  function WriteRow(w: World, eri: Eri, row: BookingRow): World
  {
    w.(db := w.db.(bookings := w.db.bookings[eri := row]))
  }

  function CandidateEri(arrival: Candidate): Eri
  {
    GeneratedEri(CityCode(arrival.property.city), arrival.summary.reservationNo)
  }

  /** The id is unique, the reservation number is not checked again. */
  function CreateRow(w: World, arrival: Candidate): World
  {
    if CandidateEri(arrival) in w.db.bookings then w
    else WriteRow(w, CandidateEri(arrival), RowFor(arrival.property.id, arrival.summary))
  }

  /** What one step of a worker does: its next stage, if it lives on, and what it wrote. */
  datatype Effect = Effect(next: Option<Stage>, row: Option<BookingRow>, inserted: bool, lost: bool, deleted: bool)

  const DIES := Effect(None, None, false, false, false)

  function GoesTo(stage: Stage): Effect
  {
    DIES.(next := Some(stage))
  }

  /** `Fails` is a remote error, a failed read or write, unusable data, or a crash. */
  function WorkerEffect(stage: Stage, row: Option<BookingRow>, guests: set<GuestId>, reply: Remote): (fx: Effect)
    ensures fx.row.Some? ==> row.Some?
  {
    match stage
    case Reading =>
      if reply.Fails? then DIES
      else if row.None? then GoesTo(Deleting)
      else if row.value.guest.None? then DIES
      else if row.value.guest.value !in guests then GoesTo(Deleting)
      else if row.value.reservationNo.Some? then GoesTo(Processing(row.value.reservationNo.value))
      else GoesTo(Inserting)
    case Inserting =>
      if reply.Inserted? then GoesTo(Persisting(reply.no)).(inserted := true)
      else if reply.InsertedUnheard? then DIES.(inserted := true, lost := true)
      else DIES
    case Persisting(no) =>
      if reply.Fails? || row.None? then DIES.(lost := true)
      else GoesTo(Processing(no)).(row := Some(row.value.(reservationNo := Some(no))))
    case Processing(no) => if reply.Fails? then DIES else GoesTo(Fetching(no))
    case Fetching(no) =>
      if reply.Answers? && reply.room.Some? && reply.room.value != "" && row.Some?
      then GoesTo(Paying).(row := Some(row.value.(room := reply.room)))
      else GoesTo(Paying)
    case Paying => if reply.Fails? then DIES else GoesTo(Deleting)
    case Deleting => if reply.Fails? then DIES else DIES.(deleted := true)
  }

  function RowOf(bookings: Bookings, e: Eri): Option<BookingRow>
  {
    if e in bookings then Some(bookings[e]) else None
  }

  function EffectOf(w: World, eri: Eri, reply: Remote): (fx: Effect)
    requires eri in w.workers
    ensures fx.row.Some? ==> eri in w.db.bookings
  {
    WorkerEffect(w.workers[eri].stage, RowOf(w.db.bookings, eri), w.db.guests, reply)
  }

  function WorkerStep(w: World, eri: Eri, reply: Remote): World
    requires eri in w.workers
  {
    var worker, fx := w.workers[eri], EffectOf(w, eri, reply);
    var accepted := worker.accepted + (if worker.stage.Processing? && !reply.Fails? then 1 else 0);
    w.(db := w.db.(bookings := if fx.row.Some? then w.db.bookings[eri := fx.row.value] else w.db.bookings),
       workers := if fx.next.None? then w.workers - {eri}
                  else w.workers[eri := worker.(stage := fx.next.value, accepted := accepted)],
       queue := if fx.deleted then w.queue - multiset{worker.message} else w.queue,
       inserts := if fx.inserted then Bump(w.inserts, eri) else w.inserts,
       lost := if fx.lost then Bump(w.lost, eri) else w.lost)
  }

  ghost function Next(w: World, e: Event): World
    requires Enabled(w, e)
  {
    match e
    case Ledger(call, sent) =>
      w.(db := Perform(w.db, call).db,
         queue := if sent then w.queue + SentBy(w.db, call) else w.queue)
    case Duplicate(m) => w.(queue := w.queue + multiset{m})
    case DeadLetter(m) => w.(queue := w.queue - multiset{m})
    case Deliver(m) => w.(workers := w.workers[m.eri := Worker(m, Reading, 0)])
    case Work(eri, reply) => WorkerStep(w, eri, reply)
    case ListUnsynced(m) => w.(listed := w.listed + multiset{m})
    case Requeue(m, sent) =>
      w.(listed := w.listed - multiset{m}, queue := if sent then w.queue + multiset{m} else w.queue)
    case Watch(eri) => w.(watched := w.watched[eri := w.db.bookings[eri]])
    case Refresh(eri, tran) =>
      var row := w.db.bookings[eri];
      WriteRow(w.(watched := w.watched - {eri}), eri,
               if tran.Some? then Apply(row, Drift(w.watched[eri], tran.value)) else row)
    case LookUp(arrival) => w.(uncached := w.uncached + multiset{arrival})
    case Create(arrival) => CreateRow(w.(uncached := w.uncached - multiset{arrival}), arrival)
  }

  ghost predicate History(w: World, events: seq<Event>)
    decreases |events|
  {
    events == [] || (Enabled(w, events[0]) && History(Next(w, events[0]), events[1..]))
  }

  ghost function End(w: World, events: seq<Event>): World
    requires History(w, events)
    decreases |events|
  {
    if events == [] then w else End(Next(w, events[0]), events[1..])
  }

  ghost function Start(properties: set<PropertyId>, guests: set<GuestId>): World
  {
    World(Empty(properties, guests), multiset{}, multiset{}, map[], multiset{}, map[], map[], map[])
  }

  // ---------------------------------------------------------------- what a ledger call does to bookings

  /** A row that a call may leave behind: number and guest untouched or new, its status backed by money. */
  ghost predicate RowMoves(before: Bookings, after: Bookings, payments: map<PaymentId, Payment>, e: Eri)
    requires e in after
  {
    && (if e in before then after[e].reservationNo == before[e].reservationNo && after[e].guest == before[e].guest
        else after[e].reservationNo.None? && !PaidFor(payments, e))
    && (|| (e in before && after[e].status == before[e].status)
        || after[e].status == PendingPayment || after[e].status == Cancelled
        || PaidFor(payments, e))
  }

  ghost predicate CallMoves(db: Db, after: Db)
  {
    && after.guests == db.guests
    && (forall e | e in db.bookings :: e in after.bookings)
    && (forall e | e in after.bookings :: RowMoves(db.bookings, after.bookings, after.payments, e))
  }

  lemma NewIsUnpaid(db: Db, eri: Eri)
    requires NewEri(db, eri)
    ensures !PaidFor(db.payments, eri)
  {
  }

  lemma BookMoves(
    db: Db, guest: GuestId, request: BookingRequest, offers: seq<RoomOffer>, eri: Eri, newOrder: OrderId)
    requires NewEri(db, eri)
    ensures CallMoves(db, CreateBookingOrder(db, guest, request, offers, eri, newOrder).db)
  {
    hide CreateBookingOrder, FreezesOrders, KeepsBorrowed, PaidFor;
    BookingRowWritten(db, guest, request, offers, eri, newOrder);
    NewIsUnpaid(db, eri);
  }

  lemma RollbackMoves(db: Db, eri: Eri, first: Option<OrderId>)
    requires AnswersPending(db.orders, first, eri)
    ensures CallMoves(db, RollbackPendingBooking(db, eri, first).db)
  {
    hide RollbackPendingBooking, RolledBack, ChecksHold, Submitted, AnswersPending, PaidFor, CallMoves;
    RollbackCases(db, eri, first);
    SameBookingsMove(db, db);
    if IsPending(db, eri) {
      CancellingMoves(db, eri, first);
    }
  }

  lemma CancellingMoves(db: Db, eri: Eri, first: Option<OrderId>)
    requires AnswersPending(db.orders, first, eri) && eri in db.bookings
    requires first.Some? ==> first.value in db.orders
    ensures CallMoves(db, RolledBack(db, eri, first))
  {
    hide Moved, AnswersPending, PaidFor;
  }

  lemma SameBookingsMove(db: Db, after: Db)
    requires after.bookings == db.bookings && after.guests == db.guests
    ensures CallMoves(db, after)
  {
    hide PaidFor;
  }

  lemma SameBookingsBefore(db: Db, other: Db, after: Db)
    requires other.bookings == db.bookings && other.guests == db.guests && CallMoves(other, after)
    ensures CallMoves(db, after)
  {
    hide PaidFor;
  }

  lemma BookingFailureMoves(db: Db, x: PaymentId, first: Option<OrderId>)
    requires x in db.payments && AnswersPending(db.orders, first, db.payments[x].eri)
    requires FailsNow(db, x) && db.payments[x].purpose == ForBooking
    ensures CallMoves(db, HandlePaymentFailure(db, x, first).db)
  {
    hide HandlePaymentFailure, RollbackPendingBooking, AnswersPending, CallMoves;
    FailureRollsBack(db, x, first);
    RollbackMoves(SetPayment(db, x, Failed), db.payments[x].eri, first);
    SameBookingsBefore(db, SetPayment(db, x, Failed), HandlePaymentFailure(db, x, first).db);
  }

  lemma FailureMoves(db: Db, x: PaymentId, first: Option<OrderId>)
    requires x in db.payments ==> AnswersPending(db.orders, first, db.payments[x].eri)
    ensures CallMoves(db, HandlePaymentFailure(db, x, first).db)
  {
    hide HandlePaymentFailure, Unlinked, AnswersPending, CallMoves;
    if x in db.payments && FailsNow(db, x) && db.payments[x].purpose == ForBooking {
      BookingFailureMoves(db, x, first);
    } else {
      if x !in db.payments {
        FailureUnknown(db, x, first);
      } else if FailsNow(db, x) {
        FailureUnlinks(db, x, first);
      } else {
        FailureIsFinal(db, x, first);
      }
      SameBookingsMove(db, HandlePaymentFailure(db, x, first).db);
    }
  }

  lemma BookingCaptureMoves(db: Db, x: PaymentId, first: Option<OrderId>)
    requires x in db.payments && AnswersPending(db.orders, first, db.payments[x].eri)
    requires db.payments[x].purpose == ForBooking
    ensures CallMoves(db, FulfilBookingOrder(db, x, first).db)
    ensures FulfilBookingOrder(db, x, first).outcome == BookingConfirmed ==>
              PaidFor(FulfilBookingOrder(db, x, first).db.payments, db.payments[x].eri)
  {
    hide FulfilBookingOrder, FreezesOrders, KeepsBorrowed, OnlyStatusOf, AnswersPending;
    CaptureWrites(db, x, first);
    var r := FulfilBookingOrder(db, x, first);
    if r.outcome == BookingConfirmed {
      assert CapturedFor(r.db.payments, x, db.payments[x].eri);
    }
  }

  lemma AddonCaptureSends(db: Db, x: PaymentId, first: Option<OrderId>)
    requires x in db.payments && AnswersPayment(db.orders, first, x)
    ensures FulfilAddonOrder(db, x, first).outcome != BookingConfirmed
    ensures FulfilAddonOrder(db, x, first).db.bookings == db.bookings
  {
    hide FulfilAddonOrder, Moved;
    AddonCaptureWrites(db, x, first);
  }

  lemma CaptureMoves(db: Db, x: PaymentId, first: Option<OrderId>)
    requires x in db.payments ==> AnswersFulfil(db, x, first)
    ensures CallMoves(db, FulfilOrder(db, x, first).db)
    ensures FulfilOrder(db, x, first).outcome == BookingConfirmed && x in db.payments ==>
              PaidFor(FulfilOrder(db, x, first).db.payments, db.payments[x].eri)
  {
    hide FulfilBookingOrder, FulfilAddonOrder, AnswersPending, AnswersPayment, PaidFor;
    if x in db.payments {
      if db.payments[x].purpose == ForBooking {
        BookingCaptureMoves(db, x, first);
      } else {
        AddonCaptureSends(db, x, first);
      }
    }
  }

  lemma OtherCallsMove(db: Db, c: Call)
    requires Possible(db, c) && !(c.Book? || c.PaymentFails? || c.PaymentCaptured?)
    ensures CallMoves(db, Perform(db, c).db)
  {
    hide Perform, Possible, PaidFor;
    Frame(db, c);
  }

  lemma BookingCallsMove(db: Db, c: Call)
    requires Possible(db, c) && (c.Book? || c.PaymentFails?)
    ensures CallMoves(db, Perform(db, c).db)
  {
    hide CallMoves, CreateBookingOrder, HandlePaymentFailure, AnswersPending, FreezesOrders, KeepsBorrowed;
    match c
    case Book(guest, request, offers, eri, newOrder) => BookMoves(db, guest, request, offers, eri, newOrder);
    case PaymentFails(x, first) => FailureMoves(db, x, first);
  }

  lemma CaptureCallMoves(db: Db, c: Call)
    requires Possible(db, c) && c.PaymentCaptured?
    ensures CallMoves(db, Perform(db, c).db)
    ensures forall m | m in SentBy(db, c) :: PaidFor(Perform(db, c).db.payments, m.eri)
  {
    hide CallMoves, PaidFor, FulfilOrder, AnswersFulfil, FreezesOrders, KeepsBorrowed, OnlyStatusOf;
    CaptureMoves(db, c.x, c.first);
  }

  lemma CallsMove(db: Db, c: Call)
    requires Possible(db, c)
    ensures CallMoves(db, Perform(db, c).db)
    ensures forall m | m in SentBy(db, c) :: PaidFor(Perform(db, c).db.payments, m.eri)
  {
    hide CallMoves, PaidFor, Perform, Possible;
    if c.PaymentCaptured? {
      CaptureCallMoves(db, c);
    } else if c.Book? || c.PaymentFails? {
      BookingCallsMove(db, c);
    } else {
      OtherCallsMove(db, c);
    }
  }

  lemma StillPaid(before: map<PaymentId, Payment>, after: map<PaymentId, Payment>, e: Eri)
    requires KeepsPayments(before, after) && PaidFor(before, e)
    ensures PaidFor(after, e)
  {
    var x :| CapturedFor(before, x, e);
    assert CapturedFor(after, x, e);
  }

  // ---------------------------------------------------------------- no stay without money

  /** A row of this program's own that eZee knows of, or may, has been paid for. */
  ghost predicate RowPaid(db: Db, e: Eri)
    requires e in db.bookings
  {
    "TDS-" <= e && (db.bookings[e].reservationNo.Some?
                    || (db.bookings[e].status != PendingPayment && db.bookings[e].status != Cancelled)) ==>
      PaidFor(db.payments, e)
  }

  ghost predicate MoneyFirst(w: World)
  {
    && (forall m | m in w.queue :: PaidFor(w.db.payments, m.eri))
    && (forall m | m in w.listed :: PaidFor(w.db.payments, m.eri))
    && (forall e | e in w.workers :: w.workers[e].message.eri == e && PaidFor(w.db.payments, e))
    && (forall e | e in w.watched && "TDS-" <= e :: PaidFor(w.db.payments, e))
    && (forall e | e in w.db.bookings :: RowPaid(w.db, e))
  }

  lemma LedgerKeepsMoneyFirst(w: World, call: Call, sent: bool)
    requires Possible(w.db, call) && MoneyFirst(w)
    ensures MoneyFirst(Next(w, Ledger(call, sent)))
  {
    hide Perform, Possible, PaidFor, SentBy, KeepsPayments;
    var after := Next(w, Ledger(call, sent));
    CallsMove(w.db, call);
    StepKeepsPayments(w.db, call);
    forall e: Eri | PaidFor(w.db.payments, e)
      ensures PaidFor(after.db.payments, e)
    {
      StillPaid(w.db.payments, after.db.payments, e);
    }
    forall e | e in after.db.bookings
      ensures RowPaid(after.db, e)
    {
      assert RowMoves(w.db.bookings, after.db.bookings, after.db.payments, e);
      if e in w.db.bookings {
        assert RowPaid(w.db, e);
      }
    }
  }

  /** A row written by the worker or the reconciler is paid for if its reservation is. */
  lemma WrittenRowPaid(w: World, eri: Eri, row: BookingRow)
    requires MoneyFirst(w) && ("TDS-" <= eri ==> PaidFor(w.db.payments, eri))
    ensures MoneyFirst(WriteRow(w, eri, row))
  {
    hide PaidFor;
    var after := WriteRow(w, eri, row);
    forall e | e in after.db.bookings
      ensures RowPaid(after.db, e)
    {
      if e != eri {
        assert RowPaid(w.db, e);
      }
    }
  }

  /** What a worker's step leaves alone in the tables and queues. */
  ghost predicate WritesOwnRow(w: World, after: World, eri: Eri)
  {
    && after.db == w.db.(bookings := after.db.bookings)
    && after.listed == w.listed && after.watched == w.watched && after.queue <= w.queue
    && after.db.bookings.Keys == w.db.bookings.Keys
    && (forall e | e in w.db.bookings && e != eri :: after.db.bookings[e] == w.db.bookings[e])
  }

  /** And among the workers and the counts. */
  ghost predicate WorksAlone(w: World, after: World, eri: Eri)
  {
    && (forall e | e in after.workers :: e in w.workers && after.workers[e].message == w.workers[e].message)
    && (forall e | e in w.workers && e != eri :: e in after.workers && after.workers[e] == w.workers[e])
    && (forall e | e != eri ::
         Count(after.inserts, e) == Count(w.inserts, e) && Count(after.lost, e) == Count(w.lost, e))
  }

  lemma WorkerWritesOwnRow(w: World, eri: Eri, reply: Remote)
    requires eri in w.workers
    ensures WritesOwnRow(w, WorkerStep(w, eri, reply), eri)
  {
    hide EffectOf, Bump;
  }

  lemma WorkerWorksAlone(w: World, eri: Eri, reply: Remote)
    requires eri in w.workers
    ensures WorksAlone(w, WorkerStep(w, eri, reply), eri)
  {
    hide WorkerEffect, EffectOf;
  }

  lemma WorkKeepsMoneyFirst(w: World, eri: Eri, reply: Remote)
    requires eri in w.workers && MoneyFirst(w)
    ensures MoneyFirst(WorkerStep(w, eri, reply))
  {
    hide PaidFor, WorkerStep;
    WorkerWritesOwnRow(w, eri, reply);
    WorkerWorksAlone(w, eri, reply);
    var after := WorkerStep(w, eri, reply);
    forall e | e in after.db.bookings
      ensures RowPaid(after.db, e)
    {
      assert RowPaid(w.db, e);
    }
  }

  lemma GeneratedIsForeign(code: string, no: string)
    ensures !("TDS-" <= GeneratedEri(code, no))
  {
    assert GeneratedEri(code, no)[0] == 'E';
  }

  lemma MessageIsPaid(payments: map<PaymentId, Payment>, m: Message)
    requires MessageFor(payments, m)
    ensures PaidFor(payments, m.eri)
  {
  }

  lemma WorkerStepKeepsMoneyFirst(w: World, eri: Eri, reply: Remote)
    requires Enabled(w, Work(eri, reply)) && MoneyFirst(w)
    ensures MoneyFirst(Next(w, Work(eri, reply)))
  {
    hide MoneyFirst, WorkerStep;
    WorkKeepsMoneyFirst(w, eri, reply);
  }

  /** The step copies or removes the message `m`, or hands it to a worker. */
  ghost predicate Passes(w: World, after: World, m: Message)
  {
    && after.db == w.db && after.watched == w.watched
    && (forall k | k in after.queue :: k in w.queue || k == m)
    && (forall k | k in after.listed :: k in w.listed || k == m)
    && (forall e | e in after.workers ::
         (e in w.workers && after.workers[e] == w.workers[e]) || (e == m.eri && after.workers[e].message == m))
  }

  lemma CopyPasses(w: World, e: Event)
    requires Enabled(w, e) && (e.Duplicate? || e.DeadLetter? || e.Requeue?)
    ensures Passes(w, Next(w, e), e.m)
  {
    hide MessageFor, Perform, Possible, SentBy, WorkerStep, Drift, Apply, RowFor, GeneratedEri, CityCode, IsNew,
      WriteRow, CreateRow;
  }

  lemma QueueStepPasses(w: World, e: Event)
    requires Enabled(w, e)
    requires e.Duplicate? || e.DeadLetter? || e.Deliver? || e.ListUnsynced? || e.Requeue?
    ensures Passes(w, Next(w, e), e.m)
  {
    if e.Duplicate? || e.DeadLetter? || e.Requeue? {
      hide Passes, Next, Enabled;
      CopyPasses(w, e);
    } else {
      hide MessageFor, Perform, Possible, SentBy, WorkerStep, Drift, Apply, RowFor, GeneratedEri, CityCode, IsNew,
        WriteRow, CreateRow;
    }
  }

  lemma PassedStaysPaid(w: World, after: World, m: Message)
    requires MoneyFirst(w) && Passes(w, after, m) && PaidFor(w.db.payments, m.eri)
    ensures MoneyFirst(after)
  {
    hide PaidFor;
    SameRowsPaid(w, after);
  }

  lemma QueueKeepsMoneyFirst(w: World, e: Event)
    requires Enabled(w, e) && MoneyFirst(w)
    requires e.Duplicate? || e.DeadLetter? || e.Deliver? || e.ListUnsynced? || e.Requeue?
    ensures MoneyFirst(Next(w, e))
  {
    hide RowPaid, Passes, Next;
    if e.ListUnsynced? {
      MessageIsPaid(w.db.payments, e.m);
    }
    QueueStepPasses(w, e);
    PassedStaysPaid(w, Next(w, e), e.m);
  }

  lemma SameRowsPaid(w: World, after: World)
    requires MoneyFirst(w) && after.db == w.db
    ensures forall e | e in after.db.bookings :: RowPaid(after.db, e)
  {
    hide PaidFor;
    forall e | e in w.db.bookings
      ensures RowPaid(after.db, e)
    {
      assert RowPaid(w.db, e);
    }
  }

  /** Only synced bookings are watched. */
  lemma WatchKeepsMoneyFirst(w: World, eri: Eri)
    requires Enabled(w, Watch(eri)) && MoneyFirst(w)
    ensures MoneyFirst(Next(w, Watch(eri)))
  {
    hide PaidFor;
    assert RowPaid(w.db, eri);
    SameRowsPaid(w, Next(w, Watch(eri)));
  }

  lemma UnwatchedKeepsMoneyFirst(w: World, eri: Eri)
    requires MoneyFirst(w)
    ensures MoneyFirst(w.(watched := w.watched - {eri}))
    ensures eri in w.watched && "TDS-" <= eri ==> PaidFor(w.db.payments, eri)
  {
    hide PaidFor;
    SameRowsPaid(w, w.(watched := w.watched - {eri}));
  }

  lemma RefreshKeepsMoneyFirst(w: World, eri: Eri, tran: Option<Tran>)
    requires Enabled(w, Refresh(eri, tran)) && MoneyFirst(w)
    ensures MoneyFirst(Next(w, Refresh(eri, tran)))
  {
    hide MoneyFirst, PaidFor, WriteRow, Drift, Apply;
    var row := w.db.bookings[eri];
    UnwatchedKeepsMoneyFirst(w, eri);
    WrittenRowPaid(w.(watched := w.watched - {eri}), eri,
                   if tran.Some? then Apply(row, Drift(w.watched[eri], tran.value)) else row);
  }

  /** Rows from the arrival list are not this program's own. */
  lemma CreateKeepsMoneyFirst(w: World, arrival: Candidate)
    requires Enabled(w, Create(arrival)) && MoneyFirst(w)
    ensures MoneyFirst(Next(w, Create(arrival)))
  {
    hide MoneyFirst, WriteRow, RowFor, GeneratedEri, CityCode;
    GeneratedIsForeign(CityCode(arrival.property.city), arrival.summary.reservationNo);
    CandidatesKeepMoneyFirst(w, w.uncached - multiset{arrival});
    WrittenRowPaid(w.(uncached := w.uncached - multiset{arrival}), CandidateEri(arrival),
                   RowFor(arrival.property.id, arrival.summary));
  }

  lemma CandidatesKeepMoneyFirst(w: World, uncached: multiset<Candidate>)
    requires MoneyFirst(w)
    ensures MoneyFirst(w.(uncached := uncached))
  {
    hide PaidFor;
    SameRowsPaid(w, w.(uncached := uncached));
  }

  lemma StepKeepsMoneyFirst(w: World, e: Event)
    requires Enabled(w, e) && MoneyFirst(w)
    ensures MoneyFirst(Next(w, e))
  {
    hide MoneyFirst;
    match e
    case Ledger(call, sent) => LedgerKeepsMoneyFirst(w, call, sent);
    case Work(eri, reply) => WorkerStepKeepsMoneyFirst(w, eri, reply);
    case Watch(eri) => WatchKeepsMoneyFirst(w, eri);
    case Refresh(eri, tran) => RefreshKeepsMoneyFirst(w, eri, tran);
    case LookUp(arrival) => CandidatesKeepMoneyFirst(w, w.uncached + multiset{arrival});
    case Create(arrival) => CreateKeepsMoneyFirst(w, arrival);
    case _ => QueueKeepsMoneyFirst(w, e);
  }

  lemma {:induction false} HistoryKeepsMoneyFirst(w: World, events: seq<Event>)
    requires History(w, events) && MoneyFirst(w)
    ensures MoneyFirst(End(w, events))
    decreases |events|
  {
    hide MoneyFirst, Next, Enabled;
    if events != [] {
      StepKeepsMoneyFirst(w, events[0]);
      HistoryKeepsMoneyFirst(Next(w, events[0]), events[1..]);
    }
  }

  /**
   * No stay without money: after any history of calls, deliveries, failures and reconciliations, a
   * booking of this program that is queued for eZee, being inserted or inserted there, or past
   * payment and not cancelled, has a captured booking payment.
   */
  lemma NoStayWithoutMoney(properties: set<PropertyId>, guests: set<GuestId>, events: seq<Event>, e: Eri)
    requires History(Start(properties, guests), events)
    ensures var w := End(Start(properties, guests), events);
            ((exists m: Message | m in w.queue :: m.eri == e)
             || e in w.workers
             || (e in w.db.bookings && "TDS-" <= e
                 && (w.db.bookings[e].reservationNo.Some?
                     || (w.db.bookings[e].status != PendingPayment && w.db.bookings[e].status != Cancelled))))
            ==> PaidFor(w.db.payments, e)
  {
    HistoryKeepsMoneyFirst(Start(properties, guests), events);
    var w := End(Start(properties, guests), events);
    if e in w.db.bookings {
      assert RowPaid(w.db, e);
    }
  }

  /**
   * Whatever messages were lost: the queueing pass finds a captured payment for every confirmed,
   * unsynced booking, so it skips none; and each send that is not dropped queues the booking again.
   */
  lemma NoneIsSkipped(properties: set<PropertyId>, guests: set<GuestId>, events: seq<Event>, e: Eri)
    requires History(Start(properties, guests), events)
    requires var w := End(Start(properties, guests), events); e in w.db.bookings && Unsynced(e, w.db.bookings[e])
    ensures var w := End(Start(properties, guests), events);
            exists m: Message ::
              && m.eri == e && MessageFor(w.db.payments, m)
              && History(w, [ListUnsynced(m), Requeue(m, true)])
              && m in End(w, [ListUnsynced(m), Requeue(m, true)]).queue
  {
    NoStayWithoutMoney(properties, guests, events, e);
    var w := End(Start(properties, guests), events);
    var x :| CapturedFor(w.db.payments, x, e);
    Relisted(w, Message(e, w.db.payments[x].amount));
  }

  lemma Relisted(w: World, m: Message)
    requires Enabled(w, ListUnsynced(m))
    ensures History(w, [ListUnsynced(m), Requeue(m, true)])
    ensures m in End(w, [ListUnsynced(m), Requeue(m, true)]).queue
  {
    var events := [ListUnsynced(m), Requeue(m, true)];
    var listed := Next(w, ListUnsynced(m));
    var requeued := Next(listed, Requeue(m, true));
    assert events[1..] == [Requeue(m, true)] && events[1..][1..] == [];
    assert History(requeued, []);
    assert History(listed, [Requeue(m, true)]) && End(listed, [Requeue(m, true)]) == requeued;
  }

  // ---------------------------------------------------------------- one number, counted inserts

  predicate MayInsert(stage: Stage)
  {
    stage.Inserting? || stage.Persisting?
  }

  /** A worker that may still insert works on a booking without a number. */
  ghost predicate InsertsFresh(w: World)
  {
    forall e | e in w.workers && MayInsert(w.workers[e].stage) ::
      e in w.db.bookings && w.db.bookings[e].reservationNo.None?
  }

  function Persisted(w: World, e: Eri): nat
  {
    if e in w.db.bookings && w.db.bookings[e].reservationNo.Some? then 1 else 0
  }

  function InFlight(w: World, e: Eri): nat
  {
    if e in w.workers && w.workers[e].stage.Persisting? then 1 else 0
  }

  ghost predicate InsertsCounted(w: World, e: Eri)
  {
    "TDS-" <= e ==> Count(w.inserts, e) == Persisted(w, e) + Count(w.lost, e) + InFlight(w, e)
  }

  ghost predicate Accounted(w: World)
  {
    InsertsFresh(w) && forall e :: InsertsCounted(w, e)
  }

  /** A number once stored stays. */
  ghost predicate KeepsNumbers(before: Bookings, after: Bookings)
  {
    forall e | e in before ::
      e in after && (before[e].reservationNo.Some? ==> after[e].reservationNo == before[e].reservationNo)
  }

  lemma LedgerKeepsAccounts(w: World, call: Call, sent: bool)
    requires Possible(w.db, call) && Accounted(w)
    ensures var after := Next(w, Ledger(call, sent)); Accounted(after) && KeepsNumbers(w.db.bookings, after.db.bookings)
  {
    hide Perform, Possible, SentBy, PaidFor;
    CallsMove(w.db, call);
    var after := Next(w, Ledger(call, sent));
    forall e: Eri
      ensures Persisted(after, e) == Persisted(w, e)
      ensures e in w.db.bookings ==> after.db.bookings[e].reservationNo == w.db.bookings[e].reservationNo
    {
      if e in after.db.bookings {
        assert RowMoves(w.db.bookings, after.db.bookings, after.db.payments, e);
      }
    }
    forall e: Eri
      ensures InsertsCounted(after, e)
    {
      assert InsertsCounted(w, e);
    }
  }

  /** The effect of one step balances: what it inserts it stores, loses, or is about to store. */
  lemma EffectBalances(stage: Stage, row: Option<BookingRow>, guests: set<GuestId>, reply: Remote)
    requires MayInsert(stage) ==> row.Some? && row.value.reservationNo.None?
    ensures var fx := WorkerEffect(stage, row, guests, reply);
            var after := if fx.row.Some? then fx.row else row;
            && (if fx.inserted then 1 else 0) + Stored(row) + About(Some(stage))
               == Stored(after) + (if fx.lost then 1 else 0) + About(fx.next)
            && (fx.next.Some? && MayInsert(fx.next.value) ==> after.Some? && after.value.reservationNo.None?)
            && (Stored(row) == 1 ==> after.value.reservationNo == row.value.reservationNo)
  {
    match stage
    case Reading =>
    case Inserting =>
    case Persisting(_) =>
    case Processing(_) =>
    case Fetching(_) =>
    case Paying =>
    case Deleting =>
  }

  function Stored(row: Option<BookingRow>): nat
  {
    if row.Some? && row.value.reservationNo.Some? then 1 else 0
  }

  function About(stage: Option<Stage>): nat
  {
    if stage.Some? && stage.value.Persisting? then 1 else 0
  }

  lemma WorkerBooks(w: World, eri: Eri, reply: Remote)
    requires eri in w.workers && InsertsFresh(w) && InsertsCounted(w, eri)
    ensures var after := WorkerStep(w, eri, reply);
            && InsertsCounted(after, eri)
            && (eri in after.workers && MayInsert(after.workers[eri].stage) ==>
                 eri in after.db.bookings && after.db.bookings[eri].reservationNo.None?)
            && (eri in w.db.bookings && w.db.bookings[eri].reservationNo.Some? ==>
                 eri in after.db.bookings && after.db.bookings[eri].reservationNo == w.db.bookings[eri].reservationNo)
  {
    hide WorkerEffect, MayInsert;
    EffectBalances(w.workers[eri].stage, RowOf(w.db.bookings, eri), w.db.guests, reply);
  }

  lemma WorkKeepsAccounts(w: World, eri: Eri, reply: Remote)
    requires eri in w.workers && Accounted(w)
    ensures var after := WorkerStep(w, eri, reply); Accounted(after) && KeepsNumbers(w.db.bookings, after.db.bookings)
  {
    hide WorkerStep, Count;
    var after := WorkerStep(w, eri, reply);
    WorkerWritesOwnRow(w, eri, reply);
    WorkerWorksAlone(w, eri, reply);
    assert InsertsCounted(w, eri);
    WorkerBooks(w, eri, reply);
    forall e: Eri
      ensures InsertsCounted(after, e)
    {
      assert InsertsCounted(w, e);
    }
  }

  /** A row is rewritten with its number, or a row that is not this program's own is put. */
  lemma WriteKeepsAccounts(w: World, eri: Eri, row: BookingRow)
    requires Accounted(w)
    requires if eri in w.db.bookings then row.reservationNo == w.db.bookings[eri].reservationNo else !("TDS-" <= eri)
    ensures Accounted(WriteRow(w, eri, row)) && KeepsNumbers(w.db.bookings, WriteRow(w, eri, row).db.bookings)
  {
    hide MayInsert;
    var after := WriteRow(w, eri, row);
    forall e: Eri
      ensures InsertsCounted(after, e)
    {
      assert InsertsCounted(w, e);
    }
  }

  /** Lists and candidates are not accounted for. */
  lemma ListsKeepAccounts(w: World, after: World)
    requires Accounted(w) && after.db == w.db && after.workers == w.workers
    requires after.inserts == w.inserts && after.lost == w.lost
    ensures Accounted(after) && KeepsNumbers(w.db.bookings, after.db.bookings)
  {
    hide MayInsert;
    forall e: Eri
      ensures InsertsCounted(after, e)
    {
      assert InsertsCounted(w, e);
    }
  }

  lemma RefreshKeepsAccounts(w: World, eri: Eri, tran: Option<Tran>)
    requires Enabled(w, Refresh(eri, tran)) && Accounted(w)
    ensures var after := Next(w, Refresh(eri, tran)); Accounted(after) && KeepsNumbers(w.db.bookings, after.db.bookings)
  {
    hide Drift, Accounted, KeepsNumbers, WriteRow;
    var unlisted, row := w.(watched := w.watched - {eri}), w.db.bookings[eri];
    ListsKeepAccounts(w, unlisted);
    WriteKeepsAccounts(unlisted, eri, if tran.Some? then Apply(row, Drift(w.watched[eri], tran.value)) else row);
  }

  lemma CreateKeepsAccounts(w: World, arrival: Candidate)
    requires Enabled(w, Create(arrival)) && Accounted(w)
    ensures var after := Next(w, Create(arrival)); Accounted(after) && KeepsNumbers(w.db.bookings, after.db.bookings)
  {
    hide GeneratedEri, CityCode, RowFor, Accounted, KeepsNumbers, WriteRow;
    GeneratedIsForeign(CityCode(arrival.property.city), arrival.summary.reservationNo);
    var looked := w.(uncached := w.uncached - multiset{arrival});
    ListsKeepAccounts(w, looked);
    if CandidateEri(arrival) !in w.db.bookings {
      WriteKeepsAccounts(looked, CandidateEri(arrival), RowFor(arrival.property.id, arrival.summary));
    }
  }

  lemma DeliverKeepsAccounts(w: World, m: Message)
    requires Enabled(w, Deliver(m)) && Accounted(w)
    ensures var after := Next(w, Deliver(m)); Accounted(after) && KeepsNumbers(w.db.bookings, after.db.bookings)
  {
    var after := Next(w, Deliver(m));
    forall eri: Eri
      ensures InsertsCounted(after, eri)
    {
      assert InsertsCounted(w, eri);
    }
  }

  lemma QueueLeavesCounts(w: World, e: Event)
    requires Enabled(w, e)
    requires !(e.Ledger? || e.Work? || e.Refresh? || e.Create? || e.Deliver?)
    ensures var after := Next(w, e);
            after.db == w.db && after.workers == w.workers && after.inserts == w.inserts && after.lost == w.lost
  {
    hide MessageFor, IsNew, CityCode;
  }

  lemma QueueKeepsAccounts(w: World, e: Event)
    requires Enabled(w, e) && Accounted(w)
    requires !(e.Ledger? || e.Work? || e.Refresh? || e.Create?)
    ensures Accounted(Next(w, e)) && KeepsNumbers(w.db.bookings, Next(w, e).db.bookings)
  {
    hide Accounted, KeepsNumbers, Next, Enabled;
    if e.Deliver? {
      DeliverKeepsAccounts(w, e.m);
    } else {
      QueueLeavesCounts(w, e);
      ListsKeepAccounts(w, Next(w, e));
    }
  }

  lemma StepKeepsAccounts(w: World, e: Event)
    requires Enabled(w, e) && Accounted(w)
    ensures Accounted(Next(w, e)) && KeepsNumbers(w.db.bookings, Next(w, e).db.bookings)
  {
    hide Accounted, KeepsNumbers, Next;
    match e
    case Ledger(call, sent) => LedgerKeepsAccounts(w, call, sent);
    case Work(eri, reply) => WorkStepKeepsAccounts(w, eri, reply);
    case Refresh(eri, tran) => RefreshKeepsAccounts(w, eri, tran);
    case Create(arrival) => CreateKeepsAccounts(w, arrival);
    case _ => QueueKeepsAccounts(w, e);
  }

  lemma WorkStepKeepsAccounts(w: World, eri: Eri, reply: Remote)
    requires eri in w.workers && Accounted(w)
    ensures var after := Next(w, Work(eri, reply)); Accounted(after) && KeepsNumbers(w.db.bookings, after.db.bookings)
  {
    hide Accounted, KeepsNumbers, WorkerStep;
    WorkKeepsAccounts(w, eri, reply);
  }

  lemma {:induction false} HistoryKeepsAccounts(w: World, events: seq<Event>)
    requires History(w, events) && Accounted(w)
    ensures Accounted(End(w, events)) && KeepsNumbers(w.db.bookings, End(w, events).db.bookings)
    decreases |events|
  {
    hide Accounted, Next, Enabled;
    if events != [] {
      StepKeepsAccounts(w, events[0]);
      HistoryKeepsAccounts(Next(w, events[0]), events[1..]);
    }
  }

  /**
   * In every history each of this program's bookings was inserted remotely once for its stored number,
   * once for every worker that died between the insert and storing the number, and once for a worker
   * that is just about to store it.
   */
  lemma InsertsAreAccounted(properties: set<PropertyId>, guests: set<GuestId>, events: seq<Event>, e: Eri)
    requires History(Start(properties, guests), events) && "TDS-" <= e
    ensures var w := End(Start(properties, guests), events);
            Count(w.inserts, e) == Persisted(w, e) + Count(w.lost, e) + InFlight(w, e)
  {
    HistoryKeepsAccounts(Start(properties, guests), events);
    assert InsertsCounted(End(Start(properties, guests), events), e);
  }

  /** Wherever a history is continued from, a stored reservation number never changes again. */
  lemma NumberIsWriteOnce(
    properties: set<PropertyId>, guests: set<GuestId>, events: seq<Event>, more: seq<Event>, e: Eri)
    requires History(Start(properties, guests), events)
    requires var w := End(Start(properties, guests), events);
             e in w.db.bookings && w.db.bookings[e].reservationNo.Some? && History(w, more)
    ensures var w := End(Start(properties, guests), events);
            && e in End(w, more).db.bookings
            && End(w, more).db.bookings[e].reservationNo == w.db.bookings[e].reservationNo
  {
    HistoryKeepsAccounts(Start(properties, guests), events);
    HistoryKeepsAccounts(End(Start(properties, guests), events), more);
  }
}
