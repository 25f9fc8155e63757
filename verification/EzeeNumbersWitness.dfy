/**
 * Two histories from empty tables after which two bookings carry one reservation number: the ingestion pass
 * creates a row for a reservation that a worker has inserted and not stored yet, before or after it is stored.
 */
module EzeeNumbersWitness {
  import opened Wrappers
  import opened RoomOrders
  import opened Tables
  import opened Operations
  import opened Runs
  import opened EzeeReconciliation
  import opened EzeeIngestion
  import opened EzeeSync
  import opened Scenario

  const NUMBER := "R1"
  const MESSAGE := Message(ANNS_BOOKING, 50000)
  const ARRIVAL := Candidate(Property(HOTEL, None), Summary(NUMBER, "Confirmed Reservation", None, 1))

  // ---------------------------------------------------------------- a paid booking

  function Books(): Call
  {
    BookBed(ANN, ANNS_BOOKING, ANNS_ORDER, [])
  }

  ghost function Booked(): Db
  {
    Open().(bookings := map[ANNS_BOOKING := Unpaid(ANN)],
            access := {(ANNS_BOOKING, ANN)},
            slots := map[ANNS_BOOKING := Slots(BedOrder().totalGuests, ANN)])
  }

  lemma IsBooked()
    ensures Possible(Open(), Books()) && Perform(Open(), Books()).db == Booked()
  {
    assert NewEri(Open(), ANNS_BOOKING) && ChecksHold(Open().inventory);
    assert WithBooking(Open(), ANN, HOTEL, BedOrder(), ANNS_BOOKING, ANNS_ORDER, []) == Booked() by {
      hide BedOrder;
    }
    hide Open, Booked, NewEri, ChecksHold, Perform, Possible;
    OpenHasHotel();
    BedIsBookedAlone(Open(), ANN, ANNS_BOOKING, ANNS_ORDER);
  }

  lemma OpenHasHotel()
    ensures HOTEL in Open().properties && ANNS_ORDER !in Open().orders
  {
  }

  function OpensPayment(): Call
  {
    PayBooking(ANN, ANNS_BOOKING, 50000, None, ANNS_PAYMENT)
  }

  ghost function Paying(): Db
  {
    Booked().(payments := map[ANNS_PAYMENT := Payment(ANNS_BOOKING, ANN, 50000, ForBooking, Created)])
  }

  lemma IsPaying()
    ensures Possible(Booked(), OpensPayment()) && Perform(Booked(), OpensPayment()).db == Paying()
  {
    hide Unpaid, BedOrder, FreezesOrders;
  }

  function Pays(): Call
  {
    PaymentCaptured(ANNS_PAYMENT, None)
  }

  ghost function Paid(): Db
  {
    Booked().(payments := map[ANNS_PAYMENT := Payment(ANNS_BOOKING, ANN, 50000, ForBooking, Captured)],
              bookings := map[ANNS_BOOKING := Unpaid(ANN).(status := Confirmed)])
  }

  lemma PayingFacts()
    ensures var db := Paying();
            && db.catalog == map[] && db.inventory == map[] && db.orders == map[]
            && db.bookings == map[ANNS_BOOKING := Unpaid(ANN)]
            && db.payments == map[ANNS_PAYMENT := Payment(ANNS_BOOKING, ANN, 50000, ForBooking, Created)]
            && Paid() == db.(payments := Paid().payments, bookings := Paid().bookings)
  {
  }

  lemma IsPaid()
    ensures Possible(Paying(), Pays()) && Perform(Paying(), Pays()) == Reply(Paid(), BookingConfirmed)
  {
    hide Unpaid, Paying, FreezesOrders, KeepsBorrowed, OnlyStatusOf;
    PayingFacts();
    UnpaidIsPending(ANN);
    assert Moved(map[], map[], HOTEL, [], Finalise) == map[];
  }

  // ---------------------------------------------------------------- the worker inserts it

  ghost function In(db: Db): World
  {
    World(db, multiset{}, multiset{}, map[], multiset{}, map[], map[], map[])
  }

  ghost function Queued(): World
  {
    In(Paid()).(queue := multiset{MESSAGE})
  }

  ghost function At(stage: Stage): World
  {
    Queued().(workers := map[ANNS_BOOKING := Worker(MESSAGE, stage, 0)])
  }

  /** The number is known to the worker and to eZee, and not stored yet. */
  ghost function InsertedNotStored(): World
  {
    At(Persisting(NUMBER)).(inserts := map[ANNS_BOOKING := 1])
  }

  lemma LedgerStep(db: Db, call: Call, after: Db)
    requires Possible(db, call) && Perform(db, call).db == after && !call.PaymentCaptured?
    ensures Enabled(In(db), Ledger(call, true)) && Next(In(db), Ledger(call, true)) == In(after)
  {
    hide Perform, Possible;
  }

  lemma CaptureSends()
    ensures Enabled(In(Paying()), Ledger(Pays(), true)) && Next(In(Paying()), Ledger(Pays(), true)) == Queued()
  {
    IsPaid();
    PayingFacts();
    hide Perform, Possible, Paying, Paid;
  }

  lemma PaidRow()
    ensures RowOf(Paid().bookings, ANNS_BOOKING) == Some(Unpaid(ANN).(status := Confirmed))
    ensures Unpaid(ANN).guest == Some(ANN) && Unpaid(ANN).reservationNo.None? && ANN in Paid().guests
  {
    hide BedOrder;
  }

  lemma IsDelivered()
    ensures Enabled(Queued(), Deliver(MESSAGE)) && Next(Queued(), Deliver(MESSAGE)) == At(Reading)
  {
    hide Paid;
  }

  lemma IsRead()
    ensures Enabled(At(Reading), Work(ANNS_BOOKING, Works))
    ensures Next(At(Reading), Work(ANNS_BOOKING, Works)) == At(Inserting)
  {
    hide Paid, Unpaid;
    PaidRow();
  }

  lemma IsInserted()
    ensures Enabled(At(Inserting), Work(ANNS_BOOKING, Inserted(NUMBER)))
    ensures Next(At(Inserting), Work(ANNS_BOOKING, Inserted(NUMBER))) == InsertedNotStored()
  {
    hide Paid;
  }

  /** Events through a sequence of worlds. */
  lemma {:induction false} EventsThrough(worlds: seq<World>, events: seq<Event>, k: nat)
    requires |worlds| == |events| + 1 && k <= |events|
    requires forall i | 0 <= i < |events| ::
               Enabled(worlds[i], events[i]) && Next(worlds[i], events[i]) == worlds[i + 1]
    ensures History(worlds[k], events[k..]) && End(worlds[k], events[k..]) == worlds[|events|]
    decreases |events| - k
  {
    hide Enabled, Next;
    if k < |events| {
      EventsThrough(worlds, events, k + 1);
      assert events[k..][1..] == events[k + 1..];
    }
  }

  /** A history after a history. */
  lemma {:induction false} HistoryAfterHistory(w: World, events: seq<Event>, more: seq<Event>)
    requires History(w, events) && History(End(w, events), more)
    ensures History(w, events + more) && End(w, events + more) == End(End(w, events), more)
    decreases |events|
  {
    hide Enabled, Next;
    if events == [] {
      assert events + more == more;
    } else {
      HistoryAfterHistory(Next(w, events[0]), events[1..], more);
      assert (events + more)[1..] == events[1..] + more;
    }
  }

  function PaidBooking(): seq<Event>
  {
    [Ledger(Books(), true), Ledger(OpensPayment(), true), Ledger(Pays(), true)]
  }

  lemma StartIsOpen()
    ensures In(Open()) == Start({HOTEL}, {ANN, BOB})
  {
  }

  lemma BookingIsPaid()
    ensures History(Start({HOTEL}, {ANN, BOB}), PaidBooking())
    ensures End(Start({HOTEL}, {ANN, BOB}), PaidBooking()) == Queued()
  {
    hide Perform, Possible, Enabled, Next, In, Open, Booked, Paying, Queued, Start;
    IsBooked();
    IsPaying();
    LedgerStep(Open(), Books(), Booked());
    LedgerStep(Booked(), OpensPayment(), Paying());
    CaptureSends();
    StartIsOpen();
    EventsThrough([In(Open()), In(Booked()), In(Paying()), Queued()], PaidBooking(), 0);
    assert PaidBooking()[0..] == PaidBooking();
  }

  function RemoteInsert(): seq<Event>
  {
    [Deliver(MESSAGE), Work(ANNS_BOOKING, Works), Work(ANNS_BOOKING, Inserted(NUMBER)), LookUp(ARRIVAL)]
  }

  /** And the ingestion pass has found the number uncached. */
  ghost function LookedUp(): World
  {
    InsertedNotStored().(uncached := multiset{ARRIVAL})
  }

  lemma ArrivalIsNew()
    ensures Enabled(InsertedNotStored(), LookUp(ARRIVAL)) && Next(InsertedNotStored(), LookUp(ARRIVAL)) == LookedUp()
  {
    hide Unpaid, CityCode;
    GeneratedIsForeign(CityCode(None), NUMBER);
    PaidRow();
  }

  lemma BookingIsInserted()
    ensures History(Queued(), RemoteInsert()) && End(Queued(), RemoteInsert()) == LookedUp()
  {
    IsDelivered();
    IsRead();
    IsInserted();
    ArrivalIsNew();
    hide Enabled, Next, Queued, At, InsertedNotStored, LookedUp;
    EventsThrough([Queued(), At(Reading), At(Inserting), InsertedNotStored(), LookedUp()], RemoteInsert(), 0);
    assert RemoteInsert()[0..] == RemoteInsert();
  }

  /** Booking, payment, capture, a worker that has just inserted it, and the pass that has looked its number up. */
  function Setup(): seq<Event>
  {
    PaidBooking() + RemoteInsert()
  }

  lemma SetupHappens()
    ensures History(Start({HOTEL}, {ANN, BOB}), Setup())
    ensures End(Start({HOTEL}, {ANN, BOB}), Setup()) == LookedUp()
  {
    hide History, End, Start, PaidBooking, RemoteInsert, Queued, LookedUp;
    BookingIsPaid();
    BookingIsInserted();
    HistoryAfterHistory(Start({HOTEL}, {ANN, BOB}), PaidBooking(), RemoteInsert());
  }

  // ---------------------------------------------------------------- both store the number

  /** Two bookings carry the number. */
  ghost predicate Clashes(bookings: Bookings)
  {
    && ANNS_BOOKING in bookings && bookings[ANNS_BOOKING].reservationNo == Some(NUMBER)
    && CandidateEri(ARRIVAL) in bookings && bookings[CandidateEri(ARRIVAL)].reservationNo == Some(NUMBER)
    && CandidateEri(ARRIVAL) != ANNS_BOOKING
  }

  lemma ClashIsNotDistinct(bookings: Bookings)
    requires Clashes(bookings)
    ensures !NumbersDistinct(bookings)
  {
    hide CandidateEri;
  }

  /** What matters of the world before one of the two is stored. */
  ghost predicate Ready(w: World)
  {
    && ANNS_BOOKING in w.workers && w.workers[ANNS_BOOKING].stage == Persisting(NUMBER)
    && ANNS_BOOKING in w.db.bookings && ARRIVAL in w.uncached
    && CandidateEri(ARRIVAL) !in w.db.bookings && CandidateEri(ARRIVAL) != ANNS_BOOKING
  }

  lemma LookedUpIsReady()
    ensures Ready(LookedUp())
  {
    hide Unpaid, GeneratedEri, CityCode;
    GeneratedIsForeign(CityCode(None), NUMBER);
    PaidRow();
  }

  const CREATES := Create(ARRIVAL)
  const STORES := Work(ANNS_BOOKING, Works)

  lemma StoreWrites(w: World)
    requires ANNS_BOOKING in w.workers && w.workers[ANNS_BOOKING].stage == Persisting(NUMBER)
    requires ANNS_BOOKING in w.db.bookings
    ensures Enabled(w, STORES) && Next(w, STORES).uncached == w.uncached
    ensures Next(w, STORES).db.bookings
            == w.db.bookings[ANNS_BOOKING := w.db.bookings[ANNS_BOOKING].(reservationNo := Some(NUMBER))]
  {
  }

  lemma CreateWrites(w: World)
    requires ARRIVAL in w.uncached && CandidateEri(ARRIVAL) !in w.db.bookings
    ensures Enabled(w, CREATES) && Next(w, CREATES).workers == w.workers
    ensures Next(w, CREATES).db.bookings == w.db.bookings[CandidateEri(ARRIVAL) := RowFor(HOTEL, ARRIVAL.summary)]
  {
    hide CandidateEri;
  }

  lemma CreatesThenStores(w: World)
    requires Ready(w)
    ensures Enabled(w, CREATES) && Enabled(Next(w, CREATES), STORES)
    ensures Clashes(Next(Next(w, CREATES), STORES).db.bookings)
  {
    hide CandidateEri, Enabled, Next;
    CreateWrites(w);
    StoreWrites(Next(w, CREATES));
  }

  lemma StoresThenCreates(w: World)
    requires Ready(w)
    ensures Enabled(w, STORES) && Enabled(Next(w, STORES), CREATES)
    ensures Clashes(Next(Next(w, STORES), CREATES).db.bookings)
  {
    hide CandidateEri, Enabled, Next;
    StoreWrites(w);
    CreateWrites(Next(w, STORES));
  }

  lemma TwoEvents(w: World, first: Event, second: Event)
    requires Enabled(w, first) && Enabled(Next(w, first), second)
    ensures History(w, [first, second]) && End(w, [first, second]) == Next(Next(w, first), second)
  {
    hide Enabled, Next;
    EventsThrough([w, Next(w, first), Next(Next(w, first), second)], [first, second], 0);
    assert [first, second][0..] == [first, second];
  }

  /**
   * From empty tables: after the same seven events, the row is created before the worker stores the number, or after
   * it. Either way two bookings end up with the number.
   */
  lemma NumberOnTwoRows()
    ensures var w := Start({HOTEL}, {ANN, BOB});
            && History(w, Setup() + [CREATES, STORES])
            && !NumbersDistinct(End(w, Setup() + [CREATES, STORES]).db.bookings)
            && History(w, Setup() + [STORES, CREATES])
            && !NumbersDistinct(End(w, Setup() + [STORES, CREATES]).db.bookings)
  {
    SetupHappens();
    LookedUpIsReady();
    CreatesThenStores(LookedUp());
    StoresThenCreates(LookedUp());
    TwoEvents(LookedUp(), CREATES, STORES);
    TwoEvents(LookedUp(), STORES, CREATES);
    ClashIsNotDistinct(Next(Next(LookedUp(), CREATES), STORES).db.bookings);
    ClashIsNotDistinct(Next(Next(LookedUp(), STORES), CREATES).db.bookings);
    hide History, End, Start, Setup, LookedUp, Ready, Clashes, NumbersDistinct, Enabled, Next;
    HistoryAfterHistory(Start({HOTEL}, {ANN, BOB}), Setup(), [CREATES, STORES]);
    HistoryAfterHistory(Start({HOTEL}, {ANN, BOB}), Setup(), [STORES, CREATES]);
  }
}
