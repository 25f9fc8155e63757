/** Whether two bookings can come to carry one reservation number: exactly which events bring that about. */
module EzeeNumbers {
  import opened Wrappers
  import opened Tables
  import opened Runs
  import opened EzeeReconciliation
  import opened EzeeIngestion
  import opened EzeeSync

  // ---------------------------------------------------------------- which number an event stores

  datatype Store = Store(eri: Eri, no: string)

  /** The number that an event writes into a booking row. */
  ghost function Stores(w: World, e: Event): Option<Store>
  {
    match e
    case Work(eri, reply) =>
      if eri in w.workers && w.workers[eri].stage.Persisting? && !reply.Fails? && eri in w.db.bookings
      then Some(Store(eri, w.workers[eri].stage.no)) else None
    case Create(arrival) =>
      if CandidateEri(arrival) !in w.db.bookings
      then Some(Store(CandidateEri(arrival), arrival.summary.reservationNo)) else None
    case _ => None
  }

  ghost predicate TakenElsewhere(bookings: Bookings, store: Store)
  {
    exists f :: f in bookings && f != store.eri && bookings[f].reservationNo == Some(store.no)
  }

  /** The event stores a number that another booking carries already. */
  ghost predicate StoresTaken(w: World, e: Event)
  {
    Stores(w, e).Some? && TakenElsewhere(w.db.bookings, Stores(w, e).value)
  }

  lemma StoringExactly(bookings: Bookings, eri: Eri, row: BookingRow, no: string)
    requires NumbersDistinct(bookings) && row.reservationNo == Some(no)
    ensures NumbersDistinct(bookings[eri := row]) <==> !TakenElsewhere(bookings, Store(eri, no))
  {
    var after := bookings[eri := row];
    if f :| f in bookings && f != eri && bookings[f].reservationNo == Some(no) {
      assert after[f].reservationNo == after[eri].reservationNo;
    } else {
      forall e, f | e in after && f in after && e != f && after[e].reservationNo.Some?
        ensures after[e].reservationNo != after[f].reservationNo
      {
        assert e in bookings || e == eri;
        assert f in bookings || f == eri;
      }
    }
  }

  /** Every row carries the number it carried before, or none. */
  ghost predicate NoNewNumbers(before: Bookings, after: Bookings)
  {
    forall e | e in after ::
      after[e].reservationNo.None? || (e in before && after[e].reservationNo == before[e].reservationNo)
  }

  lemma StillDistinct(before: Bookings, after: Bookings)
    requires NumbersDistinct(before) && NoNewNumbers(before, after)
    ensures NumbersDistinct(after)
  {
  }

  // ---------------------------------------------------------------- one event

  lemma LedgerStoresNothing(w: World, call: Call, sent: bool)
    requires Possible(w.db, call)
    ensures NoNewNumbers(w.db.bookings, Next(w, Ledger(call, sent)).db.bookings)
  {
    hide Perform, Possible, SentBy, PaidFor;
    CallsMove(w.db, call);
    var after := Perform(w.db, call).db;
    forall e | e in after.bookings
      ensures after.bookings[e].reservationNo.None?
              || (e in w.db.bookings && after.bookings[e].reservationNo == w.db.bookings[e].reservationNo)
    {
      assert RowMoves(w.db.bookings, after.bookings, after.payments, e);
    }
  }

  /** A worker's step writes its own row, with a new number only when it stores one. */
  lemma EffectStores(stage: Stage, row: Option<BookingRow>, guests: set<GuestId>, reply: Remote)
    ensures var fx := WorkerEffect(stage, row, guests, reply);
            if stage.Persisting? && !reply.Fails? && row.Some? then
              fx.row.Some? && fx.row.value.reservationNo == Some(stage.no)
            else fx.row.Some? ==> fx.row.value.reservationNo == row.value.reservationNo
  {
  }

  lemma WorkStoresExactly(w: World, eri: Eri, reply: Remote)
    requires eri in w.workers && NumbersDistinct(w.db.bookings)
    ensures NumbersDistinct(WorkerStep(w, eri, reply).db.bookings) <==> !StoresTaken(w, Work(eri, reply))
  {
    hide WorkerEffect, NumbersDistinct, TakenElsewhere;
    EffectStores(w.workers[eri].stage, RowOf(w.db.bookings, eri), w.db.guests, reply);
    var fx, after := EffectOf(w, eri, reply), WorkerStep(w, eri, reply).db.bookings;
    if Stores(w, Work(eri, reply)).Some? {
      StoringExactly(w.db.bookings, eri, fx.row.value, w.workers[eri].stage.no);
    } else {
      StillDistinct(w.db.bookings, after);
    }
  }

  lemma CreateStoresExactly(w: World, arrival: Candidate)
    requires arrival in w.uncached && NumbersDistinct(w.db.bookings)
    ensures NumbersDistinct(Next(w, Create(arrival)).db.bookings) <==> !StoresTaken(w, Create(arrival))
  {
    hide CandidateEri, NumbersDistinct, TakenElsewhere;
    if CandidateEri(arrival) !in w.db.bookings {
      StoringExactly(w.db.bookings, CandidateEri(arrival), RowFor(arrival.property.id, arrival.summary),
                     arrival.summary.reservationNo);
    }
  }

  lemma RefreshStoresNothing(w: World, eri: Eri, tran: Option<Tran>)
    requires Enabled(w, Refresh(eri, tran))
    ensures NoNewNumbers(w.db.bookings, Next(w, Refresh(eri, tran)).db.bookings)
  {
    hide Drift;
  }

  lemma OtherEventsStoreNothing(w: World, e: Event)
    requires Enabled(w, e) && !(e.Ledger? || e.Work? || e.Refresh? || e.Create?)
    ensures Next(w, e).db == w.db
  {
    hide MessageFor, Perform, Possible, SentBy, WorkerStep, IsNew, CityCode;
  }

  /**
   * An event keeps reservation numbers distinct if and only if it does not store a number that another
   * booking carries; only the worker's write and the ingestion's create store one.
   */
  lemma StepKeepsNumbersDistinctExactly(w: World, e: Event)
    requires Enabled(w, e) && NumbersDistinct(w.db.bookings)
    ensures NumbersDistinct(Next(w, e).db.bookings) <==> !StoresTaken(w, e)
  {
    hide NumbersDistinct, NoNewNumbers, TakenElsewhere, CandidateEri, WorkerStep;
    match e
    case Work(eri, reply) => WorkStoresExactly(w, eri, reply);
    case Create(arrival) => CreateStoresExactly(w, arrival);
    case Ledger(call, sent) =>
      LedgerStoresNothing(w, call, sent);
      StillDistinct(w.db.bookings, Next(w, e).db.bookings);
    case Refresh(eri, tran) =>
      RefreshStoresNothing(w, eri, tran);
      StillDistinct(w.db.bookings, Next(w, e).db.bookings);
    case _ => OtherEventsStoreNothing(w, e);
  }

  // ---------------------------------------------------------------- whole histories

  ghost predicate AlwaysDistinct(w: World, events: seq<Event>)
    requires History(w, events)
    decreases |events|
  {
    NumbersDistinct(w.db.bookings) && (events == [] || AlwaysDistinct(Next(w, events[0]), events[1..]))
  }

  ghost predicate NeverStoresTaken(w: World, events: seq<Event>)
    requires History(w, events)
    decreases |events|
  {
    events == [] || (!StoresTaken(w, events[0]) && NeverStoresTaken(Next(w, events[0]), events[1..]))
  }

  lemma {:induction false} HistoryKeepsNumbersExactly(w: World, events: seq<Event>)
    requires History(w, events) && NumbersDistinct(w.db.bookings)
    ensures AlwaysDistinct(w, events) <==> NeverStoresTaken(w, events)
    decreases |events|
  {
    hide NumbersDistinct, Next, Enabled, StoresTaken;
    if events != [] {
      StepKeepsNumbersDistinctExactly(w, events[0]);
      if StoresTaken(w, events[0]) {
        assert !AlwaysDistinct(Next(w, events[0]), events[1..]);
      } else {
        HistoryKeepsNumbersExactly(Next(w, events[0]), events[1..]);
      }
    }
  }

  /** From empty tables numbers stay distinct throughout if and only if no event stores a number that is taken. */
  lemma NumbersStayDistinctExactly(properties: set<PropertyId>, guests: set<GuestId>, events: seq<Event>)
    requires History(Start(properties, guests), events)
    ensures AlwaysDistinct(Start(properties, guests), events) <==> NeverStoresTaken(Start(properties, guests), events)
  {
    HistoryKeepsNumbersExactly(Start(properties, guests), events);
  }
}
