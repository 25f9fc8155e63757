/** One run of the sync worker on one insert-booking message, and how it fits the protocol's steps. */
module EzeeSyncWorker {
  import opened Wrappers
  import opened Tables
  import opened Database
  import opened EzeeSync

  /** What eZee, the database and the process itself do at each stage of a run. */
  type Fate = Stage -> Remote

  /** The row, the inserts and lost numbers at the end of a run, and whether its message may be deleted. */
  datatype Trace = Trace(row: Option<BookingRow>, inserts: nat, lost: nat, finished: bool)

  /** No stage comes back. */
  function Rank(stage: Stage): nat
  {
    match stage
    case Reading => 6
    case Inserting => 5
    case Persisting(_) => 4
    case Processing(_) => 3
    case Fetching(_) => 2
    case Paying => 1
    case Deleting => 0
  }

  lemma StepsGoOn(stage: Stage, row: Option<BookingRow>, guests: set<GuestId>, reply: Remote)
    ensures var fx := WorkerEffect(stage, row, guests, reply); fx.next.Some? ==> Rank(fx.next.value) < Rank(stage)
  {
  }

  /** The protocol's steps up to the deletion of the message, one after the other. */
  ghost function RunFrom(
    stage: Stage, row: Option<BookingRow>, guests: set<GuestId>, fate: Fate, inserts: nat, lost: nat): Trace
    decreases Rank(stage)
  {
    if stage.Deleting? then Trace(row, inserts, lost, true)
    else
      var fx := WorkerEffect(stage, row, guests, fate(stage));
      StepsGoOn(stage, row, guests, fate(stage));
      var now := if fx.row.Some? then fx.row else row;
      var inserted, gone := inserts + (if fx.inserted then 1 else 0), lost + (if fx.lost then 1 else 0);
      if fx.next.None? then Trace(now, inserted, gone, false)
      else RunFrom(fx.next.value, now, guests, fate, inserted, gone)
  }

  // ---------------------------------------------------------------- what a run comes to

  /** The booking exists and its guest has an account. */
  predicate Known(row: Option<BookingRow>, guests: set<GuestId>)
  {
    row.Some? && row.value.guest.Some? && row.value.guest.value in guests
  }

  /** The number the reservation goes on with: the stored one, or one inserted and stored in this run. */
  function NumberAfter(row: BookingRow, fate: Fate): Option<string>
  {
    if row.reservationNo.Some? then row.reservationNo
    else if fate(Inserting).Inserted? && !fate(Persisting(fate(Inserting).no)).Fails? then Some(fate(Inserting).no)
    else None
  }

  /** The room in eZee's answer, else the one on the row. */
  function RoomAfter(row: BookingRow, reply: Remote): Option<string>
  {
    if reply.Answers? && reply.room.Some? && reply.room.value != "" then reply.room else row.room
  }

  /**
   * The message may be deleted if and only if the reads succeeded and there is nothing to do, or the
   * reservation has a number, eZee confirmed it, and the payment stage did not fail.
   */
  predicate Finishes(row: Option<BookingRow>, guests: set<GuestId>, fate: Fate)
  {
    && !fate(Reading).Fails?
    && if !Known(row, guests) then row.None? || row.value.guest.Some?
       else
         var no := NumberAfter(row.value, fate);
         no.Some? && !fate(Processing(no.value)).Fails? && !fate(Paying).Fails?
  }

  /** The row a run leaves: its number once stored, and the fetched room once eZee confirmed. */
  predicate LeavesRow(row: Option<BookingRow>, guests: set<GuestId>, fate: Fate, after: Option<BookingRow>)
  {
    if fate(Reading).Fails? || !Known(row, guests) then after == row
    else
      match NumberAfter(row.value, fate)
      case None => after == row
      case Some(no) =>
        if fate(Processing(no)).Fails? then after == Some(row.value.(reservationNo := Some(no)))
        else after == Some(row.value.(reservationNo := Some(no), room := RoomAfter(row.value, fate(Fetching(no)))))
  }

  /** One insert at most, only for a booking without a number, and lost unless its answer came and was stored. */
  predicate CountsInserts(row: Option<BookingRow>, guests: set<GuestId>, fate: Fate, inserts: nat, lost: nat)
  {
    if fate(Reading).Fails? || !Known(row, guests) || row.value.reservationNo.Some? then inserts == lost == 0
    else
      && inserts == (if fate(Inserting).Inserted? || fate(Inserting).InsertedUnheard? then 1 else 0)
      && lost == (if NumberAfter(row.value, fate).Some? then 0 else inserts)
  }

  /** A run's trace, by what happens at its stages. */
  predicate IsRun(row: Option<BookingRow>, guests: set<GuestId>, fate: Fate, t: Trace)
  {
    && (t.finished <==> Finishes(row, guests, fate))
    && LeavesRow(row, guests, fate, t.row)
    && CountsInserts(row, guests, fate, t.inserts, t.lost)
  }

  lemma ConfirmExactly(no: string, row: BookingRow, guests: set<GuestId>, fate: Fate, inserts: nat, lost: nat)
    ensures RunFrom(Processing(no), Some(row), guests, fate, inserts, lost)
         == if fate(Processing(no)).Fails? then Trace(Some(row), inserts, lost, false)
            else Trace(Some(row.(room := RoomAfter(row, fate(Fetching(no))))), inserts, lost, !fate(Paying).Fails?)
  {
    if !fate(Processing(no)).Fails? {
      var fetched := row.(room := RoomAfter(row, fate(Fetching(no))));
      assert RunFrom(Fetching(no), Some(row), guests, fate, inserts, lost)
          == RunFrom(Paying, Some(fetched), guests, fate, inserts, lost);
      assert RunFrom(Deleting, Some(fetched), guests, fate, inserts, lost)
          == Trace(Some(fetched), inserts, lost, true);
    }
  }

  lemma InsertExactly(row: BookingRow, guests: set<GuestId>, fate: Fate)
    ensures RunFrom(Inserting, Some(row), guests, fate, 0, 0)
         == if fate(Inserting).Inserted? then
              var no := fate(Inserting).no;
              if fate(Persisting(no)).Fails? then Trace(Some(row), 1, 1, false)
              else RunFrom(Processing(no), Some(row.(reservationNo := Some(no))), guests, fate, 1, 0)
            else if fate(Inserting).InsertedUnheard? then Trace(Some(row), 1, 1, false)
            else Trace(Some(row), 0, 0, false)
  {
    if fate(Inserting).Inserted? {
      var no := fate(Inserting).no;
      assert RunFrom(Inserting, Some(row), guests, fate, 0, 0)
          == RunFrom(Persisting(no), Some(row), guests, fate, 1, 0);
    }
  }

  /** The handler's steps come to exactly this. */
  lemma HandlerExactly(row: Option<BookingRow>, guests: set<GuestId>, fate: Fate)
    ensures IsRun(row, guests, fate, RunFrom(Reading, row, guests, fate, 0, 0))
  {
    if fate(Reading).Fails? {
    } else if !Known(row, guests) {
      assert RunFrom(Deleting, row, guests, fate, 0, 0) == Trace(row, 0, 0, true);
    } else if row.value.reservationNo.Some? {
      ConfirmExactly(row.value.reservationNo.value, row.value, guests, fate, 0, 0);
    } else {
      InsertExactly(row.value, guests, fate);
      if NumberAfter(row.value, fate).Some? {
        var no := fate(Inserting).no;
        ConfirmExactly(no, row.value.(reservationNo := Some(no)), guests, fate, 1, 0);
      }
    }
  }

  /** The handler goes through the protocol's steps; a thrown error leaves what was written before it. */
  method HandleInsertBooking(db: Database, eri: Eri, fate: Fate) returns (finished: bool, inserts: nat, lost: nat)
    modifies db`bookings
    ensures forall e | e != eri :: RowOf(db.bookings, e) == RowOf(old(db.bookings), e)
    ensures IsRun(RowOf(old(db.bookings), eri), db.guests, fate,
                  Trace(RowOf(db.bookings, eri), inserts, lost, finished))
    ensures Trace(RowOf(db.bookings, eri), inserts, lost, finished)
         == RunFrom(Reading, RowOf(old(db.bookings), eri), db.guests, fate, 0, 0)
  {
    hide IsRun;
    HandlerExactly(RowOf(db.bookings, eri), db.guests, fate);
    inserts, lost := 0, 0;
    if fate(Reading).Fails? {
      return false, inserts, lost;
    }
    if eri !in db.bookings {
      return true, inserts, lost;
    }
    var booking := db.bookings[eri];
    if booking.guest.None? {
      return false, inserts, lost;
    }
    if booking.guest.value !in db.guests {
      return true, inserts, lost;
    }
    var reservationNo := booking.reservationNo;
    if reservationNo.None? {
      var result := fate(Inserting);
      if result.InsertedUnheard? {
        return false, 1, 1;
      }
      if !result.Inserted? {
        return false, inserts, lost;
      }
      inserts := 1;
      reservationNo := Some(result.no);
      if fate(Persisting(result.no)).Fails? {
        return false, inserts, 1;
      }
      db.bookings := db.bookings[eri := db.bookings[eri].(reservationNo := reservationNo)];
      assert RunFrom(Reading, RowOf(old(db.bookings), eri), db.guests, fate, 0, 0)
          == RunFrom(Persisting(result.no), RowOf(old(db.bookings), eri), db.guests, fate, 1, 0);
    }
    finished := ConfirmAndPay(db, eri, reservationNo.value, fate, inserts);
  }

  /** Confirming, reading the room, which may fail harmlessly, and paying. */
  method ConfirmAndPay(db: Database, eri: Eri, no: string, fate: Fate, ghost inserts: nat) returns (finished: bool)
    requires eri in db.bookings
    modifies db`bookings
    ensures forall e | e != eri :: RowOf(db.bookings, e) == RowOf(old(db.bookings), e)
    ensures Trace(RowOf(db.bookings, eri), inserts, 0, finished)
         == RunFrom(Processing(no), RowOf(old(db.bookings), eri), db.guests, fate, inserts, 0)
  {
    if fate(Processing(no)).Fails? {
      return false;
    }
    var reservationData := fate(Fetching(no));
    if reservationData.Answers? && reservationData.room.Some? && reservationData.room.value != "" {
      db.bookings := db.bookings[eri := db.bookings[eri].(room := reservationData.room)];
    }
    assert RunFrom(Processing(no), RowOf(old(db.bookings), eri), db.guests, fate, inserts, 0)
        == RunFrom(Paying, RowOf(db.bookings, eri), db.guests, fate, inserts, 0);
    return !fate(Paying).Fails?;
  }

  /** One step of the protocol, seen from its own reservation. */
  lemma OwnStep(w: World, eri: Eri, reply: Remote)
    requires eri in w.workers
    ensures Enabled(w, Work(eri, reply))
    ensures var next := Next(w, Work(eri, reply));
            var fx := WorkerEffect(w.workers[eri].stage, RowOf(w.db.bookings, eri), w.db.guests, reply);
            && next.db.guests == w.db.guests
            && RowOf(next.db.bookings, eri) == (if fx.row.Some? then fx.row else RowOf(w.db.bookings, eri))
            && Count(next.inserts, eri) == Count(w.inserts, eri) + (if fx.inserted then 1 else 0)
            && Count(next.lost, eri) == Count(w.lost, eri) + (if fx.lost then 1 else 0)
            && (if fx.next.Some? then eri in next.workers && next.workers[eri].stage == fx.next.value
                else eri !in next.workers)
  {
    hide WorkerEffect;
  }

  /** A run of the handler is a history of the protocol in which no other event happens in between. */
  lemma {:induction false} RunIsHistory(w: World, eri: Eri, fate: Fate, inserts: nat, lost: nat)
    returns (events: seq<Event>)
    requires eri in w.workers
    ensures History(w, events)
    ensures var end, t := End(w, events),
                          RunFrom(w.workers[eri].stage, RowOf(w.db.bookings, eri), w.db.guests, fate, inserts, lost);
            && RowOf(end.db.bookings, eri) == t.row
            && Count(end.inserts, eri) - Count(w.inserts, eri) == t.inserts - inserts
            && Count(end.lost, eri) - Count(w.lost, eri) == t.lost - lost
            && (t.finished <==> eri in end.workers && end.workers[eri].stage == Deleting)
    decreases Rank(w.workers[eri].stage)
  {
    hide WorkerEffect, Enabled, Next, RowOf, Count;
    var stage := w.workers[eri].stage;
    if stage.Deleting? {
      events := [];
    } else {
      var reply := fate(stage);
      var fx := WorkerEffect(stage, RowOf(w.db.bookings, eri), w.db.guests, reply);
      OwnStep(w, eri, reply);
      StepsGoOn(stage, RowOf(w.db.bookings, eri), w.db.guests, reply);
      var next := Next(w, Work(eri, reply));
      var rest := [];
      if fx.next.Some? {
        rest := RunIsHistory(next, eri, fate, inserts + (if fx.inserted then 1 else 0),
                             lost + (if fx.lost then 1 else 0));
      }
      events := Prefixed(w, Work(eri, reply), rest);
    }
  }

  lemma Prefixed(w: World, e: Event, rest: seq<Event>) returns (events: seq<Event>)
    requires Enabled(w, e) && History(Next(w, e), rest)
    ensures History(w, events) && End(w, events) == End(Next(w, e), rest)
  {
    hide Enabled, Next;
    events := [e] + rest;
    assert events[1..] == rest;
  }
}
