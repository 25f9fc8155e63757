/** Guest slots and the KYC submissions that refer to them, kept by every call. */
module SlotIntegrity {
  import opened Wrappers
  import opened RoomOrders
  import opened Tables
  import opened Operations
  import opened Runs
  import opened Integrity

  ghost predicate DistinctSlots(slots: seq<Slot>)
  {
    forall i, j | 0 <= i < j < |slots| :: slots[i].number != slots[j].number
  }

  ghost predicate HasNumber(slots: seq<Slot>, number: nat)
  {
    exists i | 0 <= i < |slots| :: slots[i].number == number
  }

  /** A submission refers to an existing slot. */
  ghost predicate Refers(slots: map<Eri, seq<Slot>>, s: SlotRef)
  {
    s.eri in slots && HasNumber(slots[s.eri], s.number)
  }

  /** Access and slots belong to known bookings, slots have numbers of their own, submissions refer to slots. */
  ghost predicate SlotsFit(db: Db)
  {
    && (forall a | a in db.access :: a.0 in db.bookings)
    && (forall e | e in db.slots :: e in db.bookings && DistinctSlots(db.slots[e]))
    && (forall s | s in db.submissions :: Refers(db.slots, s))
  }

  // ---------------------------------------------------------------- the slots of one reservation

  /** Slots of one reservation are rewritten without losing a number, and access is granted to it alone. */
  lemma RewrittenSlotsFit(db: Db, after: Db, eri: Eri)
    requires SlotsFit(db) && after.submissions == db.submissions
    requires forall e | e in db.bookings :: e in after.bookings
    requires eri in after.bookings && eri in after.slots && after.slots == db.slots[eri := after.slots[eri]]
    requires forall a | a in after.access :: a in db.access || a.0 == eri
    requires DistinctSlots(after.slots[eri])
    requires forall n | HasNumber(SlotsOf(db, eri), n) :: HasNumber(after.slots[eri], n)
    ensures SlotsFit(after)
  {
    hide DistinctSlots, HasNumber;
    forall s | s in after.submissions
      ensures Refers(after.slots, s)
    {
      assert Refers(db.slots, s);
    }
  }

  lemma NewSlotsAreDistinct(n: nat, booker: GuestId)
    ensures DistinctSlots(Slots(n, booker)) && DistinctSlots(EmptySlots(n))
  {
  }

  lemma {:induction false} AssignmentKeepsNumbers(slots: seq<Slot>, guest: GuestId)
    ensures forall i | 0 <= i < |slots| :: AssignFirst(slots, guest)[i].number == slots[i].number
  {
    if slots != [] && slots[0].guest.Some? {
      AssignmentKeepsNumbers(slots[1..], guest);
      assert forall i | 0 < i < |slots| :: AssignFirst(slots, guest)[i] == AssignFirst(slots[1..], guest)[i - 1];
    }
  }

  lemma SameNumbers(before: seq<Slot>, after: seq<Slot>)
    requires |after| == |before| && forall i | 0 <= i < |before| :: after[i].number == before[i].number
    ensures DistinctSlots(before) ==> DistinctSlots(after)
    ensures forall n :: HasNumber(before, n) ==> HasNumber(after, n)
  {
    forall n | HasNumber(before, n)
      ensures HasNumber(after, n)
    {
      var i :| 0 <= i < |before| && before[i].number == n;
      assert after[i].number == n;
    }
  }

  /** Rows that a booking writes around its slots. */
  lemma BookingSlots(
    db: Db, guest: GuestId, request: BookingRequest, offers: seq<RoomOffer>, eri: Eri, newOrder: OrderId)
    ensures var r := CreateBookingOrder(db, guest, request, offers, eri, newOrder);
            if r.outcome.Booked? then
              && r.db.access == db.access + {(eri, guest)} && eri in r.db.bookings
              && eri in r.db.slots && r.db.slots == db.slots[eri := r.db.slots[eri]]
              && DistinctSlots(r.db.slots[eri])
            else r.db == db
  {
    hide Moved, ChecksHold, StoredRooms, ParseDateRange, Accepted, RoomRefusal, Slots, AddonsRefusal, AddonLines,
      OrderFor, LinesTotal, FreezesOrders, KeepsBorrowed, DistinctSlots;
    forall n
      ensures DistinctSlots(Slots(n, guest))
    {
      NewSlotsAreDistinct(n, guest);
    }
  }

  lemma BookFits(db: Db, c: Call)
    requires Possible(db, c) && c.Book? && SlotsFit(db)
    ensures SlotsFit(Perform(db, c).db)
  {
    hide CreateBookingOrder, SlotsFit, Extends, FreezesOrders, KeepsBorrowed;
    StepExtends(db, c);
    BookingSlots(db, c.guest, c.request, c.offers, c.eri, c.newOrder);
    if Perform(db, c).outcome.Booked? {
      NewReservationFits(db, Perform(db, c).db, c.eri);
    }
  }

  lemma NewReservationFits(db: Db, after: Db, eri: Eri)
    requires SlotsFit(db) && Extends(db, after) && eri !in db.slots && after.submissions == db.submissions
    requires eri in after.bookings && eri in after.slots && after.slots == db.slots[eri := after.slots[eri]]
    requires forall a | a in after.access :: a in db.access || a.0 == eri
    requires DistinctSlots(after.slots[eri])
    ensures SlotsFit(after)
  {
    hide SlotsFit;
    RewrittenSlotsFit(db, after, eri);
  }

  lemma LinkFits(db: Db, guest: GuestId, eri: Eri)
    requires SlotsFit(db)
    ensures SlotsFit(LinkBooking(db, guest, eri).db)
  {
    hide SlotsFit, EmptySlots, AssignFirst, DistinctSlots, HasNumber;
    if eri in db.bookings {
      var existing := SlotsOf(db, eri);
      var slots := if existing == [] then EmptySlots(db.bookings[eri].guests) else existing;
      OwnSlots(db, eri);
      NewSlotsAreDistinct(db.bookings[eri].guests, guest);
      NoNumbers();
      AssignmentKeepsNumbers(slots, guest);
      SameNumbers(slots, AssignFirst(slots, guest));
      RewrittenSlotsFit(db, LinkBooking(db, guest, eri).db, eri);
    }
  }

  lemma OwnSlots(db: Db, eri: Eri)
    requires SlotsFit(db)
    ensures DistinctSlots(SlotsOf(db, eri))
  {
  }

  lemma NoNumbers()
    ensures forall n :: !HasNumber([], n)
  {
  }

  lemma AddSlotFits(db: Db, guest: GuestId, eri: Eri)
    requires SlotsFit(db)
    ensures SlotsFit(AddSlot(db, guest, eri).db)
  {
    hide LastNumber;
    if (eri, guest) in db.access {
      var slots := SlotsOf(db, eri);
      var more := slots + [Slot(LastNumber(slots) + 1, None)];
      assert DistinctSlots(more) by {
        hide SlotsFit;
        OwnSlots(db, eri);
      }
      MoreNumbers(slots, more);
      hide SlotsFit, DistinctSlots, HasNumber;
      AccessIsKnown(db, guest, eri);
      RewrittenSlotsFit(db, AddSlot(db, guest, eri).db, eri);
    }
  }

  lemma MoreNumbers(before: seq<Slot>, after: seq<Slot>)
    requires |before| <= |after| && forall i | 0 <= i < |before| :: after[i] == before[i]
    ensures forall n :: HasNumber(before, n) ==> HasNumber(after, n)
  {
    forall n | HasNumber(before, n)
      ensures HasNumber(after, n)
    {
      var i :| 0 <= i < |before| && before[i].number == n;
      assert after[i].number == n;
    }
  }

  lemma AccessIsKnown(db: Db, guest: GuestId, eri: Eri)
    requires SlotsFit(db) && (eri, guest) in db.access
    ensures eri in db.bookings
  {
  }

  lemma DeleteSlotFits(db: Db, guest: GuestId, eri: Eri, number: nat)
    requires SlotsFit(db)
    ensures SlotsFit(DeleteSlot(db, guest, eri, number).db)
  {
    hide SlotIndex;
    var r := DeleteSlot(db, guest, eri, number);
    if r.outcome == Done {
      var slots := SlotsOf(db, eri);
      var i := SlotIndex(slots, number);
      AccessIsKnown(db, guest, eri);
      OwnSlots(db, eri);
      forall s | s in r.db.submissions
        ensures Refers(r.db.slots, s)
      {
        assert Refers(db.slots, s);
        if s.eri == eri {
          var j :| 0 <= j < |slots| && slots[j].number == s.number;
          assert r.db.slots[eri][if j < i then j else j - 1] == slots[j];
        }
      }
    }
  }

  lemma SubmitFits(db: Db, guest: GuestId, eri: Eri, number: nat, consent: bool, born: Date, today: Date)
    requires SlotsFit(db)
    ensures SlotsFit(SubmitKyc(db, guest, eri, number, consent, born, today).db)
  {
    hide SlotIndex, DistinctSlots;
  }

  // ---------------------------------------------------------------- rollback and every other call

  lemma RolledBackSlotsFit(db: Db, eri: Eri, first: Option<OrderId>)
    requires SlotsFit(db) && eri in db.bookings && (first.Some? ==> first.value in db.orders)
    requires !Submitted(db.submissions, eri)
    ensures SlotsFit(RolledBack(db, eri, first))
  {
    hide Moved, DistinctSlots, HasNumber;
    var after := RolledBack(db, eri, first);
    forall s | s in after.submissions
      ensures Refers(after.slots, s)
    {
      assert Refers(db.slots, s);
    }
  }

  lemma RollbackFits(db: Db, eri: Eri, first: Option<OrderId>)
    requires SlotsFit(db) && AnswersPending(db.orders, first, eri)
    ensures SlotsFit(RollbackPendingBooking(db, eri, first).db)
  {
    hide SlotsFit, RollbackPendingBooking, RolledBack, ChecksHold, Submitted, AnswersPending;
    RollbackCases(db, eri, first);
    if IsPending(db, eri) && !Submitted(db.submissions, eri) {
      RolledBackSlotsFit(db, eri, first);
    }
  }

  lemma SameSlotsFit(db: Db, after: Db)
    requires SlotsFit(db) && forall e | e in db.bookings :: e in after.bookings
    requires after.access == db.access && after.slots == db.slots && after.submissions == db.submissions
    ensures SlotsFit(after)
  {
    hide DistinctSlots, HasNumber;
  }

  lemma FailureFitsSlots(db: Db, x: PaymentId, first: Option<OrderId>)
    requires SlotsFit(db) && (x in db.payments ==> AnswersPending(db.orders, first, db.payments[x].eri))
    ensures SlotsFit(HandlePaymentFailure(db, x, first).db)
  {
    hide SlotsFit, HandlePaymentFailure, RollbackPendingBooking, Unlinked, AnswersPending;
    if x !in db.payments {
      FailureUnknown(db, x, first);
    } else if !FailsNow(db, x) {
      FailureIsFinal(db, x, first);
    } else {
      SameSlotsFit(db, SetPayment(db, x, Failed));
      if db.payments[x].purpose == ForBooking {
        FailureRollsBack(db, x, first);
        RollbackFits(SetPayment(db, x, Failed), db.payments[x].eri, first);
      } else {
        FailureUnlinks(db, x, first);
        SameSlotsFit(db, HandlePaymentFailure(db, x, first).db);
      }
    }
  }

  lemma SlotCallFits(db: Db, c: Call)
    requires Possible(db, c) && SlotsFit(db) && (c.Link? || c.Submit? || c.NewSlot? || c.DropSlot?)
    ensures SlotsFit(Perform(db, c).db)
  {
    hide SlotsFit, LinkBooking, SubmitKyc, AddSlot, DeleteSlot;
    match c
    case Link(guest, eri) => LinkFits(db, guest, eri);
    case Submit(guest, eri, slot, consent, born, today) => SubmitFits(db, guest, eri, slot, consent, born, today);
    case NewSlot(guest, eri) => AddSlotFits(db, guest, eri);
    case DropSlot(guest, eri, slot) => DeleteSlotFits(db, guest, eri, slot);
  }

  lemma FailureCallFits(db: Db, c: Call)
    requires Possible(db, c) && SlotsFit(db) && c.PaymentFails?
    ensures SlotsFit(Perform(db, c).db)
  {
    hide SlotsFit, HandlePaymentFailure, AnswersPending;
    FailureFitsSlots(db, c.x, c.first);
  }

  lemma OtherCallFits(db: Db, c: Call)
    requires Possible(db, c) && SlotsFit(db)
    requires !(c.Book? || c.Link? || c.Submit? || c.NewSlot? || c.DropSlot? || c.PaymentFails?)
    ensures SlotsFit(Perform(db, c).db)
  {
    hide Perform, Possible, SlotsFit;
    Frame(db, c);
    StepExtends(db, c);
    SameSlotsFit(db, Perform(db, c).db);
  }

  /** Every call keeps submissions referring to slots, and slots and access to known bookings. */
  lemma StepKeepsSlotsFit(db: Db, c: Call)
    requires Possible(db, c) && SlotsFit(db)
    ensures SlotsFit(Perform(db, c).db)
  {
    hide Perform, Possible, SlotsFit;
    if c.Book? {
      BookFits(db, c);
    } else if c.Link? || c.Submit? || c.NewSlot? || c.DropSlot? {
      SlotCallFits(db, c);
    } else if c.PaymentFails? {
      FailureCallFits(db, c);
    } else {
      OtherCallFits(db, c);
    }
  }

  // ---------------------------------------------------------------- what the calls mean

  /** Eighteen years old exactly when the eighteenth birthday is not after today. */
  lemma AdultFromBirthday(born: Date, today: Date)
    ensures AgeOn(born, today) >= ADULT <==>
            || born.year + ADULT < today.year
            || (born.year + ADULT == today.year
                && (born.month < today.month || (born.month == today.month && born.day <= today.day)))
  {
  }

  /** A submission blocks the rollback; deleting its slot unblocks it when no other slot has one. */
  lemma SubmissionBlocksUntilDeleted(
    db: Db, guest: GuestId, eri: Eri, number: nat, consent: bool, born: Date, today: Date)
    requires SubmitKyc(db, guest, eri, number, consent, born, today).outcome == Done
    ensures var submitted := SubmitKyc(db, guest, eri, number, consent, born, today).db;
            var deleted := DeleteSlot(submitted, guest, eri, number);
            && Submitted(submitted.submissions, eri)
            && deleted.outcome == Done
            && (Submitted(deleted.db.submissions, eri) <==>
                 exists n :: n != number && SlotRef(eri, n) in db.submissions)
  {
    hide SlotIndex;
    var submitted := SubmitKyc(db, guest, eri, number, consent, born, today).db;
    assert SlotRef(eri, number) in submitted.submissions;
    var deleted := DeleteSlot(submitted, guest, eri, number).db;
    assert forall s | s in deleted.submissions && s.eri == eri ::
      s.number != number && SlotRef(eri, s.number) in db.submissions;
    assert forall n | n != number && SlotRef(eri, n) in db.submissions :: SlotRef(eri, n) in deleted.submissions;
  }

  lemma NewNumber(db: Db, eri: Eri)
    requires SlotsFit(db) && eri in db.slots
    ensures var slots, n := db.slots[eri], LastNumber(db.slots[eri]) + 1;
            && !HasNumber(slots, n) && SlotRef(eri, n) !in db.submissions
            && SlotIndex(slots + [Slot(n, None)], n) == |slots|
  {
    hide LastNumber, DistinctSlots;
    var slots, n := db.slots[eri], LastNumber(db.slots[eri]) + 1;
    var more := slots + [Slot(n, None)];
    assert forall j | 0 <= j < |slots| :: slots[j] in slots && more[j].number != n;
    assert more[|slots|].number == n;
    assert !HasNumber(slots, n);
    forall s | s in db.submissions
      ensures s != SlotRef(eri, n)
    {
      assert Refers(db.slots, s);
    }
  }

  /** Deleting the last slot, which no submission refers to. */
  lemma LastSlotDeleted(db: Db, added: Db, guest: GuestId, eri: Eri, slots: seq<Slot>, n: nat)
    requires (eri, guest) in db.access && eri in db.slots && db.slots[eri] == slots
    requires added == db.(slots := db.slots[eri := slots + [Slot(n, None)]])
    requires SlotRef(eri, n) !in db.submissions && SlotIndex(slots + [Slot(n, None)], n) == |slots|
    ensures DeleteSlot(added, guest, eri, n) == Reply(db, Done)
  {
    hide SlotIndex;
    var more := slots + [Slot(n, None)];
    assert more[..|slots|] + more[|slots| + 1..] == slots;
    assert db.slots[eri := more][eri := slots] == db.slots;
    assert db.submissions - {SlotRef(eri, n)} == db.submissions;
  }

  /** A slot that is added has a number of its own; deleting it again leaves the tables as they were. */
  lemma AddThenDeleteSlot(db: Db, guest: GuestId, eri: Eri)
    requires SlotsFit(db) && (eri, guest) in db.access && eri in db.slots
    ensures var n := LastNumber(db.slots[eri]) + 1;
            && !HasNumber(db.slots[eri], n) && SlotRef(eri, n) !in db.submissions
            && DeleteSlot(AddSlot(db, guest, eri).db, guest, eri, n) == Reply(db, Done)
  {
    hide LastNumber, SlotIndex, SlotsFit, HasNumber, DeleteSlot;
    NewNumber(db, eri);
    LastSlotDeleted(db, AddSlot(db, guest, eri).db, guest, eri, db.slots[eri], LastNumber(db.slots[eri]) + 1);
  }
}
