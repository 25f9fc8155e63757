/**
 * A run from empty tables in which a KYC submission stops a rollback: one guest books a bed and a towel,
 * opens the payment and submits her documents; the payment fails, and the towel stays reserved.
 */
module KycWitness {
  import opened Wrappers
  import opened RoomOrders
  import opened Tables
  import opened Operations
  import opened Runs
  import opened Coupling
  import opened Reachable
  import opened HeldStock
  import opened Scenario

  const BORN := Date(1990, 5, 17)
  const TODAY := Date(2026, 4, 14)

  function AnnOpensPayment(): Call
  {
    PayBooking(ANN, ANNS_BOOKING, 50100, Some(ANNS_ORDER), ANNS_PAYMENT)
  }

  ghost function AnnPaying(): Db
  {
    var db := TowelBooked();
    db.(payments := map[ANNS_PAYMENT := Payment(ANNS_BOOKING, ANN, 50100, ForBooking, Created)],
        orders := map[ANNS_ORDER := db.orders[ANNS_ORDER].(payment := Some(ANNS_PAYMENT))])
  }

  lemma AnnIsPaying()
    ensures Possible(TowelBooked(), AnnOpensPayment()) && Separated(TowelBooked(), AnnOpensPayment())
    ensures Perform(TowelBooked(), AnnOpensPayment()).db == AnnPaying()
  {
    hide Unpaid, BedOrder, FreezesOrders;
  }

  function AnnSubmits(): Call
  {
    Submit(ANN, ANNS_BOOKING, 1, true, BORN, TODAY)
  }

  ghost function AnnSubmitted(): Db
  {
    AnnPaying().(submissions := map[SlotRef(ANNS_BOOKING, 1) := ANN])
  }

  lemma BedHasOneSlot()
    ensures Slots(BedOrder().totalGuests, ANN) == [Slot(1, Some(ANN))]
  {
    BedIsAccepted();
    assert TotalQuantity(BED, 1) == 1;
  }

  lemma AnnHasSubmitted()
    ensures Possible(AnnPaying(), AnnSubmits()) && Separated(AnnPaying(), AnnSubmits())
    ensures Perform(AnnPaying(), AnnSubmits()).db == AnnSubmitted()
  {
    hide Unpaid, BedOrder, Slots;
    BedHasOneSlot();
  }

  function AnnFails(): Call
  {
    PaymentFails(ANNS_PAYMENT, Some(ANNS_ORDER))
  }

  ghost function AnnFailed(): Db
  {
    SetPayment(AnnSubmitted(), ANNS_PAYMENT, Failed)
  }

  lemma SubmittedFacts()
    ensures var db := AnnSubmitted();
            && ANNS_PAYMENT in db.payments
            && db.payments[ANNS_PAYMENT] == Payment(ANNS_BOOKING, ANN, 50100, ForBooking, Created)
            && ANNS_BOOKING in db.bookings && db.bookings[ANNS_BOOKING] == Unpaid(ANN)
            && ANNS_ORDER in db.orders
            && db.orders[ANNS_ORDER]
               == Order(ANNS_BOOKING, ANN, Some(ANNS_PAYMENT), Booking, Pending, [OneTowel(0, None)])
            && db.inventory == map[TOWEL := Stock(HOTEL, 3, 2, 1, 0, 0, 0)]
            && Submitted(db.submissions, ANNS_BOOKING)
  {
    hide BedOrder, Slots;
    assert SlotRef(ANNS_BOOKING, 1) in AnnSubmitted().submissions;
  }

  lemma RollbackStops()
    ensures Possible(AnnSubmitted(), AnnFails()) && Separated(AnnSubmitted(), AnnFails())
    ensures Perform(AnnSubmitted(), AnnFails()) == Reply(AnnFailed(), Refused(ConstraintViolated))
    ensures LastPaymentFails(AnnSubmitted(), ANNS_PAYMENT, ANNS_ORDER)
  {
    hide AnnSubmitted, Unpaid, OneTowel, HandlePaymentFailure, RollbackPendingBooking, RolledBack, ChecksHold,
      Submitted;
    SubmittedFacts();
    UnpaidIsPending(ANN);
    FailureRollsBack(AnnSubmitted(), ANNS_PAYMENT, Some(ANNS_ORDER));
    RollbackCases(AnnFailed(), ANNS_BOOKING, Some(ANNS_ORDER));
    OnlyPayment();
  }

  lemma OnlyPayment()
    ensures AllFailed(AnnSubmitted().payments - {ANNS_PAYMENT}, ANNS_BOOKING)
  {
    hide TowelBooked;
  }

  lemma FailedFacts()
    ensures var db := AnnFailed();
            && ANNS_PAYMENT in db.payments && db.payments[ANNS_PAYMENT].status == Failed
            && db.payments[ANNS_PAYMENT].eri == ANNS_BOOKING
            && AnswersPending(db.orders, Some(ANNS_ORDER), ANNS_BOOKING)
            && (ANNS_BOOKING, ANN) in db.access
            && ANNS_BOOKING in db.slots && db.slots[ANNS_BOOKING] == [Slot(1, Some(ANN))]
            && db.submissions == map[SlotRef(ANNS_BOOKING, 1) := ANN]
  {
    hide BedOrder, Slots, Unpaid;
    BedHasOneSlot();
  }

  function AnnDeletesSlot(): Call
  {
    DropSlot(ANN, ANNS_BOOKING, 1)
  }

  ghost function SlotDeleted(): Db
  {
    AnnFailed().(submissions := map[], slots := AnnFailed().slots[ANNS_BOOKING := []])
  }

  lemma SlotIsDeleted()
    ensures Perform(AnnFailed(), AnnDeletesSlot()).db == SlotDeleted()
  {
    hide AnnFailed;
    FailedFacts();
    assert map[SlotRef(ANNS_BOOKING, 1) := ANN] - {SlotRef(ANNS_BOOKING, 1)} == map[];
  }

  lemma FailsNoMore(db: Db)
    requires ANNS_PAYMENT in db.payments && db.payments[ANNS_PAYMENT].status == Failed
    requires AnswersPending(db.orders, Some(ANNS_ORDER), db.payments[ANNS_PAYMENT].eri)
    ensures Possible(db, AnnFails()) && Perform(db, AnnFails()) == Reply(db, AlreadyFailed)
  {
    hide HandlePaymentFailure, AnswersPending;
    FailureIsFinal(db, ANNS_PAYMENT, Some(ANNS_ORDER));
  }

  /** Reporting the failure again changes nothing, whether or not the slot is deleted before. */
  lemma NothingFollows()
    ensures Possible(AnnFailed(), AnnFails()) && Perform(AnnFailed(), AnnFails()) == Reply(AnnFailed(), AlreadyFailed)
    ensures Perform(AnnFailed(), AnnDeletesSlot()).db == SlotDeleted()
    ensures !Submitted(SlotDeleted().submissions, ANNS_BOOKING)
    ensures Possible(SlotDeleted(), AnnFails())
    ensures Perform(SlotDeleted(), AnnFails()) == Reply(SlotDeleted(), AlreadyFailed)
  {
    hide AnnFailed, Perform, AnswersPending;
    FailedFacts();
    SlotIsDeleted();
    FailsNoMore(AnnFailed());
    FailsNoMore(SlotDeleted());
  }

  /** Stocking, a booking with a towel, its payment opened, and the documents submitted. */
  function Setup(): seq<Call>
  {
    [StockTowels(), AnnBooksTowel(), AnnOpensPayment(), AnnSubmits()]
  }

  lemma SetupRuns()
    ensures PossibleRun(Open(), Setup()) && SeparatedRun(Open(), Setup())
    ensures After(Open(), Setup()) == AnnSubmitted()
  {
    hide Perform, Possible, Separated, PossibleRun, SeparatedRun, After, Open, Stocked, TowelBooked, AnnPaying,
      AnnSubmitted, StockTowels, AnnBooksTowel, AnnOpensPayment, AnnSubmits;
    StockingIsSeparated();
    TowelIsBooked();
    AnnIsPaying();
    AnnHasSubmitted();
    var states := [Open(), Stocked(), TowelBooked(), AnnPaying(), AnnSubmitted()];
    SeparatedCalls(states, Setup(), 0);
    assert Setup()[0..] == Setup();
  }

  /** The failure aborts in `db`, and is final from then on, the deletion of the slot notwithstanding. */
  ghost predicate StopsForGood(db: Db, failure: Call, deletion: Call)
  {
    && Possible(db, failure) && Perform(db, failure).outcome == Refused(ConstraintViolated)
    && var failed := Perform(db, failure).db;
    && Possible(failed, failure) && Perform(failed, failure) == Reply(failed, AlreadyFailed)
    && Possible(failed, deletion)
    && var deleted := Perform(failed, deletion).db;
    && Possible(deleted, failure) && Perform(deleted, failure) == Reply(deleted, AlreadyFailed)
  }

  /**
   * After four separated calls from empty tables the payment fails: the rollback aborts, the booking stays
   * pending with a towel reserved, and the failure is final even after the submission is deleted.
   */
  lemma SubmissionStopsRollback()
    ensures PossibleRun(Open(), Setup()) && SeparatedRun(Open(), Setup())
    ensures var db := After(Open(), Setup());
            && LastPaymentFails(db, ANNS_PAYMENT, ANNS_ORDER)
            && StopsForGood(db, AnnFails(), AnnDeletesSlot())
            && IsPending(Perform(db, AnnFails()).db, ANNS_BOOKING)
            && TOWEL in Perform(db, AnnFails()).db.inventory
            && Perform(db, AnnFails()).db.inventory[TOWEL].reserved == 1
  {
    SetupRuns();
    RollbackStops();
    NothingFollows();
    SubmittedFacts();
    UnpaidIsPending(ANN);
    hide Perform, PossibleRun, SeparatedRun, After, Open, Setup, AnnSubmitted, Submitted, LastPaymentFails,
      SlotDeleted, Unpaid, OneTowel;
  }
}
