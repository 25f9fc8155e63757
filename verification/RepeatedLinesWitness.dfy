/** A paid cart whose two lines of one product are each covered by the stock but not together. */
module RepeatedLinesWitness {
  import opened Wrappers
  import opened RoomOrders
  import opened Tables
  import opened Operations
  import opened Runs
  import opened Scenario

  const CART: OrderId := 1
  const UNUSED: OrderId := 2
  const PAYMENT: PaymentId := 5

  function Books(): Call
  {
    BookBed(ANN, ANNS_BOOKING, UNUSED, [])
  }

  ghost function AnnBooked(): Db
  {
    Stocked().(
      bookings := map[ANNS_BOOKING := Unpaid(ANN)],
      access := {(ANNS_BOOKING, ANN)},
      slots := map[ANNS_BOOKING := Slots(BedOrder().totalGuests, ANN)])
  }

  lemma AnnIsBooked()
    ensures Possible(Stocked(), Books()) && Perform(Stocked(), Books()).db == AnnBooked()
  {
    BookedTables();
    hide Stocked, AnnBooked, NewEri, ChecksHold, Perform, Possible, WithBooking, BedOrder;
    BedIsBookedAlone(Stocked(), ANN, ANNS_BOOKING, UNUSED);
  }

  lemma BookedTables()
    ensures HOTEL in Stocked().properties && NewEri(Stocked(), ANNS_BOOKING) && UNUSED !in Stocked().orders
    ensures ChecksHold(Stocked().inventory)
    ensures WithBooking(Stocked(), ANN, HOTEL, BedOrder(), ANNS_BOOKING, UNUSED, []) == AnnBooked()
  {
    hide BedOrder;
  }

  function TwoTowels(id: nat, bed: string): Line
  {
    Line(id, TOWEL, 2, 100, 200, Some(bed))
  }

  function Adds(id: nat, bed: string, first: Option<OrderId>): Call
  {
    AddItem(ANN, ANNS_BOOKING, TOWEL, 2, bed, false, first, if first.None? then CART else UNUSED, id)
  }

  /** Ann's open cart with these lines. */
  ghost function WithCart(lines: seq<Line>): Db
  {
    AnnBooked().(orders := map[CART := Order(ANNS_BOOKING, ANN, None, PreArrival, Pending, lines)])
  }

  lemma FirstBed()
    ensures Possible(AnnBooked(), Adds(0, "A", None))
    ensures Perform(AnnBooked(), Adds(0, "A", None)).db == WithCart([TwoTowels(0, "A")])
  {
    hide Unpaid, BedOrder, FreezesOrders;
    UnpaidIsPending(ANN);
    assert LinePrice(100, 2) == 200;
    assert [] + [TwoTowels(0, "A")] == [TwoTowels(0, "A")];
    assert AnswersCart(AnnBooked().orders, None, ANNS_BOOKING, ANN);
  }

  lemma SecondBedIsOther()
    ensures AddLine([TwoTowels(0, "A")], 1, TOWEL, 2, 100, "B") == [TwoTowels(0, "A"), TwoTowels(1, "B")]
  {
    var lines := [TwoTowels(0, "A")];
    assert "A"[0] != "B"[0];
    assert SameItem(lines[1..], TOWEL, "B") == 0;
    assert LinePrice(100, 2) == 200;
  }

  lemma SecondBed()
    ensures var db := WithCart([TwoTowels(0, "A")]);
            && Possible(db, Adds(1, "B", Some(CART)))
            && Perform(db, Adds(1, "B", Some(CART))).db == WithCart([TwoTowels(0, "A"), TwoTowels(1, "B")])
  {
    hide Unpaid, BedOrder, FreezesOrders, AddLine;
    UnpaidIsPending(ANN);
    SecondBedIsOther();
  }

  function Pays(): Call
  {
    PayCart(ANN, ANNS_BOOKING, Some(CART), PAYMENT)
  }

  function Lines(): seq<Line>
  {
    [TwoTowels(0, "A"), TwoTowels(1, "B")]
  }

  ghost function Paying(): Db
  {
    WithCart(Lines()).(
      orders := map[CART := Order(ANNS_BOOKING, ANN, Some(PAYMENT), PreArrival, Pending, Lines())],
      payments := map[PAYMENT := Payment(ANNS_BOOKING, ANN, 400, ForAddons, Created)])
  }

  lemma EachLineIsCovered(inventory: Inventory, catalog: Catalog)
    requires inventory == Stocked().inventory && catalog == Stocked().catalog
    ensures !SomeLineShort(inventory, catalog, HOTEL, Lines()) && LinesTotal(Lines()) == 400
  {
    assert Lines()[..1] == [TwoTowels(0, "A")] && Lines()[..1][..0] == [];
  }

  lemma CheckoutIsAccepted()
    ensures Possible(WithCart(Lines()), Pays())
    ensures Perform(WithCart(Lines()), Pays()) == Reply(Paying(), PaymentOpened(400))
  {
    hide Unpaid, BedOrder, FreezesOrders, SomeLineShort, LinesTotal;
    UnpaidIsPending(ANN);
    EachLineIsCovered(WithCart(Lines()).inventory, WithCart(Lines()).catalog);
  }

  lemma TogetherTheyExceed()
    ensures !ChecksHold(Moved(Stocked().inventory, Stocked().catalog, HOTEL, Lines(), Sell))
  {
    assert Lines()[..1] == [TwoTowels(0, "A")] && Lines()[..1][..0] == [];
    assert Units(Lines(), TOWEL) == 4;
    assert !Moved(Stocked().inventory, Stocked().catalog, HOTEL, Lines(), Sell)[TOWEL].NonNegative();
  }

  lemma CaptureAborts()
    ensures Possible(Paying(), PaymentCaptured(PAYMENT, Some(CART)))
    ensures Perform(Paying(), PaymentCaptured(PAYMENT, Some(CART))) == Reply(Paying(), Refused(ConstraintViolated))
  {
    hide Unpaid, BedOrder, FreezesOrders, SomeLineShort, Moved, ChecksHold, Lines, KeepsBorrowed, KeepsReserved;
    UnpaidIsPending(ANN);
    EachLineIsCovered(Paying().inventory, Paying().catalog);
    TogetherTheyExceed();
  }

  function Shopping(): seq<Call>
  {
    [StockTowels(), Books(), Adds(0, "A", None), Adds(1, "B", Some(CART)), Pays()]
  }

  lemma ShoppingRuns()
    ensures PossibleRun(Open(), Shopping()) && After(Open(), Shopping()) == Paying()
  {
    hide Perform, Possible, PossibleRun, After, Open, Stocked, AnnBooked, WithCart, Paying, StockTowels, Books, Adds,
      Pays;
    TowelsAreStocked();
    AnnIsBooked();
    FirstBed();
    SecondBed();
    CheckoutIsAccepted();
    var states := [Open(), Stocked(), AnnBooked(), WithCart([TwoTowels(0, "A")]), WithCart(Lines()), Paying()];
    RunThrough(states, Shopping(), 0);
    assert Shopping()[0..] == Shopping();
  }

  /**
   * From empty tables: Ann books, puts two towels for each of two beds into her cart out of three in stock,
   * and opens the payment, every step accepted. Its capture aborts and changes nothing: the money is
   * taken, the payment neither captured nor marked for refund.
   */
  lemma RepeatedLinesAbort()
    ensures PossibleRun(Open(), Shopping())
    ensures var db := After(Open(), Shopping());
            && Possible(db, PaymentCaptured(PAYMENT, Some(CART)))
            && Perform(db, PaymentCaptured(PAYMENT, Some(CART))) == Reply(db, Refused(ConstraintViolated))
            && PAYMENT in db.payments && db.payments[PAYMENT].status == Created
  {
    hide Perform, Possible, PossibleRun, After;
    ShoppingRuns();
    CaptureAborts();
  }
}
