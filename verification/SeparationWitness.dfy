/**
 * Without cart separation the coupling fails in reachable states: a cart filled before the booking is
 * paid is sold by the booking's capture out of another booking's reservation, whose own capture then aborts.
 */
module SeparationWitness {
  import opened Wrappers
  import opened RoomOrders
  import opened Tables
  import opened Operations
  import opened Runs
  import opened Coupling
  import opened Reachable
  import opened Scenario

  const BOBS_CART: OrderId := 2
  const UNUSED: OrderId := 3
  const BOBS_PAYMENT: PaymentId := 6

  // ---------------------------------------------------------------- two bookings, one with a towel

  function BobBooks(): Call
  {
    BookBed(BOB, BOBS_BOOKING, UNUSED, [])
  }

  ghost function BothBooked(): Db
  {
    TowelBooked().(
      bookings := map[ANNS_BOOKING := Unpaid(ANN), BOBS_BOOKING := Unpaid(BOB)],
      access := {(ANNS_BOOKING, ANN), (BOBS_BOOKING, BOB)},
      slots := map[ANNS_BOOKING := Slots(BedOrder().totalGuests, ANN),
                   BOBS_BOOKING := Slots(BedOrder().totalGuests, BOB)])
  }

  lemma BobsBookingIsNew()
    ensures HOTEL in TowelBooked().properties && NewEri(TowelBooked(), BOBS_BOOKING) && UNUSED !in TowelBooked().orders
    ensures ChecksHold(TowelBooked().inventory)
  {
    assert ANNS_BOOKING != BOBS_BOOKING;
  }

  lemma BothAreBooked()
    ensures WithBooking(TowelBooked(), BOB, HOTEL, BedOrder(), BOBS_BOOKING, UNUSED, []) == BothBooked()
  {
    hide BedOrder;
    assert ANNS_BOOKING != BOBS_BOOKING;
  }

  lemma BobIsBooked()
    ensures Possible(TowelBooked(), BobBooks()) && Separated(TowelBooked(), BobBooks())
    ensures Perform(TowelBooked(), BobBooks()).db == BothBooked()
  {
    hide TowelBooked, BothBooked, NewEri, ChecksHold, Perform, Possible, WithBooking;
    BobsBookingIsNew();
    BothAreBooked();
    BedIsBookedAlone(TowelBooked(), BOB, BOBS_BOOKING, UNUSED);
  }

  function AnnOpensPayment(): Call
  {
    PayBooking(ANN, ANNS_BOOKING, 50100, Some(ANNS_ORDER), ANNS_PAYMENT)
  }

  ghost function AnnPaying(): Db
  {
    var db := BothBooked();
    db.(payments := map[ANNS_PAYMENT := Payment(ANNS_BOOKING, ANN, 50100, ForBooking, Created)],
        orders := map[ANNS_ORDER := db.orders[ANNS_ORDER].(payment := Some(ANNS_PAYMENT))])
  }

  lemma AnnIsPaying()
    ensures Possible(BothBooked(), AnnOpensPayment()) && Separated(BothBooked(), AnnOpensPayment())
    ensures Perform(BothBooked(), AnnOpensPayment()).db == AnnPaying()
  {
    hide Unpaid, BedOrder, FreezesOrders;
  }

  function BobOpensPayment(): Call
  {
    PayBooking(BOB, BOBS_BOOKING, 50000, None, BOBS_PAYMENT)
  }

  ghost function BothPaying(): Db
  {
    var db := AnnPaying();
    db.(payments := map[ANNS_PAYMENT := db.payments[ANNS_PAYMENT],
                        BOBS_PAYMENT := Payment(BOBS_BOOKING, BOB, 50000, ForBooking, Created)])
  }

  lemma BobIsPaying()
    ensures Possible(AnnPaying(), BobOpensPayment()) && Separated(AnnPaying(), BobOpensPayment())
    ensures Perform(AnnPaying(), BobOpensPayment()).db == BothPaying()
  {
    hide Unpaid, BedOrder, FreezesOrders;
  }

  // ---------------------------------------------------------------- Bob's cart

  function BobFillsACart(): Call
  {
    AddItem(BOB, BOBS_BOOKING, TOWEL, 1, "B1", false, None, BOBS_CART, 0)
  }

  ghost function WithCart(): Db
  {
    var db := BothPaying();
    db.(orders := map[ANNS_ORDER := db.orders[ANNS_ORDER],
                      BOBS_CART := Order(BOBS_BOOKING, BOB, None, PreArrival, Pending, [OneTowel(0, Some("B1"))])])
  }

  lemma FirstLine()
    ensures AddLine([], 0, TOWEL, 1, 100, "B1") == [OneTowel(0, Some("B1"))]
  {
    assert LinePrice(100, 1) == 100;
  }

  lemma NoCartYet()
    ensures AnswersCart(BothPaying().orders, None, BOBS_BOOKING, BOB) && BOBS_CART !in BothPaying().orders
    ensures HasAccess(BothPaying(), BOB, BOBS_BOOKING) && BothPaying().bookings[BOBS_BOOKING].property == HOTEL
    ensures AddonRefusal(BothPaying(), HOTEL, AddonRequest(TOWEL, 1)).None?
    ensures TOWEL in BothPaying().catalog && BothPaying().catalog[TOWEL].price == 100
  {
    hide BedOrder;
    assert ANNS_BOOKING != BOBS_BOOKING;
  }

  lemma CartAdded()
    ensures BothPaying().(orders := BothPaying().orders[
              BOBS_CART := Order(BOBS_BOOKING, BOB, None, PreArrival, Pending, [OneTowel(0, Some("B1"))])])
            == WithCart()
  {
    hide BothBooked;
  }

  lemma CartIsFilled()
    ensures Possible(BothPaying(), BobFillsACart()) && Separated(BothPaying(), BobFillsACart())
    ensures Perform(BothPaying(), BobFillsACart()).db == WithCart()
  {
    hide BothPaying, WithCart, FreezesOrders, AddLine, AnswersCart, HasAccess, AddonRefusal, OneTowel;
    NoCartYet();
    CartAdded();
    FirstLine();
  }

  function BobPays(): Call
  {
    PaymentCaptured(BOBS_PAYMENT, Some(BOBS_CART))
  }

  function AnnPays(): Call
  {
    PaymentCaptured(ANNS_PAYMENT, Some(ANNS_ORDER))
  }

  /** The tables after Bob's booking was confirmed with his cart in place of a booking order. */
  ghost function AfterBob(): Db
  {
    var db := WithCart();
    db.(bookings := db.bookings[BOBS_BOOKING := Unpaid(BOB).(status := Confirmed)],
        payments := db.payments[BOBS_PAYMENT := db.payments[BOBS_PAYMENT].(status := Captured)],
        orders := db.orders[BOBS_CART := db.orders[BOBS_CART].(status := Paid)],
        inventory := map[TOWEL := Stock(HOTEL, 3, 2, 0, 1, 0, 0)])
  }

  lemma CartFacts()
    ensures var db := WithCart();
            && db.catalog == Stocked().catalog && db.inventory == map[TOWEL := Stock(HOTEL, 3, 2, 1, 0, 0, 0)]
            && BOBS_BOOKING in db.bookings && db.bookings[BOBS_BOOKING] == Unpaid(BOB)
            && BOBS_PAYMENT in db.payments
            && db.payments[BOBS_PAYMENT] == Payment(BOBS_BOOKING, BOB, 50000, ForBooking, Created)
            && BOBS_CART in db.orders
            && db.orders[BOBS_CART] == Order(BOBS_BOOKING, BOB, None, PreArrival, Pending, [OneTowel(0, Some("B1"))])
  {
    hide BedOrder;
    assert ANNS_BOOKING != BOBS_BOOKING;
  }

  lemma BobTakesAnnsTowel()
    ensures Possible(WithCart(), BobPays()) && !Separated(WithCart(), BobPays())
    ensures Perform(WithCart(), BobPays()) == Reply(AfterBob(), BookingConfirmed)
  {
    hide Moved, FreezesOrders, KeepsBorrowed, Unpaid, WithCart, Stocked, OneTowel;
    CartFacts();
    UnpaidIsPending(BOB);
    OneTowelMoves(Stock(HOTEL, 3, 2, 1, 0, 0, 0), Some("B1"), Finalise);
  }

  // ---------------------------------------------------------------- the run

  /** Stocking, two bookings with a payment each, and Bob's cart: all separated. */
  function Setup(): seq<Call>
  {
    [StockTowels(), AnnBooksTowel(), BobBooks(), AnnOpensPayment(), BobOpensPayment(), BobFillsACart()]
  }

  lemma SetupRuns()
    ensures PossibleRun(Open(), Setup()) && SeparatedRun(Open(), Setup()) && After(Open(), Setup()) == WithCart()
  {
    hide Perform, Possible, Separated, PossibleRun, SeparatedRun, After, Open, Stocked, TowelBooked, BothBooked,
      AnnPaying, BothPaying, WithCart, StockTowels, AnnBooksTowel, BobBooks, AnnOpensPayment, BobOpensPayment,
      BobFillsACart;
    StockingIsSeparated();
    TowelIsBooked();
    BobIsBooked();
    AnnIsPaying();
    BobIsPaying();
    CartIsFilled();
    var states := [Open(), Stocked(), TowelBooked(), BothBooked(), AnnPaying(), BothPaying(), WithCart()];
    SeparatedCalls(states, Setup(), 0);
    assert Setup()[0..] == Setup();
  }

  /**
   * From empty tables: six separated calls, then one that is not, after which the counters are not
   * explained by the orders, Bob's cart is paid without any payment, and Ann's own capture aborts.
   */
  lemma SeparationIsNeeded()
    ensures PossibleRun(Open(), Setup()) && SeparatedRun(Open(), Setup())
    ensures PossibleRun(Open(), Setup() + [BobPays()])
    ensures var db := After(Open(), Setup() + [BobPays()]);
            && !Coupled(db) && !Linked(db)
            && Possible(db, AnnPays()) && Perform(db, AnnPays()).outcome == Refused(ConstraintViolated)
  {
    SetupRuns();
    BobTakesAnnsTowel();
    CouplingFails();
    PaidWithoutPayment();
    AnnAborts();
    hide Perform, Possible, Separated, Coupled, Linked, Open, WithCart, AfterBob, Setup;
    RunAfterCall(WithCart(), BobPays(), AfterBob(), []);
    assert [BobPays()] + [] == [BobPays()];
    RunAfterRun(Open(), Setup(), [BobPays()]);
  }

  lemma CouplingFails()
    ensures !Coupled(AfterBob())
  {
    OneTowelUnits(None, TOWEL);
    OpenOrderIsReserved(AfterBob(), ANNS_ORDER, TOWEL);
    assert !OrdersExplain(AfterBob(), TOWEL);
  }

  lemma PaidWithoutPayment()
    ensures !Linked(AfterBob())
  {
    assert !LinkFits(AfterBob().orders[BOBS_CART], AfterBob().payments);
  }

  lemma AfterBobFacts()
    ensures var db := AfterBob();
            && db.catalog == Stocked().catalog && db.inventory == map[TOWEL := Stock(HOTEL, 3, 2, 0, 1, 0, 0)]
            && ANNS_BOOKING in db.bookings && db.bookings[ANNS_BOOKING] == Unpaid(ANN)
            && ANNS_PAYMENT in db.payments
            && db.payments[ANNS_PAYMENT] == Payment(ANNS_BOOKING, ANN, 50100, ForBooking, Created)
            && ANNS_ORDER in db.orders
            && db.orders[ANNS_ORDER]
               == Order(ANNS_BOOKING, ANN, Some(ANNS_PAYMENT), Booking, Pending, [OneTowel(0, None)])
  {
    hide BedOrder;
    assert ANNS_BOOKING != BOBS_BOOKING;
  }

  lemma AnnAborts()
    ensures Possible(AfterBob(), AnnPays())
    ensures Perform(AfterBob(), AnnPays()).outcome == Refused(ConstraintViolated)
  {
    hide Moved, FreezesOrders, KeepsBorrowed, Unpaid, AfterBob, Stocked, OneTowel;
    AfterBobFacts();
    UnpaidIsPending(ANN);
    OneTowelMoves(Stock(HOTEL, 3, 2, 0, 1, 0, 0), None, Finalise);
    assert !(map[TOWEL := Stock(HOTEL, 3, 2, -1, 2, 0, 0)])[TOWEL].NonNegative();
  }
}
