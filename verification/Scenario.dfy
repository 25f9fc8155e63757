/** The first calls of the example runs: a hotel with three towels takes bookings of one bed. */
module Scenario {
  import opened Wrappers
  import opened RoomOrders
  import opened Tables
  import opened Operations
  import opened Runs
  import opened Coupling

  const TOWEL: ProductId := 7
  const HOTEL: PropertyId := 1
  const ANN: GuestId := 1
  const BOB: GuestId := 2
  const ANNS_BOOKING: Eri := "TDS-A"
  const ANNS_ORDER: OrderId := 1
  const ANNS_PAYMENT: PaymentId := 5
  const BOBS_BOOKING: Eri := "TDS-B"

  const BED := [Selection("dorm", 1, None)]
  const OFFERS := [RoomOffer("dorm", "Dorm", 4, 50000, None, None, None)]

  ghost function Open(): Db
  {
    Empty({HOTEL}, {ANN, BOB})
  }

  function StockTowels(): Call
  {
    NewProduct(TOWEL, HOTEL, Commodity, 100, 3)
  }

  ghost function Stocked(): Db
  {
    Open().(catalog := map[TOWEL := Product(HOTEL, Commodity, 100, true)],
            inventory := map[TOWEL := Stock(HOTEL, 3, 3, 0, 0, 0, 0)])
  }

  lemma TowelsAreStocked()
    ensures Possible(Open(), StockTowels()) && Perform(Open(), StockTowels()).db == Stocked()
  {
  }

  function OneTowel(id: nat, unit: Option<string>): Line
  {
    Line(id, TOWEL, 1, 100, 100, unit)
  }

  function BookBed(guest: GuestId, eri: Eri, newOrder: OrderId, addons: seq<AddonRequest>): Call
  {
    Book(guest, BookingRequest(HOTEL, 0, DAY, BED, addons), OFFERS, eri, newOrder)
  }

  lemma BedIsAccepted()
    ensures Accepted(BED, OFFERS) && ParseDateRange(0, DAY) == Some(1)
  {
    assert TotalQuantity(BED, 1) == 1;
    assert SelectionError(BED[0], OFFERS).None?;
  }

  ghost function BedOrder(): RoomOrder
  {
    BedIsAccepted();
    OrderFor(BED, OFFERS, 1)
  }

  /** The tables after a bed is booked with these addon lines. */
  ghost function AfterBooking(db: Db, guest: GuestId, eri: Eri, newOrder: OrderId, lines: seq<Line>): Db
  {
    WithBooking(db, guest, HOTEL, BedOrder(), eri, newOrder, lines).(
      inventory := Moved(db.inventory, db.catalog, HOTEL, lines, Reserve))
  }

  lemma BedIsBooked(
    db: Db, guest: GuestId, eri: Eri, newOrder: OrderId, addons: seq<AddonRequest>, lines: seq<Line>)
    requires HOTEL in db.properties && NewEri(db, eri) && newOrder !in db.orders
    requires AddonsRefusal(db, HOTEL, addons, |addons|).None?
    requires lines == AddonLines(db.catalog, addons)
    requires ChecksHold(Moved(db.inventory, db.catalog, HOTEL, lines, Reserve))
    ensures Possible(db, BookBed(guest, eri, newOrder, addons))
    ensures Perform(db, BookBed(guest, eri, newOrder, addons)).db == AfterBooking(db, guest, eri, newOrder, lines)
  {
    BedIsAccepted();
    hide Accepted, ParseDateRange, OrderFor, NewEri, Moved, ChecksHold, AddonsRefusal, AddonLines, WithBooking,
      LinesTotal, FreezesOrders, KeepsBorrowed;
  }

  lemma BedIsBookedAlone(db: Db, guest: GuestId, eri: Eri, newOrder: OrderId)
    requires HOTEL in db.properties && NewEri(db, eri) && newOrder !in db.orders && ChecksHold(db.inventory)
    ensures Possible(db, BookBed(guest, eri, newOrder, []))
    ensures Perform(db, BookBed(guest, eri, newOrder, [])).db
            == WithBooking(db, guest, HOTEL, BedOrder(), eri, newOrder, [])
  {
    hide NewEri, BedOrder, WithBooking;
    assert AddonLines(db.catalog, []) == [];
    assert Moved(db.inventory, db.catalog, HOTEL, [], Reserve) == db.inventory;
    assert WithBooking(db, guest, HOTEL, BedOrder(), eri, newOrder, []).(inventory := db.inventory)
        == WithBooking(db, guest, HOTEL, BedOrder(), eri, newOrder, []) by {
      SameInventory(db, guest, eri, newOrder);
    }
    BedIsBooked(db, guest, eri, newOrder, [], []);
  }

  lemma SameInventory(db: Db, guest: GuestId, eri: Eri, newOrder: OrderId)
    ensures var booked := WithBooking(db, guest, HOTEL, BedOrder(), eri, newOrder, []);
            booked.(inventory := db.inventory) == booked
  {
  }

  /** The row that booking a bed writes. */
  ghost function Unpaid(guest: GuestId): BookingRow
  {
    BookingRow(HOTEL, Some(guest), PendingPayment, true, BedOrder().totalGuests, StoredRooms(BedOrder().rooms),
               None, None)
  }

  lemma UnpaidIsPending(guest: GuestId)
    ensures Unpaid(guest).status == PendingPayment && Unpaid(guest).property == HOTEL
  {
  }

  lemma StockingIsSeparated()
    ensures Possible(Open(), StockTowels()) && Separated(Open(), StockTowels())
    ensures Perform(Open(), StockTowels()).db == Stocked()
  {
    TowelsAreStocked();
  }

  // ---------------------------------------------------------------- a booking with a towel

  function AnnBooksTowel(): Call
  {
    BookBed(ANN, ANNS_BOOKING, ANNS_ORDER, [AddonRequest(TOWEL, 1)])
  }

  ghost function TowelBooked(): Db
  {
    Stocked().(
      bookings := map[ANNS_BOOKING := Unpaid(ANN)],
      access := {(ANNS_BOOKING, ANN)},
      slots := map[ANNS_BOOKING := Slots(BedOrder().totalGuests, ANN)],
      orders := map[ANNS_ORDER := Order(ANNS_BOOKING, ANN, None, Booking, Pending, [OneTowel(0, None)])],
      inventory := map[TOWEL := Stock(HOTEL, 3, 2, 1, 0, 0, 0)])
  }

  lemma OneTowelUnits(unit: Option<string>, p: ProductId)
    ensures Units([OneTowel(0, unit)], p) == if p == TOWEL then 1 else 0
  {
    assert [OneTowel(0, unit)][..0] == [];
  }

  /** A towel moving between counters. */
  lemma OneTowelMoves(s: Stock, unit: Option<string>, m: Movement)
    requires s.property == HOTEL
    ensures Moved(map[TOWEL := s], Stocked().catalog, HOTEL, [OneTowel(0, unit)], m) == map[TOWEL := s.Move(m, 1)]
  {
    OneTowelUnits(unit, TOWEL);
  }

  lemma TowelIsOffered()
    ensures AddonsRefusal(Stocked(), HOTEL, [AddonRequest(TOWEL, 1)], 1).None?
    ensures AddonLines(Stocked().catalog, [AddonRequest(TOWEL, 1)]) == [OneTowel(0, None)]
  {
    assert AddonsRefusal(Stocked(), HOTEL, [AddonRequest(TOWEL, 1)], 0).None?;
    assert LinePrice(100, 1) == 100;
  }

  lemma TowelIsBooked()
    ensures Possible(Stocked(), AnnBooksTowel()) && Separated(Stocked(), AnnBooksTowel())
    ensures Perform(Stocked(), AnnBooksTowel()).db == TowelBooked()
  {
    TowelIsOffered();
    OneTowelMoves(Stock(HOTEL, 3, 3, 0, 0, 0, 0), None, Reserve);
    assert NewEri(Stocked(), ANNS_BOOKING);
    assert AfterBooking(Stocked(), ANN, ANNS_BOOKING, ANNS_ORDER, [OneTowel(0, None)]) == TowelBooked() by {
      hide BedOrder, Moved;
    }
    hide AfterBooking, Stocked, TowelBooked, AddonsRefusal, AddonLines, NewEri, Perform, Possible;
    BedIsBooked(Stocked(), ANN, ANNS_BOOKING, ANNS_ORDER, [AddonRequest(TOWEL, 1)], [OneTowel(0, None)]);
  }
}
