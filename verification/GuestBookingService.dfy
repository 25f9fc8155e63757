/** Booking orders and links, statement by statement. */
module GuestBookingService {
  import opened Wrappers
  import opened RoomOrders
  import opened Tables
  import opened Operations
  import opened Runs
  import opened Database
  import opened Ledger
  import BookingLaws

  /** The order items that the addons become, with their running total, or the first refusal. */
  method ValidateAddonSelections(db: Database, addons: seq<AddonRequest>, property: PropertyId)
    returns (r: Result<(seq<Line>, nat), Refusal>)
    ensures var refusal := AddonsRefusal(db.State(), property, addons, |addons|);
            r == if refusal.Some? then Failure(refusal.value)
                 else Success((AddonLines(db.catalog, addons), LinesTotal(AddonLines(db.catalog, addons))))
  {
    hide LinePrice, AddonRefusal;
    var addonTotal: nat, lines: seq<Line> := 0, [];
    for i := 0 to |addons|
      invariant AddonsRefusal(db.State(), property, addons, i).None?
      invariant |lines| == i
      invariant forall j | 0 <= j < i :: addons[j].product in db.catalog
      invariant forall j | 0 <= j < i :: lines[j] == AddonLine(db.catalog, addons[j], j)
      invariant addonTotal == LinesTotal(lines)
    {
      var p, quantity := addons[i].product, addons[i].quantity;
      var refusal := CheckAddon(db, property, addons[i]);
      if refusal.Some? {
        AddonsRefusalStays(db.State(), property, addons, i + 1);
        return Failure(refusal.value);
      }
      var lineTotal := LinePrice(db.catalog[p].price, quantity);
      var longer := lines + [Line(i, p, quantity, db.catalog[p].price, lineTotal, None)];
      assert longer[..i] == lines;
      addonTotal := addonTotal + lineTotal;
      lines := longer;
    }
    assert lines == AddonLines(db.catalog, addons);
    return Success((lines, addonTotal));
  }

  /** A refusal among the first addons is the refusal of all. */
  lemma {:induction false} AddonsRefusalStays(db: Db, property: PropertyId, addons: seq<AddonRequest>, n: nat)
    requires n <= |addons| && AddonsRefusal(db, property, addons, n).Some?
    ensures AddonsRefusal(db, property, addons, |addons|) == AddonsRefusal(db, property, addons, n)
    decreases |addons| - n
  {
    if n < |addons| {
      AddonsRefusalStays(db, property, addons, n + 1);
    }
  }

  /** Validated addons pass the second check. */
  lemma ValidatedAddonsCovered(db: Db, property: PropertyId, addons: seq<AddonRequest>)
    requires AddonsRefusal(db, property, addons, |addons|).None?
    ensures !SomeLineShort(db.inventory, db.catalog, property, AddonLines(db.catalog, addons))
  {
    forall i | 0 <= i < |addons|
      ensures !LineShort(db.inventory, db.catalog, property, AddonLines(db.catalog, addons)[i])
    {
      assert AddonRefusal(db, property, addons[i]).None?;
    }
  }

  /** The rows of the transaction: booking, access, order if there are addons, slots. */
  method WriteBooking(
    db: Database, guest: GuestId, property: PropertyId, order: RoomOrder, eri: Eri, newOrder: OrderId, lines: seq<Line>)
    modifies db
    ensures db.State() == WithBooking(old(db.State()), guest, property, order, eri, newOrder, lines)
    ensures db.supplied == old(db.supplied)
  {
    db.bookings := db.bookings[eri := BookingRow(
      property, Some(guest), PendingPayment, true, order.totalGuests, StoredRooms(order.rooms), None, None)];
    db.access := db.access + {(eri, guest)};
    if lines != [] {
      db.orders := db.orders[newOrder := Order(eri, guest, None, Booking, Pending, lines)];
    }
    var slots := CreateBookingSlots(order.totalGuests, guest);
    db.slots := db.slots[eri := slots];
  }

  /** The rows of a booking do not depend on the stock they are written beside. */
  lemma BookingAfterReserving(
    db: Db, guest: GuestId, property: PropertyId, order: RoomOrder, eri: Eri, newOrder: OrderId, lines: seq<Line>,
    reserved: Inventory)
    ensures WithBooking(db.(inventory := reserved), guest, property, order, eri, newOrder, lines)
            == WithBooking(db, guest, property, order, eri, newOrder, lines).(inventory := reserved)
  {
  }

  method CreateBookingOrder(
    db: Database, guest: GuestId, request: BookingRequest, offers: seq<RoomOffer>, eri: Eri, newOrder: OrderId)
    returns (outcome: Outcome)
    requires db.Valid()
    requires NewEri(db.State(), eri) && newOrder !in db.orders
    modifies db
    ensures db.Valid()
    ensures db.supplied == old(db.supplied)
    ensures Reply(db.State(), outcome)
         == Operations.CreateBookingOrder(old(db.State()), guest, request, offers, eri, newOrder)
    ensures outcome.Booked? ==>
              && eri in db.bookings && BookingLaws.IsBookedRow(db.bookings[eri], guest, request, offers)
              && eri in db.slots && BookingLaws.AreBookedSlots(db.slots[eri], guest, db.bookings[eri].guests)
              && (eri, guest) in db.access
  {
    hide BookingLaws.IsBookedRow, BookingLaws.AreBookedSlots, Sound, Accounts, FreezesOrders, KeepsBorrowed,
      KeepsReserved, ParseDateRange, ValidSelections, TotalQuantity, IsOrderFor, FirstError, Moved, ChecksHold,
      SomeLineShort, AddonsRefusal, AddonLines, LinesTotal, WithBooking, NewEri;
    ghost var before := db.State();
    SoundChecks(before);
    var nights := ParseDateRange(request.checkin, request.checkout);
    if nights.None? {
      return Refused(BadRequest);
    }
    if request.rooms == [] {
      return Refused(BadRequest);
    }
    if request.property !in db.properties {
      return Refused(NotFound);
    }
    var validated := ValidateRoomSelections(request.rooms, offers, nights.value);
    if validated.Failure? {
      RefusalIsFirstError(validated.error, request.rooms, offers);
      return Refused(if validated.error == UnknownRoom then NotFound else BadRequest);
    }
    var order := validated.value;
    OrderIsUnique(order, request.rooms, offers, nights.value);
    var addons := ValidateAddonSelections(db, request.addons, request.property);
    if addons.Failure? {
      return Refused(addons.error);
    }
    var (lines, addonTotal) := addons.value;
    ValidatedAddonsCovered(db.State(), request.property, request.addons);
    // The transaction locks and checks each row again; as one step nothing ran since validation.
    var short := SomeShort(db.inventory, db.catalog, request.property, lines);
    assert !short;
    var ok := db.MoveLines(lines, request.property, Reserve);
    if !ok {
      assert db.State() == before;
      return Refused(ConstraintViolated);
    }
    BookingAfterReserving(before, guest, request.property, order, eri, newOrder, lines, db.inventory);
    WriteBooking(db, guest, request.property, order, eri, newOrder, lines);
    CallKeeps(before, Book(guest, request, offers, eri, newOrder), db.State(), db.supplied);
    BookingLaws.BookingRow(before, guest, request, offers, eri, newOrder);
    return Booked(order.roomTotal, addonTotal, if lines == [] then None else Some(newOrder));
  }

  /** Missing slots are created, then the guest takes the first free one. */
  method EnsureSlots(db: Database, eri: Eri, guest: GuestId, guests: nat)
    modifies db`slots
    ensures var existing := if eri in old(db.slots) then old(db.slots)[eri] else [];
            var slots := if existing == [] then EmptySlots(guests) else existing;
            db.slots == old(db.slots)[eri := AssignFirst(slots, guest)]
  {
    var slots := if eri in db.slots then db.slots[eri] else [];
    if slots == [] {
      slots := EmptySlots(guests);
    }
    ghost var before := slots;
    var i := 0;
    while i < |slots| && slots[i].guest.Some?
      invariant i <= |slots|
      invariant forall j | 0 <= j < i :: slots[j].guest.Some?
    {
      i := i + 1;
    }
    AssignedAt(slots, guest, i);
    if i < |slots| {
      slots := slots[i := slots[i].(guest := Some(guest))];
    }
    db.slots := db.slots[eri := slots];
  }

  lemma {:induction false} AssignedAt(slots: seq<Slot>, guest: GuestId, i: nat)
    requires i <= |slots| && forall j | 0 <= j < i :: slots[j].guest.Some?
    requires i < |slots| ==> slots[i].guest.None?
    ensures AssignFirst(slots, guest) == if i < |slots| then slots[i := slots[i].(guest := Some(guest))] else slots
  {
    if i > 0 {
      AssignedAt(slots[1..], guest, i - 1);
    }
  }

  method LinkBooking(db: Database, guest: GuestId, eri: Eri) returns (outcome: Outcome)
    requires db.Valid()
    modifies db
    ensures db.Valid()
    ensures db.supplied == old(db.supplied)
    ensures Reply(db.State(), outcome) == Operations.LinkBooking(old(db.State()), guest, eri)
  {
    hide Sound, Accounts, FreezesOrders, KeepsBorrowed, KeepsReserved;
    ghost var before := db.State();
    if eri !in db.bookings {
      return Refused(NotFound);
    }
    var booking := db.bookings[eri];
    if (eri, guest) in db.access {
      EnsureSlots(db, eri, guest, booking.guests);
      assert db.access + {(eri, guest)} == db.access;
      CallKeeps(before, Link(guest, eri), db.State(), db.supplied);
      return Done;
    }
    db.access := db.access + {(eri, guest)};
    EnsureSlots(db, eri, guest, booking.guests);
    CallKeeps(before, Link(guest, eri), db.State(), db.supplied);
    return Done;
  }
}
