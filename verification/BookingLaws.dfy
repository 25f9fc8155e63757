/**
 * When a booking order is accepted, which rows it writes, and what of them reaches eZee: the guest count, the
 * slots, the stored rooms and the beds of one booking agree with what was asked for.
 */
module BookingLaws {
  import opened Wrappers
  import opened RoomOrders
  import opened Tables
  import opened Operations
  import opened CartLaws

  // ---------------------------------------------------------------- what may be booked

  lemma QuantitiesAdd(rooms: seq<Selection>, n: nat)
    ensures TotalQuantity(rooms, 0) == 0
    ensures n < |rooms| ==> TotalQuantity(rooms, n + 1) == TotalQuantity(rooms, n) + rooms[n].quantity
  {
  }

  /** Offer `k` is the first with the wanted id. */
  ghost predicate IsOfferOf(offers: seq<RoomOffer>, id: string, k: nat)
  {
    k < |offers| && offers[k].id == id && forall j | 0 <= j < k :: offers[j].id != id
  }

  lemma {:induction false} FoundOffer(offers: seq<RoomOffer>, id: string) returns (k: nat)
    ensures if FindOffer(offers, id).Some? then IsOfferOf(offers, id, k) && FindOffer(offers, id) == Some(offers[k])
            else forall j | 0 <= j < |offers| :: offers[j].id != id
  {
    k := 0;
    if offers != [] && offers[0].id != id {
      var rest := FoundOffer(offers[1..], id);
      k := rest + 1;
      assert forall j | 0 < j < |offers| :: offers[j] == offers[1..][j - 1];
    }
  }

  /** Enough beds, and a name for each bed if there are names. */
  ghost predicate Covers(offer: RoomOffer, s: Selection)
  {
    s.quantity <= offer.availableBeds && (s.guests.Some? ==> |s.guests.value| == s.quantity)
  }

  ghost predicate IsBookable(s: Selection, offers: seq<RoomOffer>)
  {
    exists k: nat :: IsOfferOf(offers, s.roomType, k) && Covers(offers[k], s)
  }

  lemma OfferIsUnique(offers: seq<RoomOffer>, id: string, j: nat, k: nat)
    requires IsOfferOf(offers, id, j) && IsOfferOf(offers, id, k)
    ensures j == k
  {
  }

  lemma BookableExactly(s: Selection, offers: seq<RoomOffer>)
    ensures SelectionError(s, offers).None? <==> IsBookable(s, offers)
    ensures SelectionError(s, offers) == Some(UnknownRoom)
            <==> forall j | 0 <= j < |offers| :: offers[j].id != s.roomType
  {
    var k := FoundOffer(offers, s.roomType);
    hide FindOffer;
    if IsOfferOf(offers, s.roomType, k) {
      forall j: nat | IsOfferOf(offers, s.roomType, j)
        ensures j == k
      {
        OfferIsUnique(offers, s.roomType, j, k);
      }
    }
  }

  /** At most six beds in all, each selection bookable. */
  lemma SelectionsExactly(rooms: seq<Selection>, offers: seq<RoomOffer>)
    ensures Accepted(rooms, offers)
            <==> TotalQuantity(rooms, |rooms|) <= 6 && forall i | 0 <= i < |rooms| :: IsBookable(rooms[i], offers)
  {
    hide SelectionError, IsBookable;
    forall i | 0 <= i < |rooms|
      ensures SelectionError(rooms[i], offers).None? <==> IsBookable(rooms[i], offers)
    {
      BookableExactly(rooms[i], offers);
    }
  }

  ghost predicate AllOrderable(db: Db, property: PropertyId, addons: seq<AddonRequest>)
  {
    forall i | 0 <= i < |addons| :: Orderable(db, property, addons[i].product, addons[i].quantity)
  }

  /** The first addon that may not be ordered decides. */
  ghost predicate IsFirstBad(db: Db, property: PropertyId, addons: seq<AddonRequest>, i: nat, why: Refusal)
  {
    && i < |addons| && !Orderable(db, property, addons[i].product, addons[i].quantity)
    && (forall j | 0 <= j < i :: Orderable(db, property, addons[j].product, addons[j].quantity))
    && why == if OnSale(db, property, addons[i].product) then BadRequest else NotFound
  }

  lemma {:induction false} AddonsExactly(db: Db, property: PropertyId, addons: seq<AddonRequest>, n: nat)
    requires n <= |addons|
    ensures AddonsRefusal(db, property, addons, n).None?
            <==> forall i | 0 <= i < n :: Orderable(db, property, addons[i].product, addons[i].quantity)
    ensures AddonsRefusal(db, property, addons, n).Some? ==>
              exists i: nat :: IsFirstBad(db, property, addons, i, AddonsRefusal(db, property, addons, n).value)
  {
    hide Orderable, AddonRefusal, OnSale;
    if n > 0 {
      AddonsExactly(db, property, addons, n - 1);
      AddonExactly(db, property, addons[n - 1].product, addons[n - 1].quantity);
      assert addons[n - 1] == AddonRequest(addons[n - 1].product, addons[n - 1].quantity);
      if AddonsRefusal(db, property, addons, n - 1).None? && AddonsRefusal(db, property, addons, n).Some? {
        assert IsFirstBad(db, property, addons, n - 1, AddonsRefusal(db, property, addons, n).value);
      }
    }
  }

  /** The first selection that is not bookable decides, unless there are too many beds. */
  ghost predicate IsFirstUnbookable(rooms: seq<Selection>, offers: seq<RoomOffer>, i: nat, why: Refusal)
  {
    && i < |rooms| && !IsBookable(rooms[i], offers) && (forall j | 0 <= j < i :: IsBookable(rooms[j], offers))
    && why == if forall j | 0 <= j < |offers| :: offers[j].id != rooms[i].roomType then NotFound else BadRequest
  }

  lemma {:induction false} FirstUnbookable(rooms: seq<Selection>, offers: seq<RoomOffer>) returns (i: nat)
    requires exists j | 0 <= j < |rooms| :: !IsBookable(rooms[j], offers)
    ensures IsFirstUnbookable(
              rooms, offers, i, if FirstSelectionError(rooms, offers) == UnknownRoom then NotFound else BadRequest)
  {
    hide SelectionError, IsBookable;
    BookableExactly(rooms[0], offers);
    if !IsBookable(rooms[0], offers) {
      i := 0;
    } else {
      assert exists j | 0 <= j < |rooms[1..]| :: !IsBookable(rooms[1..][j], offers) by {
        var j :| 0 <= j < |rooms| && !IsBookable(rooms[j], offers);
        assert rooms[1..][j - 1] == rooms[j];
      }
      var rest := FirstUnbookable(rooms[1..], offers);
      i := rest + 1;
      assert forall j | 0 < j < |rooms| :: rooms[j] == rooms[1..][j - 1];
    }
  }

  /** Units of a product over all addons. */
  ghost function AskedUnits(addons: seq<AddonRequest>, p: ProductId): nat
  {
    if addons == [] then 0
    else
      var last := addons[|addons| - 1];
      AskedUnits(addons[..|addons| - 1], p) + if last.product == p then last.quantity else 0
  }

  lemma {:induction false} LinesCarryAskedUnits(catalog: Catalog, addons: seq<AddonRequest>, p: ProductId)
    requires forall i | 0 <= i < |addons| :: addons[i].product in catalog
    ensures Units(AddonLines(catalog, addons), p) == AskedUnits(addons, p)
  {
    hide LinePrice;
    var lines := AddonLines(catalog, addons);
    if addons != [] {
      var n := |addons| - 1;
      LinesCarryAskedUnits(catalog, addons[..n], p);
      assert lines[..n] == AddonLines(catalog, addons[..n]);
    }
  }

  /** No product's addons together ask for more than is available at the property. */
  ghost predicate StockCovers(db: Db, property: PropertyId, addons: seq<AddonRequest>)
  {
    forall p | p in db.inventory && p in db.catalog && db.catalog[p].category == Commodity
               && db.inventory[p].property == property ::
      AskedUnits(addons, p) <= db.inventory[p].available
  }

  lemma ReserveExactly(db: Db, property: PropertyId, addons: seq<AddonRequest>)
    requires forall i | 0 <= i < |addons| :: addons[i].product in db.catalog
    requires ChecksHold(db.inventory)
    ensures ChecksHold(Moved(db.inventory, db.catalog, property, AddonLines(db.catalog, addons), Reserve))
            <==> StockCovers(db, property, addons)
  {
    var lines := AddonLines(db.catalog, addons);
    var moved := Moved(db.inventory, db.catalog, property, lines, Reserve);
    hide AddonLines, AskedUnits, Units;
    forall p | p in db.inventory
      ensures moved[p].NonNegative() <==>
              (IsCommodity(db.catalog, p) && db.inventory[p].property == property ==>
                 AskedUnits(addons, p) <= db.inventory[p].available)
    {
      assert db.inventory[p].NonNegative();
      LinesCarryAskedUnits(db.catalog, addons, p);
    }
  }

  /** A stay of at least one night in some rooms of a known property. */
  ghost predicate IsStay(db: Db, request: BookingRequest)
  {
    request.checkin < request.checkout && request.rooms != [] && request.property in db.properties
  }

  /**
   * A booking order is accepted exactly for a stay of at most six beds on offer, with addons that may be ordered
   * and that the stock covers together; otherwise nothing is written.
   */
  lemma BookingExactly(
    db: Db, guest: GuestId, request: BookingRequest, offers: seq<RoomOffer>, eri: Eri, newOrder: OrderId)
    requires ChecksHold(db.inventory)
    ensures var r := CreateBookingOrder(db, guest, request, offers, eri, newOrder);
            && (r.outcome.Booked? <==>
                 && IsStay(db, request)
                 && TotalQuantity(request.rooms, |request.rooms|) <= 6
                 && (forall i | 0 <= i < |request.rooms| :: IsBookable(request.rooms[i], offers))
                 && AllOrderable(db, request.property, request.addons)
                 && StockCovers(db, request.property, request.addons))
            && (!r.outcome.Booked? ==> r.db == db && r.outcome.Refused?)
  {
    SelectionsExactly(request.rooms, offers);
    AddonsExactly(db, request.property, request.addons, |request.addons|);
    if AddonsRefusal(db, request.property, request.addons, |request.addons|).None? {
      forall i | 0 <= i < |request.addons|
        ensures request.addons[i].product in db.catalog
      {
        assert AddonRefusal(db, request.property, request.addons[i]).None?;
      }
      ReserveExactly(db, request.property, request.addons);
    }
    hide Accepted, IsBookable, ChecksHold, StockCovers, Orderable, OnSale, AddonsRefusal, AddonLines, Moved,
      WithBooking, OrderFor, LinesTotal, TotalQuantity, FreezesOrders, KeepsBorrowed, FirstError, CeilDiv, IsFirstBad;
  }

  /** Why a booking order is refused: dates and rooms, the property, the beds, the addons, the stock, in this order. */
  lemma BookingRefusalExactly(
    db: Db, guest: GuestId, request: BookingRequest, offers: seq<RoomOffer>, eri: Eri, newOrder: OrderId)
    requires CreateBookingOrder(db, guest, request, offers, eri, newOrder).outcome.Refused?
    ensures var why := CreateBookingOrder(db, guest, request, offers, eri, newOrder).outcome.why;
            if request.checkin >= request.checkout || request.rooms == [] then why == BadRequest
            else if request.property !in db.properties then why == NotFound
            else if TotalQuantity(request.rooms, |request.rooms|) > 6 then why == BadRequest
            else if exists i | 0 <= i < |request.rooms| :: !IsBookable(request.rooms[i], offers) then
              exists i: nat :: IsFirstUnbookable(request.rooms, offers, i, why)
            else if !AllOrderable(db, request.property, request.addons) then
              exists i: nat :: IsFirstBad(db, request.property, request.addons, i, why)
            else why == ConstraintViolated
  {
    SelectionsExactly(request.rooms, offers);
    AddonsExactly(db, request.property, request.addons, |request.addons|);
    hide IsBookable, ChecksHold, Orderable, OnSale, AddonsRefusal, AddonLines, Moved, WithBooking, OrderFor, LinesTotal,
      TotalQuantity, FreezesOrders, KeepsBorrowed, CeilDiv, IsFirstBad, IsFirstUnbookable, FirstSelectionError,
      ValidSelections;
    if exists i | 0 <= i < |request.rooms| :: !IsBookable(request.rooms[i], offers) {
      var i := FirstUnbookable(request.rooms, offers);
    }
  }

  // ---------------------------------------------------------------- the rows of a booking

  /** The stored room of a selection: what was asked for, at the offer's rate and with its eZee ids. */
  ghost predicate IsStoredFor(room: BookedRoom, s: Selection, offers: seq<RoomOffer>)
  {
    exists k: nat ::
      && IsOfferOf(offers, s.roomType, k)
      && room.roomType == s.roomType && room.quantity == s.quantity && room.guests == s.guests
      && room.pricePerNight == offers[k].pricePerNight
      && room.ezeeRoomType == offers[k].ezeeRoomType && room.ezeeRatePlan == offers[k].ezeeRatePlan
      && room.ezeeRateType == offers[k].ezeeRateType
  }

  /** The new booking: pending, active, the booker's, with one guest for each bed and every selection stored. */
  ghost predicate IsBookedRow(
    row: BookingRow, guest: GuestId, request: BookingRequest, offers: seq<RoomOffer>)
  {
    && row.property == request.property && row.guest == Some(guest)
    && row.status == PendingPayment && row.active && row.reservationNo.None? && row.room.None?
    && row.guests == TotalQuantity(request.rooms, |request.rooms|)
    && |row.rooms| == |request.rooms|
    && forall i | 0 <= i < |request.rooms| :: IsStoredFor(row.rooms[i], request.rooms[i], offers)
  }

  /** One slot for each bed, numbered from one, the booker in the first and the others free. */
  ghost predicate AreBookedSlots(slots: seq<Slot>, guest: GuestId, beds: nat)
  {
    && |slots| == beds
    && forall i | 0 <= i < beds ::
         slots[i].number == i + 1 && slots[i].guest == if i == 0 then Some(guest) else None
  }

  /** One line for each addon, charged at the product's price. */
  ghost predicate AreAddonLines(lines: seq<Line>, catalog: Catalog, addons: seq<AddonRequest>)
  {
    && |lines| == |addons|
    && forall i | 0 <= i < |addons| ::
         && addons[i].product in catalog
         && lines[i].product == addons[i].product && lines[i].quantity == addons[i].quantity
         && lines[i].unitPrice == catalog[addons[i].product].price
         && lines[i].totalPrice == catalog[addons[i].product].price * addons[i].quantity
         && lines[i].id == i && lines[i].unitCode.None?
  }

  lemma AddonLinesAre(catalog: Catalog, addons: seq<AddonRequest>)
    requires forall i | 0 <= i < |addons| :: addons[i].product in catalog
    ensures AreAddonLines(AddonLines(catalog, addons), catalog, addons)
  {
  }

  lemma StoredAre(order: RoomOrder, rooms: seq<Selection>, offers: seq<RoomOffer>, nights: nat)
    requires IsOrderFor(order, rooms, offers, nights)
    ensures |StoredRooms(order.rooms)| == |rooms|
    ensures forall i | 0 <= i < |rooms| :: IsStoredFor(StoredRooms(order.rooms)[i], rooms[i], offers)
  {
    forall i | 0 <= i < |rooms|
      ensures IsStoredFor(StoredRooms(order.rooms)[i], rooms[i], offers)
    {
      var k := FoundOffer(offers, rooms[i].roomType);
      assert IsValidation(order.rooms[i], rooms[i], offers, nights);
      assert IsOfferOf(offers, rooms[i].roomType, k);
    }
  }

  /** The rows written for the booking itself. */
  lemma BookingRow(
    db: Db, guest: GuestId, request: BookingRequest, offers: seq<RoomOffer>, eri: Eri, newOrder: OrderId)
    requires CreateBookingOrder(db, guest, request, offers, eri, newOrder).outcome.Booked?
    ensures var after := CreateBookingOrder(db, guest, request, offers, eri, newOrder).db;
            && eri in after.bookings && after.bookings == db.bookings[eri := after.bookings[eri]]
            && IsBookedRow(after.bookings[eri], guest, request, offers)
            && eri in after.slots && after.slots == db.slots[eri := after.slots[eri]]
            && AreBookedSlots(after.slots[eri], guest, after.bookings[eri].guests)
            && after.access == db.access + {(eri, guest)}
  {
    hide AddonsRefusal, AddonLines, Moved, ChecksHold, LinesTotal, FreezesOrders, KeepsBorrowed, ParseDateRange,
      Accepted, IsStoredFor, StoredRooms, Slots;
    var nights := ParseDateRange(request.checkin, request.checkout).value;
    var order := OrderFor(request.rooms, offers, nights);
    StoredAre(order, request.rooms, offers, nights);
    hide OrderFor;
    SlotsAre(order.totalGuests, guest);
  }

  lemma SlotsAre(n: nat, guest: GuestId)
    ensures AreBookedSlots(Slots(n, guest), guest, n)
  {
  }

  /** The order of the addons. */
  lemma BookingOrder(
    db: Db, guest: GuestId, request: BookingRequest, offers: seq<RoomOffer>, eri: Eri, newOrder: OrderId)
    requires CreateBookingOrder(db, guest, request, offers, eri, newOrder).outcome.Booked?
    ensures var r := CreateBookingOrder(db, guest, request, offers, eri, newOrder);
            && (request.addons == [] ==>
                 r.db.orders == db.orders && r.outcome.addonOrder.None? && r.outcome.addonTotal == 0)
            && (request.addons != [] ==>
                 && r.outcome.addonOrder == Some(newOrder)
                 && newOrder in r.db.orders && r.db.orders == db.orders[newOrder := r.db.orders[newOrder]]
                 && r.db.orders[newOrder].eri == eri && r.db.orders[newOrder].guest == guest
                 && r.db.orders[newOrder].phase == Booking && r.db.orders[newOrder].status == Pending
                 && r.db.orders[newOrder].payment.None?
                 && AreAddonLines(r.db.orders[newOrder].lines, db.catalog, request.addons)
                 && r.outcome.addonTotal == LinesTotal(r.db.orders[newOrder].lines))
  {
    AddonsExactly(db, request.property, request.addons, |request.addons|);
    OrderableIsKnown(db, request.property, request.addons);
    AddonLinesAre(db.catalog, request.addons);
    hide ParseDateRange, Accepted, RoomRefusal, StoredRooms, Slots, OrderFor, Moved, ChecksHold, FreezesOrders,
      KeepsBorrowed, AddonsRefusal, Orderable, AddonLines, AreAddonLines, IsFirstBad;
  }

  /** The stock that the addons reserve. */
  lemma BookingStock(
    db: Db, guest: GuestId, request: BookingRequest, offers: seq<RoomOffer>, eri: Eri, newOrder: OrderId, p: ProductId)
    requires CreateBookingOrder(db, guest, request, offers, eri, newOrder).outcome.Booked?
    ensures var after := CreateBookingOrder(db, guest, request, offers, eri, newOrder).db.inventory;
            && after.Keys == db.inventory.Keys
            && (p in db.inventory ==>
                 var q := if p in db.catalog && db.catalog[p].category == Commodity
                             && db.inventory[p].property == request.property
                          then AskedUnits(request.addons, p) else 0;
                 after[p] == db.inventory[p].(
                   available := db.inventory[p].available - q, reserved := db.inventory[p].reserved + q))
  {
    AddonsExactly(db, request.property, request.addons, |request.addons|);
    OrderableIsKnown(db, request.property, request.addons);
    LinesCarryAskedUnits(db.catalog, request.addons, p);
    hide ParseDateRange, Accepted, RoomRefusal, WithBooking, OrderFor, ChecksHold, FreezesOrders, KeepsBorrowed,
      AskedUnits, Units, AddonsRefusal, Orderable, AddonLines, IsFirstBad, LinesTotal;
  }

  lemma OrderableIsKnown(db: Db, property: PropertyId, addons: seq<AddonRequest>)
    requires forall i | 0 <= i < |addons| :: Orderable(db, property, addons[i].product, addons[i].quantity)
    ensures forall i | 0 <= i < |addons| :: addons[i].product in db.catalog
  {
  }

  /** What is charged for the rooms: every bed at its offer's rate, for the nights asked for, begun ones included. */
  lemma RoomsAreCharged(
    db: Db, guest: GuestId, request: BookingRequest, offers: seq<RoomOffer>, eri: Eri, newOrder: OrderId)
    returns (nights: nat)
    requires CreateBookingOrder(db, guest, request, offers, eri, newOrder).outcome.Booked?
    ensures request.checkin < request.checkout
    ensures (nights - 1) * 86400000 < request.checkout - request.checkin <= nights * 86400000
    ensures forall i | 0 <= i < |request.rooms| :: FindOffer(offers, request.rooms[i].roomType).Some?
    ensures CreateBookingOrder(db, guest, request, offers, eri, newOrder).outcome.roomTotal
            == nights * Nightly(request.rooms, offers, |request.rooms|)
  {
    nights := ParseDateRange(request.checkin, request.checkout).value;
    NightsCover(request.checkout - request.checkin);
    hide AddonsRefusal, AddonLines, Moved, ChecksHold, LinesTotal, FreezesOrders, KeepsBorrowed, StoredRooms, Slots,
      WithBooking, CeilDiv;
    var order := OrderFor(request.rooms, offers, nights);
    SubtotalPerNight(request.rooms, offers, nights, |request.rooms|);
  }

  lemma NightsCover(stay: int)
    requires stay > 0
    ensures (CeilDiv(stay, DAY) - 1) * 86400000 < stay <= CeilDiv(stay, DAY) * 86400000
  {
  }

  lemma NightlyAdds(rooms: seq<Selection>, offers: seq<RoomOffer>, n: nat)
    requires n < |rooms|
    requires forall i | 0 <= i <= n :: FindOffer(offers, rooms[i].roomType).Some?
    ensures Nightly(rooms, offers, 0) == 0
    ensures Nightly(rooms, offers, n + 1) == Nightly(rooms, offers, n)
              + FindOffer(offers, rooms[n].roomType).value.pricePerNight * rooms[n].quantity
  {
  }

  // ---------------------------------------------------------------- and what reaches eZee

  /** The bed of one guest: the offer's ids and rate, the guest's name or the booker's, and a title by gender. */
  ghost predicate IsBedFor(
    room: EzeeRoom, s: Selection, offer: RoomOffer, q: nat, nights: nat, firstName: string, lastName: string)
    requires s.guests.Some? ==> q < |s.guests.value|
  {
    var named := s.guests.Some?;
    && room.roomType == offer.ezeeRoomType && room.ratePlan == offer.ezeeRatePlan
    && room.rateType == (if offer.ezeeRateType.Some? then offer.ezeeRateType else offer.ezeeRatePlan)
    && room.ratePerNight == offer.pricePerNight && room.numberOfNights == nights
    && room.firstName == (if named then s.guests.value[q].firstName else firstName)
    && room.lastName == (if named then s.guests.value[q].lastName else lastName)
    && room.gender == (if named && s.guests.value[q].gender.Some? then s.guests.value[q].gender.value else "Male")
    && room.title == (if room.gender == "Female" then "Ms" else "Mr")
  }

  lemma {:induction false} OffsetIsTotal(stored: seq<BookedRoom>, rooms: seq<Selection>, i: nat)
    requires |stored| == |rooms| && i <= |rooms|
    requires forall j | 0 <= j < |rooms| :: stored[j].quantity == rooms[j].quantity
    ensures Offset(ParseBookingRooms(stored), i) == TotalQuantity(rooms, i)
  {
    if i > 0 {
      OffsetIsTotal(stored, rooms, i - 1);
    }
  }

  /** The stored rooms of every booking, read back and flattened: as many beds as asked for, as guests and as slots. */
  lemma BookedBedsMatch(
    db: Db, guest: GuestId, request: BookingRequest, offers: seq<RoomOffer>, eri: Eri, newOrder: OrderId,
    beds: seq<EzeeRoom>, nights: nat, firstName: string, lastName: string)
    requires CreateBookingOrder(db, guest, request, offers, eri, newOrder).outcome.Booked?
    requires var after := CreateBookingOrder(db, guest, request, offers, eri, newOrder).db;
             eri in after.bookings
             && IsFlattening(beds, ParseBookingRooms(after.bookings[eri].rooms), nights, firstName, lastName)
    ensures var after := CreateBookingOrder(db, guest, request, offers, eri, newOrder).db;
            && eri in after.slots
            && |beds| == |after.slots[eri]| == after.bookings[eri].guests
            && |beds| == TotalQuantity(request.rooms, |request.rooms|)
  {
    hide CreateBookingOrder, TotalQuantity, IsStoredFor, FreezesOrders, KeepsBorrowed;
    BookingRow(db, guest, request, offers, eri, newOrder);
    var stored := CreateBookingOrder(db, guest, request, offers, eri, newOrder).db.bookings[eri].rooms;
    StoredQuantities(stored, request.rooms, offers);
    OffsetIsTotal(stored, request.rooms, |request.rooms|);
  }

  /**
   * The `q`-th bed of the `i`-th selection comes after all beds of the selections before it, with that selection's
   * rate, ids and guest.
   */
  lemma BookedReachesEzee(
    db: Db, guest: GuestId, request: BookingRequest, offers: seq<RoomOffer>, eri: Eri, newOrder: OrderId,
    beds: seq<EzeeRoom>, nights: nat, firstName: string, lastName: string, i: nat, q: nat, k: nat)
    requires CreateBookingOrder(db, guest, request, offers, eri, newOrder).outcome.Booked?
    requires var after := CreateBookingOrder(db, guest, request, offers, eri, newOrder).db;
             eri in after.bookings
             && IsFlattening(beds, ParseBookingRooms(after.bookings[eri].rooms), nights, firstName, lastName)
    requires i < |request.rooms| && q < request.rooms[i].quantity && IsOfferOf(offers, request.rooms[i].roomType, k)
    ensures request.rooms[i].guests.Some? ==> q < |request.rooms[i].guests.value|
    ensures TotalQuantity(request.rooms, i) + q < |beds|
    ensures IsBedFor(beds[TotalQuantity(request.rooms, i) + q], request.rooms[i], offers[k], q, nights, firstName,
                     lastName)
  {
    hide CreateBookingOrder, TotalQuantity, IsOfferOf, IsFlattening, IsBedFor, IsStoredFor, FreezesOrders,
      KeepsBorrowed;
    BookingRow(db, guest, request, offers, eri, newOrder);
    NamesMatch(db, guest, request, offers, eri, newOrder);
    var stored := CreateBookingOrder(db, guest, request, offers, eri, newOrder).db.bookings[eri].rooms;
    StoredBed(stored, request.rooms, offers, beds, nights, firstName, lastName, i, q, k);
  }

  lemma NamesMatch(
    db: Db, guest: GuestId, request: BookingRequest, offers: seq<RoomOffer>, eri: Eri, newOrder: OrderId)
    requires CreateBookingOrder(db, guest, request, offers, eri, newOrder).outcome.Booked?
    ensures forall i | 0 <= i < |request.rooms| && request.rooms[i].guests.Some? ::
              |request.rooms[i].guests.value| == request.rooms[i].quantity
  {
    hide AddonsRefusal, AddonLines, Moved, ChecksHold, LinesTotal, FreezesOrders, KeepsBorrowed, ParseDateRange,
      OrderFor, WithBooking, FindOffer;
    forall i | 0 <= i < |request.rooms| && request.rooms[i].guests.Some?
      ensures |request.rooms[i].guests.value| == request.rooms[i].quantity
    {
      assert SelectionError(request.rooms[i], offers).None?;
    }
  }

  lemma StoredBed(
    stored: seq<BookedRoom>, rooms: seq<Selection>, offers: seq<RoomOffer>, beds: seq<EzeeRoom>, nights: nat,
    firstName: string, lastName: string, i: nat, q: nat, k: nat)
    requires |stored| == |rooms| && forall i | 0 <= i < |rooms| :: IsStoredFor(stored[i], rooms[i], offers)
    requires forall i | 0 <= i < |rooms| && rooms[i].guests.Some? :: |rooms[i].guests.value| == rooms[i].quantity
    requires IsFlattening(beds, ParseBookingRooms(stored), nights, firstName, lastName)
    requires i < |rooms| && q < rooms[i].quantity && IsOfferOf(offers, rooms[i].roomType, k)
    ensures rooms[i].guests.Some? ==> q < |rooms[i].guests.value|
    ensures TotalQuantity(rooms, i) + q < |beds|
    ensures IsBedFor(beds[TotalQuantity(rooms, i) + q], rooms[i], offers[k], q, nights, firstName, lastName)
  {
    hide TotalQuantity, Offset;
    StoredQuantities(stored, rooms, offers);
    OffsetIsTotal(stored, rooms, i);
    var read := ParseBookingRooms(stored);
    assert Position(read, i, q) == TotalQuantity(rooms, i) + q;
    StoredRate(stored[i], rooms[i], offers, k);
    BedExactly(read[i], rooms[i], offers[k], q, nights, firstName, lastName);
  }

  lemma StoredQuantities(stored: seq<BookedRoom>, rooms: seq<Selection>, offers: seq<RoomOffer>)
    requires |stored| == |rooms| && forall i | 0 <= i < |rooms| :: IsStoredFor(stored[i], rooms[i], offers)
    ensures forall i | 0 <= i < |rooms| :: stored[i].quantity == rooms[i].quantity
  {
    forall i | 0 <= i < |rooms|
      ensures stored[i].quantity == rooms[i].quantity
    {
      assert IsStoredFor(stored[i], rooms[i], offers);
    }
  }

  /** What the worker reads back of a selection. */
  ghost predicate IsReadFor(read: EzeeSelection, s: Selection, offer: RoomOffer)
  {
    && read.quantity == s.quantity && read.guests == s.guests && read.pricePerNight == offer.pricePerNight
    && read.roomType == offer.ezeeRoomType && read.ratePlan == offer.ezeeRatePlan
    && read.rateType == (if offer.ezeeRateType.Some? then offer.ezeeRateType else offer.ezeeRatePlan)
  }

  lemma StoredRate(room: BookedRoom, s: Selection, offers: seq<RoomOffer>, k: nat)
    requires IsStoredFor(room, s, offers) && IsOfferOf(offers, s.roomType, k)
    ensures IsReadFor(ReadBack(room), s, offers[k])
  {
    var j: nat :| IsOfferOf(offers, s.roomType, j)
      && room.roomType == s.roomType && room.quantity == s.quantity && room.guests == s.guests
      && room.pricePerNight == offers[j].pricePerNight
      && room.ezeeRoomType == offers[j].ezeeRoomType && room.ezeeRatePlan == offers[j].ezeeRatePlan
      && room.ezeeRateType == offers[j].ezeeRateType;
    OfferIsUnique(offers, s.roomType, j, k);
  }

  lemma BedExactly(
    read: EzeeSelection, s: Selection, offer: RoomOffer, q: nat, nights: nat, firstName: string, lastName: string)
    requires IsReadFor(read, s, offer) && (s.guests.Some? ==> q < |s.guests.value|)
    ensures IsBedFor(EzeeRoomFor(read, q, nights, firstName, lastName), s, offer, q, nights, firstName, lastName)
  {
  }

  // ---------------------------------------------------------------- linking

  /** The guest is put into the first free slot, if there is one; the others stay. */
  ghost predicate TakesFirstFree(before: seq<Slot>, after: seq<Slot>, guest: GuestId)
  {
    exists i | 0 <= i <= |before| :: PutsAt(before, after, guest, i)
  }

  ghost predicate PutsAt(before: seq<Slot>, after: seq<Slot>, guest: GuestId, i: nat)
    requires i <= |before|
  {
    && (forall j | 0 <= j < i :: before[j].guest.Some?)
    && if i < |before| then before[i].guest.None? && after == before[i := Slot(before[i].number, Some(guest))]
       else after == before
  }

  lemma {:induction false} AssignmentPuts(slots: seq<Slot>, guest: GuestId) returns (i: nat)
    ensures i <= |slots| && PutsAt(slots, AssignFirst(slots, guest), guest, i)
  {
    i := 0;
    if slots != [] && slots[0].guest.Some? {
      var rest := AssignmentPuts(slots[1..], guest);
      i := rest + 1;
      assert forall j | 0 < j < i :: slots[j] == slots[1..][j - 1];
      assert slots == [slots[0]] + slots[1..];
    }
  }

  /**
   * Linking a known booking grants the guest access and puts the guest into the first free slot; a booking
   * without slots gets one for each guest first, numbered from one.
   */
  lemma LinkExactly(db: Db, guest: GuestId, eri: Eri)
    ensures var r := LinkBooking(db, guest, eri);
            && (eri !in db.bookings ==> r == Reply(db, Refused(NotFound)))
            && (eri in db.bookings ==>
                 && r.outcome == Done && r.db.access == db.access + {(eri, guest)}
                 && eri in r.db.slots && r.db.slots == db.slots[eri := r.db.slots[eri]]
                 && (eri in db.slots && db.slots[eri] != [] ==> TakesFirstFree(db.slots[eri], r.db.slots[eri], guest))
                 && (eri !in db.slots || db.slots[eri] == [] ==>
                      AreBookedSlots(r.db.slots[eri], guest, db.bookings[eri].guests)))
  {
    hide AssignFirst, EmptySlots, TakesFirstFree, AreBookedSlots;
    if eri in db.bookings {
      if eri in db.slots {
        var i := AssignmentPuts(db.slots[eri], guest);
        PutsFirst(db.slots[eri], AssignFirst(db.slots[eri], guest), guest, i);
      }
      NewSlotsTaken(db.bookings[eri].guests, guest);
    }
  }

  lemma PutsFirst(before: seq<Slot>, after: seq<Slot>, guest: GuestId, i: nat)
    requires i <= |before| && PutsAt(before, after, guest, i)
    ensures TakesFirstFree(before, after, guest)
  {
  }

  lemma NewSlotsTaken(n: nat, guest: GuestId)
    ensures AreBookedSlots(AssignFirst(EmptySlots(n), guest), guest, n)
  {
    var i := AssignmentPuts(EmptySlots(n), guest);
    assert forall j | 0 <= j < n :: EmptySlots(n)[j] == Slot(j + 1, None);
  }
}
