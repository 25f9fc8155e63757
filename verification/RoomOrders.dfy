/**
 * Room selections of a booking order: validation with running totals, the guest slots, the
 * stored room list, and the per-bed rooms sent to eZee. Prices are in paise.
 */
module RoomOrders {
  import opened Wrappers

  datatype GuestName = GuestName(firstName: string, lastName: string, gender: Option<string>)

  /** One entry of the availability list that the order is validated against. */
  datatype RoomOffer = RoomOffer(
    id: string, name: string, availableBeds: int, pricePerNight: nat,
    ezeeRoomType: Option<string>, ezeeRatePlan: Option<string>, ezeeRateType: Option<string>)

  datatype Selection = Selection(roomType: string, quantity: nat, guests: Option<seq<GuestName>>)

  datatype ValidRoom = ValidRoom(offer: RoomOffer, quantity: nat, lineTotal: nat, guests: Option<seq<GuestName>>)

  datatype RoomOrder = RoomOrder(rooms: seq<ValidRoom>, roomTotal: nat, totalGuests: nat)

  datatype RoomError = TooManyUnits | UnknownRoom | NotEnoughBeds | GuestListLength

  /** An element of the `booking_rooms_json` column. */
  datatype BookedRoom = BookedRoom(
    roomType: string, ezeeRoomType: Option<string>, ezeeRatePlan: Option<string>, ezeeRateType: Option<string>,
    quantity: nat, pricePerNight: nat, guests: Option<seq<GuestName>>)

  datatype Slot = Slot(number: nat, guest: Option<nat>)

  /** A room selection as the sync worker reads it back. */
  datatype EzeeSelection = EzeeSelection(
    roomType: Option<string>, ratePlan: Option<string>, rateType: Option<string>,
    quantity: nat, pricePerNight: nat, guests: Option<seq<GuestName>>)

  datatype EzeeRoom = EzeeRoom(
    roomType: Option<string>, ratePlan: Option<string>, rateType: Option<string>,
    ratePerNight: nat, numberOfNights: nat,
    title: string, firstName: string, lastName: string, gender: string)

  const MAX_UNITS := 6

  // ---------------------------------------------------------------- validation

  function LineTotal(pricePerNight: nat, nights: nat, quantity: nat): nat
  {
    pricePerNight * nights * quantity
  }

  /** Units asked for by the first `n` selections. */
  function TotalQuantity(selections: seq<Selection>, n: nat): nat
    requires n <= |selections|
  {
    if n == 0 then 0 else TotalQuantity(selections, n - 1) + selections[n - 1].quantity
  }

  /** The first offer with the wanted id. */
  function FindOffer(offers: seq<RoomOffer>, id: string): Option<RoomOffer>
  {
    if offers == [] then None
    else if offers[0].id == id then Some(offers[0])
    else FindOffer(offers[1..], id)
  }

  function SelectionError(s: Selection, offers: seq<RoomOffer>): Option<RoomError>
  {
    var offer := FindOffer(offers, s.roomType);
    if offer.None? then Some(UnknownRoom)
    else if s.quantity > offer.value.availableBeds then Some(NotEnoughBeds)
    else if s.guests.Some? && |s.guests.value| != s.quantity then Some(GuestListLength)
    else None
  }

  ghost predicate ValidSelections(selections: seq<Selection>, offers: seq<RoomOffer>)
  {
    forall i | 0 <= i < |selections| :: SelectionError(selections[i], offers).None?
  }

  /** What the running total `roomTotal` of the validation loop stands for after `n` selections. */
  ghost function Subtotal(selections: seq<Selection>, offers: seq<RoomOffer>, nights: nat, n: nat): nat
    requires n <= |selections|
    requires forall i | 0 <= i < n :: FindOffer(offers, selections[i].roomType).Some?
  {
    if n == 0 then 0
    else
      var s := selections[n - 1];
      Subtotal(selections, offers, nights, n - 1)
      + LineTotal(FindOffer(offers, s.roomType).value.pricePerNight, nights, s.quantity)
  }

  ghost predicate IsValidation(room: ValidRoom, s: Selection, offers: seq<RoomOffer>, nights: nat)
  {
    && FindOffer(offers, s.roomType) == Some(room.offer)
    && room.quantity == s.quantity
    && room.lineTotal == LineTotal(room.offer.pricePerNight, nights, s.quantity)
    && room.guests == s.guests
  }

  /** A successful order lists every selection in order and totals its price and its guests. */
  ghost predicate IsOrderFor(order: RoomOrder, selections: seq<Selection>, offers: seq<RoomOffer>, nights: nat)
  {
    && |order.rooms| == |selections|
    && (forall i | 0 <= i < |selections| ::
         && SelectionError(selections[i], offers).None?
         && IsValidation(order.rooms[i], selections[i], offers, nights))
    && order.roomTotal == Subtotal(selections, offers, nights, |selections|)
    && order.totalGuests == TotalQuantity(selections, |selections|)
  }

  /** The order is refused with the error of its first bad selection. */
  ghost predicate IsRefusal(error: RoomError, selections: seq<Selection>, offers: seq<RoomOffer>)
  {
    if TotalQuantity(selections, |selections|) > MAX_UNITS then error == TooManyUnits
    else exists i | 0 <= i < |selections| ::
        && SelectionError(selections[i], offers) == Some(error)
        && forall j | 0 <= j < i :: SelectionError(selections[j], offers).None?
  }

  method ValidateRoomSelections(selections: seq<Selection>, offers: seq<RoomOffer>, nights: nat)
    returns (r: Result<RoomOrder, RoomError>)
    ensures r.Success? <==>
            TotalQuantity(selections, |selections|) <= MAX_UNITS && ValidSelections(selections, offers)
    ensures r.Success? ==> IsOrderFor(r.value, selections, offers, nights)
    ensures r.Failure? ==> IsRefusal(r.error, selections, offers)
  {
    hide LineTotal, FindOffer;
    var totalRequested := 0;
    for i := 0 to |selections|
      invariant totalRequested == TotalQuantity(selections, i)
    {
      totalRequested := totalRequested + selections[i].quantity;
    }
    if totalRequested > MAX_UNITS {
      return Failure(TooManyUnits);
    }
    var roomTotal: nat, totalGuests: nat, rooms := 0, 0, [];
    for i := 0 to |selections|
      invariant |rooms| == i
      invariant forall j | 0 <= j < i ::
          SelectionError(selections[j], offers).None? && IsValidation(rooms[j], selections[j], offers, nights)
      invariant roomTotal == Subtotal(selections, offers, nights, i)
      invariant totalGuests == TotalQuantity(selections, i)
    {
      var s := selections[i];
      var offer := FindOffer(offers, s.roomType);
      if offer.None? {
        return Failure(UnknownRoom);
      }
      if s.quantity > offer.value.availableBeds {
        return Failure(NotEnoughBeds);
      }
      if s.guests.Some? && |s.guests.value| != s.quantity {
        return Failure(GuestListLength);
      }
      var lineTotal := LineTotal(offer.value.pricePerNight, nights, s.quantity);
      roomTotal := roomTotal + lineTotal;
      totalGuests := totalGuests + s.quantity;
      rooms := rooms + [ValidRoom(offer.value, s.quantity, lineTotal, s.guests)];
    }
    return Success(RoomOrder(rooms, roomTotal, totalGuests));
  }

  ghost predicate Accepted(selections: seq<Selection>, offers: seq<RoomOffer>)
  {
    TotalQuantity(selections, |selections|) <= MAX_UNITS && ValidSelections(selections, offers)
  }

  /** The one order that validation yields. */
  ghost function OrderFor(selections: seq<Selection>, offers: seq<RoomOffer>, nights: nat): (order: RoomOrder)
    requires Accepted(selections, offers)
    ensures IsOrderFor(order, selections, offers, nights)
  {
    RoomOrder(
      seq(|selections|, (i: nat) requires i < |selections| && SelectionError(selections[i], offers).None? =>
        ValidatedRoom(selections[i], offers, nights)),
      Subtotal(selections, offers, nights, |selections|),
      TotalQuantity(selections, |selections|))
  }

  ghost function ValidatedRoom(s: Selection, offers: seq<RoomOffer>, nights: nat): ValidRoom
    requires SelectionError(s, offers).None?
  {
    var offer := FindOffer(offers, s.roomType).value;
    ValidRoom(offer, s.quantity, LineTotal(offer.pricePerNight, nights, s.quantity), s.guests)
  }

  lemma OrderIsUnique(order: RoomOrder, selections: seq<Selection>, offers: seq<RoomOffer>, nights: nat)
    requires Accepted(selections, offers) && IsOrderFor(order, selections, offers, nights)
    ensures order == OrderFor(selections, offers, nights)
  {
    var other := OrderFor(selections, offers, nights);
    forall i | 0 <= i < |selections|
      ensures order.rooms[i] == other.rooms[i]
    {
      assert IsValidation(order.rooms[i], selections[i], offers, nights);
      assert IsValidation(other.rooms[i], selections[i], offers, nights);
    }
  }

  /** The error that refuses the selections. */
  ghost function FirstError(selections: seq<Selection>, offers: seq<RoomOffer>): RoomError
  {
    if TotalQuantity(selections, |selections|) > MAX_UNITS then TooManyUnits
    else FirstSelectionError(selections, offers)
  }

  ghost function FirstSelectionError(selections: seq<Selection>, offers: seq<RoomOffer>): RoomError
  {
    if selections == [] then TooManyUnits
    else
      var e := SelectionError(selections[0], offers);
      if e.Some? then e.value else FirstSelectionError(selections[1..], offers)
  }

  lemma {:induction false} RefusalIsFirstError(error: RoomError, selections: seq<Selection>, offers: seq<RoomOffer>)
    requires IsRefusal(error, selections, offers)
    ensures error == FirstError(selections, offers)
  {
    if TotalQuantity(selections, |selections|) <= MAX_UNITS {
      var i :| 0 <= i < |selections| && SelectionError(selections[i], offers) == Some(error)
        && forall j | 0 <= j < i :: SelectionError(selections[j], offers).None?;
      FirstErrorAt(error, selections, offers, i);
    }
  }

  lemma {:induction false} FirstErrorAt(error: RoomError, selections: seq<Selection>, offers: seq<RoomOffer>, i: nat)
    requires i < |selections| && SelectionError(selections[i], offers) == Some(error)
    requires forall j | 0 <= j < i :: SelectionError(selections[j], offers).None?
    ensures FirstSelectionError(selections, offers) == error
  {
    if i > 0 {
      assert SelectionError(selections[0], offers).None?;
      FirstErrorAt(error, selections[1..], offers, i - 1);
    }
  }

  // ---------------------------------------------------------------- slots

  /** Slots 1..n, the booker in the first one. */
  ghost function Slots(n: nat, booker: nat): (slots: seq<Slot>)
    ensures |slots| == n
    ensures forall i | 0 <= i < n :: slots[i].number == i + 1
    ensures forall i | 0 <= i < n :: slots[i].guest == if i == 0 then Some(booker) else None
  {
    seq(n, (i: nat) => Slot(i + 1, if i == 0 then Some(booker) else None))
  }

  method CreateBookingSlots(totalGuests: nat, booker: nat) returns (slots: seq<Slot>)
    ensures slots == Slots(totalGuests, booker)
  {
    slots := [];
    for i := 1 to totalGuests + 1
      invariant slots == Slots(totalGuests, booker)[..i - 1]
    {
      slots := slots + [Slot(i, if i == 1 then Some(booker) else None)];
    }
  }

  // ---------------------------------------------------------------- stored room list

  function Stored(room: ValidRoom): BookedRoom
  {
    BookedRoom(room.offer.id, room.offer.ezeeRoomType, room.offer.ezeeRatePlan, room.offer.ezeeRateType,
               room.quantity, room.offer.pricePerNight, room.guests)
  }

  function StoredRooms(rooms: seq<ValidRoom>): (stored: seq<BookedRoom>)
    ensures |stored| == |rooms|
    ensures forall i | 0 <= i < |rooms| :: stored[i] == Stored(rooms[i])
  {
    seq(|rooms|, i requires 0 <= i < |rooms| => Stored(rooms[i]))
  }

  function ReadBack(room: BookedRoom): EzeeSelection
  {
    EzeeSelection(room.ezeeRoomType, room.ezeeRatePlan,
                  if room.ezeeRateType.Some? then room.ezeeRateType else room.ezeeRatePlan,
                  room.quantity, room.pricePerNight, room.guests)
  }

  /** The JSON branch of the worker's room parser. */
  function ParseBookingRooms(stored: seq<BookedRoom>): (selections: seq<EzeeSelection>)
    ensures |selections| == |stored|
    ensures forall i | 0 <= i < |stored| :: selections[i] == ReadBack(stored[i])
  {
    seq(|stored|, i requires 0 <= i < |stored| => ReadBack(stored[i]))
  }

  // ---------------------------------------------------------------- per-bed rooms

  function EzeeRoomFor(s: EzeeSelection, q: nat, nights: nat, firstName: string, lastName: string): EzeeRoom
  {
    var guest := if s.guests.Some? && q < |s.guests.value| then Some(s.guests.value[q]) else None;
    var gender := if guest.Some? then guest.value.gender.GetOr("Male") else "Male";
    EzeeRoom(s.roomType, s.ratePlan, s.rateType, s.pricePerNight, nights,
             if gender == "Female" then "Ms" else "Mr",
             if guest.Some? then guest.value.firstName else firstName,
             if guest.Some? then guest.value.lastName else lastName,
             gender)
  }

  /** The position of the first bed of selection `i`. */
  function Offset(selections: seq<EzeeSelection>, i: nat): nat
    requires i <= |selections|
  {
    if i == 0 then 0 else Offset(selections, i - 1) + selections[i - 1].quantity
  }

  ghost predicate IsFlattening(
    rooms: seq<EzeeRoom>, selections: seq<EzeeSelection>, nights: nat, firstName: string, lastName: string)
  {
    && |rooms| == Offset(selections, |selections|)
    && forall i, q {:trigger Position(selections, i, q)} | 0 <= i < |selections| && 0 <= q < selections[i].quantity ::
         && Position(selections, i, q) < |rooms|
         && rooms[Position(selections, i, q)] == EzeeRoomFor(selections[i], q, nights, firstName, lastName)
  }

  function Position(selections: seq<EzeeSelection>, i: nat, q: nat): nat
    requires i < |selections|
  {
    Offset(selections, i) + q
  }

  method BuildEzeeRooms(selections: seq<EzeeSelection>, nights: nat, firstName: string, lastName: string)
    returns (rooms: seq<EzeeRoom>)
    ensures IsFlattening(rooms, selections, nights, firstName, lastName)
  {
    rooms := [];
    for i := 0 to |selections|
      invariant |rooms| == Offset(selections, i)
      invariant forall j, q {:trigger Position(selections, j, q)} | 0 <= j < i && 0 <= q < selections[j].quantity ::
                  && Position(selections, j, q) < |rooms|
                  && rooms[Position(selections, j, q)] == EzeeRoomFor(selections[j], q, nights, firstName, lastName)
    {
      var s := selections[i];
      for q := 0 to s.quantity
        invariant |rooms| == Offset(selections, i) + q
        invariant forall j, p {:trigger Position(selections, j, p)} |
                    0 <= j <= i && 0 <= p < (if j < i then selections[j].quantity else q) ::
                    && Position(selections, j, p) < |rooms|
                    && rooms[Position(selections, j, p)] == EzeeRoomFor(selections[j], p, nights, firstName, lastName)
      {
        rooms := rooms + [EzeeRoomFor(s, q, nights, firstName, lastName)];
      }
    }
  }

  // ---------------------------------------------------------------- agreement of order and sync

  /** What eZee is told one bed costs over the stay. */
  function BedCharge(ratePerNight: nat, nights: nat): nat
  {
    ratePerNight * nights
  }

  ghost function StayCharge(rooms: seq<EzeeRoom>): nat
  {
    if rooms == [] then 0
    else
      var last := rooms[|rooms| - 1];
      StayCharge(rooms[..|rooms| - 1]) + BedCharge(last.ratePerNight, last.numberOfNights)
  }

  ghost function Repeated(charge: nat, n: nat): nat
  {
    if n == 0 then 0 else Repeated(charge, n - 1) + charge
  }

  lemma {:induction false} RepeatedIsLineTotal(rate: nat, nights: nat, n: nat)
    ensures Repeated(BedCharge(rate, nights), n) == LineTotal(rate, nights, n)
  {
    if n > 0 {
      RepeatedIsLineTotal(rate, nights, n - 1);
      assert rate * nights * n == rate * nights * (n - 1) + rate * nights;
    }
  }

  lemma {:induction false} ChargeOfEqualBeds(rooms: seq<EzeeRoom>, start: nat, charge: nat)
    requires start <= |rooms|
    requires forall k | start <= k < |rooms| :: BedCharge(rooms[k].ratePerNight, rooms[k].numberOfNights) == charge
    ensures StayCharge(rooms) == StayCharge(rooms[..start]) + Repeated(charge, |rooms| - start)
  {
    if start == |rooms| {
      assert rooms[..start] == rooms;
    } else {
      ChargeOfEqualBeds(rooms[..|rooms| - 1], start, charge);
      assert rooms[..|rooms| - 1][..start] == rooms[..start];
    }
  }

  lemma OffsetMonotone(selections: seq<EzeeSelection>, i: nat, j: nat)
    requires i <= j <= |selections|
    ensures Offset(selections, i) <= Offset(selections, j)
  {
  }

  /** The selections that the worker reads back from an accepted order. */
  ghost function SyncedSelections(order: RoomOrder): seq<EzeeSelection>
  {
    ParseBookingRooms(StoredRooms(order.rooms))
  }

  /** What the worker reads back for one selection. */
  lemma SyncedRow(order: RoomOrder, selections: seq<Selection>, offers: seq<RoomOffer>, nights: nat, i: nat)
    requires IsOrderFor(order, selections, offers, nights)
    requires i < |selections|
    ensures |SyncedSelections(order)| == |selections|
    ensures FindOffer(offers, selections[i].roomType) == Some(order.rooms[i].offer)
    ensures SyncedSelections(order)[i] == ReadBack(Stored(order.rooms[i]))
    ensures order.rooms[i].quantity == selections[i].quantity && order.rooms[i].guests == selections[i].guests
    ensures selections[i].guests.Some? ==> |selections[i].guests.value| == selections[i].quantity
  {
    assert SelectionError(selections[i], offers).None?;
    assert IsValidation(order.rooms[i], selections[i], offers, nights);
  }

  /** What the worker reads back of each selection is what was selected, at the rate it was offered for. */
  lemma StoredSelectionIsReadBack(
    order: RoomOrder, selections: seq<Selection>, offers: seq<RoomOffer>, nights: nat, i: nat)
    requires IsOrderFor(order, selections, offers, nights) && i < |selections|
    ensures |SyncedSelections(order)| == |selections|
    ensures FindOffer(offers, selections[i].roomType).Some?
    ensures var read, offer := SyncedSelections(order)[i], FindOffer(offers, selections[i].roomType).value;
            && read.quantity == selections[i].quantity && read.guests == selections[i].guests
            && read.pricePerNight == offer.pricePerNight
            && read.roomType == offer.ezeeRoomType && read.ratePlan == offer.ezeeRatePlan
            && read.rateType == (if offer.ezeeRateType.Some? then offer.ezeeRateType else offer.ezeeRatePlan)
  {
    hide FindOffer;
    SyncedRow(order, selections, offers, nights, i);
  }

  lemma {:induction false} PrefixQuantities(
    order: RoomOrder, selections: seq<Selection>, offers: seq<RoomOffer>, nights: nat, i: nat)
    requires IsOrderFor(order, selections, offers, nights)
    requires i <= |selections|
    ensures Offset(SyncedSelections(order), i) == TotalQuantity(selections, i)
  {
    if i > 0 {
      PrefixQuantities(order, selections, offers, nights, i - 1);
      SyncedRow(order, selections, offers, nights, i - 1);
    }
  }

  /** The beds of one selection contribute their common charge once each. */
  lemma SegmentCharge(
    rooms: seq<EzeeRoom>, synced: seq<EzeeSelection>, nights: nat, firstName: string, lastName: string, i: nat)
    requires IsFlattening(rooms, synced, nights, firstName, lastName)
    requires i < |synced|
    ensures Offset(synced, i) <= Offset(synced, i + 1) <= |rooms|
    ensures StayCharge(rooms[..Offset(synced, i + 1)])
            == StayCharge(rooms[..Offset(synced, i)])
               + LineTotal(synced[i].pricePerNight, nights, synced[i].quantity)
  {
    hide LineTotal, BedCharge;
    OffsetMonotone(synced, i + 1, |synced|);
    var start, end := Offset(synced, i), Offset(synced, i + 1);
    var charge := BedCharge(synced[i].pricePerNight, nights);
    forall k | start <= k < end
      ensures BedCharge(rooms[..end][k].ratePerNight, rooms[..end][k].numberOfNights) == charge
    {
      assert k == Position(synced, i, k - start);
    }
    ChargeOfEqualBeds(rooms[..end], start, charge);
    assert rooms[..end][..start] == rooms[..start];
    RepeatedIsLineTotal(synced[i].pricePerNight, nights, synced[i].quantity);
  }

  lemma {:induction false} PrefixCharges(
    order: RoomOrder, selections: seq<Selection>, offers: seq<RoomOffer>, nights: nat,
    rooms: seq<EzeeRoom>, firstName: string, lastName: string, i: nat)
    requires IsOrderFor(order, selections, offers, nights)
    requires IsFlattening(rooms, SyncedSelections(order), nights, firstName, lastName)
    requires i <= |selections|
    ensures Offset(SyncedSelections(order), i) <= |rooms|
    ensures StayCharge(rooms[..Offset(SyncedSelections(order), i)]) == Subtotal(selections, offers, nights, i)
  {
    hide LineTotal, BedCharge, FindOffer, IsFlattening, SyncedSelections, IsValidation, SelectionError;
    var synced := SyncedSelections(order);
    if i == 0 {
      assert rooms[..0] == [];
    } else {
      PrefixCharges(order, selections, offers, nights, rooms, firstName, lastName, i - 1);
      SyncedRow(order, selections, offers, nights, i - 1);
      SegmentCharge(rooms, synced, nights, firstName, lastName, i - 1);
    }
  }

  /**
   * For an accepted order: the guest count, the number of slots and the number of rooms sent to
   * eZee agree; every named guest lands on the bed at the flattened position; and the nightly
   * rates of those rooms over the stay add up to the charged room subtotal.
   */
  lemma AcceptedOrderMatchesEzee(
    order: RoomOrder, selections: seq<Selection>, offers: seq<RoomOffer>, nights: nat, booker: nat,
    rooms: seq<EzeeRoom>, firstName: string, lastName: string)
    requires IsOrderFor(order, selections, offers, nights)
    requires IsFlattening(rooms, SyncedSelections(order), nights, firstName, lastName)
    ensures order.totalGuests == |Slots(order.totalGuests, booker)| == |rooms|
    ensures StayCharge(rooms) == order.roomTotal
    ensures forall i, q {:trigger Position(SyncedSelections(order), i, q)} |
              0 <= i < |selections| && 0 <= q < selections[i].quantity ::
              var at := Position(SyncedSelections(order), i, q);
              && at < |rooms|
              && rooms[at].numberOfNights == nights
              && rooms[at].roomType == order.rooms[i].offer.ezeeRoomType
              && rooms[at].firstName ==
                 (if selections[i].guests.Some? then selections[i].guests.value[q].firstName else firstName)
              && rooms[at].lastName ==
                 (if selections[i].guests.Some? then selections[i].guests.value[q].lastName else lastName)
  {
    var synced := SyncedSelections(order);
    hide LineTotal, BedCharge, FindOffer, IsValidation, SelectionError, StayCharge;
    PrefixQuantities(order, selections, offers, nights, |selections|);
    PrefixCharges(order, selections, offers, nights, rooms, firstName, lastName, |selections|);
    assert rooms[..|rooms|] == rooms;
    forall i, q {:trigger Position(synced, i, q)} | 0 <= i < |selections| && 0 <= q < selections[i].quantity
      ensures Position(synced, i, q) < |rooms|
      ensures rooms[Position(synced, i, q)] == EzeeRoomFor(synced[i], q, nights, firstName, lastName)
      ensures synced[i] == ReadBack(Stored(order.rooms[i]))
      ensures order.rooms[i].guests == selections[i].guests
      ensures selections[i].guests.Some? ==> |selections[i].guests.value| == selections[i].quantity
    {
      SyncedRow(order, selections, offers, nights, i);
      assert synced[i].quantity == selections[i].quantity;
    }
  }

  // ---------------------------------------------------------------- nights

  const DAY := 24 * 60 * 60 * 1000

  /** JavaScript's `Math.ceil` of a quotient with a positive divisor. */
  function CeilDiv(a: int, b: int): int
    requires b > 0
  {
    -((-a) / b)
  }

  /** Nights of the order, from the two instants in milliseconds. */
  function ParseDateRange(checkin: int, checkout: int): (nights: Option<nat>)
    ensures nights.None? <==> checkout <= checkin
    ensures nights.Some? ==> nights.value >= 1
  {
    if checkout <= checkin then None
    else
      CeilPositive(checkout - checkin);
      Some(CeilDiv(checkout - checkin, DAY))
  }

  lemma CeilPositive(a: int)
    requires a > 0
    ensures CeilDiv(a, DAY) >= 1
  {
  }

  /** What the `DATE` column keeps of an instant. */
  function StoredDate(instant: int): int
  {
    instant / DAY * DAY
  }

  /** Nights counted by the worker from the stored dates. */
  function CalcNights(checkin: int, checkout: int): (nights: nat)
    ensures nights >= 1
  {
    var n := CeilDiv(checkout - checkin, DAY);
    if n < 1 then 1 else n
  }

  lemma CeilOfWholeDays(a: int, b: int, r: int, s: int)
    requires 0 <= r < DAY && 0 <= s < DAY
    ensures CeilDiv(b * DAY + s - (a * DAY + r), DAY) == b - a + (if s > r then 1 else 0)
  {
    var d := a - b;
    assert -(b * DAY + s - (a * DAY + r)) == d * DAY + (r - s);
    if s > r {
      assert (d * DAY + (r - s)) == (d - 1) * DAY + (DAY + r - s);
    }
  }

  /** The worker counts the midnights between the two calendar days, and at least one night. */
  lemma WorkerNights(checkin: int, checkout: int)
    ensures var midnights := checkout / 86400000 - checkin / 86400000;
            CalcNights(StoredDate(checkin), StoredDate(checkout)) == if midnights < 1 then 1 else midnights
  {
    CeilOfWholeDays(checkin / DAY, checkout / DAY, 0, 0);
  }

  /**
   * The order and the worker count the same nights exactly when the checkout time of day is not
   * later than the checkin time of day, or both fall on one day; date-only inputs always qualify.
   */
  lemma NightsAgree(checkin: int, checkout: int)
    requires checkin < checkout
    ensures ParseDateRange(checkin, checkout) == Some(CalcNights(StoredDate(checkin), StoredDate(checkout)))
            <==> checkout % DAY <= checkin % DAY || checkin / DAY == checkout / DAY
  {
    var a, r, b, s := checkin / DAY, checkin % DAY, checkout / DAY, checkout % DAY;
    CeilOfWholeDays(a, b, r, s);
    CeilOfWholeDays(a, b, 0, 0);
    assert checkin == a * DAY + r && checkout == b * DAY + s;
  }

  // ---------------------------------------------------------------- from the dates to eZee

  /** What all beds of the first `n` selections cost per night. */
  ghost function Nightly(selections: seq<Selection>, offers: seq<RoomOffer>, n: nat): nat
    requires n <= |selections|
    requires forall i | 0 <= i < n :: FindOffer(offers, selections[i].roomType).Some?
  {
    if n == 0 then 0
    else
      var s := selections[n - 1];
      Nightly(selections, offers, n - 1) + LineTotal(FindOffer(offers, s.roomType).value.pricePerNight, 1, s.quantity)
  }

  lemma LineTotalPerNight(price: nat, nights: nat, quantity: nat)
    ensures LineTotal(price, nights, quantity) == nights * LineTotal(price, 1, quantity)
  {
    assert price * nights * quantity == nights * (price * quantity);
    assert price * 1 * quantity == price * quantity;
  }

  lemma {:induction false} SubtotalPerNight(selections: seq<Selection>, offers: seq<RoomOffer>, nights: nat, n: nat)
    requires n <= |selections|
    requires forall i | 0 <= i < n :: FindOffer(offers, selections[i].roomType).Some?
    ensures Subtotal(selections, offers, nights, n) == nights * Nightly(selections, offers, n)
  {
    hide LineTotal, FindOffer;
    if n > 0 {
      var s := selections[n - 1];
      SubtotalPerNight(selections, offers, nights, n - 1);
      LineTotalPerNight(FindOffer(offers, s.roomType).value.pricePerNight, nights, s.quantity);
      Distributes(nights, Nightly(selections, offers, n - 1),
                  LineTotal(FindOffer(offers, s.roomType).value.pricePerNight, 1, s.quantity));
    }
  }

  lemma Distributes(n: int, a: int, b: int)
    ensures n * (a + b) == n * a + n * b
  {
  }

  lemma SameCharge(m: nat, n: nat, nightly: nat)
    ensures m * nightly == n * nightly <==> m == n || nightly == 0
  {
    if m < n {
      assert (n - m) * nightly == n * nightly - m * nightly;
    } else if n < m {
      assert (m - n) * nightly == m * nightly - n * nightly;
    }
  }

  /** The stored rooms do not depend on the nights they were validated for. */
  lemma SameSelections(
    order: RoomOrder, other: RoomOrder, selections: seq<Selection>, offers: seq<RoomOffer>, m: nat, n: nat)
    requires IsOrderFor(order, selections, offers, m) && IsOrderFor(other, selections, offers, n)
    ensures SyncedSelections(order) == SyncedSelections(other)
    ensures forall i | 0 <= i < |selections| :: order.rooms[i].offer == other.rooms[i].offer
  {
    hide FindOffer;
    forall i | 0 <= i < |selections|
      ensures SyncedSelections(order)[i] == SyncedSelections(other)[i]
      ensures order.rooms[i].offer == other.rooms[i].offer
    {
      SyncedRow(order, selections, offers, m, i);
      SyncedRow(other, selections, offers, n, i);
    }
  }

  /**
   * From the request to eZee, with the order's nights counted from the requested instants and the
   * rooms' nights from the stored dates: guest count, slots and rooms agree and every named guest is on
   * the bed at the flattened position. The nightly rates of the rooms add up to the charged room subtotal
   * exactly when the two night counts agree or the rooms are free; date-only requests always qualify.
   */
  lemma RequestMatchesEzee(
    checkin: int, checkout: int, order: RoomOrder, selections: seq<Selection>, offers: seq<RoomOffer>, booker: nat,
    rooms: seq<EzeeRoom>, firstName: string, lastName: string)
    requires checkin < checkout
    requires IsOrderFor(order, selections, offers, ParseDateRange(checkin, checkout).value)
    requires IsFlattening(rooms, SyncedSelections(order), CalcNights(StoredDate(checkin), StoredDate(checkout)),
                          firstName, lastName)
    ensures order.totalGuests == |Slots(order.totalGuests, booker)| == |rooms|
    ensures forall i, q {:trigger Position(SyncedSelections(order), i, q)} |
              0 <= i < |selections| && 0 <= q < selections[i].quantity ::
              var at := Position(SyncedSelections(order), i, q);
              && at < |rooms|
              && rooms[at].roomType == order.rooms[i].offer.ezeeRoomType
              && rooms[at].firstName ==
                 (if selections[i].guests.Some? then selections[i].guests.value[q].firstName else firstName)
              && rooms[at].lastName ==
                 (if selections[i].guests.Some? then selections[i].guests.value[q].lastName else lastName)
    ensures forall i | 0 <= i < |selections| :: FindOffer(offers, selections[i].roomType).Some?
    ensures StayCharge(rooms) == order.roomTotal
            <==> || checkout % DAY <= checkin % DAY || checkin / DAY == checkout / DAY
                 || Nightly(selections, offers, |selections|) == 0
  {
    var ordered := ParseDateRange(checkin, checkout).value;
    var synced := CalcNights(StoredDate(checkin), StoredDate(checkout));
    NightsAgree(checkin, checkout);
    hide ParseDateRange, CalcNights, StayCharge, IsFlattening, FindOffer, LineTotal, Subtotal, Nightly,
      SyncedSelections, Position;
    forall i | 0 <= i < |selections|
      ensures SelectionError(selections[i], offers).None?
      ensures FindOffer(offers, selections[i].roomType).Some?
      ensures selections[i].guests.Some? ==> |selections[i].guests.value| == selections[i].quantity
    {
      SyncedRow(order, selections, offers, ordered, i);
    }
    var asSynced := RepricedOrder(order, selections, offers, ordered, synced);
    SameSelections(order, asSynced, selections, offers, ordered, synced);
    AcceptedOrderMatchesEzee(asSynced, selections, offers, synced, booker, rooms, firstName, lastName);
    SubtotalPerNight(selections, offers, ordered, |selections|);
    SubtotalPerNight(selections, offers, synced, |selections|);
    SameCharge(synced, ordered, Nightly(selections, offers, |selections|));
  }

  /** The same selections validated for another number of nights. */
  lemma RepricedOrder(
    order: RoomOrder, selections: seq<Selection>, offers: seq<RoomOffer>, m: nat, n: nat) returns (repriced: RoomOrder)
    requires IsOrderFor(order, selections, offers, m)
    ensures IsOrderFor(repriced, selections, offers, n) && repriced.totalGuests == order.totalGuests
  {
    hide FindOffer, LineTotal, Subtotal;
    assert forall i | 0 <= i < |selections| :: SelectionError(selections[i], offers).None?;
    var rooms := seq(|selections|, (i: nat) requires i < |selections| && SelectionError(selections[i], offers).None? =>
      ValidatedRoom(selections[i], offers, n));
    repriced := RoomOrder(rooms, Subtotal(selections, offers, n, |selections|), order.totalGuests);
  }
}
