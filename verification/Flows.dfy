/** Reserved units leave the reserved counter exactly once: released by a failure or sold by a capture. */
module Flows {
  import opened Wrappers
  import opened RoomOrders
  import opened Tables
  import opened Operations
  import opened Runs
  import opened Conservation
  import opened Coupling
  import opened Reachable

  /** Units of `p` in the order a call created, released or sold, when they move the row of `p`. */
  ghost function UnitsAt(db: Db, property: PropertyId, lines: seq<Line>, p: ProductId): nat
  {
    if IsCommodity(db.catalog, p) && HasRow(db.inventory, p, property) then Units(lines, p) else 0
  }

  ghost function Reserving(db: Db, c: Call, p: ProductId): nat
    requires Possible(db, c)
  {
    if c.Book? && Perform(db, c).outcome.Booked? && c.newOrder in Perform(db, c).db.orders
    then UnitsAt(db, c.request.property, Perform(db, c).db.orders[c.newOrder].lines, p)
    else 0
  }

  /** The booking order whose lines a payment call takes out of reserved. */
  ghost predicate Leaves(db: Db, c: Call)
    requires Possible(db, c)
  {
    && (c.PaymentFails? || c.PaymentCaptured?)
    && c.x in db.payments && db.payments[c.x].purpose == ForBooking
    && c.first.Some? && c.first.value in db.orders
    && db.payments[c.x].eri in db.bookings
    && Perform(db, c).db.orders != db.orders
  }

  ghost function Releasing(db: Db, c: Call, p: ProductId): nat
    requires Possible(db, c)
  {
    if c.PaymentFails? && Leaves(db, c)
    then UnitsAt(db, db.bookings[db.payments[c.x].eri].property, db.orders[c.first.value].lines, p) else 0
  }

  ghost function Selling(db: Db, c: Call, p: ProductId): nat
    requires Possible(db, c)
  {
    if c.PaymentCaptured? && Leaves(db, c)
    then UnitsAt(db, db.bookings[db.payments[c.x].eri].property, db.orders[c.first.value].lines, p) else 0
  }

  ghost function Reserved(inventory: Inventory, p: ProductId): int
  {
    if p in inventory then inventory[p].reserved else 0
  }

  lemma MovedReserved(
    db: Db, property: PropertyId, lines: seq<Line>, m: Movement, p: ProductId)
    requires m != Sell
    ensures Reserved(Moved(db.inventory, db.catalog, property, lines, m), p) == Reserved(db.inventory, p)
              + (if m == Reserve then 1 else -1) * UnitsAt(db, property, lines, p)
  {
  }

  lemma BookingReserves(
    db: Db, guest: GuestId, request: BookingRequest, offers: seq<RoomOffer>, eri: Eri, newOrder: OrderId, p: ProductId)
    requires newOrder !in db.orders
    ensures var r := CreateBookingOrder(db, guest, request, offers, eri, newOrder);
            Reserved(r.db.inventory, p) == Reserved(db.inventory, p)
              + if r.outcome.Booked? && newOrder in r.db.orders
                then UnitsAt(db, request.property, r.db.orders[newOrder].lines, p) else 0
  {
    hide Moved, ChecksHold, StoredRooms, ParseDateRange, Accepted, FirstError, Slots, OrderFor, Reserved, UnitsAt;
    var r := CreateBookingOrder(db, guest, request, offers, eri, newOrder);
    if r.outcome.Booked? {
      AcceptedAddonsFit(db, request.property, request.addons);
      var lines := AddonLines(db.catalog, request.addons);
      MovedReserved(db, request.property, lines, Reserve, p);
      if lines == [] {
        NothingMoves(db, request.property, Reserve);
      }
    }
  }

  lemma RollbackReleases(db: Db, eri: Eri, first: Option<OrderId>, p: ProductId)
    requires AnswersPending(db.orders, first, eri)
    ensures var r := RollbackPendingBooking(db, eri, first);
            Reserved(r.db.inventory, p) == Reserved(db.inventory, p)
              - if r.db.orders != db.orders && first.Some? && eri in db.bookings
                then UnitsAt(db, db.bookings[eri].property, db.orders[first.value].lines, p) else 0
  {
    hide Moved, ChecksHold, Reserved, UnitsAt;
    var r := RollbackPendingBooking(db, eri, first);
    if r.db != db {
      var property := db.bookings[eri].property;
      if first.Some? {
        MovedReserved(db, property, db.orders[first.value].lines, Release, p);
        assert first.value !in r.db.orders;
      } else {
        NothingMoves(db, property, Release);
      }
    }
  }

  lemma FailureReleases(db: Db, x: PaymentId, first: Option<OrderId>, p: ProductId)
    requires x in db.payments && AnswersPending(db.orders, first, db.payments[x].eri)
    ensures var r := HandlePaymentFailure(db, x, first);
            var eri := db.payments[x].eri;
            Reserved(r.db.inventory, p) == Reserved(db.inventory, p)
              - if db.payments[x].purpose == ForBooking && r.db.orders != db.orders && first.Some? && eri in db.bookings
                then UnitsAt(db, db.bookings[eri].property, db.orders[first.value].lines, p) else 0
  {
    hide RollbackPendingBooking, Unlinked, UnitsAt;
    var failed := SetPayment(db, x, Failed);
    RollbackReleases(failed, db.payments[x].eri, first, p);
    if first.Some? && db.payments[x].eri in db.bookings {
      SameUnitsAt(db, failed, db.bookings[db.payments[x].eri].property, db.orders[first.value].lines, p);
    }
  }

  lemma SameUnitsAt(db: Db, other: Db, property: PropertyId, lines: seq<Line>, p: ProductId)
    requires other.catalog == db.catalog && other.inventory == db.inventory
    ensures UnitsAt(other, property, lines, p) == UnitsAt(db, property, lines, p)
  {
  }

  lemma CaptureSells(db: Db, x: PaymentId, first: Option<OrderId>, p: ProductId)
    requires x in db.payments && AnswersPending(db.orders, first, db.payments[x].eri)
    ensures var r := FulfilBookingOrder(db, x, first);
            var eri := db.payments[x].eri;
            Reserved(r.db.inventory, p) == Reserved(db.inventory, p)
              - if r.db.orders != db.orders && first.Some? && eri in db.bookings
                then UnitsAt(db, db.bookings[eri].property, db.orders[first.value].lines, p) else 0
  {
    hide Moved, ChecksHold, Reserved, UnitsAt;
    var r := FulfilBookingOrder(db, x, first);
    if r.outcome == BookingConfirmed {
      var property := db.bookings[db.payments[x].eri].property;
      if first.Some? {
        MovedReserved(db, property, db.orders[first.value].lines, Finalise, p);
        assert r.db.orders[first.value] != db.orders[first.value];
      } else {
        NothingMoves(db, property, Finalise);
      }
    }
  }

  lemma OtherCallsKeepReserved(db: Db, c: Call, p: ProductId)
    requires Possible(db, c) && !c.Book? && !c.PaymentFails? && !c.PaymentCaptured?
    ensures Reserved(Perform(db, c).db.inventory, p) == Reserved(db.inventory, p)
  {
    hide UpdateProduct, Restock, MarkDamaged, BorrowableCheckout, RequestBorrowable, VerifyReturn, ReturnableIssue,
      ReturnableVerifyReturn, AddToCart, UpdateCartItem, RemoveCartItem, LinkBooking, SubmitKyc, AddSlot,
      DeleteSlot, CreateOrder, CreateBookingPayment;
    Frame(db, c);
    if p !in db.inventory {
      StepConserves(db, c, p);
    }
  }

  lemma FulfilSells(db: Db, x: PaymentId, first: Option<OrderId>, p: ProductId)
    requires x in db.payments ==> AnswersFulfil(db, x, first)
    ensures var r := FulfilOrder(db, x, first);
            Reserved(r.db.inventory, p) == Reserved(db.inventory, p)
              - if x in db.payments && db.payments[x].purpose == ForBooking && r.db.orders != db.orders && first.Some?
                   && db.payments[x].eri in db.bookings
                then UnitsAt(db, db.bookings[db.payments[x].eri].property, db.orders[first.value].lines, p) else 0
  {
    hide UnitsAt, FulfilBookingOrder, FulfilAddonOrder, AnswersPending, AnswersPayment;
    if x in db.payments && db.payments[x].status != Captured {
      if db.payments[x].purpose == ForBooking {
        CaptureSells(db, x, first, p);
      } else {
        AddonsKeepRows(db, x, first);
        AddonCaptureKeeps(db, x, first);
        KeptReserved(db.inventory, FulfilAddonOrder(db, x, first).db.inventory, p);
      }
    }
  }

  lemma AddonsKeepRows(db: Db, x: PaymentId, first: Option<OrderId>)
    requires x in db.payments && AnswersPayment(db.orders, first, x)
    ensures FulfilAddonOrder(db, x, first).db.inventory.Keys == db.inventory.Keys
  {
    hide ChecksHold, SomeLineShort;
  }

  ghost predicate Flows(db: Db, c: Call, p: ProductId)
    requires Possible(db, c)
  {
    Reserved(Perform(db, c).db.inventory, p)
    == Reserved(db.inventory, p) + Reserving(db, c, p) - Releasing(db, c, p) - Selling(db, c, p)
  }

  lemma BookFlows(db: Db, c: Call, p: ProductId)
    requires Possible(db, c) && c.Book?
    ensures Flows(db, c, p)
  {
    hide Reserved, UnitsAt, CreateBookingOrder;
    BookingReserves(db, c.guest, c.request, c.offers, c.eri, c.newOrder, p);
  }

  lemma FailureFlows(db: Db, c: Call, p: ProductId)
    requires Possible(db, c) && c.PaymentFails?
    ensures Flows(db, c, p)
  {
    hide Reserved, UnitsAt, HandlePaymentFailure;
    if c.x in db.payments {
      FailureReleases(db, c.x, c.first, p);
    } else {
      FailureUnknown(db, c.x, c.first);
    }
  }

  lemma CaptureFlows(db: Db, c: Call, p: ProductId)
    requires Possible(db, c) && c.PaymentCaptured?
    ensures Flows(db, c, p)
  {
    hide Reserved, UnitsAt, FulfilOrder;
    FulfilSells(db, c.x, c.first, p);
  }

  /** No condition is needed: the reserved counter changes only as a booking order enters or leaves it. */
  lemma StepFlows(db: Db, c: Call, p: ProductId)
    requires Possible(db, c)
    ensures Flows(db, c, p)
  {
    hide Reserved, Perform, Possible;
    match c
    case Book(_, _, _, _, _) => BookFlows(db, c, p);
    case PaymentFails(_, _) => FailureFlows(db, c, p);
    case PaymentCaptured(_, _) => CaptureFlows(db, c, p);
    case _ => OtherCallsKeepReserved(db, c, p);
  }

  lemma KeptReserved(before: Inventory, after: Inventory, p: ProductId)
    requires KeepsReserved(before, after)
    ensures p in before ==> Reserved(after, p) == Reserved(before, p)
    ensures p !in before && p !in after ==> Reserved(after, p) == Reserved(before, p)
  {
  }

  /** Units entering and leaving over a run. */
  ghost function Flow(db: Db, calls: seq<Call>, p: ProductId): (flow: (nat, nat, nat))
    requires PossibleRun(db, calls)
    decreases |calls|
  {
    if calls == [] then (0, 0, 0)
    else
      var rest := Flow(Perform(db, calls[0]).db, calls[1..], p);
      (rest.0 + Reserving(db, calls[0], p), rest.1 + Releasing(db, calls[0], p), rest.2 + Selling(db, calls[0], p))
  }

  lemma {:induction false} RunFlows(db: Db, calls: seq<Call>, p: ProductId)
    requires PossibleRun(db, calls)
    ensures var (entered, released, sold) := Flow(db, calls, p);
            Reserved(After(db, calls).inventory, p) == Reserved(db.inventory, p) + entered - released - sold
    decreases |calls|
  {
    hide Perform, Possible, Reserved, Reserving, Releasing, Selling;
    if calls != [] {
      StepFlows(db, calls[0], p);
      RunFlows(Perform(db, calls[0]).db, calls[1..], p);
    }
  }

  /**
   * Under cart separation, over any sequence of bookings, failures, late captures and retries: every
   * unit ever reserved has been released once, or sold once, or is still held by an open booking order.
   */
  lemma EveryReservedUnitLeavesOnce(properties: set<PropertyId>, guests: set<GuestId>, calls: seq<Call>, p: ProductId)
    requires PossibleRun(Empty(properties, guests), calls) && SeparatedRun(Empty(properties, guests), calls)
    requires IsCommodity(After(Empty(properties, guests), calls).catalog, p)
    requires p in After(Empty(properties, guests), calls).inventory
    ensures var (entered, released, sold) := Flow(Empty(properties, guests), calls, p);
            entered == released + sold + ReservedUnits(After(Empty(properties, guests), calls).orders, p)
  {
    RunFlows(Empty(properties, guests), calls, p);
    CountersAreExplained(properties, guests, calls, p);
  }
}
