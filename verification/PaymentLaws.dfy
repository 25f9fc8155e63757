/** What a payment charges, when it is opened, and what becomes of it and of the orders linked to it. */
module PaymentLaws {
  import opened Wrappers
  import opened Tables
  import opened Operations

  /** What a checkout charges is the sum of the line totals. */
  lemma ChargeIsTheSum(lines: seq<Line>, line: Line)
    ensures LinesTotal([]) == 0
    ensures LinesTotal(lines + [line]) == LinesTotal(lines) + line.totalPrice
  {
    assert (lines + [line])[..|lines|] == lines;
  }

  // ---------------------------------------------------------------- checkout of a cart

  /** A counted product has a row at the property that covers the line by itself. */
  ghost predicate IsCovered(db: Db, property: PropertyId, line: Line)
  {
    line.product in db.catalog && db.catalog[line.product].category == Commodity ==>
      && line.product in db.inventory && db.inventory[line.product].property == property
      && line.quantity <= db.inventory[line.product].available
  }

  /** The order is linked to a known payment in this status. */
  ghost predicate IsLinkedTo(db: Db, o: OrderId, status: PaymentStatus)
    requires o in db.orders
  {
    && db.orders[o].payment.Some? && db.orders[o].payment.value in db.payments
    && db.payments[db.orders[o].payment.value].status == status
  }

  /** Access to a known booking, and a cart with something in it that is not paid yet. */
  ghost predicate HasOpenCart(db: Db, guest: GuestId, eri: Eri, first: Option<OrderId>)
  {
    && eri in db.bookings && (eri, guest) in db.access
    && first.Some? && first.value in db.orders && db.orders[first.value].lines != []
    && !IsLinkedTo(db, first.value, Captured)
  }

  lemma ShortExactly(db: Db, property: PropertyId, lines: seq<Line>)
    ensures SomeLineShort(db.inventory, db.catalog, property, lines)
            <==> !(forall i | 0 <= i < |lines| :: IsCovered(db, property, lines[i]))
  {
    assert forall i | 0 <= i < |lines| ::
      LineShort(db.inventory, db.catalog, property, lines[i]) <==> !IsCovered(db, property, lines[i]);
  }

  /**
   * A payment is opened exactly for an open cart with a positive sum and every line covered; a link to a payment
   * that is not captured does not stand in the way. It is for the sum of all lines.
   */
  lemma CheckoutExactly(db: Db, guest: GuestId, eri: Eri, first: Option<OrderId>, newPayment: PaymentId)
    requires AnswersCart(db.orders, first, eri, guest)
    ensures var r := CreateOrder(db, guest, eri, first, newPayment);
            && (r.outcome.PaymentOpened? <==>
                 && HasOpenCart(db, guest, eri, first)
                 && LinesTotal(db.orders[first.value].lines) > 0
                 && forall i | 0 <= i < |db.orders[first.value].lines| ::
                      IsCovered(db, db.bookings[eri].property, db.orders[first.value].lines[i]))
            && (r.outcome.PaymentOpened? ==> r.outcome.amount == LinesTotal(db.orders[first.value].lines))
            && (!r.outcome.PaymentOpened? ==>
                 r.outcome == Refused(if eri in db.bookings then BadRequest else NotFound))
  {
    hide LinesTotal, SomeLineShort, IsCovered, OpensPayment;
    if HasOpenCart(db, guest, eri, first) {
      ShortExactly(db, db.bookings[eri].property, db.orders[first.value].lines);
    }
  }

  /** The payment that was opened, and the cart linked to it; nothing else is written. */
  lemma CheckoutWrites(db: Db, guest: GuestId, eri: Eri, first: Option<OrderId>, newPayment: PaymentId)
    requires AnswersCart(db.orders, first, eri, guest)
    requires CreateOrder(db, guest, eri, first, newPayment).outcome.PaymentOpened?
    ensures first.Some? && first.value in db.orders
    ensures var r := CreateOrder(db, guest, eri, first, newPayment);
            && newPayment in r.db.payments && r.db.payments == db.payments[newPayment := r.db.payments[newPayment]]
            && r.db.payments[newPayment].eri == eri && r.db.payments[newPayment].guest == guest
            && r.db.payments[newPayment].amount == LinesTotal(db.orders[first.value].lines)
            && r.db.payments[newPayment].purpose == ForAddons && r.db.payments[newPayment].status == Created
            && r.db.orders == db.orders[first.value := db.orders[first.value].(payment := Some(newPayment))]
            && r.db == db.(payments := r.db.payments, orders := r.db.orders)
  {
    hide CreateOrder, LinesTotal, IsCovered;
    CheckoutExactly(db, guest, eri, first, newPayment);
  }

  /** A refused checkout writes nothing but the removal of a link to a payment that is not captured. */
  lemma RefusedCheckoutWrites(db: Db, guest: GuestId, eri: Eri, first: Option<OrderId>, newPayment: PaymentId)
    requires AnswersCart(db.orders, first, eri, guest)
    requires !CreateOrder(db, guest, eri, first, newPayment).outcome.PaymentOpened?
    ensures first.Some? ==> first.value in db.orders
    ensures CreateOrder(db, guest, eri, first, newPayment).db
            == if HasOpenCart(db, guest, eri, first)
                  && db.orders[first.value].payment.Some? && db.orders[first.value].payment.value in db.payments
               then db.(orders := db.orders[first.value := db.orders[first.value].(payment := None)])
               else db
  {
    hide LinesTotal, SomeLineShort, OpensPayment;
  }

  // ---------------------------------------------------------------- booking payments

  /**
   * A booking payment is opened for a positive amount, exactly when the booking and the named order exist; an
   * unknown order fails only the link.
   */
  lemma BookingPaymentExactly(
    db: Db, guest: GuestId, eri: Eri, amount: int, order: Option<OrderId>, newPayment: PaymentId)
    ensures var r := CreateBookingPayment(db, guest, eri, amount, order, newPayment);
            && (r.outcome == PaymentOpened(amount) <==>
                 amount > 0 && eri in db.bookings && (order.Some? ==> order.value in db.orders))
            && (r.outcome != PaymentOpened(amount) ==>
                 r.outcome == Refused(if amount <= 0 then BadRequest
                                      else if eri !in db.bookings then ConstraintViolated else NotFound))
            && (amount <= 0 || eri !in db.bookings ==> r.db == db)
            && (amount > 0 && eri in db.bookings ==>
                 && newPayment in r.db.payments
                 && r.db.payments == db.payments[newPayment := r.db.payments[newPayment]]
                 && r.db.payments[newPayment].eri == eri && r.db.payments[newPayment].guest == guest
                 && r.db.payments[newPayment].amount == amount
                 && r.db.payments[newPayment].purpose == ForBooking && r.db.payments[newPayment].status == Created)
            && (amount > 0 && eri in db.bookings && order.Some? && order.value in db.orders ==>
                 r.db.orders == db.orders[order.value := db.orders[order.value].(payment := Some(newPayment))])
            && (order.None? || order.value !in db.orders ==> r.db.orders == db.orders)
  {
    hide FreezesOrders;
  }

  // ---------------------------------------------------------------- failures and captures

  /** The failure of a cart's payment: FAILED, and each open order that was linked to it can be paid anew. */
  lemma CartFailureExactly(db: Db, x: PaymentId, first: Option<OrderId>)
    requires x in db.payments && AnswersPending(db.orders, first, db.payments[x].eri)
    requires db.payments[x].purpose == ForAddons
    requires db.payments[x].status != Captured && db.payments[x].status != Failed
    ensures var r := HandlePaymentFailure(db, x, first);
            && r.outcome == Done
            && r.db == db.(payments := r.db.payments, orders := r.db.orders)
            && r.db.payments == db.payments[x := db.payments[x].(status := Failed)]
            && r.db.orders.Keys == db.orders.Keys
            && forall o | o in db.orders ::
                 if db.orders[o].payment == Some(x) && db.orders[o].status == Pending
                 then r.db.orders[o] == db.orders[o].(payment := None)
                 else r.db.orders[o] == db.orders[o]
  {
    hide HandlePaymentFailure, AnswersPending;
    FailureUnlinks(db, x, first);
  }

  /** No counter of a row would go negative. */
  ghost predicate StockAllows(db: Db, property: PropertyId, lines: seq<Line>, m: Movement)
  {
    forall p | p in db.inventory && p in db.catalog && db.catalog[p].category == Commodity
               && db.inventory[p].property == property ::
      (if m == Sell then db.inventory[p].available else db.inventory[p].reserved) >= Units(lines, p)
  }

  lemma ChecksExactly(db: Db, property: PropertyId, lines: seq<Line>, m: Movement)
    requires ChecksHold(db.inventory) && m != Reserve
    ensures ChecksHold(Moved(db.inventory, db.catalog, property, lines, m)) <==> StockAllows(db, property, lines, m)
  {
    var moved := Moved(db.inventory, db.catalog, property, lines, m);
    forall p | p in db.inventory
      ensures moved[p].NonNegative() <==>
              (IsCommodity(db.catalog, p) && db.inventory[p].property == property ==>
                 (if m == Sell then db.inventory[p].available else db.inventory[p].reserved) >= Units(lines, p))
    {
      assert db.inventory[p].NonNegative();
    }
  }

  /**
   * The failure of a booking's payment: FAILED in any case. A booking still waiting for its payment is rolled
   * back exactly when the order that was found is still reserved in full and no KYC submission names one of
   * its slots; otherwise nothing else is written.
   */
  lemma BookingFailureExactly(db: Db, x: PaymentId, first: Option<OrderId>)
    requires x in db.payments && AnswersPending(db.orders, first, db.payments[x].eri) && ChecksHold(db.inventory)
    requires db.payments[x].purpose == ForBooking
    requires db.payments[x].status != Captured && db.payments[x].status != Failed
    ensures first.Some? ==> first.value in db.orders
    ensures var r, eri := HandlePaymentFailure(db, x, first), db.payments[x].eri;
            var failed := db.(payments := db.payments[x := db.payments[x].(status := Failed)]);
            var waiting := eri in db.bookings && db.bookings[eri].status == PendingPayment;
            && (!waiting ==> r == Reply(failed, Done))
            && (waiting ==>
                 var lines := if first.Some? then db.orders[first.value].lines else [];
                 if StockAllows(db, db.bookings[eri].property, lines, Release)
                    && (forall s | s in db.submissions :: s.eri != eri)
                 then r.outcome == Done && IsCancelled(failed, r.db, eri, first)
                 else r == Reply(failed, Refused(ConstraintViolated)))
  {
    hide HandlePaymentFailure, RollbackPendingBooking, AnswersPending, Moved, ChecksHold, StockAllows;
    var eri := db.payments[x].eri;
    FailureRollsBack(db, x, first);
    RollbackCases(SetPayment(db, x, Failed), eri, first);
    if eri in db.bookings {
      var lines := if first.Some? then db.orders[first.value].lines else [];
      ChecksExactly(db, db.bookings[eri].property, lines, Release);
    }
  }

  /** The booking cancelled and inactive, its slots, access and order gone, and the order's units available again. */
  ghost predicate IsCancelled(db: Db, after: Db, eri: Eri, first: Option<OrderId>)
    requires eri in db.bookings && (first.Some? ==> first.value in db.orders)
  {
    && after == db.(bookings := after.bookings, access := after.access, slots := after.slots,
                    orders := after.orders, inventory := after.inventory)
    && after.bookings == db.bookings[eri := db.bookings[eri].(status := Cancelled, active := false)]
    && (forall a :: a in after.access <==> a in db.access && a.0 != eri)
    && after.slots == (map e | e in db.slots && e != eri :: db.slots[e])
    && after.orders == (map o | o in db.orders && first != Some(o) :: db.orders[o])
    && after.inventory == Moved(db.inventory, db.catalog, db.bookings[eri].property,
                                if first.Some? then db.orders[first.value].lines else [], Release)
  }

  /** What a movement does to the row of a counted product of the property; every other row stays. */
  lemma MovementExactly(
    inventory: Inventory, catalog: Catalog, property: PropertyId, lines: seq<Line>, p: ProductId, m: Movement)
    requires p in inventory
    ensures p in Moved(inventory, catalog, property, lines, m)
    ensures var counted := p in catalog && catalog[p].category == Commodity && inventory[p].property == property;
            var s, q := inventory[p], if counted then Units(lines, p) else 0;
            var after := Moved(inventory, catalog, property, lines, m)[p];
            && after == s.(available := after.available, reserved := after.reserved, sold := after.sold)
            && after.available == s.available + (if m == Release then q else if m == Finalise then 0 else -q)
            && after.reserved == s.reserved + (if m == Reserve then q else if m == Sell then 0 else -q)
            && after.sold == s.sold + (if m == Finalise || m == Sell then q else 0)
  {
    hide Units;
  }

  /** Unknown payments are refused; a captured or failed one is reported as such and changes nothing. */
  lemma FinalFailureExactly(db: Db, x: PaymentId, first: Option<OrderId>)
    requires x in db.payments ==> AnswersPending(db.orders, first, db.payments[x].eri)
    ensures x !in db.payments ==> HandlePaymentFailure(db, x, first) == Reply(db, Refused(NotFound))
    ensures x in db.payments && db.payments[x].status == Captured ==>
              HandlePaymentFailure(db, x, first) == Reply(db, AlreadyCaptured)
    ensures x in db.payments && db.payments[x].status == Failed ==>
              HandlePaymentFailure(db, x, first) == Reply(db, AlreadyFailed)
  {
    hide HandlePaymentFailure, AnswersPending;
    if x !in db.payments {
      FailureUnknown(db, x, first);
    } else if !FailsNow(db, x) {
      FailureIsFinal(db, x, first);
    }
  }

  /**
   * A booking payment that is captured: a confirmed booking only gets the payment captured; any other known
   * booking is confirmed exactly when the order that was found is still reserved in full, and otherwise
   * nothing is written.
   */
  lemma BookingCaptureExactly(db: Db, x: PaymentId, first: Option<OrderId>)
    requires x in db.payments && AnswersPending(db.orders, first, db.payments[x].eri) && ChecksHold(db.inventory)
    requires db.payments[x].purpose == ForBooking && db.payments[x].status != Captured
    ensures first.Some? ==> first.value in db.orders
    ensures var r, eri := FulfilOrder(db, x, first), db.payments[x].eri;
            var lines := if first.Some? then db.orders[first.value].lines else [];
            && (eri !in db.bookings ==> r == Reply(db, Refused(NotFound)))
            && (eri in db.bookings && db.bookings[eri].status == Confirmed ==>
                 r == Reply(db.(payments := db.payments[x := db.payments[x].(status := Captured)]),
                            BookingWasConfirmed))
            && (eri in db.bookings && db.bookings[eri].status != Confirmed ==>
                 r.outcome == if StockAllows(db, db.bookings[eri].property, lines, Finalise) then BookingConfirmed
                              else Refused(ConstraintViolated))
            && (r.outcome.Refused? ==> r.db == db)
  {
    hide FulfilBookingOrder, AnswersPending, Moved, ChecksHold, StockAllows;
    FoundExists(db.orders, first, db.payments[x].eri);
    if db.payments[x].eri in db.bookings {
      var lines := if first.Some? then db.orders[first.value].lines else [];
      ChecksExactly(db, db.bookings[db.payments[x].eri].property, lines, Finalise);
      CaptureOutcome(db, x, first);
    } else {
      UnknownBookingCaptured(db, x, first);
    }
    RefusedCapture(db, x, first);
  }

  lemma UnknownBookingCaptured(db: Db, x: PaymentId, first: Option<OrderId>)
    requires x in db.payments && AnswersPending(db.orders, first, db.payments[x].eri)
    requires db.payments[x].eri !in db.bookings
    ensures FulfilBookingOrder(db, x, first) == Reply(db, Refused(NotFound))
  {
    hide Moved, ChecksHold;
  }

  lemma RefusedCapture(db: Db, x: PaymentId, first: Option<OrderId>)
    requires x in db.payments && AnswersPending(db.orders, first, db.payments[x].eri)
    ensures FulfilBookingOrder(db, x, first).outcome.Refused? ==> FulfilBookingOrder(db, x, first).db == db
  {
    hide Moved, ChecksHold;
  }

  /** The rows of a confirmation: booking, payment, order and stock, and no others. */
  lemma BookingCaptureWrites(db: Db, x: PaymentId, first: Option<OrderId>)
    requires x in db.payments && AnswersPending(db.orders, first, db.payments[x].eri)
    requires db.payments[x].purpose == ForBooking && db.payments[x].status != Captured
    requires FulfilOrder(db, x, first).outcome == BookingConfirmed
    ensures first.Some? ==> first.value in db.orders
    ensures var r, eri := FulfilOrder(db, x, first), db.payments[x].eri;
            && eri in db.bookings
            && r.db == db.(
                 bookings := db.bookings[eri := db.bookings[eri].(status := Confirmed)],
                 payments := db.payments[x := db.payments[x].(status := Captured)],
                 orders := if first.Some? then db.orders[first.value := db.orders[first.value].(status := Paid)]
                           else db.orders,
                 inventory := Moved(db.inventory, db.catalog, db.bookings[eri].property,
                                    if first.Some? then db.orders[first.value].lines else [], Finalise))
  {
    hide FulfilBookingOrder, AnswersPending, Moved;
    FoundExists(db.orders, first, db.payments[x].eri);
    CaptureWrites(db, x, first);
  }

  /** Captures of unknown and of captured payments. */
  lemma FinalCaptureExactly(db: Db, x: PaymentId, first: Option<OrderId>)
    requires x in db.payments ==> AnswersFulfil(db, x, first)
    ensures x !in db.payments ==> FulfilOrder(db, x, first) == Reply(db, Refused(NotFound))
    ensures x in db.payments && db.payments[x].status == Captured ==>
              FulfilOrder(db, x, first) == Reply(db, AlreadyCaptured)
  {
    hide FulfilBookingOrder, FulfilAddonOrder;
  }

  /** Addon payments without an order or a booking are refused. */
  lemma AddonCaptureNeedsOrder(db: Db, x: PaymentId, first: Option<OrderId>)
    requires x in db.payments && AnswersPayment(db.orders, first, x)
    ensures FulfilAddonOrder(db, x, first).outcome == Refused(NotFound) <==>
            first.None? || db.payments[x].eri !in db.bookings
  {
    hide Moved, ChecksHold, SomeLineShort;
  }
}
