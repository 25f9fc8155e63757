/**
 * The payment service, statement by statement. Reads that precede a transaction and the transaction
 * itself run as one step; a failed transaction puts back what it had written.
 */
module PaymentService {
  import opened Wrappers
  import opened Tables
  import opened Operations
  import opened Runs
  import opened Database
  import opened Ledger
  import PaymentLaws

  /** Some answer a search for a guest's open order may give. */
  lemma AnyCart(orders: map<OrderId, Order>, eri: Eri, guest: GuestId) returns (first: Option<OrderId>)
    ensures AnswersCart(orders, first, eri, guest)
  {
    if o :| MatchesCart(orders, o, eri, guest) {
      first := Some(o);
    } else {
      first := None;
    }
  }

  lemma AnyPending(orders: map<OrderId, Order>, eri: Eri) returns (first: Option<OrderId>)
    ensures AnswersPending(orders, first, eri)
  {
    if o :| MatchesPending(orders, o, eri) {
      first := Some(o);
    } else {
      first := None;
    }
  }

  lemma AnyFulfil(db: Db, x: PaymentId) returns (first: Option<OrderId>)
    ensures x in db.payments ==> AnswersFulfil(db, x, first)
  {
    if x in db.payments && db.payments[x].purpose == ForBooking {
      first := AnyPending(db.orders, db.payments[x].eri);
    } else if o :| MatchesPayment(db.orders, o, x) {
      first := Some(o);
    } else {
      first := None;
    }
  }

  /** The sum that a checkout charges. */
  method CartTotal(lines: seq<Line>) returns (total: nat)
    ensures total == LinesTotal(lines)
  {
    total := 0;
    for i := 0 to |lines|
      invariant total == LinesTotal(lines[..i])
    {
      assert lines[..i + 1][..i] == lines[..i];
      total := total + lines[i].totalPrice;
    }
    assert lines[..|lines|] == lines;
  }

  /** A linked payment that is not captured is unlinked; a captured one has paid the cart already. */
  method UnlinkStalePayment(db: Database, o: OrderId) returns (paid: bool)
    requires o in db.orders
    modifies db`orders
    ensures var link := old(db.orders)[o].payment;
            var linked := link.Some? && link.value in db.payments;
            && (paid <==> linked && db.payments[link.value].status == Captured)
            && db.orders == if linked && !paid then old(db.orders)[o := old(db.orders)[o].(payment := None)]
                            else old(db.orders)
  {
    var cart := db.orders[o];
    paid := false;
    if cart.payment.Some? && cart.payment.value in db.payments {
      if db.payments[cart.payment.value].status != Captured {
        db.orders := db.orders[o := cart.(payment := None)];
      } else {
        paid := true;
      }
    }
  }

  /** The statements of a cart's checkout. */
  method CheckOut(db: Database, guest: GuestId, eri: Eri, newPayment: PaymentId)
    returns (outcome: Outcome, ghost first: Option<OrderId>)
    modifies db
    ensures db.supplied == old(db.supplied)
    ensures AnswersCart(old(db.orders), first, eri, guest)
    ensures Reply(db.State(), outcome) == Operations.CreateOrder(old(db.State()), guest, eri, first, newPayment)
  {
    hide FreezesOrders, LinesTotal, SomeLineShort, AnswersCart, ChecksHold;
    if eri !in db.bookings {
      first := AnyCart(db.orders, eri, guest);
      return Refused(NotFound), first;
    }
    if (eri, guest) !in db.access {
      first := AnyCart(db.orders, eri, guest);
      return Refused(BadRequest), first;
    }
    var property := db.bookings[eri].property;
    var found := db.FindCart(eri, guest);
    first := found;
    if found.None? || db.orders[found.value].lines == [] {
      return Refused(BadRequest), first;
    }
    var o, cart := found.value, db.orders[found.value];
    var paid := UnlinkStalePayment(db, o);
    if paid {
      return Refused(BadRequest), first;
    }
    var total := CartTotal(cart.lines);
    if total <= 0 {
      return Refused(BadRequest), first;
    }
    var short := SomeShort(db.inventory, db.catalog, property, cart.lines);
    if short {
      return Refused(BadRequest), first;
    }
    db.payments := db.payments[newPayment := Payment(eri, guest, total, ForAddons, Created)];
    db.orders := db.orders[o := db.orders[o].(payment := Some(newPayment))];
    assert old(db.orders)[o := cart.(payment := None)][o := cart.(payment := Some(newPayment))]
        == old(db.orders)[o := cart.(payment := Some(newPayment))];
    return PaymentOpened(total), first;
  }

  method CreateOrder(db: Database, guest: GuestId, eri: Eri, newPayment: PaymentId)
    returns (outcome: Outcome, ghost first: Option<OrderId>)
    requires db.Valid()
    requires NewPayment(db.State(), newPayment)
    modifies db
    ensures db.Valid()
    ensures db.supplied == old(db.supplied)
    ensures AnswersCart(old(db.orders), first, eri, guest)
    ensures Reply(db.State(), outcome) == Operations.CreateOrder(old(db.State()), guest, eri, first, newPayment)
    ensures outcome.PaymentOpened? <==>
              && PaymentLaws.HasOpenCart(old(db.State()), guest, eri, first)
              && LinesTotal(old(db.orders)[first.value].lines) > 0
              && forall i | 0 <= i < |old(db.orders)[first.value].lines| ::
                   PaymentLaws.IsCovered(
                     old(db.State()), old(db.bookings)[eri].property, old(db.orders)[first.value].lines[i])
    ensures outcome.PaymentOpened? ==>
              && newPayment in db.payments
              && db.payments[newPayment].amount == outcome.amount == LinesTotal(old(db.orders)[first.value].lines)
  {
    hide Sound, Accounts, AnswersCart, NewPayment, LinesTotal, Operations.CreateOrder, PaymentLaws.IsCovered;
    ghost var before := db.State();
    outcome, first := CheckOut(db, guest, eri, newPayment);
    PaymentLaws.CheckoutExactly(before, guest, eri, first, newPayment);
    if outcome.PaymentOpened? {
      PaymentLaws.CheckoutWrites(before, guest, eri, first, newPayment);
    }
    CallKeeps(before, PayCart(guest, eri, first, newPayment), db.State(), db.supplied);
  }

  method CreateBookingPayment(
    db: Database, guest: GuestId, eri: Eri, grandTotal: int, order: Option<OrderId>, newPayment: PaymentId)
    returns (outcome: Outcome)
    requires db.Valid()
    requires NewPayment(db.State(), newPayment)
    modifies db
    ensures db.Valid()
    ensures db.supplied == old(db.supplied)
    ensures Reply(db.State(), outcome)
         == Operations.CreateBookingPayment(old(db.State()), guest, eri, grandTotal, order, newPayment)
  {
    hide Sound, Accounts, FreezesOrders;
    ghost var before := db.State();
    if grandTotal <= 0 {
      return Refused(BadRequest);
    }
    if eri !in db.bookings {
      return Refused(ConstraintViolated);
    }
    db.payments := db.payments[newPayment := Payment(eri, guest, grandTotal, ForBooking, Created)];
    outcome := PaymentOpened(grandTotal);
    if order.Some? {
      if order.value in db.orders {
        db.orders := db.orders[order.value := db.orders[order.value].(payment := Some(newPayment))];
      } else {
        outcome := Refused(NotFound);
      }
    }
    CallKeeps(before, PayBooking(guest, eri, grandTotal, order, newPayment), db.State(), db.supplied);
  }

  /** Open orders lose their link to the payment. */
  method UnlinkCarts(db: Database, x: PaymentId)
    modifies db`orders
    ensures db.orders == Unlinked(old(db.orders), x)
  {
    db.orders := map o | o in db.orders ::
      if db.orders[o].payment == Some(x) && db.orders[o].status == Pending
      then db.orders[o].(payment := None) else db.orders[o];
  }

  method HandlePaymentFailure(db: Database, x: PaymentId)
    returns (outcome: Outcome, ghost first: Option<OrderId>)
    requires db.Valid()
    modifies db
    ensures db.Valid()
    ensures db.supplied == old(db.supplied)
    ensures x in old(db.payments) ==> AnswersPending(old(db.orders), first, old(db.payments)[x].eri)
    ensures Reply(db.State(), outcome) == Operations.HandlePaymentFailure(old(db.State()), x, first)
  {
    hide Sound, Accounts, AnswersPending, ChecksHold, Unlinked, Operations.HandlePaymentFailure,
      Operations.RollbackPendingBooking;
    ghost var before := db.State();
    SoundChecks(before);
    if x !in db.payments {
      first := None;
      FailureUnknown(before, x, first);
      return Refused(NotFound), first;
    }
    var payment := db.payments[x];
    if payment.status == Captured {
      first := AnyPending(db.orders, payment.eri);
      FailureIsFinal(before, x, first);
      return AlreadyCaptured, first;
    }
    if payment.status == Failed {
      first := AnyPending(db.orders, payment.eri);
      FailureIsFinal(before, x, first);
      return AlreadyFailed, first;
    }
    db.payments := db.payments[x := payment.(status := Failed)];
    if payment.purpose == ForBooking {
      outcome, first := RollbackPendingBooking(db, payment.eri);
      FailureRollsBack(before, x, first);
    } else {
      first := AnyPending(db.orders, payment.eri);
      UnlinkCarts(db, x);
      outcome := Done;
      FailureUnlinks(before, x, first);
    }
    CallKeeps(before, PaymentFails(x, first), db.State(), db.supplied);
  }

  /** The foreign key from KYC submissions fails the deletion of the reservation's slots. */
  method SlotsAreReferred(db: Database, eri: Eri) returns (referred: bool)
    ensures referred <==> Submitted(db.submissions, eri)
  {
    var referring := set s | s in db.submissions && s.eri == eri;
    if referring == {} {
      assert forall s :: s in db.submissions && s.eri == eri ==> s in referring;
      return false;
    }
    var s :| s in referring;
    return true;
  }

  /** The rows of the reservation are dropped, but for the booking itself, which payments refer to. */
  method CancelBooking(db: Database, eri: Eri, booking: BookingRow)
    modifies db`slots, db`access, db`bookings
    ensures db.slots == old(db.slots) - {eri}
    ensures db.access == set a | a in old(db.access) && a.0 != eri
    ensures db.bookings == old(db.bookings)[eri := booking.(status := Cancelled, active := false)]
  {
    db.slots := db.slots - {eri};
    db.access := set a | a in db.access && a.0 != eri;
    db.bookings := db.bookings[eri := booking.(status := Cancelled, active := false)];
  }

  method RollbackPendingBooking(db: Database, eri: Eri) returns (outcome: Outcome, ghost first: Option<OrderId>)
    requires db.Checked()
    modifies db
    ensures db.Checked() && db.supplied == old(db.supplied)
    ensures AnswersPending(old(db.orders), first, eri)
    ensures Reply(db.State(), outcome) == Operations.RollbackPendingBooking(old(db.State()), eri, first)
  {
    hide AnswersPending, ChecksHold, Moved, Submitted, Operations.RollbackPendingBooking;
    if eri !in db.bookings || db.bookings[eri].status != PendingPayment {
      first := AnyPending(db.orders, eri);
      RollbackCases(db.State(), eri, first);
      return Done, first;
    }
    var booking := db.bookings[eri];
    var found := db.FindPending(eri);
    first := found;
    RollbackCases(db.State(), eri, first);
    var lines := if found.Some? then db.orders[found.value].lines else [];
    var savedInventory, savedOrders := db.inventory, db.orders;
    var ok := db.MoveLines(lines, booking.property, Release);
    if !ok {
      return Refused(ConstraintViolated), first;
    }
    if found.Some? {
      db.orders := db.orders - {found.value};
    }
    var referred := SlotsAreReferred(db, eri);
    if referred {
      db.inventory, db.orders := savedInventory, savedOrders;
      return Refused(ConstraintViolated), first;
    }
    CancelBooking(db, eri, booking);
    return Done, first;
  }

  /** Idempotent: a captured payment changes nothing. */
  method FulfilOrder(db: Database, x: PaymentId) returns (outcome: Outcome, ghost first: Option<OrderId>)
    requires db.Valid()
    modifies db
    ensures db.Valid()
    ensures db.supplied == old(db.supplied)
    ensures x in old(db.payments) ==> AnswersFulfil(old(db.State()), x, first)
    ensures Reply(db.State(), outcome) == Operations.FulfilOrder(old(db.State()), x, first)
  {
    hide Sound, Accounts, FreezesOrders, KeepsBorrowed, KeepsReserved, AnswersPending, AnswersPayment, ChecksHold,
      Operations.FulfilBookingOrder, Operations.FulfilAddonOrder;
    ghost var before := db.State();
    SoundChecks(before);
    first := None;
    if x !in db.payments {
      return Refused(NotFound), first;
    }
    if db.payments[x].status == Captured {
      first := AnyFulfil(db.State(), x);
      return AlreadyCaptured, first;
    }
    if db.payments[x].purpose == ForBooking {
      outcome, first := FulfilBookingOrder(db, x);
    } else {
      outcome, first := FulfilAddonOrder(db, x);
    }
    CallKeeps(before, PaymentCaptured(x, first), db.State(), db.supplied);
  }

  method FulfilBookingOrder(db: Database, x: PaymentId) returns (outcome: Outcome, ghost first: Option<OrderId>)
    requires db.Checked() && x in db.payments
    modifies db
    ensures db.Checked() && db.supplied == old(db.supplied)
    ensures AnswersPending(old(db.orders), first, old(db.payments)[x].eri)
    ensures Reply(db.State(), outcome) == Operations.FulfilBookingOrder(old(db.State()), x, first)
  {
    hide AnswersPending, ChecksHold, Moved;
    var eri := db.payments[x].eri;
    if eri !in db.bookings {
      first := AnyPending(db.orders, eri);
      return Refused(NotFound), first;
    }
    var booking := db.bookings[eri];
    if booking.status == Confirmed {
      first := AnyPending(db.orders, eri);
      db.payments := db.payments[x := db.payments[x].(status := Captured)];
      return BookingWasConfirmed, first;
    }
    var savedBookings := db.bookings;
    db.bookings := db.bookings[eri := booking.(status := Confirmed)];
    var found := db.FindPending(eri);
    first := found;
    var lines := if found.Some? then db.orders[found.value].lines else [];
    var ok := db.MoveLines(lines, booking.property, Finalise);
    if !ok {
      db.bookings := savedBookings;
      return Refused(ConstraintViolated), first;
    }
    if found.Some? {
      db.orders := db.orders[found.value := db.orders[found.value].(status := Paid)];
    }
    db.payments := db.payments[x := db.payments[x].(status := Captured)];
    return BookingConfirmed, first;
  }

  method FulfilAddonOrder(db: Database, x: PaymentId) returns (outcome: Outcome, ghost first: Option<OrderId>)
    requires db.Checked() && x in db.payments
    modifies db
    ensures db.Checked() && db.supplied == old(db.supplied)
    ensures AnswersPayment(old(db.orders), first, x)
    ensures Reply(db.State(), outcome) == Operations.FulfilAddonOrder(old(db.State()), x, first)
  {
    hide AnswersPayment, ChecksHold, Moved, SomeLineShort;
    var found := db.FindByPayment(x);
    first := found;
    if found.None? {
      return Refused(NotFound), first;
    }
    var o, order, eri := found.value, db.orders[found.value], db.payments[x].eri;
    if eri !in db.bookings {
      return Refused(NotFound), first;
    }
    var property := db.bookings[eri].property;
    var short := SomeShort(db.inventory, db.catalog, property, order.lines);
    if short {
      db.payments := db.payments[x := db.payments[x].(status := RefundNeeded)];
      db.orders := db.orders[o := order.(status := FailedStock)];
      return NeedsRefund, first;
    }
    var ok := db.MoveLines(order.lines, property, Sell);
    if !ok {
      return Refused(ConstraintViolated), first;
    }
    db.payments := db.payments[x := db.payments[x].(status := Captured)];
    db.orders := db.orders[o := order.(status := Paid)];
    return AddonsFulfilled, first;
  }
}
