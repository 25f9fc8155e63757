/**
 * A rollback that a KYC submission stopped is not made up for: the booking stays pending and its units stay
 * reserved, whatever is called afterwards, until a booking payment of the reservation is opened or captured.
 */
module HeldStock {
  import opened Wrappers
  import opened Tables
  import opened Operations
  import opened Runs
  import opened Coupling
  import opened Integrity
  import opened Payments
  import opened Exactness
  import opened Reachable

  /** The booking payments of the reservation have all failed. */
  ghost predicate AllFailed(payments: map<PaymentId, Payment>, eri: Eri)
  {
    forall x | x in payments && payments[x].eri == eri && payments[x].purpose == ForBooking ::
      payments[x].status == Failed
  }

  ghost predicate HoldsOrder(orders: map<OrderId, Order>, eri: Eri, o: OrderId, lines: seq<Line>)
  {
    && o in orders && orders[o].eri == eri
    && orders[o].phase == Booking && orders[o].status == Pending && orders[o].lines == lines
  }

  /** Pending, with an open order of its own and no booking payment that has not failed. */
  ghost predicate Held(db: Db, eri: Eri, o: OrderId, lines: seq<Line>)
  {
    IsPending(db, eri) && HoldsOrder(db.orders, eri, o, lines) && AllFailed(db.payments, eri)
  }

  /** No booking payment of the reservation is opened or captured. */
  ghost predicate Quiet(db: Db, c: Call, eri: Eri)
  {
    && (c.PayBooking? ==> c.eri != eri)
    && (c.PaymentCaptured? && c.x in db.payments && db.payments[c.x].purpose == ForBooking ==>
         db.payments[c.x].eri != eri)
  }

  ghost predicate QuietRun(db: Db, calls: seq<Call>, eri: Eri)
    requires PossibleRun(db, calls)
    decreases |calls|
  {
    calls == [] || (Quiet(db, calls[0], eri) && QuietRun(Perform(db, calls[0]).db, calls[1..], eri))
  }

  // ---------------------------------------------------------------- calls that write other rows

  lemma CartCallHolds(db: Db, c: Call, eri: Eri, o: OrderId, lines: seq<Line>)
    requires Possible(db, c) && Separated(db, c) && (c.AddItem? || c.ChangeItem? || c.RemoveItem?)
    requires HoldsOrder(db.orders, eri, o, lines)
    ensures HoldsOrder(Perform(db, c).db.orders, eri, o, lines)
  {
    hide AddToCart, UpdateCartItem, RemoveCartItem, AnswersCart, FreezesOrders;
    match c
    case AddItem(guest, e, p, quantity, unitCode, checkedIn, first, newOrder, newLine) =>
      AdditionWrites(db, guest, e, p, quantity, unitCode, checkedIn, first, newOrder, newLine);
    case ChangeItem(guest, e, item, quantity) => ChangeWrites(db, guest, e, item, quantity);
    case RemoveItem(guest, e, item) => RemovalWrites(db, guest, e, item);
  }

  lemma CartPaymentHolds(db: Db, c: Call, eri: Eri, o: OrderId, lines: seq<Line>)
    requires Possible(db, c) && Separated(db, c) && c.PayCart? && Held(db, eri, o, lines)
    ensures Held(Perform(db, c).db, eri, o, lines)
  {
    hide CreateOrder, AnswersCart;
    Frame(db, c);
  }

  lemma BookingPaymentHolds(
    db: Db, guest: GuestId, e: Eri, amount: int, order: Option<OrderId>, newPayment: PaymentId,
    eri: Eri, o: OrderId, lines: seq<Line>)
    requires e != eri && newPayment !in db.payments && Held(db, eri, o, lines)
    ensures Held(CreateBookingPayment(db, guest, e, amount, order, newPayment).db, eri, o, lines)
  {
    hide CreateBookingPayment, FreezesOrders;
    BookingPaymentWrites(db, guest, e, amount, order, newPayment);
  }

  lemma BookHolds(db: Db, c: Call, eri: Eri, o: OrderId, lines: seq<Line>)
    requires Possible(db, c) && c.Book? && Held(db, eri, o, lines)
    ensures Held(Perform(db, c).db, eri, o, lines)
  {
    hide CreateBookingOrder, FreezesOrders, KeepsBorrowed;
    BookingWrites(db, c.guest, c.request, c.offers, c.eri, c.newOrder);
    BookingRowWritten(db, c.guest, c.request, c.offers, c.eri, c.newOrder);
  }

  // ---------------------------------------------------------------- failures

  /** A rollback of another reservation takes another order. */
  lemma OtherRollbackHolds(db: Db, e: Eri, first: Option<OrderId>, eri: Eri, o: OrderId, lines: seq<Line>)
    requires AnswersPending(db.orders, first, e) && e != eri && Held(db, eri, o, lines)
    ensures Held(RollbackPendingBooking(db, e, first).db, eri, o, lines)
  {
    hide RollbackPendingBooking, ChecksHold, Submitted, Moved, AllFailed;
    FoundExists(db.orders, first, e);
    RollbackCases(db, e, first);
  }

  lemma SettledPayments(db: Db, x: PaymentId, status: PaymentStatus, eri: Eri, o: OrderId, lines: seq<Line>)
    requires x in db.payments && Held(db, eri, o, lines)
    requires db.payments[x].eri != eri || db.payments[x].purpose != ForBooking
    ensures Held(SetPayment(db, x, status), eri, o, lines)
  {
  }

  lemma UnlinkedHolds(db: Db, x: PaymentId, eri: Eri, o: OrderId, lines: seq<Line>)
    requires Held(db, eri, o, lines)
    ensures Held(db.(orders := Unlinked(db.orders, x)), eri, o, lines)
  {
    hide AllFailed;
  }

  lemma FailureHolds(db: Db, x: PaymentId, first: Option<OrderId>, eri: Eri, o: OrderId, lines: seq<Line>)
    requires x in db.payments && AnswersPending(db.orders, first, db.payments[x].eri) && Held(db, eri, o, lines)
    ensures Held(HandlePaymentFailure(db, x, first).db, eri, o, lines)
  {
    FinalIfOwn(db, x, eri, o, lines);
    hide HandlePaymentFailure, RollbackPendingBooking, Unlinked, AnswersPending, Held;
    if !FailsNow(db, x) {
      FailureIsFinal(db, x, first);
    } else {
      SettledPayments(db, x, Failed, eri, o, lines);
      if db.payments[x].purpose == ForBooking {
        FailureRollsBack(db, x, first);
        OtherRollbackHolds(SetPayment(db, x, Failed), db.payments[x].eri, first, eri, o, lines);
      } else {
        FailureUnlinks(db, x, first);
        UnlinkedHolds(SetPayment(db, x, Failed), x, eri, o, lines);
      }
    }
  }

  lemma FinalIfOwn(db: Db, x: PaymentId, eri: Eri, o: OrderId, lines: seq<Line>)
    requires x in db.payments && Held(db, eri, o, lines)
    ensures db.payments[x].eri == eri && db.payments[x].purpose == ForBooking ==> !FailsNow(db, x)
  {
  }

  // ---------------------------------------------------------------- captures

  lemma OtherCaptureHolds(db: Db, x: PaymentId, first: Option<OrderId>, eri: Eri, o: OrderId, lines: seq<Line>)
    requires x in db.payments && AnswersPending(db.orders, first, db.payments[x].eri)
    requires db.payments[x].eri != eri && Held(db, eri, o, lines)
    ensures Held(FulfilBookingOrder(db, x, first).db, eri, o, lines)
  {
    hide FulfilBookingOrder, Moved;
    FoundExists(db.orders, first, db.payments[x].eri);
    CaptureWrites(db, x, first);
  }

  /** Addon payments are linked to carts only. */
  lemma AddonCaptureHolds(db: Db, x: PaymentId, first: Option<OrderId>, eri: Eri, o: OrderId, lines: seq<Line>)
    requires x in db.payments && AnswersPayment(db.orders, first, x) && db.payments[x].purpose == ForAddons
    requires Linked(db) && Held(db, eri, o, lines)
    ensures Held(FulfilAddonOrder(db, x, first).db, eri, o, lines)
  {
    hide FulfilAddonOrder, Moved;
    assert first.Some? ==> LinkFits(db.orders[first.value], db.payments);
    AddonCaptureWrites(db, x, first);
  }

  lemma CaptureCallHolds(db: Db, c: Call, eri: Eri, o: OrderId, lines: seq<Line>)
    requires Possible(db, c) && c.PaymentCaptured? && Quiet(db, c, eri) && Linked(db) && Held(db, eri, o, lines)
    ensures Held(Perform(db, c).db, eri, o, lines)
  {
    hide FulfilBookingOrder, FulfilAddonOrder, Held, Linked;
    if c.x in db.payments && db.payments[c.x].status != Captured {
      if db.payments[c.x].purpose == ForBooking {
        OtherCaptureHolds(db, c.x, c.first, eri, o, lines);
      } else {
        AddonCaptureHolds(db, c.x, c.first, eri, o, lines);
      }
    }
  }

  // ---------------------------------------------------------------- every call, every run

  lemma CartCallKeepsHeld(db: Db, c: Call, eri: Eri, o: OrderId, lines: seq<Line>)
    requires Possible(db, c) && Separated(db, c) && (c.AddItem? || c.ChangeItem? || c.RemoveItem?)
    requires Held(db, eri, o, lines)
    ensures Held(Perform(db, c).db, eri, o, lines)
  {
    hide Perform, Possible, Separated, HoldsOrder;
    Frame(db, c);
    CartCallHolds(db, c, eri, o, lines);
  }

  lemma OtherCallKeepsHeld(db: Db, c: Call, eri: Eri, o: OrderId, lines: seq<Line>)
    requires Possible(db, c) && !WritesOrders(c) && Held(db, eri, o, lines)
    ensures Held(Perform(db, c).db, eri, o, lines)
  {
    hide Perform, Possible;
    Frame(db, c);
  }

  lemma BookingPaymentCallHolds(db: Db, c: Call, eri: Eri, o: OrderId, lines: seq<Line>)
    requires Possible(db, c) && c.PayBooking? && Quiet(db, c, eri) && Held(db, eri, o, lines)
    ensures Held(Perform(db, c).db, eri, o, lines)
  {
    hide CreateBookingPayment, Held, FreezesOrders;
    BookingPaymentHolds(db, c.guest, c.eri, c.amount, c.order, c.newPayment, eri, o, lines);
  }

  lemma FailureCallHolds(db: Db, c: Call, eri: Eri, o: OrderId, lines: seq<Line>)
    requires Possible(db, c) && c.PaymentFails? && Held(db, eri, o, lines)
    ensures Held(Perform(db, c).db, eri, o, lines)
  {
    hide HandlePaymentFailure, Held, AnswersPending;
    if c.x in db.payments {
      FailureHolds(db, c.x, c.first, eri, o, lines);
    } else {
      FailureUnknown(db, c.x, c.first);
    }
  }

  lemma StepHolds(db: Db, c: Call, eri: Eri, o: OrderId, lines: seq<Line>)
    requires Possible(db, c) && Separated(db, c) && Quiet(db, c, eri) && Linked(db) && Held(db, eri, o, lines)
    ensures Held(Perform(db, c).db, eri, o, lines)
  {
    hide Perform, Possible, Separated, Quiet, Held, Linked;
    if c.AddItem? || c.ChangeItem? || c.RemoveItem? {
      CartCallKeepsHeld(db, c, eri, o, lines);
    } else if c.PayCart? {
      CartPaymentHolds(db, c, eri, o, lines);
    } else if c.PayBooking? {
      BookingPaymentCallHolds(db, c, eri, o, lines);
    } else if c.Book? {
      BookHolds(db, c, eri, o, lines);
    } else if c.PaymentFails? {
      FailureCallHolds(db, c, eri, o, lines);
    } else if c.PaymentCaptured? {
      CaptureCallHolds(db, c, eri, o, lines);
    } else {
      OtherCallKeepsHeld(db, c, eri, o, lines);
    }
  }

  lemma {:induction false} RunHolds(db: Db, calls: seq<Call>, eri: Eri, o: OrderId, lines: seq<Line>)
    requires PossibleRun(db, calls) && SeparatedRun(db, calls) && QuietRun(db, calls, eri)
    requires Linked(db) && Held(db, eri, o, lines)
    ensures Held(After(db, calls), eri, o, lines)
    decreases |calls|
  {
    hide Perform, Possible, Separated, Quiet, Held, Linked;
    if calls != [] {
      StepHolds(db, calls[0], eri, o, lines);
      StepKeepsLinks(db, calls[0]);
      RunHolds(Perform(db, calls[0]).db, calls[1..], eri, o, lines);
    }
  }

  /** A pending booking with an open order and a submission, whose last booking payment is about to fail. */
  ghost predicate LastPaymentFails(db: Db, x: PaymentId, o: OrderId)
  {
    && RollsBack(db, x) && Submitted(db.submissions, db.payments[x].eri)
    && o in db.orders && db.orders[o].eri == db.payments[x].eri
    && db.orders[o].phase == Booking && db.orders[o].status == Pending
    && AllFailed(db.payments - {x}, db.payments[x].eri)
  }

  lemma FailureLeavesHeld(db: Db, x: PaymentId, first: Option<OrderId>, o: OrderId)
    requires LastPaymentFails(db, x, o)
    requires AnswersPending(db.orders, first, db.payments[x].eri)
    requires HandlePaymentFailure(db, x, first).db == SetPayment(db, x, Failed)
    ensures Held(HandlePaymentFailure(db, x, first).db, db.payments[x].eri, o, db.orders[o].lines)
  {
    hide HandlePaymentFailure, AnswersPending, Submitted;
    assert forall y | y in db.payments && y != x :: y in db.payments - {x};
  }

  /**
   * After any separated run, let the last open payment of a pending booking fail while a KYC submission refers to
   * one of its slots. Then over any separated run that opens and captures no further booking payment of
   * the reservation - whether or not the submission is deleted, the failure reported again, or anything else
   * done - the booking stays pending, its order stays open with the same lines, and its units stay reserved.
   */
  lemma UnitsStayReserved(
    properties: set<PropertyId>, guests: set<GuestId>, calls: seq<Call>, x: PaymentId, first: Option<OrderId>,
    more: seq<Call>, o: OrderId, p: ProductId)
    requires PossibleRun(Empty(properties, guests), calls) && SeparatedRun(Empty(properties, guests), calls)
    requires var db := After(Empty(properties, guests), calls);
             && Possible(db, PaymentFails(x, first)) && Separated(db, PaymentFails(x, first))
             && LastPaymentFails(db, x, o)
    requires var db := After(Empty(properties, guests), calls);
             var failed := Perform(db, PaymentFails(x, first)).db;
             && PossibleRun(failed, more) && SeparatedRun(failed, more)
             && QuietRun(failed, more, db.payments[x].eri)
    ensures var db := After(Empty(properties, guests), calls);
            var end := After(Perform(db, PaymentFails(x, first)).db, more);
            && IsPending(end, db.payments[x].eri)
            && HoldsOrder(end.orders, db.payments[x].eri, o, db.orders[o].lines)
            && (p in end.inventory && IsCommodity(end.catalog, p) ==>
                 end.inventory[p].reserved >= Units(db.orders[o].lines, p))
  {
    AfterSeparatedRun(properties, guests, calls);
    ReachableFailureCancels(properties, guests, calls, x, first);
    var db := After(Empty(properties, guests), calls);
    hide PossibleRun, After, SeparatedRun, QuietRun, PaymentsFit, ChecksHold, Submitted;
    HeldThrough(db, x, first, more, o, p);
  }

  lemma HeldThrough(
    db: Db, x: PaymentId, first: Option<OrderId>, more: seq<Call>, o: OrderId, p: ProductId)
    requires Fits(db) && Linked(db) && Coupled(db)
    requires Possible(db, PaymentFails(x, first)) && Separated(db, PaymentFails(x, first))
    requires LastPaymentFails(db, x, o)
    requires Perform(db, PaymentFails(x, first)).db == SetPayment(db, x, Failed)
    requires var failed := Perform(db, PaymentFails(x, first)).db;
             && PossibleRun(failed, more) && SeparatedRun(failed, more)
             && QuietRun(failed, more, db.payments[x].eri)
    ensures var end := After(Perform(db, PaymentFails(x, first)).db, more);
            && IsPending(end, db.payments[x].eri)
            && HoldsOrder(end.orders, db.payments[x].eri, o, db.orders[o].lines)
            && (p in end.inventory && IsCommodity(end.catalog, p) ==>
                 end.inventory[p].reserved >= Units(db.orders[o].lines, p))
  {
    var failed, eri, lines := Perform(db, PaymentFails(x, first)).db, db.payments[x].eri, db.orders[o].lines;
    FailureLeavesHeld(db, x, first, o);
    StepKeepsFit(db, PaymentFails(x, first));
    StepKeepsLinks(db, PaymentFails(x, first));
    StepKeepsCoupling(db, PaymentFails(x, first));
    hide Perform, Possible, Separated, Fits, Linked, Coupled, Held, PossibleRun, SeparatedRun, QuietRun, After,
      LastPaymentFails, Submitted;
    RunHolds(failed, more, eri, o, lines);
    RunKeepsCoupling(failed, more);
    HeldIsReserved(After(failed, more), eri, o, lines, p);
  }

  lemma HeldIsReserved(db: Db, eri: Eri, o: OrderId, lines: seq<Line>, p: ProductId)
    requires Held(db, eri, o, lines) && Coupled(db)
    ensures IsPending(db, eri) && HoldsOrder(db.orders, eri, o, lines)
    ensures p in db.inventory && IsCommodity(db.catalog, p) ==> db.inventory[p].reserved >= Units(lines, p)
  {
    OpenOrderIsReserved(db, o, p);
    assert p in db.inventory ==> OrdersExplain(db, p);
  }
}
