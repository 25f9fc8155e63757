/**
 * Exactly which calls keep the counters explained by the orders, and exactly which keep paid carts
 * linked to captured payments; and what must hold of a reservation's open orders for that to be certain,
 * whichever of them the database finds.
 */
module Exactness {
  import opened Wrappers
  import opened Tables
  import opened Operations
  import opened Runs
  import opened Coupling
  import opened Payments

  /** No unit of any stocked commodity. */
  ghost predicate NoCommodity(db: Db, lines: seq<Line>)
  {
    forall p | p in db.inventory && IsCommodity(db.catalog, p) :: Units(lines, p) == 0
  }

  // ---------------------------------------------------------------- the condition on a call

  /** Selling or releasing the order's units out of reserved is right: they are there, or there are none. */
  ghost predicate OwnOrEmpty(db: Db, o: OrderId)
    requires o in db.orders
  {
    db.orders[o].phase == Booking || NoCommodity(db, db.orders[o].lines)
  }

  /** Rewriting the order as a cart loses no reservation. */
  ghost predicate CartOrEmpty(db: Db, o: OrderId)
    requires o in db.orders
  {
    db.orders[o].phase != Booking || NoCommodity(db, db.orders[o].lines)
  }

  /** The item's units are not reserved, or stay the same. */
  ghost predicate ItemHarmless(db: Db, item: ItemRef, quantity: nat)
    requires item.order in db.orders
  {
    var order := db.orders[item.order];
    var i := LineIndex(order.lines, item.line);
    order.phase != Booking || i == |order.lines| || order.lines[i].quantity == quantity
    || order.lines[i].product !in db.inventory || !IsCommodity(db.catalog, order.lines[i].product)
  }

  /** Selling the order out of available, or writing it off, counts nothing twice and drops nothing. */
  ghost predicate UnsoldOrEmpty(db: Db, o: OrderId)
    requires o in db.orders
  {
    || (db.orders[o].status == Pending && db.orders[o].phase != Booking)
    || db.orders[o].status == FailedStock
    || NoCommodity(db, db.orders[o].lines)
  }

  /** A failed payment of this kind rolls its booking back. */
  ghost predicate RollsBack(db: Db, x: PaymentId)
  {
    && x in db.payments && db.payments[x].purpose == ForBooking
    && db.payments[x].status != Captured && db.payments[x].status != Failed
    && db.payments[x].eri in db.bookings && db.bookings[db.payments[x].eri].status == PendingPayment
  }

  ghost predicate Harmless(db: Db, c: Call)
    requires Possible(db, c)
  {
    var outcome := Perform(db, c).outcome;
    match c
    case AddItem(_, _, _, _, _, _, first, _, _) => outcome == Done && first.Some? ==> CartOrEmpty(db, first.value)
    case ChangeItem(_, _, item, quantity) =>
      outcome == Done && item.order in db.orders ==> ItemHarmless(db, item, quantity)
    case RemoveItem(_, _, item) => outcome == Done && item.order in db.orders ==> ItemHarmless(db, item, 0)
    case PaymentFails(x, first) => outcome == Done && RollsBack(db, x) && first.Some? ==> OwnOrEmpty(db, first.value)
    case PaymentCaptured(_, first) =>
      && (outcome == BookingConfirmed && first.Some? && first.value in db.orders ==> OwnOrEmpty(db, first.value))
      && (outcome == AddonsFulfilled || outcome == NeedsRefund ==>
           first.Some? && first.value in db.orders && UnsoldOrEmpty(db, first.value))
    case _ => true
  }

  // ---------------------------------------------------------------- one order rewritten, stock untouched

  ghost predicate SameWeights(db: Db, a: Order, b: Order)
  {
    forall p | p in db.inventory && IsCommodity(db.catalog, p) ::
      ReservedWeight(p)(a) == ReservedWeight(p)(b) && SoldWeight(p)(a) == SoldWeight(p)(b)
  }

  lemma OrderWriteExactly(db: Db, after: Db, o: OrderId)
    requires Coupled(db) && o in db.orders && o in after.orders
    requires after.inventory == db.inventory && after.catalog == db.catalog
    requires after.orders == db.orders[o := after.orders[o]]
    ensures Coupled(after) <==> SameWeights(db, db.orders[o], after.orders[o])
  {
    forall p | p in db.inventory
      ensures OrdersExplain(after, p) <==>
              (IsCommodity(db.catalog, p) ==>
                 && ReservedWeight(p)(db.orders[o]) == ReservedWeight(p)(after.orders[o])
                 && SoldWeight(p)(db.orders[o]) == SoldWeight(p)(after.orders[o]))
    {
      assert OrdersExplain(db, p);
      PutOrder(db.orders, o, after.orders[o], p);
    }
  }

  lemma AdditionExactly(
    db: Db, guest: GuestId, eri: Eri, p: ProductId, quantity: nat, unitCode: string, checkedIn: bool,
    first: Option<OrderId>, newOrder: OrderId, newLine: nat)
    requires AnswersCart(db.orders, first, eri, guest) && newOrder !in db.orders && Coupled(db)
    ensures var r := AddToCart(db, guest, eri, p, quantity, unitCode, checkedIn, first, newOrder, newLine);
            Coupled(r.db) <==> (r.outcome == Done && first.Some? ==> CartOrEmpty(db, first.value))
  {
    hide Coupled, AddLine, AddonRefusal, NoCommodity;
    var r := AddToCart(db, guest, eri, p, quantity, unitCode, checkedIn, first, newOrder, newLine);
    if r.outcome != Done {
      assert r.db == db;
    } else if first.None? || db.orders[first.value].phase != Booking {
      CartWriteKeepsCoupling(db, r.db, first.GetOr(newOrder));
    } else {
      OrderWriteExactly(db, r.db, first.value);
      ReservationLost(db, db.orders[first.value], r.db.orders[first.value]);
    }
  }

  lemma AddItemExactly(db: Db, c: Call)
    requires Possible(db, c) && Coupled(db) && c.AddItem?
    ensures Coupled(Perform(db, c).db) <==> Harmless(db, c)
  {
    hide Coupled, AddToCart, CartOrEmpty;
    AdditionExactly(db, c.guest, c.eri, c.p, c.quantity, c.unitCode, c.checkedIn, c.first, c.newOrder, c.newLine);
  }

  /** An open booking order that stops being one. */
  lemma ReservationLost(db: Db, a: Order, b: Order)
    requires a.status == Pending && a.phase == Booking
    requires b.status != Paid && (b.status != Pending || b.phase != Booking)
    ensures SameWeights(db, a, b) <==> NoCommodity(db, a.lines)
  {
  }

  lemma ChangeItemExactly(db: Db, c: Call)
    requires Possible(db, c) && Coupled(db) && c.ChangeItem?
    ensures Coupled(Perform(db, c).db) <==> Harmless(db, c)
  {
    hide Coupled, LinePrice, SameWeights;
    var r := Perform(db, c);
    if r.outcome == Done {
      var o := c.item.order;
      var i := LineIndex(db.orders[o].lines, c.item.line);
      OrderWriteExactly(db, r.db, o);
      LineRewritten(db, db.orders[o], r.db.orders[o], i, c.quantity);
    } else {
      assert r.db == db;
    }
  }

  lemma LineRewritten(db: Db, a: Order, b: Order, i: nat, quantity: nat)
    requires a.status == Pending && i < |a.lines| == |b.lines|
    requires b == a.(lines := a.lines[i := b.lines[i]])
    requires b.lines[i].product == a.lines[i].product && b.lines[i].quantity == quantity
    ensures SameWeights(db, a, b) <==>
            || a.phase != Booking || a.lines[i].quantity == quantity
            || a.lines[i].product !in db.inventory || !IsCommodity(db.catalog, a.lines[i].product)
  {
    forall p: ProductId
      ensures Units(b.lines, p) == Units(a.lines, p) - UnitsOn(a.lines[i], p) + UnitsOn(b.lines[i], p)
    {
      UnitsReplaced(a.lines, i, b.lines[i], p);
    }
    var p := a.lines[i].product;
    assert ReservedWeight(p)(a) - ReservedWeight(p)(b)
        == if a.phase == Booking then a.lines[i].quantity - quantity else 0;
  }

  lemma RemoveItemExactly(db: Db, c: Call)
    requires Possible(db, c) && Coupled(db) && c.RemoveItem?
    ensures Coupled(Perform(db, c).db) <==> Harmless(db, c)
  {
    hide Coupled, SameWeights;
    var r := Perform(db, c);
    if r.outcome == Done {
      var o := c.item.order;
      var i := LineIndex(db.orders[o].lines, c.item.line);
      OrderWriteExactly(db, r.db, o);
      LineRemoved(db, db.orders[o], r.db.orders[o], i);
    } else {
      assert r.db == db;
    }
  }

  lemma LineRemoved(db: Db, a: Order, b: Order, i: nat)
    requires a.status == Pending && i < |a.lines| && b == a.(lines := a.lines[..i] + a.lines[i + 1..])
    ensures SameWeights(db, a, b) <==>
            || a.phase != Booking || a.lines[i].quantity == 0
            || a.lines[i].product !in db.inventory || !IsCommodity(db.catalog, a.lines[i].product)
  {
    forall p: ProductId
      ensures Units(b.lines, p) == Units(a.lines, p) - UnitsOn(a.lines[i], p)
    {
      UnitsRemoved(a.lines, i, p);
    }
    var p := a.lines[i].product;
    assert ReservedWeight(p)(a) - ReservedWeight(p)(b) == if a.phase == Booking then a.lines[i].quantity else 0;
  }

  /** Writing or dropping the link of an order to a payment. */
  lemma LinkWriteKeepsCoupling(db: Db, after: Db, o: OrderId, link: Option<PaymentId>)
    requires Coupled(db) && o in db.orders
    requires after.inventory == db.inventory && after.catalog == db.catalog
    requires after.orders == db.orders[o := db.orders[o].(payment := link)]
    ensures Coupled(after)
  {
    OrderWriteExactly(db, after, o);
  }

  lemma PayCartKeepsCoupling(db: Db, c: Call)
    requires Possible(db, c) && Coupled(db) && c.PayCart?
    ensures Coupled(Perform(db, c).db)
  {
    hide Coupled, CreateOrder;
    var after := Perform(db, c).db;
    if after.orders == db.orders {
      SameOrdersAndStock(db, after);
    } else {
      LinkWriteKeepsCoupling(db, after, c.first.value, after.orders[c.first.value].payment);
    }
  }

  // ---------------------------------------------------------------- one order moved with its stock

  /** The lines leave reserved while the order is dropped (Release) or paid (Finalise). */
  lemma LeavesReservedExactly(db: Db, after: Db, property: PropertyId, o: OrderId, m: Movement)
    requires Catalogued(db) && Coupled(db) && o in db.orders && db.orders[o].status == Pending
    requires LinesFit(db.orders[o].lines, db.catalog, property)
    requires after.catalog == db.catalog
    requires m == Release || m == Finalise
    requires after.inventory == Moved(db.inventory, db.catalog, property, db.orders[o].lines, m)
    requires after.orders == if m == Release then db.orders - {o} else db.orders[o := db.orders[o].(status := Paid)]
    ensures Coupled(after) <==> OwnOrEmpty(db, o)
  {
    hide Moved;
    var order, lines := db.orders[o], db.orders[o].lines;
    MovedKeys(db.inventory, db.catalog, property, lines, m);
    forall p | p in db.inventory
      ensures OrdersExplain(after, p) <==>
              (IsCommodity(db.catalog, p) ==> order.phase == Booking || Units(lines, p) == 0)
    {
      assert OrdersExplain(db, p);
      if m == Release {
        DropOrder(db.orders, o, p);
      } else {
        PutOrder(db.orders, o, order.(status := Paid), p);
      }
      MovementAndOrder(db, after, property, lines, m, p, if order.phase == Booking then 0 - Units(lines, p) else 0,
                       if m == Finalise then Units(lines, p) else 0);
    }
  }

  lemma RollbackExactly(db: Db, eri: Eri, first: Option<OrderId>)
    requires AnswersPending(db.orders, first, eri) && Catalogued(db) && OrdersFit(db) && Coupled(db)
    ensures var r := RollbackPendingBooking(db, eri, first);
            Coupled(r.db) <==>
            (r.outcome == Done && eri in db.bookings && db.bookings[eri].status == PendingPayment && first.Some? ==>
               OwnOrEmpty(db, first.value))
  {
    hide ChecksHold, Moved, Coupled, NoCommodity;
    var r := RollbackPendingBooking(db, eri, first);
    if r.db == db {
    } else if first.None? {
      NothingMoves(db, db.bookings[eri].property, Release);
      SameOrdersAndStock(db, r.db);
    } else {
      LeavesReservedExactly(db, r.db, db.bookings[eri].property, first.value, Release);
    }
  }

  lemma FailureExactly(db: Db, c: Call)
    requires Possible(db, c) && Catalogued(db) && OrdersFit(db) && Coupled(db) && c.PaymentFails?
    ensures Coupled(Perform(db, c).db) <==> Harmless(db, c)
  {
    if RollsBack(db, c.x) {
      var failed := SetPayment(db, c.x, Failed);
      StatusKeepsCoupling(db, c.x, Failed);
      hide Coupled, RollbackPendingBooking, NoCommodity;
      RollbackExactly(failed, db.payments[c.x].eri, c.first);
      if c.first.Some? {
        SameCommodity(db, failed, db.orders[c.first.value].lines);
      }
    } else {
      NoRollbackKeepsCoupling(db, c.x, c.first);
    }
  }

  lemma SameCommodity(db: Db, other: Db, lines: seq<Line>)
    requires other.inventory == db.inventory && other.catalog == db.catalog
    ensures NoCommodity(other, lines) <==> NoCommodity(db, lines)
  {
  }

  lemma StatusKeepsCoupling(db: Db, x: PaymentId, status: PaymentStatus)
    requires x in db.payments && Coupled(db)
    ensures Coupled(SetPayment(db, x, status))
    ensures Catalogued(db) && OrdersFit(db) ==>
              Catalogued(SetPayment(db, x, status)) && OrdersFit(SetPayment(db, x, status))
  {
    SameOrdersAndStock(db, SetPayment(db, x, status));
  }

  lemma NoRollbackKeepsCoupling(db: Db, x: PaymentId, first: Option<OrderId>)
    requires x in db.payments ==> AnswersPending(db.orders, first, db.payments[x].eri)
    requires Coupled(db) && !RollsBack(db, x)
    ensures Coupled(HandlePaymentFailure(db, x, first).db)
  {
    hide Coupled, HandlePaymentFailure, FreezesOrders, KeepsBorrowed, DropsOrUnlinks, OnlyStatusOf, AnswersPending;
    if x in db.payments {
      NoRollbackUnlinks(db, x, first);
    } else {
      FailureUnknown(db, x, first);
    }
    UnlinkedKeepsCoupling(db, HandlePaymentFailure(db, x, first).db, x);
  }

  lemma NoRollbackUnlinks(db: Db, x: PaymentId, first: Option<OrderId>)
    requires x in db.payments && AnswersPending(db.orders, first, db.payments[x].eri) && !RollsBack(db, x)
    ensures HandlePaymentFailure(db, x, first).db.inventory == db.inventory
    ensures HandlePaymentFailure(db, x, first).db.orders == db.orders
            || HandlePaymentFailure(db, x, first).db.orders == Unlinked(db.orders, x)
  {
    hide HandlePaymentFailure, Unlinked, AnswersPending;
    if !FailsNow(db, x) {
      FailureIsFinal(db, x, first);
    } else if db.payments[x].purpose == ForBooking {
      FailureOfNoPending(db, x, first);
    } else {
      FailureUnlinks(db, x, first);
    }
  }

  lemma FailureOfNoPending(db: Db, x: PaymentId, first: Option<OrderId>)
    requires x in db.payments && AnswersPending(db.orders, first, db.payments[x].eri) && !RollsBack(db, x)
    requires FailsNow(db, x) && db.payments[x].purpose == ForBooking
    ensures HandlePaymentFailure(db, x, first).db == SetPayment(db, x, Failed)
  {
    hide HandlePaymentFailure, RollbackPendingBooking, AnswersPending;
    NothingToRollBack(SetPayment(db, x, Failed), db.payments[x].eri, first);
    FailureRollsBack(db, x, first);
  }

  lemma NothingToRollBack(db: Db, eri: Eri, first: Option<OrderId>)
    requires AnswersPending(db.orders, first, eri)
    requires eri !in db.bookings || db.bookings[eri].status != PendingPayment
    ensures RollbackPendingBooking(db, eri, first) == Reply(db, Done)
  {
    hide RollbackPendingBooking, RolledBack, ChecksHold, Submitted, AnswersPending;
    RollbackCases(db, eri, first);
  }

  lemma UnlinkedKeepsCoupling(db: Db, after: Db, x: PaymentId)
    requires Coupled(db) && after.inventory == db.inventory && after.catalog == db.catalog
    requires after.orders == db.orders || after.orders == Unlinked(db.orders, x)
    ensures Coupled(after)
  {
    hide Unlinked;
    forall p | p in after.inventory
      ensures OrdersExplain(after, p)
    {
      assert OrdersExplain(db, p);
      UnlinkedKeepsUnits(db.orders, x, p);
    }
  }

  lemma CaptureBookingExactly(db: Db, x: PaymentId, first: Option<OrderId>)
    requires x in db.payments && AnswersPending(db.orders, first, db.payments[x].eri)
    requires Catalogued(db) && OrdersFit(db) && Coupled(db)
    ensures var r := FulfilBookingOrder(db, x, first);
            Coupled(r.db) <==> (r.outcome == BookingConfirmed && first.Some? ==> OwnOrEmpty(db, first.value))
  {
    hide ChecksHold, Moved, Coupled, NoCommodity;
    var r := FulfilBookingOrder(db, x, first);
    if r.outcome != BookingConfirmed {
      SameOrdersAndStock(db, r.db);
    } else if first.None? {
      NothingMoves(db, db.bookings[db.payments[x].eri].property, Finalise);
      SameOrdersAndStock(db, r.db);
    } else {
      LeavesReservedExactly(db, r.db, db.bookings[db.payments[x].eri].property, first.value, Finalise);
    }
  }

  /** An order sold out of available: exactly when its units were neither reserved nor sold before. */
  lemma SellsExactly(db: Db, after: Db, property: PropertyId, o: OrderId)
    requires Catalogued(db) && Coupled(db) && o in db.orders
    requires LinesFit(db.orders[o].lines, db.catalog, property)
    requires after.catalog == db.catalog
    requires after.inventory == Moved(db.inventory, db.catalog, property, db.orders[o].lines, Sell)
    requires after.orders == db.orders[o := db.orders[o].(status := Paid)]
    ensures Coupled(after) <==> UnsoldOrEmpty(db, o)
  {
    hide Moved;
    var order, lines := db.orders[o], db.orders[o].lines;
    MovedKeys(db.inventory, db.catalog, property, lines, Sell);
    forall p | p in db.inventory
      ensures OrdersExplain(after, p) <==>
              (IsCommodity(db.catalog, p) ==>
                 || (order.status == Pending && order.phase != Booking) || order.status == FailedStock
                 || Units(lines, p) == 0)
    {
      assert OrdersExplain(db, p);
      PutOrder(db.orders, o, order.(status := Paid), p);
      MovementAndOrder(db, after, property, lines, Sell, p, 0 - ReservedWeight(p)(order),
                       Units(lines, p) - SoldWeight(p)(order));
    }
  }

  lemma WrittenOff(db: Db, a: Order, b: Order)
    requires b == a.(status := FailedStock)
    ensures SameWeights(db, a, b) <==>
            || (a.status == Pending && a.phase != Booking) || a.status == FailedStock || NoCommodity(db, a.lines)
  {
  }

  lemma CaptureAddonsExactly(db: Db, x: PaymentId, first: Option<OrderId>)
    requires x in db.payments && AnswersPayment(db.orders, first, x)
    requires Catalogued(db) && OrdersFit(db) && Coupled(db)
    requires first.Some? ==> db.orders[first.value].eri == db.payments[x].eri
    ensures var r := FulfilAddonOrder(db, x, first);
            Coupled(r.db) <==>
            (r.outcome == AddonsFulfilled || r.outcome == NeedsRefund ==> first.Some? && UnsoldOrEmpty(db, first.value))
  {
    hide ChecksHold, Moved, SomeLineShort, Coupled, NoCommodity, SameWeights;
    var r := FulfilAddonOrder(db, x, first);
    if r.outcome == AddonsFulfilled {
      SellsExactly(db, r.db, db.bookings[db.payments[x].eri].property, first.value);
    } else if r.outcome == NeedsRefund {
      OrderWriteExactly(db, r.db, first.value);
      WrittenOff(db, db.orders[first.value], r.db.orders[first.value]);
    } else {
      assert r.db == db;
    }
  }

  lemma CaptureExactly(db: Db, c: Call)
    requires Possible(db, c) && Catalogued(db) && OrdersFit(db) && LinksKnown(db) && Coupled(db) && c.PaymentCaptured?
    ensures Coupled(Perform(db, c).db) <==> Harmless(db, c)
  {
    hide Coupled, Catalogued, OrdersFit, FulfilBookingOrder, FulfilAddonOrder, OwnOrEmpty, UnsoldOrEmpty;
    if c.x in db.payments && db.payments[c.x].status != Captured {
      if db.payments[c.x].purpose == ForBooking {
        CaptureBookingExactly(db, c.x, c.first);
        NoAddonsFulfilled(db, c.x, c.first);
      } else {
        assert c.first.Some? ==> LinkKnown(db.orders[c.first.value], db.payments);
        CaptureAddonsExactly(db, c.x, c.first);
        NoBookingConfirmed(db, c.x, c.first);
      }
    }
  }

  lemma NoAddonsFulfilled(db: Db, x: PaymentId, first: Option<OrderId>)
    requires x in db.payments && AnswersPending(db.orders, first, db.payments[x].eri)
    ensures var r := FulfilBookingOrder(db, x, first); r.outcome != AddonsFulfilled && r.outcome != NeedsRefund
  {
    hide Moved, ChecksHold;
  }

  // ---------------------------------------------------------------- every call, every run

  lemma OtherCallsKeepCoupling(db: Db, c: Call)
    requires Possible(db, c) && Catalogued(db) && OrdersFit(db) && Coupled(db)
    requires !c.AddItem? && !c.ChangeItem? && !c.RemoveItem? && !c.PaymentFails? && !c.PaymentCaptured?
    ensures Coupled(Perform(db, c).db)
  {
    hide Coupled, Catalogued, OrdersFit, CreateProduct, UpdateProduct, Restock, MarkDamaged, BorrowableCheckout,
      RequestBorrowable, VerifyReturn, ReturnableIssue, ReturnableVerifyReturn, CreateBookingOrder, LinkBooking,
      CreateOrder, CreateBookingPayment;
    match c
    case NewProduct(id, property, category, price, stock) =>
      CreateProductKeepsCoupling(db, id, property, category, price, stock);
    case EditProduct(id, price, active) => UpdateProductKeepsCoupling(db, id, price, active);
    case AddStock(p, quantity, scope) => RestockKeepsCoupling(db, p, quantity, scope);
    case Damage(p, quantity, scope) => RestockKeepsCoupling(db, p, quantity, scope);
    case AdminLends(p, eri, guest, scope, checkout) =>
      BorrowableCheckoutKeepsCoupling(db, p, eri, guest, scope, checkout);
    case GuestBorrows(guest, eri, p, checkout) => RequestBorrowableKeepsCoupling(db, guest, eri, p, checkout);
    case LoanReturned(checkout) => ReturnsKeepCoupling(db, checkout, Good);
    case IssueItem(p, item, guest, eri, property, quantity, checkout) =>
      IssueKeepsCoupling(db, p, item, guest, eri, property, quantity, checkout);
    case ItemReturned(checkout, condition) => ReturnsKeepCoupling(db, checkout, condition);
    case Book(guest, request, offers, eri, newOrder) => BookingKeepsCoupling(db, guest, request, offers, eri, newOrder);
    case Link(guest, eri) => LinkKeepsCoupling(db, guest, eri);
    case PayCart(_, _, _, _) => PayCartKeepsCoupling(db, c);
    case PayBooking(guest, eri, amount, order, newPayment) =>
      CreateBookingPaymentKeepsCoupling(db, guest, eri, amount, order, newPayment);
    case _ => SlotCallsKeepCoupling(db, c);
  }

  lemma SlotCallsKeepCoupling(db: Db, c: Call)
    requires Possible(db, c) && Coupled(db) && (c.Submit? || c.NewSlot? || c.DropSlot?)
    ensures Coupled(Perform(db, c).db)
  {
    hide Perform, Possible, Coupled;
    Frame(db, c);
    SameOrdersAndStock(db, Perform(db, c).db);
  }

  /** A call keeps reserved and sold explained by the orders if and only if it is harmless. */
  lemma StepKeepsCouplingExactly(db: Db, c: Call)
    requires Possible(db, c) && Catalogued(db) && OrdersFit(db) && LinksKnown(db) && Coupled(db)
    ensures Coupled(Perform(db, c).db) <==> Harmless(db, c)
  {
    hide Coupled, Catalogued, OrdersFit, LinksKnown, Perform, Possible;
    match c
    case AddItem(_, _, _, _, _, _, _, _, _) => AddItemExactly(db, c);
    case ChangeItem(_, _, _, _) => ChangeItemExactly(db, c);
    case RemoveItem(_, _, _) => RemoveItemExactly(db, c);
    case PaymentFails(_, _) => FailureExactly(db, c);
    case PaymentCaptured(_, _) => CaptureExactly(db, c);
    case _ => OtherCallsKeepCoupling(db, c);
  }

  /** Cart separation suffices. */
  lemma SeparatedIsHarmless(db: Db, c: Call)
    requires Possible(db, c) && Separated(db, c) && Linked(db)
    ensures Harmless(db, c)
  {
    hide NoCommodity, LineIndex, AddToCart, UpdateCartItem, RemoveCartItem, HandlePaymentFailure, FulfilBookingOrder,
      FulfilAddonOrder;
    if c.PaymentCaptured? && c.x in db.payments && db.payments[c.x].status != Captured {
      if db.payments[c.x].purpose == ForBooking {
        NoAddonsFulfilled(db, c.x, c.first);
      } else {
        assert c.first.Some? ==> LinkFits(db.orders[c.first.value], db.payments);
        AddonsHaveAnOrder(db, c.x, c.first);
      }
    }
  }

  lemma AddonsHaveAnOrder(db: Db, x: PaymentId, first: Option<OrderId>)
    requires x in db.payments && AnswersPayment(db.orders, first, x)
    ensures var r := FulfilAddonOrder(db, x, first);
            && r.outcome != BookingConfirmed
            && (r.outcome == AddonsFulfilled || r.outcome == NeedsRefund ==> first.Some?)
  {
    hide Moved, ChecksHold, SomeLineShort;
  }

  lemma StepKeepsCoupling(db: Db, c: Call)
    requires Possible(db, c) && Separated(db, c)
    requires Catalogued(db) && OrdersFit(db) && Linked(db) && Coupled(db)
    ensures Coupled(Perform(db, c).db)
  {
    LinkedIsKnown(db);
    SeparatedIsHarmless(db, c);
    hide Coupled, Catalogued, OrdersFit, Linked, LinksKnown, Perform, Possible, Separated, Harmless;
    StepKeepsCouplingExactly(db, c);
  }

  lemma LinkedIsKnown(db: Db)
    requires Linked(db)
    ensures LinksKnown(db)
  {
    forall o | o in db.orders
      ensures LinkKnown(db.orders[o], db.payments)
    {
      assert LinkFits(db.orders[o], db.payments);
    }
  }
}
