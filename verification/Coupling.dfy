/**
 * Reserved and sold counters against the orders that explain them, borrowed counters against the
 * checkouts, and orders against the payments that paid them.
 */
module Coupling {
  import opened Wrappers
  import opened Sums
  import opened RoomOrders
  import opened Tables
  import opened Operations
  import opened Runs

  // ---------------------------------------------------------------- what the counters stand for

  ghost function ReservedWeight(p: ProductId): Order -> int
  {
    (o: Order) => if o.status == Pending && o.phase == Booking then Units(o.lines, p) else 0
  }

  ghost function SoldWeight(p: ProductId): Order -> int
  {
    (o: Order) => if o.status == Paid then Units(o.lines, p) else 0
  }

  /** Units of `p` held by open booking orders. */
  ghost function ReservedUnits(orders: map<OrderId, Order>, p: ProductId): int
  {
    Sum(orders, ReservedWeight(p))
  }

  /** Units of `p` on paid orders. */
  ghost function SoldUnits(orders: map<OrderId, Order>, p: ProductId): int
  {
    Sum(orders, SoldWeight(p))
  }

  ghost function LoanWeight(p: ProductId): Loan -> int
  {
    (l: Loan) => if l.product == p && l.status == CheckedOutLoan then 1 else 0
  }

  ghost function OutWeight(p: ProductId): Issue -> int
  {
    (i: Issue) => if i.product == p && i.status == Issued then i.quantity else 0
  }

  /** Unreturned loans and issued units of `p`. */
  ghost function BorrowedUnits(db: Db, p: ProductId): int
  {
    Sum(db.loans, LoanWeight(p)) + Sum(db.issues, OutWeight(p))
  }

  // ---------------------------------------------------------------- invariants

  /** Stock rows and products belong together. */
  ghost predicate Catalogued(db: Db)
  {
    && (forall p | p in db.inventory :: p in db.catalog && db.inventory[p].property == db.catalog[p].property)
    && (forall p | p in db.catalog :: db.catalog[p].category != Service ==> p in db.inventory)
  }

  ghost predicate LinesFit(lines: seq<Line>, catalog: Catalog, property: PropertyId)
  {
    forall i | 0 <= i < |lines| ::
      lines[i].product in catalog && catalog[lines[i].product].property == property
  }

  ghost predicate DistinctIds(lines: seq<Line>)
  {
    forall i, j | 0 <= i < j < |lines| :: lines[i].id != lines[j].id
  }

  /** Orders belong to known bookings, name products of the booking's property, and have distinct items. */
  ghost predicate OrdersFit(db: Db)
  {
    forall o | o in db.orders ::
      && db.orders[o].eri in db.bookings
      && DistinctIds(db.orders[o].lines)
      && LinesFit(db.orders[o].lines, db.catalog, db.bookings[db.orders[o].eri].property)
  }

  ghost predicate CheckoutsFit(db: Db)
  {
    && (forall c | c in db.loans :: db.loans[c].product in db.inventory)
    && (forall c | c in db.issues :: db.issues[c].product in db.inventory)
  }

  ghost predicate Fits(db: Db)
  {
    Catalogued(db) && OrdersFit(db) && CheckoutsFit(db)
  }

  ghost predicate LinkFits(order: Order, payments: map<PaymentId, Payment>)
  {
    && (order.payment.Some? ==>
         && order.payment.value in payments
         && (payments[order.payment.value].purpose == ForAddons ==>
              order.phase != Booking && order.eri == payments[order.payment.value].eri))
    && (order.phase != Booking && order.status == Paid ==>
         order.payment.Some? && payments[order.payment.value].status == Captured)
  }

  /** Addon payments pay carts only, and every paid cart is linked to a captured payment. */
  ghost predicate Linked(db: Db)
  {
    forall o | o in db.orders :: LinkFits(db.orders[o], db.payments)
  }

  ghost predicate OrdersExplain(db: Db, p: ProductId)
    requires p in db.inventory
  {
    var s := db.inventory[p];
    if IsCommodity(db.catalog, p)
    then s.reserved == ReservedUnits(db.orders, p) && s.sold == SoldUnits(db.orders, p)
    else s.reserved == 0 && s.sold == 0
  }

  ghost predicate CheckoutsExplain(db: Db, p: ProductId)
    requires p in db.inventory
  {
    db.inventory[p].borrowed == BorrowedUnits(db, p)
  }

  ghost predicate Coupled(db: Db)
  {
    forall p | p in db.inventory :: OrdersExplain(db, p)
  }

  ghost predicate BorrowingCoupled(db: Db)
  {
    forall p | p in db.inventory :: CheckoutsExplain(db, p)
  }

  /**
   * Cart separation: the cart calls, and only they, work on orders that are not a booking's own, and
   * the booking calls work on the booking's own order.
   */
  ghost predicate Separated(db: Db, c: Call)
    requires Possible(db, c)
  {
    match c
    case AddItem(_, _, _, _, _, _, first, _, _) => first.Some? ==> db.orders[first.value].phase != Booking
    case PayCart(_, _, first, _) => first.Some? ==> db.orders[first.value].phase != Booking
    case ChangeItem(_, _, item, _) => item.order in db.orders ==> db.orders[item.order].phase != Booking
    case RemoveItem(_, _, item) => item.order in db.orders ==> db.orders[item.order].phase != Booking
    case PayBooking(_, _, _, order, _) =>
      order.Some? && order.value in db.orders ==> db.orders[order.value].phase == Booking
    case PaymentFails(x, first) => BookingCallSeparated(db, x, first)
    case PaymentCaptured(x, first) => BookingCallSeparated(db, x, first)
    case _ => true
  }

  ghost predicate BookingCallSeparated(db: Db, x: PaymentId, first: Option<OrderId>)
  {
    x in db.payments && db.payments[x].purpose == ForBooking && first.Some? && first.value in db.orders
    ==> db.orders[first.value].phase == Booking
  }

  // ---------------------------------------------------------------- sums over orders

  lemma PutOrder(orders: map<OrderId, Order>, o: OrderId, order: Order, p: ProductId)
    ensures ReservedUnits(orders[o := order], p) == ReservedUnits(orders, p) + ReservedWeight(p)(order)
              - if o in orders then ReservedWeight(p)(orders[o]) else 0
    ensures SoldUnits(orders[o := order], p) == SoldUnits(orders, p) + SoldWeight(p)(order)
              - if o in orders then SoldWeight(p)(orders[o]) else 0
  {
    SumPut(orders, ReservedWeight(p), o, order);
    SumPut(orders, SoldWeight(p), o, order);
  }

  lemma DropOrder(orders: map<OrderId, Order>, o: OrderId, p: ProductId)
    requires o in orders
    ensures ReservedUnits(orders - {o}, p) == ReservedUnits(orders, p) - ReservedWeight(p)(orders[o])
    ensures SoldUnits(orders - {o}, p) == SoldUnits(orders, p) - SoldWeight(p)(orders[o])
  {
    SumRemove(orders, ReservedWeight(p), o);
    SumRemove(orders, SoldWeight(p), o);
  }

  /** Writing a cart that was, if present, an open cart before. */
  lemma PutCart(orders: map<OrderId, Order>, o: OrderId, order: Order, p: ProductId)
    requires order.status == Pending && order.phase != Booking
    requires o in orders ==> orders[o].status == Pending && orders[o].phase != Booking
    ensures ReservedUnits(orders[o := order], p) == ReservedUnits(orders, p)
    ensures SoldUnits(orders[o := order], p) == SoldUnits(orders, p)
  {
    PutOrder(orders, o, order, p);
  }

  lemma UnlinkedKeepsUnits(orders: map<OrderId, Order>, x: PaymentId, p: ProductId)
    ensures ReservedUnits(Unlinked(orders, x), p) == ReservedUnits(orders, p)
    ensures SoldUnits(Unlinked(orders, x), p) == SoldUnits(orders, p)
  {
    SumAgree(orders, Unlinked(orders, x), ReservedWeight(p));
    SumAgree(orders, Unlinked(orders, x), SoldWeight(p));
  }

  /** No order names a product that is not in the catalogue. */
  lemma UncataloguedUnits(db: Db, p: ProductId)
    requires OrdersFit(db) && p !in db.catalog
    ensures ReservedUnits(db.orders, p) == 0 && SoldUnits(db.orders, p) == 0
  {
    forall o | o in db.orders
      ensures Units(db.orders[o].lines, p) == 0
    {
      UnitsAbsent(db.orders[o].lines, p);
    }
    SumAllZero(db.orders, ReservedWeight(p));
    SumAllZero(db.orders, SoldWeight(p));
  }

  /** Lines that fit a property move exactly their units of every commodity. */
  lemma MovedAt(db: Db, property: PropertyId, lines: seq<Line>, m: Movement, p: ProductId)
    requires Catalogued(db) && LinesFit(lines, db.catalog, property)
    requires p in db.inventory
    ensures Moved(db.inventory, db.catalog, property, lines, m)[p]
            == if IsCommodity(db.catalog, p) then db.inventory[p].Move(m, Units(lines, p)) else db.inventory[p]
  {
    if IsCommodity(db.catalog, p) && db.inventory[p].property != property {
      UnitsAbsent(lines, p);
    }
  }

  // ---------------------------------------------------------------- each call keeps the coupling

  /** Only an open cart was written, and it was an open cart before if it existed. */
  ghost predicate CartWrite(db: Db, after: Db, o: OrderId)
  {
    && after.inventory == db.inventory && after.catalog == db.catalog
    && o in after.orders && after.orders == db.orders[o := after.orders[o]]
    && after.orders[o].status == Pending && after.orders[o].phase != Booking
    && (o in db.orders ==> db.orders[o].status == Pending && db.orders[o].phase != Booking)
  }

  lemma CartWriteKeepsCoupling(db: Db, after: Db, o: OrderId)
    requires CartWrite(db, after, o) && Coupled(db)
    ensures Coupled(after)
  {
    forall p | p in after.inventory
      ensures OrdersExplain(after, p)
    {
      assert OrdersExplain(db, p);
      PutCart(db.orders, o, after.orders[o], p);
    }
  }

  lemma CreateBookingPaymentKeepsCoupling(
    db: Db, guest: GuestId, eri: Eri, grandTotal: int, order: Option<OrderId>, newPayment: PaymentId)
    requires Coupled(db)
    ensures Coupled(CreateBookingPayment(db, guest, eri, grandTotal, order, newPayment).db)
  {
    var after := CreateBookingPayment(db, guest, eri, grandTotal, order, newPayment).db;
    forall p | p in after.inventory
      ensures OrdersExplain(after, p)
    {
      assert OrdersExplain(db, p);
      if order.Some? && order.value in db.orders {
        PutOrder(db.orders, order.value, db.orders[order.value].(payment := Some(newPayment)), p);
      }
    }
  }

  /** Reserving a new booking order's lines. */
  lemma BookingKeepsCoupling(
    db: Db, guest: GuestId, request: BookingRequest, offers: seq<RoomOffer>, eri: Eri, newOrder: OrderId)
    requires Catalogued(db) && Coupled(db) && newOrder !in db.orders
    ensures Coupled(CreateBookingOrder(db, guest, request, offers, eri, newOrder).db)
  {
    hide Coupled, ChecksHold, StoredRooms, ParseDateRange, Accepted, FirstError, Moved;
    var r := CreateBookingOrder(db, guest, request, offers, eri, newOrder);
    if r.outcome.Booked? {
      AcceptedAddonsFit(db, request.property, request.addons);
      var lines := AddonLines(db.catalog, request.addons);
      ReserveKeepsCoupling(db, r.db, request.property, lines, eri, guest, newOrder);
    }
  }

  lemma AcceptedAddonsFit(db: Db, property: PropertyId, addons: seq<AddonRequest>)
    requires AddonsRefusal(db, property, addons, |addons|).None?
    ensures forall i | 0 <= i < |addons| :: addons[i].product in db.catalog
    ensures LinesFit(AddonLines(db.catalog, addons), db.catalog, property)
    ensures DistinctIds(AddonLines(db.catalog, addons))
  {
    forall i | 0 <= i < |addons|
      ensures addons[i].product in db.catalog && db.catalog[addons[i].product].property == property
    {
      assert AddonRefusal(db, property, addons[i]).None?;
    }
  }

  lemma ReserveKeepsCoupling(
    db: Db, after: Db, property: PropertyId, lines: seq<Line>, eri: Eri, guest: GuestId, newOrder: OrderId)
    requires Catalogued(db) && Coupled(db) && LinesFit(lines, db.catalog, property) && newOrder !in db.orders
    requires after.catalog == db.catalog
    requires after.inventory == Moved(db.inventory, db.catalog, property, lines, Reserve)
    requires after.orders ==
             if lines == [] then db.orders
             else db.orders[newOrder := Order(eri, guest, None, Booking, Pending, lines)]
    ensures Coupled(after)
  {
    hide Moved;
    assert Moved(db.inventory, db.catalog, property, lines, Reserve).Keys == db.inventory.Keys by {
      MovedKeys(db.inventory, db.catalog, property, lines, Reserve);
    }
    forall p | p in after.inventory
      ensures OrdersExplain(after, p)
    {
      assert OrdersExplain(db, p);
      MovedAt(db, property, lines, Reserve, p);
      PutOrder(db.orders, newOrder, Order(eri, guest, None, Booking, Pending, lines), p);
    }
  }

  lemma NothingMoves(db: Db, property: PropertyId, m: Movement)
    ensures Moved(db.inventory, db.catalog, property, [], m) == db.inventory
  {
  }

  lemma MovedKeys(inventory: Inventory, catalog: Catalog, property: PropertyId, lines: seq<Line>, m: Movement)
    ensures Moved(inventory, catalog, property, lines, m).Keys == inventory.Keys
  {
  }

  /**
   * Moving a fitting order's lines while its row changes keeps the coupling of a product exactly when
   * the row's own weights change by what the counters change by.
   */
  lemma MovementAndOrder(
    db: Db, after: Db, property: PropertyId, lines: seq<Line>, m: Movement, p: ProductId,
    reservedGain: int, soldGain: int)
    requires Catalogued(db) && LinesFit(lines, db.catalog, property) && p in db.inventory && OrdersExplain(db, p)
    requires after.catalog == db.catalog
    requires after.inventory == Moved(db.inventory, db.catalog, property, lines, m)
    requires ReservedUnits(after.orders, p) == ReservedUnits(db.orders, p) + reservedGain
    requires SoldUnits(after.orders, p) == SoldUnits(db.orders, p) + soldGain
    ensures p in after.inventory
    ensures OrdersExplain(after, p) <==>
            (IsCommodity(db.catalog, p) ==>
              && reservedGain == (match m case Reserve => 1 case Release => -1 case Finalise => -1 case Sell => 0)
                                 * Units(lines, p)
              && soldGain == (if m == Finalise || m == Sell then 1 else 0) * Units(lines, p))
  {
    MovedAt(db, property, lines, m, p);
  }

  lemma SameOrdersAndStock(db: Db, after: Db)
    requires Coupled(db)
    requires after.orders == db.orders && after.catalog == db.catalog && after.inventory == db.inventory
    ensures Coupled(after)
  {
    forall p | p in after.inventory
      ensures OrdersExplain(after, p)
    {
      assert OrdersExplain(db, p);
    }
  }

  // ---------------------------------------------------------------- calls that leave orders alone

  /** A stock row may change anything but its reserved and sold counters. */
  lemma RowKeepsCoupling(db: Db, after: Db, id: ProductId, row: Stock)
    requires Coupled(db) && id in db.inventory
    requires row.reserved == db.inventory[id].reserved && row.sold == db.inventory[id].sold
    requires after.orders == db.orders && after.catalog == db.catalog && after.inventory == db.inventory[id := row]
    ensures Coupled(after)
  {
    forall p | p in after.inventory
      ensures OrdersExplain(after, p)
    {
      assert OrdersExplain(db, p);
    }
  }

  lemma RestockKeepsCoupling(db: Db, id: ProductId, quantity: nat, scope: Option<PropertyId>)
    requires Coupled(db)
    ensures Coupled(Restock(db, id, quantity, scope).db)
    ensures Coupled(MarkDamaged(db, id, quantity, scope).db)
  {
    hide Coupled;
    var stocked, damaged := Restock(db, id, quantity, scope), MarkDamaged(db, id, quantity, scope);
    if stocked.outcome == Done { RowKeepsCoupling(db, stocked.db, id, stocked.db.inventory[id]); }
    if damaged.outcome == Done { RowKeepsCoupling(db, damaged.db, id, damaged.db.inventory[id]); }
  }

  lemma LendKeepsCoupling(db: Db, id: ProductId, eri: Eri, guest: GuestId, checkout: CheckoutId)
    requires Coupled(db) && id in db.inventory
    ensures Coupled(Lend(db, id, eri, guest, checkout))
  {
    hide Coupled;
    var after := Lend(db, id, eri, guest, checkout);
    RowKeepsCoupling(db, after, id, after.inventory[id]);
  }

  lemma BorrowableCheckoutKeepsCoupling(
    db: Db, id: ProductId, eri: Eri, guest: GuestId, scope: Option<PropertyId>, checkout: CheckoutId)
    requires Coupled(db)
    ensures Coupled(BorrowableCheckout(db, id, eri, guest, scope, checkout).db)
  {
    hide Coupled, Lend;
    if id in db.inventory {
      LendKeepsCoupling(db, id, eri, guest, checkout);
    }
  }

  lemma RequestBorrowableKeepsCoupling(db: Db, guest: GuestId, eri: Eri, id: ProductId, checkout: CheckoutId)
    requires Coupled(db)
    ensures Coupled(RequestBorrowable(db, guest, eri, id, checkout).db)
  {
    hide Coupled, Lend, AlreadyBorrowed;
    if id in db.inventory {
      LendKeepsCoupling(db, id, eri, guest, checkout);
    }
  }

  lemma ReturnsKeepCoupling(db: Db, checkout: CheckoutId, condition: Condition)
    requires Coupled(db)
    ensures Coupled(VerifyReturn(db, checkout).db)
    ensures Coupled(ReturnableVerifyReturn(db, checkout, condition).db)
  {
    hide Coupled;
    var loan, issue := VerifyReturn(db, checkout).db, ReturnableVerifyReturn(db, checkout, condition).db;
    if loan != db {
      var id := db.loans[checkout].product;
      RowKeepsCoupling(db, loan, id, loan.inventory[id]);
    }
    if issue != db {
      var id := db.issues[checkout].product;
      RowKeepsCoupling(db, issue, id, issue.inventory[id]);
    }
  }

  lemma IssueKeepsCoupling(
    db: Db, id: ProductId, item: ItemRef, guest: GuestId, eri: Eri, property: PropertyId, quantity: nat,
    checkout: CheckoutId)
    requires Coupled(db)
    ensures Coupled(ReturnableIssue(db, id, item, guest, eri, property, quantity, checkout).db)
  {
    hide Coupled, LineIndex, IssuedUnits;
    var after := ReturnableIssue(db, id, item, guest, eri, property, quantity, checkout).db;
    if after != db {
      RowKeepsCoupling(db, after, id, after.inventory[id]);
    }
  }

  lemma CreateProductKeepsCoupling(
    db: Db, id: ProductId, property: PropertyId, category: Category, price: nat, stock: nat)
    requires id !in db.catalog && id !in db.inventory
    requires Catalogued(db) && OrdersFit(db) && Coupled(db)
    ensures Coupled(CreateProduct(db, id, property, category, price, stock).db)
  {
    hide Coupled, OrdersFit, Catalogued, KeepsReserved, KeepsBorrowed;
    var after := CreateProduct(db, id, property, category, price, stock).db;
    NewProductKeepsCoupling(db, after, id);
  }

  /** A new product without a row, or with a row that has nothing reserved or sold. */
  lemma NewProductKeepsCoupling(db: Db, after: Db, id: ProductId)
    requires id !in db.catalog && id !in db.inventory
    requires Catalogued(db) && OrdersFit(db) && Coupled(db)
    requires after.orders == db.orders
    requires id in after.inventory ==> after.inventory[id].reserved == 0 && after.inventory[id].sold == 0
    requires after.inventory == db.inventory
             || (id in after.inventory && after.inventory == db.inventory[id := after.inventory[id]])
    requires after.catalog == db.catalog
             || (id in after.catalog && after.catalog == db.catalog[id := after.catalog[id]])
    ensures Coupled(after)
  {
    hide OrdersFit;
    UncataloguedUnits(db, id);
    forall p | p in after.inventory
      ensures OrdersExplain(after, p)
    {
      if p != id {
        assert OrdersExplain(db, p);
      }
    }
  }

  lemma UpdateProductKeepsCoupling(db: Db, id: ProductId, price: Option<nat>, active: Option<bool>)
    requires Coupled(db)
    ensures Coupled(UpdateProduct(db, id, price, active).db)
  {
    var after := UpdateProduct(db, id, price, active).db;
    forall p | p in after.inventory
      ensures OrdersExplain(after, p)
    {
      assert OrdersExplain(db, p);
    }
  }

  lemma LinkKeepsCoupling(db: Db, guest: GuestId, eri: Eri)
    requires Coupled(db)
    ensures Coupled(LinkBooking(db, guest, eri).db)
  {
    hide EmptySlots, AssignFirst;
    SameOrdersAndStock(db, LinkBooking(db, guest, eri).db);
  }
}
