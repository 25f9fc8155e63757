/** What the calls mean for the calls that come after them. */
module Effects {
  import opened Wrappers
  import opened RoomOrders
  import opened Tables
  import opened Operations
  import opened Runs
  import opened CartPrices

  /** The product can be added to a cart, or to a booking, of the property. */
  ghost predicate Offered(db: Db, property: PropertyId, p: ProductId, quantity: nat)
  {
    AddonRefusal(db, property, AddonRequest(p, quantity)).None?
  }

  // ---------------------------------------------------------------- products and stock

  /** A new product is offered up to its initial stock, unless it is lent or free; others as before. */
  lemma NewProductIsOffered(
    db: Db, id: ProductId, property: PropertyId, category: Category, price: nat, stock: nat, quantity: nat,
    other: ProductId, place: PropertyId)
    requires id !in db.catalog && id !in db.inventory
    requires CreateProduct(db, id, property, category, price, stock).outcome == Done
    ensures var after := CreateProduct(db, id, property, category, price, stock).db;
            && (Offered(after, property, id, quantity) <==>
                 category != Borrowable && price > 0 && (category == Commodity ==> quantity <= stock))
            && (place != property ==> !Offered(after, place, id, quantity))
            && (other != id ==> (Offered(after, place, other, quantity) <==> Offered(db, place, other, quantity)))
  {
  }

  /** An edit decides whether the product is offered at all, and never how many units are. */
  lemma EditDecidesOffers(
    db: Db, id: ProductId, price: Option<nat>, active: Option<bool>, property: PropertyId, quantity: nat)
    requires UpdateProduct(db, id, price, active).outcome == Done
    ensures var after := UpdateProduct(db, id, price, active).db;
            && (active == Some(false) || price == Some(0) ==> !Offered(after, property, id, quantity))
            && (active != Some(false) && price != Some(0) && Offered(db, property, id, quantity) ==>
                 Offered(after, property, id, quantity))
            && (Offered(after, property, id, quantity) && db.catalog[id].active && db.catalog[id].price > 0 ==>
                 Offered(db, property, id, quantity))
  {
  }

  /** A cart's checkout does not notice edits: not the price, and not even that a product is no longer sold. */
  lemma CheckoutIgnoresEdits(
    db: Db, id: ProductId, price: Option<nat>, active: Option<bool>,
    guest: GuestId, eri: Eri, first: Option<OrderId>, newPayment: PaymentId)
    requires AnswersCart(db.orders, first, eri, guest)
    ensures var edited := UpdateProduct(db, id, price, active).db;
            CreateOrder(edited, guest, eri, first, newPayment)
            == Reply(CreateOrder(db, guest, eri, first, newPayment).db.(catalog := edited.catalog),
                     CreateOrder(db, guest, eri, first, newPayment).outcome)
  {
    hide OpenCartPayment, UpdateProduct, OpensPayment;
    if first.Some? && eri in db.bookings {
      OpeningIgnoresEdits(db, id, price, active, guest, eri, first.value, newPayment);
    }
  }

  lemma OpeningIgnoresEdits(
    db: Db, id: ProductId, price: Option<nat>, active: Option<bool>,
    guest: GuestId, eri: Eri, o: OrderId, newPayment: PaymentId)
    requires eri in db.bookings && o in db.orders
    ensures var edited := UpdateProduct(db, id, price, active).db;
            OpenCartPayment(edited, guest, eri, o, newPayment)
            == Reply(OpenCartPayment(db, guest, eri, o, newPayment).db.(catalog := edited.catalog),
                     OpenCartPayment(db, guest, eri, o, newPayment).outcome)
  {
    hide SomeLineShort, UpdateProduct, LinesTotal, OpensPayment;
    EditKeepsShortage(db, id, price, active, db.bookings[eri].property, db.orders[o].lines);
  }

  lemma EditKeepsShortage(
    db: Db, id: ProductId, price: Option<nat>, active: Option<bool>, property: PropertyId, lines: seq<Line>)
    ensures SomeLineShort(db.inventory, UpdateProduct(db, id, price, active).db.catalog, property, lines)
            <==> SomeLineShort(db.inventory, db.catalog, property, lines)
  {
    var catalog := UpdateProduct(db, id, price, active).db.catalog;
    assert forall i | 0 <= i < |lines| ::
      LineShort(db.inventory, catalog, property, lines[i]) <==> LineShort(db.inventory, db.catalog, property, lines[i]);
  }

  /** After a restock exactly `quantity` more units of a commodity can be asked for. */
  lemma RestockOffersMore(
    db: Db, p: ProductId, quantity: nat, scope: Option<PropertyId>, property: PropertyId, asked: nat)
    requires Restock(db, p, quantity, scope).outcome == Done
    ensures Offered(Restock(db, p, quantity, scope).db, property, p, asked + quantity)
            <==> Offered(db, property, p, asked)
  {
  }

  /** Damage is accepted up to what is available, and exactly that many fewer units can be asked for. */
  lemma DamageOffersLess(
    db: Db, p: ProductId, quantity: nat, scope: Option<PropertyId>, property: PropertyId, asked: nat)
    requires Administers(db, p, scope)
    ensures MarkDamaged(db, p, quantity, scope).outcome == Done <==> quantity <= db.inventory[p].available
    ensures MarkDamaged(db, p, quantity, scope).outcome == Done ==>
              (Offered(MarkDamaged(db, p, quantity, scope).db, property, p, asked)
               <==> Offered(db, property, p, asked + quantity))
  {
  }

  /** Damaging what was restocked only leaves it on record. */
  lemma RestockThenDamage(db: Db, p: ProductId, quantity: nat, scope: Option<PropertyId>)
    requires Restock(db, p, quantity, scope).outcome == Done && ChecksHold(db.inventory)
    ensures var r := MarkDamaged(Restock(db, p, quantity, scope).db, p, quantity, scope);
            && r.outcome == Done
            && r.db == db.(inventory := db.inventory[
                 p := db.inventory[p].(damaged := db.inventory[p].damaged + quantity)])
  {
    assert db.inventory[p].NonNegative();
  }

  // ---------------------------------------------------------------- loans and issues

  /** A loan that is returned leaves the stock as it was, and cannot be returned again. */
  lemma LendThenReturn(
    db: Db, p: ProductId, eri: Eri, guest: GuestId, scope: Option<PropertyId>, checkout: CheckoutId)
    requires BorrowableCheckout(db, p, eri, guest, scope, checkout).outcome == Done && ChecksHold(db.inventory)
    ensures var back := VerifyReturn(BorrowableCheckout(db, p, eri, guest, scope, checkout).db, checkout);
            && back.outcome == Done
            && back.db == db.(loans := db.loans[checkout := Loan(p, eri, guest, ReturnedLoan)])
            && VerifyReturn(back.db, checkout) == Reply(back.db, Refused(BadRequest))
  {
    ReturnRestores(db, p, eri, guest, checkout);
  }

  lemma ReturnRestores(db: Db, p: ProductId, eri: Eri, guest: GuestId, checkout: CheckoutId)
    requires p in db.inventory && ChecksHold(db.inventory) && db.inventory[p].available >= 1
    ensures var back := VerifyReturn(Lend(db, p, eri, guest, checkout), checkout);
            && back.outcome == Done
            && back.db == db.(loans := db.loans[checkout := Loan(p, eri, guest, ReturnedLoan)])
  {
    assert db.inventory[p].NonNegative();
    var lent := Lend(db, p, eri, guest, checkout);
    assert lent.inventory[p := db.inventory[p]] == db.inventory;
  }

  /** Likewise for a guest's own request, which is refused again until the item is back. */
  lemma BorrowThenReturn(db: Db, guest: GuestId, eri: Eri, p: ProductId, checkout: CheckoutId, second: CheckoutId)
    requires RequestBorrowable(db, guest, eri, p, checkout).outcome == Done
    requires ChecksHold(db.inventory) && checkout !in db.loans
    ensures var out := RequestBorrowable(db, guest, eri, p, checkout).db;
            var back := VerifyReturn(out, checkout);
            && RequestBorrowable(out, guest, eri, p, second) == Reply(out, Refused(BadRequest))
            && back.outcome == Done
            && back.db == db.(loans := db.loans[checkout := Loan(p, eri, guest, ReturnedLoan)])
  {
    ReturnRestores(db, p, eri, guest, checkout);
    var out := RequestBorrowable(db, guest, eri, p, checkout).db;
    assert out.loans[checkout] == Loan(p, eri, guest, CheckedOutLoan);
    assert AlreadyBorrowed(out, p, eri, guest);
  }

  /**
   * An issue that comes back in good condition leaves the stock as it was; one that comes back damaged or
   * not at all leaves it as marking the same units damaged would have.
   */
  lemma IssueThenReturn(
    db: Db, p: ProductId, item: ItemRef, guest: GuestId, eri: Eri, property: PropertyId, quantity: nat,
    checkout: CheckoutId, condition: Condition)
    requires ReturnableIssue(db, p, item, guest, eri, property, quantity, checkout).outcome == Done
    requires ChecksHold(db.inventory)
    ensures var out := ReturnableIssue(db, p, item, guest, eri, property, quantity, checkout).db;
            var back := ReturnableVerifyReturn(out, checkout, condition);
            && back.outcome == Done
            && back.db.inventory == (if condition == Good then db.inventory
                                     else MarkDamaged(db, p, quantity, None).db.inventory)
  {
    hide LineIndex, IssuedUnits, KeepsReserved;
    assert db.inventory[p].NonNegative();
    var out := ReturnableIssue(db, p, item, guest, eri, property, quantity, checkout).db;
    assert out.inventory[p := db.inventory[p]] == db.inventory;
  }

  // ---------------------------------------------------------------- carts

  /** No product twice for the same bed. */
  ghost predicate DistinctBeds(lines: seq<Line>)
  {
    forall i, j | 0 <= i < j < |lines| ::
      lines[i].product != lines[j].product || lines[i].unitCode != lines[j].unitCode
  }

  lemma SameItemIsFirst(lines: seq<Line>, p: ProductId, unitCode: string)
    ensures forall j | 0 <= j < SameItem(lines, p, unitCode) ::
              lines[j].product != p || lines[j].unitCode != Some(unitCode)
  {
  }

  /** An addition adds its units and no others, and never makes a second line for the same product and bed. */
  lemma AdditionAddsUnits(
    lines: seq<Line>, id: nat, p: ProductId, quantity: nat, unitPrice: nat, unitCode: string, other: ProductId)
    ensures var after := AddLine(lines, id, p, quantity, unitPrice, unitCode);
            && Units(after, other) == Units(lines, other) + (if other == p then quantity else 0)
            && (DistinctBeds(lines) ==> DistinctBeds(after))
            && (exists i | 0 <= i < |after| :: after[i].product == p && after[i].unitCode == Some(unitCode))
  {
    hide LinePrice;
    var i := SameItem(lines, p, unitCode);
    var after := AddLine(lines, id, p, quantity, unitPrice, unitCode);
    SameItemIsFirst(lines, p, unitCode);
    if i < |lines| {
      UnitsReplaced(lines, i, after[i], other);
    } else {
      UnitsAppended(lines, after[i], other);
    }
    assert after[i].product == p;
  }

  lemma {:induction false} TotalReplaced(lines: seq<Line>, i: nat, line: Line)
    requires i < |lines|
    ensures LinesTotal(lines[i := line]) == LinesTotal(lines) - lines[i].totalPrice + line.totalPrice
  {
    var n := |lines| - 1;
    if i == n {
      assert lines[i := line][..n] == lines[..n];
    } else {
      TotalReplaced(lines[..n], i, line);
      assert lines[i := line][..n] == lines[..n][i := line];
    }
  }

  lemma {:induction false} TotalRemoved(lines: seq<Line>, i: nat)
    requires i < |lines|
    ensures LinesTotal(lines[..i] + lines[i + 1..]) == LinesTotal(lines) - lines[i].totalPrice
  {
    var n := |lines| - 1;
    var rest := lines[..i] + lines[i + 1..];
    if i == n {
      assert rest == lines[..n];
    } else {
      TotalRemoved(lines[..n], i);
      assert rest[..n - 1] == lines[..n][..i] + lines[..n][i + 1..];
      assert rest[n - 1] == lines[n];
    }
  }

  /** The line that a cart item names. */
  ghost function ItemLine(db: Db, item: ItemRef): Line
    requires item.order in db.orders
    requires LineIndex(db.orders[item.order].lines, item.line) < |db.orders[item.order].lines|
  {
    db.orders[item.order].lines[LineIndex(db.orders[item.order].lines, item.line)]
  }

  /**
   * A change sets the item's units and charges them at the item's own unit price; every other product's
   * units and every other order stay.
   */
  lemma ChangeSetsUnits(db: Db, guest: GuestId, eri: Eri, item: ItemRef, quantity: nat, p: ProductId, other: OrderId)
    requires UpdateCartItem(db, guest, eri, item, quantity).outcome == Done
    ensures LineIndex(db.orders[item.order].lines, item.line) < |db.orders[item.order].lines|
    ensures var after, line := UpdateCartItem(db, guest, eri, item, quantity).db, ItemLine(db, item);
            && item.order in after.orders
            && Units(after.orders[item.order].lines, p)
               == Units(db.orders[item.order].lines, p) + (if p == line.product then quantity - line.quantity else 0)
            && LinesTotal(after.orders[item.order].lines)
               == LinesTotal(db.orders[item.order].lines) - line.totalPrice + LinePrice(line.unitPrice, quantity)
            && (other in db.orders && other != item.order ==>
                 other in after.orders && after.orders[other] == db.orders[other])
  {
    hide LinePrice, FreezesOrders;
    var after := UpdateCartItem(db, guest, eri, item, quantity).db;
    var i := LineIndex(db.orders[item.order].lines, item.line);
    UnitsReplaced(db.orders[item.order].lines, i, after.orders[item.order].lines[i], p);
    TotalReplaced(db.orders[item.order].lines, i, after.orders[item.order].lines[i]);
  }

  /** Changing back restores the cart if and only if the item was charged at its own unit price before. */
  lemma ChangeBackExactly(db: Db, guest: GuestId, eri: Eri, item: ItemRef, quantity: nat)
    requires UpdateCartItem(db, guest, eri, item, quantity).outcome == Done
    requires LineIndex(db.orders[item.order].lines, item.line) < |db.orders[item.order].lines|
    requires UpdateCartItem(UpdateCartItem(db, guest, eri, item, quantity).db, guest, eri, item,
                            ItemLine(db, item).quantity).outcome == Done
    ensures UpdateCartItem(UpdateCartItem(db, guest, eri, item, quantity).db, guest, eri, item,
                           ItemLine(db, item).quantity).db == db
            <==> Consistent(ItemLine(db, item))
  {
    hide UpdateCartItem, LineIndex, LinePrice, FreezesOrders;
    var once := UpdateCartItem(db, guest, eri, item, quantity).db;
    ChangeWritesLine(db, guest, eri, item, quantity);
    ChangeWritesLine(once, guest, eri, item, ItemLine(db, item).quantity);
    var i := LineIndex(db.orders[item.order].lines, item.line);
    SameIndex(db.orders[item.order].lines, once.orders[item.order].lines, item.line);
    RewrittenTwice(db.orders[item.order].lines, i, quantity);
    SameOrders(db, UpdateCartItem(once, guest, eri, item, ItemLine(db, item).quantity).db, item.order,
               Rewritten(db.orders[item.order].lines, i, ItemLine(db, item).quantity));
  }

  /** The line at the index with a new quantity, at its own unit price. */
  ghost function Rewritten(lines: seq<Line>, i: nat, quantity: nat): seq<Line>
    requires i < |lines|
  {
    lines[i := lines[i].(quantity := quantity, totalPrice := LinePrice(lines[i].unitPrice, quantity))]
  }

  lemma ChangeWritesLine(db: Db, guest: GuestId, eri: Eri, item: ItemRef, quantity: nat)
    requires UpdateCartItem(db, guest, eri, item, quantity).outcome == Done
    ensures item.order in db.orders
    ensures LineIndex(db.orders[item.order].lines, item.line) < |db.orders[item.order].lines|
    ensures var i := LineIndex(db.orders[item.order].lines, item.line);
            UpdateCartItem(db, guest, eri, item, quantity).db
            == db.(orders := db.orders[item.order := db.orders[item.order].(
                 lines := Rewritten(db.orders[item.order].lines, i, quantity))])
  {
    hide CartItemRefusal, LineIndex, LinePrice, FreezesOrders;
    if CartItemRefusal(db, guest, eri, item).None? {
      CartItemFound(db, guest, eri, item);
    }
  }

  lemma SameIndex(before: seq<Line>, after: seq<Line>, id: nat)
    requires |before| == |after| && forall j | 0 <= j < |after| :: after[j].id == before[j].id
    ensures LineIndex(after, id) == LineIndex(before, id)
  {
    assert forall j | 0 <= j < |after| :: after[j].id == id <==> before[j].id == id;
  }

  lemma RewrittenTwice(lines: seq<Line>, i: nat, quantity: nat)
    requires i < |lines|
    ensures Rewritten(Rewritten(lines, i, quantity), i, lines[i].quantity) == Rewritten(lines, i, lines[i].quantity)
    ensures Rewritten(lines, i, lines[i].quantity) == lines <==> Consistent(lines[i])
  {
    var back := Rewritten(lines, i, lines[i].quantity);
    if Consistent(lines[i]) {
      assert back == lines;
    } else {
      assert back[i] != lines[i];
    }
  }

  lemma SameOrders(db: Db, after: Db, o: OrderId, lines: seq<Line>)
    requires o in db.orders && after.orders == db.orders[o := db.orders[o].(lines := lines)]
    requires after == db.(orders := after.orders)
    ensures after == db <==> lines == db.orders[o].lines
  {
    if lines == db.orders[o].lines {
      assert after.orders == db.orders;
    } else {
      assert after.orders[o] != db.orders[o];
    }
  }

  /** A removal takes the item's units and charge out and nothing else. */
  lemma RemovalTakesUnits(db: Db, guest: GuestId, eri: Eri, item: ItemRef, p: ProductId, other: OrderId)
    requires RemoveCartItem(db, guest, eri, item).outcome == Done
    ensures LineIndex(db.orders[item.order].lines, item.line) < |db.orders[item.order].lines|
    ensures var after, line := RemoveCartItem(db, guest, eri, item).db, ItemLine(db, item);
            && item.order in after.orders
            && Units(after.orders[item.order].lines, p)
               == Units(db.orders[item.order].lines, p) - (if p == line.product then line.quantity else 0)
            && LinesTotal(after.orders[item.order].lines)
               == LinesTotal(db.orders[item.order].lines) - line.totalPrice
            && (other in db.orders && other != item.order ==>
                 other in after.orders && after.orders[other] == db.orders[other])
  {
    hide FreezesOrders;
    var i := LineIndex(db.orders[item.order].lines, item.line);
    UnitsRemoved(db.orders[item.order].lines, i, p);
    TotalRemoved(db.orders[item.order].lines, i);
  }

  /** Removing what was just added as a new item of an existing cart restores the cart but for its phase. */
  lemma AddThenRemove(
    db: Db, guest: GuestId, eri: Eri, p: ProductId, quantity: nat, unitCode: string, checkedIn: bool,
    cart: OrderId, newOrder: OrderId, newLine: nat)
    requires MatchesCart(db.orders, cart, eri, guest)
    requires forall i | 0 <= i < |db.orders[cart].lines| :: db.orders[cart].lines[i].id != newLine
    requires SameItem(db.orders[cart].lines, p, unitCode) == |db.orders[cart].lines|
    requires AddToCart(db, guest, eri, p, quantity, unitCode, checkedIn, Some(cart), newOrder, newLine).outcome == Done
    ensures var added := AddToCart(db, guest, eri, p, quantity, unitCode, checkedIn, Some(cart), newOrder, newLine).db;
            RemoveCartItem(added, guest, eri, ItemRef(cart, newLine))
            == Reply(db.(orders := db.orders[cart := db.orders[cart].(
                       phase := if checkedIn then DuringStay else PreArrival)]),
                     Done)
  {
    hide FreezesOrders, AddonRefusal, LinePrice;
    var lines := db.orders[cart].lines;
    var added := AddToCart(db, guest, eri, p, quantity, unitCode, checkedIn, Some(cart), newOrder, newLine).db;
    var after := added.orders[cart].lines;
    assert after[..|lines|] == lines && |after| == |lines| + 1;
    assert after[|lines|].id == newLine && forall j | 0 <= j < |lines| :: after[j] == lines[j];
    assert LineIndex(after, newLine) == |lines|;
    assert after[..|lines|] + after[|lines| + 1..] == lines;
  }

  // ---------------------------------------------------------------- from booking to capture

  /** A booking's stock that was reserved can always be sold. */
  lemma ReservedCanBeSold(inventory: Inventory, catalog: Catalog, property: PropertyId, lines: seq<Line>)
    requires ChecksHold(inventory) && ChecksHold(Moved(inventory, catalog, property, lines, Reserve))
    ensures ChecksHold(Moved(inventory, catalog, property, lines, Sell))
  {
    var reserved := Moved(inventory, catalog, property, lines, Reserve);
    var sold := Moved(inventory, catalog, property, lines, Sell);
    forall p | p in sold
      ensures sold[p].NonNegative()
    {
      assert inventory[p].NonNegative() && reserved[p].NonNegative();
    }
  }

  /** The tables while a new booking's payment is open. */
  ghost predicate JustPaying(
    db: Db, paying: Db, property: PropertyId, eri: Eri, guest: GuestId, newOrder: OrderId, lines: seq<Line>,
    newPayment: PaymentId, amount: int)
  {
    && paying.catalog == db.catalog
    && paying.inventory == Moved(db.inventory, db.catalog, property, lines, Reserve)
    && eri in paying.bookings && paying.bookings[eri].property == property
    && paying.bookings[eri].status == PendingPayment
    && paying.payments == db.payments[newPayment := Payment(eri, guest, amount, ForBooking, Created)]
    && paying.orders == if lines == [] then db.orders
                        else db.orders[newOrder := Order(eri, guest, Some(newPayment), Booking, Pending, lines)]
  }

  /** The tables right after the booking, with its payment still to come. */
  ghost predicate JustReserved(
    db: Db, booked: Db, property: PropertyId, eri: Eri, guest: GuestId, newOrder: OrderId, lines: seq<Line>)
  {
    && booked.catalog == db.catalog && booked.payments == db.payments
    && booked.inventory == Moved(db.inventory, db.catalog, property, lines, Reserve)
    && eri in booked.bookings && booked.bookings[eri].property == property
    && booked.bookings[eri].status == PendingPayment
    && booked.orders == if lines == [] then db.orders
                        else db.orders[newOrder := Order(eri, guest, None, Booking, Pending, lines)]
  }

  lemma BookWrites(
    db: Db, guest: GuestId, request: BookingRequest, offers: seq<RoomOffer>, eri: Eri, newOrder: OrderId)
    returns (order: RoomOrder)
    requires CreateBookingOrder(db, guest, request, offers, eri, newOrder).outcome.Booked?
    ensures AddonsRefusal(db, request.property, request.addons, |request.addons|).None?
    ensures var r, lines := CreateBookingOrder(db, guest, request, offers, eri, newOrder),
                            AddonLines(db.catalog, request.addons);
            && ChecksHold(Moved(db.inventory, db.catalog, request.property, lines, Reserve))
            && r.db == WithBooking(db, guest, request.property, order, eri, newOrder, lines).(
                 inventory := Moved(db.inventory, db.catalog, request.property, lines, Reserve))
            && r.outcome.addonOrder == (if lines == [] then None else Some(newOrder))
  {
    hide WithBooking, Moved, ChecksHold, ParseDateRange, Accepted, RoomRefusal, OrderFor, LinesTotal, FreezesOrders,
      KeepsBorrowed;
    order := OrderFor(request.rooms, offers, ParseDateRange(request.checkin, request.checkout).value);
  }

  lemma BookReserves(
    db: Db, guest: GuestId, request: BookingRequest, offers: seq<RoomOffer>, eri: Eri, newOrder: OrderId)
    requires CreateBookingOrder(db, guest, request, offers, eri, newOrder).outcome.Booked?
    ensures AddonsRefusal(db, request.property, request.addons, |request.addons|).None?
    ensures var r, lines := CreateBookingOrder(db, guest, request, offers, eri, newOrder),
                            AddonLines(db.catalog, request.addons);
            && ChecksHold(Moved(db.inventory, db.catalog, request.property, lines, Reserve))
            && JustReserved(db, r.db, request.property, eri, guest, newOrder, lines)
            && r.outcome.addonOrder == (if lines == [] then None else Some(newOrder))
  {
    hide CreateBookingOrder, Moved, ChecksHold, StoredRooms, Slots, FreezesOrders, KeepsBorrowed;
    var order := BookWrites(db, guest, request, offers, eri, newOrder);
  }

  lemma PaymentOpens(
    db: Db, booked: Db, property: PropertyId, eri: Eri, guest: GuestId, newOrder: OrderId, lines: seq<Line>,
    newPayment: PaymentId, amount: int)
    requires JustReserved(db, booked, property, eri, guest, newOrder, lines) && amount > 0
    ensures var addonOrder := if lines == [] then None else Some(newOrder);
            var r := CreateBookingPayment(booked, guest, eri, amount, addonOrder, newPayment);
            && r.outcome == PaymentOpened(amount)
            && JustPaying(db, r.db, property, eri, guest, newOrder, lines, newPayment, amount)
  {
    hide Moved, FreezesOrders;
  }

  ghost function BookedTotal(booking: Outcome): nat
    requires booking.Booked?
  {
    booking.roomTotal + booking.addonTotal
  }

  /** The tables after booking and opening the payment for what was booked. */
  ghost function BookThenPay(
    db: Db, guest: GuestId, request: BookingRequest, offers: seq<RoomOffer>, eri: Eri, newOrder: OrderId,
    newPayment: PaymentId): Reply
    requires CreateBookingOrder(db, guest, request, offers, eri, newOrder).outcome.Booked?
  {
    var booked := CreateBookingOrder(db, guest, request, offers, eri, newOrder);
    CreateBookingPayment(booked.db, guest, eri, BookedTotal(booked.outcome), booked.outcome.addonOrder, newPayment)
  }

  lemma BookThenPayOpens(
    db: Db, guest: GuestId, request: BookingRequest, offers: seq<RoomOffer>, eri: Eri, newOrder: OrderId,
    newPayment: PaymentId)
    requires CreateBookingOrder(db, guest, request, offers, eri, newOrder).outcome.Booked?
    requires BookedTotal(CreateBookingOrder(db, guest, request, offers, eri, newOrder).outcome) > 0
    ensures AddonsRefusal(db, request.property, request.addons, |request.addons|).None?
    ensures var lines := AddonLines(db.catalog, request.addons);
            var total := BookedTotal(CreateBookingOrder(db, guest, request, offers, eri, newOrder).outcome);
            var r := BookThenPay(db, guest, request, offers, eri, newOrder, newPayment);
            && ChecksHold(Moved(db.inventory, db.catalog, request.property, lines, Reserve))
            && r.outcome == PaymentOpened(total)
            && JustPaying(db, r.db, request.property, eri, guest, newOrder, lines, newPayment, total)
  {
    hide CreateBookingOrder, CreateBookingPayment, JustReserved, JustPaying, Moved, ChecksHold, FreezesOrders,
      KeepsBorrowed;
    BookReserves(db, guest, request, offers, eri, newOrder);
    var booked := CreateBookingOrder(db, guest, request, offers, eri, newOrder);
    PaymentOpens(db, booked.db, request.property, eri, guest, newOrder, AddonLines(db.catalog, request.addons),
                 newPayment, BookedTotal(booked.outcome));
  }

  lemma PayingOrder(
    db: Db, paying: Db, property: PropertyId, eri: Eri, guest: GuestId, newOrder: OrderId, lines: seq<Line>,
    newPayment: PaymentId, amount: int, first: Option<OrderId>)
    requires JustPaying(db, paying, property, eri, guest, newOrder, lines, newPayment, amount)
    requires NewEri(db, eri) && newOrder !in db.orders && AnswersPending(paying.orders, first, eri)
    ensures first == if lines == [] then None else Some(newOrder)
  {
    hide Moved;
    if lines != [] {
      assert MatchesPending(paying.orders, newOrder, eri);
    }
  }

  /** Confirmed and captured for the amount, the order paid and linked, and its lines sold out of available. */
  ghost predicate IsSoldBooking(
    db: Db, r: Reply, property: PropertyId, eri: Eri, guest: GuestId, newOrder: OrderId, lines: seq<Line>,
    newPayment: PaymentId, amount: int)
  {
    && r.outcome == BookingConfirmed
    && eri in r.db.bookings && r.db.bookings[eri].status == Confirmed
    && r.db.payments == db.payments[newPayment := Payment(eri, guest, amount, ForBooking, Captured)]
    && r.db.inventory == Moved(db.inventory, db.catalog, property, lines, Sell)
    && r.db.orders == if lines == [] then db.orders
                      else db.orders[newOrder := Order(eri, guest, Some(newPayment), Booking, Paid, lines)]
  }

  lemma CaptureOfNewBooking(
    db: Db, paying: Db, property: PropertyId, eri: Eri, guest: GuestId, newOrder: OrderId, lines: seq<Line>,
    newPayment: PaymentId, amount: int, first: Option<OrderId>)
    requires JustPaying(db, paying, property, eri, guest, newOrder, lines, newPayment, amount)
    requires NewEri(db, eri) && newOrder !in db.orders && newPayment !in db.payments && ChecksHold(db.inventory)
    requires ChecksHold(Moved(db.inventory, db.catalog, property, lines, Reserve))
    requires AnswersPending(paying.orders, first, eri)
    ensures newPayment in paying.payments && AnswersFulfil(paying, newPayment, first)
    ensures IsSoldBooking(db, FulfilOrder(paying, newPayment, first), property, eri, guest, newOrder, lines, newPayment,
                          amount)
  {
    hide Moved, ChecksHold, NewEri, FreezesOrders, KeepsBorrowed, OnlyStatusOf;
    PayingOrder(db, paying, property, eri, guest, newOrder, lines, newPayment, amount, first);
    ReserveThenFinaliseSells(db.inventory, db.catalog, property, lines);
    ReservedCanBeSold(db.inventory, db.catalog, property, lines);
  }

  /**
   * Book, open the payment for the booked total, capture it: whatever the database answers, the booking
   * is confirmed, the amount captured is the total that was booked, the order is paid and linked to it, and
   * the stock is as if its lines had been sold out of available at once.
   */
  lemma BookPayCapture(
    db: Db, guest: GuestId, request: BookingRequest, offers: seq<RoomOffer>, eri: Eri, newOrder: OrderId,
    newPayment: PaymentId, first: Option<OrderId>)
    requires NewEri(db, eri) && newOrder !in db.orders && newPayment !in db.payments && ChecksHold(db.inventory)
    requires CreateBookingOrder(db, guest, request, offers, eri, newOrder).outcome.Booked?
    requires BookedTotal(CreateBookingOrder(db, guest, request, offers, eri, newOrder).outcome) > 0
    requires AnswersPending(BookThenPay(db, guest, request, offers, eri, newOrder, newPayment).db.orders, first, eri)
    ensures AddonsRefusal(db, request.property, request.addons, |request.addons|).None?
    ensures var lines := AddonLines(db.catalog, request.addons);
            var total := BookedTotal(CreateBookingOrder(db, guest, request, offers, eri, newOrder).outcome);
            var paying := BookThenPay(db, guest, request, offers, eri, newOrder, newPayment);
            && paying.outcome == PaymentOpened(total)
            && newPayment in paying.db.payments && AnswersFulfil(paying.db, newPayment, first)
            && IsSoldBooking(db, FulfilOrder(paying.db, newPayment, first), request.property, eri, guest, newOrder,
                             lines, newPayment, total)
  {
    hide CreateBookingOrder, BookThenPay, FulfilOrder, NewEri, ChecksHold, Moved, AnswersPending, IsSoldBooking,
      FreezesOrders, KeepsBorrowed;
    BookThenPayOpens(db, guest, request, offers, eri, newOrder, newPayment);
    CaptureOfNewBooking(
      db, BookThenPay(db, guest, request, offers, eri, newOrder, newPayment).db, request.property, eri, guest, newOrder,
      AddonLines(db.catalog, request.addons), newPayment,
      BookedTotal(CreateBookingOrder(db, guest, request, offers, eri, newOrder).outcome), first);
  }
}
