/** References between the tables and the links of paid orders, kept by every call. */
module Integrity {
  import opened Wrappers
  import opened RoomOrders
  import opened Tables
  import opened Operations
  import opened Runs
  import opened Conservation
  import opened Coupling

  // ---------------------------------------------------------------- products and stock rows

  lemma UpdateProductKeepsCatalogue(db: Db, id: ProductId, price: Option<nat>, active: Option<bool>)
    requires Catalogued(db)
    ensures Catalogued(UpdateProduct(db, id, price, active).db)
  {
  }

  lemma CreateProductKeepsCatalogue(
    db: Db, id: ProductId, property: PropertyId, category: Category, price: nat, stock: nat)
    requires id !in db.catalog && id !in db.inventory && Catalogued(db)
    ensures Catalogued(CreateProduct(db, id, property, category, price, stock).db)
  {
  }

  /** Rows keep their property and no call but `NewProduct` adds one. */
  lemma OtherCallsKeepCatalogue(db: Db, c: Call)
    requires Possible(db, c) && Catalogued(db) && !c.NewProduct? && !c.EditProduct?
    ensures Catalogued(Perform(db, c).db)
  {
    hide Perform, Possible;
    Frame(db, c);
    var after := Perform(db, c).db;
    forall p: ProductId
      ensures p in after.inventory <==> p in db.inventory
      ensures p in db.inventory ==> after.inventory[p].property == db.inventory[p].property
    {
      StepConserves(db, c, p);
    }
  }

  lemma StepKeepsCatalogue(db: Db, c: Call)
    requires Possible(db, c) && Catalogued(db)
    ensures Catalogued(Perform(db, c).db)
  {
    hide Catalogued, CreateProduct, UpdateProduct;
    match c
    case NewProduct(id, property, category, price, stock) =>
      CreateProductKeepsCatalogue(db, id, property, category, price, stock);
    case EditProduct(id, price, active) => UpdateProductKeepsCatalogue(db, id, price, active);
    case _ => OtherCallsKeepCatalogue(db, c);
  }

  // ---------------------------------------------------------------- orders and their products

  ghost predicate OrderFits(order: Order, db: Db)
  {
    && order.eri in db.bookings
    && DistinctIds(order.lines)
    && LinesFit(order.lines, db.catalog, db.bookings[order.eri].property)
  }

  /** Known bookings and products keep their property. */
  ghost predicate Extends(db: Db, after: Db)
  {
    && (forall e | e in db.bookings :: e in after.bookings && after.bookings[e].property == db.bookings[e].property)
    && (forall p | p in db.catalog :: p in after.catalog && after.catalog[p].property == db.catalog[p].property)
  }

  /** An order written by a call has its old reservation and lines, or fits by itself. */
  ghost predicate WritesFittingOrders(db: Db, after: Db)
  {
    forall o | o in after.orders ::
      || (o in db.orders && after.orders[o].eri == db.orders[o].eri && after.orders[o].lines == db.orders[o].lines)
      || OrderFits(after.orders[o], after)
  }

  lemma OrdersStillFit(db: Db, after: Db)
    requires OrdersFit(db) && Extends(db, after) && WritesFittingOrders(db, after)
    ensures OrdersFit(after)
  {
    forall o | o in after.orders
      ensures OrderFits(after.orders[o], after)
    {
      if !OrderFits(after.orders[o], after) {
        assert OrderFits(db.orders[o], db);
      }
    }
  }

  lemma AddToCartFits(
    db: Db, guest: GuestId, eri: Eri, p: ProductId, quantity: nat, unitCode: string, checkedIn: bool,
    first: Option<OrderId>, newOrder: OrderId, newLine: nat)
    requires AnswersCart(db.orders, first, eri, guest) && OrdersFit(db)
    requires first.Some? ==> forall i | 0 <= i < |db.orders[first.value].lines| ::
                               db.orders[first.value].lines[i].id != newLine
    ensures WritesFittingOrders(
              db, AddToCart(db, guest, eri, p, quantity, unitCode, checkedIn, first, newOrder, newLine).db)
  {
    hide LinePrice, SameItem;
    var r := AddToCart(db, guest, eri, p, quantity, unitCode, checkedIn, first, newOrder, newLine);
    if r.outcome == Done {
      var o := first.GetOr(newOrder);
      var lines := if first.Some? then db.orders[o].lines else [];
      assert first.Some? ==> OrderFits(db.orders[o], db);
      AddLineFits(lines, newLine, p, quantity, db.catalog[p].price, unitCode, db.catalog, db.bookings[eri].property);
      assert OrderFits(r.db.orders[o], r.db);
    }
  }

  lemma AddLineFits(
    lines: seq<Line>, id: nat, p: ProductId, quantity: nat, unitPrice: nat, unitCode: string,
    catalog: Catalog, property: PropertyId)
    requires LinesFit(lines, catalog, property) && p in catalog && catalog[p].property == property
    requires DistinctIds(lines) && forall i | 0 <= i < |lines| :: lines[i].id != id
    ensures LinesFit(AddLine(lines, id, p, quantity, unitPrice, unitCode), catalog, property)
    ensures DistinctIds(AddLine(lines, id, p, quantity, unitPrice, unitCode))
  {
    hide LinePrice;
  }

  lemma EditItemFits(db: Db, guest: GuestId, eri: Eri, item: ItemRef, quantity: nat)
    requires OrdersFit(db)
    ensures WritesFittingOrders(db, UpdateCartItem(db, guest, eri, item, quantity).db)
    ensures WritesFittingOrders(db, RemoveCartItem(db, guest, eri, item).db)
  {
    hide LinePrice;
    var updated, removed := UpdateCartItem(db, guest, eri, item, quantity), RemoveCartItem(db, guest, eri, item);
    if updated.outcome == Done {
      assert OrderFits(db.orders[item.order], db);
      assert OrderFits(updated.db.orders[item.order], updated.db);
    }
    if removed.outcome == Done {
      assert OrderFits(db.orders[item.order], db);
      assert OrderFits(removed.db.orders[item.order], removed.db);
    }
  }

  lemma CreateBookingOrderFits(
    db: Db, guest: GuestId, request: BookingRequest, offers: seq<RoomOffer>, eri: Eri, newOrder: OrderId)
    requires eri !in db.bookings
    ensures Extends(db, CreateBookingOrder(db, guest, request, offers, eri, newOrder).db)
    ensures WritesFittingOrders(db, CreateBookingOrder(db, guest, request, offers, eri, newOrder).db)
  {
    hide ChecksHold, StoredRooms, ParseDateRange, Accepted, RoomRefusal, OrderFor, LinesTotal, Moved, Slots,
      FreezesOrders, KeepsBorrowed, AddonsRefusal;
    var r := CreateBookingOrder(db, guest, request, offers, eri, newOrder);
    if r.outcome.Booked? {
      AcceptedAddonsFit(db, request.property, request.addons);
      assert newOrder in r.db.orders && r.db.orders != db.orders ==> OrderFits(r.db.orders[newOrder], r.db);
    }
  }

  lemma RollbackExtends(db: Db, eri: Eri, first: Option<OrderId>)
    requires AnswersPending(db.orders, first, eri)
    ensures Extends(db, RollbackPendingBooking(db, eri, first).db)
  {
    hide Moved, ChecksHold;
  }

  lemma FailureExtends(db: Db, x: PaymentId, first: Option<OrderId>)
    requires x in db.payments ==> AnswersPending(db.orders, first, db.payments[x].eri)
    ensures Extends(db, HandlePaymentFailure(db, x, first).db)
  {
    hide RollbackPendingBooking, Unlinked;
    if x in db.payments {
      RollbackExtends(SetPayment(db, x, Failed), db.payments[x].eri, first);
    }
  }

  lemma FulfilBookingExtends(db: Db, x: PaymentId, first: Option<OrderId>)
    requires x in db.payments && AnswersPending(db.orders, first, db.payments[x].eri)
    ensures Extends(db, FulfilBookingOrder(db, x, first).db)
  {
    hide FulfilBookingOrder, FreezesOrders, KeepsBorrowed, OnlyStatusOf, AnswersPending;
    CaptureWrites(db, x, first);
  }

  lemma FulfilExtends(db: Db, x: PaymentId, first: Option<OrderId>)
    requires x in db.payments ==> AnswersFulfil(db, x, first)
    ensures Extends(db, FulfilOrder(db, x, first).db)
  {
    hide FulfilBookingOrder, FulfilAddonOrder;
    if x in db.payments && db.payments[x].purpose == ForBooking {
      FulfilBookingExtends(db, x, first);
    }
  }

  lemma CreateProductExtends(
    db: Db, id: ProductId, property: PropertyId, category: Category, price: nat, stock: nat)
    requires id !in db.catalog
    ensures Extends(db, CreateProduct(db, id, property, category, price, stock).db)
  {
  }

  lemma UpdateProductExtends(db: Db, id: ProductId, price: Option<nat>, active: Option<bool>)
    ensures Extends(db, UpdateProduct(db, id, price, active).db)
  {
  }

  lemma ProductCallExtends(db: Db, c: Call)
    requires Possible(db, c) && (c.NewProduct? || c.EditProduct?)
    ensures Extends(db, Perform(db, c).db)
  {
    hide Extends, CreateProduct, UpdateProduct, KeepsReserved, KeepsBorrowed;
    match c
    case NewProduct(id, property, category, price, stock) =>
      CreateProductExtends(db, id, property, category, price, stock);
    case EditProduct(id, price, active) => UpdateProductExtends(db, id, price, active);
  }

  lemma BookingCallExtends(db: Db, c: Call)
    requires Possible(db, c) && (c.Book? || c.PaymentFails? || c.PaymentCaptured?)
    ensures Extends(db, Perform(db, c).db)
  {
    hide Extends, CreateBookingOrder, HandlePaymentFailure, FulfilOrder, AnswersPending, FreezesOrders, KeepsBorrowed,
      OnlyStatusOf;
    match c
    case Book(guest, request, offers, eri, newOrder) =>
      CreateBookingOrderFits(db, guest, request, offers, eri, newOrder);
    case PaymentFails(x, first) => FailureExtends(db, x, first);
    case PaymentCaptured(x, first) => FulfilExtends(db, x, first);
  }

  lemma StepExtends(db: Db, c: Call)
    requires Possible(db, c)
    ensures Extends(db, Perform(db, c).db)
  {
    hide Extends, Perform, Possible;
    if c.NewProduct? || c.EditProduct? {
      ProductCallExtends(db, c);
    } else if c.Book? || c.PaymentFails? || c.PaymentCaptured? {
      BookingCallExtends(db, c);
    } else {
      SameExtends(db, c);
    }
  }

  lemma SameExtends(db: Db, c: Call)
    requires Possible(db, c)
    requires !(c.Book? || c.PaymentFails? || c.PaymentCaptured? || c.NewProduct? || c.EditProduct?)
    ensures Extends(db, Perform(db, c).db)
  {
    hide Perform, Possible;
    Frame(db, c);
  }

  lemma CreateBookingPaymentFits(
    db: Db, guest: GuestId, eri: Eri, amount: int, order: Option<OrderId>, newPayment: PaymentId)
    ensures WritesFittingOrders(db, CreateBookingPayment(db, guest, eri, amount, order, newPayment).db)
  {
    hide CreateBookingPayment, OrderFits, FreezesOrders;
    BookingPaymentWrites(db, guest, eri, amount, order, newPayment);
  }

  lemma FailureFits(db: Db, x: PaymentId, first: Option<OrderId>)
    requires x in db.payments ==> AnswersPending(db.orders, first, db.payments[x].eri)
    ensures WritesFittingOrders(db, HandlePaymentFailure(db, x, first).db)
  {
    hide HandlePaymentFailure, AnswersPending, FreezesOrders, KeepsBorrowed, OnlyStatusOf;
    if x in db.payments {
      FailureKeeps(db, x, first);
    } else {
      FailureUnknown(db, x, first);
    }
  }

  lemma FulfilBookingFits(db: Db, x: PaymentId, first: Option<OrderId>)
    requires x in db.payments && AnswersPending(db.orders, first, db.payments[x].eri)
    ensures WritesFittingOrders(db, FulfilBookingOrder(db, x, first).db)
  {
    hide FulfilBookingOrder, FreezesOrders, KeepsBorrowed, OnlyStatusOf, OrderFits;
    CaptureWrites(db, x, first);
  }

  lemma FulfilAddonsFits(db: Db, x: PaymentId, first: Option<OrderId>)
    requires x in db.payments && AnswersPayment(db.orders, first, x)
    ensures WritesFittingOrders(db, FulfilAddonOrder(db, x, first).db)
  {
    hide FulfilAddonOrder, Moved, OrderFits;
    AddonCaptureWrites(db, x, first);
  }

  lemma FulfilFits(db: Db, x: PaymentId, first: Option<OrderId>)
    requires x in db.payments ==> AnswersFulfil(db, x, first)
    ensures WritesFittingOrders(db, FulfilOrder(db, x, first).db)
  {
    hide FulfilBookingOrder, FulfilAddonOrder;
    if x in db.payments {
      if db.payments[x].purpose == ForBooking {
        FulfilBookingFits(db, x, first);
      } else {
        FulfilAddonsFits(db, x, first);
      }
    }
  }

  lemma CreateOrderFits(db: Db, guest: GuestId, eri: Eri, first: Option<OrderId>, newPayment: PaymentId)
    requires AnswersCart(db.orders, first, eri, guest)
    ensures WritesFittingOrders(db, CreateOrder(db, guest, eri, first, newPayment).db)
  {
    hide CreateOrder;
  }

  lemma CartCallFits(db: Db, c: Call)
    requires Possible(db, c) && OrdersFit(db) && (c.AddItem? || c.ChangeItem? || c.RemoveItem?)
    ensures WritesFittingOrders(db, Perform(db, c).db)
  {
    hide WritesFittingOrders, OrdersFit, AddToCart, UpdateCartItem, RemoveCartItem, AnswersCart, FreezesOrders;
    match c
    case AddItem(guest, eri, p, quantity, unitCode, checkedIn, first, newOrder, newLine) =>
      AddToCartFits(db, guest, eri, p, quantity, unitCode, checkedIn, first, newOrder, newLine);
    case ChangeItem(guest, eri, item, quantity) => EditItemFits(db, guest, eri, item, quantity);
    case RemoveItem(guest, eri, item) => EditItemFits(db, guest, eri, item, 0);
  }

  lemma PaymentCallFits(db: Db, c: Call)
    requires Possible(db, c) && (c.Book? || c.PayCart? || c.PayBooking? || c.PaymentFails? || c.PaymentCaptured?)
    ensures WritesFittingOrders(db, Perform(db, c).db)
  {
    hide WritesFittingOrders, CreateBookingOrder, CreateOrder, CreateBookingPayment, HandlePaymentFailure, FulfilOrder,
      AnswersCart, AnswersPending, FreezesOrders, KeepsBorrowed, OnlyStatusOf, OpensPayment;
    match c
    case Book(guest, request, offers, eri, newOrder) =>
      CreateBookingOrderFits(db, guest, request, offers, eri, newOrder);
    case PayCart(guest, eri, first, newPayment) => CreateOrderFits(db, guest, eri, first, newPayment);
    case PayBooking(guest, eri, amount, order, newPayment) =>
      CreateBookingPaymentFits(db, guest, eri, amount, order, newPayment);
    case PaymentFails(x, first) => FailureFits(db, x, first);
    case PaymentCaptured(x, first) => FulfilFits(db, x, first);
  }

  lemma StepWritesFittingOrders(db: Db, c: Call)
    requires Possible(db, c) && OrdersFit(db)
    ensures WritesFittingOrders(db, Perform(db, c).db)
  {
    hide WritesFittingOrders, OrdersFit, Perform, Possible;
    if c.AddItem? || c.ChangeItem? || c.RemoveItem? {
      CartCallFits(db, c);
    } else if WritesOrders(c) {
      PaymentCallFits(db, c);
    } else {
      SameOrdersFit(db, c);
    }
  }

  lemma SameOrdersFit(db: Db, c: Call)
    requires Possible(db, c) && !WritesOrders(c)
    ensures WritesFittingOrders(db, Perform(db, c).db)
  {
    hide Perform, Possible;
    Frame(db, c);
  }

  // ---------------------------------------------------------------- checkouts and their products

  /** The checkouts after a call name products of the stock before it. */
  ghost predicate NamesStock(db: Db, after: Db)
  {
    && (forall k | k in after.loans :: after.loans[k].product in db.inventory)
    && (forall k | k in after.issues :: after.issues[k].product in db.inventory)
  }

  lemma LendNamesStock(
    db: Db, id: ProductId, eri: Eri, guest: GuestId, scope: Option<PropertyId>, checkout: CheckoutId)
    requires CheckoutsFit(db)
    ensures NamesStock(db, BorrowableCheckout(db, id, eri, guest, scope, checkout).db)
  {
  }

  lemma BorrowNamesStock(db: Db, guest: GuestId, eri: Eri, id: ProductId, checkout: CheckoutId)
    requires CheckoutsFit(db)
    ensures NamesStock(db, RequestBorrowable(db, guest, eri, id, checkout).db)
  {
    hide AlreadyBorrowed;
  }

  lemma LoanReturnNamesStock(db: Db, checkout: CheckoutId)
    requires CheckoutsFit(db)
    ensures NamesStock(db, VerifyReturn(db, checkout).db)
  {
  }

  lemma IssueNamesStock(
    db: Db, id: ProductId, item: ItemRef, guest: GuestId, eri: Eri, property: PropertyId, quantity: nat,
    checkout: CheckoutId)
    requires CheckoutsFit(db)
    ensures NamesStock(db, ReturnableIssue(db, id, item, guest, eri, property, quantity, checkout).db)
  {
    hide LineIndex, IssuedUnits;
  }

  lemma IssueReturnNamesStock(db: Db, checkout: CheckoutId, condition: Condition)
    requires CheckoutsFit(db)
    ensures NamesStock(db, ReturnableVerifyReturn(db, checkout, condition).db)
  {
  }

  lemma StepNamesStock(db: Db, c: Call)
    requires Possible(db, c) && CheckoutsFit(db)
    ensures NamesStock(db, Perform(db, c).db)
  {
    hide NamesStock, CheckoutsFit, BorrowableCheckout, RequestBorrowable, VerifyReturn, ReturnableIssue,
      ReturnableVerifyReturn;
    match c
    case AdminLends(p, eri, guest, scope, checkout) => LendNamesStock(db, p, eri, guest, scope, checkout);
    case GuestBorrows(guest, eri, p, checkout) => BorrowNamesStock(db, guest, eri, p, checkout);
    case LoanReturned(checkout) => LoanReturnNamesStock(db, checkout);
    case IssueItem(p, item, guest, eri, property, quantity, checkout) =>
      IssueNamesStock(db, p, item, guest, eri, property, quantity, checkout);
    case ItemReturned(checkout, condition) => IssueReturnNamesStock(db, checkout, condition);
    case _ => OtherCallsNameStock(db, c);
  }

  lemma OtherCallsNameStock(db: Db, c: Call)
    requires Possible(db, c) && CheckoutsFit(db)
    requires !(c.AdminLends? || c.GuestBorrows? || c.LoanReturned? || c.IssueItem? || c.ItemReturned?)
    ensures NamesStock(db, Perform(db, c).db)
  {
    hide Perform, Possible;
    Frame(db, c);
  }

  lemma StepKeepsCheckoutsFitting(db: Db, c: Call)
    requires Possible(db, c) && CheckoutsFit(db)
    ensures CheckoutsFit(Perform(db, c).db)
  {
    hide Perform, Possible;
    StepNamesStock(db, c);
    forall p | p in db.inventory
      ensures p in Perform(db, c).db.inventory
    {
      StepConserves(db, c, p);
    }
  }

  lemma StepKeepsFit(db: Db, c: Call)
    requires Possible(db, c) && Fits(db)
    ensures Fits(Perform(db, c).db)
  {
    hide Perform, Possible, Catalogued, OrdersFit, CheckoutsFit;
    StepKeepsCatalogue(db, c);
    StepExtends(db, c);
    StepWritesFittingOrders(db, c);
    OrdersStillFit(db, Perform(db, c).db);
    StepKeepsCheckoutsFitting(db, c);
  }

  // ---------------------------------------------------------------- payments and their reservations

  ghost predicate PaymentsFit(db: Db)
  {
    forall x | x in db.payments :: db.payments[x].eri in db.bookings
  }

  /** A payment after a call is for the reservation it was for, or for a known one. */
  ghost predicate WritesFittingPayments(db: Db, after: Db)
  {
    forall x | x in after.payments ::
      || (x in db.payments && after.payments[x].eri == db.payments[x].eri)
      || after.payments[x].eri in db.bookings
  }

  lemma CartPaymentFits(db: Db, guest: GuestId, eri: Eri, first: Option<OrderId>, newPayment: PaymentId)
    requires AnswersCart(db.orders, first, eri, guest)
    ensures var r := CreateOrder(db, guest, eri, first, newPayment); r.outcome.PaymentOpened? ==> eri in db.bookings
  {
    hide SomeLineShort, LinesTotal, FreezesOrders;
  }

  lemma CartCallPaymentFits(db: Db, c: Call)
    requires Possible(db, c) && c.PayCart?
    ensures WritesFittingPayments(db, Perform(db, c).db)
  {
    hide CreateOrder, AnswersCart;
    CartPaymentFits(db, c.guest, c.eri, c.first, c.newPayment);
  }

  lemma BookingPaymentFits(
    db: Db, guest: GuestId, eri: Eri, amount: int, order: Option<OrderId>, newPayment: PaymentId)
    ensures WritesFittingPayments(db, CreateBookingPayment(db, guest, eri, amount, order, newPayment).db)
  {
    hide FreezesOrders;
  }

  lemma BookingCallPaymentFits(db: Db, c: Call)
    requires Possible(db, c) && c.PayBooking?
    ensures WritesFittingPayments(db, Perform(db, c).db)
  {
    hide CreateBookingPayment, WritesFittingPayments, FreezesOrders;
    BookingPaymentFits(db, c.guest, c.eri, c.amount, c.order, c.newPayment);
  }

  lemma OtherPaymentsFit(db: Db, c: Call)
    requires Possible(db, c) && !c.PayCart? && !c.PayBooking?
    ensures WritesFittingPayments(db, Perform(db, c).db)
  {
    if c.PaymentFails? {
      FailedPaymentFits(db, c.x, c.first);
      hide Possible, HandlePaymentFailure, WritesFittingPayments;
    } else if c.PaymentCaptured? {
      hide FulfilOrder, AnswersFulfil, FreezesOrders, KeepsBorrowed;
    } else {
      Frame(db, c);
      hide Perform, Possible;
    }
  }

  lemma FailedPaymentFits(db: Db, x: PaymentId, first: Option<OrderId>)
    requires x in db.payments ==> AnswersPending(db.orders, first, db.payments[x].eri)
    ensures WritesFittingPayments(db, HandlePaymentFailure(db, x, first).db)
  {
    hide HandlePaymentFailure, AnswersPending, FreezesOrders, KeepsBorrowed, DropsOrUnlinks;
    if x in db.payments {
      FailureKeeps(db, x, first);
    } else {
      FailureUnknown(db, x, first);
    }
  }

  lemma StepKeepsPaymentsFit(db: Db, c: Call)
    requires Possible(db, c) && PaymentsFit(db)
    ensures PaymentsFit(Perform(db, c).db)
  {
    StepExtends(db, c);
    if c.PayCart? {
      CartCallPaymentFits(db, c);
    } else if c.PayBooking? {
      BookingCallPaymentFits(db, c);
    } else {
      OtherPaymentsFit(db, c);
    }
    hide Perform, Possible;
  }
}
