/** Sequences of service calls in any order, with any arguments and any answers of the database. */
module Runs {
  import opened Wrappers
  import opened RoomOrders
  import opened Tables
  import opened Operations

  datatype Call =
    | NewProduct(id: ProductId, property: PropertyId, category: Category, price: nat, stock: nat)
    | EditProduct(id: ProductId, newPrice: Option<nat>, active: Option<bool>)
    | AddStock(p: ProductId, quantity: nat, scope: Option<PropertyId>)
    | Damage(p: ProductId, quantity: nat, scope: Option<PropertyId>)
    | AdminLends(p: ProductId, eri: Eri, guest: GuestId, scope: Option<PropertyId>, checkout: CheckoutId)
    | GuestBorrows(guest: GuestId, eri: Eri, p: ProductId, checkout: CheckoutId)
    | LoanReturned(checkout: CheckoutId)
    | IssueItem(p: ProductId, item: ItemRef, guest: GuestId, eri: Eri, property: PropertyId, quantity: nat,
                checkout: CheckoutId)
    | ItemReturned(checkout: CheckoutId, condition: Condition)
    | AddItem(guest: GuestId, eri: Eri, p: ProductId, quantity: nat, unitCode: string, checkedIn: bool,
              first: Option<OrderId>, newOrder: OrderId, newLine: nat)
    | ChangeItem(guest: GuestId, eri: Eri, item: ItemRef, quantity: nat)
    | RemoveItem(guest: GuestId, eri: Eri, item: ItemRef)
    | Book(guest: GuestId, request: BookingRequest, offers: seq<RoomOffer>, eri: Eri, newOrder: OrderId)
    | Link(guest: GuestId, eri: Eri)
    | Submit(guest: GuestId, eri: Eri, slot: nat, consent: bool, born: Date, today: Date)
    | NewSlot(guest: GuestId, eri: Eri)
    | DropSlot(guest: GuestId, eri: Eri, slot: nat)
    | PayCart(guest: GuestId, eri: Eri, first: Option<OrderId>, newPayment: PaymentId)
    | PayBooking(guest: GuestId, eri: Eri, amount: int, order: Option<OrderId>, newPayment: PaymentId)
    | PaymentFails(x: PaymentId, first: Option<OrderId>)
    | PaymentCaptured(x: PaymentId, first: Option<OrderId>)

  ghost predicate NewEri(db: Db, eri: Eri)
  {
    && "TDS-" <= eri
    && eri !in db.bookings && eri !in db.slots
    && (forall a | a in db.access :: a.0 != eri)
    && (forall s | s in db.submissions :: s.eri != eri)
    && (forall o | o in db.orders :: db.orders[o].eri != eri)
    && (forall x | x in db.payments :: db.payments[x].eri != eri)
  }

  ghost predicate NewPayment(db: Db, x: PaymentId)
  {
    x !in db.payments && forall o | o in db.orders :: db.orders[o].payment != Some(x)
  }

  /** Generated identifiers occur nowhere yet, and `first` is an answer the database may give. */
  ghost predicate Possible(db: Db, c: Call)
  {
    match c
    case NewProduct(id, _, _, _, _) => id !in db.catalog && id !in db.inventory
    case AdminLends(_, _, _, _, checkout) => checkout !in db.loans
    case GuestBorrows(_, _, _, checkout) => checkout !in db.loans
    case IssueItem(_, _, _, _, _, _, checkout) => checkout !in db.issues
    case AddItem(guest, eri, _, _, _, _, first, newOrder, newLine) =>
      && AnswersCart(db.orders, first, eri, guest)
      && newOrder !in db.orders
      && (first.Some? ==> forall i | 0 <= i < |db.orders[first.value].lines| ::
            db.orders[first.value].lines[i].id != newLine)
    case Book(_, _, _, eri, newOrder) => NewEri(db, eri) && newOrder !in db.orders
    case PayCart(guest, eri, first, newPayment) =>
      AnswersCart(db.orders, first, eri, guest) && NewPayment(db, newPayment)
    case PayBooking(_, _, _, _, newPayment) => NewPayment(db, newPayment)
    case PaymentFails(x, first) => x in db.payments ==> AnswersPending(db.orders, first, db.payments[x].eri)
    case PaymentCaptured(x, first) => x in db.payments ==> AnswersFulfil(db, x, first)
    case _ => true
  }

  ghost function Perform(db: Db, c: Call): Reply
    requires Possible(db, c)
  {
    match c
    case NewProduct(id, property, category, price, stock) => CreateProduct(db, id, property, category, price, stock)
    case EditProduct(id, price, active) => UpdateProduct(db, id, price, active)
    case AddStock(p, quantity, scope) => Restock(db, p, quantity, scope)
    case Damage(p, quantity, scope) => MarkDamaged(db, p, quantity, scope)
    case AdminLends(p, eri, guest, scope, checkout) => BorrowableCheckout(db, p, eri, guest, scope, checkout)
    case GuestBorrows(guest, eri, p, checkout) => RequestBorrowable(db, guest, eri, p, checkout)
    case LoanReturned(checkout) => VerifyReturn(db, checkout)
    case IssueItem(p, item, guest, eri, property, quantity, checkout) =>
      ReturnableIssue(db, p, item, guest, eri, property, quantity, checkout)
    case ItemReturned(checkout, condition) => ReturnableVerifyReturn(db, checkout, condition)
    case AddItem(guest, eri, p, quantity, unitCode, checkedIn, first, newOrder, newLine) =>
      AddToCart(db, guest, eri, p, quantity, unitCode, checkedIn, first, newOrder, newLine)
    case ChangeItem(guest, eri, item, quantity) => UpdateCartItem(db, guest, eri, item, quantity)
    case RemoveItem(guest, eri, item) => RemoveCartItem(db, guest, eri, item)
    case Book(guest, request, offers, eri, newOrder) => CreateBookingOrder(db, guest, request, offers, eri, newOrder)
    case Link(guest, eri) => LinkBooking(db, guest, eri)
    case Submit(guest, eri, slot, consent, born, today) => SubmitKyc(db, guest, eri, slot, consent, born, today)
    case NewSlot(guest, eri) => AddSlot(db, guest, eri)
    case DropSlot(guest, eri, slot) => DeleteSlot(db, guest, eri, slot)
    case PayCart(guest, eri, first, newPayment) => CreateOrder(db, guest, eri, first, newPayment)
    case PayBooking(guest, eri, amount, order, newPayment) =>
      CreateBookingPayment(db, guest, eri, amount, order, newPayment)
    case PaymentFails(x, first) => HandlePaymentFailure(db, x, first)
    case PaymentCaptured(x, first) => FulfilOrder(db, x, first)
  }

  /** The tables each call may write. */
  lemma Frame(db: Db, c: Call)
    requires Possible(db, c)
    ensures var r := Perform(db, c);
            && r.db.guests == db.guests
            && (r.db.catalog == db.catalog || c.NewProduct? || c.EditProduct?)
            && (r.db.bookings == db.bookings || c.Book? || c.PaymentFails? || c.PaymentCaptured?)
            && (r.db.access == db.access || c.Book? || c.Link? || c.PaymentFails?)
            && (r.db.slots == db.slots || c.Book? || c.Link? || c.NewSlot? || c.DropSlot? || c.PaymentFails?)
            && (r.db.submissions == db.submissions || c.Submit? || c.DropSlot?)
            && (r.db.orders == db.orders || WritesOrders(c))
            && (r.db.payments == db.payments
                || c.PayCart? || c.PayBooking? || c.PaymentFails? || c.PaymentCaptured?)
            && (r.db.loans == db.loans || c.AdminLends? || c.GuestBorrows? || c.LoanReturned?)
            && (r.db.issues == db.issues || c.IssueItem? || c.ItemReturned?)
            && (LeavesStock(c) ==> r.db.inventory == db.inventory)
  {
    hide CreateProduct, UpdateProduct, Restock, MarkDamaged, BorrowableCheckout, RequestBorrowable, VerifyReturn,
      ReturnableIssue, ReturnableVerifyReturn, AddToCart, UpdateCartItem, RemoveCartItem, CreateBookingOrder,
      LinkBooking, SubmitKyc, AddSlot, DeleteSlot, CreateOrder, CreateBookingPayment, HandlePaymentFailure,
      FulfilOrder;
  }

  predicate WritesOrders(c: Call)
  {
    || c.AddItem? || c.ChangeItem? || c.RemoveItem? || c.Book?
    || c.PayCart? || c.PayBooking? || c.PaymentFails? || c.PaymentCaptured?
  }

  /** The calls on products' details, carts, links, slots and new payments. */
  predicate LeavesStock(c: Call)
  {
    || c.EditProduct? || c.AddItem? || c.ChangeItem? || c.RemoveItem? || c.Link? || c.PayCart? || c.PayBooking?
    || c.Submit? || c.NewSlot? || c.DropSlot?
  }

  ghost predicate PossibleRun(db: Db, calls: seq<Call>)
    decreases |calls|
  {
    calls == [] || (Possible(db, calls[0]) && PossibleRun(Perform(db, calls[0]).db, calls[1..]))
  }

  ghost function After(db: Db, calls: seq<Call>): Db
    requires PossibleRun(db, calls)
    decreases |calls|
  {
    if calls == [] then db else After(Perform(db, calls[0]).db, calls[1..])
  }

  /** The tables before the first call. */
  ghost function Empty(properties: set<PropertyId>, guests: set<GuestId>): Db
  {
    Db(properties, guests, map[], map[], map[], {}, map[], map[], map[], map[], map[], map[])
  }

  /** A call before a run. */
  lemma RunAfterCall(db: Db, c: Call, next: Db, rest: seq<Call>)
    requires Possible(db, c) && Perform(db, c).db == next && PossibleRun(next, rest)
    ensures PossibleRun(db, [c] + rest) && After(db, [c] + rest) == After(next, rest)
  {
    assert ([c] + rest)[1..] == rest;
  }

  /** Calls through a sequence of states. */
  lemma {:induction false} RunThrough(states: seq<Db>, calls: seq<Call>, k: nat)
    requires |states| == |calls| + 1 && k <= |calls|
    requires forall i | 0 <= i < |calls| ::
               Possible(states[i], calls[i]) && Perform(states[i], calls[i]).db == states[i + 1]
    ensures PossibleRun(states[k], calls[k..]) && After(states[k], calls[k..]) == states[|calls|]
    decreases |calls| - k
  {
    hide Perform, Possible;
    if k == |calls| {
      assert calls[k..] == [];
    } else {
      RunThrough(states, calls, k + 1);
      RunAfterCall(states[k], calls[k], states[k + 1], calls[k + 1..]);
      assert [calls[k]] + calls[k + 1..] == calls[k..];
    }
  }

  /** A run after a run. */
  lemma {:induction false} RunAfterRun(db: Db, calls: seq<Call>, more: seq<Call>)
    requires PossibleRun(db, calls) && PossibleRun(After(db, calls), more)
    ensures PossibleRun(db, calls + more) && After(db, calls + more) == After(After(db, calls), more)
    decreases |calls|
  {
    hide Perform, Possible;
    if calls == [] {
      assert calls + more == more;
    } else {
      RunAfterRun(Perform(db, calls[0]).db, calls[1..], more);
      RunAfterCall(db, calls[0], Perform(db, calls[0]).db, calls[1..] + more);
      assert [calls[0]] + (calls[1..] + more) == calls + more;
    }
  }
}
