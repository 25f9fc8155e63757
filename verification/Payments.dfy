/** Captured payments stay captured, and paid carts stay linked to captured payments. */
module Payments {
  import opened Wrappers
  import opened RoomOrders
  import opened Tables
  import opened Operations
  import opened Runs
  import opened Coupling

  /** Payments are never deleted or rewritten except for their status, and capture is final. */
  ghost predicate KeepsPayments(before: map<PaymentId, Payment>, after: map<PaymentId, Payment>)
  {
    forall x | x in before ::
      && x in after
      && after[x] == before[x].(status := after[x].status)
      && (before[x].status == Captured ==> after[x].status == Captured)
  }

  lemma CreateOrderKeepsPayments(
    db: Db, guest: GuestId, eri: Eri, first: Option<OrderId>, newPayment: PaymentId)
    requires AnswersCart(db.orders, first, eri, guest) && newPayment !in db.payments
    ensures KeepsPayments(db.payments, CreateOrder(db, guest, eri, first, newPayment).db.payments)
  {
    hide CreateOrder;
  }

  lemma FailureKeepsPayments(db: Db, x: PaymentId, first: Option<OrderId>)
    requires x in db.payments ==> AnswersPending(db.orders, first, db.payments[x].eri)
    ensures KeepsPayments(db.payments, HandlePaymentFailure(db, x, first).db.payments)
  {
    hide HandlePaymentFailure, RollbackPendingBooking, Unlinked, AnswersPending, FreezesOrders, KeepsBorrowed,
      DropsOrUnlinks;
    if x !in db.payments {
      FailureUnknown(db, x, first);
    } else if FailsNow(db, x) {
      FailureKeeps(db, x, first);
    } else {
      FailureIsFinal(db, x, first);
    }
  }

  lemma FulfilKeepsPayments(db: Db, x: PaymentId, first: Option<OrderId>)
    requires x in db.payments ==> AnswersFulfil(db, x, first)
    ensures KeepsPayments(db.payments, FulfilOrder(db, x, first).db.payments)
  {
    hide FulfilBookingOrder, FulfilAddonOrder, AnswersFulfil;
  }

  lemma CreateBookingPaymentKeepsPayments(
    db: Db, guest: GuestId, eri: Eri, amount: int, order: Option<OrderId>, newPayment: PaymentId)
    requires newPayment !in db.payments
    ensures KeepsPayments(db.payments, CreateBookingPayment(db, guest, eri, amount, order, newPayment).db.payments)
  {
    hide CreateBookingPayment, FreezesOrders;
    BookingPaymentWrites(db, guest, eri, amount, order, newPayment);
  }

  lemma SamePayments(db: Db, c: Call)
    requires Possible(db, c) && !(c.PayCart? || c.PayBooking? || c.PaymentFails? || c.PaymentCaptured?)
    ensures KeepsPayments(db.payments, Perform(db, c).db.payments)
  {
    hide Perform, Possible;
    Frame(db, c);
  }

  lemma OpeningKeepsPayments(db: Db, c: Call)
    requires Possible(db, c) && (c.PayCart? || c.PayBooking?)
    ensures KeepsPayments(db.payments, Perform(db, c).db.payments)
  {
    hide KeepsPayments, CreateOrder, CreateBookingPayment, AnswersCart, FreezesOrders, OpensPayment;
    match c
    case PayCart(guest, eri, first, newPayment) => CreateOrderKeepsPayments(db, guest, eri, first, newPayment);
    case PayBooking(guest, eri, amount, order, newPayment) =>
      CreateBookingPaymentKeepsPayments(db, guest, eri, amount, order, newPayment);
  }

  lemma SettlingKeepsPayments(db: Db, c: Call)
    requires Possible(db, c) && (c.PaymentFails? || c.PaymentCaptured?)
    ensures KeepsPayments(db.payments, Perform(db, c).db.payments)
  {
    hide KeepsPayments, HandlePaymentFailure, FulfilOrder, AnswersPending, FreezesOrders, KeepsBorrowed, OnlyStatusOf;
    match c
    case PaymentFails(x, first) => FailureKeepsPayments(db, x, first);
    case PaymentCaptured(x, first) => FulfilKeepsPayments(db, x, first);
  }

  lemma CaptureKeepsPayments(db: Db, x: PaymentId, first: Option<OrderId>)
    requires x in db.payments && AnswersPending(db.orders, first, db.payments[x].eri)
    ensures KeepsPayments(db.payments, FulfilBookingOrder(db, x, first).db.payments)
  {
    hide FulfilBookingOrder, Moved;
    CaptureWrites(db, x, first);
  }

  /** Whatever the call, separated or not. */
  lemma StepKeepsPayments(db: Db, c: Call)
    requires Possible(db, c)
    ensures KeepsPayments(db.payments, Perform(db, c).db.payments)
  {
    hide KeepsPayments, Perform, Possible;
    if c.PayCart? || c.PayBooking? {
      OpeningKeepsPayments(db, c);
    } else if c.PaymentFails? || c.PaymentCaptured? {
      SettlingKeepsPayments(db, c);
    } else {
      SamePayments(db, c);
    }
  }

  /** Over any run a captured payment stays captured, for the same reservation and amount. */
  lemma {:induction false} CapturedIsFinal(db: Db, calls: seq<Call>, x: PaymentId)
    requires PossibleRun(db, calls) && x in db.payments && db.payments[x].status == Captured
    ensures x in After(db, calls).payments && After(db, calls).payments[x] == db.payments[x]
    decreases |calls|
  {
    hide Perform, Possible;
    if calls != [] {
      StepKeepsPayments(db, calls[0]);
      CapturedIsFinal(Perform(db, calls[0]).db, calls[1..], x);
    }
  }

  // ---------------------------------------------------------------- links of orders

  /** Every order after a call has its old link fields, or fits the new payments by itself. */
  ghost predicate WritesFittingLinks(db: Db, after: Db)
  {
    forall o | o in after.orders ::
      || (o in db.orders && after.orders[o] == db.orders[o].(lines := after.orders[o].lines))
      || LinkFits(after.orders[o], after.payments)
  }

  lemma StillLinked(db: Db, after: Db)
    requires Linked(db) && KeepsPayments(db.payments, after.payments) && WritesFittingLinks(db, after)
    ensures Linked(after)
  {
    forall o | o in after.orders
      ensures LinkFits(after.orders[o], after.payments)
    {
      if !LinkFits(after.orders[o], after.payments) {
        assert LinkFits(db.orders[o], db.payments);
      }
    }
  }

  lemma UnwrittenLinks(db: Db, after: Db)
    requires after.orders == db.orders
    ensures WritesFittingLinks(db, after)
  {
    hide LinkFits;
  }

  lemma OneOrderLinks(db: Db, after: Db, o: OrderId)
    requires o in after.orders && after.orders == db.orders[o := after.orders[o]]
    requires LinkFits(after.orders[o], after.payments)
    ensures WritesFittingLinks(db, after)
  {
    hide LinkFits;
  }

  lemma AddToCartLinks(
    db: Db, guest: GuestId, eri: Eri, p: ProductId, quantity: nat, unitCode: string, checkedIn: bool,
    first: Option<OrderId>, newOrder: OrderId, newLine: nat)
    requires AnswersCart(db.orders, first, eri, guest) && Linked(db)
    ensures WritesFittingLinks(
              db, AddToCart(db, guest, eri, p, quantity, unitCode, checkedIn, first, newOrder, newLine).db)
  {
    hide AddToCart, WritesFittingLinks, FreezesOrders;
    AdditionWrites(db, guest, eri, p, quantity, unitCode, checkedIn, first, newOrder, newLine);
    var after := AddToCart(db, guest, eri, p, quantity, unitCode, checkedIn, first, newOrder, newLine).db;
    if after.orders == db.orders {
      UnwrittenLinks(db, after);
    } else {
      assert first.Some? ==> LinkFits(db.orders[first.value], db.payments);
      OneOrderLinks(db, after, first.GetOr(newOrder));
    }
  }

  lemma ChangeItemLinks(db: Db, guest: GuestId, eri: Eri, item: ItemRef, quantity: nat)
    ensures WritesFittingLinks(db, UpdateCartItem(db, guest, eri, item, quantity).db)
  {
    hide UpdateCartItem, LinkFits, FreezesOrders;
    ChangeWrites(db, guest, eri, item, quantity);
  }

  lemma RemoveItemLinks(db: Db, guest: GuestId, eri: Eri, item: ItemRef)
    ensures WritesFittingLinks(db, RemoveCartItem(db, guest, eri, item).db)
  {
    hide RemoveCartItem, LinkFits, FreezesOrders;
    RemovalWrites(db, guest, eri, item);
  }

  lemma CreateBookingOrderLinks(
    db: Db, guest: GuestId, request: BookingRequest, offers: seq<RoomOffer>, eri: Eri, newOrder: OrderId)
    ensures WritesFittingLinks(db, CreateBookingOrder(db, guest, request, offers, eri, newOrder).db)
  {
    hide CreateBookingOrder, FreezesOrders, KeepsBorrowed;
    BookingWrites(db, guest, request, offers, eri, newOrder);
  }

  lemma FailureLinks(db: Db, x: PaymentId, first: Option<OrderId>)
    requires x in db.payments ==> AnswersPending(db.orders, first, db.payments[x].eri)
    ensures WritesFittingLinks(db, HandlePaymentFailure(db, x, first).db)
  {
    hide HandlePaymentFailure, AnswersPending, FreezesOrders, KeepsBorrowed, OnlyStatusOf;
    if x in db.payments {
      FailureKeeps(db, x, first);
    } else {
      FailureUnknown(db, x, first);
    }
  }

  lemma FulfilBookingLinks(db: Db, x: PaymentId, first: Option<OrderId>)
    requires x in db.payments && AnswersPending(db.orders, first, db.payments[x].eri) && Linked(db)
    requires first.Some? ==> OwnOrPaidBy(db, first.value, x)
    ensures WritesFittingLinks(db, FulfilBookingOrder(db, x, first).db)
  {
    hide FulfilBookingOrder, FreezesOrders, KeepsBorrowed, OnlyStatusOf;
    CaptureWrites(db, x, first);
    assert first.Some? ==> LinkFits(db.orders[first.value], db.payments);
  }

  lemma FulfilAddonsLinks(db: Db, x: PaymentId, first: Option<OrderId>)
    requires x in db.payments && AnswersPayment(db.orders, first, x) && Linked(db)
    ensures WritesFittingLinks(db, FulfilAddonOrder(db, x, first).db)
  {
    hide FulfilAddonOrder, Moved, WritesFittingLinks, AnswersPayment;
    AddonCaptureWrites(db, x, first);
    var r := FulfilAddonOrder(db, x, first);
    if r.outcome.Refused? {
      UnwrittenLinks(db, r.db);
    } else {
      LinkedOrder(db, x, first);
      OneOrderLinks(db, r.db, first.value);
    }
  }

  lemma LinkedOrder(db: Db, x: PaymentId, first: Option<OrderId>)
    requires AnswersPayment(db.orders, first, x) && Linked(db)
    ensures first.Some? ==>
              && first.value in db.orders && db.orders[first.value].payment == Some(x)
              && LinkFits(db.orders[first.value], db.payments)
  {
    hide LinkFits;
  }

  lemma SameLinks(db: Db, c: Call)
    requires Possible(db, c) && !WritesOrders(c)
    ensures WritesFittingLinks(db, Perform(db, c).db)
  {
    hide Perform, Possible;
    Frame(db, c);
  }

  // ---------------------------------------------------------------- exactly which calls keep the links

  ghost predicate PaidCart(db: Db, o: OrderId)
    requires o in db.orders
  {
    db.orders[o].phase != Booking && db.orders[o].status == Paid
  }

  /** A booking's own order, or one whose payment is captured once `x` is. */
  ghost predicate OwnOrPaidBy(db: Db, o: OrderId, x: PaymentId)
    requires o in db.orders
  {
    || db.orders[o].phase == Booking
    || db.orders[o].payment == Some(x)
    || (db.orders[o].payment.Some? && db.orders[o].payment.value in db.payments
        && db.payments[db.orders[o].payment.value].status == Captured)
  }

  /**
   * The call does not link a cart's payment to a booking's own order, nor a new booking payment to a paid
   * cart, and no booking's capture marks a cart paid that nobody has paid for.
   */
  ghost predicate LinksHarmlessly(db: Db, c: Call)
    requires Possible(db, c)
  {
    var outcome := Perform(db, c).outcome;
    match c
    case PayCart(_, _, first, _) => outcome.PaymentOpened? && first.Some? ==> db.orders[first.value].phase != Booking
    case PayBooking(_, _, _, order, _) =>
      outcome.PaymentOpened? && order.Some? && order.value in db.orders ==> !PaidCart(db, order.value)
    case PaymentCaptured(x, first) =>
      outcome == BookingConfirmed && first.Some? && first.value in db.orders ==> OwnOrPaidBy(db, first.value, x)
    case _ => true
  }

  lemma PayCartLinksExactly(db: Db, c: Call)
    requires Possible(db, c) && Linked(db) && c.PayCart?
    ensures Linked(Perform(db, c).db) <==> LinksHarmlessly(db, c)
  {
    hide CreateOrder, KeepsPayments, Linked, FreezesOrders;
    var r := Perform(db, c);
    StepKeepsPayments(db, c);
    if LinksHarmlessly(db, c) {
      PayCartLinks(db, c);
      StillLinked(db, r.db);
    } else {
      assert !LinkFits(r.db.orders[c.first.value], r.db.payments);
      NotLinked(r.db, c.first.value);
    }
  }

  lemma PayCartLinks(db: Db, c: Call)
    requires Possible(db, c) && c.PayCart? && LinksHarmlessly(db, c)
    ensures WritesFittingLinks(db, Perform(db, c).db)
  {
    hide CreateOrder, FreezesOrders;
  }

  lemma BookingPaymentLinksExactly(
    db: Db, guest: GuestId, eri: Eri, amount: int, order: Option<OrderId>, newPayment: PaymentId)
    requires Linked(db) && newPayment !in db.payments
    ensures var r := CreateBookingPayment(db, guest, eri, amount, order, newPayment);
            Linked(r.db) <==>
            (r.outcome.PaymentOpened? && order.Some? && order.value in db.orders ==> !PaidCart(db, order.value))
  {
    hide KeepsPayments, Linked, WritesFittingLinks, CreateBookingPayment, FreezesOrders;
    var r := CreateBookingPayment(db, guest, eri, amount, order, newPayment);
    BookingPaymentWrites(db, guest, eri, amount, order, newPayment);
    CreateBookingPaymentKeepsPayments(db, guest, eri, amount, order, newPayment);
    if !r.outcome.PaymentOpened? || order.None? {
      UnwrittenLinks(db, r.db);
      StillLinked(db, r.db);
    } else if PaidCart(db, order.value) {
      assert !LinkFits(r.db.orders[order.value], r.db.payments);
      NotLinked(r.db, order.value);
    } else {
      OneOrderLinks(db, r.db, order.value);
      StillLinked(db, r.db);
    }
  }

  lemma PayBookingLinksExactly(db: Db, c: Call)
    requires Possible(db, c) && Linked(db) && c.PayBooking?
    ensures Linked(Perform(db, c).db) <==> LinksHarmlessly(db, c)
  {
    hide CreateBookingPayment, Linked, FreezesOrders;
    BookingPaymentLinksExactly(db, c.guest, c.eri, c.amount, c.order, c.newPayment);
  }

  lemma NotLinked(db: Db, o: OrderId)
    requires o in db.orders && !LinkFits(db.orders[o], db.payments)
    ensures !Linked(db)
  {
  }

  lemma CaptureLinksExactly(db: Db, c: Call)
    requires Possible(db, c) && Linked(db) && c.PaymentCaptured?
    ensures Linked(Perform(db, c).db) <==> LinksHarmlessly(db, c)
  {
    hide KeepsPayments, Linked, FulfilBookingOrder, FulfilAddonOrder, WritesFittingLinks;
    var r := Perform(db, c);
    StepKeepsPayments(db, c);
    if c.x in db.payments && db.payments[c.x].status != Captured {
      if db.payments[c.x].purpose == ForAddons {
        FulfilAddonsLinks(db, c.x, c.first);
        NoBookingConfirmed(db, c.x, c.first);
        StillLinked(db, r.db);
      } else {
        BookingCaptureLinksExactly(db, c.x, c.first);
      }
    }
  }

  lemma NoBookingConfirmed(db: Db, x: PaymentId, first: Option<OrderId>)
    requires x in db.payments && AnswersPayment(db.orders, first, x)
    ensures FulfilAddonOrder(db, x, first).outcome != BookingConfirmed
  {
    hide FulfilAddonOrder, Moved;
    AddonCaptureWrites(db, x, first);
  }

  lemma BookingCaptureLinksExactly(db: Db, x: PaymentId, first: Option<OrderId>)
    requires x in db.payments && AnswersPending(db.orders, first, db.payments[x].eri) && Linked(db)
    requires KeepsPayments(db.payments, FulfilBookingOrder(db, x, first).db.payments)
    ensures first.Some? ==> first.value in db.orders
    ensures var r := FulfilBookingOrder(db, x, first);
            Linked(r.db) <==> (r.outcome == BookingConfirmed && first.Some? ==> OwnOrPaidBy(db, first.value, x))
  {
    hide FulfilBookingOrder, Moved, KeepsPayments, Linked, WritesFittingLinks, AnswersPending;
    FoundExists(db.orders, first, db.payments[x].eri);
    CaptureWrites(db, x, first);
    var r := FulfilBookingOrder(db, x, first);
    if r.outcome == BookingConfirmed && first.Some? && !OwnOrPaidBy(db, first.value, x) {
      assert !LinkFits(r.db.orders[first.value], r.db.payments);
      NotLinked(r.db, first.value);
    } else if r.outcome == BookingConfirmed {
      FulfilBookingLinks(db, x, first);
      StillLinked(db, r.db);
    } else {
      UnwrittenLinks(db, r.db);
      StillLinked(db, r.db);
    }
  }

  lemma CartCallLinks(db: Db, c: Call)
    requires Possible(db, c) && Linked(db) && (c.AddItem? || c.ChangeItem? || c.RemoveItem?)
    ensures WritesFittingLinks(db, Perform(db, c).db)
  {
    hide Linked, WritesFittingLinks, AddToCart, UpdateCartItem, RemoveCartItem, AnswersCart, FreezesOrders;
    match c
    case AddItem(guest, eri, p, quantity, unitCode, checkedIn, first, newOrder, newLine) =>
      AddToCartLinks(db, guest, eri, p, quantity, unitCode, checkedIn, first, newOrder, newLine);
    case ChangeItem(guest, eri, item, quantity) => ChangeItemLinks(db, guest, eri, item, quantity);
    case RemoveItem(guest, eri, item) => RemoveItemLinks(db, guest, eri, item);
  }

  lemma BookingCallLinks(db: Db, c: Call)
    requires Possible(db, c) && (c.Book? || c.PaymentFails?)
    ensures WritesFittingLinks(db, Perform(db, c).db)
  {
    hide WritesFittingLinks, CreateBookingOrder, HandlePaymentFailure, AnswersPending, FreezesOrders, KeepsBorrowed;
    match c
    case Book(guest, request, offers, eri, newOrder) =>
      CreateBookingOrderLinks(db, guest, request, offers, eri, newOrder);
    case PaymentFails(x, first) => FailureLinks(db, x, first);
  }

  lemma OtherCallsKeepLinks(db: Db, c: Call)
    requires Possible(db, c) && Linked(db) && !c.PayCart? && !c.PayBooking? && !c.PaymentCaptured?
    ensures Linked(Perform(db, c).db)
  {
    hide Linked, WritesFittingLinks, KeepsPayments, Perform, Possible;
    StepKeepsPayments(db, c);
    if c.AddItem? || c.ChangeItem? || c.RemoveItem? {
      CartCallLinks(db, c);
    } else if WritesOrders(c) {
      BookingCallLinks(db, c);
    } else {
      SameLinks(db, c);
    }
    StillLinked(db, Perform(db, c).db);
  }

  /** A call keeps paid carts linked to captured payments if and only if it is harmless to the links. */
  lemma StepKeepsLinksExactly(db: Db, c: Call)
    requires Possible(db, c) && Linked(db)
    ensures Linked(Perform(db, c).db) <==> LinksHarmlessly(db, c)
  {
    hide Linked, Perform, Possible;
    match c
    case PayCart(_, _, _, _) => PayCartLinksExactly(db, c);
    case PayBooking(_, _, _, _, _) => PayBookingLinksExactly(db, c);
    case PaymentCaptured(_, _) => CaptureLinksExactly(db, c);
    case _ => OtherCallsKeepLinks(db, c);
  }

  lemma StepKeepsLinks(db: Db, c: Call)
    requires Possible(db, c) && Separated(db, c) && Linked(db)
    ensures Linked(Perform(db, c).db)
  {
    SeparatedLinksHarmlessly(db, c);
    hide Linked, Perform, Possible, Separated, LinksHarmlessly;
    StepKeepsLinksExactly(db, c);
  }

  lemma SeparatedLinksHarmlessly(db: Db, c: Call)
    requires Possible(db, c) && Separated(db, c)
    ensures LinksHarmlessly(db, c)
  {
    hide CreateOrder, CreateBookingPayment, FulfilBookingOrder;
    if c.PaymentCaptured? && c.x in db.payments && db.payments[c.x].purpose == ForAddons {
      NoBookingConfirmed(db, c.x, c.first);
    }
  }

  // ---------------------------------------------------------------- known links, whatever the calls

  /** Orders are linked to payments that exist, and to addon payments of their own reservation. */
  ghost predicate LinkKnown(order: Order, payments: map<PaymentId, Payment>)
  {
    order.payment.Some? ==>
      && order.payment.value in payments
      && (payments[order.payment.value].purpose == ForAddons ==> order.eri == payments[order.payment.value].eri)
  }

  ghost predicate LinksKnown(db: Db)
  {
    forall o | o in db.orders :: LinkKnown(db.orders[o], db.payments)
  }

  /** Every order after a call has its old link and reservation, or is linked to a known payment by itself. */
  ghost predicate WritesKnownLinks(db: Db, after: Db)
  {
    forall o | o in after.orders ::
      || (o in db.orders && after.orders[o].payment == db.orders[o].payment && after.orders[o].eri == db.orders[o].eri)
      || LinkKnown(after.orders[o], after.payments)
  }

  lemma StillKnown(db: Db, after: Db)
    requires LinksKnown(db) && KeepsPayments(db.payments, after.payments) && WritesKnownLinks(db, after)
    ensures LinksKnown(after)
  {
    forall o | o in after.orders
      ensures LinkKnown(after.orders[o], after.payments)
    {
      if !LinkKnown(after.orders[o], after.payments) {
        assert LinkKnown(db.orders[o], db.payments);
      }
    }
  }

  lemma FittingIsKnown(db: Db, after: Db)
    requires WritesFittingLinks(db, after)
    ensures WritesKnownLinks(db, after)
  {
  }

  lemma AddToCartKnown(
    db: Db, guest: GuestId, eri: Eri, p: ProductId, quantity: nat, unitCode: string, checkedIn: bool,
    first: Option<OrderId>, newOrder: OrderId, newLine: nat)
    requires AnswersCart(db.orders, first, eri, guest)
    ensures WritesKnownLinks(
              db, AddToCart(db, guest, eri, p, quantity, unitCode, checkedIn, first, newOrder, newLine).db)
  {
    hide AddToCart, FreezesOrders;
    AdditionWrites(db, guest, eri, p, quantity, unitCode, checkedIn, first, newOrder, newLine);
  }

  lemma CartCallKnown(db: Db, c: Call)
    requires Possible(db, c) && (c.AddItem? || c.ChangeItem? || c.RemoveItem?)
    ensures WritesKnownLinks(db, Perform(db, c).db)
  {
    hide WritesFittingLinks, WritesKnownLinks, AddToCart, UpdateCartItem, RemoveCartItem, AnswersCart, FreezesOrders;
    match c
    case AddItem(guest, eri, p, quantity, unitCode, checkedIn, first, newOrder, newLine) =>
      AddToCartKnown(db, guest, eri, p, quantity, unitCode, checkedIn, first, newOrder, newLine);
    case ChangeItem(guest, eri, item, quantity) =>
      ChangeItemLinks(db, guest, eri, item, quantity);
      FittingIsKnown(db, UpdateCartItem(db, guest, eri, item, quantity).db);
    case RemoveItem(guest, eri, item) =>
      RemoveItemLinks(db, guest, eri, item);
      FittingIsKnown(db, RemoveCartItem(db, guest, eri, item).db);
  }

  lemma PayCartKnown(db: Db, c: Call)
    requires Possible(db, c) && c.PayCart?
    ensures WritesKnownLinks(db, Perform(db, c).db)
  {
    hide CreateOrder, FreezesOrders;
  }

  lemma PayBookingKnown(db: Db, c: Call)
    requires Possible(db, c) && c.PayBooking?
    ensures WritesKnownLinks(db, Perform(db, c).db)
  {
    hide FreezesOrders, CreateBookingPayment;
    BookingPaymentKnown(db, c.guest, c.eri, c.amount, c.order, c.newPayment);
  }

  lemma BookingPaymentKnown(
    db: Db, guest: GuestId, eri: Eri, amount: int, order: Option<OrderId>, newPayment: PaymentId)
    ensures WritesKnownLinks(db, CreateBookingPayment(db, guest, eri, amount, order, newPayment).db)
  {
    hide CreateBookingPayment, FreezesOrders;
    BookingPaymentWrites(db, guest, eri, amount, order, newPayment);
  }

  lemma BookingCaptureKnown(db: Db, x: PaymentId, first: Option<OrderId>)
    requires x in db.payments && AnswersPending(db.orders, first, db.payments[x].eri)
    ensures WritesKnownLinks(db, FulfilBookingOrder(db, x, first).db)
  {
    hide FulfilBookingOrder, FreezesOrders, KeepsBorrowed, OnlyStatusOf, LinkKnown;
    CaptureWrites(db, x, first);
  }

  lemma AddonCaptureKnown(db: Db, x: PaymentId, first: Option<OrderId>)
    requires x in db.payments && AnswersPayment(db.orders, first, x)
    ensures WritesKnownLinks(db, FulfilAddonOrder(db, x, first).db)
  {
    hide FulfilAddonOrder, Moved, LinkKnown;
    AddonCaptureWrites(db, x, first);
  }

  lemma CaptureKnown(db: Db, c: Call)
    requires Possible(db, c) && c.PaymentCaptured?
    ensures WritesKnownLinks(db, Perform(db, c).db)
  {
    hide FulfilBookingOrder, FulfilAddonOrder, WritesKnownLinks;
    if c.x in db.payments && db.payments[c.x].status != Captured {
      if db.payments[c.x].purpose == ForBooking {
        BookingCaptureKnown(db, c.x, c.first);
      } else {
        AddonCaptureKnown(db, c.x, c.first);
      }
    } else {
      UnwrittenLinks(db, Perform(db, c).db);
      FittingIsKnown(db, Perform(db, c).db);
    }
  }

  lemma OtherCallsKnown(db: Db, c: Call)
    requires Possible(db, c) && !c.PayCart? && !c.PayBooking? && !c.PaymentCaptured?
    ensures WritesKnownLinks(db, Perform(db, c).db)
  {
    hide WritesFittingLinks, WritesKnownLinks, Perform, Possible;
    if c.AddItem? || c.ChangeItem? || c.RemoveItem? {
      CartCallKnown(db, c);
    } else {
      if WritesOrders(c) {
        BookingCallLinks(db, c);
      } else {
        SameLinks(db, c);
      }
      FittingIsKnown(db, Perform(db, c).db);
    }
  }

  /** Whatever the call, separated or not. */
  lemma StepKeepsLinksKnown(db: Db, c: Call)
    requires Possible(db, c) && LinksKnown(db)
    ensures LinksKnown(Perform(db, c).db)
  {
    StepKeepsPayments(db, c);
    hide LinksKnown, WritesKnownLinks, KeepsPayments, Perform, Possible;
    match c {
      case PayCart(_, _, _, _) => PayCartKnown(db, c);
      case PayBooking(_, _, _, _, _) => PayBookingKnown(db, c);
      case PaymentCaptured(_, _) => CaptureKnown(db, c);
      case _ => OtherCallsKnown(db, c);
    }
    StillKnown(db, Perform(db, c).db);
  }
}
