/** Paid returnable items: never more is issued against an order item than was ordered. */
module Entitlement {
  import opened Wrappers
  import opened Sums
  import opened Tables
  import opened Operations
  import opened Runs

  /** What an order item entitles to: nothing while its order is open or the item does not exist. */
  ghost function Ordered(orders: map<OrderId, Order>, item: ItemRef): nat
  {
    if item.order in orders && orders[item.order].status != Pending then
      var lines := orders[item.order].lines;
      var i := LineIndex(lines, item.line);
      if i < |lines| then lines[i].quantity else 0
    else 0
  }

  ghost predicate NeverOverIssued(db: Db)
  {
    forall item :: IssuedUnits(db.issues, item) <= Ordered(db.orders, item)
  }

  lemma FrozenOrdersKeepEntitlement(before: map<OrderId, Order>, after: map<OrderId, Order>, item: ItemRef)
    requires FreezesOrders(before, after)
    ensures Ordered(before, item) <= Ordered(after, item)
  {
  }

  lemma FailureFreezes(db: Db, x: PaymentId, first: Option<OrderId>)
    requires x in db.payments ==> AnswersPending(db.orders, first, db.payments[x].eri)
    ensures FreezesOrders(db.orders, HandlePaymentFailure(db, x, first).db.orders)
  {
    hide HandlePaymentFailure, AnswersPending, FreezesOrders, KeepsBorrowed, DropsOrUnlinks, OnlyStatusOf;
    if x in db.payments {
      FailureKeeps(db, x, first);
    } else {
      FailureUnknown(db, x, first);
      NothingChanges(db.orders, db.inventory);
    }
  }

  lemma PaymentCallFreezes(db: Db, c: Call)
    requires Possible(db, c) && (c.PayCart? || c.PayBooking? || c.PaymentFails? || c.PaymentCaptured?)
    ensures FreezesOrders(db.orders, Perform(db, c).db.orders)
  {
    hide FreezesOrders, CreateOrder, CreateBookingPayment, HandlePaymentFailure, FulfilOrder, AnswersPending,
      KeepsBorrowed, OnlyStatusOf, OpensPayment;
    match c
    case PayCart(guest, eri, first, newPayment) => CreateOrderFreezes(db, guest, eri, first, newPayment);
    case PaymentFails(x, first) => FailureFreezes(db, x, first);
    case _ =>
  }

  lemma CartCallFreezes(db: Db, c: Call)
    requires Possible(db, c) && (c.AddItem? || c.ChangeItem? || c.RemoveItem? || c.Book?)
    ensures FreezesOrders(db.orders, Perform(db, c).db.orders)
  {
    hide FreezesOrders, AddToCart, UpdateCartItem, RemoveCartItem, CreateBookingOrder, KeepsBorrowed;
  }

  /** No call reopens an order or changes the lines of one that is no longer open. */
  lemma StepFreezesOrders(db: Db, c: Call)
    requires Possible(db, c)
    ensures FreezesOrders(db.orders, Perform(db, c).db.orders)
  {
    hide FreezesOrders, Perform, Possible;
    if c.AddItem? || c.ChangeItem? || c.RemoveItem? || c.Book? {
      CartCallFreezes(db, c);
    } else if WritesOrders(c) {
      PaymentCallFreezes(db, c);
    } else {
      Frame(db, c);
      NothingChanges(db.orders, db.inventory);
    }
  }

  lemma IssueCounts(
    db: Db, p: ProductId, item: ItemRef, guest: GuestId, eri: Eri, property: PropertyId, quantity: nat,
    checkout: CheckoutId, other: ItemRef)
    requires checkout !in db.issues
    ensures var r := ReturnableIssue(db, p, item, guest, eri, property, quantity, checkout);
            && IssuedUnits(r.db.issues, other)
               == IssuedUnits(db.issues, other) + (if r.outcome == Done && other == item then quantity else 0)
            && (r.outcome == Done ==> IssuedUnits(db.issues, item) + quantity <= Ordered(db.orders, item))
  {
    SumPut(db.issues, IssuedWeight(other), checkout, Issue(p, item, eri, guest, quantity, Issued));
  }

  lemma ReturnCountsNothing(db: Db, checkout: CheckoutId, condition: Condition, item: ItemRef)
    ensures IssuedUnits(ReturnableVerifyReturn(db, checkout, condition).db.issues, item)
            == IssuedUnits(db.issues, item)
  {
    var after := ReturnableVerifyReturn(db, checkout, condition).db;
    if after != db {
      SumPut(db.issues, IssuedWeight(item), checkout, after.issues[checkout]);
    }
  }

  /** Issued units only grow: a return never restores entitlement. */
  lemma StepIssues(db: Db, c: Call, item: ItemRef)
    requires Possible(db, c)
    ensures IssuedUnits(db.issues, item) <= IssuedUnits(Perform(db, c).db.issues, item)
    ensures IssuedUnits(db.issues, item) < IssuedUnits(Perform(db, c).db.issues, item) ==>
              IssuedUnits(Perform(db, c).db.issues, item) <= Ordered(db.orders, item)
  {
    if c.IssueItem? {
      hide IssuedUnits, Ordered, ReturnableIssue, KeepsReserved;
      IssueCounts(db, c.p, c.item, c.guest, c.eri, c.property, c.quantity, c.checkout, item);
    } else if c.ItemReturned? {
      hide IssuedUnits, Ordered, ReturnableVerifyReturn, KeepsReserved;
      ReturnCountsNothing(db, c.checkout, c.condition, item);
    } else {
      hide IssuedUnits, Ordered, Perform, Possible;
      Frame(db, c);
    }
  }

  /**
   * Over any run from empty tables: the units ever issued against an order item never exceed what it
   * entitles to, whatever was returned, damaged or lost in between.
   */
  lemma {:induction false} RunNeverOverIssues(db: Db, calls: seq<Call>, item: ItemRef)
    requires PossibleRun(db, calls)
    requires IssuedUnits(db.issues, item) <= Ordered(db.orders, item)
    ensures IssuedUnits(After(db, calls).issues, item) <= Ordered(After(db, calls).orders, item)
    ensures IssuedUnits(db.issues, item) <= IssuedUnits(After(db, calls).issues, item)
    decreases |calls|
  {
    hide Perform, Possible, Ordered, IssuedUnits;
    if calls != [] {
      StepIssues(db, calls[0], item);
      StepFreezesOrders(db, calls[0]);
      FrozenOrdersKeepEntitlement(db.orders, Perform(db, calls[0]).db.orders, item);
      RunNeverOverIssues(Perform(db, calls[0]).db, calls[1..], item);
    }
  }

  lemma EntitlementsHold(properties: set<PropertyId>, guests: set<GuestId>, calls: seq<Call>)
    requires PossibleRun(Empty(properties, guests), calls)
    ensures NeverOverIssued(After(Empty(properties, guests), calls))
  {
    forall item: ItemRef
      ensures IssuedUnits(After(Empty(properties, guests), calls).issues, item)
              <= Ordered(After(Empty(properties, guests), calls).orders, item)
    {
      RunNeverOverIssues(Empty(properties, guests), calls, item);
    }
  }

  // ---------------------------------------------------------------- the list shown at check-in

  datatype EntitlementRow = EntitlementRow(item: ItemRef, product: ProductId, ordered: nat, issued: int, pending: int)

  ghost predicate Entitles(db: Db, eri: Eri, o: OrderId, i: nat)
  {
    && o in db.orders && db.orders[o].eri == eri && db.orders[o].status == Paid
    && i < |db.orders[o].lines|
    && db.orders[o].lines[i].product in db.catalog
    && db.catalog[db.orders[o].lines[i].product].category == Returnable
  }

  ghost function EntitlementOf(db: Db, o: OrderId, i: nat): EntitlementRow
    requires o in db.orders && i < |db.orders[o].lines|
  {
    var line := db.orders[o].lines[i];
    var item := ItemRef(o, line.id);
    var issued := IssuedUnits(db.issues, item);
    EntitlementRow(item, line.product, line.quantity, issued, line.quantity - issued)
  }

  /** The returnable items of a reservation's paid orders, with what was issued and what is pending. */
  ghost function GetReturnableEntitlements(db: Db, eri: Eri): set<EntitlementRow>
  {
    set o, i | o in db.orders && 0 <= i < |db.orders[o].lines| && Entitles(db, eri, o, i) :: EntitlementOf(db, o, i)
  }

  /** With distinct item ids the first line of an id is the only one. */
  lemma LineOfItsId(lines: seq<Line>, i: nat)
    requires i < |lines| && forall j, k | 0 <= j < k < |lines| :: lines[j].id != lines[k].id
    ensures LineIndex(lines, lines[i].id) == i
  {
    var first := LineIndex(lines, lines[i].id);
    assert first < |lines| ==> lines[first].id == lines[i].id;
  }

  lemma IssuedIsNonNegative(db: Db, item: ItemRef)
    ensures IssuedUnits(db.issues, item) >= 0
  {
    SumNonNegative(db.issues, IssuedWeight(item));
  }
}
