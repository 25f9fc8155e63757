/** When each cart call is accepted, with what refusal otherwise, and which line of which order it writes. */
module CartLaws {
  import opened Wrappers
  import opened Tables
  import opened Operations

  ghost predicate MayActOn(db: Db, guest: GuestId, eri: Eri)
  {
    (eri, guest) in db.access && eri in db.bookings
  }

  ghost predicate OnSale(db: Db, property: PropertyId, p: ProductId)
  {
    p in db.catalog && db.catalog[p].property == property && db.catalog[p].active
  }

  /** For sale at a price, not lent, and in stock if it is counted. */
  ghost predicate Orderable(db: Db, property: PropertyId, p: ProductId, quantity: nat)
  {
    && OnSale(db, property, p) && db.catalog[p].category != Borrowable && db.catalog[p].price > 0
    && (db.catalog[p].category == Commodity ==>
         p in db.inventory && db.inventory[p].property == property && quantity <= db.inventory[p].available)
  }

  /** What carts and bookings ask of a product. */
  lemma AddonExactly(db: Db, property: PropertyId, p: ProductId, quantity: nat)
    ensures AddonRefusal(db, property, AddonRequest(p, quantity))
            == if Orderable(db, property, p, quantity) then None
               else Some(if OnSale(db, property, p) then BadRequest else NotFound)
  {
  }

  // ---------------------------------------------------------------- additions

  /** An addition is accepted exactly with access and an orderable product. */
  lemma AdditionExactly(
    db: Db, guest: GuestId, eri: Eri, p: ProductId, quantity: nat, unitCode: string, checkedIn: bool,
    first: Option<OrderId>, newOrder: OrderId, newLine: nat)
    requires AnswersCart(db.orders, first, eri, guest)
    ensures var r := AddToCart(db, guest, eri, p, quantity, unitCode, checkedIn, first, newOrder, newLine);
            && (!MayActOn(db, guest, eri) ==> r == Reply(db, Refused(Forbidden)))
            && (MayActOn(db, guest, eri) ==>
                 var property := db.bookings[eri].property;
                 && (r.outcome == Done <==> Orderable(db, property, p, quantity))
                 && (r.outcome != Done ==>
                      r == Reply(db, Refused(if OnSale(db, property, p) then BadRequest else NotFound))))
  {
    hide Filled, FreezesOrders, AddonRefusal, Orderable, OnSale;
    if MayActOn(db, guest, eri) {
      AddonExactly(db, db.bookings[eri].property, p, quantity);
    }
  }

  /** The open order, or a new one of the guest, in the phase of the stay and not linked to a payment yet. */
  ghost predicate IsCart(
    db: Db, after: Db, guest: GuestId, eri: Eri, checkedIn: bool, first: Option<OrderId>, o: OrderId)
  {
    && o in after.orders && after.orders == db.orders[o := after.orders[o]]
    && after.orders[o].phase == (if checkedIn then DuringStay else PreArrival)
    && match first
       case Some(f) =>
         && o == f && f in db.orders
         && after.orders[o] == db.orders[f].(phase := after.orders[o].phase, lines := after.orders[o].lines)
       case None =>
         after.orders[o].eri == eri && after.orders[o].guest == guest && after.orders[o].status == Pending
         && after.orders[o].payment.None?
  }

  /**
   * It writes one line: the first of the product and bed gets the units and is charged at today's price for all
   * of them; without one a line is appended at today's price.
   */
  ghost predicate LineAdded(
    before: seq<Line>, after: seq<Line>, id: nat, p: ProductId, quantity: nat, price: nat, unitCode: string)
  {
    || (exists i ::
         && 0 <= i < |before| == |after| && before[i].product == p && before[i].unitCode == Some(unitCode)
         && after[i].id == before[i].id && after[i].product == p && after[i].unitCode == Some(unitCode)
         && after[i].unitPrice == before[i].unitPrice
         && after[i].quantity == before[i].quantity + quantity
         && after[i].totalPrice == price * (before[i].quantity + quantity)
         && after == before[i := after[i]])
    || (&& (forall i | 0 <= i < |before| :: !(before[i].product == p && before[i].unitCode == Some(unitCode)))
        && |after| == |before| + 1 && after[..|before|] == before
        && after[|before|].id == id && after[|before|].product == p && after[|before|].quantity == quantity
        && after[|before|].unitPrice == price && after[|before|].totalPrice == price * quantity
        && after[|before|].unitCode == Some(unitCode))
  }

  lemma {:induction false} SameItemExactly(lines: seq<Line>, p: ProductId, unitCode: string)
    ensures SameItem(lines, p, unitCode) == |lines| ==>
              forall i | 0 <= i < |lines| :: !(lines[i].product == p && lines[i].unitCode == Some(unitCode))
  {
    if lines != [] && !(lines[0].product == p && lines[0].unitCode == Some(unitCode)) {
      SameItemExactly(lines[1..], p, unitCode);
      assert forall i | 0 < i < |lines| :: lines[i] == lines[1..][i - 1];
    }
  }

  lemma AddLineExactly(lines: seq<Line>, id: nat, p: ProductId, quantity: nat, price: nat, unitCode: string)
    ensures LineAdded(lines, AddLine(lines, id, p, quantity, price, unitCode), id, p, quantity, price, unitCode)
  {
    SameItemExactly(lines, p, unitCode);
    var i, after := SameItem(lines, p, unitCode), AddLine(lines, id, p, quantity, price, unitCode);
    hide SameItem;
    if i < |lines| {
      assert after == lines[i := after[i]];
    } else {
      assert after[..|lines|] == lines;
    }
  }

  lemma AdditionWritesLine(
    db: Db, guest: GuestId, eri: Eri, p: ProductId, quantity: nat, unitCode: string, checkedIn: bool,
    first: Option<OrderId>, newOrder: OrderId, newLine: nat)
    requires AnswersCart(db.orders, first, eri, guest)
    requires AddToCart(db, guest, eri, p, quantity, unitCode, checkedIn, first, newOrder, newLine).outcome == Done
    ensures p in db.catalog && (first.Some? ==> first.value in db.orders)
    ensures var after := AddToCart(db, guest, eri, p, quantity, unitCode, checkedIn, first, newOrder, newLine).db;
            var o := first.GetOr(newOrder);
            && IsCart(db, after, guest, eri, checkedIn, first, o)
            && LineAdded(if first.Some? then db.orders[first.value].lines else [], after.orders[o].lines, newLine, p,
                         quantity, db.catalog[p].price, unitCode)
  {
    hide FreezesOrders, AddLine, LineAdded;
    AddLineExactly(if first.Some? then db.orders[first.value].lines else [], newLine, p, quantity, db.catalog[p].price,
                   unitCode);
  }

  // ---------------------------------------------------------------- changes and removals

  /** The item is a line of an order; its position. */
  ghost predicate IsItem(db: Db, item: ItemRef, i: nat)
  {
    && item.order in db.orders && i < |db.orders[item.order].lines|
    && db.orders[item.order].lines[i].id == item.line
    && forall j | 0 <= j < i :: db.orders[item.order].lines[j].id != item.line
  }

  lemma ItemIsFound(db: Db, item: ItemRef)
    ensures item.order in db.orders ==>
              var i := LineIndex(db.orders[item.order].lines, item.line);
              i < |db.orders[item.order].lines| <==> IsItem(db, item, i)
    ensures (exists i :: IsItem(db, item, i)) <==>
            item.order in db.orders
            && LineIndex(db.orders[item.order].lines, item.line) < |db.orders[item.order].lines|
  {
    if item.order in db.orders && LineIndex(db.orders[item.order].lines, item.line) < |db.orders[item.order].lines| {
      assert IsItem(db, item, LineIndex(db.orders[item.order].lines, item.line));
    }
  }

  /** Access first, then the item, then whose it is, then whether it is still open. */
  lemma CartItemExactly(db: Db, guest: GuestId, eri: Eri, item: ItemRef)
    ensures var refusal := CartItemRefusal(db, guest, eri, item);
            && (refusal.None? <==>
                 && MayActOn(db, guest, eri) && (exists i :: IsItem(db, item, i))
                 && db.orders[item.order].guest == guest && db.orders[item.order].status == Pending)
            && (refusal == Some(NotFound) <==> MayActOn(db, guest, eri) && !exists i :: IsItem(db, item, i))
            && (refusal == Some(BadRequest) <==>
                 && MayActOn(db, guest, eri) && (exists i :: IsItem(db, item, i))
                 && db.orders[item.order].guest == guest && db.orders[item.order].status != Pending)
            && (refusal.Some? ==> refusal.value in {Forbidden, NotFound, BadRequest})
  {
    hide LineIndex, IsItem;
    ItemIsFound(db, item);
  }

  /** A change is accepted exactly when the item may be edited and the new quantity is in stock if it is counted. */
  lemma ChangeExactly(db: Db, guest: GuestId, eri: Eri, item: ItemRef, quantity: nat, i: nat)
    requires CartItemRefusal(db, guest, eri, item).None? && IsItem(db, item, i)
    ensures var r, line := UpdateCartItem(db, guest, eri, item, quantity), db.orders[item.order].lines[i];
            var counted := line.product in db.catalog && db.catalog[line.product].category == Commodity
                           && line.product in db.inventory;
            && (r.outcome == Done <==> (counted ==> quantity <= db.inventory[line.product].available))
            && (r.outcome != Done ==> r == Reply(db, Refused(BadRequest)))
            && (r.outcome == Done ==>
                 r.db.orders == db.orders[item.order := db.orders[item.order].(
                   lines := db.orders[item.order].lines[i := line.(
                     quantity := quantity, totalPrice := line.unitPrice * quantity)])])
  {
    hide CartItemRefusal, FreezesOrders;
    ItemAt(db, item, i);
    hide LineIndex;
  }

  lemma ItemAt(db: Db, item: ItemRef, i: nat)
    requires IsItem(db, item, i)
    ensures LineIndex(db.orders[item.order].lines, item.line) == i
  {
  }

  lemma RefusedEdit(db: Db, guest: GuestId, eri: Eri, item: ItemRef, quantity: nat)
    requires CartItemRefusal(db, guest, eri, item).Some?
    ensures UpdateCartItem(db, guest, eri, item, quantity)
            == RemoveCartItem(db, guest, eri, item)
            == Reply(db, Refused(CartItemRefusal(db, guest, eri, item).value))
  {
    hide CartItemRefusal, FreezesOrders;
  }

  lemma RemovalExactly(db: Db, guest: GuestId, eri: Eri, item: ItemRef, i: nat)
    requires CartItemRefusal(db, guest, eri, item).None? && IsItem(db, item, i)
    ensures var r, lines := RemoveCartItem(db, guest, eri, item), db.orders[item.order].lines;
            && r.outcome == Done
            && r.db.orders == db.orders[item.order := db.orders[item.order].(lines := lines[..i] + lines[i + 1..])]
  {
    hide CartItemRefusal, FreezesOrders;
    ItemAt(db, item, i);
    hide LineIndex;
  }
}
