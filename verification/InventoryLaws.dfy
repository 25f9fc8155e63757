/** When each stock call is accepted, with what refusal otherwise, and which rows it writes. */
module InventoryLaws {
  import opened Wrappers
  import opened Sums
  import opened Tables
  import opened Operations
  import opened Entitlement

  // ---------------------------------------------------------------- products

  /** A product is created at a known property, for sale at its price, with its stock unless it is a service. */
  lemma ProductIsCreated(
    db: Db, id: ProductId, property: PropertyId, category: Category, price: nat, stock: nat, other: ProductId)
    ensures var r := CreateProduct(db, id, property, category, price, stock);
            && (property !in db.properties ==> r == Reply(db, Refused(NotFound)))
            && (property in db.properties ==>
                 && r.outcome == Done
                 && id in r.db.catalog && r.db.catalog[id].property == property
                 && r.db.catalog[id].category == category && r.db.catalog[id].price == price
                 && r.db.catalog[id].active
                 && (category == Service ==> r.db.inventory == db.inventory)
                 && (category != Service ==>
                      && id in r.db.inventory && r.db.inventory[id].property == property
                      && r.db.inventory[id].total == stock && r.db.inventory[id].available == stock
                      && r.db.inventory[id].reserved == 0 && r.db.inventory[id].sold == 0
                      && r.db.inventory[id].damaged == 0 && r.db.inventory[id].borrowed == 0)
                 && (other != id ==>
                      && (other in r.db.catalog <==> other in db.catalog)
                      && (other in db.catalog ==> r.db.catalog[other] == db.catalog[other])
                      && (other in r.db.inventory <==> other in db.inventory)
                      && (other in db.inventory ==> r.db.inventory[other] == db.inventory[other])))
  {
    hide KeepsReserved, KeepsBorrowed;
  }

  /** An edit of a known product writes the fields it names and keeps the others. */
  lemma ProductIsEdited(db: Db, id: ProductId, price: Option<nat>, active: Option<bool>, other: ProductId)
    ensures var r := UpdateProduct(db, id, price, active);
            && (id !in db.catalog ==> r == Reply(db, Refused(NotFound)))
            && (id in db.catalog ==>
                 && r.outcome == Done && r.db.catalog.Keys == db.catalog.Keys
                 && r.db.catalog[id].price == (if price.Some? then price.value else db.catalog[id].price)
                 && r.db.catalog[id].active == (if active.Some? then active.value else db.catalog[id].active)
                 && r.db.catalog[id].property == db.catalog[id].property
                 && r.db.catalog[id].category == db.catalog[id].category
                 && (other != id && other in db.catalog ==> r.db.catalog[other] == db.catalog[other]))
  {
  }

  /** The row is found by an administrator of its property or of all. */
  ghost predicate InReach(db: Db, p: ProductId, scope: Option<PropertyId>)
  {
    p in db.inventory && (scope == None || scope == Some(db.inventory[p].property))
  }

  ghost predicate OnlyRow(before: Inventory, after: Inventory, p: ProductId)
  {
    after.Keys == before.Keys && forall q | q in before && q != p :: after[q] == before[q]
  }

  lemma RestockExactly(db: Db, p: ProductId, quantity: nat, scope: Option<PropertyId>)
    ensures var r := Restock(db, p, quantity, scope);
            && (!InReach(db, p, scope) ==> r == Reply(db, Refused(NotFound)))
            && (InReach(db, p, scope) ==>
                 && r.outcome == Done && OnlyRow(db.inventory, r.db.inventory, p)
                 && r.db.inventory[p].available - db.inventory[p].available == quantity
                 && r.db.inventory[p].total - db.inventory[p].total == quantity
                 && r.db.inventory[p].damaged == db.inventory[p].damaged)
  {
    hide KeepsReserved, KeepsBorrowed;
  }

  lemma DamageExactly(db: Db, p: ProductId, quantity: nat, scope: Option<PropertyId>)
    ensures var r := MarkDamaged(db, p, quantity, scope);
            && (!InReach(db, p, scope) ==> r == Reply(db, Refused(NotFound)))
            && (InReach(db, p, scope) && db.inventory[p].available < quantity ==> r == Reply(db, Refused(BadRequest)))
            && (InReach(db, p, scope) && quantity <= db.inventory[p].available ==>
                 && r.outcome == Done && OnlyRow(db.inventory, r.db.inventory, p)
                 && db.inventory[p].available - r.db.inventory[p].available == quantity
                 && db.inventory[p].total - r.db.inventory[p].total == quantity
                 && r.db.inventory[p].damaged - db.inventory[p].damaged == quantity)
  {
    hide KeepsReserved, KeepsBorrowed;
  }

  // ---------------------------------------------------------------- loans

  /** One unit from available to borrowed, against a loan of the guest that is out. */
  ghost predicate Lent(db: Db, after: Db, p: ProductId, eri: Eri, guest: GuestId, checkout: CheckoutId)
    requires p in db.inventory
  {
    && checkout in after.loans && after.loans == db.loans[checkout := after.loans[checkout]]
    && after.loans[checkout].product == p && after.loans[checkout].eri == eri
    && after.loans[checkout].guest == guest && after.loans[checkout].status == CheckedOutLoan
    && OnlyRow(db.inventory, after.inventory, p)
    && after.inventory[p] == db.inventory[p].(
         available := db.inventory[p].available - 1, borrowed := db.inventory[p].borrowed + 1)
  }

  /** Lent to a known guest on a known booking when the product is lent at all and a unit is there. */
  lemma LoanExactly(
    db: Db, p: ProductId, eri: Eri, guest: GuestId, scope: Option<PropertyId>, checkout: CheckoutId)
    ensures var r := BorrowableCheckout(db, p, eri, guest, scope, checkout);
            var found := InReach(db, p, scope) && p in db.catalog;
            var lendable := found && db.catalog[p].category == Borrowable && db.inventory[p].available >= 1;
            && (r.outcome == Done <==> lendable && guest in db.guests && eri in db.bookings)
            && (r.outcome == Done ==> Lent(db, r.db, p, eri, guest, checkout))
            && (r.outcome != Done ==>
                 r == Reply(db, Refused(if found && !lendable then BadRequest else NotFound)))
  {
    hide KeepsReserved;
  }

  /** The guest's own loan of a product of the booking's property, one at a time. */
  lemma BorrowExactly(db: Db, guest: GuestId, eri: Eri, p: ProductId, checkout: CheckoutId)
    ensures var r := RequestBorrowable(db, guest, eri, p, checkout);
            var allowed := (eri, guest) in db.access && eri in db.bookings;
            var property := if allowed then db.bookings[eri].property else 0;
            var lent := allowed && p in db.catalog && db.catalog[p].property == property && db.catalog[p].active
                        && db.catalog[p].category == Borrowable;
            && (!allowed ==> r == Reply(db, Refused(Forbidden)))
            && (allowed && !lent ==> r == Reply(db, Refused(NotFound)))
            && (lent ==>
                 && (r.outcome == Done <==>
                      && p in db.inventory && db.inventory[p].property == property && db.inventory[p].available > 0
                      && forall c | c in db.loans ::
                           !(db.loans[c].product == p && db.loans[c].eri == eri && db.loans[c].guest == guest
                             && db.loans[c].status == CheckedOutLoan))
                 && (r.outcome == Done ==> Lent(db, r.db, p, eri, guest, checkout))
                 && (r.outcome != Done ==> r == Reply(db, Refused(BadRequest))))
  {
    hide KeepsReserved;
    assert AlreadyBorrowed(db, p, eri, guest) <==>
      exists c :: c in db.loans && db.loans[c].product == p && db.loans[c].eri == eri && db.loans[c].guest == guest
                  && db.loans[c].status == CheckedOutLoan;
  }

  /** A loan that is out comes back once; one unit goes from borrowed to available. */
  lemma LoanReturnExactly(db: Db, checkout: CheckoutId)
    requires ChecksHold(db.inventory)
    requires checkout in db.loans ==> db.loans[checkout].product in db.inventory
    ensures var r := VerifyReturn(db, checkout);
            && (checkout !in db.loans ==> r == Reply(db, Refused(NotFound)))
            && (checkout in db.loans && db.loans[checkout].status == ReturnedLoan ==>
                 r == Reply(db, Refused(BadRequest)))
            && (checkout in db.loans && db.loans[checkout].status == CheckedOutLoan ==>
                 var p := db.loans[checkout].product;
                 if db.inventory[p].borrowed == 0 then r == Reply(db, Refused(ConstraintViolated))
                 else
                   && r.outcome == Done
                   && r.db.loans == db.loans[checkout := db.loans[checkout].(status := ReturnedLoan)]
                   && OnlyRow(db.inventory, r.db.inventory, p)
                   && r.db.inventory[p] == db.inventory[p].(
                        available := db.inventory[p].available + 1, borrowed := db.inventory[p].borrowed - 1))
  {
    hide KeepsReserved;
    assert checkout in db.loans ==> db.inventory[db.loans[checkout].product].NonNegative();
  }

  // ---------------------------------------------------------------- returnable items

  /** An active returnable product with a row at the property. */
  ghost predicate IsReturnableAt(db: Db, p: ProductId, property: PropertyId)
  {
    && p in db.catalog && db.catalog[p].category == Returnable && db.catalog[p].active
    && p in db.inventory && db.inventory[p].property == property
  }

  /** The item is a line of the product in a paid order of the guest. */
  ghost predicate IsPaidItem(db: Db, p: ProductId, item: ItemRef, guest: GuestId)
  {
    && item.order in db.orders && db.orders[item.order].status == Paid && db.orders[item.order].guest == guest
    && LineIndex(db.orders[item.order].lines, item.line) < |db.orders[item.order].lines|
    && db.orders[item.order].lines[LineIndex(db.orders[item.order].lines, item.line)].product == p
  }

  /** The row of the entitlement list that the item has, or would have. */
  ghost function RowOf(db: Db, item: ItemRef): EntitlementRow
    requires item.order in db.orders
    requires LineIndex(db.orders[item.order].lines, item.line) < |db.orders[item.order].lines|
  {
    EntitlementOf(db, item.order, LineIndex(db.orders[item.order].lines, item.line))
  }

  /**
   * An issue is accepted if and only if the product is handed out at the property with enough in stock, the item
   * was paid for by the guest, and no more is asked for than is pending on its entitlement row.
   */
  lemma IssueExactly(
    db: Db, p: ProductId, item: ItemRef, guest: GuestId, eri: Eri, property: PropertyId, quantity: nat,
    checkout: CheckoutId)
    ensures var r := ReturnableIssue(db, p, item, guest, eri, property, quantity, checkout);
            && (r.outcome == Done <==>
                 && IsReturnableAt(db, p, property) && quantity <= db.inventory[p].available
                 && IsPaidItem(db, p, item, guest) && quantity <= RowOf(db, item).pending)
            && (r.outcome != Done ==>
                 r == Reply(db, Refused(if IsReturnableAt(db, p, property) then BadRequest else NotFound)))
  {
    hide KeepsReserved, IssuedUnits, LineIndex;
    if item.order in db.orders {
      LineOfIndex(db.orders[item.order].lines, item.line);
    }
  }

  lemma LineOfIndex(lines: seq<Line>, id: nat)
    ensures LineIndex(lines, id) < |lines| ==> lines[LineIndex(lines, id)].id == id
  {
  }

  lemma IssueWrites(
    db: Db, p: ProductId, item: ItemRef, guest: GuestId, eri: Eri, property: PropertyId, quantity: nat,
    checkout: CheckoutId)
    requires ReturnableIssue(db, p, item, guest, eri, property, quantity, checkout).outcome == Done
    ensures p in db.inventory
    ensures var after := ReturnableIssue(db, p, item, guest, eri, property, quantity, checkout).db;
            && checkout in after.issues && after.issues == db.issues[checkout := after.issues[checkout]]
            && after.issues[checkout].product == p && after.issues[checkout].item == item
            && after.issues[checkout].eri == eri && after.issues[checkout].guest == guest
            && after.issues[checkout].quantity == quantity && after.issues[checkout].status == Issued
            && OnlyRow(db.inventory, after.inventory, p)
            && after.inventory[p] == db.inventory[p].(
                 available := db.inventory[p].available - quantity, borrowed := db.inventory[p].borrowed + quantity)
  {
    hide KeepsReserved, IssuedUnits, LineIndex;
  }

  /** An accepted issue lowers the pending units of its own row by what was handed out, and of no other row. */
  lemma IssueLowersPending(
    db: Db, p: ProductId, item: ItemRef, guest: GuestId, eri: Eri, property: PropertyId, quantity: nat,
    checkout: CheckoutId, o: OrderId, i: nat)
    requires ReturnableIssue(db, p, item, guest, eri, property, quantity, checkout).outcome == Done
    requires checkout !in db.issues && o in db.orders && i < |db.orders[o].lines|
    ensures var after := ReturnableIssue(db, p, item, guest, eri, property, quantity, checkout).db;
            && after.orders == db.orders
            && EntitlementOf(after, o, i).pending == EntitlementOf(db, o, i).pending
                 - (if ItemRef(o, db.orders[o].lines[i].id) == item then quantity else 0)
            && EntitlementOf(after, o, i).ordered == EntitlementOf(db, o, i).ordered
  {
    hide ReturnableIssue, IssuedUnits, KeepsReserved;
    IssueCounts(db, p, item, guest, eri, property, quantity, checkout, ItemRef(o, db.orders[o].lines[i].id));
  }

  /** All that is pending of a paid item can be handed out at once, when it is in stock; then none is left. */
  lemma AllPendingCanBeIssued(
    db: Db, p: ProductId, item: ItemRef, guest: GuestId, eri: Eri, property: PropertyId, checkout: CheckoutId)
    requires IsReturnableAt(db, p, property) && IsPaidItem(db, p, item, guest) && checkout !in db.issues
    requires 0 <= RowOf(db, item).pending <= db.inventory[p].available
    ensures var r := ReturnableIssue(db, p, item, guest, eri, property, RowOf(db, item).pending, checkout);
            r.outcome == Done && r.db.orders == db.orders && RowOf(r.db, item).pending == 0
  {
    hide ReturnableIssue, IssuedUnits, KeepsReserved, LineIndex;
    var lines := db.orders[item.order].lines;
    LineOfIndex(lines, item.line);
    IssueExactly(db, p, item, guest, eri, property, RowOf(db, item).pending, checkout);
    IssueLowersPending(db, p, item, guest, eri, property, RowOf(db, item).pending, checkout, item.order,
                       LineIndex(lines, item.line));
  }

  /** Nothing was ever issued of an item that no checkout names. */
  lemma NothingIssued(db: Db, o: OrderId, i: nat)
    requires o in db.orders && i < |db.orders[o].lines|
    requires forall c | c in db.issues :: db.issues[c].item != ItemRef(o, db.orders[o].lines[i].id)
    ensures EntitlementOf(db, o, i).pending == EntitlementOf(db, o, i).ordered == db.orders[o].lines[i].quantity
  {
    SumAllZero(db.issues, IssuedWeight(ItemRef(o, db.orders[o].lines[i].id)));
  }

  /** The list shows exactly the returnable lines of the reservation's paid orders. */
  lemma ListedExactly(db: Db, eri: Eri, row: EntitlementRow)
    ensures row in GetReturnableEntitlements(db, eri) <==>
            exists o, i ::
              && o in db.orders && db.orders[o].eri == eri && db.orders[o].status == Paid
              && 0 <= i < |db.orders[o].lines| && db.orders[o].lines[i].product in db.catalog
              && db.catalog[db.orders[o].lines[i].product].category == Returnable
              && row == EntitlementOf(db, o, i)
  {
    if row in GetReturnableEntitlements(db, eri) {
      var o, i :| o in db.orders && 0 <= i < |db.orders[o].lines| && Entitles(db, eri, o, i)
        && row == EntitlementOf(db, o, i);
    } else if o, i :| && o in db.orders && db.orders[o].eri == eri && db.orders[o].status == Paid
                      && 0 <= i < |db.orders[o].lines| && db.orders[o].lines[i].product in db.catalog
                      && db.catalog[db.orders[o].lines[i].product].category == Returnable
                      && row == EntitlementOf(db, o, i) {
      assert Entitles(db, eri, o, i);
    }
  }

  /**
   * An issue is closed once. In good condition its units become available again; damaged or lost they leave the
   * total for the damaged count, and a loss is recorded as one.
   */
  lemma IssueReturnExactly(db: Db, checkout: CheckoutId, condition: Condition)
    requires ChecksHold(db.inventory)
    requires checkout in db.issues ==> db.issues[checkout].product in db.inventory
    ensures var r := ReturnableVerifyReturn(db, checkout, condition);
            && (checkout !in db.issues ==> r == Reply(db, Refused(NotFound)))
            && (checkout in db.issues && db.issues[checkout].status != Issued ==> r == Reply(db, Refused(BadRequest)))
            && (checkout in db.issues && db.issues[checkout].status == Issued ==>
                 var issue := db.issues[checkout];
                 var s, q := db.inventory[issue.product], issue.quantity;
                 if s.borrowed < q then r == Reply(db, Refused(ConstraintViolated))
                 else
                   && r.outcome == Done && OnlyRow(db.inventory, r.db.inventory, issue.product)
                   && r.db.issues == db.issues[checkout := issue.(status := match condition
                                                                            case Lost => LostIssue
                                                                            case _ => ReturnedIssue)]
                   && r.db.inventory[issue.product] == match condition
                        case Good => s.(borrowed := s.borrowed - q, available := s.available + q)
                        case _ => s.(borrowed := s.borrowed - q, damaged := s.damaged + q, total := s.total - q))
  {
    hide KeepsReserved;
    assert checkout in db.issues ==> db.inventory[db.issues[checkout].product].NonNegative();
  }
}
