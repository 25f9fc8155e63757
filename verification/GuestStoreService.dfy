/** Cart edits and borrowing by guests, statement by statement. */
module GuestStoreService {
  import opened Wrappers
  import opened Tables
  import opened Operations
  import opened Runs
  import opened Database
  import opened Ledger
  import Effects
  import PaymentService

  /** No order item has this id. */
  ghost predicate FreshLine(orders: map<OrderId, Order>, id: nat)
  {
    forall o, i | o in orders && 0 <= i < |orders[o].lines| :: orders[o].lines[i].id != id
  }

  /** The guest's open order, or a new empty one. */
  method GetOrCreateCart(db: Database, guest: GuestId, eri: Eri, newOrder: OrderId)
    returns (o: OrderId, ghost first: Option<OrderId>)
    modifies db`orders
    ensures AnswersCart(old(db.orders), first, eri, guest)
    ensures o == first.GetOr(newOrder)
    ensures db.orders == if first.Some? then old(db.orders)
                         else old(db.orders)[newOrder := EmptyCart(eri, guest)]
    ensures o in db.orders
    ensures first.Some? ==> first.value in old(db.orders)
  {
    var found := db.FindCart(eri, guest);
    first := found;
    if found.Some? {
      return found.value, first;
    }
    db.orders := db.orders[newOrder := EmptyCart(eri, guest)];
    return newOrder, first;
  }

  /** The line of the same product and bed grows, or a new line is appended. */
  method PutLine(lines: seq<Line>, id: nat, p: ProductId, quantity: nat, unitPrice: nat, unitCode: string)
    returns (filled: seq<Line>)
    ensures filled == AddLine(lines, id, p, quantity, unitPrice, unitCode)
    ensures forall q :: Units(filled, q) == Units(lines, q) + (if q == p then quantity else 0)
    ensures Effects.DistinctBeds(lines) ==> Effects.DistinctBeds(filled)
  {
    forall q: ProductId
      ensures Units(AddLine(lines, id, p, quantity, unitPrice, unitCode), q)
              == Units(lines, q) + (if q == p then quantity else 0)
    {
      Effects.AdditionAddsUnits(lines, id, p, quantity, unitPrice, unitCode, q);
    }
    Effects.AdditionAddsUnits(lines, id, p, quantity, unitPrice, unitCode, p);
    hide LinePrice;
    var existing := SameItem(lines, p, unitCode);
    if existing < |lines| {
      var newQty := lines[existing].quantity + quantity;
      filled := lines[existing := lines[existing].(quantity := newQty, totalPrice := LinePrice(unitPrice, newQty))];
    } else {
      filled := lines + [Line(id, p, quantity, unitPrice, LinePrice(unitPrice, quantity), Some(unitCode))];
    }
  }

  /** Find or create the cart, correct its phase, and put the line in. */
  method FillCart(
    db: Database, guest: GuestId, eri: Eri, p: ProductId, quantity: nat, unitPrice: nat, unitCode: string,
    checkedIn: bool, newOrder: OrderId, newLine: nat)
    returns (ghost first: Option<OrderId>)
    modifies db`orders
    ensures AnswersCart(old(db.orders), first, eri, guest)
    ensures first.Some? ==> first.value in old(db.orders)
    ensures db.orders == old(db.orders)[
              first.GetOr(newOrder) := Filled(
                if first.Some? then old(db.orders)[first.value] else EmptyCart(eri, guest),
                newLine, p, quantity, unitPrice, unitCode, checkedIn)]
  {
    hide AnswersCart, AddLine;
    var phase := if checkedIn then DuringStay else PreArrival;
    var o;
    o, first := GetOrCreateCart(db, guest, eri, newOrder);
    if db.orders[o].phase != phase {
      db.orders := db.orders[o := db.orders[o].(phase := phase)];
    }
    var lines := PutLine(db.orders[o].lines, newLine, p, quantity, unitPrice, unitCode);
    db.orders := db.orders[o := db.orders[o].(lines := lines)];
  }

  method AddToCart(
    db: Database, guest: GuestId, eri: Eri, p: ProductId, quantity: nat, unitCode: string, checkedIn: bool,
    newOrder: OrderId, newLine: nat)
    returns (outcome: Outcome, ghost first: Option<OrderId>)
    requires db.Valid()
    requires newOrder !in db.orders && FreshLine(db.orders, newLine)
    modifies db
    ensures db.Valid()
    ensures db.supplied == old(db.supplied)
    ensures AnswersCart(old(db.orders), first, eri, guest)
    ensures Reply(db.State(), outcome)
         == Operations.AddToCart(
              old(db.State()), guest, eri, p, quantity, unitCode, checkedIn, first, newOrder, newLine)
  {
    hide Sound, Accounts, FreezesOrders, KeepsBorrowed, KeepsReserved, AnswersCart, ChecksHold, Filled, AddonRefusal;
    ghost var before := db.State();
    if (eri, guest) !in db.access || eri !in db.bookings {
      first := PaymentService.AnyCart(db.orders, eri, guest);
      return Refused(Forbidden), first;
    }
    var property := db.bookings[eri].property;
    var refusal := CheckAddon(db, property, AddonRequest(p, quantity));
    if refusal.Some? {
      first := PaymentService.AnyCart(db.orders, eri, guest);
      return Refused(refusal.value), first;
    }
    first := FillCart(db, guest, eri, p, quantity, db.catalog[p].price, unitCode, checkedIn, newOrder, newLine);
    CallKeeps(before, AddItem(guest, eri, p, quantity, unitCode, checkedIn, first, newOrder, newLine),
              db.State(), db.supplied);
    return Done, first;
  }

  method UpdateCartItem(db: Database, guest: GuestId, eri: Eri, item: ItemRef, quantity: nat)
    returns (outcome: Outcome)
    requires db.Valid()
    modifies db
    ensures db.Valid()
    ensures db.supplied == old(db.supplied)
    ensures Reply(db.State(), outcome) == Operations.UpdateCartItem(old(db.State()), guest, eri, item, quantity)
  {
    hide Sound, Accounts, FreezesOrders, KeepsBorrowed, KeepsReserved, LinePrice, LineIndex;
    ghost var before := db.State();
    if (eri, guest) !in db.access || eri !in db.bookings {
      return Refused(Forbidden);
    }
    if item.order !in db.orders {
      return Refused(NotFound);
    }
    var order := db.orders[item.order];
    var i := LineIndex(order.lines, item.line);
    if i == |order.lines| {
      return Refused(NotFound);
    }
    if order.guest != guest {
      return Refused(Forbidden);
    }
    if order.status != Pending {
      return Refused(BadRequest);
    }
    var line := order.lines[i];
    if IsCommodity(db.catalog, line.product) {
      if line.product in db.inventory && db.inventory[line.product].available < quantity {
        return Refused(BadRequest);
      }
    }
    var changed := line.(quantity := quantity, totalPrice := LinePrice(line.unitPrice, quantity));
    db.orders := db.orders[item.order := order.(lines := order.lines[i := changed])];
    CallKeeps(before, ChangeItem(guest, eri, item, quantity), db.State(), db.supplied);
    return Done;
  }

  method RemoveCartItem(db: Database, guest: GuestId, eri: Eri, item: ItemRef) returns (outcome: Outcome)
    requires db.Valid()
    modifies db
    ensures db.Valid()
    ensures db.supplied == old(db.supplied)
    ensures Reply(db.State(), outcome) == Operations.RemoveCartItem(old(db.State()), guest, eri, item)
  {
    hide Sound, Accounts, FreezesOrders, KeepsBorrowed, KeepsReserved, LineIndex;
    ghost var before := db.State();
    if (eri, guest) !in db.access || eri !in db.bookings {
      return Refused(Forbidden);
    }
    if item.order !in db.orders {
      return Refused(NotFound);
    }
    var order := db.orders[item.order];
    var i := LineIndex(order.lines, item.line);
    if i == |order.lines| {
      return Refused(NotFound);
    }
    if order.guest != guest {
      return Refused(Forbidden);
    }
    if order.status != Pending {
      return Refused(BadRequest);
    }
    db.orders := db.orders[item.order := order.(lines := order.lines[..i] + order.lines[i + 1..])];
    CallKeeps(before, RemoveItem(guest, eri, item), db.State(), db.supplied);
    return Done;
  }

  /** The stock check is repeated on the locked row; nothing runs between the two. */
  method RequestBorrowable(db: Database, guest: GuestId, eri: Eri, p: ProductId, checkout: CheckoutId)
    returns (outcome: Outcome)
    requires db.Valid()
    requires checkout !in db.loans
    modifies db
    ensures db.Valid()
    ensures db.supplied == old(db.supplied)
    ensures Reply(db.State(), outcome) == Operations.RequestBorrowable(old(db.State()), guest, eri, p, checkout)
  {
    hide Sound, Accounts, FreezesOrders, KeepsBorrowed, KeepsReserved;
    ghost var before := db.State();
    if (eri, guest) !in db.access || eri !in db.bookings {
      return Refused(Forbidden);
    }
    var property := db.bookings[eri].property;
    if !(p in db.catalog && db.catalog[p].property == property && db.catalog[p].active
         && db.catalog[p].category == Borrowable)
    {
      return Refused(NotFound);
    }
    if !HasRow(db.inventory, p, property) || db.inventory[p].available <= 0 {
      return Refused(BadRequest);
    }
    var existing := set c | c in db.loans && db.loans[c] == Loan(p, eri, guest, CheckedOutLoan);
    if existing != {} {
      var c :| c in existing;
      assert AlreadyBorrowed(db.State(), p, eri, guest);
      return Refused(BadRequest);
    }
    assert forall c | c in db.loans :: db.loans[c] == Loan(p, eri, guest, CheckedOutLoan) ==> c in existing;
    var locked := db.inventory[p];
    if locked.available <= 0 {
      return Refused(BadRequest);
    }
    db.loans := db.loans[checkout := Loan(p, eri, guest, CheckedOutLoan)];
    db.inventory := db.inventory[p := locked.(available := locked.available - 1, borrowed := locked.borrowed + 1)];
    CallKeeps(before, GuestBorrows(guest, eri, p, checkout), db.State(), db.supplied);
    return Done;
  }
}
