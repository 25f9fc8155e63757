/** Administration of products, stock, loans and returnable items, statement by statement. */
module AdminInventoryService {
  import opened Wrappers
  import opened Tables
  import opened Operations
  import opened Runs
  import opened Database
  import opened Ledger
  import InventoryLaws
  import Sums

  /** Every product but a service gets its stock row here, and only here. */
  method CreateProduct(
    db: Database, id: ProductId, property: PropertyId, category: Category, price: nat, stock: nat)
    returns (outcome: Outcome)
    requires db.Valid()
    requires id !in db.catalog && id !in db.inventory
    modifies db
    ensures db.Valid()
    ensures db.supplied == if outcome == Done && category != Service then old(db.supplied)[id := stock]
                           else old(db.supplied)
    ensures Reply(db.State(), outcome)
         == Operations.CreateProduct(old(db.State()), id, property, category, price, stock)
  {
    hide Sound, Accounts, FreezesOrders, KeepsBorrowed, KeepsReserved;
    ghost var before := db.State();
    if property !in db.properties {
      return Refused(NotFound);
    }
    db.catalog := db.catalog[id := Product(property, category, price, true)];
    if category != Service {
      db.inventory := db.inventory[id := Stock(property, stock, stock, 0, 0, 0, 0)];
    }
    CallKeeps(before, NewProduct(id, property, category, price, stock), db.State(), db.supplied);
    if category != Service {
      db.supplied := db.supplied[id := stock];
    }
    return Done;
  }

  method UpdateProduct(db: Database, id: ProductId, price: Option<nat>, active: Option<bool>)
    returns (outcome: Outcome)
    requires db.Valid()
    modifies db
    ensures db.Valid()
    ensures db.supplied == old(db.supplied)
    ensures Reply(db.State(), outcome) == Operations.UpdateProduct(old(db.State()), id, price, active)
  {
    hide Sound, Accounts, FreezesOrders, KeepsBorrowed, KeepsReserved;
    ghost var before := db.State();
    if id !in db.catalog {
      return Refused(NotFound);
    }
    var row := db.catalog[id];
    if price.Some? {
      row := row.(price := price.value);
    }
    if active.Some? {
      row := row.(active := active.value);
    }
    db.catalog := db.catalog[id := row];
    CallKeeps(before, EditProduct(id, price, active), db.State(), db.supplied);
    return Done;
  }

  method Restock(db: Database, p: ProductId, quantity: nat, scope: Option<PropertyId>) returns (outcome: Outcome)
    requires db.Valid()
    modifies db
    ensures db.Valid()
    ensures outcome == Done ==> p in old(db.supplied)
    ensures db.supplied == if outcome == Done then old(db.supplied)[p := old(db.supplied)[p] + quantity]
                           else old(db.supplied)
    ensures Reply(db.State(), outcome) == Operations.Restock(old(db.State()), p, quantity, scope)
  {
    hide Sound, Accounts, FreezesOrders, KeepsBorrowed, KeepsReserved;
    ghost var before := db.State();
    if p !in db.inventory || (scope.Some? && db.inventory[p].property != scope.value) {
      return Refused(NotFound);
    }
    RowIsSupplied(db.inventory, db.supplied, p);
    var s := db.inventory[p];
    db.inventory := db.inventory[p := s.(total := s.total + quantity, available := s.available + quantity)];
    CallKeeps(before, AddStock(p, quantity, scope), db.State(), db.supplied);
    db.supplied := db.supplied[p := db.supplied[p] + quantity];
    return Done;
  }

  method MarkDamaged(db: Database, p: ProductId, quantity: nat, scope: Option<PropertyId>) returns (outcome: Outcome)
    requires db.Valid()
    modifies db
    ensures db.Valid()
    ensures db.supplied == old(db.supplied)
    ensures Reply(db.State(), outcome) == Operations.MarkDamaged(old(db.State()), p, quantity, scope)
  {
    hide Sound, Accounts, FreezesOrders, KeepsBorrowed, KeepsReserved;
    ghost var before := db.State();
    if p !in db.inventory || (scope.Some? && db.inventory[p].property != scope.value) {
      return Refused(NotFound);
    }
    var s := db.inventory[p];
    if s.available < quantity {
      return Refused(BadRequest);
    }
    db.inventory := db.inventory[p := s.(
      available := s.available - quantity, total := s.total - quantity, damaged := s.damaged + quantity)];
    CallKeeps(before, Damage(p, quantity, scope), db.State(), db.supplied);
    return Done;
  }

  method BorrowableCheckout(
    db: Database, p: ProductId, eri: Eri, guest: GuestId, scope: Option<PropertyId>, checkout: CheckoutId)
    returns (outcome: Outcome)
    requires db.Valid()
    requires checkout !in db.loans
    modifies db
    ensures db.Valid()
    ensures db.supplied == old(db.supplied)
    ensures Reply(db.State(), outcome)
         == Operations.BorrowableCheckout(old(db.State()), p, eri, guest, scope, checkout)
  {
    hide Sound, Accounts, FreezesOrders, KeepsBorrowed, KeepsReserved;
    ghost var before := db.State();
    if p !in db.inventory || (scope.Some? && db.inventory[p].property != scope.value) || p !in db.catalog {
      return Refused(NotFound);
    }
    if db.catalog[p].category != Borrowable {
      return Refused(BadRequest);
    }
    if db.inventory[p].available < 1 {
      return Refused(BadRequest);
    }
    if guest !in db.guests {
      return Refused(NotFound);
    }
    if eri !in db.bookings {
      return Refused(NotFound);
    }
    db.loans := db.loans[checkout := Loan(p, eri, guest, CheckedOutLoan)];
    var s := db.inventory[p];
    db.inventory := db.inventory[p := s.(available := s.available - 1, borrowed := s.borrowed + 1)];
    CallKeeps(before, AdminLends(p, eri, guest, scope, checkout), db.State(), db.supplied);
    return Done;
  }

  method VerifyReturn(db: Database, checkout: CheckoutId) returns (outcome: Outcome)
    requires db.Valid()
    modifies db
    ensures db.Valid()
    ensures db.supplied == old(db.supplied)
    ensures Reply(db.State(), outcome) == Operations.VerifyReturn(old(db.State()), checkout)
  {
    hide Sound, Accounts, FreezesOrders, KeepsBorrowed, KeepsReserved;
    ghost var before := db.State();
    if checkout !in db.loans {
      return Refused(NotFound);
    }
    var loan := db.loans[checkout];
    if loan.status == ReturnedLoan {
      return Refused(BadRequest);
    }
    var saved := db.loans;
    db.loans := db.loans[checkout := loan.(status := ReturnedLoan)];
    if loan.product !in db.inventory {
      db.loans := saved;
      assert db.State() == before;
      return Refused(ConstraintViolated);
    }
    var s := db.inventory[loan.product];
    var back := s.(available := s.available + 1, borrowed := s.borrowed - 1);
    if !back.NonNegative() {
      db.loans := saved;
      assert db.State() == before;
      return Refused(ConstraintViolated);
    }
    db.inventory := db.inventory[loan.product := back];
    CallKeeps(before, LoanReturned(checkout), db.State(), db.supplied);
    return Done;
  }

  /** Adds up all checkouts of the order item, returned or not. */
  method AlreadyIssued(issues: map<CheckoutId, Issue>, item: ItemRef) returns (issued: nat)
    ensures issued == IssuedUnits(issues, item)
  {
    issued := 0;
    var rest := issues;
    while rest != map[]
      invariant issued + Sums.Sum(rest, IssuedWeight(item)) == IssuedUnits(issues, item)
      decreases |rest|
    {
      var c :| c in rest;
      Sums.SumRemove(rest, IssuedWeight(item), c);
      if rest[c].item == item {
        issued := issued + rest[c].quantity;
      }
      rest := rest - {c};
    }
  }

  method ReturnableIssue(
    db: Database, p: ProductId, item: ItemRef, guest: GuestId, eri: Eri, property: PropertyId, quantity: nat,
    checkout: CheckoutId)
    returns (outcome: Outcome)
    requires db.Valid()
    requires checkout !in db.issues
    modifies db
    ensures db.Valid()
    ensures db.supplied == old(db.supplied)
    ensures Reply(db.State(), outcome)
         == Operations.ReturnableIssue(old(db.State()), p, item, guest, eri, property, quantity, checkout)
    ensures outcome == Done <==>
              && InventoryLaws.IsReturnableAt(old(db.State()), p, property)
              && quantity <= old(db.inventory)[p].available
              && InventoryLaws.IsPaidItem(old(db.State()), p, item, guest)
              && quantity <= InventoryLaws.RowOf(old(db.State()), item).pending
  {
    hide InventoryLaws.IsReturnableAt, InventoryLaws.IsPaidItem, InventoryLaws.RowOf, Sound, Accounts, FreezesOrders,
      KeepsBorrowed, KeepsReserved, IssuedUnits, LineIndex;
    ghost var before := db.State();
    InventoryLaws.IssueExactly(before, p, item, guest, eri, property, quantity, checkout);
    if p !in db.catalog || db.catalog[p].category != Returnable || !db.catalog[p].active {
      return Refused(NotFound);
    }
    if !HasRow(db.inventory, p, property) {
      return Refused(NotFound);
    }
    if db.inventory[p].available < quantity {
      return Refused(BadRequest);
    }
    if item.order !in db.orders {
      return Refused(BadRequest);
    }
    var order := db.orders[item.order];
    var i := LineIndex(order.lines, item.line);
    if i == |order.lines| || order.lines[i].product != p {
      return Refused(BadRequest);
    }
    if order.status != Paid {
      return Refused(BadRequest);
    }
    if order.guest != guest {
      return Refused(BadRequest);
    }
    var alreadyIssued := AlreadyIssued(db.issues, item);
    if alreadyIssued + quantity > order.lines[i].quantity {
      return Refused(BadRequest);
    }
    db.issues := db.issues[checkout := Issue(p, item, eri, guest, quantity, Issued)];
    var s := db.inventory[p];
    db.inventory := db.inventory[p := s.(available := s.available - quantity, borrowed := s.borrowed + quantity)];
    CallKeeps(before, IssueItem(p, item, guest, eri, property, quantity, checkout), db.State(), db.supplied);
    return Done;
  }

  /** The statements that close a checkout. */
  method CloseCheckout(db: Database, checkout: CheckoutId, condition: Condition) returns (outcome: Outcome)
    modifies db
    ensures db.supplied == old(db.supplied)
    ensures Reply(db.State(), outcome) == Operations.ReturnableVerifyReturn(old(db.State()), checkout, condition)
  {
    hide KeepsReserved;
    if checkout !in db.issues {
      return Refused(NotFound);
    }
    var issue := db.issues[checkout];
    if issue.status != Issued {
      return Refused(BadRequest);
    }
    var newStatus := if condition == Lost then LostIssue else ReturnedIssue;
    var saved := db.issues;
    db.issues := db.issues[checkout := issue.(status := newStatus)];
    var ok := issue.product in db.inventory;
    if ok {
      var s, q := db.inventory[issue.product], issue.quantity;
      s := s.(borrowed := s.borrowed - q);
      if condition == Good {
        s := s.(available := s.available + q);
      } else {
        s := s.(damaged := s.damaged + q, total := s.total - q);
      }
      ok := s.NonNegative();
      if ok {
        db.inventory := db.inventory[issue.product := s];
      }
    }
    if !ok {
      db.issues := saved;
      return Refused(ConstraintViolated);
    }
    return Done;
  }

  method ReturnableVerifyReturn(db: Database, checkout: CheckoutId, condition: Condition) returns (outcome: Outcome)
    requires db.Valid()
    modifies db
    ensures db.Valid()
    ensures db.supplied == old(db.supplied)
    ensures Reply(db.State(), outcome) == Operations.ReturnableVerifyReturn(old(db.State()), checkout, condition)
  {
    hide Sound, Accounts, Operations.ReturnableVerifyReturn;
    ghost var before := db.State();
    outcome := CloseCheckout(db, checkout, condition);
    CallKeeps(before, ItemReturned(checkout, condition), db.State(), db.supplied);
  }
}
