/** Every unit is in exactly one place, whatever the calls and their order. */
module Conservation {
  import opened Wrappers
  import opened RoomOrders
  import opened Tables
  import opened Operations
  import opened Runs

  /** Units a call brings into circulation. */
  ghost function Supplied(db: Db, c: Call, p: ProductId): nat
    requires Possible(db, c)
  {
    match c
    case NewProduct(id, _, category, _, stock) =>
      if id == p && category != Service && Perform(db, c).outcome == Done then stock else 0
    case AddStock(id, quantity, _) => if id == p && Perform(db, c).outcome == Done then quantity else 0
    case _ => 0
  }

  ghost predicate CreatesRow(db: Db, c: Call, p: ProductId)
    requires Possible(db, c)
  {
    c.NewProduct? && c.id == p && c.category != Service && Perform(db, c).outcome == Done
  }

  /** What a run brings into circulation. */
  ghost function SuppliedOver(db: Db, calls: seq<Call>, p: ProductId): nat
    requires PossibleRun(db, calls)
    decreases |calls|
  {
    if calls == [] then 0
    else Supplied(db, calls[0], p) + SuppliedOver(Perform(db, calls[0]).db, calls[1..], p)
  }

  /** Units in circulation and units written off. */
  ghost function Held(inventory: Inventory, p: ProductId): int
  {
    if p in inventory then inventory[p].total + inventory[p].damaged else 0
  }

  ghost function Imbalance(inventory: Inventory, p: ProductId): int
  {
    if p in inventory then inventory[p].Imbalance() else 0
  }

  /**
   * No row disappears and only a new product's row appears, `supplied` units of `p` come in, balances
   * stay, and the checks keep holding.
   */
  ghost predicate Conserves(before: Inventory, after: Inventory, p: ProductId, isNew: bool, supplied: nat)
  {
    && (p in after <==> p in before || isNew)
    && (p in before ==> after[p].property == before[p].property)
    && Imbalance(after, p) == Imbalance(before, p)
    && Held(after, p) == Held(before, p) + supplied
    && (ChecksHold(before) ==> ChecksHold(after))
  }

  /** Writing one row conserves when the row does. */
  lemma RowConserves(before: Inventory, id: ProductId, row: Stock, supplied: nat, p: ProductId)
    requires (if id in before then before[id].Imbalance() else 0) == row.Imbalance()
    requires Held(before, id) + supplied == row.total + row.damaged
    requires id !in before || before[id].NonNegative() ==> row.NonNegative()
    requires id in before ==> row.property == before[id].property
    ensures Conserves(before, before[id := row], p, id == p && id !in before, if id == p then supplied else 0)
  {
  }

  lemma CreateProductConserves(
    db: Db, id: ProductId, property: PropertyId, category: Category, price: nat, stock: nat, p: ProductId)
    requires id !in db.catalog && id !in db.inventory
    ensures var r := CreateProduct(db, id, property, category, price, stock);
            var isNew := r.outcome == Done && id == p && category != Service;
            Conserves(db.inventory, r.db.inventory, p, isNew, if isNew then stock else 0)
  {
    hide Conserves;
    NothingConserves(db.inventory, p);
    RowConserves(db.inventory, id, Stock(property, stock, stock, 0, 0, 0, 0), stock, p);
  }

  lemma RestockConserves(db: Db, id: ProductId, quantity: nat, scope: Option<PropertyId>, p: ProductId)
    ensures var r := Restock(db, id, quantity, scope);
            Conserves(db.inventory, r.db.inventory, p, false, if r.outcome == Done && id == p then quantity else 0)
  {
    hide Conserves;
    NothingConserves(db.inventory, p);
    if id in db.inventory {
      var s := db.inventory[id];
      RowConserves(
        db.inventory, id, s.(total := s.total + quantity, available := s.available + quantity), quantity, p);
    }
  }

  lemma MarkDamagedConserves(db: Db, id: ProductId, quantity: nat, scope: Option<PropertyId>, p: ProductId)
    ensures Conserves(db.inventory, MarkDamaged(db, id, quantity, scope).db.inventory, p, false, 0)
  {
    hide Conserves;
    NothingConserves(db.inventory, p);
    if id in db.inventory && db.inventory[id].available >= quantity {
      var s := db.inventory[id];
      RowConserves(
        db.inventory, id,
        s.(available := s.available - quantity, total := s.total - quantity, damaged := s.damaged + quantity), 0, p);
    }
  }

  /** Handing out `q` available units, or taking them back in good condition with a negative `q`. */
  lemma HandOutConserves(inventory: Inventory, id: ProductId, q: int, p: ProductId)
    requires id in inventory
    requires var s := inventory[id]; s.NonNegative() ==> s.available - q >= 0 && s.borrowed + q >= 0
    ensures var s := inventory[id];
            Conserves(inventory, inventory[id := s.(available := s.available - q, borrowed := s.borrowed + q)],
                      p, false, 0)
  {
    hide Conserves;
    var s := inventory[id];
    RowConserves(inventory, id, s.(available := s.available - q, borrowed := s.borrowed + q), 0, p);
  }

  lemma BorrowableCheckoutConserves(
    db: Db, id: ProductId, eri: Eri, guest: GuestId, scope: Option<PropertyId>, checkout: CheckoutId, p: ProductId)
    ensures Conserves(db.inventory, BorrowableCheckout(db, id, eri, guest, scope, checkout).db.inventory, p, false, 0)
  {
    hide Conserves;
    NothingConserves(db.inventory, p);
    if id in db.inventory && db.inventory[id].available >= 1 {
      HandOutConserves(db.inventory, id, 1, p);
    }
  }

  lemma RequestBorrowableConserves(
    db: Db, guest: GuestId, eri: Eri, id: ProductId, checkout: CheckoutId, p: ProductId)
    ensures Conserves(db.inventory, RequestBorrowable(db, guest, eri, id, checkout).db.inventory, p, false, 0)
  {
    hide Conserves, AlreadyBorrowed;
    NothingConserves(db.inventory, p);
    if id in db.inventory && db.inventory[id].available >= 1 {
      HandOutConserves(db.inventory, id, 1, p);
    }
  }

  lemma VerifyReturnConserves(db: Db, checkout: CheckoutId, p: ProductId)
    ensures Conserves(db.inventory, VerifyReturn(db, checkout).db.inventory, p, false, 0)
  {
    hide Conserves;
    NothingConserves(db.inventory, p);
    if checkout in db.loans && db.loans[checkout].product in db.inventory {
      var s := db.inventory[db.loans[checkout].product];
      if s.available + 1 >= 0 && s.borrowed - 1 >= 0 {
        HandOutConserves(db.inventory, db.loans[checkout].product, -1, p);
      }
    }
  }

  lemma ReturnableIssueConserves(
    db: Db, id: ProductId, item: ItemRef, guest: GuestId, eri: Eri, property: PropertyId, quantity: nat,
    checkout: CheckoutId, p: ProductId)
    ensures Conserves(
              db.inventory, ReturnableIssue(db, id, item, guest, eri, property, quantity, checkout).db.inventory,
              p, false, 0)
  {
    hide Conserves, LineIndex, IssuedUnits;
    NothingConserves(db.inventory, p);
    if id in db.inventory && db.inventory[id].available >= quantity {
      HandOutConserves(db.inventory, id, quantity, p);
    }
  }

  /** Taking `q` units back, in good condition or written off. */
  lemma ReturnConserves(inventory: Inventory, id: ProductId, q: nat, p: ProductId)
    requires id in inventory
    ensures var s := inventory[id];
            var good := s.(borrowed := s.borrowed - q, available := s.available + q);
            good.NonNegative() ==> Conserves(inventory, inventory[id := good], p, false, 0)
    ensures var s := inventory[id];
            var bad := s.(borrowed := s.borrowed - q, damaged := s.damaged + q, total := s.total - q);
            bad.NonNegative() ==> Conserves(inventory, inventory[id := bad], p, false, 0)
  {
    hide Conserves;
    var s := inventory[id];
    var good := s.(borrowed := s.borrowed - q, available := s.available + q);
    var bad := s.(borrowed := s.borrowed - q, damaged := s.damaged + q, total := s.total - q);
    if good.NonNegative() {
      RowConserves(inventory, id, good, 0, p);
    }
    if bad.NonNegative() {
      RowConserves(inventory, id, bad, 0, p);
    }
  }

  lemma ReturnableVerifyReturnConserves(db: Db, checkout: CheckoutId, condition: Condition, p: ProductId)
    ensures Conserves(db.inventory, ReturnableVerifyReturn(db, checkout, condition).db.inventory, p, false, 0)
  {
    hide Conserves, KeepsReserved;
    NothingConserves(db.inventory, p);
    if checkout in db.issues && db.issues[checkout].product in db.inventory {
      ReturnConserves(db.inventory, db.issues[checkout].product, db.issues[checkout].quantity, p);
    }
  }

  /** A movement of order lines that passes the checks conserves. */
  lemma MovementConserves(
    inventory: Inventory, catalog: Catalog, property: PropertyId, lines: seq<Line>, m: Movement, p: ProductId)
    requires ChecksHold(Moved(inventory, catalog, property, lines, m))
    ensures Conserves(inventory, Moved(inventory, catalog, property, lines, m), p, false, 0)
  {
  }

  lemma CreateBookingOrderConserves(
    db: Db, guest: GuestId, request: BookingRequest, offers: seq<RoomOffer>, eri: Eri, newOrder: OrderId, p: ProductId)
    ensures Conserves(
              db.inventory, CreateBookingOrder(db, guest, request, offers, eri, newOrder).db.inventory, p, false, 0)
  {
    hide Conserves, Moved, ChecksHold, OrderFor, StoredRooms, ParseDateRange, Accepted, FirstError;
    NothingConserves(db.inventory, p);
    var n := |request.addons|;
    if AddonsRefusal(db, request.property, request.addons, n).None? {
      forall i | 0 <= i < n
        ensures request.addons[i].product in db.catalog
      {
        assert AddonRefusal(db, request.property, request.addons[i]).None?;
      }
      var lines := AddonLines(db.catalog, request.addons);
      if ChecksHold(Moved(db.inventory, db.catalog, request.property, lines, Reserve)) {
        MovementConserves(db.inventory, db.catalog, request.property, lines, Reserve, p);
      }
    }
  }

  lemma RollbackConserves(db: Db, eri: Eri, first: Option<OrderId>, p: ProductId)
    requires AnswersPending(db.orders, first, eri)
    ensures Conserves(db.inventory, RollbackPendingBooking(db, eri, first).db.inventory, p, false, 0)
  {
    hide Conserves, Moved, ChecksHold;
    NothingConserves(db.inventory, p);
    if eri in db.bookings {
      var lines := if first.Some? then db.orders[first.value].lines else [];
      var property := db.bookings[eri].property;
      if ChecksHold(Moved(db.inventory, db.catalog, property, lines, Release)) {
        MovementConserves(db.inventory, db.catalog, property, lines, Release, p);
      }
    }
  }

  lemma PaymentFailureConserves(db: Db, x: PaymentId, first: Option<OrderId>, p: ProductId)
    requires x in db.payments ==> AnswersPending(db.orders, first, db.payments[x].eri)
    ensures Conserves(db.inventory, HandlePaymentFailure(db, x, first).db.inventory, p, false, 0)
  {
    hide Conserves, RollbackPendingBooking, Unlinked, AnswersPending;
    NothingConserves(db.inventory, p);
    if x in db.payments {
      RollbackConserves(SetPayment(db, x, Failed), db.payments[x].eri, first, p);
    }
  }

  lemma FulfilBookingConserves(db: Db, x: PaymentId, first: Option<OrderId>, p: ProductId)
    requires x in db.payments && AnswersPending(db.orders, first, db.payments[x].eri)
    ensures Conserves(db.inventory, FulfilBookingOrder(db, x, first).db.inventory, p, false, 0)
  {
    hide Conserves, Moved, ChecksHold, Confirming, FreezesOrders, KeepsBorrowed, OnlyStatusOf;
    NothingConserves(db.inventory, p);
    if db.payments[x].eri in db.bookings {
      var lines := if first.Some? then db.orders[first.value].lines else [];
      var property := db.bookings[db.payments[x].eri].property;
      if ChecksHold(Moved(db.inventory, db.catalog, property, lines, Finalise)) {
        MovementConserves(db.inventory, db.catalog, property, lines, Finalise, p);
      }
    }
  }

  lemma FulfilAddonsConserves(db: Db, x: PaymentId, first: Option<OrderId>, p: ProductId)
    requires x in db.payments && AnswersPayment(db.orders, first, x)
    ensures Conserves(db.inventory, FulfilAddonOrder(db, x, first).db.inventory, p, false, 0)
  {
    hide Conserves, Moved, ChecksHold, SomeLineShort;
    NothingConserves(db.inventory, p);
    if first.Some? && db.payments[x].eri in db.bookings {
      var lines, property := db.orders[first.value].lines, db.bookings[db.payments[x].eri].property;
      if ChecksHold(Moved(db.inventory, db.catalog, property, lines, Sell)) {
        MovementConserves(db.inventory, db.catalog, property, lines, Sell, p);
      }
    }
  }

  lemma FulfilConserves(db: Db, x: PaymentId, first: Option<OrderId>, p: ProductId)
    requires x in db.payments ==> AnswersFulfil(db, x, first)
    ensures Conserves(db.inventory, FulfilOrder(db, x, first).db.inventory, p, false, 0)
  {
    hide Conserves, FulfilBookingOrder, FulfilAddonOrder;
    NothingConserves(db.inventory, p);
    if x in db.payments {
      if db.payments[x].purpose == ForBooking {
        FulfilBookingConserves(db, x, first, p);
      } else {
        FulfilAddonsConserves(db, x, first, p);
      }
    }
  }

  lemma StockCallConserves(db: Db, c: Call, p: ProductId)
    requires Possible(db, c) && (c.NewProduct? || c.AddStock? || c.Damage?)
    ensures Conserves(db.inventory, Perform(db, c).db.inventory, p, CreatesRow(db, c, p), Supplied(db, c, p))
  {
    hide Conserves, CreateProduct, Restock, MarkDamaged, KeepsBorrowed, KeepsReserved;
    match c
    case NewProduct(id, property, category, price, stock) =>
      CreateProductConserves(db, id, property, category, price, stock, p);
    case AddStock(id, quantity, scope) => RestockConserves(db, id, quantity, scope, p);
    case Damage(id, quantity, scope) => MarkDamagedConserves(db, id, quantity, scope, p);
  }

  lemma CheckoutCallConserves(db: Db, c: Call, p: ProductId)
    requires Possible(db, c)
    requires c.AdminLends? || c.GuestBorrows? || c.LoanReturned? || c.IssueItem? || c.ItemReturned?
    ensures Conserves(db.inventory, Perform(db, c).db.inventory, p, false, 0)
  {
    hide Conserves, BorrowableCheckout, RequestBorrowable, VerifyReturn, ReturnableIssue, ReturnableVerifyReturn,
      KeepsReserved;
    match c
    case AdminLends(id, eri, guest, scope, checkout) =>
      BorrowableCheckoutConserves(db, id, eri, guest, scope, checkout, p);
    case GuestBorrows(guest, eri, id, checkout) => RequestBorrowableConserves(db, guest, eri, id, checkout, p);
    case LoanReturned(checkout) => VerifyReturnConserves(db, checkout, p);
    case IssueItem(id, item, guest, eri, property, quantity, checkout) =>
      ReturnableIssueConserves(db, id, item, guest, eri, property, quantity, checkout, p);
    case ItemReturned(checkout, condition) => ReturnableVerifyReturnConserves(db, checkout, condition, p);
  }

  lemma BookingCallConserves(db: Db, c: Call, p: ProductId)
    requires Possible(db, c) && (c.Book? || c.PaymentFails? || c.PaymentCaptured?)
    ensures Conserves(db.inventory, Perform(db, c).db.inventory, p, false, 0)
  {
    hide Conserves, CreateBookingOrder, HandlePaymentFailure, FulfilOrder, FreezesOrders, KeepsBorrowed, OnlyStatusOf,
      AnswersPending;
    match c
    case Book(guest, request, offers, eri, newOrder) =>
      CreateBookingOrderConserves(db, guest, request, offers, eri, newOrder, p);
    case PaymentFails(x, first) => PaymentFailureConserves(db, x, first, p);
    case PaymentCaptured(x, first) => FulfilConserves(db, x, first, p);
  }

  lemma StepConserves(db: Db, c: Call, p: ProductId)
    requires Possible(db, c)
    ensures Conserves(db.inventory, Perform(db, c).db.inventory, p, CreatesRow(db, c, p), Supplied(db, c, p))
  {
    hide Conserves, Perform, Possible;
    if c.NewProduct? || c.AddStock? || c.Damage? {
      StockCallConserves(db, c, p);
    } else if c.Book? || c.PaymentFails? || c.PaymentCaptured? {
      BookingCallConserves(db, c, p);
    } else if LeavesStock(c) {
      Frame(db, c);
      NothingConserves(db.inventory, p);
    } else {
      CheckoutCallConserves(db, c, p);
    }
  }

  lemma NothingConserves(inventory: Inventory, p: ProductId)
    ensures Conserves(inventory, inventory, p, false, 0)
  {
  }

  /**
   * After any run the balance of every product is what it was, and what is held or written off has
   * grown exactly by the initial stock and the restocks of the run.
   */
  lemma {:induction false} RunConserves(db: Db, calls: seq<Call>, p: ProductId)
    requires PossibleRun(db, calls)
    ensures var after := After(db, calls).inventory;
            && (p in db.inventory ==> p in after)
            && Imbalance(after, p) == Imbalance(db.inventory, p)
            && Held(after, p) == Held(db.inventory, p) + SuppliedOver(db, calls, p)
            && (ChecksHold(db.inventory) ==> ChecksHold(after))
    decreases |calls|
  {
    hide Perform, Possible;
    if calls != [] {
      StepConserves(db, calls[0], p);
      RunConserves(Perform(db, calls[0]).db, calls[1..], p);
    }
  }

  /**
   * Starting from empty tables: the total is the sum of the four places a unit can be in, total and
   * damaged add up to everything ever supplied, and no counter is negative, the total included.
   */
  lemma StockIsConserved(properties: set<PropertyId>, guests: set<GuestId>, calls: seq<Call>, p: ProductId)
    requires PossibleRun(Empty(properties, guests), calls)
    requires p in After(Empty(properties, guests), calls).inventory
    ensures var s := After(Empty(properties, guests), calls).inventory[p];
            && s.total == s.available + s.reserved + s.sold + s.borrowed
            && s.total + s.damaged == SuppliedOver(Empty(properties, guests), calls, p)
            && s.NonNegative() && s.total >= 0
  {
    RunConserves(Empty(properties, guests), calls, p);
  }
}
