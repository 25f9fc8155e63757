/** The borrowed counter is the number of unreturned loans and issued units, whatever the calls. */
module Borrowing {
  import opened Wrappers
  import opened Sums
  import opened Tables
  import opened Operations
  import opened Runs
  import opened Conservation
  import opened Coupling

  /** One row's counter and the checkouts of its product change by the same amount. */
  lemma RowStillExplained(db: Db, after: Db, id: ProductId, row: Stock)
    requires BorrowingCoupled(db) && id in db.inventory && after.inventory == db.inventory[id := row]
    requires BorrowedUnits(after, id) - BorrowedUnits(db, id) == row.borrowed - db.inventory[id].borrowed
    requires forall p | p != id :: BorrowedUnits(after, p) == BorrowedUnits(db, p)
    ensures BorrowingCoupled(after)
  {
    forall p | p in after.inventory
      ensures CheckoutsExplain(after, p)
    {
      assert CheckoutsExplain(db, p);
    }
  }

  lemma PutLoan(db: Db, checkout: CheckoutId, loan: Loan, p: ProductId)
    ensures Sum(db.loans[checkout := loan], LoanWeight(p)) == Sum(db.loans, LoanWeight(p))
              - (if checkout in db.loans then LoanWeight(p)(db.loans[checkout]) else 0) + LoanWeight(p)(loan)
  {
    SumPut(db.loans, LoanWeight(p), checkout, loan);
  }

  lemma PutIssue(db: Db, checkout: CheckoutId, issue: Issue, p: ProductId)
    ensures Sum(db.issues[checkout := issue], OutWeight(p)) == Sum(db.issues, OutWeight(p))
              - (if checkout in db.issues then OutWeight(p)(db.issues[checkout]) else 0) + OutWeight(p)(issue)
  {
    SumPut(db.issues, OutWeight(p), checkout, issue);
  }

  lemma LendExplained(db: Db, id: ProductId, eri: Eri, guest: GuestId, checkout: CheckoutId)
    requires BorrowingCoupled(db) && id in db.inventory && checkout !in db.loans
    ensures BorrowingCoupled(Lend(db, id, eri, guest, checkout))
  {
    var after := Lend(db, id, eri, guest, checkout);
    forall p: ProductId
      ensures BorrowedUnits(after, p) == BorrowedUnits(db, p) + if p == id then 1 else 0
    {
      PutLoan(db, checkout, Loan(id, eri, guest, CheckedOutLoan), p);
    }
    RowStillExplained(db, after, id, after.inventory[id]);
  }

  lemma BorrowableCheckoutExplained(
    db: Db, id: ProductId, eri: Eri, guest: GuestId, scope: Option<PropertyId>, checkout: CheckoutId)
    requires BorrowingCoupled(db) && checkout !in db.loans
    ensures BorrowingCoupled(BorrowableCheckout(db, id, eri, guest, scope, checkout).db)
  {
    hide BorrowingCoupled, Lend;
    if id in db.inventory {
      LendExplained(db, id, eri, guest, checkout);
    }
  }

  lemma RequestBorrowableExplained(db: Db, guest: GuestId, eri: Eri, id: ProductId, checkout: CheckoutId)
    requires BorrowingCoupled(db) && checkout !in db.loans
    ensures BorrowingCoupled(RequestBorrowable(db, guest, eri, id, checkout).db)
  {
    hide BorrowingCoupled, Lend, AlreadyBorrowed;
    if id in db.inventory {
      LendExplained(db, id, eri, guest, checkout);
    }
  }

  lemma VerifyReturnExplained(db: Db, checkout: CheckoutId)
    requires BorrowingCoupled(db)
    ensures BorrowingCoupled(VerifyReturn(db, checkout).db)
  {
    hide BorrowingCoupled;
    var after := VerifyReturn(db, checkout).db;
    if after != db {
      var loan := db.loans[checkout];
      forall p: ProductId
        ensures BorrowedUnits(after, p) == BorrowedUnits(db, p) - if p == loan.product then 1 else 0
      {
        PutLoan(db, checkout, loan.(status := ReturnedLoan), p);
      }
      RowStillExplained(db, after, loan.product, after.inventory[loan.product]);
    }
  }

  lemma ReturnableIssueExplained(
    db: Db, id: ProductId, item: ItemRef, guest: GuestId, eri: Eri, property: PropertyId, quantity: nat,
    checkout: CheckoutId)
    requires BorrowingCoupled(db) && checkout !in db.issues
    ensures BorrowingCoupled(ReturnableIssue(db, id, item, guest, eri, property, quantity, checkout).db)
  {
    hide BorrowingCoupled, LineIndex, IssuedUnits;
    var after := ReturnableIssue(db, id, item, guest, eri, property, quantity, checkout).db;
    if after != db {
      forall p: ProductId
        ensures BorrowedUnits(after, p) == BorrowedUnits(db, p) + if p == id then quantity else 0
      {
        PutIssue(db, checkout, Issue(id, item, eri, guest, quantity, Issued), p);
      }
      RowStillExplained(db, after, id, after.inventory[id]);
    }
  }

  lemma ReturnableVerifyReturnExplained(db: Db, checkout: CheckoutId, condition: Condition)
    requires BorrowingCoupled(db)
    ensures BorrowingCoupled(ReturnableVerifyReturn(db, checkout, condition).db)
  {
    hide BorrowingCoupled;
    var after := ReturnableVerifyReturn(db, checkout, condition).db;
    if after != db {
      var issue := db.issues[checkout];
      forall p: ProductId
        ensures BorrowedUnits(after, p) == BorrowedUnits(db, p) - if p == issue.product then issue.quantity else 0
      {
        PutIssue(db, checkout, after.issues[checkout], p);
      }
      RowStillExplained(db, after, issue.product, after.inventory[issue.product]);
    }
  }

  /** A call that writes no checkout and no borrowed counter. */
  lemma UntouchedExplained(db: Db, after: Db)
    requires BorrowingCoupled(db) && KeepsBorrowed(db.inventory, after.inventory)
    requires after.inventory.Keys == db.inventory.Keys && after.loans == db.loans && after.issues == db.issues
    ensures BorrowingCoupled(after)
  {
    forall p | p in after.inventory
      ensures CheckoutsExplain(after, p)
    {
      assert CheckoutsExplain(db, p);
    }
  }

  lemma CreateProductExplained(
    db: Db, id: ProductId, property: PropertyId, category: Category, price: nat, stock: nat)
    requires BorrowingCoupled(db) && CheckoutsFit(db) && id !in db.inventory
    ensures BorrowingCoupled(CreateProduct(db, id, property, category, price, stock).db)
  {
    hide BorrowingCoupled, CheckoutsFit, KeepsReserved, KeepsBorrowed;
    var after := CreateProduct(db, id, property, category, price, stock).db;
    NewProductExplained(db, after, id);
  }

  lemma NewProductExplained(db: Db, after: Db, id: ProductId)
    requires BorrowingCoupled(db) && CheckoutsFit(db) && id !in db.inventory
    requires after.loans == db.loans && after.issues == db.issues
    requires id in after.inventory ==> after.inventory[id].borrowed == 0
    requires after.inventory == db.inventory
             || (id in after.inventory && after.inventory == db.inventory[id := after.inventory[id]])
    ensures BorrowingCoupled(after)
  {
    SumAllZero(db.loans, LoanWeight(id));
    SumAllZero(db.issues, OutWeight(id));
    forall p | p in after.inventory
      ensures CheckoutsExplain(after, p)
    {
      if p != id {
        assert CheckoutsExplain(db, p);
      }
    }
  }

  lemma OtherCallsKeepBorrowed(db: Db, c: Call)
    requires Possible(db, c)
    requires !(c.NewProduct? || c.AdminLends? || c.GuestBorrows? || c.LoanReturned? || c.IssueItem? || c.ItemReturned?)
    ensures KeepsBorrowed(db.inventory, Perform(db, c).db.inventory)
  {
    NothingChanges(db.orders, db.inventory);
    if LeavesStock(c) {
      Frame(db, c);
      hide Perform, Possible;
    } else if c.PaymentFails? {
      FailureKeepsBorrowed(db, c.x, c.first);
      hide Possible, KeepsBorrowed, HandlePaymentFailure;
    } else {
      hide KeepsBorrowed, Restock, MarkDamaged, CreateBookingOrder, FulfilOrder;
    }
  }

  lemma FailureKeepsBorrowed(db: Db, x: PaymentId, first: Option<OrderId>)
    requires x in db.payments ==> AnswersPending(db.orders, first, db.payments[x].eri)
    ensures KeepsBorrowed(db.inventory, HandlePaymentFailure(db, x, first).db.inventory)
  {
    hide HandlePaymentFailure, AnswersPending, FreezesOrders, KeepsBorrowed, DropsOrUnlinks, OnlyStatusOf;
    if x in db.payments {
      FailureKeeps(db, x, first);
    } else {
      FailureUnknown(db, x, first);
      NothingChanges(db.orders, db.inventory);
    }
  }

  lemma OtherCallsExplained(db: Db, c: Call)
    requires Possible(db, c) && BorrowingCoupled(db)
    requires !(c.NewProduct? || c.AdminLends? || c.GuestBorrows? || c.LoanReturned? || c.IssueItem? || c.ItemReturned?)
    ensures BorrowingCoupled(Perform(db, c).db)
  {
    hide Perform, Possible, BorrowingCoupled;
    Frame(db, c);
    OtherCallsKeepBorrowed(db, c);
    forall p: ProductId
      ensures p in Perform(db, c).db.inventory <==> p in db.inventory
    {
      StepConserves(db, c, p);
    }
    UntouchedExplained(db, Perform(db, c).db);
  }

  /** No separation is needed. */
  lemma StepKeepsBorrowingCoupled(db: Db, c: Call)
    requires Possible(db, c) && BorrowingCoupled(db) && CheckoutsFit(db)
    ensures BorrowingCoupled(Perform(db, c).db)
  {
    hide BorrowingCoupled, CheckoutsFit, CreateProduct, BorrowableCheckout, RequestBorrowable, VerifyReturn,
      ReturnableIssue, ReturnableVerifyReturn;
    match c
    case NewProduct(id, property, category, price, stock) =>
      CreateProductExplained(db, id, property, category, price, stock);
    case AdminLends(p, eri, guest, scope, checkout) =>
      BorrowableCheckoutExplained(db, p, eri, guest, scope, checkout);
    case GuestBorrows(guest, eri, p, checkout) => RequestBorrowableExplained(db, guest, eri, p, checkout);
    case LoanReturned(checkout) => VerifyReturnExplained(db, checkout);
    case IssueItem(p, item, guest, eri, property, quantity, checkout) =>
      ReturnableIssueExplained(db, p, item, guest, eri, property, quantity, checkout);
    case ItemReturned(checkout, condition) => ReturnableVerifyReturnExplained(db, checkout, condition);
    case _ => OtherCallsExplained(db, c);
  }
}
