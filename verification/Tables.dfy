/**
 * The tables behind stock, bookings, addon orders, payments and checkouts. Identifiers are numbers,
 * except reservation ids, whose "TDS-" and "EZEE-" prefixes matter. Money is in paise.
 */
module Tables {
  import opened Wrappers
  import opened RoomOrders

  type ProductId = nat
  type PropertyId = nat
  type GuestId = nat
  type OrderId = nat
  type PaymentId = nat
  type CheckoutId = nat
  type Eri = string

  datatype Category = Commodity | Service | Borrowable | Returnable

  datatype Product = Product(property: PropertyId, category: Category, price: nat, active: bool)

  /** An inventory row. Only creating a product creates one, so the product identifies it. */
  datatype Stock = Stock(
    property: PropertyId, total: int, available: int, reserved: int, sold: int, damaged: int, borrowed: int)
  {
    /** The CHECK constraints; `total_stock` has none. */
    predicate NonNegative() {
      available >= 0 && reserved >= 0 && sold >= 0 && damaged >= 0 && borrowed >= 0
    }

    /** Zero when every unit in circulation is in exactly one place. */
    function Imbalance(): int {
      total - available - reserved - sold - borrowed
    }

    function Move(m: Movement, q: int): Stock {
      match m
      case Reserve => this.(available := available - q, reserved := reserved + q)
      case Release => this.(available := available + q, reserved := reserved - q)
      case Finalise => this.(reserved := reserved - q, sold := sold + q)
      case Sell => this.(available := available - q, sold := sold + q)
    }
  }

  /** How an order's lines move units between the counters of their products. */
  datatype Movement = Reserve | Release | Finalise | Sell

  datatype Line = Line(
    id: nat, product: ProductId, quantity: nat, unitPrice: nat, totalPrice: nat, unitCode: Option<string>)

  datatype Phase = Booking | PreArrival | DuringStay

  datatype OrderStatus = Pending | Paid | FailedStock

  datatype Order = Order(
    eri: Eri, guest: GuestId, payment: Option<PaymentId>, phase: Phase, status: OrderStatus, lines: seq<Line>)

  datatype Purpose = ForBooking | ForAddons

  datatype PaymentStatus = Created | Captured | Failed | RefundNeeded

  datatype Payment = Payment(eri: Eri, guest: GuestId, amount: int, purpose: Purpose, status: PaymentStatus)

  datatype BookingStatus = PendingPayment | Confirmed | Cancelled | CheckedIn | CheckedOut | NoShow

  datatype BookingRow = BookingRow(
    property: PropertyId, guest: Option<GuestId>, status: BookingStatus, active: bool, guests: nat,
    rooms: seq<BookedRoom>, reservationNo: Option<string>, room: Option<string>)

  datatype LoanStatus = CheckedOutLoan | ReturnedLoan

  datatype Loan = Loan(product: ProductId, eri: Eri, guest: GuestId, status: LoanStatus)

  /** An order item is named by its order and its own id. */
  datatype ItemRef = ItemRef(order: OrderId, line: nat)

  datatype IssueStatus = Issued | ReturnedIssue | LostIssue

  datatype Issue = Issue(
    product: ProductId, item: ItemRef, eri: Eri, guest: GuestId, quantity: nat, status: IssueStatus)

  /** A guest slot of a reservation. */
  datatype SlotRef = SlotRef(eri: Eri, number: nat)

  type Catalog = map<ProductId, Product>
  type Inventory = map<ProductId, Stock>

  datatype Db = Db(
    properties: set<PropertyId>,
    guests: set<GuestId>,
    catalog: Catalog,
    inventory: Inventory,
    bookings: map<Eri, BookingRow>,
    access: set<(Eri, GuestId)>,
    slots: map<Eri, seq<Slot>>,
    submissions: map<SlotRef, GuestId>,
    orders: map<OrderId, Order>,
    payments: map<PaymentId, Payment>,
    loans: map<CheckoutId, Loan>,
    issues: map<CheckoutId, Issue>)

  predicate IsCommodity(catalog: Catalog, p: ProductId)
  {
    p in catalog && catalog[p].category == Commodity
  }

  /** The row that a lookup by product and property finds. */
  predicate HasRow(inventory: Inventory, p: ProductId, property: PropertyId)
  {
    p in inventory && inventory[p].property == property
  }

  predicate ChecksHold(inventory: Inventory)
  {
    forall p | p in inventory :: inventory[p].NonNegative()
  }

  /** The units one line contributes. */
  function UnitsOn(line: Line, p: ProductId): nat
  {
    if line.product == p then line.quantity else 0
  }

  /** How many units of `p` the lines ask for, over all lines of that product. */
  function Units(lines: seq<Line>, p: ProductId): nat
  {
    if lines == [] then 0
    else
      var last := lines[|lines| - 1];
      Units(lines[..|lines| - 1], p) + UnitsOn(last, p)
  }

  /** The inventory after every commodity line has moved its units at one property. */
  ghost function Moved(
    inventory: Inventory, catalog: Catalog, property: PropertyId, lines: seq<Line>, m: Movement): Inventory
  {
    map p | p in inventory ::
      if IsCommodity(catalog, p) && inventory[p].property == property
      then inventory[p].Move(m, Units(lines, p))
      else inventory[p]
  }

  // ---------------------------------------------------------------- lemmas about units

  lemma UnitsPrefix(lines: seq<Line>, k: nat, p: ProductId)
    requires k < |lines|
    ensures Units(lines[..k + 1], p)
            == Units(lines[..k], p) + UnitsOn(lines[k], p)
  {
    assert lines[..k + 1][..k] == lines[..k];
  }

  lemma {:induction false} UnitsOfPrefixAtMost(lines: seq<Line>, k: nat, p: ProductId)
    requires k <= |lines|
    ensures Units(lines[..k], p) <= Units(lines, p)
    decreases |lines| - k
  {
    if k < |lines| {
      UnitsPrefix(lines, k, p);
      UnitsOfPrefixAtMost(lines, k + 1, p);
    } else {
      assert lines[..k] == lines;
    }
  }

  lemma {:induction false} UnitsAbsent(lines: seq<Line>, p: ProductId)
    requires forall i | 0 <= i < |lines| :: lines[i].product != p
    ensures Units(lines, p) == 0
  {
    if lines != [] {
      UnitsAbsent(lines[..|lines| - 1], p);
    }
  }

  lemma UnitsAppended(lines: seq<Line>, line: Line, p: ProductId)
    ensures Units(lines + [line], p) == Units(lines, p) + UnitsOn(line, p)
  {
    assert (lines + [line])[..|lines|] == lines;
  }

  lemma {:induction false} UnitsReplaced(lines: seq<Line>, i: nat, line: Line, p: ProductId)
    requires i < |lines|
    ensures Units(lines[i := line], p) == Units(lines, p) - UnitsOn(lines[i], p) + UnitsOn(line, p)
  {
    var n := |lines| - 1;
    if i == n {
      assert lines[i := line][..n] == lines[..n];
    } else {
      UnitsReplaced(lines[..n], i, line, p);
      assert lines[i := line][..n] == lines[..n][i := line];
    }
  }

  lemma {:induction false} UnitsRemoved(lines: seq<Line>, i: nat, p: ProductId)
    requires i < |lines|
    ensures Units(lines[..i] + lines[i + 1..], p) == Units(lines, p) - UnitsOn(lines[i], p)
  {
    var n := |lines| - 1;
    var rest := lines[..i] + lines[i + 1..];
    if i == n {
      assert rest == lines[..n];
    } else {
      UnitsRemoved(lines[..n], i, p);
      assert rest[..n - 1] == lines[..n][..i] + lines[..n][i + 1..];
      assert rest[n - 1] == lines[n];
    }
  }

  /** With distinct products each product's units are those of its one line. */
  lemma {:induction false} UnitsDistinct(lines: seq<Line>, i: nat)
    requires i < |lines|
    requires forall j, k | 0 <= j < k < |lines| :: lines[j].product != lines[k].product
    ensures Units(lines, lines[i].product) == lines[i].quantity
  {
    if i == |lines| - 1 {
      UnitsAbsent(lines[..i], lines[i].product);
    } else {
      UnitsDistinct(lines[..|lines| - 1], i);
    }
  }

  /** Moving units never creates or destroys any. */
  lemma MovedKeepsBalance(
    inventory: Inventory, catalog: Catalog, property: PropertyId, lines: seq<Line>, m: Movement, p: ProductId)
    requires p in inventory
    ensures var moved := Moved(inventory, catalog, property, lines, m);
            && moved[p].Imbalance() == inventory[p].Imbalance()
            && moved[p].total == inventory[p].total
            && moved[p].damaged == inventory[p].damaged
            && moved[p].borrowed == inventory[p].borrowed
            && moved[p].property == inventory[p].property
  {
  }

  /** Releasing what was reserved restores every row. */
  lemma ReleaseUndoesReserve(inventory: Inventory, catalog: Catalog, property: PropertyId, lines: seq<Line>)
    ensures Moved(Moved(inventory, catalog, property, lines, Reserve), catalog, property, lines, Release) == inventory
  {
  }

  /** Reserving and then finalising sells, row by row. */
  lemma ReserveThenFinaliseSells(inventory: Inventory, catalog: Catalog, property: PropertyId, lines: seq<Line>)
    ensures Moved(Moved(inventory, catalog, property, lines, Reserve), catalog, property, lines, Finalise)
            == Moved(inventory, catalog, property, lines, Sell)
  {
  }
}
