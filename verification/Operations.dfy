/**
 * What each service call does to the tables. A call commits all of its effect, part of it where
 * the program runs several transactions, or none; which of these happened is its outcome. An argument
 * named `first` is the row that a `findFirst` without ordering returned; new identifiers are
 * arguments too.
 */
module Operations {
  import opened Wrappers
  import opened RoomOrders
  import opened Tables
  import Sums

  datatype Refusal = NotFound | BadRequest | Forbidden | ConstraintViolated

  datatype Outcome =
    | Done
    | Refused(why: Refusal)
    | Booked(roomTotal: nat, addonTotal: nat, addonOrder: Option<OrderId>)
    | PaymentOpened(amount: int)
    | AlreadyCaptured
    | AlreadyFailed
    | AddonsFulfilled
    | NeedsRefund
    | BookingConfirmed
    | BookingWasConfirmed

  datatype Reply = Reply(db: Db, outcome: Outcome)

  ghost function Refuse(db: Db, why: Refusal): Reply
  {
    Reply(db, Refused(why))
  }

  // ---------------------------------------------------------------- answers of the database

  ghost predicate MatchesCart(orders: map<OrderId, Order>, o: OrderId, eri: Eri, guest: GuestId)
  {
    o in orders && orders[o].eri == eri && orders[o].guest == guest && orders[o].status == Pending
  }

  ghost predicate MatchesPending(orders: map<OrderId, Order>, o: OrderId, eri: Eri)
  {
    o in orders && orders[o].eri == eri && orders[o].status == Pending
  }

  ghost predicate MatchesPayment(orders: map<OrderId, Order>, o: OrderId, x: PaymentId)
  {
    o in orders && orders[o].payment == Some(x)
  }

  /** `first` is a possible answer of a search for a guest's open order of a reservation. */
  ghost predicate AnswersCart(orders: map<OrderId, Order>, first: Option<OrderId>, eri: Eri, guest: GuestId)
  {
    match first
    case Some(o) => MatchesCart(orders, o, eri, guest)
    case None => forall o :: !MatchesCart(orders, o, eri, guest)
  }

  ghost predicate AnswersPending(orders: map<OrderId, Order>, first: Option<OrderId>, eri: Eri)
  {
    match first
    case Some(o) => MatchesPending(orders, o, eri)
    case None => forall o :: !MatchesPending(orders, o, eri)
  }

  ghost predicate AnswersPayment(orders: map<OrderId, Order>, first: Option<OrderId>, x: PaymentId)
  {
    match first
    case Some(o) => MatchesPayment(orders, o, x)
    case None => forall o :: !MatchesPayment(orders, o, x)
  }

  /** The lines of the open order that was found, if any. */
  ghost function FoundLines(orders: map<OrderId, Order>, first: Option<OrderId>): seq<Line>
    requires first.Some? ==> first.value in orders
  {
    if first.Some? then orders[first.value].lines else []
  }

  /** An answer is an open order of the reservation. */
  lemma FoundExists(orders: map<OrderId, Order>, first: Option<OrderId>, eri: Eri)
    requires AnswersPending(orders, first, eri)
    ensures first.Some? ==> MatchesPending(orders, first.value, eri)
  {
  }

  ghost predicate HasAccess(db: Db, guest: GuestId, eri: Eri)
  {
    (eri, guest) in db.access && eri in db.bookings
  }

  function LinePrice(unitPrice: nat, quantity: nat): nat
  {
    unitPrice * quantity
  }

  function LinesTotal(lines: seq<Line>): nat
  {
    if lines == [] then 0 else LinesTotal(lines[..|lines| - 1]) + lines[|lines| - 1].totalPrice
  }

  /** The first line with the id, or the length. */
  function LineIndex(lines: seq<Line>, id: nat): (i: nat)
    ensures i <= |lines|
    ensures i < |lines| ==> lines[i].id == id
    ensures forall j | 0 <= j < i :: lines[j].id != id
  {
    if lines == [] || lines[0].id == id then 0
    else
      var rest := LineIndex(lines[1..], id);
      assert forall j | 0 <= j < rest :: lines[1..][j] == lines[j + 1];
      rest + 1
  }

  /** A commodity line that is not covered by the stock of its row. */
  predicate LineShort(inventory: Inventory, catalog: Catalog, property: PropertyId, line: Line)
  {
    && IsCommodity(catalog, line.product)
    && (!HasRow(inventory, line.product, property) || inventory[line.product].available < line.quantity)
  }

  ghost predicate SomeLineShort(inventory: Inventory, catalog: Catalog, property: PropertyId, lines: seq<Line>)
  {
    exists i | 0 <= i < |lines| :: LineShort(inventory, catalog, property, lines[i])
  }

  ghost predicate KeepsBorrowed(before: Inventory, after: Inventory)
  {
    forall p | p in before :: p in after && after[p].borrowed == before[p].borrowed
  }

  lemma MovedKeepsBorrowed(
    inventory: Inventory, catalog: Catalog, property: PropertyId, lines: seq<Line>, m: Movement)
    ensures KeepsBorrowed(inventory, Moved(inventory, catalog, property, lines, m))
  {
  }

  ghost predicate KeepsReserved(before: Inventory, after: Inventory)
  {
    forall p | p in before :: p in after && after[p].reserved == before[p].reserved
  }

  lemma SellKeepsReserved(inventory: Inventory, catalog: Catalog, property: PropertyId, lines: seq<Line>)
    ensures KeepsReserved(inventory, Moved(inventory, catalog, property, lines, Sell))
  {
  }

  /** An order that is no longer open stays so and keeps its lines, reservation and guest. */
  ghost predicate FreezesOrders(before: map<OrderId, Order>, after: map<OrderId, Order>)
  {
    forall o | o in before && before[o].status != Pending ::
      && o in after
      && after[o] == before[o].(status := after[o].status, payment := after[o].payment)
      && after[o].status != Pending
  }

  // ---------------------------------------------------------------- administration of stock

  ghost function CreateProduct(
    db: Db, id: ProductId, property: PropertyId, category: Category, price: nat, stock: nat): (r: Reply)
    ensures id !in db.inventory ==> KeepsReserved(db.inventory, r.db.inventory)
    ensures id !in db.inventory ==> KeepsBorrowed(db.inventory, r.db.inventory)
    ensures r.db == db.(catalog := r.db.catalog, inventory := r.db.inventory)
  {
    if property !in db.properties then Refuse(db, NotFound)
    else
      var listed := db.(catalog := db.catalog[id := Product(property, category, price, true)]);
      Reply(
        if category == Service then listed
        else listed.(inventory := db.inventory[id := Stock(property, stock, stock, 0, 0, 0, 0)]),
        Done)
  }

  ghost function UpdateProduct(db: Db, id: ProductId, price: Option<nat>, active: Option<bool>): (r: Reply)
    ensures r.db == db.(catalog := r.db.catalog)
  {
    if id !in db.catalog then Refuse(db, NotFound)
    else
      var row := db.catalog[id];
      Reply(db.(catalog := db.catalog[id := row.(price := price.GetOr(row.price), active := active.GetOr(row.active))]),
            Done)
  }

  /** An administrator tied to a property finds only that property's row. */
  predicate Administers(db: Db, p: ProductId, scope: Option<PropertyId>)
  {
    p in db.inventory && (scope.Some? ==> db.inventory[p].property == scope.value)
  }

  ghost function Restock(db: Db, p: ProductId, quantity: nat, scope: Option<PropertyId>): (r: Reply)
    ensures KeepsReserved(db.inventory, r.db.inventory)
    ensures KeepsBorrowed(db.inventory, r.db.inventory)
    ensures r.db == db.(inventory := r.db.inventory)
  {
    if !Administers(db, p, scope) then Refuse(db, NotFound)
    else
      var s := db.inventory[p];
      Reply(db.(inventory := db.inventory[p := s.(total := s.total + quantity, available := s.available + quantity)]),
            Done)
  }

  ghost function MarkDamaged(db: Db, p: ProductId, quantity: nat, scope: Option<PropertyId>): (r: Reply)
    ensures KeepsReserved(db.inventory, r.db.inventory)
    ensures KeepsBorrowed(db.inventory, r.db.inventory)
    ensures r.db == db.(inventory := r.db.inventory)
  {
    if !Administers(db, p, scope) then Refuse(db, NotFound)
    else
      var s := db.inventory[p];
      if s.available < quantity then Refuse(db, BadRequest)
      else
        Reply(db.(inventory := db.inventory[p := s.(
                    available := s.available - quantity, total := s.total - quantity,
                    damaged := s.damaged + quantity)]),
              Done)
  }

  // ---------------------------------------------------------------- loans and issues

  ghost function Lend(db: Db, p: ProductId, eri: Eri, guest: GuestId, checkout: CheckoutId): Db
    requires p in db.inventory
  {
    var s := db.inventory[p];
    db.(loans := db.loans[checkout := Loan(p, eri, guest, CheckedOutLoan)],
        inventory := db.inventory[p := s.(available := s.available - 1, borrowed := s.borrowed + 1)])
  }

  ghost function BorrowableCheckout(
    db: Db, p: ProductId, eri: Eri, guest: GuestId, scope: Option<PropertyId>, checkout: CheckoutId): (r: Reply)
    ensures KeepsReserved(db.inventory, r.db.inventory)
    ensures r.db == db.(loans := r.db.loans, inventory := r.db.inventory)
  {
    if !Administers(db, p, scope) || p !in db.catalog then Refuse(db, NotFound)
    else if db.catalog[p].category != Borrowable then Refuse(db, BadRequest)
    else if db.inventory[p].available < 1 then Refuse(db, BadRequest)
    else if guest !in db.guests || eri !in db.bookings then Refuse(db, NotFound)
    else Reply(Lend(db, p, eri, guest, checkout), Done)
  }

  /** The guest already has the item on this booking. */
  ghost predicate AlreadyBorrowed(db: Db, p: ProductId, eri: Eri, guest: GuestId)
  {
    exists c :: c in db.loans && db.loans[c] == Loan(p, eri, guest, CheckedOutLoan)
  }

  ghost function RequestBorrowable(db: Db, guest: GuestId, eri: Eri, p: ProductId, checkout: CheckoutId): (r: Reply)
    ensures KeepsReserved(db.inventory, r.db.inventory)
    ensures r.db == db.(loans := r.db.loans, inventory := r.db.inventory)
  {
    if !HasAccess(db, guest, eri) then Refuse(db, Forbidden)
    else
      var property := db.bookings[eri].property;
      if !(p in db.catalog && db.catalog[p].property == property && db.catalog[p].active
           && db.catalog[p].category == Borrowable)
      then Refuse(db, NotFound)
      else if !HasRow(db.inventory, p, property) || db.inventory[p].available <= 0 then Refuse(db, BadRequest)
      else if AlreadyBorrowed(db, p, eri, guest) then Refuse(db, BadRequest)
      else Reply(Lend(db, p, eri, guest, checkout), Done)
  }

  ghost function VerifyReturn(db: Db, checkout: CheckoutId): (r: Reply)
    ensures KeepsReserved(db.inventory, r.db.inventory)
    ensures r.db == db.(loans := r.db.loans, inventory := r.db.inventory)
  {
    if checkout !in db.loans then Refuse(db, NotFound)
    else
      var loan := db.loans[checkout];
      if loan.status == ReturnedLoan then Refuse(db, BadRequest)
      else if loan.product !in db.inventory then Refuse(db, ConstraintViolated)
      else
        var s := db.inventory[loan.product];
        var back := s.(available := s.available + 1, borrowed := s.borrowed - 1);
        if !back.NonNegative() then Refuse(db, ConstraintViolated)
        else Reply(db.(loans := db.loans[checkout := loan.(status := ReturnedLoan)],
                       inventory := db.inventory[loan.product := back]),
                   Done)
  }

  /** Units ever issued against an order item, whatever became of them. */
  ghost function IssuedUnits(issues: map<CheckoutId, Issue>, item: ItemRef): int
  {
    Sums.Sum(issues, IssuedWeight(item))
  }

  ghost function IssuedWeight(item: ItemRef): Issue -> int
  {
    (i: Issue) => if i.item == item then i.quantity else 0
  }

  ghost function ReturnableIssue(
    db: Db, p: ProductId, item: ItemRef, guest: GuestId, eri: Eri, property: PropertyId, quantity: nat,
    checkout: CheckoutId): (r: Reply)
    ensures KeepsReserved(db.inventory, r.db.inventory)
    ensures r.db == db.(issues := r.db.issues, inventory := r.db.inventory)
  {
    if !(p in db.catalog && db.catalog[p].category == Returnable && db.catalog[p].active) then Refuse(db, NotFound)
    else if !HasRow(db.inventory, p, property) then Refuse(db, NotFound)
    else if db.inventory[p].available < quantity then Refuse(db, BadRequest)
    else if item.order !in db.orders then Refuse(db, BadRequest)
    else
      var order := db.orders[item.order];
      var i := LineIndex(order.lines, item.line);
      if i == |order.lines| || order.lines[i].product != p then Refuse(db, BadRequest)
      else if order.status != Paid then Refuse(db, BadRequest)
      else if order.guest != guest then Refuse(db, BadRequest)
      else if IssuedUnits(db.issues, item) + quantity > order.lines[i].quantity then Refuse(db, BadRequest)
      else
        var s := db.inventory[p];
        Reply(db.(issues := db.issues[checkout := Issue(p, item, eri, guest, quantity, Issued)],
                  inventory := db.inventory[p := s.(
                    available := s.available - quantity, borrowed := s.borrowed + quantity)]),
              Done)
  }

  datatype Condition = Good | Damaged | Lost

  ghost function ReturnableVerifyReturn(db: Db, checkout: CheckoutId, condition: Condition): (r: Reply)
    ensures KeepsReserved(db.inventory, r.db.inventory)
    ensures r.db == db.(issues := r.db.issues, inventory := r.db.inventory)
  {
    if checkout !in db.issues then Refuse(db, NotFound)
    else
      var issue := db.issues[checkout];
      if issue.status != Issued then Refuse(db, BadRequest)
      else if issue.product !in db.inventory then Refuse(db, ConstraintViolated)
      else
        var s, q := db.inventory[issue.product], issue.quantity;
        var back := if condition == Good
                    then s.(borrowed := s.borrowed - q, available := s.available + q)
                    else s.(borrowed := s.borrowed - q, damaged := s.damaged + q, total := s.total - q);
        if !back.NonNegative() then Refuse(db, ConstraintViolated)
        else
          Reply(db.(issues := db.issues[checkout := issue.(
                      status := if condition == Lost then LostIssue else ReturnedIssue)],
                    inventory := db.inventory[issue.product := back]),
                Done)
  }

  // ---------------------------------------------------------------- carts

  /** Adding to the line of the same product and bed, or appending a new line. */
  ghost function AddLine(
    lines: seq<Line>, id: nat, p: ProductId, quantity: nat, unitPrice: nat, unitCode: string): seq<Line>
  {
    var i := SameItem(lines, p, unitCode);
    if i < |lines| then
      var q := lines[i].quantity + quantity;
      lines[i := lines[i].(quantity := q, totalPrice := LinePrice(unitPrice, q))]
    else
      lines + [Line(id, p, quantity, unitPrice, LinePrice(unitPrice, quantity), Some(unitCode))]
  }

  function SameItem(lines: seq<Line>, p: ProductId, unitCode: string): (i: nat)
    ensures i <= |lines|
    ensures i < |lines| ==> lines[i].product == p && lines[i].unitCode == Some(unitCode)
  {
    if lines == [] || (lines[0].product == p && lines[0].unitCode == Some(unitCode)) then 0
    else SameItem(lines[1..], p, unitCode) + 1
  }

  datatype AddonRequest = AddonRequest(product: ProductId, quantity: nat)

  /** The checks that a product asked for in a cart or with a booking must pass. */
  function AddonRefusal(db: Db, property: PropertyId, addon: AddonRequest): Option<Refusal>
  {
    var p := addon.product;
    if !(p in db.catalog && db.catalog[p].property == property && db.catalog[p].active) then Some(NotFound)
    else if db.catalog[p].category == Borrowable || db.catalog[p].price == 0 then Some(BadRequest)
    else if db.catalog[p].category == Commodity
            && (!HasRow(db.inventory, p, property) || db.inventory[p].available < addon.quantity)
    then Some(BadRequest)
    else None
  }

  function EmptyCart(eri: Eri, guest: GuestId): Order
  {
    Order(eri, guest, None, PreArrival, Pending, [])
  }

  ghost function Filled(
    cart: Order, newLine: nat, p: ProductId, quantity: nat, unitPrice: nat, unitCode: string, checkedIn: bool)
    : (r: Order)
    ensures r == cart.(phase := r.phase, lines := r.lines) && r.phase != Booking
  {
    cart.(phase := if checkedIn then DuringStay else PreArrival,
          lines := AddLine(cart.lines, newLine, p, quantity, unitPrice, unitCode))
  }

  ghost function AddToCart(
    db: Db, guest: GuestId, eri: Eri, p: ProductId, quantity: nat, unitCode: string, checkedIn: bool,
    first: Option<OrderId>, newOrder: OrderId, newLine: nat): (r: Reply)
    requires AnswersCart(db.orders, first, eri, guest)
    ensures newOrder !in db.orders ==> FreezesOrders(db.orders, r.db.orders)
    ensures r.db == db.(orders := r.db.orders)
  {
    if !HasAccess(db, guest, eri) then Refuse(db, Forbidden)
    else
      var property := db.bookings[eri].property;
      var refusal := AddonRefusal(db, property, AddonRequest(p, quantity));
      if refusal.Some? then Refuse(db, refusal.value)
      else
        var o := first.GetOr(newOrder);
        var cart := if first.Some? then db.orders[o] else EmptyCart(eri, guest);
        Reply(db.(orders := db.orders[
                o := Filled(cart, newLine, p, quantity, db.catalog[p].price, unitCode, checkedIn)]),
              Done)
  }

  /** An addition rewrites the open order that was found as a cart, or puts a new cart. */
  lemma AdditionWrites(
    db: Db, guest: GuestId, eri: Eri, p: ProductId, quantity: nat, unitCode: string, checkedIn: bool,
    first: Option<OrderId>, newOrder: OrderId, newLine: nat)
    requires AnswersCart(db.orders, first, eri, guest)
    ensures first.Some? ==> first.value in db.orders
    ensures var r := AddToCart(db, guest, eri, p, quantity, unitCode, checkedIn, first, newOrder, newLine);
            var o := first.GetOr(newOrder);
            || r.db.orders == db.orders
            || (o in r.db.orders && r.db.orders == db.orders[o := r.db.orders[o]]
                && r.db.orders[o].phase != Booking
                && r.db.orders[o] == (if first.Some? then db.orders[o] else EmptyCart(eri, guest)).(
                     phase := r.db.orders[o].phase, lines := r.db.orders[o].lines))
  {
    hide Filled, AddonRefusal, FreezesOrders, HasAccess;
  }

  /** The checks shared by changing and removing a cart item; the reservation only gates access. */
  ghost function CartItemRefusal(db: Db, guest: GuestId, eri: Eri, item: ItemRef): Option<Refusal>
  {
    if !HasAccess(db, guest, eri) then Some(Forbidden)
    else if item.order !in db.orders then Some(NotFound)
    else if LineIndex(db.orders[item.order].lines, item.line) == |db.orders[item.order].lines| then Some(NotFound)
    else if db.orders[item.order].guest != guest then Some(Forbidden)
    else if db.orders[item.order].status != Pending then Some(BadRequest)
    else None
  }

  lemma CartItemFound(db: Db, guest: GuestId, eri: Eri, item: ItemRef)
    requires CartItemRefusal(db, guest, eri, item).None?
    ensures item.order in db.orders && db.orders[item.order].status == Pending
    ensures LineIndex(db.orders[item.order].lines, item.line) < |db.orders[item.order].lines|
  {
    hide LineIndex, HasAccess;
  }

  ghost function UpdateCartItem(db: Db, guest: GuestId, eri: Eri, item: ItemRef, quantity: nat): (r: Reply)
    ensures FreezesOrders(db.orders, r.db.orders)
    ensures r.db == db.(orders := r.db.orders)
  {
    var refusal := CartItemRefusal(db, guest, eri, item);
    if refusal.Some? then Refuse(db, refusal.value)
    else
      var order := db.orders[item.order];
      var i := LineIndex(order.lines, item.line);
      var line := order.lines[i];
      if IsCommodity(db.catalog, line.product) && line.product in db.inventory
         && db.inventory[line.product].available < quantity
      then Refuse(db, BadRequest)
      else
        var changed := line.(quantity := quantity, totalPrice := LinePrice(line.unitPrice, quantity));
        Reply(db.(orders := db.orders[item.order := order.(lines := order.lines[i := changed])]), Done)
  }

  ghost function RemoveCartItem(db: Db, guest: GuestId, eri: Eri, item: ItemRef): (r: Reply)
    ensures FreezesOrders(db.orders, r.db.orders)
    ensures r.db == db.(orders := r.db.orders)
  {
    var refusal := CartItemRefusal(db, guest, eri, item);
    if refusal.Some? then Refuse(db, refusal.value)
    else
      var order := db.orders[item.order];
      var i := LineIndex(order.lines, item.line);
      Reply(db.(orders := db.orders[item.order := order.(lines := order.lines[..i] + order.lines[i + 1..])]), Done)
  }

  /** Only the lines of the named order change. */
  ghost predicate OnlyLinesOf(o: OrderId, before: map<OrderId, Order>, after: map<OrderId, Order>)
  {
    || after == before
    || (o in before && o in after && after == before[o := before[o].(lines := after[o].lines)])
  }

  lemma ChangeWrites(db: Db, guest: GuestId, eri: Eri, item: ItemRef, quantity: nat)
    ensures OnlyLinesOf(item.order, db.orders, UpdateCartItem(db, guest, eri, item, quantity).db.orders)
  {
    hide CartItemRefusal, LineIndex, LinePrice, FreezesOrders;
    if CartItemRefusal(db, guest, eri, item).None? {
      CartItemFound(db, guest, eri, item);
    }
  }

  lemma RemovalWrites(db: Db, guest: GuestId, eri: Eri, item: ItemRef)
    ensures OnlyLinesOf(item.order, db.orders, RemoveCartItem(db, guest, eri, item).db.orders)
  {
    hide CartItemRefusal, LineIndex, FreezesOrders;
    if CartItemRefusal(db, guest, eri, item).None? {
      CartItemFound(db, guest, eri, item);
    }
  }

  // ---------------------------------------------------------------- bookings

  datatype BookingRequest = BookingRequest(
    property: PropertyId, checkin: int, checkout: int, rooms: seq<Selection>, addons: seq<AddonRequest>)

  /** The refusal of the first bad addon among the first `n`. */
  ghost function AddonsRefusal(db: Db, property: PropertyId, addons: seq<AddonRequest>, n: nat): (r: Option<Refusal>)
    requires n <= |addons|
    ensures r.None? ==> forall i | 0 <= i < n :: AddonRefusal(db, property, addons[i]).None?
  {
    if n == 0 then None
    else
      var earlier := AddonsRefusal(db, property, addons, n - 1);
      if earlier.Some? then earlier else AddonRefusal(db, property, addons[n - 1])
  }

  function AddonLine(catalog: Catalog, addon: AddonRequest, id: nat): Line
    requires addon.product in catalog
  {
    var price := catalog[addon.product].price;
    Line(id, addon.product, addon.quantity, price, LinePrice(price, addon.quantity), None)
  }

  ghost function AddonLines(catalog: Catalog, addons: seq<AddonRequest>): (lines: seq<Line>)
    requires forall i | 0 <= i < |addons| :: addons[i].product in catalog
    ensures |lines| == |addons|
    ensures forall i | 0 <= i < |addons| :: lines[i] == AddonLine(catalog, addons[i], i)
  {
    seq(|addons|, (i: nat) requires i < |addons| => AddonLine(catalog, addons[i], i))
  }

  /**
   * `offers` is the answer of the availability lookup. The rows written are the booking, the
   * booker's access, the slots and, when addons were asked for, their order; commodity units move
   * from available to reserved.
   */
  ghost function CreateBookingOrder(
    db: Db, guest: GuestId, request: BookingRequest, offers: seq<RoomOffer>, eri: Eri, newOrder: OrderId): (r: Reply)
    ensures newOrder !in db.orders ==> FreezesOrders(db.orders, r.db.orders)
    ensures KeepsBorrowed(db.inventory, r.db.inventory)
    ensures r.db == db.(bookings := r.db.bookings, access := r.db.access, slots := r.db.slots,
                         orders := r.db.orders, inventory := r.db.inventory)
  {
    var nights := ParseDateRange(request.checkin, request.checkout);
    if nights.None? || request.rooms == [] then Refuse(db, BadRequest)
    else if request.property !in db.properties then Refuse(db, NotFound)
    else if !Accepted(request.rooms, offers) then Refuse(db, RoomRefusal(request.rooms, offers))
    else
      var order := OrderFor(request.rooms, offers, nights.value);
      var refusal := AddonsRefusal(db, request.property, request.addons, |request.addons|);
      if refusal.Some? then Refuse(db, refusal.value)
      else
        var lines := AddonLines(db.catalog, request.addons);
        var reserved := Moved(db.inventory, db.catalog, request.property, lines, Reserve);
        if !ChecksHold(reserved) then Refuse(db, ConstraintViolated)
        else
          Reply(WithBooking(db, guest, request.property, order, eri, newOrder, lines).(inventory := reserved),
                Booked(order.roomTotal, LinesTotal(lines), if lines == [] then None else Some(newOrder)))
  }

  /** The orders that a booking writes. */
  lemma BookingWrites(
    db: Db, guest: GuestId, request: BookingRequest, offers: seq<RoomOffer>, eri: Eri, newOrder: OrderId)
    ensures var r := CreateBookingOrder(db, guest, request, offers, eri, newOrder);
            || r.db.orders == db.orders
            || (newOrder in r.db.orders && r.db.orders == db.orders[newOrder := r.db.orders[newOrder]]
                && r.db.orders[newOrder]
                   == Order(eri, guest, None, Booking, Pending, r.db.orders[newOrder].lines))
  {
    hide Moved, ChecksHold, StoredRooms, ParseDateRange, Accepted, RoomRefusal, Slots, AddonsRefusal, AddonLines,
      OrderFor, LinesTotal, FreezesOrders, KeepsBorrowed;
  }

  /** The booking row that a booking writes. */
  lemma BookingRowWritten(
    db: Db, guest: GuestId, request: BookingRequest, offers: seq<RoomOffer>, eri: Eri, newOrder: OrderId)
    ensures var r := CreateBookingOrder(db, guest, request, offers, eri, newOrder);
            && (r.db.bookings == db.bookings
                || (eri in r.db.bookings && r.db.bookings == db.bookings[eri := r.db.bookings[eri]]
                    && r.db.bookings[eri].status == PendingPayment && r.db.bookings[eri].reservationNo.None?))
            && r.db.payments == db.payments
  {
    hide Moved, ChecksHold, StoredRooms, ParseDateRange, Accepted, RoomRefusal, Slots, AddonsRefusal, AddonLines,
      OrderFor, LinesTotal, FreezesOrders, KeepsBorrowed;
  }

  ghost function WithBooking(
    db: Db, guest: GuestId, property: PropertyId, order: RoomOrder, eri: Eri, newOrder: OrderId, lines: seq<Line>): Db
  {
    db.(
      bookings := db.bookings[eri := BookingRow(
        property, Some(guest), PendingPayment, true, order.totalGuests, StoredRooms(order.rooms), None, None)],
      access := db.access + {(eri, guest)},
      slots := db.slots[eri := Slots(order.totalGuests, guest)],
      orders := if lines == [] then db.orders
                else db.orders[newOrder := Order(eri, guest, None, Booking, Pending, lines)])
  }

  ghost function RoomRefusal(rooms: seq<Selection>, offers: seq<RoomOffer>): Refusal
  {
    if FirstError(rooms, offers) == UnknownRoom then NotFound else BadRequest
  }

  /** Linking grants access once, creates missing slots, and takes the first free slot. */
  ghost function LinkBooking(db: Db, guest: GuestId, eri: Eri): (r: Reply)
    ensures r.db == db.(access := r.db.access, slots := r.db.slots)
  {
    if eri !in db.bookings then Refuse(db, NotFound)
    else
      var existing := if eri in db.slots then db.slots[eri] else [];
      var slots := if existing == [] then EmptySlots(db.bookings[eri].guests) else existing;
      Reply(db.(access := db.access + {(eri, guest)}, slots := db.slots[eri := AssignFirst(slots, guest)]), Done)
  }

  function EmptySlots(n: nat): (slots: seq<Slot>)
    ensures |slots| == n
  {
    seq(n, (i: nat) => Slot(i + 1, None))
  }

  function AssignFirst(slots: seq<Slot>, guest: GuestId): (filled: seq<Slot>)
    ensures |filled| == |slots|
  {
    if slots == [] then []
    else if slots[0].guest.None? then [slots[0].(guest := Some(guest))] + slots[1..]
    else [slots[0]] + AssignFirst(slots[1..], guest)
  }

  // ---------------------------------------------------------------- slots and KYC submissions

  datatype Date = Date(year: int, month: int, day: int)

  const ADULT := 18

  function AgeOn(born: Date, today: Date): int
  {
    var years := today.year - born.year;
    if today.month < born.month || (today.month == born.month && today.day < born.day) then years - 1 else years
  }

  function SlotsOf(db: Db, eri: Eri): seq<Slot>
  {
    if eri in db.slots then db.slots[eri] else []
  }

  /** The first slot with the number, or the length. */
  function SlotIndex(slots: seq<Slot>, number: nat): (i: nat)
    ensures i <= |slots|
    ensures i < |slots| ==> slots[i].number == number
    ensures forall j | 0 <= j < i :: slots[j].number != number
  {
    if slots == [] || slots[0].number == number then 0
    else
      var rest := SlotIndex(slots[1..], number);
      assert forall j | 0 <= j < rest :: slots[1..][j] == slots[j + 1];
      rest + 1
  }

  function LastNumber(slots: seq<Slot>): (n: nat)
    ensures forall slot | slot in slots :: slot.number <= n
    ensures slots != [] ==> exists slot | slot in slots :: slot.number == n
  {
    if slots == [] then 0
    else
      var n, last := LastNumber(slots[..|slots| - 1]), slots[|slots| - 1];
      assert forall slot | slot in slots :: slot in slots[..|slots| - 1] || slot == last;
      if last.number > n || |slots| == 1 then last.number else n
  }

  /** Some slot of the reservation has a KYC submission, whose foreign key keeps the slot from being deleted. */
  ghost predicate Submitted(submissions: map<SlotRef, GuestId>, eri: Eri)
  {
    exists s :: s in submissions && s.eri == eri
  }

  /** A submission is the assigned guest's, or the caller's for a free slot; a later one replaces it. */
  ghost function SubmitKyc(
    db: Db, guest: GuestId, eri: Eri, number: nat, consent: bool, born: Date, today: Date): (r: Reply)
    ensures r.db == db.(submissions := r.db.submissions)
  {
    if (eri, guest) !in db.access then Refuse(db, Forbidden)
    else
      var slots := SlotsOf(db, eri);
      var i := SlotIndex(slots, number);
      if i == |slots| then Refuse(db, NotFound)
      else if !consent || AgeOn(born, today) < ADULT then Refuse(db, BadRequest)
      else Reply(db.(submissions := db.submissions[SlotRef(eri, number) := slots[i].guest.GetOr(guest)]), Done)
  }

  ghost function AddSlot(db: Db, guest: GuestId, eri: Eri): (r: Reply)
    ensures r.db == db.(slots := r.db.slots)
  {
    if (eri, guest) !in db.access then Refuse(db, Forbidden)
    else
      var slots := SlotsOf(db, eri);
      Reply(db.(slots := db.slots[eri := slots + [Slot(LastNumber(slots) + 1, None)]]), Done)
  }

  /** The slot's submission is deleted first. */
  ghost function DeleteSlot(db: Db, guest: GuestId, eri: Eri, number: nat): (r: Reply)
    ensures r.db == db.(slots := r.db.slots, submissions := r.db.submissions)
  {
    if (eri, guest) !in db.access then Refuse(db, Forbidden)
    else
      var slots := SlotsOf(db, eri);
      var i := SlotIndex(slots, number);
      if i == |slots| then Refuse(db, NotFound)
      else
        Reply(db.(submissions := db.submissions - {SlotRef(eri, number)},
                  slots := db.slots[eri := slots[..i] + slots[i + 1..]]),
              Done)
  }

  // ---------------------------------------------------------------- payments

  /** The order is linked to the new payment, or at most loses its link. */
  ghost predicate OpensPayment(db: Db, r: Reply, guest: GuestId, eri: Eri, o: OrderId, newPayment: PaymentId)
    requires o in db.orders
  {
    if r.outcome.PaymentOpened? then
      && r.db.orders == db.orders[o := db.orders[o].(payment := Some(newPayment))]
      && r.db.payments == db.payments[newPayment := Payment(eri, guest, r.outcome.amount, ForAddons, Created)]
    else
      && r.db.payments == db.payments
      && (r.db.orders == db.orders || r.db.orders == db.orders[o := db.orders[o].(payment := None)])
  }

  /** A stale payment is unlinked even if a later check refuses. */
  ghost function OpenCartPayment(db: Db, guest: GuestId, eri: Eri, o: OrderId, newPayment: PaymentId): (r: Reply)
    requires eri in db.bookings && o in db.orders
    ensures OpensPayment(db, r, guest, eri, o, newPayment)
    ensures r.db == db.(payments := r.db.payments, orders := r.db.orders)
  {
    var cart := db.orders[o];
    var linked := if cart.payment.Some? && cart.payment.value in db.payments
                  then Some(db.payments[cart.payment.value].status) else None;
    if linked == Some(Captured) then Refuse(db, BadRequest)
    else
      var free := if linked.Some? then db.(orders := db.orders[o := cart.(payment := None)]) else db;
      var total := LinesTotal(cart.lines);
      if total <= 0 then Refuse(free, BadRequest)
      else if SomeLineShort(db.inventory, db.catalog, db.bookings[eri].property, cart.lines)
      then Refuse(free, BadRequest)
      else
        Reply(db.(payments := db.payments[newPayment := Payment(eri, guest, total, ForAddons, Created)],
                  orders := db.orders[o := cart.(payment := Some(newPayment))]),
              PaymentOpened(total))
  }

  /** Opening a payment for the guest's cart. */
  ghost function CreateOrder(
    db: Db, guest: GuestId, eri: Eri, first: Option<OrderId>, newPayment: PaymentId): (r: Reply)
    requires AnswersCart(db.orders, first, eri, guest)
    ensures if first.Some? then OpensPayment(db, r, guest, eri, first.value, newPayment)
            else r.db == db && r.outcome.Refused?
    ensures r.db == db.(payments := r.db.payments, orders := r.db.orders)
  {
    hide OpenCartPayment;
    if eri !in db.bookings then Refuse(db, NotFound)
    else if (eri, guest) !in db.access then Refuse(db, BadRequest)
    else if first.None? || db.orders[first.value].lines == [] then Refuse(db, BadRequest)
    else OpenCartPayment(db, guest, eri, first.value, newPayment)
  }

  lemma CreateOrderFreezes(db: Db, guest: GuestId, eri: Eri, first: Option<OrderId>, newPayment: PaymentId)
    requires AnswersCart(db.orders, first, eri, guest)
    ensures FreezesOrders(db.orders, CreateOrder(db, guest, eri, first, newPayment).db.orders)
  {
    hide CreateOrder;
  }

  /** The payment row is written before the link; a missing order fails only the link. */
  ghost function CreateBookingPayment(
    db: Db, guest: GuestId, eri: Eri, grandTotal: int, order: Option<OrderId>, newPayment: PaymentId): (r: Reply)
    ensures FreezesOrders(db.orders, r.db.orders)
    ensures r.db == db.(payments := r.db.payments, orders := r.db.orders)
  {
    if grandTotal <= 0 then Refuse(db, BadRequest)
    else if eri !in db.bookings then Refuse(db, ConstraintViolated)
    else
      var paying := db.(payments := db.payments[newPayment := Payment(eri, guest, grandTotal, ForBooking, Created)]);
      if order.None? then Reply(paying, PaymentOpened(grandTotal))
      else if order.value !in db.orders then Refuse(paying, NotFound)
      else
        Reply(paying.(orders := db.orders[order.value := db.orders[order.value].(payment := Some(newPayment))]),
              PaymentOpened(grandTotal))
  }

  /** The rows that opening a booking payment writes. */
  lemma BookingPaymentWrites(
    db: Db, guest: GuestId, eri: Eri, amount: int, order: Option<OrderId>, newPayment: PaymentId)
    ensures var r := CreateBookingPayment(db, guest, eri, amount, order, newPayment);
            if r.outcome.PaymentOpened? then
              && r.db.payments == db.payments[newPayment := Payment(eri, guest, amount, ForBooking, Created)]
              && (order.Some? ==>
                   order.value in db.orders
                   && r.db.orders == db.orders[order.value := db.orders[order.value].(payment := Some(newPayment))])
              && (order.None? ==> r.db.orders == db.orders)
            else
              && r.db.orders == db.orders
              && (r.db.payments == db.payments
                  || r.db.payments == db.payments[newPayment := Payment(eri, guest, amount, ForBooking, Created)])
  {
    hide FreezesOrders;
  }

  ghost function SetPayment(db: Db, x: PaymentId, status: PaymentStatus): Db
    requires x in db.payments
  {
    db.(payments := db.payments[x := db.payments[x].(status := status)])
  }

  /** No payment row is written but the status of `x`. */
  ghost predicate OnlyStatusOf(x: PaymentId, before: map<PaymentId, Payment>, after: map<PaymentId, Payment>)
  {
    x in before && x in after && after == before[x := before[x].(status := after[x].status)]
  }

  /** The open order released, slots and access dropped, the booking cancelled. */
  ghost function RolledBack(db: Db, eri: Eri, first: Option<OrderId>): (after: Db)
    requires eri in db.bookings && (first.Some? ==> first.value in db.orders)
    ensures after == db.(bookings := after.bookings, access := after.access, slots := after.slots,
                         orders := after.orders, inventory := after.inventory)
  {
    db.(inventory := Moved(
          db.inventory, db.catalog, db.bookings[eri].property, FoundLines(db.orders, first), Release),
        orders := if first.Some? then db.orders - {first.value} else db.orders,
        slots := db.slots - {eri},
        access := (set a | a in db.access && a.0 != eri),
        bookings := db.bookings[eri := db.bookings[eri].(status := Cancelled, active := false)])
  }

  /** The whole rollback, or nothing at all when a check fails or a submission keeps a slot from being deleted. */
  ghost function RollbackPendingBooking(db: Db, eri: Eri, first: Option<OrderId>): (r: Reply)
    requires AnswersPending(db.orders, first, eri)
    ensures r.db == db.(bookings := r.db.bookings, access := r.db.access, slots := r.db.slots,
                         orders := r.db.orders, inventory := r.db.inventory)
  {
    hide RolledBack, AnswersPending;
    FoundExists(db.orders, first, eri);
    if eri !in db.bookings || db.bookings[eri].status != PendingPayment then Reply(db, Done)
    else if !ChecksHold(RolledBack(db, eri, first).inventory) || Submitted(db.submissions, eri)
    then Refuse(db, ConstraintViolated)
    else Reply(RolledBack(db, eri, first), Done)
  }

  ghost predicate IsPending(db: Db, eri: Eri)
  {
    eri in db.bookings && db.bookings[eri].status == PendingPayment
  }

  lemma RollbackCases(db: Db, eri: Eri, first: Option<OrderId>)
    requires AnswersPending(db.orders, first, eri)
    ensures first.Some? ==> first.value in db.orders
    ensures !IsPending(db, eri) ==> RollbackPendingBooking(db, eri, first) == Reply(db, Done)
    ensures IsPending(db, eri) ==>
              RollbackPendingBooking(db, eri, first)
              == if ChecksHold(RolledBack(db, eri, first).inventory) && !Submitted(db.submissions, eri)
                 then Reply(RolledBack(db, eri, first), Done)
                 else Refuse(db, ConstraintViolated)
  {
    hide RolledBack, ChecksHold, Submitted;
  }

  lemma RolledBackKeeps(db: Db, eri: Eri, first: Option<OrderId>)
    requires eri in db.bookings && AnswersPending(db.orders, first, eri)
    ensures FreezesOrders(db.orders, RolledBack(db, eri, first).orders)
    ensures KeepsBorrowed(db.inventory, RolledBack(db, eri, first).inventory)
    ensures DropsOrUnlinks(db.orders, RolledBack(db, eri, first).orders)
  {
    hide Moved, KeepsBorrowed;
    MovedKeepsBorrowed(db.inventory, db.catalog, db.bookings[eri].property, FoundLines(db.orders, first), Release);
  }

  /** What a rollback keeps, whether or not it succeeds. */
  lemma RollbackKeeps(db: Db, eri: Eri, first: Option<OrderId>)
    requires AnswersPending(db.orders, first, eri)
    ensures FreezesOrders(db.orders, RollbackPendingBooking(db, eri, first).db.orders)
    ensures KeepsBorrowed(db.inventory, RollbackPendingBooking(db, eri, first).db.inventory)
    ensures DropsOrUnlinks(db.orders, RollbackPendingBooking(db, eri, first).db.orders)
  {
    hide RollbackPendingBooking, RolledBack, ChecksHold, KeepsBorrowed, FreezesOrders, DropsOrUnlinks, Submitted,
      AnswersPending;
    NothingChanges(db.orders, db.inventory);
    RollbackCases(db, eri, first);
    if IsPending(db, eri) {
      RolledBackKeeps(db, eri, first);
    }
  }

  /** Open orders paid by `x` lose their link. */
  ghost function Unlinked(orders: map<OrderId, Order>, x: PaymentId): map<OrderId, Order>
  {
    map o | o in orders ::
      if orders[o].payment == Some(x) && orders[o].status == Pending then orders[o].(payment := None) else orders[o]
  }

  /** Orders are only deleted or lose their link. */
  ghost predicate DropsOrUnlinks(before: map<OrderId, Order>, after: map<OrderId, Order>)
  {
    forall o | o in after ::
      o in before && (after[o] == before[o] || (after[o] == before[o].(payment := None) && before[o].status == Pending))
  }

  lemma NothingChanges(orders: map<OrderId, Order>, inventory: Inventory)
    ensures FreezesOrders(orders, orders)
    ensures DropsOrUnlinks(orders, orders)
    ensures KeepsBorrowed(inventory, inventory) && KeepsReserved(inventory, inventory)
  {
  }

  lemma UnlinkedKeepsOthers(orders: map<OrderId, Order>, x: PaymentId)
    ensures FreezesOrders(orders, Unlinked(orders, x)) && DropsOrUnlinks(orders, Unlinked(orders, x))
  {
  }

  /** The payment is neither captured nor failed yet. */
  predicate FailsNow(db: Db, x: PaymentId)
    requires x in db.payments
  {
    db.payments[x].status != Captured && db.payments[x].status != Failed
  }

  ghost function HandlePaymentFailure(db: Db, x: PaymentId, first: Option<OrderId>): (r: Reply)
    requires x in db.payments ==> AnswersPending(db.orders, first, db.payments[x].eri)
    ensures r.db == db.(payments := r.db.payments, bookings := r.db.bookings, access := r.db.access,
                         slots := r.db.slots, orders := r.db.orders, inventory := r.db.inventory)
  {
    hide RollbackPendingBooking, AnswersPending, Unlinked;
    if x !in db.payments then Refuse(db, NotFound)
    else
      var payment := db.payments[x];
      if payment.status == Captured then Reply(db, AlreadyCaptured)
      else if payment.status == Failed then Reply(db, AlreadyFailed)
      else
        var failed := SetPayment(db, x, Failed);
        if payment.purpose == ForBooking then RollbackPendingBooking(failed, payment.eri, first)
        else Reply(failed.(orders := Unlinked(db.orders, x)), Done)
  }

  lemma FailureUnknown(db: Db, x: PaymentId, first: Option<OrderId>)
    requires x !in db.payments
    ensures HandlePaymentFailure(db, x, first) == Refuse(db, NotFound)
  {
    hide Unlinked, RollbackPendingBooking;
  }

  /** A failure that is not final already and is of a booking's payment. */
  lemma FailureRollsBack(db: Db, x: PaymentId, first: Option<OrderId>)
    requires x in db.payments && AnswersPending(db.orders, first, db.payments[x].eri)
    requires FailsNow(db, x) && db.payments[x].purpose == ForBooking
    ensures HandlePaymentFailure(db, x, first)
            == RollbackPendingBooking(SetPayment(db, x, Failed), db.payments[x].eri, first)
  {
    hide Unlinked, RollbackPendingBooking, AnswersPending;
  }

  /** A failure of a cart's payment. */
  lemma FailureUnlinks(db: Db, x: PaymentId, first: Option<OrderId>)
    requires x in db.payments && AnswersPending(db.orders, first, db.payments[x].eri)
    requires FailsNow(db, x) && db.payments[x].purpose != ForBooking
    ensures HandlePaymentFailure(db, x, first)
            == Reply(SetPayment(db, x, Failed).(orders := Unlinked(db.orders, x)), Done)
  {
    hide Unlinked, RollbackPendingBooking, AnswersPending;
  }

  /** A captured or failed payment does not fail again. */
  lemma FailureIsFinal(db: Db, x: PaymentId, first: Option<OrderId>)
    requires x in db.payments && AnswersPending(db.orders, first, db.payments[x].eri)
    requires !FailsNow(db, x)
    ensures HandlePaymentFailure(db, x, first).db == db
    ensures HandlePaymentFailure(db, x, first).outcome
            == if db.payments[x].status == Captured then AlreadyCaptured else AlreadyFailed
  {
    hide Unlinked, RollbackPendingBooking, AnswersPending;
  }

  lemma RollingBackKeeps(db: Db, x: PaymentId, first: Option<OrderId>)
    requires x in db.payments && AnswersPending(db.orders, first, db.payments[x].eri)
    requires FailsNow(db, x) && db.payments[x].purpose == ForBooking
    ensures FailureHarmsNothing(db, HandlePaymentFailure(db, x, first).db, x)
  {
    hide HandlePaymentFailure, RollbackPendingBooking, AnswersPending, FreezesOrders, KeepsBorrowed, DropsOrUnlinks;
    FailureRollsBack(db, x, first);
    RollbackKeeps(SetPayment(db, x, Failed), db.payments[x].eri, first);
  }

  lemma UnlinkingKeeps(db: Db, x: PaymentId, first: Option<OrderId>)
    requires x in db.payments && AnswersPending(db.orders, first, db.payments[x].eri)
    requires FailsNow(db, x) && db.payments[x].purpose != ForBooking
    ensures FailureHarmsNothing(db, HandlePaymentFailure(db, x, first).db, x)
  {
    hide HandlePaymentFailure, AnswersPending, Unlinked, FreezesOrders, KeepsBorrowed, DropsOrUnlinks;
    NothingChanges(db.orders, db.inventory);
    FailureUnlinks(db, x, first);
    UnlinkedKeepsOthers(db.orders, x);
  }

  lemma FinalKeeps(db: Db, x: PaymentId, first: Option<OrderId>)
    requires x in db.payments && AnswersPending(db.orders, first, db.payments[x].eri)
    requires !FailsNow(db, x)
    ensures FailureHarmsNothing(db, HandlePaymentFailure(db, x, first).db, x)
  {
    hide HandlePaymentFailure, AnswersPending, FreezesOrders, KeepsBorrowed, DropsOrUnlinks;
    NothingChanges(db.orders, db.inventory);
    FailureIsFinal(db, x, first);
  }

  ghost predicate FailureHarmsNothing(db: Db, after: Db, x: PaymentId)
  {
    && FreezesOrders(db.orders, after.orders)
    && KeepsBorrowed(db.inventory, after.inventory)
    && DropsOrUnlinks(db.orders, after.orders)
    && OnlyStatusOf(x, db.payments, after.payments)
  }

  /** What a failure keeps. */
  lemma FailureKeeps(db: Db, x: PaymentId, first: Option<OrderId>)
    requires x in db.payments && AnswersPending(db.orders, first, db.payments[x].eri)
    ensures FailureHarmsNothing(db, HandlePaymentFailure(db, x, first).db, x)
  {
    hide HandlePaymentFailure, AnswersPending, FailureHarmsNothing;
    if !FailsNow(db, x) {
      FinalKeeps(db, x, first);
    } else if db.payments[x].purpose == ForBooking {
      RollingBackKeeps(db, x, first);
    } else {
      UnlinkingKeeps(db, x, first);
    }
  }

  ghost function Closed(orders: map<OrderId, Order>, o: OrderId, status: OrderStatus): map<OrderId, Order>
    requires o in orders
  {
    orders[o := orders[o].(status := status)]
  }

  lemma ClosingFreezes(orders: map<OrderId, Order>, o: OrderId, status: OrderStatus)
    requires o in orders && status != Pending
    ensures FreezesOrders(orders, Closed(orders, o, status))
  {
  }

  /** The rows a confirmation writes besides the stock. */
  ghost function Confirming(db: Db, x: PaymentId, first: Option<OrderId>): (after: Db)
    requires x in db.payments && AnswersPending(db.orders, first, db.payments[x].eri)
    requires db.payments[x].eri in db.bookings
    ensures after == db.(payments := after.payments, bookings := after.bookings, orders := after.orders)
  {
    var eri := db.payments[x].eri;
    SetPayment(db, x, Captured).(
      bookings := db.bookings[eri := db.bookings[eri].(status := Confirmed)],
      orders := if first.Some? then Closed(db.orders, first.value, Paid) else db.orders)
  }

  /** Confirm the booking, move the open order from reserved to sold, capture the payment. */
  ghost function FulfilBookingOrder(db: Db, x: PaymentId, first: Option<OrderId>): (r: Reply)
    requires x in db.payments && AnswersPending(db.orders, first, db.payments[x].eri)
    ensures r.db == db.(payments := r.db.payments, bookings := r.db.bookings, orders := r.db.orders,
                         inventory := r.db.inventory)
  {
    hide Moved, ChecksHold, Confirming, AnswersPending;
    FoundExists(db.orders, first, db.payments[x].eri);
    var eri := db.payments[x].eri;
    if eri !in db.bookings then Refuse(db, NotFound)
    else
      var booking := db.bookings[eri];
      if booking.status == Confirmed then Reply(SetPayment(db, x, Captured), BookingWasConfirmed)
      else
        var lines := FoundLines(db.orders, first);
        var sold := Moved(db.inventory, db.catalog, booking.property, lines, Finalise);
        if !ChecksHold(sold) then Refuse(db, ConstraintViolated)
        else
          Reply(Confirming(db, x, first).(inventory := sold), BookingConfirmed)
  }

  /** The rows that a booking's capture writes. */
  lemma CaptureWrites(db: Db, x: PaymentId, first: Option<OrderId>)
    requires x in db.payments && AnswersPending(db.orders, first, db.payments[x].eri)
    ensures var r := FulfilBookingOrder(db, x, first);
            if r.outcome == BookingConfirmed then
              && db.payments[x].eri in db.bookings
              && r.db.inventory == Moved(
                   db.inventory, db.catalog, db.bookings[db.payments[x].eri].property, FoundLines(db.orders, first),
                   Finalise)
              && r.db.payments == db.payments[x := db.payments[x].(status := Captured)]
              && (r.db.orders == if first.Some? then Closed(db.orders, first.value, Paid) else db.orders)
              && r.db.bookings == db.bookings[
                   db.payments[x].eri := db.bookings[db.payments[x].eri].(status := Confirmed)]
            else
              && r.db.orders == db.orders && r.db.bookings == db.bookings && r.db.inventory == db.inventory
              && (r.db.payments == db.payments
                  || r.db.payments == db.payments[x := db.payments[x].(status := Captured)])
  {
    hide Moved, ChecksHold;
  }

  lemma CaptureOutcome(db: Db, x: PaymentId, first: Option<OrderId>)
    requires x in db.payments && AnswersPending(db.orders, first, db.payments[x].eri)
    requires db.payments[x].eri in db.bookings
    ensures first.Some? ==> first.value in db.orders
    ensures var r, booking := FulfilBookingOrder(db, x, first), db.bookings[db.payments[x].eri];
            if booking.status == Confirmed then r == Reply(SetPayment(db, x, Captured), BookingWasConfirmed)
            else
              var moved := Moved(
                db.inventory, db.catalog, booking.property, FoundLines(db.orders, first), Finalise);
              r.outcome == if ChecksHold(moved) then BookingConfirmed else Refused(ConstraintViolated)
  {
    hide Moved, ChecksHold, Confirming;
  }

  /** What a booking's capture keeps. */
  lemma CaptureKeeps(db: Db, x: PaymentId, first: Option<OrderId>)
    requires x in db.payments && AnswersPending(db.orders, first, db.payments[x].eri)
    ensures FreezesOrders(db.orders, FulfilBookingOrder(db, x, first).db.orders)
    ensures KeepsBorrowed(db.inventory, FulfilBookingOrder(db, x, first).db.inventory)
    ensures OnlyStatusOf(x, db.payments, FulfilBookingOrder(db, x, first).db.payments)
  {
    hide FulfilBookingOrder, FreezesOrders, KeepsBorrowed, AnswersPending;
    FoundExists(db.orders, first, db.payments[x].eri);
    CaptureWrites(db, x, first);
    NothingChanges(db.orders, db.inventory);
    if first.Some? {
      ClosingFreezes(db.orders, first.value, Paid);
    }
    if db.payments[x].eri in db.bookings {
      var property := db.bookings[db.payments[x].eri].property;
      MovedKeepsBorrowed(db.inventory, db.catalog, property, FoundLines(db.orders, first), Finalise);
    }
  }

  /** Sell the order's commodity lines, or record that a refund is needed, or change nothing. */
  ghost function FulfilAddonOrder(db: Db, x: PaymentId, first: Option<OrderId>): (r: Reply)
    requires x in db.payments && AnswersPayment(db.orders, first, x)
    ensures r.db == db.(payments := r.db.payments, orders := r.db.orders, inventory := r.db.inventory)
  {
    hide Moved, ChecksHold, SomeLineShort;
    var eri := db.payments[x].eri;
    if first.None? || eri !in db.bookings then Refuse(db, NotFound)
    else
      var o, order, property := first.value, db.orders[first.value], db.bookings[eri].property;
      if SomeLineShort(db.inventory, db.catalog, property, order.lines) then
        Reply(SetPayment(db, x, RefundNeeded).(orders := db.orders[o := order.(status := FailedStock)]), NeedsRefund)
      else
        var sold := Moved(db.inventory, db.catalog, property, order.lines, Sell);
        if !ChecksHold(sold) then Refuse(db, ConstraintViolated)
        else
          Reply(SetPayment(db, x, Captured).(inventory := sold, orders := db.orders[o := order.(status := Paid)]),
                AddonsFulfilled)
  }

  /** The rows that an addon payment's capture writes. */
  lemma AddonCaptureWrites(db: Db, x: PaymentId, first: Option<OrderId>)
    requires x in db.payments && AnswersPayment(db.orders, first, x)
    ensures var r := FulfilAddonOrder(db, x, first);
            match r.outcome
            case AddonsFulfilled =>
              && first.Some? && db.payments[x].eri in db.bookings
              && r.db == db.(
                   payments := db.payments[x := db.payments[x].(status := Captured)],
                   inventory := Moved(db.inventory, db.catalog, db.bookings[db.payments[x].eri].property,
                                      db.orders[first.value].lines, Sell),
                   orders := Closed(db.orders, first.value, Paid))
            case NeedsRefund =>
              && first.Some?
              && r.db == db.(
                   payments := db.payments[x := db.payments[x].(status := RefundNeeded)],
                   orders := Closed(db.orders, first.value, FailedStock))
            case _ => r.outcome.Refused? && r.db == db
  {
    hide Moved, ChecksHold, SomeLineShort;
  }

  /** What an addon payment's capture keeps. */
  lemma AddonCaptureKeeps(db: Db, x: PaymentId, first: Option<OrderId>)
    requires x in db.payments && AnswersPayment(db.orders, first, x)
    ensures FreezesOrders(db.orders, FulfilAddonOrder(db, x, first).db.orders)
    ensures KeepsReserved(db.inventory, FulfilAddonOrder(db, x, first).db.inventory)
    ensures KeepsBorrowed(db.inventory, FulfilAddonOrder(db, x, first).db.inventory)
    ensures OnlyStatusOf(x, db.payments, FulfilAddonOrder(db, x, first).db.payments)
  {
    hide FulfilAddonOrder, Moved, KeepsReserved, KeepsBorrowed, FreezesOrders;
    AddonCaptureWrites(db, x, first);
    NothingChanges(db.orders, db.inventory);
    if FulfilAddonOrder(db, x, first).outcome == AddonsFulfilled {
      var property, lines := db.bookings[db.payments[x].eri].property, db.orders[first.value].lines;
      ClosingFreezes(db.orders, first.value, Paid);
      MovedKeepsBorrowed(db.inventory, db.catalog, property, lines, Sell);
      SellKeepsReserved(db.inventory, db.catalog, property, lines);
    } else if FulfilAddonOrder(db, x, first).outcome == NeedsRefund {
      ClosingFreezes(db.orders, first.value, FailedStock);
    }
  }

  /** A captured payment, reported by the browser, the webhook or the simulator. */
  ghost function FulfilOrder(db: Db, x: PaymentId, first: Option<OrderId>): (r: Reply)
    requires x in db.payments ==> AnswersFulfil(db, x, first)
    ensures FreezesOrders(db.orders, r.db.orders)
    ensures KeepsBorrowed(db.inventory, r.db.inventory)
    ensures if x in db.payments then OnlyStatusOf(x, db.payments, r.db.payments) else r.db == db
    ensures r.db == db.(payments := r.db.payments, bookings := r.db.bookings, orders := r.db.orders,
                         inventory := r.db.inventory)
  {
    hide FulfilBookingOrder, FulfilAddonOrder, FreezesOrders, KeepsBorrowed, KeepsReserved;
    NothingChanges(db.orders, db.inventory);
    if x !in db.payments then Refuse(db, NotFound)
    else if db.payments[x].status == Captured then Reply(db, AlreadyCaptured)
    else if db.payments[x].purpose == ForBooking then CaptureKeeps(db, x, first); FulfilBookingOrder(db, x, first)
    else AddonCaptureKeeps(db, x, first); FulfilAddonOrder(db, x, first)
  }

  ghost predicate AnswersFulfil(db: Db, x: PaymentId, first: Option<OrderId>)
    requires x in db.payments
  {
    if db.payments[x].purpose == ForBooking then AnswersPending(db.orders, first, db.payments[x].eri)
    else AnswersPayment(db.orders, first, x)
  }
}
