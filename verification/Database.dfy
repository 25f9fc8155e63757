/** The mutable tables and the statements the services run on them. */
module Database {
  import opened Wrappers
  import opened RoomOrders
  import opened Tables
  import opened Operations
  import opened Runs
  import opened Ledger

  class Database {
    const properties: set<PropertyId>
    const guests: set<GuestId>
    var catalog: Catalog
    var inventory: Inventory
    var bookings: map<Eri, BookingRow>
    var access: set<(Eri, GuestId)>
    var slots: map<Eri, seq<Slot>>
    var submissions: map<SlotRef, GuestId>
    var orders: map<OrderId, Order>
    var payments: map<PaymentId, Payment>
    var loans: map<CheckoutId, Loan>
    var issues: map<CheckoutId, Issue>
    /** Units brought into circulation so far. */
    ghost var supplied: Supply

    constructor (properties: set<PropertyId>, guests: set<GuestId>)
      ensures Valid()
      ensures State() == Empty(properties, guests)
    {
      this.properties, this.guests := properties, guests;
      catalog, inventory, bookings, access, slots, submissions := map[], map[], map[], {}, map[], map[];
      orders, payments, loans, issues := map[], map[], map[], map[];
      supplied := map[];
      new;
      EmptyIsSound(properties, guests);
    }

    ghost function State(): Db
      reads this
    {
      Db(properties, guests, catalog, inventory, bookings, access, slots, submissions, orders, payments, loans, issues)
    }

    /** The CHECK constraints of the inventory table. */
    ghost predicate Checked()
      reads this
    {
      ChecksHold(inventory)
    }

    /** What holds between service calls: sound tables, and stock accounted for by what was supplied. */
    ghost predicate Valid()
      reads this
    {
      Sound(State()) && Accounts(inventory, supplied)
    }

    /** A search for a guest's open order; any match may be returned. */
    method FindCart(eri: Eri, guest: GuestId) returns (first: Option<OrderId>)
      ensures AnswersCart(orders, first, eri, guest)
      ensures first.Some? ==>
                && first.value in orders && orders[first.value].eri == eri && orders[first.value].guest == guest
                && orders[first.value].status == Pending
      ensures first.None? ==>
                forall o | o in orders && orders[o].eri == eri && orders[o].guest == guest ::
                  orders[o].status != Pending
    {
      var matching := set o | o in orders && orders[o].eri == eri && orders[o].guest == guest
                                && orders[o].status == Pending;
      if matching == {} {
        assert forall o | o in orders && orders[o].eri == eri && orders[o].guest == guest
                          && orders[o].status == Pending :: o in matching;
        return None;
      }
      var o :| o in matching;
      return Some(o);
    }

    method FindPending(eri: Eri) returns (first: Option<OrderId>)
      ensures AnswersPending(orders, first, eri)
      ensures first.Some? ==>
                first.value in orders && orders[first.value].eri == eri && orders[first.value].status == Pending
      ensures first.None? ==> forall o | o in orders && orders[o].eri == eri :: orders[o].status != Pending
    {
      var matching := set o | o in orders && orders[o].eri == eri && orders[o].status == Pending;
      if matching == {} {
        assert forall o | o in orders && orders[o].eri == eri && orders[o].status == Pending :: o in matching;
        return None;
      }
      var o :| o in matching;
      return Some(o);
    }

    method FindByPayment(x: PaymentId) returns (first: Option<OrderId>)
      ensures AnswersPayment(orders, first, x)
      ensures first.Some? ==> first.value in orders && orders[first.value].payment == Some(x)
      ensures first.None? ==> forall o | o in orders :: orders[o].payment != Some(x)
    {
      var matching := set o | o in orders && orders[o].payment == Some(x);
      if matching == {} {
        assert forall o | o in orders && orders[o].payment == Some(x) :: o in matching;
        return None;
      }
      var o :| o in matching;
      return Some(o);
    }

    /**
     * One update per commodity line, in order, as the transactions do. The first update that violates
     * a check fails the whole statement sequence, which leaves the table as it was.
     */
    method MoveLines(lines: seq<Line>, property: PropertyId, m: Movement) returns (ok: bool)
      requires Checked()
      modifies this`inventory
      ensures Checked()
      ensures ok <==> ChecksHold(Moved(old(inventory), catalog, property, lines, m))
      ensures inventory == if ok then Moved(old(inventory), catalog, property, lines, m) else old(inventory)
    {
      ghost var before := inventory;
      var saved := inventory;
      assert Moved(before, catalog, property, lines[..0], m) == before;
      for k := 0 to |lines|
        invariant inventory == Moved(before, catalog, property, lines[..k], m)
        invariant Checked()
      {
        var p, q := lines[k].product, lines[k].quantity;
        MovedNext(before, catalog, property, lines, m, k);
        if IsCommodity(catalog, p) && HasRow(inventory, p, property) {
          var row := inventory[p].Move(m, q);
          if !row.NonNegative() {
            ViolationPersists(before, catalog, property, lines, m, k);
            inventory := saved;
            return false;
          }
          inventory := inventory[p := row];
        }
      }
      assert lines[..|lines|] == lines;
      return true;
    }
  }

  method CheckAddon(db: Database, property: PropertyId, addon: AddonRequest) returns (refusal: Option<Refusal>)
    ensures refusal == AddonRefusal(db.State(), property, addon)
    ensures refusal.None? ==> addon.product in db.catalog
  {
    var p := addon.product;
    if !(p in db.catalog && db.catalog[p].property == property && db.catalog[p].active) {
      return Some(NotFound);
    }
    if db.catalog[p].category == Borrowable {
      return Some(BadRequest);
    }
    if db.catalog[p].price == 0 {
      return Some(BadRequest);
    }
    if db.catalog[p].category == Commodity {
      if !HasRow(db.inventory, p, property) || db.inventory[p].available < addon.quantity {
        return Some(BadRequest);
      }
    }
    return None;
  }

  /** Is some commodity line, by itself, not covered by the stock? */
  method SomeShort(inventory: Inventory, catalog: Catalog, property: PropertyId, lines: seq<Line>)
    returns (short: bool)
    ensures short <==> SomeLineShort(inventory, catalog, property, lines)
    ensures short <==> exists i ::
              && 0 <= i < |lines| && lines[i].product in catalog && catalog[lines[i].product].category == Commodity
              && !(lines[i].product in inventory && inventory[lines[i].product].property == property
                   && inventory[lines[i].product].available >= lines[i].quantity)
  {
    for i := 0 to |lines|
      invariant forall j | 0 <= j < i :: !LineShort(inventory, catalog, property, lines[j])
    {
      if IsCommodity(catalog, lines[i].product)
         && (!HasRow(inventory, lines[i].product, property)
             || inventory[lines[i].product].available < lines[i].quantity)
      {
        assert LineShort(inventory, catalog, property, lines[i]);
        return true;
      }
    }
    return false;
  }

  /** The effect of one more line on the moved inventory. */
  lemma MovedNext(
    before: Inventory, catalog: Catalog, property: PropertyId, lines: seq<Line>, m: Movement, k: nat)
    requires k < |lines|
    ensures var soFar := Moved(before, catalog, property, lines[..k], m);
            var p := lines[k].product;
            Moved(before, catalog, property, lines[..k + 1], m)
            == if IsCommodity(catalog, p) && HasRow(soFar, p, property)
               then soFar[p := soFar[p].Move(m, lines[k].quantity)]
               else soFar
  {
    forall p: ProductId
      ensures Units(lines[..k + 1], p) == Units(lines[..k], p) + UnitsOn(lines[k], p)
    {
      UnitsPrefix(lines, k, p);
    }
  }

  /** A counter that a prefix of the lines overdraws stays overdrawn. */
  lemma ViolationPersists(
    before: Inventory, catalog: Catalog, property: PropertyId, lines: seq<Line>, m: Movement, k: nat)
    requires k < |lines| && ChecksHold(before)
    requires IsCommodity(catalog, lines[k].product) && HasRow(before, lines[k].product, property)
    requires !Moved(before, catalog, property, lines[..k + 1], m)[lines[k].product].NonNegative()
    ensures !ChecksHold(Moved(before, catalog, property, lines, m))
  {
    var p := lines[k].product;
    UnitsOfPrefixAtMost(lines, k + 1, p);
    assert before[p].NonNegative();
    assert !Moved(before, catalog, property, lines, m)[p].NonNegative();
  }
}
