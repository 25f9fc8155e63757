/** A captured addon payment is fulfilled completely, marked for refund, or aborted. */
module AddonFulfilment {
  import opened Wrappers
  import opened Tables
  import opened Operations
  import opened PaymentLaws

  /** Some product's lines together ask for more than its row has. */
  ghost predicate Exceeds(inventory: Inventory, catalog: Catalog, property: PropertyId, lines: seq<Line>)
  {
    exists p :: ExceedsAt(inventory, catalog, property, lines, p)
  }

  ghost predicate ExceedsAt(
    inventory: Inventory, catalog: Catalog, property: PropertyId, lines: seq<Line>, p: ProductId)
  {
    IsCommodity(catalog, p) && HasRow(inventory, p, property) && inventory[p].available < Units(lines, p)
  }

  lemma SellChecks(inventory: Inventory, catalog: Catalog, property: PropertyId, lines: seq<Line>)
    requires ChecksHold(inventory)
    ensures ChecksHold(Moved(inventory, catalog, property, lines, Sell))
            <==> !Exceeds(inventory, catalog, property, lines)
  {
    var sold := Moved(inventory, catalog, property, lines, Sell);
    if ChecksHold(sold) {
      forall p: ProductId
        ensures !ExceedsAt(inventory, catalog, property, lines, p)
      {
        assert p in sold ==> sold[p].NonNegative();
      }
    } else {
      var p :| p in sold && !sold[p].NonNegative();
      assert inventory[p].NonNegative();
      assert ExceedsAt(inventory, catalog, property, lines, p);
    }
  }

  /** When no line is short by itself, only products with several lines can exceed. */
  lemma DistinctNeverExceed(inventory: Inventory, catalog: Catalog, property: PropertyId, lines: seq<Line>)
    requires ChecksHold(inventory) && !SomeLineShort(inventory, catalog, property, lines)
    requires forall j, k | 0 <= j < k < |lines| :: lines[j].product != lines[k].product
    ensures !Exceeds(inventory, catalog, property, lines)
  {
    forall p: ProductId
      ensures !ExceedsAt(inventory, catalog, property, lines, p)
    {
      if exists i :: 0 <= i < |lines| && lines[i].product == p {
        var i :| 0 <= i < |lines| && lines[i].product == p;
        UnitsDistinct(lines, i);
        assert !LineShort(inventory, catalog, property, lines[i]);
      } else {
        UnitsAbsent(lines, p);
        assert p in inventory ==> inventory[p].NonNegative();
      }
    }
  }

  /** Which end it is. */
  lemma FulfilmentEnds(db: Db, x: PaymentId, o: OrderId)
    requires x in db.payments && MatchesPayment(db.orders, o, x) && ChecksHold(db.inventory)
    requires db.payments[x].eri in db.bookings
    ensures var lines := db.orders[o].lines;
            var property := db.bookings[db.payments[x].eri].property;
            FulfilAddonOrder(db, x, Some(o)).outcome
            == if SomeLineShort(db.inventory, db.catalog, property, lines) then NeedsRefund
               else if Exceeds(db.inventory, db.catalog, property, lines) then Refused(ConstraintViolated)
               else AddonsFulfilled
  {
    hide ChecksHold, SomeLineShort, Exceeds, Moved;
    SellChecks(db.inventory, db.catalog, db.bookings[db.payments[x].eri].property, db.orders[o].lines);
  }

  /** Each commodity's available goes down, and its sold up, by the sum over its lines. */
  ghost predicate SoldOut(before: Inventory, after: Inventory, catalog: Catalog, property: PropertyId, lines: seq<Line>)
  {
    && after.Keys == before.Keys
    && forall p | p in before ::
         var q := if IsCommodity(catalog, p) && before[p].property == property then Units(lines, p) else 0;
         after[p] == before[p].(available := before[p].available - q, sold := before[p].sold + q)
  }

  lemma SellingSells(inventory: Inventory, catalog: Catalog, property: PropertyId, lines: seq<Line>)
    ensures SoldOut(inventory, Moved(inventory, catalog, property, lines, Sell), catalog, property, lines)
  {
  }

  /**
   * The three ends of a fulfilment. Complete: every commodity's available goes down and its sold goes
   * up by the sum over its lines. Refund: no stock row changes. Abort: nothing changes, exactly when
   * every line passes alone and some product's lines together do not.
   */
  lemma FulfilmentIsAllOrNothing(db: Db, x: PaymentId, o: OrderId)
    requires x in db.payments && MatchesPayment(db.orders, o, x) && ChecksHold(db.inventory)
    requires db.payments[x].purpose == ForAddons && db.payments[x].status != Captured
    requires db.payments[x].eri in db.bookings
    ensures var lines := db.orders[o].lines;
            var property := db.bookings[db.payments[x].eri].property;
            var r := FulfilOrder(db, x, Some(o));
            var short := exists i | 0 <= i < |lines| :: !IsCovered(db, property, lines[i]);
            var exceeds := Exceeds(db.inventory, db.catalog, property, lines);
            && (r.outcome == NeedsRefund <==> short)
            && (r.outcome == Refused(ConstraintViolated) <==> !short && exceeds)
            && (r.outcome == AddonsFulfilled <==> !short && !exceeds)
            && (r.outcome.Refused? ==> r.db == db)
            && (r.outcome == NeedsRefund ==>
                 r.db == db.(payments := db.payments[x := db.payments[x].(status := RefundNeeded)],
                             orders := db.orders[o := db.orders[o].(status := FailedStock)]))
            && (r.outcome == AddonsFulfilled ==>
                 && r.db == db.(payments := db.payments[x := db.payments[x].(status := Captured)],
                                orders := db.orders[o := db.orders[o].(status := Paid)],
                                inventory := r.db.inventory)
                 && SoldOut(db.inventory, r.db.inventory, db.catalog, property, lines))
            && ((forall j, k | 0 <= j < k < |lines| :: lines[j].product != lines[k].product) ==>
                 r.outcome != Refused(ConstraintViolated))
  {
    hide FulfilBookingOrder, FulfilAddonOrder, FreezesOrders, KeepsBorrowed, OnlyStatusOf, ChecksHold, SomeLineShort,
      IsCovered, Exceeds, Moved, SoldOut;
    var lines := db.orders[o].lines;
    var property := db.bookings[db.payments[x].eri].property;
    ShortExactly(db, property, lines);
    FulfilmentEnds(db, x, o);
    AddonCaptureWrites(db, x, Some(o));
    SellingSells(db.inventory, db.catalog, property, lines);
    if (forall j, k | 0 <= j < k < |lines| :: lines[j].product != lines[k].product)
       && !SomeLineShort(db.inventory, db.catalog, property, lines)
    {
      DistinctNeverExceed(db.inventory, db.catalog, property, lines);
    }
  }
}
