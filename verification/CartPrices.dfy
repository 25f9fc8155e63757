/** When the total of a cart line is its unit price times its quantity. */
module CartPrices {
  import opened Tables
  import opened Operations

  ghost predicate Consistent(line: Line)
  {
    line.totalPrice == line.unitPrice * line.quantity
  }

  /**
   * Adding to a line charges all its units at today's price but keeps the line's old unit price, so
   * the line is consistent exactly when the price has not changed since the line was made.
   */
  lemma AddedLineIsConsistentExactly(
    lines: seq<Line>, id: nat, p: ProductId, quantity: nat, unitPrice: nat, unitCode: string)
    ensures var i, after := SameItem(lines, p, unitCode), AddLine(lines, id, p, quantity, unitPrice, unitCode);
            && i < |after| && after[i].product == p && after[i].totalPrice == unitPrice * after[i].quantity
            && (forall j | 0 <= j < |lines| && j != i :: after[j] == lines[j])
            && (Consistent(after[i]) <==>
                 i == |lines| || lines[i].unitPrice == unitPrice || lines[i].quantity + quantity == 0)
  {
    var i := SameItem(lines, p, unitCode);
    if i < |lines| {
      SameProduct(lines[i].unitPrice, unitPrice, lines[i].quantity + quantity);
    }
  }

  lemma SameProduct(a: nat, b: nat, q: nat)
    ensures a * q == b * q <==> a == b || q == 0
  {
    if a < b {
      assert (b - a) * q == b * q - a * q;
    } else if b < a {
      assert (a - b) * q == a * q - b * q;
    }
  }

  /** Changing the quantity makes the line consistent again, at its old unit price. */
  lemma ChangedLineIsConsistent(db: Db, guest: GuestId, eri: Eri, item: ItemRef, quantity: nat)
    requires UpdateCartItem(db, guest, eri, item, quantity).outcome == Done
    ensures var after := UpdateCartItem(db, guest, eri, item, quantity).db.orders[item.order].lines;
            var i := LineIndex(after, item.line);
            i < |after| && Consistent(after[i]) && after[i].quantity == quantity
            && after[i].unitPrice == db.orders[item.order].lines[i].unitPrice
  {
    var before := db.orders[item.order].lines;
    var after := UpdateCartItem(db, guest, eri, item, quantity).db.orders[item.order].lines;
    var i := LineIndex(before, item.line);
    assert forall j | 0 <= j < |after| :: after[j].id == before[j].id;
    assert LineIndex(after, item.line) == i;
  }
}
