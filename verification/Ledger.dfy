/**
 * What every call keeps, separated or not: balanced and checked rows, references that resolve, borrowed
 * counters that count what is out, entitlements that are not overdrawn; and how supply accounts for stock.
 */
module Ledger {
  import opened Tables
  import opened Operations
  import opened Runs
  import opened Conservation
  import opened Coupling
  import opened Integrity
  import opened SlotIntegrity
  import opened Payments
  import opened Borrowing
  import opened Entitlement

  /** Units brought into circulation so far. */
  type Supply = map<ProductId, nat>

  /** Every unit of every row is in exactly one place. */
  ghost predicate Balanced(inventory: Inventory)
  {
    forall p | p in inventory :: inventory[p].Imbalance() == 0
  }

  ghost predicate Sound(db: Db)
  {
    && ChecksHold(db.inventory) && Balanced(db.inventory)
    && Fits(db) && SlotsFit(db) && PaymentsFit(db) && LinksKnown(db)
    && BorrowingCoupled(db) && NeverOverIssued(db)
  }

  /** Total and damaged add up to what was supplied. */
  ghost predicate Accounts(inventory: Inventory, supplied: Supply)
  {
    forall p | p in inventory :: p in supplied && inventory[p].total + inventory[p].damaged == supplied[p]
  }

  ghost function SupplyAfter(db: Db, c: Call, supplied: Supply): Supply
    requires Possible(db, c)
  {
    match c
    case NewProduct(id, _, category, _, stock) =>
      if category != Service && Perform(db, c).outcome == Done then supplied[id := stock] else supplied
    case AddStock(p, quantity, _) =>
      if Perform(db, c).outcome == Done && p in supplied then supplied[p := supplied[p] + quantity] else supplied
    case _ => supplied
  }

  lemma SoundChecks(db: Db)
    requires Sound(db)
    ensures ChecksHold(db.inventory)
  {
  }

  lemma RowIsSupplied(inventory: Inventory, supplied: Supply, p: ProductId)
    requires Accounts(inventory, supplied) && p in inventory
    ensures p in supplied
  {
  }

  lemma EmptyIsSound(properties: set<PropertyId>, guests: set<GuestId>)
    ensures Sound(Empty(properties, guests)) && Accounts(Empty(properties, guests).inventory, map[])
  {
  }

  /** A row that a call leaves behind was there and is accounted for, or is the row of a new product. */
  lemma RowAccounted(db: Db, c: Call, supplied: Supply, p: ProductId)
    requires Possible(db, c) && Accounts(db.inventory, supplied) && p in Perform(db, c).db.inventory
    ensures p in SupplyAfter(db, c, supplied)
    ensures Perform(db, c).db.inventory[p].total + Perform(db, c).db.inventory[p].damaged
            == SupplyAfter(db, c, supplied)[p]
  {
    hide Perform;
    StepConserves(db, c, p);
  }

  lemma StepKeepsRows(db: Db, c: Call)
    requires Possible(db, c) && ChecksHold(db.inventory) && Balanced(db.inventory)
    ensures ChecksHold(Perform(db, c).db.inventory) && Balanced(Perform(db, c).db.inventory)
  {
    hide Perform, Possible, ChecksHold;
    StepConserves(db, c, 0);
    forall p | p in Perform(db, c).db.inventory
      ensures Perform(db, c).db.inventory[p].Imbalance() == 0
    {
      StepConserves(db, c, p);
    }
  }

  lemma StepNeverOverIssues(db: Db, c: Call)
    requires Possible(db, c) && NeverOverIssued(db)
    ensures NeverOverIssued(Perform(db, c).db)
  {
    hide Perform, Possible, Ordered, IssuedUnits;
    StepFreezesOrders(db, c);
    forall item: ItemRef
      ensures IssuedUnits(Perform(db, c).db.issues, item) <= Ordered(Perform(db, c).db.orders, item)
    {
      StepIssues(db, c, item);
      FrozenOrdersKeepEntitlement(db.orders, Perform(db, c).db.orders, item);
    }
  }

  /** Every call, in whatever state and whatever the database answers, keeps the tables sound. */
  lemma StepKeepsSound(db: Db, c: Call)
    requires Possible(db, c) && Sound(db)
    ensures Sound(Perform(db, c).db)
  {
    hide Perform, Possible, ChecksHold, Balanced, Catalogued, OrdersFit, CheckoutsFit, SlotsFit, PaymentsFit,
      LinksKnown, BorrowingCoupled, NeverOverIssued;
    StepKeepsRows(db, c);
    StepKeepsFit(db, c);
    StepKeepsSlotsFit(db, c);
    StepKeepsPaymentsFit(db, c);
    StepKeepsLinksKnown(db, c);
    StepKeepsBorrowingCoupled(db, c);
    StepNeverOverIssues(db, c);
  }

  /** And keeps total and damaged accounted for by what was supplied. */
  lemma StepKeepsAccounts(db: Db, c: Call, supplied: Supply)
    requires Possible(db, c) && Accounts(db.inventory, supplied)
    ensures Accounts(Perform(db, c).db.inventory, SupplyAfter(db, c, supplied))
  {
    hide Perform, Possible, SupplyAfter;
    forall p | p in Perform(db, c).db.inventory
      ensures p in SupplyAfter(db, c, supplied)
      ensures Perform(db, c).db.inventory[p].total + Perform(db, c).db.inventory[p].damaged
              == SupplyAfter(db, c, supplied)[p]
    {
      RowAccounted(db, c, supplied, p);
    }
  }

  /** The state a service call leaves behind. */
  lemma CallKeeps(before: Db, c: Call, after: Db, supplied: Supply)
    requires Possible(before, c) && Sound(before) && Accounts(before.inventory, supplied)
    requires after == Perform(before, c).db
    ensures Sound(after) && Accounts(after.inventory, SupplyAfter(before, c, supplied))
  {
    hide Perform, Possible, Sound, Accounts, SupplyAfter;
    StepKeepsSound(before, c);
    StepKeepsAccounts(before, c, supplied);
  }
}
