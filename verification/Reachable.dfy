/** What holds in every reachable state, with and without cart separation. */
module Reachable {
  import opened Wrappers
  import opened Sums
  import opened RoomOrders
  import opened Tables
  import opened Operations
  import opened Runs
  import opened Conservation
  import opened Coupling
  import opened Integrity
  import opened Payments
  import opened Borrowing
  import opened Exactness
  import opened Entitlement

  ghost predicate SeparatedRun(db: Db, calls: seq<Call>)
    requires PossibleRun(db, calls)
    decreases |calls|
  {
    calls == [] || (Separated(db, calls[0]) && SeparatedRun(Perform(db, calls[0]).db, calls[1..]))
  }

  lemma SeparatedCall(db: Db, c: Call, next: Db, rest: seq<Call>)
    requires Possible(db, c) && Perform(db, c).db == next && Separated(db, c)
    requires PossibleRun(next, rest) && SeparatedRun(next, rest)
    ensures PossibleRun(db, [c] + rest) && SeparatedRun(db, [c] + rest)
    ensures After(db, [c] + rest) == After(next, rest)
  {
    RunAfterCall(db, c, next, rest);
    assert ([c] + rest)[1..] == rest;
  }

  /** Separated calls through a sequence of states. */
  lemma {:induction false} SeparatedCalls(states: seq<Db>, calls: seq<Call>, k: nat)
    requires |states| == |calls| + 1 && k <= |calls|
    requires forall i | 0 <= i < |calls| ::
               Possible(states[i], calls[i]) && Perform(states[i], calls[i]).db == states[i + 1]
               && Separated(states[i], calls[i])
    ensures PossibleRun(states[k], calls[k..]) && SeparatedRun(states[k], calls[k..])
    ensures After(states[k], calls[k..]) == states[|calls|]
    decreases |calls| - k
  {
    hide Perform, Possible, Separated;
    if k == |calls| {
      assert calls[k..] == [];
    } else {
      SeparatedCalls(states, calls, k + 1);
      SeparatedCall(states[k], calls[k], states[k + 1], calls[k + 1..]);
      assert [calls[k]] + calls[k + 1..] == calls[k..];
    }
  }

  /** Without any condition on the run. */
  lemma {:induction false} RunKeepsBorrowing(db: Db, calls: seq<Call>)
    requires PossibleRun(db, calls) && Fits(db) && BorrowingCoupled(db)
    ensures Fits(After(db, calls)) && BorrowingCoupled(After(db, calls))
    decreases |calls|
  {
    hide Perform, Possible, BorrowingCoupled, Catalogued, OrdersFit, CheckoutsFit;
    if calls != [] {
      StepKeepsFit(db, calls[0]);
      StepKeepsBorrowingCoupled(db, calls[0]);
      RunKeepsBorrowing(Perform(db, calls[0]).db, calls[1..]);
    }
  }

  lemma {:induction false} RunKeepsCoupling(db: Db, calls: seq<Call>)
    requires PossibleRun(db, calls) && SeparatedRun(db, calls)
    requires Fits(db) && Linked(db) && Coupled(db)
    ensures Fits(After(db, calls)) && Linked(After(db, calls)) && Coupled(After(db, calls))
    decreases |calls|
  {
    hide Perform, Possible, Separated, Coupled, Linked, Catalogued, OrdersFit, CheckoutsFit;
    if calls != [] {
      StepKeepsFit(db, calls[0]);
      StepKeepsLinks(db, calls[0]);
      StepKeepsCoupling(db, calls[0]);
      RunKeepsCoupling(Perform(db, calls[0]).db, calls[1..]);
    }
  }

  /**
   * In every state reachable under cart separation, for every product: reserved is the sum over open
   * booking orders, sold the sum over paid orders, borrowed the unreturned loans and issued units.
   */
  lemma CountersAreExplained(properties: set<PropertyId>, guests: set<GuestId>, calls: seq<Call>, p: ProductId)
    requires PossibleRun(Empty(properties, guests), calls) && SeparatedRun(Empty(properties, guests), calls)
    requires p in After(Empty(properties, guests), calls).inventory
    ensures var db := After(Empty(properties, guests), calls);
            var s := db.inventory[p];
            && p in db.catalog
            && (db.catalog[p].category == Commodity ==>
                 s.reserved == ReservedUnits(db.orders, p) && s.sold == SoldUnits(db.orders, p))
            && (db.catalog[p].category != Commodity ==> s.reserved == 0 && s.sold == 0)
            && s.borrowed == BorrowedUnits(db, p)
  {
    RunKeepsCoupling(Empty(properties, guests), calls);
    RunKeepsBorrowing(Empty(properties, guests), calls);
    assert OrdersExplain(After(Empty(properties, guests), calls), p);
    assert CheckoutsExplain(After(Empty(properties, guests), calls), p);
  }

  /** Under cart separation every paid upsell order is linked to a captured payment. */
  lemma PaidCartsAreCaptured(properties: set<PropertyId>, guests: set<GuestId>, calls: seq<Call>, o: OrderId)
    requires PossibleRun(Empty(properties, guests), calls) && SeparatedRun(Empty(properties, guests), calls)
    requires var db := After(Empty(properties, guests), calls);
             o in db.orders && db.orders[o].phase != Booking && db.orders[o].status == Paid
    ensures var db := After(Empty(properties, guests), calls);
            && db.orders[o].payment.Some?
            && db.orders[o].payment.value in db.payments
            && db.payments[db.orders[o].payment.value].status == Captured
  {
    RunKeepsCoupling(Empty(properties, guests), calls);
    var db := After(Empty(properties, guests), calls);
    assert LinkFits(db.orders[o], db.payments);
  }

  /** In every reachable state no entitlement shown at check-in is overdrawn. */
  lemma PendingIsNeverNegative(
    properties: set<PropertyId>, guests: set<GuestId>, calls: seq<Call>, eri: Eri, row: EntitlementRow)
    requires PossibleRun(Empty(properties, guests), calls)
    requires row in GetReturnableEntitlements(After(Empty(properties, guests), calls), eri)
    ensures 0 <= row.pending <= row.ordered && row.pending + row.issued == row.ordered
  {
    RunKeepsBorrowing(Empty(properties, guests), calls);
    EntitlementsHold(properties, guests, calls);
    hide PossibleRun, After, IssuedUnits, Catalogued, CheckoutsFit, BorrowingCoupled, OrdersFit, NeverOverIssued;
    PendingWithin(After(Empty(properties, guests), calls), eri, row);
  }

  lemma PendingWithin(db: Db, eri: Eri, row: EntitlementRow)
    requires OrdersFit(db) && NeverOverIssued(db) && row in GetReturnableEntitlements(db, eri)
    ensures 0 <= row.pending <= row.ordered && row.pending + row.issued == row.ordered
  {
    hide IssuedUnits, LinesFit;
    var o, i :| o in db.orders && 0 <= i < |db.orders[o].lines| && Entitles(db, eri, o, i)
      && row == EntitlementOf(db, o, i);
    LineOfItsId(db.orders[o].lines, i);
    IssuedIsNonNegative(db, row.item);
    assert IssuedUnits(db.issues, row.item) <= Ordered(db.orders, row.item);
  }

  // ---------------------------------------------------------------- booking calls never abort

  /** An open booking order's units are all still reserved. */
  lemma OpenOrderIsReserved(db: Db, o: OrderId, p: ProductId)
    requires o in db.orders && db.orders[o].status == Pending && db.orders[o].phase == Booking
    ensures Units(db.orders[o].lines, p) <= ReservedUnits(db.orders, p)
  {
    SumAtLeast(db.orders, ReservedWeight(p), o);
  }

  lemma OpenOrderMoves(db: Db, property: PropertyId, o: OrderId, m: Movement)
    requires m == Release || m == Finalise
    requires Catalogued(db) && Coupled(db) && ChecksHold(db.inventory)
    requires o in db.orders && db.orders[o].status == Pending && db.orders[o].phase == Booking
    requires LinesFit(db.orders[o].lines, db.catalog, property)
    ensures ChecksHold(Moved(db.inventory, db.catalog, property, db.orders[o].lines, m))
  {
    var lines := db.orders[o].lines;
    forall p | p in db.inventory
      ensures Moved(db.inventory, db.catalog, property, lines, m)[p].NonNegative()
    {
      MovedAt(db, property, lines, m, p);
      OpenOrderIsReserved(db, o, p);
      assert OrdersExplain(db, p);
    }
  }

  /** Confirmed, captured, and the order that was found paid. */
  ghost predicate IsCaptured(r: Reply, eri: Eri, x: PaymentId, first: Option<OrderId>)
  {
    && (r.outcome == BookingConfirmed || r.outcome == BookingWasConfirmed)
    && eri in r.db.bookings && r.db.bookings[eri].status == Confirmed
    && x in r.db.payments && r.db.payments[x].status == Captured
    && (r.outcome == BookingConfirmed && first.Some? ==>
         first.value in r.db.orders && r.db.orders[first.value].status == Paid)
  }

  /** Under cart separation a captured booking payment always confirms its booking. */
  lemma CaptureConfirms(db: Db, x: PaymentId, first: Option<OrderId>)
    requires x in db.payments && AnswersPending(db.orders, first, db.payments[x].eri)
    requires Fits(db) && Coupled(db) && ChecksHold(db.inventory)
    requires first.Some? && first.value in db.orders ==> db.orders[first.value].phase == Booking
    requires db.payments[x].eri in db.bookings
    ensures IsCaptured(FulfilBookingOrder(db, x, first), db.payments[x].eri, x, first)
  {
    hide FulfilBookingOrder, Moved, ChecksHold, Coupled, CheckoutsFit, AnswersPending;
    FoundExists(db.orders, first, db.payments[x].eri);
    CaptureOutcome(db, x, first);
    CaptureWrites(db, x, first);
    var property := db.bookings[db.payments[x].eri].property;
    if first.Some? {
      OpenOrderMoves(db, property, first.value, Finalise);
    } else {
      NothingMoves(db, property, Finalise);
    }
  }

  /**
   * Under cart separation the rollback of a pending booking ends in one of two ways, and which one only
   * depends on whether a KYC submission refers to one of its slots.
   */
  lemma RollbackEnds(db: Db, eri: Eri, first: Option<OrderId>)
    requires AnswersPending(db.orders, first, eri)
    requires Fits(db) && Coupled(db) && ChecksHold(db.inventory)
    requires first.Some? ==> db.orders[first.value].phase == Booking
    requires IsPending(db, eri)
    ensures first.Some? ==> first.value in db.orders
    ensures RollbackPendingBooking(db, eri, first)
            == if Submitted(db.submissions, eri) then Refuse(db, ConstraintViolated)
               else Reply(RolledBack(db, eri, first), Done)
  {
    hide Moved, ChecksHold, Coupled, RollbackPendingBooking, Submitted, CheckoutsFit;
    RollbackCases(db, eri, first);
    var property := db.bookings[eri].property;
    if first.Some? {
      OpenOrderMoves(db, property, first.value, Release);
    } else {
      NothingMoves(db, property, Release);
    }
  }

  // ---------------------------------------------------------------- after a separated run

  lemma {:induction false} RunKeepsPaymentsFit(db: Db, calls: seq<Call>)
    requires PossibleRun(db, calls) && PaymentsFit(db)
    ensures PaymentsFit(After(db, calls))
    decreases |calls|
  {
    hide Perform, Possible, PaymentsFit;
    if calls != [] {
      StepKeepsPaymentsFit(db, calls[0]);
      RunKeepsPaymentsFit(Perform(db, calls[0]).db, calls[1..]);
    }
  }

  /** All that holds at the end of a separated run from empty tables. */
  lemma AfterSeparatedRun(properties: set<PropertyId>, guests: set<GuestId>, calls: seq<Call>)
    requires PossibleRun(Empty(properties, guests), calls) && SeparatedRun(Empty(properties, guests), calls)
    ensures var db := After(Empty(properties, guests), calls);
            Fits(db) && Linked(db) && Coupled(db) && PaymentsFit(db) && ChecksHold(db.inventory)
  {
    RunKeepsCoupling(Empty(properties, guests), calls);
    RunKeepsPaymentsFit(Empty(properties, guests), calls);
    var db := After(Empty(properties, guests), calls);
    forall p | p in db.inventory
      ensures db.inventory[p].NonNegative()
    {
      StockIsConserved(properties, guests, calls, p);
    }
  }

  /**
   * After any separated run, a separated capture of a booking payment never fails or aborts: the
   * booking is confirmed, the payment captured, and the order it picked paid.
   */
  lemma ReachableCaptureConfirms(
    properties: set<PropertyId>, guests: set<GuestId>, calls: seq<Call>, x: PaymentId, first: Option<OrderId>)
    requires PossibleRun(Empty(properties, guests), calls) && SeparatedRun(Empty(properties, guests), calls)
    requires var db := After(Empty(properties, guests), calls);
             && Possible(db, PaymentCaptured(x, first)) && Separated(db, PaymentCaptured(x, first))
             && x in db.payments && db.payments[x].purpose == ForBooking && db.payments[x].status != Captured
    ensures var db := After(Empty(properties, guests), calls);
            IsCaptured(Perform(db, PaymentCaptured(x, first)), db.payments[x].eri, x, first)
  {
    AfterSeparatedRun(properties, guests, calls);
    var db := After(Empty(properties, guests), calls);
    assert db.payments[x].eri in db.bookings;
    hide FulfilBookingOrder, Coupled, Linked, Catalogued, OrdersFit, CheckoutsFit, AnswersPending, PossibleRun,
      After, SeparatedRun, IsCaptured;
    CaptureConfirms(db, x, first);
  }

  /** Cancelled, with the open order gone and its units released, and without slots or access. */
  ghost predicate IsRolledBack(db: Db, after: Db, eri: Eri, first: Option<OrderId>)
    requires eri in db.bookings && (first.Some? ==> first.value in db.orders)
  {
    && eri in after.bookings && after.bookings[eri].status == Cancelled
    && (first.Some? ==> first.value !in after.orders)
    && after.inventory == Moved(
         db.inventory, db.catalog, db.bookings[eri].property, FoundLines(db.orders, first), Release)
    && eri !in after.slots && (forall a | a in after.access :: a.0 != eri)
  }

  lemma RolledBackIs(db: Db, before: Db, eri: Eri, first: Option<OrderId>)
    requires eri in db.bookings && (first.Some? ==> first.value in db.orders)
    requires before.inventory == db.inventory && before.catalog == db.catalog && before.orders == db.orders
    requires before.bookings == db.bookings
    ensures IsRolledBack(db, RolledBack(before, eri, first), eri, first)
  {
    hide Moved;
  }

  /**
   * Likewise a separated failure of a pending booking's payment marks it FAILED, and rolls the booking back if
   * and only if no KYC submission refers to one of its slots; otherwise nothing else changes.
   */
  lemma ReachableFailureCancels(
    properties: set<PropertyId>, guests: set<GuestId>, calls: seq<Call>, x: PaymentId, first: Option<OrderId>)
    requires PossibleRun(Empty(properties, guests), calls) && SeparatedRun(Empty(properties, guests), calls)
    requires var db := After(Empty(properties, guests), calls);
             && Possible(db, PaymentFails(x, first)) && Separated(db, PaymentFails(x, first)) && RollsBack(db, x)
    ensures var db := After(Empty(properties, guests), calls);
            var eri, r := db.payments[x].eri, Perform(db, PaymentFails(x, first));
            && x in r.db.payments && r.db.payments[x].status == Failed
            && (first.Some? ==> first.value in db.orders)
            && (IsRolledBack(db, r.db, eri, first) <==> !Submitted(db.submissions, eri))
            && (r.outcome == Done <==> !Submitted(db.submissions, eri))
            && (Submitted(db.submissions, eri) ==> r == Reply(SetPayment(db, x, Failed), Refused(ConstraintViolated)))
  {
    AfterSeparatedRun(properties, guests, calls);
    hide PossibleRun, After, SeparatedRun, Linked, PaymentsFit;
    FailureEnds(After(Empty(properties, guests), calls), x, first);
  }

  lemma FailureEnds(db: Db, x: PaymentId, first: Option<OrderId>)
    requires Fits(db) && Coupled(db) && ChecksHold(db.inventory) && RollsBack(db, x)
    requires AnswersPending(db.orders, first, db.payments[x].eri)
    requires first.Some? && first.value in db.orders ==> db.orders[first.value].phase == Booking
    ensures var eri, r := db.payments[x].eri, HandlePaymentFailure(db, x, first);
            && x in r.db.payments && r.db.payments[x].status == Failed
            && (first.Some? ==> first.value in db.orders)
            && (IsRolledBack(db, r.db, eri, first) <==> !Submitted(db.submissions, eri))
            && (r.outcome == Done <==> !Submitted(db.submissions, eri))
            && (Submitted(db.submissions, eri) ==> r == Reply(SetPayment(db, x, Failed), Refused(ConstraintViolated)))
  {
    hide HandlePaymentFailure, RollbackPendingBooking, RolledBack, Submitted, ChecksHold, Coupled, Catalogued,
      OrdersFit, AnswersPending;
    var failed, eri := SetPayment(db, x, Failed), db.payments[x].eri;
    FoundExists(db.orders, first, eri);
    FailureRollsBack(db, x, first);
    StatusKeepsCoupling(db, x, Failed);
    RollbackEnds(failed, eri, first);
    RolledBackIs(db, failed, eri, first);
    hide IsRolledBack, Fits;
    if Submitted(db.submissions, eri) {
      NotRolledBack(db, failed, eri, first);
    }
  }

  lemma NotRolledBack(db: Db, after: Db, eri: Eri, first: Option<OrderId>)
    requires IsPending(db, eri) && after.bookings == db.bookings && (first.Some? ==> first.value in db.orders)
    ensures !IsRolledBack(db, after, eri, first)
  {
  }

  // ---------------------------------------------------------------- exactly, over runs

  /** Reserved and sold are explained by the orders before and after every call. */
  ghost predicate AlwaysCoupled(db: Db, calls: seq<Call>)
    requires PossibleRun(db, calls)
    decreases |calls|
  {
    Coupled(db) && (calls == [] || AlwaysCoupled(Perform(db, calls[0]).db, calls[1..]))
  }

  ghost predicate HarmlessRun(db: Db, calls: seq<Call>)
    requires PossibleRun(db, calls)
    decreases |calls|
  {
    calls == [] || (Harmless(db, calls[0]) && HarmlessRun(Perform(db, calls[0]).db, calls[1..]))
  }

  lemma {:induction false} RunKeepsCouplingExactly(db: Db, calls: seq<Call>)
    requires PossibleRun(db, calls) && Fits(db) && LinksKnown(db) && Coupled(db)
    ensures AlwaysCoupled(db, calls) <==> HarmlessRun(db, calls)
    decreases |calls|
  {
    hide Perform, Possible, Coupled, LinksKnown, Catalogued, OrdersFit, CheckoutsFit, Harmless;
    if calls != [] {
      StepKeepsCouplingExactly(db, calls[0]);
      if Harmless(db, calls[0]) {
        StepKeepsFit(db, calls[0]);
        StepKeepsLinksKnown(db, calls[0]);
        RunKeepsCouplingExactly(Perform(db, calls[0]).db, calls[1..]);
      } else {
        assert !AlwaysCoupled(Perform(db, calls[0]).db, calls[1..]);
      }
    }
  }

  /** From empty tables, the counters are explained throughout a run if and only if each of its calls is harmless. */
  lemma CountersStayExplainedExactly(properties: set<PropertyId>, guests: set<GuestId>, calls: seq<Call>)
    requires PossibleRun(Empty(properties, guests), calls)
    ensures AlwaysCoupled(Empty(properties, guests), calls) <==> HarmlessRun(Empty(properties, guests), calls)
  {
    RunKeepsCouplingExactly(Empty(properties, guests), calls);
  }

  // ---------------------------------------------------------------- whatever the database answers

  lemma EmptyMoveChangesNothing(db: Db, property: PropertyId, lines: seq<Line>, m: Movement)
    requires NoCommodity(db, lines)
    ensures Moved(db.inventory, db.catalog, property, lines, m) == db.inventory
  {
  }

  lemma SafeOrderMoves(db: Db, property: PropertyId, o: OrderId, m: Movement)
    requires m == Release || m == Finalise
    requires Catalogued(db) && Coupled(db) && ChecksHold(db.inventory)
    requires o in db.orders && db.orders[o].status == Pending && OwnOrEmpty(db, o)
    requires LinesFit(db.orders[o].lines, db.catalog, property)
    ensures ChecksHold(Moved(db.inventory, db.catalog, property, db.orders[o].lines, m))
  {
    if db.orders[o].phase == Booking {
      OpenOrderMoves(db, property, o, m);
    } else {
      EmptyMoveChangesNothing(db, property, db.orders[o].lines, m);
    }
  }

  /** The capture confirms the booking and keeps the counters explained. */
  ghost predicate CapturesSafely(db: Db, x: PaymentId, first: Option<OrderId>)
    requires x in db.payments && AnswersPending(db.orders, first, db.payments[x].eri)
  {
    var r := FulfilBookingOrder(db, x, first);
    r.outcome == BookingConfirmed && Coupled(r.db)
  }

  lemma CaptureSafeFor(db: Db, x: PaymentId, first: Option<OrderId>)
    requires x in db.payments && AnswersPending(db.orders, first, db.payments[x].eri)
    requires db.payments[x].eri in db.bookings && db.bookings[db.payments[x].eri].status != Confirmed
    requires Catalogued(db) && OrdersFit(db) && Coupled(db) && ChecksHold(db.inventory)
    ensures CapturesSafely(db, x, first) <==> (first.Some? ==> OwnOrEmpty(db, first.value))
  {
    hide Moved, Coupled, ChecksHold, OwnOrEmpty;
    CaptureBookingExactly(db, x, first);
    var property := db.bookings[db.payments[x].eri].property;
    if first.None? {
      NothingMoves(db, property, Finalise);
    } else if OwnOrEmpty(db, first.value) {
      SafeOrderMoves(db, property, first.value, Finalise);
    }
  }

  /**
   * What to check before a capture: it confirms the booking with the counters explained, whichever open
   * order is found, if and only if each open order of the reservation is a booking's own or holds no
   * commodity.
   */
  lemma CaptureSafeExactly(db: Db, x: PaymentId)
    requires x in db.payments
    requires db.payments[x].eri in db.bookings && db.bookings[db.payments[x].eri].status != Confirmed
    requires Catalogued(db) && OrdersFit(db) && Coupled(db) && ChecksHold(db.inventory)
    ensures (forall first | AnswersPending(db.orders, first, db.payments[x].eri) :: CapturesSafely(db, x, first))
            <==> (forall o | MatchesPending(db.orders, o, db.payments[x].eri) :: OwnOrEmpty(db, o))
  {
    hide CapturesSafely, OwnOrEmpty, Coupled, ChecksHold, Catalogued, OrdersFit;
    forall first | AnswersPending(db.orders, first, db.payments[x].eri)
      ensures CapturesSafely(db, x, first) <==> (first.Some? ==> OwnOrEmpty(db, first.value))
    {
      CaptureSafeFor(db, x, first);
    }
    assert forall o | MatchesPending(db.orders, o, db.payments[x].eri) ::
      AnswersPending(db.orders, Some(o), db.payments[x].eri);
  }

  /** Selling the order's units out of reserved would abort. */
  ghost predicate Overdraws(db: Db, property: PropertyId, o: OrderId)
    requires o in db.orders
  {
    !ChecksHold(Moved(db.inventory, db.catalog, property, db.orders[o].lines, Finalise))
  }

  ghost predicate CaptureKeepsLinks(db: Db, x: PaymentId, first: Option<OrderId>)
    requires x in db.payments && AnswersPending(db.orders, first, db.payments[x].eri)
  {
    Linked(FulfilBookingOrder(db, x, first).db)
  }

  lemma LinksKeptFor(db: Db, x: PaymentId, first: Option<OrderId>)
    requires x in db.payments && AnswersPending(db.orders, first, db.payments[x].eri) && Linked(db)
    requires db.payments[x].eri in db.bookings && db.bookings[db.payments[x].eri].status != Confirmed
    ensures first.Some? ==> first.value in db.orders
    ensures CaptureKeepsLinks(db, x, first)
            <==> (first.Some? ==>
                    OwnOrPaidBy(db, first.value, x)
                    || Overdraws(db, db.bookings[db.payments[x].eri].property, first.value))
  {
    hide FulfilBookingOrder, Moved, ChecksHold, Linked, AnswersPending, OwnOrPaidBy, KeepsPayments;
    CaptureKeepsPayments(db, x, first);
    CaptureOutcome(db, x, first);
    BookingCaptureLinksExactly(db, x, first);
  }

  /**
   * What to check before a capture for the links: whichever open order is found, paid carts stay linked to captured
   * payments if and only if each open order of the reservation is a booking's own, or paid by this or another
   * captured payment, or holds more units than are reserved, so that the capture aborts.
   */
  lemma CaptureLinksSafeExactly(db: Db, x: PaymentId)
    requires x in db.payments && Linked(db)
    requires db.payments[x].eri in db.bookings && db.bookings[db.payments[x].eri].status != Confirmed
    ensures (forall first | AnswersPending(db.orders, first, db.payments[x].eri) :: CaptureKeepsLinks(db, x, first))
            <==> (forall o | MatchesPending(db.orders, o, db.payments[x].eri) ::
                    OwnOrPaidBy(db, o, x) || Overdraws(db, db.bookings[db.payments[x].eri].property, o))
  {
    hide CaptureKeepsLinks, OwnOrPaidBy, Overdraws, Linked;
    forall first | AnswersPending(db.orders, first, db.payments[x].eri)
      ensures first.Some? ==> first.value in db.orders
      ensures CaptureKeepsLinks(db, x, first)
              <==> (first.Some? ==>
                      OwnOrPaidBy(db, first.value, x)
                      || Overdraws(db, db.bookings[db.payments[x].eri].property, first.value))
    {
      LinksKeptFor(db, x, first);
    }
    assert forall o | MatchesPending(db.orders, o, db.payments[x].eri) ::
      AnswersPending(db.orders, Some(o), db.payments[x].eri);
  }

  /**
   * And for counters and links together: every answer confirms the booking and keeps both if and only if each
   * open order is a booking's own, or holds no commodity and is paid already.
   */
  lemma CaptureKeepsBothExactly(db: Db, x: PaymentId)
    requires x in db.payments && Linked(db)
    requires db.payments[x].eri in db.bookings && db.bookings[db.payments[x].eri].status != Confirmed
    requires Catalogued(db) && OrdersFit(db) && Coupled(db) && ChecksHold(db.inventory)
    ensures (forall first | AnswersPending(db.orders, first, db.payments[x].eri) ::
               CapturesSafely(db, x, first) && CaptureKeepsLinks(db, x, first))
            <==> (forall o | MatchesPending(db.orders, o, db.payments[x].eri) ::
                    OwnOrEmpty(db, o) && OwnOrPaidBy(db, o, x))
  {
    var eri := db.payments[x].eri;
    CaptureSafeExactly(db, x);
    CaptureLinksSafeExactly(db, x);
    forall o | MatchesPending(db.orders, o, eri) && OwnOrEmpty(db, o)
      ensures !Overdraws(db, db.bookings[eri].property, o)
    {
      SafeOrderMoves(db, db.bookings[eri].property, o, Finalise);
    }
    hide CapturesSafely, CaptureKeepsLinks, OwnOrPaidBy, OwnOrEmpty, Overdraws, Linked, Coupled, ChecksHold,
      Catalogued, OrdersFit;
  }

  /** The rollback cancels the booking and keeps the counters explained. */
  ghost predicate RollsBackSafely(db: Db, eri: Eri, first: Option<OrderId>)
    requires AnswersPending(db.orders, first, eri)
  {
    var r := RollbackPendingBooking(db, eri, first);
    r.outcome == Done && Coupled(r.db)
  }

  lemma RollbackSafeFor(db: Db, eri: Eri, first: Option<OrderId>)
    requires AnswersPending(db.orders, first, eri) && IsPending(db, eri)
    requires Catalogued(db) && OrdersFit(db) && Coupled(db) && ChecksHold(db.inventory)
    ensures first.Some? ==> first.value in db.orders
    ensures RollsBackSafely(db, eri, first)
            <==> !Submitted(db.submissions, eri) && (first.Some? ==> OwnOrEmpty(db, first.value))
  {
    hide Moved, Coupled, ChecksHold, OwnOrEmpty, RollbackPendingBooking, Submitted;
    RollbackExactly(db, eri, first);
    RollbackCases(db, eri, first);
    var property := db.bookings[eri].property;
    if first.None? {
      NothingMoves(db, property, Release);
    } else if OwnOrEmpty(db, first.value) {
      SafeOrderMoves(db, property, first.value, Release);
    }
  }

  lemma SomeAnswer(orders: map<OrderId, Order>, eri: Eri) returns (first: Option<OrderId>)
    ensures AnswersPending(orders, first, eri)
  {
    if o :| MatchesPending(orders, o, eri) {
      first := Some(o);
    } else {
      first := None;
    }
  }

  /**
   * And what to check before a rollback: that no KYC submission refers to a slot of the reservation, besides the
   * same of its open orders.
   */
  lemma RollbackSafeExactly(db: Db, eri: Eri)
    requires IsPending(db, eri)
    requires Catalogued(db) && OrdersFit(db) && Coupled(db) && ChecksHold(db.inventory)
    ensures (forall first | AnswersPending(db.orders, first, eri) :: RollsBackSafely(db, eri, first))
            <==> !Submitted(db.submissions, eri) && (forall o | MatchesPending(db.orders, o, eri) :: OwnOrEmpty(db, o))
  {
    hide RollsBackSafely, OwnOrEmpty, Coupled, ChecksHold, Catalogued, OrdersFit, Submitted;
    var answer := SomeAnswer(db.orders, eri);
    forall first | AnswersPending(db.orders, first, eri)
      ensures RollsBackSafely(db, eri, first)
              <==> !Submitted(db.submissions, eri) && (first.Some? ==> OwnOrEmpty(db, first.value))
    {
      RollbackSafeFor(db, eri, first);
    }
    assert RollsBackSafely(db, eri, answer) ==> !Submitted(db.submissions, eri);
    assert forall o | MatchesPending(db.orders, o, eri) :: AnswersPending(db.orders, Some(o), eri);
  }

  /** The addition, made to whichever open order is found, keeps the counters explained. */
  ghost predicate AddsSafely(
    db: Db, guest: GuestId, eri: Eri, p: ProductId, quantity: nat, unitCode: string, checkedIn: bool,
    first: Option<OrderId>, newOrder: OrderId, newLine: nat)
    requires AnswersCart(db.orders, first, eri, guest)
  {
    Coupled(AddToCart(db, guest, eri, p, quantity, unitCode, checkedIn, first, newOrder, newLine).db)
  }

  /**
   * And before an addition to a cart that is not refused: none of the guest's open orders of the
   * reservation may be a booking's own with a commodity in it.
   */
  lemma AdditionSafeExactly(
    db: Db, guest: GuestId, eri: Eri, p: ProductId, quantity: nat, unitCode: string, checkedIn: bool,
    newOrder: OrderId, newLine: nat)
    requires HasAccess(db, guest, eri)
    requires AddonRefusal(db, db.bookings[eri].property, AddonRequest(p, quantity)).None?
    requires newOrder !in db.orders && Coupled(db)
    ensures (forall first | AnswersCart(db.orders, first, eri, guest) ::
               AddsSafely(db, guest, eri, p, quantity, unitCode, checkedIn, first, newOrder, newLine))
            <==> (forall o | MatchesCart(db.orders, o, eri, guest) :: CartOrEmpty(db, o))
  {
    hide AddonRefusal, Filled, Coupled, CartOrEmpty;
    forall first | AnswersCart(db.orders, first, eri, guest)
      ensures AddsSafely(db, guest, eri, p, quantity, unitCode, checkedIn, first, newOrder, newLine)
              <==> (first.Some? ==> CartOrEmpty(db, first.value))
    {
      AdditionExactly(db, guest, eri, p, quantity, unitCode, checkedIn, first, newOrder, newLine);
    }
    hide AddsSafely;
    assert forall o | MatchesCart(db.orders, o, eri, guest) :: AnswersCart(db.orders, Some(o), eri, guest);
  }

  // ---------------------------------------------------------------- booking and rolling back

  /** The tables right after a booking: one new booking, its access and slots, perhaps its order. */
  ghost predicate JustBooked(db: Db, booked: Db, eri: Eri, guest: GuestId, newOrder: OrderId, lines: seq<Line>)
  {
    && eri in booked.bookings && booked.bookings[eri].status == PendingPayment
    && booked == db.(
      bookings := db.bookings[eri := booked.bookings[eri]],
      access := db.access + {(eri, guest)},
      slots := booked.slots,
      orders := if lines == [] then db.orders
                else db.orders[newOrder := Order(eri, guest, None, Booking, Pending, lines)],
      inventory := Moved(db.inventory, db.catalog, booked.bookings[eri].property, lines, Reserve))
    && eri in booked.slots && booked.slots == db.slots[eri := booked.slots[eri]]
  }

  lemma OnlyOpenOrder(
    db: Db, booked: Db, eri: Eri, guest: GuestId, newOrder: OrderId, lines: seq<Line>, first: Option<OrderId>)
    requires NewEri(db, eri) && newOrder !in db.orders && JustBooked(db, booked, eri, guest, newOrder, lines)
    requires AnswersPending(booked.orders, first, eri)
    ensures first == if lines == [] then None else Some(newOrder)
  {
    if lines != [] {
      assert MatchesPending(booked.orders, newOrder, eri);
    }
  }

  lemma RowsAreRestored(db: Db, booked: Db, eri: Eri, guest: GuestId, newOrder: OrderId, lines: seq<Line>)
    requires NewEri(db, eri) && newOrder !in db.orders && JustBooked(db, booked, eri, guest, newOrder, lines)
    ensures booked.slots - {eri} == db.slots
    ensures (set a | a in booked.access && a.0 != eri) == db.access
    ensures (if lines != [] then booked.orders - {newOrder} else booked.orders) == db.orders
    ensures !Submitted(booked.submissions, eri)
  {
    hide Moved;
  }

  lemma RollbackRestores(
    db: Db, booked: Db, eri: Eri, guest: GuestId, newOrder: OrderId, lines: seq<Line>, first: Option<OrderId>)
    requires NewEri(db, eri) && newOrder !in db.orders && JustBooked(db, booked, eri, guest, newOrder, lines)
    requires AnswersPending(booked.orders, first, eri)
    ensures first.Some? ==> first.value in booked.orders
    ensures RolledBack(booked, eri, first)
            == db.(bookings := db.bookings[eri := booked.bookings[eri].(status := Cancelled, active := false)])
    ensures !Submitted(booked.submissions, eri)
  {
    hide Moved, NewEri, AnswersPending, Submitted;
    OnlyOpenOrder(db, booked, eri, guest, newOrder, lines, first);
    FoundExists(booked.orders, first, eri);
    ReleaseUndoesReserve(db.inventory, db.catalog, booked.bookings[eri].property, lines);
    RowsAreRestored(db, booked, eri, guest, newOrder, lines);
  }

  /** Rolling a new booking back restores every table except for the cancelled booking row. */
  lemma RollbackUndoesBooking(
    db: Db, guest: GuestId, request: BookingRequest, offers: seq<RoomOffer>, eri: Eri, newOrder: OrderId,
    first: Option<OrderId>)
    requires NewEri(db, eri) && newOrder !in db.orders && ChecksHold(db.inventory)
    requires CreateBookingOrder(db, guest, request, offers, eri, newOrder).outcome.Booked?
    requires AnswersPending(CreateBookingOrder(db, guest, request, offers, eri, newOrder).db.orders, first, eri)
    ensures var booked := CreateBookingOrder(db, guest, request, offers, eri, newOrder).db;
            RollbackPendingBooking(booked, eri, first)
            == Reply(db.(bookings := db.bookings[eri := booked.bookings[eri].(status := Cancelled, active := false)]),
                     Done)
  {
    hide Moved, ChecksHold, StoredRooms, ParseDateRange, Accepted, FirstError, Slots, NewEri, AnswersPending,
      RollbackPendingBooking, RolledBack, Submitted, FreezesOrders, KeepsBorrowed;
    var booked := CreateBookingOrder(db, guest, request, offers, eri, newOrder).db;
    AcceptedAddonsFit(db, request.property, request.addons);
    RollbackRestores(db, booked, eri, guest, newOrder, AddonLines(db.catalog, request.addons), first);
    RollbackCases(booked, eri, first);
  }
}
