/**
 * Concurrent confirmations of one booking, statement by statement: the browser's callback and
 * any number of webhooks run `fulfilBookingOrder` at once for payments of one reservation. A SELECT sees
 * committed rows, an UPDATE waits for the lock of its row and holds it until the transaction ends, and a
 * transaction may fail at any point.
 */
module Interleaving {
  import opened Wrappers
  import opened Sums
  import opened Tables

  type ThreadId = nat

  datatype Row = BookingLock | StockLock(p: ProductId) | OrderLock(o: OrderId) | PaymentLock(x: PaymentId)

  datatype Found = Unread | Read(order: Option<OrderId>)

  /** The next statement of a call. */
  datatype Pc =
    | AtPayment
    | AtBooking
    | AtConfirmed
    | Updating(found: Found)
    | Searching
    | Moving(order: Option<OrderId>, next: nat)
    | Capturing(order: Option<OrderId>)
    | Committing(order: Option<OrderId>)
    | Finished
    | Aborted

  datatype Thread = Thread(payment: PaymentId, pc: Pc)

  datatype OwnOrder = OwnOrder(lines: seq<Line>, paid: bool)

  /** The committed rows of the reservation, the locks held, and the calls in flight. */
  datatype State = State(
    confirmed: bool, orders: map<OrderId, OwnOrder>, inventory: Inventory, captured: set<PaymentId>,
    locks: map<Row, ThreadId>, threads: map<ThreadId, Thread>)

  /** `bookingFirst`: the booking row is updated before the open order is read, as the program does. */
  datatype Setting = Setting(catalog: Catalog, property: PropertyId, bookingFirst: bool)

  /** One statement of a thread, with the answer of its order search, or the end of its transaction. */
  datatype Event = Statement(t: ThreadId, answer: Option<OrderId>) | Timeout(t: ThreadId)

  predicate Free(s: State, row: Row, t: ThreadId)
  {
    row in s.locks ==> s.locks[row] == t
  }

  ghost predicate Answers(s: State, answer: Option<OrderId>)
  {
    match answer
    case Some(o) => o in s.orders && !s.orders[o].paid
    case None => forall o | o in s.orders :: s.orders[o].paid
  }

  predicate InTransaction(pc: Pc)
  {
    pc.Updating? || pc.Searching? || pc.Moving? || pc.Capturing? || pc.Committing?
  }

  function LinesOf(s: State, order: Option<OrderId>): seq<Line>
  {
    if order.Some? && order.value in s.orders then s.orders[order.value].lines else []
  }

  /** The stock update of the next line touches a row. */
  predicate Touches(setting: Setting, s: State, line: Line)
  {
    IsCommodity(setting.catalog, line.product) && HasRow(s.inventory, line.product, setting.property)
  }

  ghost predicate Enabled(setting: Setting, s: State, e: Event)
  {
    && e.t in s.threads
    && var thread := s.threads[e.t];
       if e.Timeout? then InTransaction(thread.pc)
       else
         match thread.pc
         case AtConfirmed => Free(s, PaymentLock(thread.payment), e.t)
         case Updating(_) => Free(s, BookingLock, e.t)
         case Searching => Answers(s, e.answer)
         case Moving(order, k) =>
           if k < |LinesOf(s, order)| then
             var line := LinesOf(s, order)[k];
             Touches(setting, s, line) ==> Free(s, StockLock(line.product), e.t)
           else order.Some? ==> Free(s, OrderLock(order.value), e.t)
         case Capturing(_) => Free(s, PaymentLock(thread.payment), e.t)
         case Finished => false
         case Aborted => false
         case _ => true
  }

  function Goto(s: State, t: ThreadId, pc: Pc): State
    requires t in s.threads
  {
    s.(threads := s.threads[t := s.threads[t].(pc := pc)])
  }

  ghost function Released(s: State, t: ThreadId): (r: State)
    ensures r == s.(locks := r.locks)
  {
    s.(locks := map row | row in s.locks && s.locks[row] != t :: s.locks[row])
  }

  /** What a transaction sees of the stock after updating `k` lines: the committed rows and its own writes. */
  ghost function Seen(setting: Setting, s: State, lines: seq<Line>, k: nat): Inventory
    requires k <= |lines|
  {
    Moved(s.inventory, setting.catalog, setting.property, lines[..k], Finalise)
  }

  ghost function MoveLine(setting: Setting, s: State, t: ThreadId, order: Option<OrderId>, k: nat): State
    requires t in s.threads && k < |LinesOf(s, order)|
  {
    var lines := LinesOf(s, order);
    var p := lines[k].product;
    if !Touches(setting, s, lines[k]) then Goto(s, t, Moving(order, k + 1))
    else if !Seen(setting, s, lines, k + 1)[p].NonNegative() then Released(Goto(s, t, Aborted), t)
    else Goto(s, t, Moving(order, k + 1)).(locks := s.locks[StockLock(p) := t])
  }

  ghost function Committed(setting: Setting, s: State, t: ThreadId, order: Option<OrderId>): State
    requires t in s.threads
  {
    var lines := LinesOf(s, order);
    Released(
      Goto(s, t, Finished).(
        confirmed := true,
        orders := if order.Some? && order.value in s.orders
                  then s.orders[order.value := s.orders[order.value].(paid := true)] else s.orders,
        inventory := Seen(setting, s, lines, |lines|),
        captured := s.captured + {s.threads[t].payment}),
      t)
  }

  ghost function Step(setting: Setting, s: State, e: Event): State
    requires Enabled(setting, s, e)
  {
    var t := e.t;
    var x := s.threads[t].payment;
    if e.Timeout? then Released(Goto(s, t, Aborted), t)
    else
      match s.threads[t].pc
      case AtPayment => Goto(s, t, if x in s.captured then Finished else AtBooking)
      case AtBooking =>
        Goto(s, t, if s.confirmed then AtConfirmed else if setting.bookingFirst then Updating(Unread) else Searching)
      case AtConfirmed => Goto(s, t, Finished).(captured := s.captured + {x})
      case Updating(found) =>
        Goto(s, t, if found.Unread? then Searching else Moving(found.order, 0)).(locks := s.locks[BookingLock := t])
      case Searching => Goto(s, t, if setting.bookingFirst then Moving(e.answer, 0) else Updating(Read(e.answer)))
      case Moving(order, k) =>
        if k < |LinesOf(s, order)| then MoveLine(setting, s, t, order, k)
        else
          var after := Goto(s, t, Capturing(order));
          if order.Some? then after.(locks := s.locks[OrderLock(order.value) := t]) else after
      case Capturing(order) => Goto(s, t, Committing(order)).(locks := s.locks[PaymentLock(x) := t])
      case Committing(order) => Committed(setting, s, t, order)
  }

  ghost predicate Schedule(setting: Setting, s: State, events: seq<Event>)
    decreases |events|
  {
    events == [] || (Enabled(setting, s, events[0]) && Schedule(setting, Step(setting, s, events[0]), events[1..]))
  }

  ghost function After(setting: Setting, s: State, events: seq<Event>): State
    requires Schedule(setting, s, events)
    decreases |events|
  {
    if events == [] then s else After(setting, Step(setting, s, events[0]), events[1..])
  }

  /** A statement before a schedule. */
  lemma Prepend(setting: Setting, s: State, e: Event, events: seq<Event>)
    requires Enabled(setting, s, e) && Schedule(setting, Step(setting, s, e), events)
    ensures Schedule(setting, s, [e] + events)
    ensures After(setting, s, [e] + events) == After(setting, Step(setting, s, e), events)
  {
    assert ([e] + events)[1..] == events;
  }

  /** A schedule after a schedule. */
  lemma {:induction false} Append(setting: Setting, s: State, events: seq<Event>, more: seq<Event>)
    requires Schedule(setting, s, events) && Schedule(setting, After(setting, s, events), more)
    ensures Schedule(setting, s, events + more)
    ensures After(setting, s, events + more) == After(setting, After(setting, s, events), more)
    decreases |events|
  {
    hide Step, Enabled;
    if events == [] {
      assert events + more == more;
    } else {
      Append(setting, Step(setting, s, events[0]), events[1..], more);
      Prepend(setting, s, events[0], events[1..] + more);
      assert [events[0]] + (events[1..] + more) == events + more;
    }
  }

  /** Any number of calls about to start, nothing captured or confirmed yet. */
  ghost predicate Initial(s: State)
  {
    && !s.confirmed && s.captured == {} && s.locks == map[]
    && (forall o | o in s.orders :: !s.orders[o].paid)
    && (forall t | t in s.threads :: s.threads[t].pc == AtPayment)
  }

  // ---------------------------------------------------------------- the invariant

  /** Between its first update and its end a call holds the booking row. */
  predicate HoldsBooking(pc: Pc)
  {
    pc.Searching? || pc.Moving? || pc.Capturing? || pc.Committing?
  }

  function OrderOf(pc: Pc): Option<OrderId>
  {
    match pc
    case Moving(order, _) => order
    case Capturing(order) => order
    case Committing(order) => order
    case _ => None
  }

  predicate HasSearched(pc: Pc)
  {
    pc.Moving? || pc.Capturing? || pc.Committing?
  }

  ghost predicate ThreadFits(s: State, t: ThreadId)
    requires t in s.threads
  {
    var pc := s.threads[t].pc;
    && (HoldsBooking(pc) ==> BookingLock in s.locks && s.locks[BookingLock] == t)
    && (HasSearched(pc) ==> Answers(s, OrderOf(pc)))
    && (pc.Updating? ==> pc.found.Unread?)
    && (pc.Finished? ==> s.captured != {})
    && (pc.AtConfirmed? ==> s.confirmed)
  }

  function PaidWeight(p: ProductId): OwnOrder -> int
  {
    (o: OwnOrder) => if o.paid then Units(o.lines, p) else 0
  }

  /** Units of `p` on the reservation's paid orders. */
  ghost function PaidUnits(s: State, p: ProductId): int
  {
    Sum(s.orders, PaidWeight(p))
  }

  /** A stock row after exactly the paid orders' units went from reserved to sold. */
  ghost predicate StockExplained(setting: Setting, before: State, s: State, p: ProductId)
    requires p in before.inventory
  {
    && p in s.inventory
    && s.inventory[p].property == before.inventory[p].property
    && var paid := if IsCommodity(setting.catalog, p) && before.inventory[p].property == setting.property
                   then PaidUnits(s, p) - PaidUnits(before, p) else 0;
       s.inventory[p] == before.inventory[p].(reserved := before.inventory[p].reserved - paid,
                                              sold := before.inventory[p].sold + paid)
  }

  ghost predicate Good(setting: Setting, before: State, s: State)
  {
    && (forall t | t in s.threads :: ThreadFits(s, t))
    && s.inventory.Keys == before.inventory.Keys
    && (forall p | p in before.inventory :: StockExplained(setting, before, s, p))
    && s.orders.Keys == before.orders.Keys
    && (forall o | o in s.orders :: s.orders[o].lines == before.orders[o].lines)
    && ((exists o | o in s.orders :: s.orders[o].paid) ==> s.confirmed)
    && (s.confirmed <==> s.captured != {})
    && (s.confirmed && s.orders != map[] ==> exists o | o in s.orders :: s.orders[o].paid)
  }

  /** The committed rows do not change, but for captures once the booking is confirmed. */
  ghost predicate SameRows(s: State, after: State)
  {
    && after.confirmed == s.confirmed && after.orders == s.orders && after.inventory == s.inventory
    && s.captured <= after.captured && (after.captured == s.captured || s.confirmed)
  }

  /** Another call keeps the booking row it holds. */
  ghost predicate KeepsOthersLock(s: State, after: State, t: ThreadId)
  {
    BookingLock in s.locks && s.locks[BookingLock] != t ==>
      BookingLock in after.locks && after.locks[BookingLock] == s.locks[BookingLock]
  }

  /** What a statement short of the commit may do. */
  ghost predicate StepsAlone(s: State, after: State, t: ThreadId)
  {
    && SameRows(s, after) && KeepsOthersLock(s, after, t)
    && t in s.threads && t in after.threads && after.threads == s.threads[t := after.threads[t]]
    && ThreadFits(after, t)
  }

  lemma TimeoutFits(setting: Setting, s: State, e: Event)
    requires Enabled(setting, s, e) && e.Timeout?
    ensures StepsAlone(s, Step(setting, s, e), e.t)
  {
  }

  lemma MoveLineFits(setting: Setting, s: State, e: Event)
    requires Enabled(setting, s, e) && ThreadFits(s, e.t)
    requires e.Statement? && s.threads[e.t].pc.Moving?
    ensures StepsAlone(s, Step(setting, s, e), e.t)
  {
    hide Seen, IsCommodity, HasRow;
  }

  lemma ReadFits(setting: Setting, s: State, e: Event)
    requires setting.bookingFirst && Enabled(setting, s, e) && ThreadFits(s, e.t)
    requires s.confirmed ==> s.captured != {}
    requires e.Statement?
    requires var pc := s.threads[e.t].pc; pc.AtPayment? || pc.AtBooking? || pc.AtConfirmed? || pc.Searching?
    ensures StepsAlone(s, Step(setting, s, e), e.t)
  {
    hide MoveLine, Committed;
  }

  lemma LockFits(setting: Setting, s: State, e: Event)
    requires Enabled(setting, s, e) && ThreadFits(s, e.t)
    requires e.Statement? && (s.threads[e.t].pc.Updating? || s.threads[e.t].pc.Capturing?)
    ensures StepsAlone(s, Step(setting, s, e), e.t)
  {
    hide MoveLine, Committed;
  }

  lemma StatementFits(setting: Setting, s: State, e: Event)
    requires setting.bookingFirst && Enabled(setting, s, e) && ThreadFits(s, e.t)
    requires s.confirmed ==> s.captured != {}
    requires e.Statement? ==> !s.threads[e.t].pc.Committing?
    ensures StepsAlone(s, Step(setting, s, e), e.t)
  {
    hide Step, StepsAlone, ThreadFits;
    if e.Timeout? {
      TimeoutFits(setting, s, e);
    } else if s.threads[e.t].pc.Moving? {
      MoveLineFits(setting, s, e);
    } else if s.threads[e.t].pc.Updating? || s.threads[e.t].pc.Capturing? {
      LockFits(setting, s, e);
    } else {
      ReadFits(setting, s, e);
    }
  }

  lemma OthersStillFit(s: State, after: State, t: ThreadId, other: ThreadId)
    requires StepsAlone(s, after, t)
    requires other in s.threads && other != t && ThreadFits(s, other)
    ensures ThreadFits(after, other)
  {
  }

  lemma StatementKeepsGood(setting: Setting, before: State, s: State, e: Event)
    requires setting.bookingFirst && Good(setting, before, s) && Enabled(setting, s, e)
    requires e.Statement? ==> !s.threads[e.t].pc.Committing?
    ensures Good(setting, before, Step(setting, s, e))
  {
    assert e.t in s.threads;
    hide Step, Enabled, ThreadFits, SameRows, KeepsOthersLock, StockExplained, Answers;
    var after := Step(setting, s, e);
    StatementFits(setting, s, e);
    forall t | t in after.threads
      ensures ThreadFits(after, t)
    {
      if t != e.t {
        OthersStillFit(s, after, e.t, t);
      }
    }
    RowsStayGood(setting, before, s, after);
  }

  lemma RowsStayGood(setting: Setting, before: State, s: State, after: State)
    requires Good(setting, before, s) && SameRows(s, after)
    requires forall t | t in after.threads :: ThreadFits(after, t)
    ensures Good(setting, before, after)
  {
    hide ThreadFits;
    forall p | p in before.inventory
      ensures StockExplained(setting, before, after, p)
    {
      assert StockExplained(setting, before, s, p);
    }
  }

  // ---------------------------------------------------------------- the commit

  /** No other call has passed the update of the booking row. */
  lemma CommitFits(setting: Setting, before: State, s: State, t: ThreadId, other: ThreadId)
    requires Good(setting, before, s)
    requires t in s.threads && s.threads[t].pc.Committing? && other in s.threads
    ensures ThreadFits(Committed(setting, s, t, s.threads[t].pc.order), other)
  {
    hide StockExplained, Seen, Answers;
    assert ThreadFits(s, t) && ThreadFits(s, other);
  }

  lemma CommitRow(setting: Setting, s: State, t: ThreadId, order: Option<OrderId>, p: ProductId)
    requires t in s.threads && p in s.inventory
    ensures var row, after := s.inventory[p], Committed(setting, s, t, order);
            && p in after.inventory
            && after.inventory[p] == if IsCommodity(setting.catalog, p) && row.property == setting.property
                                     then row.Move(Finalise, Units(LinesOf(s, order), p)) else row
  {
    hide Released, Goto;
    var lines := LinesOf(s, order);
    assert lines[..|lines|] == lines;
  }

  lemma CommitUnits(setting: Setting, s: State, t: ThreadId, order: Option<OrderId>, p: ProductId)
    requires t in s.threads && Answers(s, order)
    ensures PaidUnits(Committed(setting, s, t, order), p) == PaidUnits(s, p) + Units(LinesOf(s, order), p)
  {
    hide Released, Goto, Seen;
    if order.Some? {
      SumPut(s.orders, PaidWeight(p), order.value, s.orders[order.value].(paid := true));
    }
  }

  lemma CommitMovesOnce(setting: Setting, before: State, s: State, t: ThreadId, p: ProductId)
    requires Good(setting, before, s) && p in before.inventory
    requires t in s.threads && s.threads[t].pc.Committing?
    ensures StockExplained(setting, before, Committed(setting, s, t, s.threads[t].pc.order), p)
  {
    hide Committed, PaidUnits, Units;
    var order := s.threads[t].pc.order;
    assert ThreadFits(s, t);
    assert StockExplained(setting, before, s, p);
    CommitRow(setting, s, t, order, p);
    CommitUnits(setting, s, t, order, p);
  }

  lemma CommitKeepsGood(setting: Setting, before: State, s: State, t: ThreadId)
    requires Good(setting, before, s)
    requires t in s.threads && s.threads[t].pc.Committing?
    ensures Good(setting, before, Committed(setting, s, t, s.threads[t].pc.order))
  {
    hide StockExplained, ThreadFits, Moved;
    var order := s.threads[t].pc.order;
    var after := Committed(setting, s, t, order);
    forall other | other in after.threads
      ensures ThreadFits(after, other)
    {
      CommitFits(setting, before, s, t, other);
    }
    forall p | p in before.inventory
      ensures StockExplained(setting, before, after, p)
    {
      CommitMovesOnce(setting, before, s, t, p);
    }
    CommitPays(setting, before, s, t);
  }

  /** A commit leaves a paid order behind, unless the reservation has no orders. */
  lemma CommitPays(setting: Setting, before: State, s: State, t: ThreadId)
    requires Good(setting, before, s)
    requires t in s.threads && s.threads[t].pc.Committing?
    ensures var after := Committed(setting, s, t, s.threads[t].pc.order);
            && after.inventory.Keys == s.inventory.Keys
            && after.orders.Keys == s.orders.Keys
            && (forall o | o in s.orders :: after.orders[o].lines == s.orders[o].lines)
            && (s.orders != map[] ==> exists o | o in after.orders :: after.orders[o].paid)
  {
    hide StockExplained;
    assert ThreadFits(s, t);
    var order := s.threads[t].pc.order;
    var after := Committed(setting, s, t, order);
    if order.Some? {
      assert after.orders[order.value].paid;
    } else if s.orders != map[] {
      var o :| o in s.orders;
      assert after.orders[o].paid;
    }
  }

  lemma StepKeepsGood(setting: Setting, before: State, s: State, e: Event)
    requires setting.bookingFirst && Good(setting, before, s) && Enabled(setting, s, e)
    ensures Good(setting, before, Step(setting, s, e))
  {
    assert e.t in s.threads;
    hide Good, Committed, Enabled;
    if e.Statement? && s.threads[e.t].pc.Committing? {
      CommitKeepsGood(setting, before, s, e.t);
      assert Step(setting, s, e) == Committed(setting, s, e.t, s.threads[e.t].pc.order);
    } else {
      StatementKeepsGood(setting, before, s, e);
    }
  }

  lemma {:induction false} ScheduleKeepsGood(setting: Setting, before: State, s: State, events: seq<Event>)
    requires setting.bookingFirst && Good(setting, before, s) && Schedule(setting, s, events)
    ensures Good(setting, before, After(setting, s, events))
    decreases |events|
  {
    hide Good, Step, Enabled;
    if events != [] {
      StepKeepsGood(setting, before, s, events[0]);
      ScheduleKeepsGood(setting, before, Step(setting, s, events[0]), events[1..]);
    }
  }

  lemma InitialIsGood(setting: Setting, s: State)
    requires Initial(s)
    ensures Good(setting, s, s)
  {
  }

  /**
   * In every interleaving, for every product: exactly the units of the paid orders have moved from
   * reserved to sold, whatever the number of calls and however many of them fail half-way.
   */
  lemma PaidUnitsMoved(setting: Setting, s: State, events: seq<Event>, p: ProductId)
    requires setting.bookingFirst && Initial(s) && Schedule(setting, s, events)
    requires p in s.inventory && IsCommodity(setting.catalog, p) && s.inventory[p].property == setting.property
    ensures var end := After(setting, s, events);
            && p in end.inventory
            && end.inventory[p] == s.inventory[p].Move(Finalise, PaidUnits(end, p))
  {
    InitialIsGood(setting, s);
    ScheduleKeepsGood(setting, s, s, events);
    var end := After(setting, s, events);
    assert StockExplained(setting, s, end, p);
    SumAllZero(s.orders, PaidWeight(p));
  }

  /**
   * With the one open order of a separated booking: its units have moved exactly once as soon as any
   * payment is captured, and not at all before; the booking, the order and the payments agree.
   */
  lemma MovedExactlyOnce(setting: Setting, s: State, events: seq<Event>, o: OrderId, lines: seq<Line>)
    requires setting.bookingFirst && Initial(s) && Schedule(setting, s, events)
    requires s.orders == map[o := OwnOrder(lines, false)]
    ensures var end := After(setting, s, events);
            && end.orders.Keys == {o}
            && (end.orders[o].paid <==> end.confirmed)
            && (end.orders[o].paid <==> end.captured != {})
            && end.inventory == (if end.orders[o].paid
                                 then Moved(s.inventory, setting.catalog, setting.property, lines, Finalise)
                                 else s.inventory)
  {
    InitialIsGood(setting, s);
    hide Schedule, After, StockExplained, Moved, ThreadFits;
    ScheduleKeepsGood(setting, s, s, events);
    var end := After(setting, s, events);
    var sold := Moved(s.inventory, setting.catalog, setting.property, lines, Finalise);
    OneOrderKeys(s.inventory, setting, lines);
    forall p | p in s.inventory
      ensures end.inventory[p] == if end.orders[o].paid then sold[p] else s.inventory[p]
    {
      OneOrderMoves(setting, s, end, o, lines, p);
    }
  }

  lemma OneOrderKeys(inventory: Inventory, setting: Setting, lines: seq<Line>)
    ensures Moved(inventory, setting.catalog, setting.property, lines, Finalise).Keys == inventory.Keys
  {
  }

  lemma OneOrderMoves(setting: Setting, s: State, end: State, o: OrderId, lines: seq<Line>, p: ProductId)
    requires p in s.inventory && StockExplained(setting, s, end, p)
    requires s.orders == map[o := OwnOrder(lines, false)]
    requires end.orders.Keys == {o} && end.orders[o].lines == lines
    ensures p in end.inventory
    ensures end.inventory[p]
            == if end.orders[o].paid
               then Moved(s.inventory, setting.catalog, setting.property, lines, Finalise)[p] else s.inventory[p]
  {
    SumAllZero(s.orders, PaidWeight(p));
    SumRemove(end.orders, PaidWeight(p), o);
    assert end.orders - {o} == map[];
  }
}
