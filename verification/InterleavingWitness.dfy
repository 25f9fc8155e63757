/** Reading the open order before updating the booking row would let two calls move the same units. */
module InterleavingWitness {
  import opened Wrappers
  import opened Tables
  import opened Interleaving

  /** A call that read the order before the lock reads everything it needs while nothing is written. */
  lemma ReadsAhead(setting: Setting, s: State, t: ThreadId, o: OrderId) returns (events: seq<Event>)
    requires !setting.bookingFirst && t in s.threads && s.threads[t].pc == AtPayment
    requires !s.confirmed && s.captured == {} && o in s.orders && !s.orders[o].paid
    ensures Schedule(setting, s, events)
    ensures After(setting, s, events) == Goto(s, t, Updating(Read(Some(o))))
  {
    var read := Statement(t, Some(o));
    var s1 := Step(setting, s, read);
    var s2 := Step(setting, s1, read);
    var s3 := Step(setting, s2, read);
    assert s3 == Goto(s, t, Updating(Read(Some(o))));
    Prepend(setting, s2, read, []);
    Prepend(setting, s1, read, [read]);
    Prepend(setting, s, read, [read] + [read]);
    events := [read] + ([read] + [read]);
  }

  /** The call takes the locks of the booking and of its one line's stock row. */
  lemma Moves(setting: Setting, s: State, t: ThreadId, o: OrderId) returns (events: seq<Event>)
    requires t in s.threads && s.threads[t].pc == Updating(Read(Some(o))) && s.locks == map[]
    requires o in s.orders && |s.orders[o].lines| == 1 && Touches(setting, s, s.orders[o].lines[0])
    requires Seen(setting, s, s.orders[o].lines, 1)[s.orders[o].lines[0].product].NonNegative()
    ensures Schedule(setting, s, events)
    ensures After(setting, s, events) == Goto(s, t, Moving(Some(o), 1)).(
              locks := map[BookingLock := t, StockLock(s.orders[o].lines[0].product) := t])
  {
    hide IsCommodity, HasRow, Moved;
    var next := Statement(t, None);
    var s1 := Step(setting, s, next);
    assert s1 == Goto(s, t, Moving(Some(o), 0)).(locks := map[BookingLock := t]);
    var s2 := Step(setting, s1, next);
    Prepend(setting, s1, next, []);
    Prepend(setting, s, next, [next]);
    events := [next] + [next];
  }

  lemma Pays(setting: Setting, s: State, t: ThreadId, o: OrderId) returns (events: seq<Event>)
    requires t in s.threads && s.threads[t].pc == Moving(Some(o), 1)
    requires o in s.orders && |s.orders[o].lines| == 1
    requires forall row | row in s.locks :: s.locks[row] == t
    ensures Schedule(setting, s, events)
    ensures After(setting, s, events) == Goto(s, t, Committing(Some(o))).(
              locks := s.locks[OrderLock(o) := t][PaymentLock(s.threads[t].payment) := t])
  {
    hide Seen, Touches;
    var next := Statement(t, None);
    var s1 := Step(setting, s, next);
    assert s1 == Goto(s, t, Capturing(Some(o))).(locks := s.locks[OrderLock(o) := t]);
    var s2 := Step(setting, s1, next);
    Prepend(setting, s1, next, []);
    Prepend(setting, s, next, [next]);
    events := [next] + [next];
  }

  ghost function PaidBy(setting: Setting, s: State, t: ThreadId, o: OrderId): State
    requires t in s.threads && o in s.orders && |s.orders[o].lines| == 1
  {
    Goto(s, t, Finished).(
      confirmed := true,
      orders := s.orders[o := s.orders[o].(paid := true)],
      inventory := Seen(setting, s, s.orders[o].lines, 1),
      captured := s.captured + {s.threads[t].payment})
  }

  lemma Commits(setting: Setting, s: State, before: State, t: ThreadId, o: OrderId)
    requires t in s.threads && s.threads[t].pc == Committing(Some(o))
    requires o in s.orders && |s.orders[o].lines| == 1
    requires forall row | row in s.locks :: s.locks[row] == t
    requires t in before.threads && before.locks == map[]
    requires s == Goto(before, t, Committing(Some(o))).(locks := s.locks)
    ensures Schedule(setting, s, [Statement(t, None)])
    ensures After(setting, s, [Statement(t, None)]) == PaidBy(setting, before, t, o)
  {
    hide Moved;
    Prepend(setting, s, Statement(t, None), []);
    assert [Statement(t, None)] + [] == [Statement(t, None)];
  }

  /** Once no other call holds a lock, the call moves its one line and commits. */
  lemma Completes(setting: Setting, s: State, t: ThreadId, o: OrderId) returns (events: seq<Event>)
    requires t in s.threads && s.threads[t].pc == Updating(Read(Some(o))) && s.locks == map[]
    requires o in s.orders && |s.orders[o].lines| == 1 && Touches(setting, s, s.orders[o].lines[0])
    requires Seen(setting, s, s.orders[o].lines, 1)[s.orders[o].lines[0].product].NonNegative()
    ensures Schedule(setting, s, events)
    ensures After(setting, s, events) == PaidBy(setting, s, t, o)
  {
    hide Seen, Touches, Step, Enabled;
    var moves := Moves(setting, s, t, o);
    var s1 := After(setting, s, moves);
    var pays := Pays(setting, s1, t, o);
    var s2 := After(setting, s1, pays);
    Commits(setting, s2, s, t, o);
    Append(setting, s1, pays, [Statement(t, None)]);
    Append(setting, s, moves, pays + [Statement(t, None)]);
    events := moves + (pays + [Statement(t, None)]);
  }

  const TWIN := Setting(map[7 := Product(1, Commodity, 100, true)], 1, false)

  /** One paid-for unit on the reservation's order, another reserved for a different guest. */
  function TwinState(reserved: int, sold: int, threads: map<ThreadId, Thread>): State
  {
    State(false, map[1 := OwnOrder([Line(0, 7, 1, 100, 100, None)], false)],
          map[7 := Stock(1, 2, 0, reserved, sold, 0, 0)], {}, map[], threads)
  }

  lemma OneUnitMoves(s: State, reserved: int, sold: int)
    requires s.inventory == map[7 := Stock(1, 2, 0, reserved, sold, 0, 0)]
    ensures Units([Line(0, 7, 1, 100, 100, None)], 7) == 1
    ensures Touches(TWIN, s, Line(0, 7, 1, 100, 100, None))
    ensures Seen(TWIN, s, [Line(0, 7, 1, 100, 100, None)], 1) == map[7 := Stock(1, 2, 0, reserved - 1, sold + 1, 0, 0)]
  {
    var lines := [Line(0, 7, 1, 100, 100, None)];
    assert lines[..1] == lines && lines[..0] == [];
    assert Units(lines, 7) == 1;
  }

  /** Both calls have read the order before either holds the booking row. */
  lemma BothRead() returns (events: seq<Event>)
    ensures var s := TwinState(2, 0, map[0 := Thread(5, AtPayment), 1 := Thread(5, AtPayment)]);
            var ahead := Updating(Read(Some(1)));
            && Schedule(TWIN, s, events)
            && After(TWIN, s, events) == TwinState(2, 0, map[0 := Thread(5, ahead), 1 := Thread(5, ahead)])
  {
    hide Step, Enabled;
    var s := TwinState(2, 0, map[0 := Thread(5, AtPayment), 1 := Thread(5, AtPayment)]);
    var reads0 := ReadsAhead(TWIN, s, 0, 1);
    var s1 := Goto(s, 0, Updating(Read(Some(1))));
    var reads1 := ReadsAhead(TWIN, s1, 1, 1);
    Append(TWIN, s, reads0, reads1);
    events := reads0 + reads1;
  }

  /** Then both move it. */
  lemma BothMove() returns (events: seq<Event>)
    ensures var ahead := Updating(Read(Some(1)));
            var s := TwinState(2, 0, map[0 := Thread(5, ahead), 1 := Thread(5, ahead)]);
            && Schedule(TWIN, s, events)
            && After(TWIN, s, events).inventory == map[7 := Stock(1, 2, 0, 0, 2, 0, 0)]
  {
    hide Step, Enabled, Seen, Touches;
    var ahead := Updating(Read(Some(1)));
    var s := TwinState(2, 0, map[0 := Thread(5, ahead), 1 := Thread(5, ahead)]);
    OneUnitMoves(s, 2, 0);
    var writes0 := Completes(TWIN, s, 0, 1);
    var s1 := PaidBy(TWIN, s, 0, 1);
    OneUnitMoves(s1, 1, 1);
    var writes1 := Completes(TWIN, s1, 1, 1);
    Append(TWIN, s, writes0, writes1);
    events := writes0 + writes1;
  }

  /**
   * With the two statements swapped, a callback and a webhook for one payment sell two units of an
   * order of one.
   */
  lemma OrderBeforeLockMovesTwice() returns (setting: Setting, s: State, events: seq<Event>)
    ensures !setting.bookingFirst && Initial(s) && Schedule(setting, s, events)
    ensures s.orders.Keys == {1} && Units(s.orders[1].lines, 7) == 1
    ensures s.inventory == map[7 := Stock(1, 2, 0, 2, 0, 0, 0)]
    ensures After(setting, s, events).inventory == map[7 := Stock(1, 2, 0, 0, 2, 0, 0)]
  {
    hide Step, Enabled;
    setting, s := TWIN, TwinState(2, 0, map[0 := Thread(5, AtPayment), 1 := Thread(5, AtPayment)]);
    OneUnitMoves(s, 2, 0);
    var first := BothRead();
    var second := BothMove();
    Append(setting, s, first, second);
    events := first + second;
  }
}
