/** A confirmation that no other call holds a lock against can run to its end, whatever its order's lines are. */
module InterleavingProgress {
  import opened Wrappers
  import opened Tables
  import opened Interleaving

  /** The call has got to `pc` and holds whatever locks are held; nothing is written yet. */
  ghost predicate Reaches(s: State, after: State, t: ThreadId, pc: Pc)
    requires t in s.threads
  {
    && after == Goto(s, t, pc).(locks := after.locks)
    && (forall row | row in after.locks :: after.locks[row] == t)
  }

  /** The order is open and no counter goes negative when its units are sold. */
  ghost predicate IsReserved(setting: Setting, s: State, o: OrderId)
  {
    && o in s.orders && !s.orders[o].paid
    && forall p | p in s.inventory ::
         && s.inventory[p].NonNegative()
         && (IsCommodity(setting.catalog, p) && s.inventory[p].property == setting.property ==>
              Units(s.orders[o].lines, p) <= s.inventory[p].reserved)
  }

  /** Then the check after each of its lines passes. */
  lemma EachLinePasses(setting: Setting, s: State, o: OrderId, k: nat)
    requires IsReserved(setting, s, o) && k < |s.orders[o].lines| && Touches(setting, s, s.orders[o].lines[k])
    ensures s.orders[o].lines[k].product in Seen(setting, s, s.orders[o].lines, k + 1)
    ensures Seen(setting, s, s.orders[o].lines, k + 1)[s.orders[o].lines[k].product].NonNegative()
  {
    hide Units;
    UnitsOfPrefixAtMost(s.orders[o].lines, k + 1, s.orders[o].lines[k].product);
  }

  /** One statement on the way through the lines. */
  lemma MovesOne(setting: Setting, s: State, now: State, t: ThreadId, o: OrderId, k: nat)
    requires t in s.threads && Reaches(s, now, t, Moving(Some(o), k))
    requires IsReserved(setting, s, o) && k < |s.orders[o].lines|
    ensures Enabled(setting, now, Statement(t, None))
    ensures Reaches(s, Step(setting, now, Statement(t, None)), t, Moving(Some(o), k + 1))
  {
    if Touches(setting, s, s.orders[o].lines[k]) {
      EachLinePasses(setting, s, o, k);
    }
    hide Moved, IsReserved, IsCommodity, HasRow;
  }

  lemma {:induction false} MovesAll(setting: Setting, s: State, now: State, t: ThreadId, o: OrderId, k: nat)
    returns (events: seq<Event>)
    requires t in s.threads && Reaches(s, now, t, Moving(Some(o), k))
    requires IsReserved(setting, s, o) && k <= |s.orders[o].lines|
    ensures Schedule(setting, now, events)
    ensures Reaches(s, After(setting, now, events), t, Moving(Some(o), |s.orders[o].lines|))
    decreases |s.orders[o].lines| - k
  {
    hide Enabled, Step, Reaches;
    events := [];
    if k < |s.orders[o].lines| {
      var e := Statement(t, None);
      MovesOne(setting, s, now, t, o, k);
      var rest := MovesAll(setting, s, Step(setting, now, e), t, o, k + 1);
      Prepend(setting, now, e, rest);
      events := [e] + rest;
    }
  }

  /** Up to its first line: payment and booking are read, the booking row is updated, the order is found. */
  lemma Starts(setting: Setting, s: State, t: ThreadId, o: OrderId) returns (events: seq<Event>)
    requires setting.bookingFirst && t in s.threads && s.threads[t].pc == AtPayment
    requires !s.confirmed && s.captured == {} && s.locks == map[] && o in s.orders && !s.orders[o].paid
    ensures Schedule(setting, s, events)
    ensures Reaches(s, After(setting, s, events), t, Moving(Some(o), 0))
  {
    var e := Statement(t, Some(o));
    var s1 := Step(setting, s, e);
    var s2 := Step(setting, s1, e);
    var s3 := Step(setting, s2, e);
    var s4 := Step(setting, s3, e);
    Prepend(setting, s3, e, []);
    Prepend(setting, s2, e, [e] + []);
    Prepend(setting, s1, e, [e] + ([e] + []));
    Prepend(setting, s, e, [e] + ([e] + ([e] + [])));
    events := [e] + ([e] + ([e] + ([e] + [])));
  }

  /** The call finished, and its effect is that of the confirmation at once. */
  ghost predicate IsConfirmedBy(setting: Setting, s: State, end: State, t: ThreadId, o: OrderId)
    requires t in s.threads && o in s.orders
  {
    && end.confirmed && end.captured == s.captured + {s.threads[t].payment} && end.locks == map[]
    && end.orders == s.orders[o := s.orders[o].(paid := true)]
    && end.inventory == Moved(s.inventory, setting.catalog, setting.property, s.orders[o].lines, Finalise)
    && end.threads == s.threads[t := s.threads[t].(pc := Finished)]
  }

  /** The order and the payment are updated. */
  lemma Captures(setting: Setting, s: State, now: State, t: ThreadId, o: OrderId) returns (events: seq<Event>)
    requires t in s.threads && o in s.orders && Reaches(s, now, t, Moving(Some(o), |s.orders[o].lines|))
    ensures Schedule(setting, now, events)
    ensures Reaches(s, After(setting, now, events), t, Committing(Some(o)))
  {
    hide Touches, MoveLine;
    var e := Statement(t, None);
    var s1 := Step(setting, now, e);
    var s2 := Step(setting, s1, e);
    Prepend(setting, s1, e, []);
    Prepend(setting, now, e, [e] + []);
    events := [e] + ([e] + []);
  }

  lemma Commits(setting: Setting, s: State, now: State, t: ThreadId, o: OrderId)
    requires t in s.threads && o in s.orders && Reaches(s, now, t, Committing(Some(o)))
    ensures Schedule(setting, now, [Statement(t, None)] + [])
    ensures IsConfirmedBy(setting, s, After(setting, now, [Statement(t, None)] + []), t, o)
  {
    hide Moved, Touches, MoveLine;
    assert s.orders[o].lines[..|s.orders[o].lines|] == s.orders[o].lines;
    Prepend(setting, now, Statement(t, None), []);
  }

  /**
   * Before anything is confirmed, any one of the calls can confirm: with the booking row free and the order
   * still reserved in full, running it alone ends with exactly the effect of the confirmation as one step.
   */
  lemma AloneCompletes(setting: Setting, s: State, t: ThreadId, o: OrderId) returns (events: seq<Event>)
    requires setting.bookingFirst && Initial(s) && t in s.threads && IsReserved(setting, s, o)
    ensures Schedule(setting, s, events)
    ensures IsConfirmedBy(setting, s, After(setting, s, events), t, o)
  {
    hide Enabled, Step, Reaches, IsConfirmedBy;
    var starts := Starts(setting, s, t, o);
    var s1 := After(setting, s, starts);
    var moves := MovesAll(setting, s, s1, t, o, 0);
    var s2 := After(setting, s1, moves);
    var captures := Captures(setting, s, s2, t, o);
    var s3 := After(setting, s2, captures);
    var commits := [Statement(t, None)] + [];
    Commits(setting, s, s3, t, o);
    Append(setting, s2, captures, commits);
    Append(setting, s1, moves, captures + commits);
    Append(setting, s, starts, moves + (captures + commits));
    events := starts + (moves + (captures + commits));
  }
}
