/**
 * Pulling remote booking state into the booking table: the queueing of unsynced bookings, the
 * correction of drifted rows, and the ingestion of bookings made elsewhere.
 */
module EzeeReconciliation {
  import opened Wrappers
  import opened Tables
  import opened Database

  type Bookings = map<Eri, BookingRow>

  // ---------------------------------------------------------------- unsynced bookings

  /** The payload that matters of an insert-booking message. */
  datatype Message = Message(eri: Eri, amount: int)

  predicate Unsynced(eri: Eri, row: BookingRow)
  {
    row.status == Confirmed && row.active && row.reservationNo.None? && "TDS-" <= eri
  }

  predicate CapturedFor(payments: map<PaymentId, Payment>, x: PaymentId, eri: Eri)
  {
    && x in payments && payments[x].eri == eri && payments[x].purpose == ForBooking
    && payments[x].status == Captured
  }

  /** Money has been captured for the booking itself. */
  ghost predicate PaidFor(payments: map<PaymentId, Payment>, eri: Eri)
  {
    exists x :: CapturedFor(payments, x, eri)
  }

  lemma PaidExactly(payments: map<PaymentId, Payment>)
    ensures forall e :: PaidFor(payments, e) <==>
              exists x :: x in payments && payments[x].eri == e && payments[x].purpose == ForBooking
                          && payments[x].status == Captured
  {
    forall e, x | x in payments && payments[x].eri == e && payments[x].purpose == ForBooking
                  && payments[x].status == Captured
      ensures PaidFor(payments, e)
    {
      assert CapturedFor(payments, x, e);
    }
  }

  ghost predicate MessageFor(payments: map<PaymentId, Payment>, m: Message)
  {
    exists x :: CapturedFor(payments, x, m.eri) && payments[x].amount == m.amount
  }

  /** One message for each unsynced booking that has a captured payment, for the amount of one of these. */
  method ReconcileUnsyncedBookings(db: Database) returns (sent: map<Eri, Message>)
    ensures forall e :: e in sent <==>
              && e in db.bookings && db.bookings[e].status == Confirmed && db.bookings[e].active
              && db.bookings[e].reservationNo.None? && "TDS-" <= e
              && exists x :: x in db.payments && db.payments[x].eri == e && db.payments[x].purpose == ForBooking
                             && db.payments[x].status == Captured
    ensures forall e | e in sent ::
              sent[e].eri == e
              && exists x :: x in db.payments && db.payments[x].eri == e && db.payments[x].purpose == ForBooking
                             && db.payments[x].status == Captured && db.payments[x].amount == sent[e].amount
  {
    sent := map[];
    var rest := set e | e in db.bookings && Unsynced(e, db.bookings[e]);
    ghost var unsynced := rest;
    while rest != {}
      invariant rest <= unsynced
      invariant forall e :: e in sent <==> e in unsynced - rest && PaidFor(db.payments, e)
      invariant forall e | e in sent :: sent[e].eri == e && MessageFor(db.payments, sent[e])
      decreases |rest|
    {
      var e :| e in rest;
      rest := rest - {e};
      var captured := set x | x in db.payments && CapturedFor(db.payments, x, e);
      if captured == {} {
        assert forall x :: CapturedFor(db.payments, x, e) ==> x in captured;
      } else {
        var x :| x in captured;
        assert CapturedFor(db.payments, x, e);
        sent := sent[e := Message(e, db.payments[x].amount)];
      }
    }
    PaidExactly(db.payments);
  }

  // ---------------------------------------------------------------- drifted rows

  /** The first part of a reservation as eZee reports it. */
  datatype Tran = Tran(currentStatus: string, roomName: Option<string>)

  datatype Fetch = FetchFailed | NotInEzee | Found(trans: seq<Tran>)

  function MapStatus(s: string): Option<BookingStatus>
  {
    if s == "Confirmed Reservation" then Some(Confirmed)
    else if s == "Cancelled Reservation" then Some(Cancelled)
    else if s == "Checked In" then Some(CheckedIn)
    else if s == "Checked Out" then Some(CheckedOut)
    else if s == "No Show" then Some(NoShow)
    else if s == "Dayuse Reservation" then Some(Confirmed)
    else None
  }

  predicate ActiveSynced(row: BookingRow)
  {
    (row.status == Confirmed || row.status == CheckedIn) && row.active && row.reservationNo.Some?
  }

  /** Fields to write; absent ones stay as they are. */
  datatype Updates = Updates(status: Option<BookingStatus>, active: Option<bool>, room: Option<string>)

  const NOTHING := Updates(None, None, None)

  function Apply(row: BookingRow, u: Updates): BookingRow
  {
    row.(status := u.status.GetOr(row.status),
         active := u.active.GetOr(row.active),
         room := if u.room.Some? then u.room else row.room)
  }

  predicate Ends(s: BookingStatus)
  {
    s == Cancelled || s == NoShow || s == CheckedOut
  }

  /** What drifted, given the status and room the pass has listed for the row. */
  function Drift(seen: BookingRow, tran: Tran): Updates
  {
    var ezeeStatus := MapStatus(tran.currentStatus);
    var drifted := ezeeStatus.Some? && ezeeStatus.value != seen.status;
    Updates(
      if drifted then ezeeStatus else None,
      if drifted && Ends(ezeeStatus.value) then Some(false) else None,
      if tran.roomName.Some? && tran.roomName.value != "" && tran.roomName != seen.room
      then tran.roomName else None)
  }

  /** What eZee answers for each property and reservation number. */
  type Snapshot = (PropertyId, string) -> Fetch

  function FirstTran(remote: Snapshot, row: BookingRow): Option<Tran>
    requires row.reservationNo.Some?
  {
    match remote(row.property, row.reservationNo.value)
    case Found(trans) => if trans == [] then None else Some(trans[0])
    case _ => None
  }

  function Corrections(remote: Snapshot, row: BookingRow): Updates
  {
    if !ActiveSynced(row) then NOTHING
    else
      match FirstTran(remote, row)
      case Some(tran) => Drift(row, tran)
      case None => NOTHING
  }

  /** The table after one pass against a fixed snapshot. */
  ghost function Reconciled(bookings: Bookings, remote: Snapshot): Bookings
  {
    map e | e in bookings :: Apply(bookings[e], Corrections(remote, bookings[e]))
  }

  /** The rows a pass writes. */
  ghost function Written(bookings: Bookings, remote: Snapshot): set<Eri>
  {
    set e | e in bookings && Corrections(remote, bookings[e]) != NOTHING
  }

  const STATUSES :=
    {"Confirmed Reservation", "Dayuse Reservation", "Cancelled Reservation", "Checked In", "Checked Out", "No Show"}

  /** A current, numbered booking for which eZee answers with at least one part. */
  predicate Answered(row: BookingRow, remote: Snapshot)
  {
    && (row.status == Confirmed || row.status == CheckedIn) && row.active && row.reservationNo.Some?
    && var fetch := remote(row.property, row.reservationNo.value); fetch.Found? && fetch.trans != []
  }

  /** A row's status and activity, by the words in which eZee reports the booking. */
  predicate StatusFollows(row: BookingRow, after: BookingRow, reported: string)
  {
    && (reported == "Confirmed Reservation" ==> after.status == Confirmed && after.active)
    && (reported == "Dayuse Reservation" ==> after.status == Confirmed && after.active)
    && (reported == "Cancelled Reservation" ==> after.status == Cancelled && !after.active)
    && (reported == "Checked In" ==> after.status == CheckedIn && after.active)
    && (reported == "Checked Out" ==> after.status == CheckedOut && !after.active)
    && (reported == "No Show" ==> after.status == NoShow && !after.active)
    && (reported !in STATUSES ==> after.status == row.status && after.active == row.active)
  }

  /** What a pass makes of a row: eZee's first part decides status, activity and room, and nothing else changes. */
  predicate IsReconciled(row: BookingRow, after: BookingRow, remote: Snapshot)
  {
    if Answered(row, remote) then
      var tran := remote(row.property, row.reservationNo.value).trans[0];
      && StatusFollows(row, after, tran.currentStatus)
      && after.room == (if tran.roomName.Some? && tran.roomName.value != "" then tran.roomName else row.room)
      && after == row.(status := after.status, active := after.active, room := after.room)
    else after == row
  }

  /** The corrections bring a row to what eZee says, and are empty exactly when it says so already. */
  lemma CorrectionsFollow(row: BookingRow, remote: Snapshot)
    ensures IsReconciled(row, Apply(row, Corrections(remote, row)), remote)
    ensures Corrections(remote, row) == NOTHING <==> Apply(row, Corrections(remote, row)) == row
  {
  }

  /** The updates record of one listed booking; a failed fetch or a missing reservation leaves it empty. */
  method CollectUpdates(booking: BookingRow, remote: Snapshot) returns (updates: Updates)
    requires ActiveSynced(booking)
    ensures IsReconciled(booking, Apply(booking, updates), remote)
    ensures updates == NOTHING <==> Apply(booking, updates) == booking
    ensures updates == Corrections(remote, booking)
  {
    hide MapStatus, IsReconciled, Apply;
    CorrectionsFollow(booking, remote);
    var ezeeData := remote(booking.property, booking.reservationNo.value);
    updates := NOTHING;
    if !ezeeData.Found? || ezeeData.trans == [] {
      return;
    }
    var tran := ezeeData.trans[0];
    var ezeeStatus := MapStatus(tran.currentStatus);
    if ezeeStatus.Some? && ezeeStatus.value != booking.status {
      updates := updates.(status := ezeeStatus);
      if ezeeStatus.value == Cancelled || ezeeStatus.value == NoShow {
        updates := updates.(active := Some(false));
      } else if ezeeStatus.value == CheckedOut {
        updates := updates.(active := Some(false));
      }
    }
    if tran.roomName.Some? && tran.roomName.value != "" && tran.roomName != booking.room {
      updates := updates.(room := tran.roomName);
    }
  }

  /** A pass leaves every row as eZee says, and writes exactly the rows that it changes. */
  ghost predicate Followed(before: Bookings, after: Bookings, remote: Snapshot, written: set<Eri>)
  {
    && after.Keys == before.Keys
    && (forall e | e in before :: IsReconciled(before[e], after[e], remote))
    && (forall e :: e in written <==> e in before && after[e] != before[e])
  }

  lemma PassFollows(bookings: Bookings, remote: Snapshot)
    ensures Followed(bookings, Reconciled(bookings, remote), remote, Written(bookings, remote))
  {
    hide IsReconciled, Corrections, Apply;
    forall e | e in bookings
      ensures IsReconciled(bookings[e], Reconciled(bookings, remote)[e], remote)
      ensures e in Written(bookings, remote) <==> Reconciled(bookings, remote)[e] != bookings[e]
    {
      CorrectionsFollow(bookings[e], remote);
    }
  }

  method ReconcileEzeeState(db: Database, remote: Snapshot) returns (written: set<Eri>)
    modifies db`bookings
    ensures Followed(old(db.bookings), db.bookings, remote, written)
    ensures db.bookings == Reconciled(old(db.bookings), remote)
    ensures written == Written(old(db.bookings), remote)
  {
    hide Apply, Drift, FirstTran, IsReconciled, Followed;
    ghost var before := db.bookings;
    PassFollows(before, remote);
    var activeSynced := set e | e in db.bookings && ActiveSynced(db.bookings[e]);
    var rest := activeSynced;
    written := {};
    while rest != {}
      invariant rest <= activeSynced && db.bookings.Keys == before.Keys
      invariant forall e | e in before ::
                  db.bookings[e] ==
                  if e in activeSynced - rest then Apply(before[e], Corrections(remote, before[e])) else before[e]
      invariant forall e :: e in written <==>
                  e in activeSynced - rest && e in before && Corrections(remote, before[e]) != NOTHING
      decreases |rest|
    {
      var e :| e in rest;
      rest := rest - {e};
      var booking := db.bookings[e];
      var updates := CollectUpdates(booking, remote);
      if updates != NOTHING {
        db.bookings := db.bookings[e := Apply(booking, updates)];
        written := written + {e};
      } else {
        NothingApplies(booking);
      }
    }
    forall e | e in before && e !in activeSynced
      ensures Apply(before[e], Corrections(remote, before[e])) == before[e]
    {
      NothingApplies(before[e]);
    }
    assert db.bookings == Reconciled(before, remote) && written == Written(before, remote);
  }

  lemma NothingApplies(row: BookingRow)
    ensures Apply(row, NOTHING) == row
  {
  }

  /**
   * After one pass every row that eZee answered for has the status, activity and room of the answer,
   * all other rows are as before, and another pass against the same answers writes nothing.
   */
  lemma PassConverges(bookings: Bookings, remote: Snapshot)
    ensures Followed(bookings, Reconciled(bookings, remote), remote, Written(bookings, remote))
    ensures var after := Reconciled(bookings, remote);
            && Written(after, remote) == {}
            && Reconciled(after, remote) == after
  {
    hide Followed, Corrections, Apply;
    PassFollows(bookings, remote);
    var after := Reconciled(bookings, remote);
    forall e | e in bookings
      ensures Corrections(remote, after[e]) == NOTHING
    {
      RowConverges(bookings[e], remote);
    }
    forall e | e in after
      ensures Reconciled(after, remote)[e] == after[e]
    {
      NothingApplies(after[e]);
    }
  }

  lemma RowConverges(row: BookingRow, remote: Snapshot)
    ensures Corrections(remote, Apply(row, Corrections(remote, row))) == NOTHING
  {
    hide MapStatus;
  }

  /** A row that has not changed since it was listed is brought to what eZee says. */
  lemma DriftFollows(row: BookingRow, remote: Snapshot)
    requires Answered(row, remote)
    ensures var tran := remote(row.property, row.reservationNo.value).trans[0];
            IsReconciled(row, Apply(row, Drift(row, tran)), remote)
  {
    hide IsReconciled, Drift, Apply;
    CorrectionsFollow(row, remote);
  }
}
