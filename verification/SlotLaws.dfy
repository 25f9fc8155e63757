/** When each call on a reservation's slots is accepted, with what refusal otherwise, and what it writes. */
module SlotLaws {
  import opened Tables
  import opened Operations

  /** Access to the reservation comes before all else. */
  ghost predicate HasAccess(db: Db, guest: GuestId, eri: Eri)
  {
    (eri, guest) in db.access
  }

  /** Slot `i` of the reservation is the first with the number. */
  ghost predicate IsSlot(db: Db, eri: Eri, number: nat, i: nat)
  {
    && eri in db.slots && i < |db.slots[eri]| && db.slots[eri][i].number == number
    && forall j | 0 <= j < i :: db.slots[eri][j].number != number
  }

  /** The eighteenth birthday is today or was before. */
  predicate IsAdult(born: Date, today: Date)
  {
    || born.year + 18 < today.year
    || (born.year + 18 == today.year
        && (born.month < today.month || (born.month == today.month && born.day <= today.day)))
  }

  lemma SlotIsFound(db: Db, eri: Eri, number: nat)
    ensures var i := SlotIndex(SlotsOf(db, eri), number);
            && (i < |SlotsOf(db, eri)| <==> IsSlot(db, eri, number, i))
            && forall j: nat | IsSlot(db, eri, number, j) :: j == i
  {
    hide SlotIndex;
  }

  /**
   * A submission is accepted exactly with access, for a slot of the reservation, with consent, from an adult. It
   * is the submission of the guest in the slot, or the caller's for a free one, and replaces an earlier one.
   */
  lemma SubmitExactly(db: Db, guest: GuestId, eri: Eri, number: nat, consent: bool, born: Date, today: Date)
    ensures var r := SubmitKyc(db, guest, eri, number, consent, born, today);
            && (!HasAccess(db, guest, eri) ==> r == Reply(db, Refused(Forbidden)))
            && (HasAccess(db, guest, eri) && !(exists i: nat :: IsSlot(db, eri, number, i)) ==>
                 r == Reply(db, Refused(NotFound)))
            && (forall i: nat | HasAccess(db, guest, eri) && IsSlot(db, eri, number, i) ::
                 if consent && IsAdult(born, today) then
                   var holder := if db.slots[eri][i].guest.Some? then db.slots[eri][i].guest.value else guest;
                   r == Reply(db.(submissions := db.submissions[SlotRef(eri, number) := holder]), Done)
                 else r == Reply(db, Refused(BadRequest)))
  {
    hide SlotIndex, IsSlot;
    SlotIsFound(db, eri, number);
  }

  /** A new slot is free, comes last, and has the number after the greatest of the reservation. */
  lemma AddExactly(db: Db, guest: GuestId, eri: Eri)
    ensures var r, before := AddSlot(db, guest, eri), SlotsOf(db, eri);
            && (!HasAccess(db, guest, eri) ==> r == Reply(db, Refused(Forbidden)))
            && (HasAccess(db, guest, eri) ==>
                 && r.outcome == Done && eri in r.db.slots
                 && r.db == db.(slots := db.slots[eri := r.db.slots[eri]])
                 && |r.db.slots[eri]| == |before| + 1 && r.db.slots[eri][..|before|] == before
                 && var added := r.db.slots[eri][|before|];
                    && added.guest.None?
                    && (before == [] ==> added.number == 1)
                    && (forall i | 0 <= i < |before| :: before[i].number < added.number)
                    && (before != [] ==> exists i | 0 <= i < |before| :: before[i].number + 1 == added.number))
  {
    var before := SlotsOf(db, eri);
    if before != [] {
      var n := LastNumber(before);
      var last :| last in before && last.number == n;
      var i :| 0 <= i < |before| && before[i] == last;
      assert before[i].number == n;
    }
  }

  /** A deletion takes exactly the slot with the number out, and the submission for it. */
  lemma DeleteExactly(db: Db, guest: GuestId, eri: Eri, number: nat)
    ensures var r := DeleteSlot(db, guest, eri, number);
            && (!HasAccess(db, guest, eri) ==> r == Reply(db, Refused(Forbidden)))
            && (HasAccess(db, guest, eri) && !(exists i: nat :: IsSlot(db, eri, number, i)) ==>
                 r == Reply(db, Refused(NotFound)))
            && (forall i: nat | HasAccess(db, guest, eri) && IsSlot(db, eri, number, i) ::
                 && r.outcome == Done
                 && r.db == db.(slots := db.slots[eri := db.slots[eri][..i] + db.slots[eri][i + 1..]],
                                submissions := r.db.submissions)
                 && r.db.submissions == map s | s in db.submissions && s != SlotRef(eri, number) :: db.submissions[s])
  {
    hide SlotIndex, IsSlot;
    SlotIsFound(db, eri, number);
    assert db.submissions - {SlotRef(eri, number)}
        == map s | s in db.submissions && s != SlotRef(eri, number) :: db.submissions[s];
  }
}
