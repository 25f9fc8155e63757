/** Guest slots and their KYC submissions, statement by statement. */
module GuestKycService {
  import opened Wrappers
  import opened RoomOrders
  import opened Tables
  import opened Operations
  import opened Runs
  import opened Database
  import opened Ledger

  /** A slot that has a submission may be submitted again; nothing in the program locks it. */
  method SubmitKyc(db: Database, guest: GuestId, eri: Eri, number: nat, consent: bool, born: Date, today: Date)
    returns (outcome: Outcome)
    requires db.Valid()
    modifies db
    ensures db.Valid()
    ensures db.supplied == old(db.supplied)
    ensures Reply(db.State(), outcome)
         == Operations.SubmitKyc(old(db.State()), guest, eri, number, consent, born, today)
  {
    hide Sound, Accounts, SlotIndex;
    ghost var before := db.State();
    if (eri, guest) !in db.access {
      return Refused(Forbidden);
    }
    var slots := if eri in db.slots then db.slots[eri] else [];
    var i := SlotIndex(slots, number);
    if i == |slots| {
      return Refused(NotFound);
    }
    if !consent {
      return Refused(BadRequest);
    }
    var age := today.year - born.year;
    if today.month < born.month || (today.month == born.month && today.day < born.day) {
      age := age - 1;
    }
    if age < ADULT {
      return Refused(BadRequest);
    }
    var kycGuest := slots[i].guest.GetOr(guest);
    db.submissions := db.submissions[SlotRef(eri, number) := kycGuest];
    CallKeeps(before, Submit(guest, eri, number, consent, born, today), db.State(), db.supplied);
    return Done;
  }

  method AddSlot(db: Database, guest: GuestId, eri: Eri) returns (outcome: Outcome)
    requires db.Valid()
    modifies db
    ensures db.Valid()
    ensures db.supplied == old(db.supplied)
    ensures Reply(db.State(), outcome) == Operations.AddSlot(old(db.State()), guest, eri)
  {
    hide Sound, Accounts, LastNumber;
    ghost var before := db.State();
    if (eri, guest) !in db.access {
      return Refused(Forbidden);
    }
    var existing := if eri in db.slots then db.slots[eri] else [];
    db.slots := db.slots[eri := existing + [Slot(LastNumber(existing) + 1, None)]];
    CallKeeps(before, NewSlot(guest, eri), db.State(), db.supplied);
    return Done;
  }

  /** The submission is deleted before the slot that it refers to. */
  method DeleteSlot(db: Database, guest: GuestId, eri: Eri, number: nat) returns (outcome: Outcome)
    requires db.Valid()
    modifies db
    ensures db.Valid()
    ensures db.supplied == old(db.supplied)
    ensures Reply(db.State(), outcome) == Operations.DeleteSlot(old(db.State()), guest, eri, number)
  {
    hide Sound, Accounts, SlotIndex;
    ghost var before := db.State();
    if (eri, guest) !in db.access {
      return Refused(Forbidden);
    }
    var slots := if eri in db.slots then db.slots[eri] else [];
    var i := SlotIndex(slots, number);
    if i == |slots| {
      return Refused(NotFound);
    }
    db.submissions := db.submissions - {SlotRef(eri, number)};
    db.slots := db.slots[eri := slots[..i] + slots[i + 1..]];
    CallKeeps(before, DropSlot(guest, eri, number), db.State(), db.supplied);
    return Done;
  }
}
