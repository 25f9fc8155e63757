/**
 * The sync handler of long-stay bookings. Unlike the nightly handler it does nothing at all once a
 * reservation number is stored.
 */
module ColiveSync {
  import opened Wrappers

  type DraftId = nat

  datatype SyncStatus = NotSynced | Partial | Synced | FailedSync

  datatype Draft = Draft(reservationNo: Option<string>, status: SyncStatus)

  /** An insert may fail, succeed, or succeed without its answer being heard. */
  datatype Insert = Refused | Unheard | Inserted(no: string)

  /** What eZee and the database do during one run. */
  datatype Fate = Fate(
    configured: bool, insert: Insert, stores: bool, processes: bool, marksSynced: bool, logsSuccess: bool,
    marksFailed: bool)

  /** A run's draft, its successful and lost inserts, and whether its message is deleted. */
  datatype Run = Run(draft: Draft, inserts: nat, lost: nat, finished: bool)

  /** The caught error marks the draft as failed, if that write succeeds, and is thrown again. */
  function Caught(d: Draft, fate: Fate): Draft
  {
    if fate.marksFailed then d.(status := FailedSync) else d
  }

  function RunOn(d: Draft, fate: Fate): Run
  {
    if d.reservationNo.Some? then Run(d, 0, 0, true)
    else if !fate.configured then Run(d, 0, 0, false)
    else if fate.insert.Refused? then Run(Caught(d, fate), 0, 0, false)
    else if fate.insert.Unheard? then Run(Caught(d, fate), 1, 1, false)
    else if !fate.stores then Run(Caught(d, fate), 1, 1, false)
    else
      var stored := Draft(Some(fate.insert.no), Partial);
      if !fate.processes || !fate.marksSynced then Run(Caught(stored, fate), 1, 0, false)
      else if !fate.logsSuccess then Run(Caught(stored.(status := Synced), fate), 1, 0, false)
      else Run(stored.(status := Synced), 1, 0, true)
  }

  /** The run went through every step. */
  predicate WentThrough(fate: Fate)
  {
    && fate.configured && fate.insert.Inserted? && fate.stores && fate.processes && fate.marksSynced
    && fate.logsSuccess
  }

  /** The status a run that inserts leaves: the last one it could write, and failed if it could still say so. */
  predicate LeavesStatus(d: Draft, fate: Fate, after: SyncStatus)
  {
    var stored := fate.insert.Inserted? && fate.stores;
    && (WentThrough(fate) ==> after == Synced)
    && (!WentThrough(fate) && fate.marksFailed ==> after == FailedSync)
    && (!WentThrough(fate) && !fate.marksFailed ==>
         after == if !stored then d.status else if fate.processes && fate.marksSynced then Synced else Partial)
  }

  /**
   * The message is deleted exactly when there was a number already or every step was gone through. Only a
   * configured run on a draft without a number writes: it inserts at most once, and the insert is lost
   * unless its number is stored.
   */
  predicate IsRun(d: Draft, fate: Fate, r: Run)
  {
    var inserts := fate.configured && d.reservationNo.None?;
    && (r.finished <==> d.reservationNo.Some? || WentThrough(fate))
    && (!inserts ==> r.draft == d && r.inserts == r.lost == 0)
    && (inserts ==>
         && r.draft.reservationNo == (if fate.insert.Inserted? && fate.stores then Some(fate.insert.no) else None)
         && LeavesStatus(d, fate, r.draft.status)
         && r.inserts == (if fate.insert.Refused? then 0 else 1)
         && r.lost == (if r.draft.reservationNo.Some? then 0 else r.inserts))
  }

  lemma RunExactly(d: Draft, fate: Fate)
    ensures IsRun(d, fate, RunOn(d, fate))
  {
  }

  class Drafts {
    var rows: map<DraftId, Draft>

    constructor (rows: map<DraftId, Draft>)
      ensures this.rows == rows
    {
      this.rows := rows;
    }

    method HandleInsertColiveBooking(id: DraftId, fate: Fate) returns (finished: bool, inserts: nat, lost: nat)
      modifies this
      ensures id !in old(rows) ==> rows == old(rows) && finished && inserts == lost == 0
      ensures id in old(rows) ==>
                && id in rows && rows == old(rows)[id := rows[id]]
                && Run(rows[id], inserts, lost, finished) == RunOn(old(rows)[id], fate)
                && IsRun(old(rows)[id], fate, Run(rows[id], inserts, lost, finished))
    {
      inserts, lost := 0, 0;
      if id !in rows {
        return true, inserts, lost;
      }
      if rows[id].reservationNo.Some? {
        return true, inserts, lost;
      }
      if !fate.configured {
        return false, inserts, lost;
      }
      finished := false;
      if fate.insert.Unheard? {
        inserts, lost := 1, 1;
      } else if fate.insert.Inserted? {
        inserts := 1;
        if fate.stores {
          rows := rows[id := rows[id].(reservationNo := Some(fate.insert.no), status := Partial)];
          if fate.processes && fate.marksSynced {
            rows := rows[id := rows[id].(status := Synced)];
            if fate.logsSuccess {
              return true, inserts, lost;
            }
          }
        } else {
          lost := 1;
        }
      }
      if fate.marksFailed {
        rows := rows[id := rows[id].(status := FailedSync)];
      }
    }
  }

  /** Redeliveries of the message, each with its own fate. */
  function RunsOn(d: Draft, fates: seq<Fate>): Run
  {
    if fates == [] then Run(d, 0, 0, true)
    else
      var earlier := RunsOn(d, fates[..|fates| - 1]);
      var last := RunOn(earlier.draft, fates[|fates| - 1]);
      Run(last.draft, earlier.inserts + last.inserts, earlier.lost + last.lost, last.finished)
  }

  function Stored(d: Draft): nat
  {
    if d.reservationNo.Some? then 1 else 0
  }

  /** Inserts are counted by the stored number and the lost ones, and a stored number stays. */
  lemma {:induction false} InsertsAreAccounted(d: Draft, fates: seq<Fate>)
    ensures RunsOn(d, fates).inserts + Stored(d) == Stored(RunsOn(d, fates).draft) + RunsOn(d, fates).lost
    ensures Stored(d) == 1 ==> RunsOn(d, fates).draft == d
  {
    if fates != [] {
      InsertsAreAccounted(d, fates[..|fates| - 1]);
    }
  }

  /** The run that stores the number decides the outcome for good. */
  ghost predicate StoringRunSucceeds(d: Draft, fates: seq<Fate>, k: nat)
    requires k < |fates|
  {
    && RunsOn(d, fates[..k]).draft.reservationNo.None?
    && fates[k].configured && fates[k].insert.Inserted? && fates[k].stores && fates[k].processes && fates[k].marksSynced
    && (fates[k].logsSuccess || !fates[k].marksFailed)
  }

  /**
   * A draft ends up synced if and only if a single run went through every step and was not marked as
   * failed afterwards: a run that fails after storing the number is never resumed by a redelivery.
   */
  lemma {:induction false} SyncedExactly(d: Draft, fates: seq<Fate>)
    requires d.reservationNo.None? && d.status != Synced
    ensures RunsOn(d, fates).draft.status == Synced
            <==> exists k | 0 <= k < |fates| :: StoringRunSucceeds(d, fates, k)
  {
    if fates != [] {
      var n := |fates| - 1;
      var earlier := fates[..n];
      SyncedExactly(d, earlier);
      forall k | 0 <= k < n
        ensures StoringRunSucceeds(d, fates, k) <==> StoringRunSucceeds(d, earlier, k)
      {
        assert fates[..k] == earlier[..k];
      }
      UnsyncedHasNoNumber(d, earlier);
      assert StoringRunSucceeds(d, fates, n)
        <==> RunsOn(d, earlier).draft.reservationNo.None?
             && RunOn(RunsOn(d, earlier).draft, fates[n]).draft.status == Synced;
    }
  }

  lemma {:induction false} UnsyncedHasNoNumber(d: Draft, fates: seq<Fate>)
    requires d.reservationNo.None? && d.status != Synced
    ensures RunsOn(d, fates).draft.status == Synced ==> RunsOn(d, fates).draft.reservationNo.Some?
  {
    if fates != [] {
      UnsyncedHasNoNumber(d, fates[..|fates| - 1]);
    }
  }
}
