/**
 What staging, limiting and completing a folder snapshot store, row by row, and how its page loop ends by the first turn
 that is not a page with a continuation.
 */
module FolderOutcomes {
  import opened Common
  import opened ArchiveTables
  import Snapshots
  import opened Folders

  // ---------------------------------------------------------------- what each transaction stores

  /** Staging adds the page's posts at this time and moves the checkpoint of the run, whatever its state. */
  lemma StagingStores(t: FolderTables, handle: FolderRun, page: Snapshots.Page, at: Instant, p: PostId, a: Uuid, r: Uuid)
    ensures var u := StageMembers(t, handle, page, at);
            && u.(staged := t.staged, runs := t.runs) == t
            && (a != handle.snapshot ==> StagedIn(u, a) == StagedIn(t, a))
            && (p in StagedIn(u, handle.snapshot) <==> p in StagedIn(t, handle.snapshot) || p in page.items)
            && (p in StagedIn(u, handle.snapshot) ==>
                  StagedIn(u, handle.snapshot)[p] == if p in page.items then at else StagedIn(t, handle.snapshot)[p])
            && (r in u.runs <==> r in t.runs)
            && (r in t.runs ==> u.runs[r] == if r == handle.run then t.runs[r].(checkpoint := page.next) else t.runs[r])
  {
  }

  /** The run is running, and its snapshot is of this folder and not complete. */
  predicate RunningAndOpen(t: FolderTables, handle: FolderRun)
  {
    && handle.run in t.runs && t.runs[handle.run].state == Running
    && handle.snapshot in t.snapshots && t.snapshots[handle.snapshot].run == handle.run
    && t.snapshots[handle.snapshot].folder == handle.folder && !t.snapshots[handle.snapshot].complete
  }

  lemma CompletesExactly(t: FolderTables, handle: FolderRun)
    ensures FolderFinalizable(t, handle) <==> RunningAndOpen(t, handle)
  {
  }

  /** A run can be resumed exactly when it is one of the account, not completed, with this snapshot of this folder. */
  lemma ResumesExactly(t: FolderTables, account: Uuid, folder: Uuid, run: Uuid, snapshot: Uuid)
    ensures Resumable(t, account, folder, run, snapshot) <==>
            && run in t.runs && t.runs[run].account == account && (t.runs[run].state == Running || t.runs[run].state == RunFailed)
            && snapshot in t.snapshots && t.snapshots[snapshot].run == run && t.snapshots[snapshot].folder == folder
  {
  }

  /** A new run starts without a checkpoint, can be completed under its own handle, and leaves every other row. */
  lemma OpeningStores(t: FolderTables, account: Uuid, folder: Uuid, run: Uuid, snapshot: Uuid)
    ensures var u := OpenRun(t, account, folder, run, snapshot);
            && RunningAndOpen(u, FolderRun(run, snapshot, folder, None)) && u.runs[run].account == account && u.runs[run].checkpoint == None
            && u == t.(runs := t.runs[run := u.runs[run]], snapshots := t.snapshots[snapshot := u.snapshots[snapshot]])
  {
  }

  /** The run is closed, the snapshot complete and the folder's authority; staged items and limits stay. */
  lemma CompletionCloses(t: FolderTables, handle: FolderRun, at: Instant)
    requires RunningAndOpen(t, handle)
    ensures FolderFinalizable(t, handle)
    ensures var u := CompleteFolder(t, handle, at);
            && u.staged == t.staged && u.limits == t.limits
            && u.runs == t.runs[handle.run := t.runs[handle.run].(state := Completed, checkpoint := None,
                                                                  statistics := u.runs[handle.run].statistics)]
            && u.snapshots == t.snapshots[handle.snapshot := FolderSnapshot(handle.run, handle.folder, true)]
            && u.authority == t.authority[handle.folder := handle.snapshot]
  {
  }

  /**
   Each member after completion. A staged one is active, first seen as before or when staged. An active one that was not
   staged is removed now by this snapshot and keeps its first sighting. Every other is as it was, and none is added.
   */
  lemma CompletionStores(members: Members, folder: Uuid, items: StagedItems, snapshot: Uuid, at: Instant, k: MemberKey)
    ensures var after := ReconciledMembers(members, folder, items, snapshot, at);
            if k.folder == folder && k.post in items then
              k in after && after[k] == Member(if k in members then members[k].firstAt else items[k.post], None, None)
            else
              && (k in after <==> k in members)
              && (k in members ==>
                    after[k] == if k.folder == folder && members[k].removedAt == None then Member(members[k].firstAt, Some(at), Some(snapshot))
                                else members[k])
  {
    var upserted := UpsertMembers(members, folder, items);
    if k.folder == folder && k.post in items {
      assert k == MemberKey(folder, k.post) && k in MemberKeys(folder, items.Keys);
    } else {
      assert k !in MemberKeys(folder, items.Keys);
      if k.folder == folder {
        assert k == MemberKey(folder, k.post);
        assert k.post in ActiveMembers(members, folder) <==> k in members && members[k].removedAt.None?;
      }
    }
  }

  /** An observation completion adds carries the completion's time. */
  lemma ObservedWhenCompleted(before: Observations, active: set<PostId>, staged: set<PostId>, folder: Uuid, snapshot: Uuid, at: Instant, k: ObservationKey)
    requires k in ReconciledObservations(before, active, staged, folder, snapshot, at) && k !in before
    ensures ReconciledObservations(before, active, staged, folder, snapshot, at)[k] == at
  {
  }

  // ---------------------------------------------------------------- how a page loop ends

  predicate GoesOn(turn: FolderTurn) { turn.Delivered? && turn.page.next != None }

  /** Turn `n` ends the loop: every earlier one brought a page with a continuation. */
  predicate EndsAt(turns: seq<FolderTurn>, n: nat)
  {
    n <= |turns| && (forall i | 0 <= i < n :: GoesOn(turns[i])) && (n < |turns| ==> !GoesOn(turns[n]))
  }

  /** The pages up to the end staged, in order. */
  function StagedThrough(t: FolderTables, handle: FolderRun, turns: seq<FolderTurn>, n: nat): FolderTables
    requires n <= |turns| && forall i | 0 <= i < n :: turns[i].Delivered?
    decreases n
  {
    if n == 0 then t else StageMembers(StagedThrough(t, handle, turns, n - 1), handle, turns[n - 1].page, turns[n - 1].at)
  }

  /** Only the run's state changed, to failed. */
  predicate FailedRun(t: FolderTables, u: FolderTables, run: Uuid)
  {
    if run in t.runs then u == t.(runs := t.runs[run := t.runs[run].(state := RunFailed)]) else u == t
  }

  /** What the turn that ends the loop, if there is one, makes of the tables the pages before it left. */
  ghost predicate ClosesAs(t: FolderTables, handle: FolderRun, turn: Option<FolderTurn>, completedAt: Instant, after: FolderTables, outcome: FolderOutcome)
  {
    if turn == None then after == t && outcome == Crashed
    else match turn.value
      case BudgetRefused => FailedRun(t, after, handle.run) && outcome == Incomplete
      case Unavailable => FailedRun(t, after, handle.run) && outcome == Incomplete
      case BudgetFailed => FailedRun(t, after, handle.run) && outcome == Errored
      case Unnormalizable => FailedRun(t, after, handle.run) && outcome == Errored
      case Limited(capability) =>
        if handle.run in t.runs then
          && outcome == CapabilityLimited(capability)
          && FailedRun(t, after.(limits := t.limits), handle.run)
          && after.limits == t.limits[(t.runs[handle.run].account, capability) := handle.run]
        else after == t && outcome == Errored
      case Delivered(page, at) => CompletesAs(StageMembers(t, handle, page, at), handle, completedAt, after, outcome)
  }

  ghost predicate CompletesAs(t: FolderTables, handle: FolderRun, completedAt: Instant, after: FolderTables, outcome: FolderOutcome)
  {
    if RunningAndOpen(t, handle) then
      outcome == SnapshotCompleted && FolderFinalizable(t, handle) && after == CompleteFolder(t, handle, completedAt)
    else after == t && outcome == RunUnavailable
  }

  ghost predicate EndsAs(t: FolderTables, handle: FolderRun, turns: seq<FolderTurn>, n: nat, completedAt: Instant, after: FolderTables, outcome: FolderOutcome)
    requires EndsAt(turns, n)
  {
    ClosesAs(StagedThrough(t, handle, turns, n), handle, if n < |turns| then Some(turns[n]) else None, completedAt, after, outcome)
  }

  lemma {:induction false} StagedThroughTail(t: FolderTables, handle: FolderRun, turns: seq<FolderTurn>, n: nat, next: FolderRun)
    requires 0 < n <= |turns| && (forall i | 0 <= i < n :: turns[i].Delivered?) && next == handle.(checkpoint := next.checkpoint)
    ensures StagedThrough(StageMembers(t, handle, turns[0].page, turns[0].at), next, turns[1..], n - 1) == StagedThrough(t, handle, turns, n)
    decreases n
  {
    if n > 1 {
      StagedThroughTail(t, handle, turns, n - 1, next);
    }
  }

  lemma CompletesWhateverCheckpoint(t: FolderTables, handle: FolderRun, next: FolderRun, completedAt: Instant, after: FolderTables, outcome: FolderOutcome)
    requires next == handle.(checkpoint := next.checkpoint) && CompletesAs(t, next, completedAt, after, outcome)
    ensures CompletesAs(t, handle, completedAt, after, outcome)
  {
    if RunningAndOpen(t, handle) {
      assert CompleteFolder(t, next, completedAt) == CompleteFolder(t, handle, completedAt);
    }
  }

  lemma ClosesWhateverCheckpoint(t: FolderTables, handle: FolderRun, next: FolderRun, turn: Option<FolderTurn>, completedAt: Instant,
                                 after: FolderTables, outcome: FolderOutcome)
    requires next == handle.(checkpoint := next.checkpoint) && ClosesAs(t, next, turn, completedAt, after, outcome)
    ensures ClosesAs(t, handle, turn, completedAt, after, outcome)
  {
    if turn.Some? && turn.value.Delivered? {
      assert StageMembers(t, next, turn.value.page, turn.value.at) == StageMembers(t, handle, turn.value.page, turn.value.at);
      CompletesWhateverCheckpoint(StageMembers(t, handle, turn.value.page, turn.value.at), handle, next, completedAt, after, outcome);
    }
  }

  lemma EndsAsTail(t: FolderTables, handle: FolderRun, turns: seq<FolderTurn>, n: nat, completedAt: Instant, after: FolderTables, outcome: FolderOutcome)
    requires EndsAt(turns, n) && n > 0
    requires EndsAt(turns[1..], n - 1)
    requires EndsAs(StageMembers(t, handle, turns[0].page, turns[0].at), handle.(checkpoint := turns[0].page.next), turns[1..], n - 1,
                    completedAt, after, outcome)
    ensures EndsAs(t, handle, turns, n, completedAt, after, outcome)
  {
    var next := handle.(checkpoint := turns[0].page.next);
    StagedThroughTail(t, handle, turns, n, next);
    ClosesWhateverCheckpoint(StagedThrough(t, handle, turns, n), handle, next, if n < |turns| then Some(turns[n]) else None,
                             completedAt, after, outcome);
  }

  lemma LoopEndsNow(t: FolderTables, handle: FolderRun, turns: seq<FolderTurn>, completedAt: Instant)
    requires EndsAt(turns, 0)
    ensures var (after, outcome) := FolderLoop(t, handle, turns, completedAt); EndsAs(t, handle, turns, 0, completedAt, after, outcome)
  {
    if turns != [] && turns[0].Delivered? {
      CompletesExactly(StageMembers(t, handle, turns[0].page, turns[0].at), handle);
    }
  }

  /** The loop stages every page before the turn that ends it, and ends as that turn says. */
  lemma {:induction false} LoopEndsByItsTurn(t: FolderTables, handle: FolderRun, turns: seq<FolderTurn>, completedAt: Instant) returns (n: nat)
    ensures EndsAt(turns, n)
    ensures var (after, outcome) := FolderLoop(t, handle, turns, completedAt); EndsAs(t, handle, turns, n, completedAt, after, outcome)
    decreases |turns|
  {
    if turns == [] || !GoesOn(turns[0]) {
      n := 0;
      LoopEndsNow(t, handle, turns, completedAt);
    } else {
      var m := LoopEndsByItsTurn(StageMembers(t, handle, turns[0].page, turns[0].at), handle.(checkpoint := turns[0].page.next), turns[1..],
                                 completedAt);
      n := m + 1;
      EndExtends(turns, m);
      var (after, outcome) := FolderLoop(t, handle, turns, completedAt);
      EndsAsTail(t, handle, turns, n, completedAt, after, outcome);
    }
  }

  lemma EndExtends(turns: seq<FolderTurn>, m: nat)
    requires turns != [] && GoesOn(turns[0]) && EndsAt(turns[1..], m)
    ensures EndsAt(turns, m + 1)
  {
    forall i | 0 <= i < m + 1 ensures GoesOn(turns[i]) {
      assert i > 0 ==> turns[i] == turns[1..][i - 1];
    }
    assert m + 1 < |turns| ==> turns[m + 1] == turns[1..][m];
  }
}
