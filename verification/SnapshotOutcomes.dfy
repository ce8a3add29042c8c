/**
 What staging and completing a full snapshot store, row by row, when a completion acts at all, and how a page loop ends
 by the first turn that is not a page with a continuation.
 */
module SnapshotOutcomes {
  import opened Common
  import opened ArchiveTables
  import opened Snapshots

  // ---------------------------------------------------------------- staging

  /** Staging adds the page's posts at this time and moves the checkpoint of a running run to the page's continuation. */
  lemma StagingStores(s: SyncTables, handle: RunHandle, page: Page, at: Instant, p: PostId, a: Uuid, r: Uuid)
    ensures var t := StagePage(s, handle, page, at);
            && t.(posts := s.posts, staged := s.staged, runs := s.runs) == s
            && (p in t.posts <==> p in s.posts || p in page.items)
            && (a != handle.snapshot ==> StagedOf(t, a) == StagedOf(s, a))
            && (p in StagedOf(t, handle.snapshot) <==> p in StagedOf(s, handle.snapshot) || p in page.items)
            && (p in page.items ==> StagedOf(t, handle.snapshot)[p] == at)
            && (p in StagedOf(s, handle.snapshot) && p !in page.items ==>
                  StagedOf(t, handle.snapshot)[p] == StagedOf(s, handle.snapshot)[p])
            && (r in t.runs <==> r in s.runs)
            && (r in s.runs && (r != handle.run || s.runs[r].state != Running) ==> t.runs[r] == s.runs[r])
            && (r in s.runs && r == handle.run && s.runs[r].state == Running ==> t.runs[r] == s.runs[r].(checkpoint := page.next))
  {
  }

  // ---------------------------------------------------------------- when a completion acts

  /** The run is running for this account, and its snapshot is there and not complete. */
  predicate RunningAndOpen(s: SyncTables, handle: RunHandle)
  {
    && handle.run in s.runs && s.runs[handle.run].state == Running && s.runs[handle.run].account == handle.account
    && handle.snapshot in s.snapshots && s.snapshots[handle.snapshot] == SnapshotRow(handle.run, false)
  }

  lemma CompletesExactly(s: SyncTables, handle: RunHandle)
    ensures Finalizable(s, handle) <==> RunningAndOpen(s, handle)
  {
  }

  /** A run can be resumed exactly when it is a full one of the account, not completed, with this snapshot. */
  lemma ResumesExactly(s: SyncTables, account: Uuid, run: Uuid, snapshot: Uuid)
    ensures Resumable(s, account, run, snapshot) <==>
            && run in s.runs && s.runs[run].account == account && s.runs[run].kind == Full
            && (s.runs[run].state == Running || s.runs[run].state == RunFailed)
            && snapshot in s.snapshots && s.snapshots[snapshot].run == run
  {
  }

  /** A new run is a full one without a checkpoint, can be completed under its own handle, and leaves every other row. */
  lemma OpeningStores(s: SyncTables, account: Uuid, run: Uuid, snapshot: Uuid)
    ensures var t := CreateRun(s, account, run, snapshot);
            && RunningAndOpen(t, RunHandle(run, snapshot, account, None)) && t.runs[run].kind == Full && t.runs[run].checkpoint == None
            && t == s.(runs := s.runs[run := t.runs[run]], snapshots := s.snapshots[snapshot := t.snapshots[snapshot]])
  {
  }

  // ---------------------------------------------------------------- what a completion stores

  /** The run is closed, the snapshot complete and the account's authority, the flag down; nothing else of the kind moves. */
  lemma CompletionCloses(s: SyncTables, handle: RunHandle, at: Instant)
    requires RunningAndOpen(s, handle)
    ensures Finalizable(s, handle)
    ensures var t := CompleteRun(s, handle, at);
            && t.posts == s.posts && t.staged == s.staged
            && t.runs == s.runs[handle.run := s.runs[handle.run].(state := Completed, checkpoint := None,
                                                                  statistics := t.runs[handle.run].statistics)]
            && t.snapshots == s.snapshots[handle.snapshot := SnapshotRow(handle.run, true)]
            && t.authority == s.authority[handle.account := handle.snapshot]
  {
    FinishCloses(s, handle, CompletionStatistics(s.bookmarks, handle.account, StagedOf(s, handle.snapshot)));
  }

  lemma FinishCloses(s: SyncTables, handle: RunHandle, statistics: Statistics)
    requires RunningAndOpen(s, handle)
    ensures var t := FinishRows(s, handle, statistics);
            && t.runs == s.runs[handle.run := s.runs[handle.run].(state := Completed, checkpoint := None, statistics := statistics)]
            && t.snapshots == s.snapshots[handle.snapshot := SnapshotRow(handle.run, true)]
            && t.authority == s.authority[handle.account := handle.snapshot]
            && t.posts == s.posts && t.staged == s.staged
  {
  }

  /**
   Each bookmark after completion. A staged one is active, last seen when staged, first seen as before or when staged, with
   its write evidence kept and no incremental run. An active one of the account that was not staged is removed now by this
   snapshot and otherwise as it was. Every other is as it was, and none is added.
   */
  lemma CompletionStores(bookmarks: Bookmarks, account: Uuid, items: StagedItems, snapshot: Uuid, at: Instant, k: BookmarkKey)
    ensures var after := Reconciled(bookmarks, account, items, snapshot, at);
            if k.account == account && k.post in items then
              && k in after
              && var row := after[k];
              && row.removedAt == None && row.removedSnapshot == None && row.lastIncremental == None && row.lastSavedAt == items[k.post]
              && (k in bookmarks ==>
                    && row.firstSavedAt == bookmarks[k].firstSavedAt && row.removedOperation == bookmarks[k].removedOperation
                    && row.lastWrite == bookmarks[k].lastWrite)
              && (k !in bookmarks ==> row.firstSavedAt == items[k.post] && row.removedOperation == None && row.lastWrite == None)
            else
              && (k in after <==> k in bookmarks)
              && (k in bookmarks && k.account == account && bookmarks[k].removedAt == None ==>
                    after[k] == bookmarks[k].(removedAt := Some(at), removedSnapshot := Some(snapshot)))
              && (k in bookmarks && (k.account != account || bookmarks[k].removedAt != None) ==> after[k] == bookmarks[k])
  {
    var upserted := UpsertActive(bookmarks, account, items);
    if k.account == account && k.post in items {
      assert k == BookmarkKey(account, k.post) && k in KeysOf(account, items.Keys);
      assert k in upserted && k !in AbsentKeys(upserted, account, items);
    } else {
      assert k !in KeysOf(account, items.Keys);
    }
  }

  /** A settled operation records whether the completed snapshot showed the bookmark, and when. */
  lemma SettlementRecords(w: WriteTables, account: Uuid, items: StagedItems, at: Instant, o: Uuid)
    requires o in w.operations && w.operations[o].account == account && w.operations[o].status == Uncertain
    ensures var x := SettleUncertain(w, account, items, at);
            && x.(operations := w.operations) == w && x.operations.Keys == w.operations.Keys
            && x.operations[o].observedAt == Some(at)
            && x.operations[o].outcome == Some(if w.operations[o].post in items then CompleteSnapshotPresent else CompleteSnapshotAbsent)
  {
  }

  // ---------------------------------------------------------------- how a page loop ends

  predicate GoesOn(turn: Turn) { turn.Delivered? && turn.page.next != None }

  /** Turn `n` ends the loop: every earlier one brought a page with a continuation. */
  predicate EndsAt(turns: seq<Turn>, n: nat)
  {
    n <= |turns| && (forall i | 0 <= i < n :: GoesOn(turns[i])) && (n < |turns| ==> !GoesOn(turns[n]))
  }

  /** All pages up to the end are staged, in order. */
  function StagedThrough(s: SyncTables, handle: RunHandle, turns: seq<Turn>, n: nat): SyncTables
    requires n <= |turns| && forall i | 0 <= i < n :: turns[i].Delivered?
    decreases n
  {
    if n == 0 then s else StagePage(StagedThrough(s, handle, turns, n - 1), handle, turns[n - 1].page, turns[n - 1].at)
  }

  /** What the turn that ends the loop, if there is one, makes of the tables the pages before it left. */
  ghost predicate ClosesAs(w: WriteTables, s: SyncTables, handle: RunHandle, turn: Option<Turn>, completedAt: Instant, after: Archive,
                           outcome: SnapshotOutcome)
  {
    if turn == None then after == Archive(w, s) && outcome == Crashed
    else match turn.value
      case BudgetRefused => after.writes == w && FailedRun(s, after.sync, handle.run) && outcome == Incomplete(handle.run)
      case SourceUnavailable => after.writes == w && FailedRun(s, after.sync, handle.run) && outcome == Incomplete(handle.run)
      case BudgetFailed => after.writes == w && FailedRun(s, after.sync, handle.run) && outcome == Errored(handle.run)
      case Unnormalizable => after.writes == w && FailedRun(s, after.sync, handle.run) && outcome == Errored(handle.run)
      case Delivered(page, at) => CompletesAs(w, StagePage(s, handle, page, at), handle, completedAt, after, outcome)
  }

  /** What the last page makes of the tables that hold it. */
  ghost predicate CompletesAs(w: WriteTables, s: SyncTables, handle: RunHandle, completedAt: Instant, after: Archive, outcome: SnapshotOutcome)
  {
    if RunningAndOpen(s, handle) then
      && outcome == SnapshotCompleted(handle.run, handle.snapshot)
      && Finalizable(s, handle) && after.sync == CompleteRun(s, handle, completedAt)
      && after.writes == SettleUncertain(w, handle.account, StagedOf(s, handle.snapshot), completedAt)
    else after == Archive(w, s) && outcome == RunUnavailable
  }

  ghost predicate EndsAs(a: Archive, handle: RunHandle, turns: seq<Turn>, n: nat, completedAt: Instant, after: Archive, outcome: SnapshotOutcome)
    requires EndsAt(turns, n)
  {
    ClosesAs(a.writes, StagedThrough(a.sync, handle, turns, n), handle, if n < |turns| then Some(turns[n]) else None, completedAt, after, outcome)
  }

  /** Only the run's state changed, to failed. */
  predicate FailedRun(s: SyncTables, t: SyncTables, run: Uuid)
  {
    if run in s.runs then t == s.(runs := s.runs[run := s.runs[run].(state := RunFailed)]) else t == s
  }

  /** The loop ends at turn `n`, as that turn says. */
  ghost predicate LoopEnds(a: Archive, handle: RunHandle, turns: seq<Turn>, completedAt: Instant, n: nat)
  {
    EndsAt(turns, n) && var (after, outcome) := PageLoop(a, handle, turns, completedAt); EndsAs(a, handle, turns, n, completedAt, after, outcome)
  }

  lemma {:induction false} StagedThroughTail(s: SyncTables, handle: RunHandle, turns: seq<Turn>, n: nat, next: RunHandle)
    requires 0 < n <= |turns| && (forall i | 0 <= i < n :: turns[i].Delivered?) && next == handle.(checkpoint := next.checkpoint)
    ensures StagedThrough(StagePage(s, handle, turns[0].page, turns[0].at), next, turns[1..], n - 1) == StagedThrough(s, handle, turns, n)
    decreases n
  {
    if n > 1 {
      StagedThroughTail(s, handle, turns, n - 1, next);
    }
  }

  lemma CompletesWhateverCheckpoint(w: WriteTables, s: SyncTables, handle: RunHandle, next: RunHandle, completedAt: Instant, after: Archive,
                                    outcome: SnapshotOutcome)
    requires next == handle.(checkpoint := next.checkpoint) && CompletesAs(w, s, next, completedAt, after, outcome)
    ensures CompletesAs(w, s, handle, completedAt, after, outcome)
  {
    if RunningAndOpen(s, handle) {
      var items := StagedOf(s, handle.snapshot);
      assert CompleteRun(s, next, completedAt) == CompleteRun(s, handle, completedAt);
    }
  }

  lemma ClosesWhateverCheckpoint(w: WriteTables, s: SyncTables, handle: RunHandle, next: RunHandle, turn: Option<Turn>, completedAt: Instant,
                                 after: Archive, outcome: SnapshotOutcome)
    requires next == handle.(checkpoint := next.checkpoint) && ClosesAs(w, s, next, turn, completedAt, after, outcome)
    ensures ClosesAs(w, s, handle, turn, completedAt, after, outcome)
  {
    if turn.Some? && turn.value.Delivered? {
      assert StagePage(s, next, turn.value.page, turn.value.at) == StagePage(s, handle, turn.value.page, turn.value.at);
      CompletesWhateverCheckpoint(w, StagePage(s, handle, turn.value.page, turn.value.at), handle, next, completedAt, after, outcome);
    }
  }

  lemma EndsAsTail(a: Archive, handle: RunHandle, turns: seq<Turn>, n: nat, completedAt: Instant, after: Archive, outcome: SnapshotOutcome)
    requires EndsAt(turns, n) && n > 0
    requires EndsAt(turns[1..], n - 1)
    requires EndsAs(a.(sync := StagePage(a.sync, handle, turns[0].page, turns[0].at)), handle.(checkpoint := turns[0].page.next), turns[1..],
                    n - 1, completedAt, after, outcome)
    ensures EndsAs(a, handle, turns, n, completedAt, after, outcome)
  {
    var next := handle.(checkpoint := turns[0].page.next);
    StagedThroughTail(a.sync, handle, turns, n, next);
    ClosesWhateverCheckpoint(a.writes, StagedThrough(a.sync, handle, turns, n), handle, next, if n < |turns| then Some(turns[n]) else None,
                             completedAt, after, outcome);
  }

  lemma LoopEndsNow(a: Archive, handle: RunHandle, turns: seq<Turn>, completedAt: Instant)
    requires EndsAt(turns, 0)
    ensures LoopEnds(a, handle, turns, completedAt, 0)
  {
    if turns != [] && turns[0].Delivered? {
      CompletesExactly(StagePage(a.sync, handle, turns[0].page, turns[0].at), handle);
    }
  }

  lemma LoopGoesOn(a: Archive, handle: RunHandle, turns: seq<Turn>, completedAt: Instant)
    requires turns != [] && GoesOn(turns[0])
    ensures PageLoop(a, handle, turns, completedAt)
            == PageLoop(a.(sync := StagePage(a.sync, handle, turns[0].page, turns[0].at)), handle.(checkpoint := turns[0].page.next), turns[1..],
                        completedAt)
  {
  }

  lemma LoopEndsLater(a: Archive, handle: RunHandle, turns: seq<Turn>, n: nat, completedAt: Instant)
    requires turns != [] && GoesOn(turns[0]) && n > 0
    requires LoopEnds(a.(sync := StagePage(a.sync, handle, turns[0].page, turns[0].at)), handle.(checkpoint := turns[0].page.next), turns[1..],
                      completedAt, n - 1)
    ensures LoopEnds(a, handle, turns, completedAt, n)
  {
    EndExtends(turns, n - 1);
    LoopGoesOn(a, handle, turns, completedAt);
    var (after, outcome) := PageLoop(a, handle, turns, completedAt);
    EndsAsTail(a, handle, turns, n, completedAt, after, outcome);
  }

  /** The loop stages every page before the turn that ends it, and ends as that turn says. */
  lemma {:induction false} LoopEndsByItsTurn(a: Archive, handle: RunHandle, turns: seq<Turn>, completedAt: Instant) returns (n: nat)
    ensures LoopEnds(a, handle, turns, completedAt, n)
    decreases |turns|
  {
    if turns == [] || !GoesOn(turns[0]) {
      n := 0;
      LoopEndsNow(a, handle, turns, completedAt);
    } else {
      var staged := a.(sync := StagePage(a.sync, handle, turns[0].page, turns[0].at));
      var next := handle.(checkpoint := turns[0].page.next);
      var m := LoopEndsByItsTurn(staged, next, turns[1..], completedAt);
      n := m + 1;
      LoopEndsLater(a, handle, turns, n, completedAt);
    }
  }

  lemma EndExtends(turns: seq<Turn>, m: nat)
    requires turns != [] && GoesOn(turns[0]) && EndsAt(turns[1..], m)
    ensures EndsAt(turns, m + 1)
  {
    forall i | 0 <= i < m + 1 ensures GoesOn(turns[i]) {
      assert i > 0 ==> turns[i] == turns[1..][i - 1];
    }
    assert m + 1 < |turns| ==> turns[m + 1] == turns[1..][m];
  }
}
