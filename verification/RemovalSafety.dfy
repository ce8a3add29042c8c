/** Partial scans never prove removal: where removed bookmarks come from, over every mixed run. */
module RemovalSafety {
  import opened Common
  import opened ArchiveTables
  import opened Writeback
  import opened Snapshots
  import opened Incremental
  import opened PageChains
  import opened ArchiveProtocol
  import opened WritebackSafety
  import opened SnapshotSafety

  ghost predicate CompleteSnapshotOf(s: SyncTables, a: Uuid, account: Uuid)
  {
    && a in s.snapshots && s.snapshots[a].complete
    && s.snapshots[a].run in s.runs && s.runs[s.snapshots[a].run].account == account
  }

  ghost predicate SucceededWrite(w: WriteTables, o: Uuid, k: BookmarkKey, action: Action)
  {
    && o in w.operations && w.operations[o].status == Succeeded && w.operations[o].mode == Live
    && w.operations[o].action == action && w.operations[o].account == k.account && w.operations[o].post == k.post
  }

  /**
   A removed row names a complete full snapshot of its account or, when it names no snapshot, a succeeded remove
   operation for exactly that account and post. Write evidence is always a succeeded write. That the named snapshot or
   operation is the one whose step removed the row is `RemovalsNameTheirStep`.
   */
  ghost predicate Explained(w: WriteTables, s: SyncTables, k: BookmarkKey, row: Bookmark)
  {
    && (row.removedAt.None? ==> row.removedSnapshot.None?)
    && (row.removedSnapshot.Some? ==> CompleteSnapshotOf(s, row.removedSnapshot.value, k.account))
    && (row.removedAt.Some? && row.removedSnapshot.None? ==> row.removedOperation.Some?)
    && (row.removedOperation.Some? ==> SucceededWrite(w, row.removedOperation.value, k, Remove))
    && (row.lastWrite.Some? ==> SucceededWrite(w, row.lastWrite.value, k, Add))
  }

  ghost predicate RemovalInv(p: Protocol)
  {
    forall k | k in p.sync.bookmarks :: Explained(p.writes, p.sync, k, p.sync.bookmarks[k])
  }

  /** Complete snapshots stay complete and keep their run and account. */
  ghost predicate EvidenceKept(s: SyncTables, t: SyncTables)
  {
    && (forall a | a in s.snapshots && s.snapshots[a].complete ::
          a in t.snapshots && t.snapshots[a].complete && t.snapshots[a].run == s.snapshots[a].run)
    && (forall r | r in s.runs :: r in t.runs && t.runs[r].account == s.runs[r].account)
  }

  lemma StaysExplained(p: Protocol, q: Protocol, k: BookmarkKey, row: Bookmark)
    requires Explained(p.writes, p.sync, k, row) && MovesForward(p.writes.operations, q.writes.operations) && EvidenceKept(p.sync, q.sync)
    ensures Explained(q.writes, q.sync, k, row)
  {
  }

  lemma RowsKeptExplained(p: Protocol, q: Protocol)
    requires RemovalInv(p) && q.sync.bookmarks == p.sync.bookmarks
    requires MovesForward(p.writes.operations, q.writes.operations) && EvidenceKept(p.sync, q.sync)
    ensures RemovalInv(q)
  {
    forall k | k in q.sync.bookmarks ensures Explained(q.writes, q.sync, k, q.sync.bookmarks[k]) {
      StaysExplained(p, q, k, p.sync.bookmarks[k]);
    }
  }

  // ---------------------------------------------------------------- the three steps that write bookmark rows

  lemma SettledOperationSucceeds(p: Protocol, caller: Uuid, at: Instant)
    requires ClaimsInv(p) && caller in p.callers && p.callers[caller].phase.Called?
    requires ProjectionApplies(p.sync, p.callers[caller].request.account, p.callers[caller].request.post, p.callers[caller].action)
    ensures var c := p.callers[caller];
            SucceededWrite(ApplySettle(p, caller, ProviderConfirmed, at).writes, c.operation,
                           BookmarkKey(c.request.account, c.request.post), c.action)
  {
    assert Describes(p.writes.operations[p.callers[caller].operation], p.callers[caller]);
  }

  lemma SettleKeepsRemovals(cfg: Config, p: Protocol, caller: Uuid, answer: ProviderAnswer, at: Instant)
    requires ValidSetup(cfg) && WriteEnabled(cfg, p, Settle(caller, answer, at)) && ClaimsInv(p) && RemovalInv(p)
    ensures RemovalInv(ApplySettle(p, caller, answer, at))
  {
    var q := ApplySettle(p, caller, answer, at);
    var c := p.callers[caller];
    EndingMovesForward(cfg, p, Settle(caller, answer, at));
    var applies := answer == ProviderConfirmed && ProjectionApplies(p.sync, c.request.account, c.request.post, c.action);
    if applies {
      SettledOperationSucceeds(p, caller, at);
    }
    forall k | k in q.sync.bookmarks ensures Explained(q.writes, q.sync, k, q.sync.bookmarks[k]) {
      if k in p.sync.bookmarks {
        StaysExplained(p, q, k, p.sync.bookmarks[k]);
      }
    }
  }

  lemma ObserveKeepsRemovals(p: Protocol, scanner: Uuid, at: Instant)
    requires scanner in p.scanners && p.scanners[scanner].phase.Observing? && RemovalInv(p)
    ensures RemovalInv(ApplyObserve(p, scanner, at))
  {
    var q := ApplyObserve(p, scanner, at);
    forall k | k in q.sync.bookmarks ensures Explained(q.writes, q.sync, k, q.sync.bookmarks[k]) {
      if k in p.sync.bookmarks {
        assert Explained(p.writes, p.sync, k, p.sync.bookmarks[k]);
      }
    }
  }

  function LostRow(row: Bookmark, ours: bool, snapshot: Uuid, at: Instant): Bookmark
  {
    if ours && row.removedAt.None? then row.(removedAt := Some(at), removedSnapshot := Some(snapshot)) else row
  }

  /** Each row after reconciliation: refreshed when staged, marked when lost, otherwise as before. */
  lemma ReconciledRow(bookmarks: Bookmarks, account: Uuid, items: StagedItems, snapshot: Uuid, at: Instant, k: BookmarkKey)
    requires k in Reconciled(bookmarks, account, items, snapshot, at)
    ensures var row := Reconciled(bookmarks, account, items, snapshot, at)[k];
            var staged := k.account == account && k.post in items;
            && (staged ==> row == UpsertedRow(bookmarks, k, items[k.post]))
            && (!staged ==> k in bookmarks && row == LostRow(bookmarks[k], k.account == account, snapshot, at))
  {
    var upserted := UpsertActive(bookmarks, account, items);
    assert k in upserted;
    if k.account == account && k.post in items {
      assert k == BookmarkKey(account, k.post) && k in KeysOf(account, items.Keys);
    } else {
      assert k !in KeysOf(account, items.Keys);
    }
  }

  /** Reconciliation explains every removal it leaves: the new ones by its snapshot, the old ones as before. */
  lemma ReconciliationExplains(p: Protocol, q: Protocol, account: Uuid, items: StagedItems, snapshot: Uuid, at: Instant)
    requires RemovalInv(p) && MovesForward(p.writes.operations, q.writes.operations)
    requires EvidenceKept(p.sync, q.sync) && CompleteSnapshotOf(q.sync, snapshot, account)
    requires q.sync.bookmarks == Reconciled(p.sync.bookmarks, account, items, snapshot, at)
    ensures RemovalInv(q)
  {
    forall k | k in q.sync.bookmarks ensures Explained(q.writes, q.sync, k, q.sync.bookmarks[k]) {
      ReconciledRow(p.sync.bookmarks, account, items, snapshot, at, k);
      if k in p.sync.bookmarks {
        StaysExplained(p, q, k, p.sync.bookmarks[k]);
      }
    }
  }

  lemma CompletionReconciles(s: SyncTables, handle: RunHandle, at: Instant)
    requires Finalizable(s, handle)
    ensures CompleteRun(s, handle, at).bookmarks
            == Reconciled(s.bookmarks, handle.account, StagedOf(s, handle.snapshot), handle.snapshot, at)
  {
  }

  lemma EvidenceGrows(s: SyncTables, t: SyncTables, handle: RunHandle)
    requires Finalizable(s, handle) && RunsKept(s, t)
    requires t.snapshots == s.snapshots[handle.snapshot := s.snapshots[handle.snapshot].(complete := true)]
    ensures EvidenceKept(s, t) && CompleteSnapshotOf(t, handle.snapshot, handle.account)
  {
  }

  lemma CompletionExplains(p: Protocol, writes: WriteTables, handle: RunHandle, at: Instant)
    requires RemovalInv(p) && Finalizable(p.sync, handle) && MovesForward(p.writes.operations, writes.operations)
    ensures RemovalInv(p.(writes := writes, sync := CompleteRun(p.sync, handle, at)))
  {
    CompletionKeepsRuns(p.sync, handle, at);
    EvidenceGrows(p.sync, CompleteRun(p.sync, handle, at), handle);
    CompletionReconciles(p.sync, handle, at);
    ReconciliationExplains(p, p.(writes := writes, sync := CompleteRun(p.sync, handle, at)),
                           handle.account, StagedOf(p.sync, handle.snapshot), handle.snapshot, at);
  }

  lemma FinishKeepsRemovals(p: Protocol, runner: Uuid, at: Instant)
    requires runner in p.runners && RemovalInv(p)
    ensures RemovalInv(ApplyFinish(p, runner, at))
  {
    FinishMovesForward(p, runner, at);
    if Finalizable(p.sync, p.runners[runner].handle) {
      CompletionExplains(p, ApplyFinish(p, runner, at).writes, p.runners[runner].handle, at);
    }
  }

  lemma SnapshotKeepsRemovals(cfg: Config, p: Protocol, step: SnapshotStep)
    requires ValidSetup(cfg) && SnapshotEnabled(p, step) && RunsInv(p) && RemovalInv(p)
    ensures RemovalInv(ApplySnapshot(p, step))
  {
    if step.Finish? {
      FinishKeepsRemovals(p, step.runner, step.at);
    } else {
      OthersLeaveWrites(cfg, p, Snap(step));
      RowsKeptExplained(p, ApplySnapshot(p, step));
    }
  }

  lemma ScanKeepsRemovals(cfg: Config, p: Protocol, step: ScanStep)
    requires ValidSetup(cfg) && ScanEnabled(cfg, p, step) && RemovalInv(p)
    ensures RemovalInv(ApplyScan(cfg, p, step))
  {
    if step.ObserveScan? {
      ObserveKeepsRemovals(p, step.scanner, step.at);
    } else {
      StatusesMoveForward(cfg, p, Scan(step));
      RowsKeptExplained(p, ApplyScan(cfg, p, step));
    }
  }

  lemma StepKeepsRemovals(cfg: Config, p: Protocol, step: Step)
    requires ValidSetup(cfg) && Enabled(cfg, p, step) && ClaimsInv(p) && RunsInv(p) && RemovalInv(p)
    ensures RemovalInv(Apply(cfg, p, step))
  {
    if step.Snap? {
      SnapshotKeepsRemovals(cfg, p, step.s);
    } else if step.Scan? {
      ScanKeepsRemovals(cfg, p, step.c);
    } else if step.w.Settle? {
      SettleKeepsRemovals(cfg, p, step.w.caller, step.w.answer, step.w.at);
    } else {
      StatusesMoveForward(cfg, p, step);
      WriteLeavesSync(cfg, p, step.w);
      RowsKeptExplained(p, Apply(cfg, p, step));
    }
  }

  // ---------------------------------------------------------------- which step removes

  ghost predicate RemovedIn(s: SyncTables, k: BookmarkKey)
  {
    k in s.bookmarks && s.bookmarks[k].removedAt.Some?
  }

  /** The step completes a full snapshot of the key's account that does not carry the post. */
  ghost predicate RemovedBySnapshot(p: Protocol, step: Step, k: BookmarkKey)
  {
    && step.Snap? && step.s.Finish? && step.s.runner in p.runners
    && var handle := p.runners[step.s.runner].handle;
       Finalizable(p.sync, handle) && handle.account == k.account && k.post !in StagedOf(p.sync, handle.snapshot)
  }

  /** The step settles a confirmed provider remove of exactly this bookmark. */
  ghost predicate RemovedByWrite(p: Protocol, step: Step, k: BookmarkKey)
  {
    && step.Write? && step.w.Settle? && step.w.answer == ProviderConfirmed && step.w.caller in p.callers
    && var c := p.callers[step.w.caller];
       && c.action == Remove && BookmarkKey(c.request.account, c.request.post) == k
       && ProjectionApplies(p.sync, k.account, k.post, Remove)
  }

  lemma ReconciliationRemoves(bookmarks: Bookmarks, account: Uuid, items: StagedItems, snapshot: Uuid, at: Instant, k: BookmarkKey)
    requires k in bookmarks ==> bookmarks[k].removedAt.None?
    ensures var after := Reconciled(bookmarks, account, items, snapshot, at);
            k in after && after[k].removedAt.Some? <==> k in bookmarks && k.account == account && k.post !in items
  {
    if k in Reconciled(bookmarks, account, items, snapshot, at) {
      ReconciledRow(bookmarks, account, items, snapshot, at, k);
    }
  }

  lemma SnapshotsRemove(p: Protocol, step: SnapshotStep, k: BookmarkKey)
    requires SnapshotEnabled(p, step) && !RemovedIn(p.sync, k)
    ensures RemovedIn(ApplySnapshot(p, step).sync, k) <==> k in p.sync.bookmarks && RemovedBySnapshot(p, Snap(step), k)
  {
    if step.Finish? && Finalizable(p.sync, p.runners[step.runner].handle) {
      var handle := p.runners[step.runner].handle;
      ReconciliationRemoves(p.sync.bookmarks, handle.account, StagedOf(p.sync, handle.snapshot), handle.snapshot, step.at, k);
    }
  }

  lemma ScansRemoveNothing(cfg: Config, p: Protocol, step: ScanStep, k: BookmarkKey)
    requires ScanEnabled(cfg, p, step) && !RemovedIn(p.sync, k)
    ensures !RemovedIn(ApplyScan(cfg, p, step).sync, k)
  {
    if step.ObserveScan? {
      var sc := p.scanners[step.scanner];
      ObservationOnlyObserves(p.sync, sc.account, sc.run, sc.phase.page, step.at);
    }
  }

  lemma SettlementRemoves(p: Protocol, caller: Uuid, answer: ProviderAnswer, at: Instant, k: BookmarkKey)
    requires caller in p.callers && p.callers[caller].phase.Called? && !RemovedIn(p.sync, k)
    ensures RemovedIn(ApplySettle(p, caller, answer, at).sync, k)
            <==> k in p.sync.bookmarks && RemovedByWrite(p, Write(Settle(caller, answer, at)), k)
  {
  }

  /**
   A bookmark turns removed exactly when it is there and a full snapshot of its account completes without it,
   or a remove of it is confirmed; and then it names that very snapshot or that very operation.
   */
  lemma OnlyAuthorityRemoves(cfg: Config, p: Protocol, step: Step, k: BookmarkKey)
    requires ValidSetup(cfg) && Enabled(cfg, p, step) && !RemovedIn(p.sync, k)
    ensures RemovedIn(Apply(cfg, p, step).sync, k)
            <==> k in p.sync.bookmarks && (RemovedBySnapshot(p, step, k) || RemovedByWrite(p, step, k))
    ensures var t := Apply(cfg, p, step).sync;
            RemovedIn(t, k) ==> MarkedBySnapshot(p, step, k, t.bookmarks[k]) || MarkedByWrite(p, step, k, t.bookmarks[k])
  {
    StepMarks(cfg, p, step, k);
    match step
    case Scan(c) => ScansRemoveNothing(cfg, p, c, k);
    case Snap(s) => SnapshotsRemove(p, s, k);
    case Write(w) =>
      if w.Settle? {
        SettlementRemoves(p, w.caller, w.answer, w.at, k);
      } else {
        WriteLeavesSync(cfg, p, w);
      }
  }

  // ---------------------------------------------------------------- what a removal names

  /** The removal mark of a row: when it was removed, and by which snapshot or operation. */
  function Mark(row: Bookmark): (Option<Instant>, Option<Uuid>, Option<Uuid>) { (row.removedAt, row.removedSnapshot, row.removedOperation) }

  /**
   The step completes a full snapshot that does not carry this active bookmark, and the mark names that snapshot and
   that time. An operation id already on the row stays on it.
   */
  ghost predicate MarkedBySnapshot(p: Protocol, step: Step, k: BookmarkKey, row: Bookmark)
  {
    && RemovedBySnapshot(p, step, k) && k in p.sync.bookmarks && p.sync.bookmarks[k].removedAt.None?
    && Mark(row) == (Some(step.s.at), Some(p.runners[step.s.runner].handle.snapshot), p.sync.bookmarks[k].removedOperation)
  }

  /** The step settles a confirmed remove of this bookmark, and the mark names that operation, that time and no snapshot. */
  ghost predicate MarkedByWrite(p: Protocol, step: Step, k: BookmarkKey, row: Bookmark)
  {
    && RemovedByWrite(p, step, k) && k in p.sync.bookmarks
    && Mark(row) == (Some(step.w.at), None, Some(p.callers[step.w.caller].operation))
  }

  /** The row was removed before the step, with the same mark. */
  ghost predicate StaysMarked(p: Protocol, k: BookmarkKey, row: Bookmark)
  {
    RemovedIn(p.sync, k) && Mark(p.sync.bookmarks[k]) == Mark(row)
  }

  lemma ReconciliationMarks(bookmarks: Bookmarks, account: Uuid, items: StagedItems, snapshot: Uuid, at: Instant, k: BookmarkKey)
    ensures var after := Reconciled(bookmarks, account, items, snapshot, at);
            k in after && after[k].removedAt.Some? ==>
              && k in bookmarks
              && (|| (bookmarks[k].removedAt.Some? && after[k] == bookmarks[k])
                  || (&& k.account == account && k.post !in items && bookmarks[k].removedAt.None?
                      && Mark(after[k]) == (Some(at), Some(snapshot), bookmarks[k].removedOperation)))
  {
    if k in Reconciled(bookmarks, account, items, snapshot, at) {
      ReconciledRow(bookmarks, account, items, snapshot, at, k);
    }
  }

  lemma SnapshotMarks(p: Protocol, step: SnapshotStep, k: BookmarkKey)
    requires SnapshotEnabled(p, step)
    ensures var t := ApplySnapshot(p, step).sync;
            RemovedIn(t, k) ==> MarkedBySnapshot(p, Snap(step), k, t.bookmarks[k]) || StaysMarked(p, k, t.bookmarks[k])
  {
    if step.Finish? && Finalizable(p.sync, p.runners[step.runner].handle) {
      var handle := p.runners[step.runner].handle;
      CompletionReconciles(p.sync, handle, step.at);
      ReconciliationMarks(p.sync.bookmarks, handle.account, StagedOf(p.sync, handle.snapshot), handle.snapshot, step.at, k);
    }
  }

  lemma SettlementMarks(p: Protocol, caller: Uuid, answer: ProviderAnswer, at: Instant, k: BookmarkKey)
    requires caller in p.callers && p.callers[caller].phase.Called?
    ensures var t := ApplySettle(p, caller, answer, at).sync;
            RemovedIn(t, k) ==>
              MarkedByWrite(p, Write(Settle(caller, answer, at)), k, t.bookmarks[k]) || StaysMarked(p, k, t.bookmarks[k])
  {
  }

  lemma ObservedRows(bookmarks: Bookmarks, account: Uuid, run: Uuid, posts: set<PostId>, at: Instant, k: BookmarkKey)
    ensures var after := UpsertObserved(bookmarks, account, run, posts, at);
            k in after && after[k].removedAt.Some? ==> k in bookmarks && after[k] == bookmarks[k]
  {
  }

  lemma ScansMarkNothing(cfg: Config, p: Protocol, step: ScanStep, k: BookmarkKey)
    requires ScanEnabled(cfg, p, step)
    ensures var t := ApplyScan(cfg, p, step).sync; RemovedIn(t, k) ==> StaysMarked(p, k, t.bookmarks[k])
  {
    if step.ObserveScan? {
      var sc := p.scanners[step.scanner];
      ObservedRows(p.sync.bookmarks, sc.account, sc.run, PostsOf(sc.phase.page), step.at, k);
    }
  }

  /** After every step a removed bookmark was marked by that step, which it names, or keeps the mark it had. */
  lemma StepMarks(cfg: Config, p: Protocol, step: Step, k: BookmarkKey)
    requires ValidSetup(cfg) && Enabled(cfg, p, step)
    ensures var t := Apply(cfg, p, step).sync;
            RemovedIn(t, k) ==>
              || MarkedBySnapshot(p, step, k, t.bookmarks[k]) || MarkedByWrite(p, step, k, t.bookmarks[k])
              || StaysMarked(p, k, t.bookmarks[k])
  {
    match step
    case Scan(c) => ScansMarkNothing(cfg, p, c, k);
    case Snap(s) => SnapshotMarks(p, s, k);
    case Write(w) =>
      if w.Settle? {
        SettlementMarks(p, w.caller, w.answer, w.at, k);
      } else {
        WriteLeavesSync(cfg, p, w);
      }
  }

  // ---------------------------------------------------------------- operation ids that outlive their removal

  /** The step settles a confirmed add of exactly this bookmark. */
  ghost predicate ConfirmsAdd(p: Protocol, step: Step, k: BookmarkKey)
  {
    && step.Write? && step.w.Settle? && step.w.answer == ProviderConfirmed && step.w.caller in p.callers
    && var c := p.callers[step.w.caller];
       && c.action == Add && BookmarkKey(c.request.account, c.request.post) == k
       && ProjectionApplies(p.sync, k.account, k.post, Add)
  }

  ghost predicate CarriesOperation(s: SyncTables, k: BookmarkKey) { k in s.bookmarks && s.bookmarks[k].removedOperation.Some? }

  lemma ReconciliationKeepsOperation(bookmarks: Bookmarks, account: Uuid, items: StagedItems, snapshot: Uuid, at: Instant, k: BookmarkKey)
    requires k in bookmarks
    ensures var after := Reconciled(bookmarks, account, items, snapshot, at);
            k in after && after[k].removedOperation == bookmarks[k].removedOperation
  {
    assert k in UpsertActive(bookmarks, account, items);
    ReconciledRow(bookmarks, account, items, snapshot, at, k);
  }

  lemma SnapshotsKeepOperation(p: Protocol, step: SnapshotStep, k: BookmarkKey)
    requires SnapshotEnabled(p, step) && k in p.sync.bookmarks
    ensures var t := ApplySnapshot(p, step).sync;
            k in t.bookmarks && t.bookmarks[k].removedOperation == p.sync.bookmarks[k].removedOperation
  {
    if step.Finish? && Finalizable(p.sync, p.runners[step.runner].handle) {
      var handle := p.runners[step.runner].handle;
      CompletionReconciles(p.sync, handle, step.at);
      ReconciliationKeepsOperation(p.sync.bookmarks, handle.account, StagedOf(p.sync, handle.snapshot), handle.snapshot, step.at, k);
    }
  }

  lemma ScansKeepOperation(cfg: Config, p: Protocol, step: ScanStep, k: BookmarkKey)
    requires ScanEnabled(cfg, p, step) && k in p.sync.bookmarks
    ensures var t := ApplyScan(cfg, p, step).sync;
            k in t.bookmarks && t.bookmarks[k].removedOperation == p.sync.bookmarks[k].removedOperation
  {
  }

  lemma SettlementsOnOperation(p: Protocol, caller: Uuid, answer: ProviderAnswer, at: Instant, k: BookmarkKey)
    requires caller in p.callers && p.callers[caller].phase.Called? && CarriesOperation(p.sync, k)
    ensures CarriesOperation(ApplySettle(p, caller, answer, at).sync, k) <==> !ConfirmsAdd(p, Write(Settle(caller, answer, at)), k)
  {
  }

  /**
   An operation id on a bookmark is cleared by a confirmed add of it and by nothing else: no snapshot or scan that
   reactivates the bookmark clears it.
   */
  lemma OnlyAddsClearOperation(cfg: Config, p: Protocol, step: Step, k: BookmarkKey)
    requires ValidSetup(cfg) && Enabled(cfg, p, step) && CarriesOperation(p.sync, k)
    ensures CarriesOperation(Apply(cfg, p, step).sync, k) <==> !ConfirmsAdd(p, step, k)
  {
    match step
    case Scan(c) => ScansKeepOperation(cfg, p, c, k);
    case Snap(s) => SnapshotsKeepOperation(p, s, k);
    case Write(w) =>
      if w.Settle? {
        SettlementsOnOperation(p, w.caller, w.answer, w.at, k);
      } else {
        WriteLeavesSync(cfg, p, w);
      }
  }

  /** A bookmark that a snapshot turns removed carries an operation id exactly when it carried one before. */
  lemma SnapshotKeepsStaleOperation(cfg: Config, p: Protocol, step: Step, k: BookmarkKey)
    requires ValidSetup(cfg) && Enabled(cfg, p, step) && !RemovedIn(p.sync, k) && k in p.sync.bookmarks && RemovedBySnapshot(p, step, k)
    ensures RemovedIn(Apply(cfg, p, step).sync, k)
    ensures CarriesOperation(Apply(cfg, p, step).sync, k) <==> CarriesOperation(p.sync, k)
  {
    OnlyAuthorityRemoves(cfg, p, step, k);
    SnapshotsKeepOperation(p, step.s, k);
  }

  // ---------------------------------------------------------------- the step behind every mark

  /** Step `j` of the run gave the row its mark. */
  ghost predicate MarkedAt(cfg: Config, p: Protocol, steps: seq<Step>, j: nat, k: BookmarkKey, row: Bookmark)
    requires ValidSetup(cfg)
  {
    && j < |steps| && Legal(cfg, p, steps[..j])
    && (MarkedBySnapshot(Exec(cfg, p, steps[..j]), steps[j], k, row) || MarkedByWrite(Exec(cfg, p, steps[..j]), steps[j], k, row))
  }

  lemma MarkedAtExtends(cfg: Config, p: Protocol, steps: seq<Step>, n: nat, j: nat, k: BookmarkKey, row: Bookmark, later: Bookmark)
    requires ValidSetup(cfg) && n <= |steps| && MarkedAt(cfg, p, steps[..n], j, k, row) && Mark(later) == Mark(row)
    ensures MarkedAt(cfg, p, steps, j, k, later)
  {
    assert steps[..n][..j] == steps[..j];
  }

  /**
   In every run every removed bookmark names its step: the completion of the full snapshot it names, whose staged items
   then lacked it, or the settlement of the confirmed remove it names.
   */
  lemma {:induction false} RemovalsNameTheirStep(cfg: Config, p: Protocol, steps: seq<Step>, k: BookmarkKey) returns (j: nat)
    requires ValidSetup(cfg) && Legal(cfg, p, steps) && !RemovedIn(p.sync, k) && RemovedIn(Exec(cfg, p, steps).sync, k)
    ensures MarkedAt(cfg, p, steps, j, k, Exec(cfg, p, steps).sync.bookmarks[k])
    decreases |steps|
  {
    var n := |steps| - 1;
    var before := LastStep(cfg, p, steps);
    var row := Exec(cfg, p, steps).sync.bookmarks[k];
    StepMarks(cfg, before, steps[n], k);
    if StaysMarked(before, k, row) {
      j := RemovalsNameTheirStep(cfg, p, steps[..n], k);
      MarkedAtExtends(cfg, p, steps, n, j, k, before.sync.bookmarks[k], row);
    } else {
      j := n;
    }
  }

  // ---------------------------------------------------------------- over runs

  lemma {:induction false} RunKeepsAuthority(cfg: Config, p: Protocol, steps: seq<Step>)
    requires ValidSetup(cfg) && Legal(cfg, p, steps) && ClaimsInv(p) && ChainsInv(p) && RemovalInv(p)
    ensures var q := Exec(cfg, p, steps); ClaimsInv(q) && ChainsInv(q) && RemovalInv(q)
    decreases |steps|
  {
    if steps != [] {
      StepKeepsClaims(cfg, p, steps[0]);
      StepKeepsChains(cfg, p, steps[0]);
      StepKeepsRemovals(cfg, p, steps[0]);
      RunKeepsAuthority(cfg, Apply(cfg, p, steps[0]), steps[1..]);
    }
  }

  /**
   In every reachable state of every mixed run: every removed bookmark names the complete snapshot of its
   account, or the succeeded remove operation, whose step in the run removed it; a stored checkpoint stands for an unbroken
   chain of staged pages from the first page up to it; and a completed snapshot's staged set is the union of
   its fetched pages and contains a full chain from start to end.
   */
  lemma SnapshotAuthorityIsSound(cfg: Config, p: Protocol, steps: seq<Step>)
    requires ValidSetup(cfg) && Initial(p) && Legal(cfg, p, steps)
    ensures var q := Exec(cfg, p, steps);
            && (forall k | k in q.sync.bookmarks :: Explained(q.writes, q.sync, k, q.sync.bookmarks[k]))
            && (forall k | RemovedIn(q.sync, k) :: exists j :: MarkedAt(cfg, p, steps, j, k, q.sync.bookmarks[k]))
            && (forall a | a in q.sync.snapshots ::
                 && q.sync.snapshots[a].run in q.sync.runs
                 && (q.sync.runs[q.sync.snapshots[a].run].checkpoint.Some? ==>
                       Chained(PagesOf(q.history, a), q.sync.runs[q.sync.snapshots[a].run].checkpoint))
                 && (q.sync.snapshots[a].complete ==> Chained(PagesOf(q.history, a), None))
                 && StagedOf(q.sync, a).Keys == UnionOf(PagesOf(q.history, a)))
  {
    RunKeepsAuthority(cfg, p, steps);
    var q := Exec(cfg, p, steps);
    forall a | a in q.sync.snapshots ensures SnapshotChained(q, a) {}
    forall k | RemovedIn(q.sync, k) ensures exists j :: MarkedAt(cfg, p, steps, j, k, q.sync.bookmarks[k]) {
      var j := RemovalsNameTheirStep(cfg, p, steps, k);
    }
  }
}
