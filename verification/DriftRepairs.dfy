/**
 Drift repairs over runs: a completed snapshot that loses a bookmark repairs it exactly when an incremental scan saw it
 and no completed snapshot has carried it since.
 */
module DriftRepairs {
  import opened Common
  import opened ArchiveTables
  import opened Writeback
  import opened Snapshots
  import opened Incremental
  import opened ArchiveProtocol
  import opened WritebackSafety
  import opened SnapshotSafety
  import opened RemovalSafety

  /** The step observes a page of the bookmark's account that carries its post. */
  ghost predicate Sees(p: Protocol, step: Step, k: BookmarkKey)
  {
    && step.Scan? && step.c.ObserveScan? && step.c.scanner in p.scanners
    && var sc := p.scanners[step.c.scanner];
    sc.phase.Observing? && sc.account == k.account && k.post in sc.phase.page.items
  }

  /** The step completes a full snapshot of the bookmark's account that carries its post. */
  ghost predicate Carries(p: Protocol, step: Step, k: BookmarkKey)
  {
    && step.Snap? && step.s.Finish? && step.s.runner in p.runners
    && var handle := p.runners[step.s.runner].handle;
    Finalizable(p.sync, handle) && handle.account == k.account && k.post in StagedOf(p.sync, handle.snapshot)
  }

  /** The bookmark names an incremental run as the last to touch it. */
  ghost predicate Touched(s: SyncTables, k: BookmarkKey) { k in s.bookmarks && s.bookmarks[k].lastIncremental.Some? }

  // ---------------------------------------------------------------- which steps touch

  lemma ReconciliationTouches(bookmarks: Bookmarks, account: Uuid, items: StagedItems, snapshot: Uuid, at: Instant, k: BookmarkKey)
    ensures var after := Reconciled(bookmarks, account, items, snapshot, at);
            k in after && after[k].lastIncremental.Some? <==>
            k in bookmarks && bookmarks[k].lastIncremental.Some? && !(k.account == account && k.post in items)
  {
    var after := Reconciled(bookmarks, account, items, snapshot, at);
    if k in bookmarks {
      assert k in UpsertActive(bookmarks, account, items);
    }
    if k in after {
      ReconciledRow(bookmarks, account, items, snapshot, at, k);
    }
  }

  lemma SnapshotTouches(p: Protocol, step: SnapshotStep, k: BookmarkKey)
    requires SnapshotEnabled(p, step)
    ensures Touched(ApplySnapshot(p, step).sync, k) <==> Touched(p.sync, k) && !Carries(p, Snap(step), k)
  {
    if step.Finish? && Finalizable(p.sync, p.runners[step.runner].handle) {
      var handle := p.runners[step.runner].handle;
      CompletionReconciles(p.sync, handle, step.at);
      ReconciliationTouches(p.sync.bookmarks, handle.account, StagedOf(p.sync, handle.snapshot), handle.snapshot, step.at, k);
    }
  }

  lemma ScanTouches(cfg: Config, p: Protocol, step: ScanStep, k: BookmarkKey)
    requires ScanEnabled(cfg, p, step)
    ensures Touched(ApplyScan(cfg, p, step).sync, k) <==> Touched(p.sync, k) || Sees(p, Scan(step), k)
    ensures Sees(p, Scan(step), k) ==>
              && k in ApplyScan(cfg, p, step).sync.bookmarks
              && ApplyScan(cfg, p, step).sync.bookmarks[k].lastIncremental == Some(p.scanners[step.scanner].run)
  {
    if step.ObserveScan? {
      var sc := p.scanners[step.scanner];
      ObservationStores(p.sync, sc.account, sc.run, sc.phase.page, step.at, k);
    }
  }

  lemma SettlementTouches(p: Protocol, caller: Uuid, answer: ProviderAnswer, at: Instant, k: BookmarkKey)
    requires caller in p.callers && p.callers[caller].phase.Called?
    ensures Touched(ApplySettle(p, caller, answer, at).sync, k) <==> Touched(p.sync, k)
  {
  }

  /** A step leaves a bookmark touched exactly when it sees it, or it was touched and the step does not carry it. */
  lemma TouchesExactly(cfg: Config, p: Protocol, step: Step, k: BookmarkKey)
    requires ValidSetup(cfg) && Enabled(cfg, p, step)
    ensures Touched(Apply(cfg, p, step).sync, k) <==> Sees(p, step, k) || (Touched(p.sync, k) && !Carries(p, step, k))
  {
    match step
    case Scan(c) => ScanTouches(cfg, p, c, k);
    case Snap(s) => SnapshotTouches(p, s, k);
    case Write(w) =>
      if w.Settle? {
        SettlementTouches(p, w.caller, w.answer, w.at, k);
      } else {
        WriteLeavesSync(cfg, p, w);
      }
  }

  // ---------------------------------------------------------------- over runs

  /** Step `j` of the run saw the bookmark, and no later step completed a snapshot that carries it. */
  ghost predicate SeenLastAt(cfg: Config, p: Protocol, steps: seq<Step>, j: nat, k: BookmarkKey)
    requires ValidSetup(cfg)
  {
    && j < |steps| && Legal(cfg, p, steps[..j]) && Sees(Exec(cfg, p, steps[..j]), steps[j], k)
    && forall i | j < i < |steps| :: !CarriesAt(cfg, p, steps, i, k)
  }

  ghost predicate CarriesAt(cfg: Config, p: Protocol, steps: seq<Step>, i: nat, k: BookmarkKey)
    requires ValidSetup(cfg) && i < |steps|
  {
    Legal(cfg, p, steps[..i]) && Carries(Exec(cfg, p, steps[..i]), steps[i], k)
  }

  lemma SeenLastShrinks(cfg: Config, p: Protocol, steps: seq<Step>, n: nat, j: nat, k: BookmarkKey)
    requires ValidSetup(cfg) && n < |steps| && j < n && SeenLastAt(cfg, p, steps, j, k)
    ensures SeenLastAt(cfg, p, steps[..n], j, k)
  {
    assert steps[..n][..j] == steps[..j];
    forall i | j < i < n ensures !CarriesAt(cfg, p, steps[..n], i, k) {
      assert steps[..n][..i] == steps[..i];
      assert !CarriesAt(cfg, p, steps, i, k);
    }
  }

  lemma SeenLastGrows(cfg: Config, p: Protocol, steps: seq<Step>, n: nat, j: nat, k: BookmarkKey)
    requires ValidSetup(cfg) && n + 1 == |steps| && SeenLastAt(cfg, p, steps[..n], j, k) && !CarriesAt(cfg, p, steps, n, k)
    ensures SeenLastAt(cfg, p, steps, j, k)
  {
    assert steps[..n][..j] == steps[..j];
    forall i | j < i < |steps| ensures !CarriesAt(cfg, p, steps, i, k) {
      if i < n {
        assert steps[..n][..i] == steps[..i];
        assert !CarriesAt(cfg, p, steps[..n], i, k);
      }
    }
  }

  ghost predicate SeenLast(cfg: Config, p: Protocol, steps: seq<Step>, k: BookmarkKey)
    requires ValidSetup(cfg)
  {
    exists j: nat :: SeenLastAt(cfg, p, steps, j, k)
  }

  /** One more step: seen last exactly when it sees the bookmark, or it was seen last and the step does not carry it. */
  lemma SeenLastStep(cfg: Config, p: Protocol, steps: seq<Step>, k: BookmarkKey)
    requires ValidSetup(cfg) && steps != [] && Legal(cfg, p, steps[..|steps| - 1])
    ensures var n := |steps| - 1;
            SeenLast(cfg, p, steps, k) <==>
            || Sees(Exec(cfg, p, steps[..n]), steps[n], k)
            || (SeenLast(cfg, p, steps[..n], k) && !Carries(Exec(cfg, p, steps[..n]), steps[n], k))
  {
    var n := |steps| - 1;
    if Sees(Exec(cfg, p, steps[..n]), steps[n], k) {
      assert SeenLastAt(cfg, p, steps, n, k);
    } else if SeenLast(cfg, p, steps[..n], k) && !Carries(Exec(cfg, p, steps[..n]), steps[n], k) {
      var j: nat :| SeenLastAt(cfg, p, steps[..n], j, k);
      SeenLastGrows(cfg, p, steps, n, j, k);
    }
    if SeenLast(cfg, p, steps, k) {
      var j: nat :| SeenLastAt(cfg, p, steps, j, k);
      if j < n {
        SeenLastShrinks(cfg, p, steps, n, j, k);
        assert !CarriesAt(cfg, p, steps, n, k);
      }
    }
  }

  /** In every run a bookmark is touched at the end exactly when some step saw it and no later completion carried it. */
  lemma {:induction false} TouchedExactlyWhenSeenLast(cfg: Config, p: Protocol, steps: seq<Step>, k: BookmarkKey)
    requires ValidSetup(cfg) && Legal(cfg, p, steps) && !Touched(p.sync, k)
    ensures Touched(Exec(cfg, p, steps).sync, k) <==> SeenLast(cfg, p, steps, k)
    decreases |steps|
  {
    if steps != [] {
      var n := |steps| - 1;
      var before := LastStep(cfg, p, steps);
      TouchesExactly(cfg, before, steps[n], k);
      SeenLastStep(cfg, p, steps, k);
      TouchedExactlyWhenSeenLast(cfg, p, steps[..n], k);
    }
  }

  // ---------------------------------------------------------------- repairs

  /** Every repair names a complete snapshot. */
  ghost predicate RepairsInv(s: SyncTables)
  {
    forall r | r in s.repairs :: r.0 in s.snapshots && s.snapshots[r.0].complete
  }

  lemma RepairsGrow(s: SyncTables, t: SyncTables, snapshot: Uuid)
    requires RepairsInv(s) && snapshot in s.snapshots
    requires t.snapshots == s.snapshots[snapshot := s.snapshots[snapshot].(complete := true)]
    requires forall r | r in t.repairs :: r in s.repairs || r.0 == snapshot
    ensures RepairsInv(t)
  {
  }

  lemma NewRepairIsOwn(s: SyncTables, handle: RunHandle, at: Instant, r: (Uuid, BookmarkKey))
    requires Finalizable(s, handle) && r in CompleteRun(s, handle, at).repairs
    ensures r in s.repairs || r.0 == handle.snapshot
  {
    CompletionRepairs(s, handle, at, r);
  }

  lemma CompletionKeepsRepairs(s: SyncTables, handle: RunHandle, at: Instant)
    requires Finalizable(s, handle) && RepairsInv(s)
    ensures RepairsInv(CompleteRun(s, handle, at))
  {
    CompletionKeepsRuns(s, handle, at);
    var t := CompleteRun(s, handle, at);
    forall r | r in t.repairs ensures r in s.repairs || r.0 == handle.snapshot {
      NewRepairIsOwn(s, handle, at, r);
    }
    RepairsGrow(s, t, handle.snapshot);
  }

  lemma SnapshotKeepsRepairs(p: Protocol, step: SnapshotStep)
    requires SnapshotEnabled(p, step) && RepairsInv(p.sync)
    ensures RepairsInv(ApplySnapshot(p, step).sync)
  {
    if step.Finish? && Finalizable(p.sync, p.runners[step.runner].handle) {
      CompletionKeepsRepairs(p.sync, p.runners[step.runner].handle, step.at);
    }
  }

  lemma ScanKeepsRepairs(cfg: Config, p: Protocol, step: ScanStep)
    requires ScanEnabled(cfg, p, step)
    ensures ApplyScan(cfg, p, step).sync.repairs == p.sync.repairs && ApplyScan(cfg, p, step).sync.snapshots == p.sync.snapshots
  {
  }

  lemma StepKeepsRepairs(cfg: Config, p: Protocol, step: Step)
    requires ValidSetup(cfg) && Enabled(cfg, p, step) && RepairsInv(p.sync)
    ensures RepairsInv(Apply(cfg, p, step).sync)
  {
    match step
    case Scan(c) => ScanKeepsRepairs(cfg, p, c);
    case Snap(s) => SnapshotKeepsRepairs(p, s);
    case Write(w) => WriteKeepsRuns(cfg, p, w);
  }

  lemma {:induction false} RunKeepsRepairs(cfg: Config, p: Protocol, steps: seq<Step>)
    requires ValidSetup(cfg) && Legal(cfg, p, steps) && RepairsInv(p.sync)
    ensures RepairsInv(Exec(cfg, p, steps).sync)
    decreases |steps|
  {
    if steps != [] {
      StepKeepsRepairs(cfg, p, steps[0]);
      RunKeepsRepairs(cfg, Apply(cfg, p, steps[0]), steps[1..]);
    }
  }

  /** A completion that loses an active bookmark repairs it, once and under its own snapshot, exactly when it is touched. */
  lemma LosingRepairs(p: Protocol, runner: Uuid, at: Instant, k: BookmarkKey)
    requires RepairsInv(p.sync) && runner in p.runners && RemovedBySnapshot(p, Snap(Finish(runner, at)), k)
    requires k in p.sync.bookmarks && p.sync.bookmarks[k].removedAt.None?
    ensures var t := ApplyFinish(p, runner, at).sync;
            var snapshot := p.runners[runner].handle.snapshot;
            && (snapshot, k) !in p.sync.repairs && ((snapshot, k) in t.repairs <==> Touched(p.sync, k))
            && forall other | other != snapshot :: (other, k) in t.repairs <==> (other, k) in p.sync.repairs
  {
    var handle := p.runners[runner].handle;
    CompletionRepairs(p.sync, handle, at, (handle.snapshot, k));
    forall other | other != handle.snapshot ensures (other, k) in ApplyFinish(p, runner, at).sync.repairs <==> (other, k) in p.sync.repairs {
      CompletionRepairs(p.sync, handle, at, (other, k));
    }
  }

  /**
   In every run from an empty archive: the completion that loses a bookmark writes one repair for it, if an incremental
   scan of the run saw it and no completed snapshot has carried it since, and none otherwise.
   */
  lemma RepairsExactlyWhatScansSawLast(cfg: Config, p: Protocol, steps: seq<Step>, runner: Uuid, at: Instant, k: BookmarkKey)
    requires ValidSetup(cfg) && Initial(p) && p.sync.repairs == {} && Legal(cfg, p, steps)
    requires var q := Exec(cfg, p, steps);
             && SnapshotEnabled(q, Finish(runner, at)) && RemovedBySnapshot(q, Snap(Finish(runner, at)), k)
             && k in q.sync.bookmarks && q.sync.bookmarks[k].removedAt.None?
    ensures var q := Exec(cfg, p, steps);
            var t := ApplyFinish(q, runner, at).sync;
            var snapshot := q.runners[runner].handle.snapshot;
            && (snapshot, k) !in q.sync.repairs
            && ((snapshot, k) in t.repairs <==> SeenLast(cfg, p, steps, k))
            && forall other | other != snapshot :: (other, k) in t.repairs <==> (other, k) in q.sync.repairs
  {
    RunKeepsRepairs(cfg, p, steps);
    LosingRepairs(Exec(cfg, p, steps), runner, at, k);
    TouchedExactlyWhenSeenLast(cfg, p, steps, k);
  }
}
