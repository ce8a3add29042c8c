/**
 Snapshot authority over every interleaving: a checkpoint stands for an unbroken staged chain of pages, and
 only a completed full snapshot or a confirmed remove can turn a bookmark removed.
 */
module SnapshotSafety {
  import opened Common
  import opened ArchiveTables
  import opened Writeback
  import opened Snapshots
  import opened Incremental
  import opened PageChains
  import opened ArchiveProtocol
  import opened WritebackSafety

  // ---------------------------------------------------------------- runs, handles and chains

  ghost predicate RunsInv(p: Protocol)
  {
    && (forall a | a in p.sync.snapshots :: p.sync.snapshots[a].run in p.sync.runs)
    && (forall a, b | a in p.sync.snapshots && b in p.sync.snapshots && a != b :: p.sync.snapshots[a].run != p.sync.snapshots[b].run)
    && (forall r | r in p.runners ::
          var h := p.runners[r].handle;
          && h.snapshot in p.sync.snapshots && p.sync.snapshots[h.snapshot].run == h.run
          && h.run in p.sync.runs && p.sync.runs[h.run].account == h.account)
  }

  ghost predicate RunnerChained(p: Protocol, r: Uuid)
    requires r in p.runners
  {
    var h := p.runners[r].handle;
    && (h.checkpoint.Some? ==> Chained(PagesOf(p.history, h.snapshot), h.checkpoint))
    && (p.runners[r].phase == Finishing ==> Chained(PagesOf(p.history, h.snapshot), None))
  }

  ghost predicate SnapshotChained(p: Protocol, a: Uuid)
    requires a in p.sync.snapshots && p.sync.snapshots[a].run in p.sync.runs
  {
    var run := p.sync.runs[p.sync.snapshots[a].run];
    && (run.checkpoint.Some? ==> Chained(PagesOf(p.history, a), run.checkpoint))
    && (p.sync.snapshots[a].complete ==> Chained(PagesOf(p.history, a), None))
  }

  ghost predicate RunnersInv(p: Protocol)
  {
    forall r | r in p.runners :: RunnerChained(p, r)
  }

  ghost predicate SnapshotsInv(p: Protocol)
    requires RunsInv(p)
  {
    forall a | a in p.sync.snapshots :: SnapshotChained(p, a)
  }

  ghost predicate StagedInv(p: Protocol)
  {
    forall a | a in p.sync.snapshots :: StagedOf(p.sync, a).Keys == UnionOf(PagesOf(p.history, a))
  }

  ghost predicate ChainsInv(p: Protocol)
  {
    RunsInv(p) && RunnersInv(p) && SnapshotsInv(p) && StagedInv(p)
  }

  /** What steps that fetch nothing and open nothing do to run and snapshot rows. */
  ghost predicate RunsKept(before: SyncTables, after: SyncTables)
  {
    && (forall r | r in before.runs ::
          && r in after.runs && after.runs[r].account == before.runs[r].account
          && (after.runs[r].checkpoint == before.runs[r].checkpoint || after.runs[r].checkpoint.None?))
    && before.snapshots.Keys == after.snapshots.Keys
    && (forall a | a in before.snapshots :: after.snapshots[a].run == before.snapshots[a].run)
    && after.staged == before.staged
  }

  ghost predicate HandlesKept(p: Protocol, q: Protocol)
  {
    forall r | r in q.runners :: r in p.runners && q.runners[r].handle == p.runners[r].handle
      && (q.runners[r].phase == Finishing ==> p.runners[r].phase == Finishing)
  }

  lemma RunsQuiet(p: Protocol, q: Protocol)
    requires RunsInv(p) && RunsKept(p.sync, q.sync) && HandlesKept(p, q)
    ensures RunsInv(q)
  {
  }

  lemma SnapshotQuiet(p: Protocol, q: Protocol, a: Uuid)
    requires RunsInv(p) && RunsInv(q) && RunsKept(p.sync, q.sync) && q.history.pages == p.history.pages
    requires a in p.sync.snapshots && SnapshotChained(p, a)
    requires q.sync.snapshots[a].complete ==> p.sync.snapshots[a].complete || Chained(PagesOf(p.history, a), None)
    ensures SnapshotChained(q, a)
  {
    var run := p.sync.snapshots[a].run;
    assert q.sync.runs[run].checkpoint == p.sync.runs[run].checkpoint || q.sync.runs[run].checkpoint.None?;
  }

  lemma RunnersQuiet(p: Protocol, q: Protocol)
    requires RunnersInv(p) && HandlesKept(p, q) && q.history.pages == p.history.pages
    ensures RunnersInv(q)
  {
    forall r | r in q.runners ensures RunnerChained(q, r) {
      assert RunnerChained(p, r);
    }
  }

  /** Steps that fetch nothing and open nothing keep every chain. */
  lemma ChainsQuiet(p: Protocol, q: Protocol)
    requires ChainsInv(p) && RunsKept(p.sync, q.sync) && HandlesKept(p, q) && q.history.pages == p.history.pages
    requires forall a | a in q.sync.snapshots && q.sync.snapshots[a].complete ::
               p.sync.snapshots[a].complete || Chained(PagesOf(p.history, a), None)
    ensures ChainsInv(q)
  {
    RunsQuiet(p, q);
    RunnersQuiet(p, q);
    forall a | a in q.sync.snapshots ensures SnapshotChained(q, a) {
      assert SnapshotChained(p, a);
      SnapshotQuiet(p, q, a);
    }
    forall a | a in q.sync.snapshots ensures StagedOf(q.sync, a).Keys == UnionOf(PagesOf(q.history, a)) {
      assert StagedOf(p.sync, a).Keys == UnionOf(PagesOf(p.history, a));
    }
  }

  lemma OpenKeepsRuns(p: Protocol, step: SnapshotStep)
    requires SnapshotEnabled(p, step) && step.OpenRun? && RunsInv(p)
    ensures RunsInv(ApplySnapshot(p, step))
  {
  }

  lemma OpenKeepsSnapshot(p: Protocol, step: SnapshotStep, a: Uuid)
    requires SnapshotEnabled(p, step) && step.OpenRun? && ChainsInv(p) && RunsInv(ApplySnapshot(p, step))
    requires a in ApplySnapshot(p, step).sync.snapshots
    ensures var q := ApplySnapshot(p, step);
            SnapshotChained(q, a) && StagedOf(q.sync, a).Keys == UnionOf(PagesOf(q.history, a))
  {
    if a != step.snapshot {
      assert SnapshotChained(p, a);
      assert StagedOf(p.sync, a).Keys == UnionOf(PagesOf(p.history, a));
    }
  }

  lemma OpenKeepsChains(p: Protocol, step: SnapshotStep)
    requires SnapshotEnabled(p, step) && step.OpenRun? && ChainsInv(p)
    ensures ChainsInv(ApplySnapshot(p, step))
  {
    var q := ApplySnapshot(p, step);
    OpenKeepsRuns(p, step);
    forall r | r in q.runners ensures RunnerChained(q, r) {
      if r != step.runner {
        assert RunnerChained(p, r);
      }
    }
    forall a | a in q.sync.snapshots ensures SnapshotChained(q, a) && StagedOf(q.sync, a).Keys == UnionOf(PagesOf(q.history, a)) {
      OpenKeepsSnapshot(p, step, a);
    }
  }

  lemma ReadKeepsChains(p: Protocol, step: SnapshotStep)
    requires SnapshotEnabled(p, step) && step.ReadRun? && ChainsInv(p)
    ensures ChainsInv(ApplySnapshot(p, step))
  {
    var q := ApplySnapshot(p, step);
    assert SnapshotChained(p, step.snapshot);
    forall r | r in q.runners ensures RunnerChained(q, r) {
      if r != step.runner {
        assert RunnerChained(p, r);
      }
    }
    forall a | a in q.sync.snapshots ensures SnapshotChained(q, a) {
      assert SnapshotChained(p, a);
    }
  }

  lemma StageKeepsRunners(p: Protocol, runner: Uuid, page: Page, at: Instant)
    requires runner in p.runners && RunnersInv(p)
    ensures RunnersInv(ApplyStage(p, runner, page, at))
  {
    var q := ApplyStage(p, runner, page, at);
    var h := p.runners[runner].handle;
    var log := PagesOf(p.history, h.snapshot);
    assert RunnerChained(p, runner);
    ChainExtends(log, h.checkpoint, page);
    forall r | r in q.runners ensures RunnerChained(q, r) {
      if r != runner {
        assert RunnerChained(p, r);
        var g := p.runners[r].handle;
        if g.snapshot == h.snapshot {
          if g.checkpoint.Some? { ChainGrows(log, Fetched(h.checkpoint, page), g.checkpoint); }
          if p.runners[r].phase == Finishing { ChainGrows(log, Fetched(h.checkpoint, page), None); }
        }
      }
    }
  }

  lemma StageKeepsSnapshot(p: Protocol, runner: Uuid, page: Page, at: Instant, a: Uuid)
    requires runner in p.runners && ChainsInv(p) && a in p.sync.snapshots
    ensures ApplyStage(p, runner, page, at).sync.snapshots == p.sync.snapshots
    ensures p.sync.snapshots[a].run in ApplyStage(p, runner, page, at).sync.runs
    ensures SnapshotChained(ApplyStage(p, runner, page, at), a)
    ensures StagedOf(ApplyStage(p, runner, page, at).sync, a).Keys == UnionOf(PagesOf(ApplyStage(p, runner, page, at).history, a))
  {
    var q := ApplyStage(p, runner, page, at);
    var h := p.runners[runner].handle;
    var f := Fetched(h.checkpoint, page);
    var log := PagesOf(p.history, h.snapshot);
    assert SnapshotChained(p, a) && RunnerChained(p, runner);
    assert StagedOf(p.sync, a).Keys == UnionOf(PagesOf(p.history, a));
    if a == h.snapshot {
      ChainExtends(log, h.checkpoint, page);
      var run := p.sync.runs[p.sync.snapshots[a].run];
      if run.checkpoint.Some? { ChainGrows(log, f, run.checkpoint); }
      if p.sync.snapshots[a].complete { ChainGrows(log, f, None); }
      UnionGrows(log, f);
      assert StageItems(StagedOf(p.sync, a), page, at).Keys == StagedOf(p.sync, a).Keys + PostsOf(page);
    } else {
      assert p.sync.snapshots[a].run != h.run;
    }
  }

  lemma StageKeepsChains(p: Protocol, runner: Uuid, page: Page, at: Instant)
    requires runner in p.runners && ChainsInv(p)
    ensures ChainsInv(ApplyStage(p, runner, page, at))
  {
    StageKeepsRunners(p, runner, page, at);
    forall a | a in p.sync.snapshots
      ensures p.sync.snapshots[a].run in ApplyStage(p, runner, page, at).sync.runs
      ensures SnapshotChained(ApplyStage(p, runner, page, at), a)
      ensures StagedOf(ApplyStage(p, runner, page, at).sync, a).Keys == UnionOf(PagesOf(ApplyStage(p, runner, page, at).history, a))
    {
      StageKeepsSnapshot(p, runner, page, at, a);
    }
  }

  lemma FinishedRows(s: SyncTables, handle: RunHandle, statistics: Statistics)
    requires Finalizable(s, handle)
    ensures RunsKept(s, FinishRows(s, handle, statistics))
  {
  }

  lemma CompletionKeepsRuns(s: SyncTables, handle: RunHandle, at: Instant)
    requires Finalizable(s, handle)
    ensures var t := CompleteRun(s, handle, at);
            && RunsKept(s, t) && t.posts == s.posts
            && t.snapshots == s.snapshots[handle.snapshot := s.snapshots[handle.snapshot].(complete := true)]
  {
    FinishedRows(s, handle, CompletionStatistics(s.bookmarks, handle.account, StagedOf(s, handle.snapshot)));
  }

  /** On the synchronisation side a finish keeps all rows and may complete its own snapshot. */
  ghost predicate FinishesOne(p: Protocol, q: Protocol, runner: Uuid)
    requires runner in p.runners
  {
    && RunsKept(p.sync, q.sync) && q.runners == p.runners - {runner} && q.history.pages == p.history.pages
    && (forall a | a in q.sync.snapshots && q.sync.snapshots[a].complete ::
          p.sync.snapshots[a].complete || a == p.runners[runner].handle.snapshot)
  }

  lemma FinishSyncShape(p: Protocol, runner: Uuid, at: Instant)
    requires runner in p.runners
    ensures FinishesOne(p, ApplyFinish(p, runner, at), runner)
  {
    if Finalizable(p.sync, p.runners[runner].handle) {
      CompletionKeepsRuns(p.sync, p.runners[runner].handle, at);
    }
  }

  lemma FinishKeepsChains(p: Protocol, q: Protocol, runner: Uuid)
    requires runner in p.runners && p.runners[runner].phase == Finishing && ChainsInv(p) && FinishesOne(p, q, runner)
    ensures ChainsInv(q)
  {
    assert RunnerChained(p, runner);
    ChainsQuiet(p, q);
  }

  /** Marking a run, failing it and losing its runner fetch nothing. */
  lemma QuietSteps(p: Protocol, step: SnapshotStep)
    requires SnapshotEnabled(p, step) && (step.MarkRunning? || step.FailRun? || step.LoseRunner?)
    ensures var q := ApplySnapshot(p, step);
            && RunsKept(p.sync, q.sync) && HandlesKept(p, q) && q.history.pages == p.history.pages
            && q.sync.snapshots == p.sync.snapshots
  {
  }

  lemma SnapshotKeepsChains(p: Protocol, step: SnapshotStep)
    requires SnapshotEnabled(p, step) && ChainsInv(p)
    ensures ChainsInv(ApplySnapshot(p, step))
  {
    if step.OpenRun? {
      OpenKeepsChains(p, step);
    } else if step.ReadRun? {
      ReadKeepsChains(p, step);
    } else if step.Stage? {
      StageKeepsChains(p, step.runner, step.page, step.at);
    } else if step.Finish? {
      FinishSyncShape(p, step.runner, step.at);
      FinishKeepsChains(p, ApplyFinish(p, step.runner, step.at), step.runner);
    } else {
      QuietSteps(p, step);
      ChainsQuiet(p, ApplySnapshot(p, step));
    }
  }

  lemma ScanKeepsRuns(cfg: Config, p: Protocol, step: ScanStep)
    requires ScanEnabled(cfg, p, step)
    ensures var q := ApplyScan(cfg, p, step);
            RunsKept(p.sync, q.sync) && q.sync.snapshots == p.sync.snapshots && q.runners == p.runners && q.history == p.history
  {
  }

  lemma SettleKeepsRuns(p: Protocol, caller: Uuid, answer: ProviderAnswer, at: Instant)
    requires caller in p.callers && p.callers[caller].phase.Called?
    ensures var q := ApplySettle(p, caller, answer, at);
            && q.sync.(bookmarks := p.sync.bookmarks) == p.sync && q.runners == p.runners
            && q.scanners == p.scanners && q.history.pages == p.history.pages
  {
  }

  /** Write-back steps other than a settlement leave the synchronisation side alone. */
  lemma WriteLeavesSync(cfg: Config, p: Protocol, step: WriteStep)
    requires ValidSetup(cfg) && WriteEnabled(cfg, p, step) && !step.Settle?
    ensures var q := ApplyWrite(cfg, p, step);
            q.sync == p.sync && q.runners == p.runners && q.scanners == p.scanners && q.history.pages == p.history.pages
  {
  }

  lemma WriteKeepsRuns(cfg: Config, p: Protocol, step: WriteStep)
    requires ValidSetup(cfg) && WriteEnabled(cfg, p, step)
    ensures var q := ApplyWrite(cfg, p, step);
            && q.sync.(bookmarks := p.sync.bookmarks) == p.sync && q.runners == p.runners
            && q.scanners == p.scanners && q.history.pages == p.history.pages
  {
    if step.Settle? {
      SettleKeepsRuns(p, step.caller, step.answer, step.at);
    } else {
      WriteLeavesSync(cfg, p, step);
    }
  }

  lemma StepKeepsChains(cfg: Config, p: Protocol, step: Step)
    requires ValidSetup(cfg) && Enabled(cfg, p, step) && ChainsInv(p)
    ensures ChainsInv(Apply(cfg, p, step))
  {
    match step
    case Write(w) =>
      WriteKeepsRuns(cfg, p, w);
      ChainsQuiet(p, Apply(cfg, p, step));
    case Snap(s) => SnapshotKeepsChains(p, s);
    case Scan(c) =>
      ScanKeepsRuns(cfg, p, c);
      ChainsQuiet(p, Apply(cfg, p, step));
  }
}
