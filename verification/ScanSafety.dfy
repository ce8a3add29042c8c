/** The gap flag, the watermark and the caps of incremental scans, over every interleaving. */
module ScanSafety {
  import opened Common
  import opened ArchiveTables
  import opened Writeback
  import opened Snapshots
  import opened Incremental
  import opened ArchiveProtocol
  import opened SnapshotSafety

  predicate Flagged(p: Protocol, account: Uuid) { IncrementalOf(p.sync, account).requiresFull }

  predicate Opens(p: Protocol, step: Step, account: Uuid)
  {
    step.Scan? && step.c.OpenScan? && step.c.scanner in p.scanners && p.scanners[step.c.scanner].account == account
  }

  /** Scanners that passed the flag check and have not inserted their run yet. */
  predicate Admitted(p: Protocol, scanner: Uuid, account: Uuid)
  {
    scanner in p.scanners && p.scanners[scanner].account == account && p.scanners[scanner].phase == Checked
  }

  // ---------------------------------------------------------------- what moves the flag and the watermark

  lemma FinishClears(s: SyncTables, handle: RunHandle, statistics: Statistics, account: Uuid)
    requires Finalizable(s, handle)
    ensures IncrementalOf(FinishRows(s, handle, statistics), account) ==
            IncrementalOf(s, account).(requiresFull := IncrementalOf(s, account).requiresFull && account != handle.account)
  {
  }

  lemma CompletionClears(s: SyncTables, handle: RunHandle, at: Instant, account: Uuid)
    requires Finalizable(s, handle)
    ensures IncrementalOf(CompleteRun(s, handle, at), account) ==
            IncrementalOf(s, account).(requiresFull := IncrementalOf(s, account).requiresFull && account != handle.account)
  {
    FinishClears(s, handle, CompletionStatistics(s.bookmarks, handle.account, StagedOf(s, handle.snapshot)), account);
    assert CompleteRun(s, handle, at).incremental
        == FinishRows(s, handle, CompletionStatistics(s.bookmarks, handle.account, StagedOf(s, handle.snapshot))).incremental;
  }

  lemma SnapshotClearsFlag(p: Protocol, step: SnapshotStep, account: Uuid)
    requires SnapshotEnabled(p, step) && Flagged(p, account)
    ensures Completes(p, Snap(step), account) <==> !Flagged(ApplySnapshot(p, step), account)
  {
    if step.Finish? && Finalizable(p.sync, p.runners[step.runner].handle) {
      CompletionClears(p.sync, p.runners[step.runner].handle, step.at, account);
    }
  }

  lemma ScansKeepFlag(cfg: Config, p: Protocol, step: ScanStep, account: Uuid)
    requires ScanEnabled(cfg, p, step) && Flagged(p, account)
    ensures Flagged(ApplyScan(cfg, p, step), account)
  {
  }

  /** Only a completed full snapshot of the account lowers its flag, and it always does. */
  lemma OnlyCompletionClearsFlag(cfg: Config, p: Protocol, step: Step, account: Uuid)
    requires ValidSetup(cfg) && Enabled(cfg, p, step) && Flagged(p, account)
    ensures Completes(p, step, account) <==> !Flagged(Apply(cfg, p, step), account)
  {
    match step
    case Write(w) => WriteKeepsRuns(cfg, p, w);
    case Snap(s) => SnapshotClearsFlag(p, s, account);
    case Scan(c) => ScansKeepFlag(cfg, p, c, account);
  }

  ghost predicate ScannerSound(cfg: Config, sc: Scanner)
  {
    && sc.requests <= Min(cfg.pageCap, cfg.requestCap)
    && sc.requests == sc.pages + (if sc.phase == Asking || sc.phase.Observing? then 1 else 0)
    && (sc.newest.Some? <==> sc.pages > 0 || sc.phase.Observing?)
    && (sc.newest.Some? ==> sc.first != [] && sc.newest == Some(sc.first[0]))
    && (sc.phase == Closing ==> sc.pages > 0)
  }

  ghost predicate ScansInv(cfg: Config, p: Protocol)
  {
    forall x | x in p.scanners :: ScannerSound(cfg, p.scanners[x])
  }

  lemma ScanStepKeeps(cfg: Config, p: Protocol, step: ScanStep, x: Uuid)
    requires ScanEnabled(cfg, p, step) && ScansInv(cfg, p) && x in ApplyScan(cfg, p, step).scanners
    ensures ScannerSound(cfg, ApplyScan(cfg, p, step).scanners[x])
  {
    if x in p.scanners {
      assert ScannerSound(cfg, p.scanners[x]);
    }
  }

  lemma StepKeepsScans(cfg: Config, p: Protocol, step: Step)
    requires ValidSetup(cfg) && Enabled(cfg, p, step) && ScansInv(cfg, p)
    ensures ScansInv(cfg, Apply(cfg, p, step))
  {
    match step
    case Write(w) => WriteKeepsRuns(cfg, p, w);
    case Snap(_) =>
    case Scan(c) =>
      forall x | x in ApplyScan(cfg, p, c).scanners ensures ScannerSound(cfg, ApplyScan(cfg, p, c).scanners[x]) {
        ScanStepKeeps(cfg, p, c, x);
      }
  }

  /** Only a scan that completes moves the account's watermark, to an identity on the first page it fetched. */
  lemma OnlyCompletedScansMoveWatermark(cfg: Config, p: Protocol, step: Step, account: Uuid)
    requires ValidSetup(cfg) && Enabled(cfg, p, step) && ScansInv(cfg, p)
    requires IncrementalOf(Apply(cfg, p, step).sync, account).watermark != IncrementalOf(p.sync, account).watermark
    ensures step.Scan? && step.c.FinishScan?
    ensures var sc := p.scanners[step.c.scanner];
            && sc.account == account && sc.first != []
            && IncrementalOf(Apply(cfg, p, step).sync, account).watermark == Some(sc.first[0])
  {
    match step
    case Write(w) => WriteKeepsRuns(cfg, p, w);
    case Snap(s) =>
      if s.Finish? && Finalizable(p.sync, p.runners[s.runner].handle) {
        CompletionClears(p.sync, p.runners[s.runner].handle, s.at, account);
      }
    case Scan(c) =>
      if c.FinishScan? {
        assert ScannerSound(cfg, p.scanners[c.scanner]);
      }
  }

  // ---------------------------------------------------------------- starting a scan behind a gap

  /** While the flag is up no new scanner is admitted. */
  lemma NobodyIsAdmitted(cfg: Config, p: Protocol, step: Step, account: Uuid, scanner: Uuid)
    requires ValidSetup(cfg) && Enabled(cfg, p, step) && Flagged(p, account)
    requires Admitted(Apply(cfg, p, step), scanner, account)
    ensures Admitted(p, scanner, account)
  {
    if step.Write? {
      WriteKeepsRuns(cfg, p, step.w);
    }
  }

  /** No step of the run completes a full snapshot of the account. */
  ghost predicate NoCompletion(cfg: Config, p: Protocol, steps: seq<Step>, account: Uuid)
    requires ValidSetup(cfg) && Legal(cfg, p, steps)
    decreases |steps|
  {
    steps == [] || (!Completes(p, steps[0], account) && NoCompletion(cfg, Apply(cfg, p, steps[0]), steps[1..], account))
  }

  lemma {:induction false} AdmittedBeforeGap(cfg: Config, p: Protocol, steps: seq<Step>, account: Uuid, scanner: Uuid)
    requires ValidSetup(cfg) && Legal(cfg, p, steps) && Flagged(p, account) && NoCompletion(cfg, p, steps, account)
    requires Admitted(Exec(cfg, p, steps), scanner, account)
    ensures Admitted(p, scanner, account)
    decreases |steps|
  {
    if steps != [] {
      OnlyCompletionClearsFlag(cfg, p, steps[0], account);
      AdmittedBeforeGap(cfg, Apply(cfg, p, steps[0]), steps[1..], account, scanner);
      NobodyIsAdmitted(cfg, p, steps[0], account, scanner);
    }
  }

  /** Some run without a completed full snapshot of the account goes on to open an incremental run for it. */
  ghost predicate ScanCanStartBehindGap(cfg: Config, p: Protocol, account: Uuid)
    requires ValidSetup(cfg)
  {
    exists steps, step :: StartsBehindGap(cfg, p, steps, step, account)
  }

  ghost predicate StartsBehindGap(cfg: Config, p: Protocol, steps: seq<Step>, step: Step, account: Uuid)
    requires ValidSetup(cfg)
  {
    && Legal(cfg, p, steps) && NoCompletion(cfg, p, steps, account)
    && Enabled(cfg, Exec(cfg, p, steps), step) && Opens(Exec(cfg, p, steps), step, account)
  }

  /**
   The flag check and the run insert are two statements, so the flag alone does not stop a scan. Behind a
   raised flag an incremental run can still start exactly when some scanner of the account passed its check
   before; once no such scanner is left, none starts until a full snapshot of the account completes.
   */
  lemma GapBlocksScansExactly(cfg: Config, p: Protocol, account: Uuid)
    requires ValidSetup(cfg) && Flagged(p, account)
    ensures ScanCanStartBehindGap(cfg, p, account) <==> exists scanner :: Admitted(p, scanner, account)
  {
    if ScanCanStartBehindGap(cfg, p, account) {
      var steps, step :| StartsBehindGap(cfg, p, steps, step, account);
      AdmittedBeforeGap(cfg, p, steps, account, step.c.scanner);
    }
    if exists scanner :: Admitted(p, scanner, account) {
      var scanner :| Admitted(p, scanner, account);
      var run := FreshRun(p.sync.runs.Keys);
      assert StartsBehindGap(cfg, p, [], Scan(OpenScan(scanner, run)), account);
    }
  }

  lemma {:induction false} FreshBound(used: set<Uuid>) returns (bound: nat)
    ensures forall x | x in used :: x < bound
    decreases |used|
  {
    if used == {} {
      bound := 0;
    } else {
      var x :| x in used;
      var rest := FreshBound(used - {x});
      bound := if rest > x then rest else x + 1;
      assert forall y | y in used :: y == x || y in used - {x};
    }
  }

  ghost function FreshRun(used: set<Uuid>): (run: Uuid)
    ensures run !in used
  {
    FreshExists(used);
    var run: Uuid :| run !in used;
    run
  }

  lemma FreshExists(used: set<Uuid>)
    ensures exists run: Uuid :: run !in used
  {
    var bound := FreshBound(used);
    assert bound !in used;
  }

  // ---------------------------------------------------------------- the race, as a run

  /** One more page that lacks the watermark: asked for, fetched and observed. */
  lemma PageCycle(cfg: Config, p: Protocol, x: Uuid, page: Page) returns (steps: seq<Step>)
    requires ValidSetup(cfg) && x in p.scanners && p.scanners[x].phase == Scanning && ValidPage(page) && page.next.Some?
    requires p.scanners[x].pages < cfg.pageCap && p.scanners[x].requests < cfg.requestCap && p.scanners[x].watermark.Some?
    requires var prior := IncrementalOf(p.sync, p.scanners[x].account).watermark; prior.Some? ==> prior.value !in page.items
    ensures Legal(cfg, p, steps)
    ensures var q := Exec(cfg, p, steps);
            && q.sync.incremental == p.sync.incremental && q.sync.runs == p.sync.runs
            && x in q.scanners && q.scanners == p.scanners[x := q.scanners[x]]
            && q.scanners[x].pages == p.scanners[x].pages + 1 && q.scanners[x].requests == p.scanners[x].requests + 1
            && q.scanners[x].phase == Scanning && q.scanners[x].account == p.scanners[x].account
            && q.scanners[x].watermark == p.scanners[x].watermark && q.scanners[x].run == p.scanners[x].run
  {
    var a, b, c := Scan(AskScan(x)), Scan(FetchScan(x, page)), Scan(ObserveScan(x, 0));
    var p1 := Apply(cfg, p, a);
    var p2 := Apply(cfg, p1, b);
    LegalOne(cfg, p, a);
    LegalExtends(cfg, p, [a], b);
    LegalExtends(cfg, p, [a] + [b], c);
    steps := [a] + [b] + [c];
  }

  lemma {:induction false} PagesWithoutWatermark(cfg: Config, p: Protocol, x: Uuid, page: Page, n: nat) returns (steps: seq<Step>)
    requires ValidSetup(cfg) && x in p.scanners && p.scanners[x].phase == Scanning && ValidPage(page) && page.next.Some?
    requires p.scanners[x].pages + n <= cfg.pageCap && p.scanners[x].requests + n <= cfg.requestCap && p.scanners[x].watermark.Some?
    requires var prior := IncrementalOf(p.sync, p.scanners[x].account).watermark; prior.Some? ==> prior.value !in page.items
    ensures Legal(cfg, p, steps)
    ensures var q := Exec(cfg, p, steps);
            && q.sync.incremental == p.sync.incremental && q.sync.runs == p.sync.runs
            && x in q.scanners && q.scanners == p.scanners[x := q.scanners[x]]
            && q.scanners[x].pages == p.scanners[x].pages + n && q.scanners[x].phase == Scanning
            && q.scanners[x].account == p.scanners[x].account && q.scanners[x].run == p.scanners[x].run
    decreases n
  {
    if n == 0 {
      steps := [];
    } else {
      var first := PageCycle(cfg, p, x, page);
      var rest := PagesWithoutWatermark(cfg, Exec(cfg, p, first), x, page, n - 1);
      LegalConcat(cfg, p, first, rest);
      steps := first + rest;
    }
  }

  /** A first scan of the account: without a watermark it stops after one page and stores one. */
  lemma FirstScan(cfg: Config, p: Protocol, account: Uuid, page: Page) returns (steps: seq<Step>)
    requires ValidSetup(cfg) && 1 <= cfg.pageCap && 1 <= cfg.requestCap && ValidPage(page)
    requires 0 !in p.scanners && 0 !in p.sync.runs && IncrementalOf(p.sync, account) == IncrementalState(None, false)
    ensures Legal(cfg, p, steps)
    ensures var q := Exec(cfg, p, steps);
            && q.scanners == p.scanners && q.sync.runs.Keys == p.sync.runs.Keys + {0}
            && IncrementalOf(q.sync, account) == IncrementalState(Some(page.items[0]), false)
  {
    var check, open, ask := Scan(CheckScan(0, account)), Scan(OpenScan(0, 0)), Scan(AskScan(0));
    var p1 := Apply(cfg, p, check);
    var p2 := Apply(cfg, p1, open);
    LegalOne(cfg, p, check);
    LegalExtends(cfg, p, [check], open);
    LegalExtends(cfg, p, [check] + [open], ask);
    var rest := FirstPage(cfg, Apply(cfg, p2, ask), account, page);
    LegalConcat(cfg, p, [check] + [open] + [ask], rest);
    steps := [check] + [open] + [ask] + rest;
    assert Exec(cfg, p, steps).scanners == p.scanners;
  }

  lemma FirstPage(cfg: Config, p: Protocol, account: Uuid, page: Page) returns (steps: seq<Step>)
    requires ValidSetup(cfg) && ValidPage(page) && 0 in p.scanners && 0 in p.sync.runs
    requires p.scanners[0].phase == Asking && p.scanners[0].account == account && p.scanners[0].run == 0
    requires p.scanners[0].watermark.None? && p.scanners[0].newest.None?
    ensures Legal(cfg, p, steps)
    ensures var q := Exec(cfg, p, steps);
            && q.scanners == p.scanners - {0} && q.sync.runs.Keys == p.sync.runs.Keys
            && IncrementalOf(q.sync, account) == IncrementalOf(p.sync, account).(watermark := Some(page.items[0]))
  {
    var fetch, observe, finish := Scan(FetchScan(0, page)), Scan(ObserveScan(0, 0)), Scan(FinishScan(0));
    var p1 := Apply(cfg, p, fetch);
    var p2 := Apply(cfg, p1, observe);
    LegalOne(cfg, p, fetch);
    LegalExtends(cfg, p, [fetch], observe);
    LegalExtends(cfg, p, [fetch] + [observe], finish);
    steps := [fetch] + [observe] + [finish];
  }

  /** Two scans pass the check; the first reads `pageCap` pages without the watermark and raises the flag. */
  lemma GapBehindCheck(cfg: Config, p: Protocol, account: Uuid, page: Page) returns (steps: seq<Step>)
    requires ValidSetup(cfg) && cfg.pageCap <= cfg.requestCap && ValidPage(page) && page.next.Some?
    requires 1 !in p.scanners && 2 !in p.scanners && 1 !in p.sync.runs
    requires var state := IncrementalOf(p.sync, account); !state.requiresFull && state.watermark.Some? && state.watermark.value !in page.items
    ensures steps != [] && Legal(cfg, p, steps) && steps[|steps| - 1] == Scan(GapScan(1))
    ensures var q := Exec(cfg, p, steps); Flagged(q, account) && Admitted(q, 2, account) && q.sync.runs.Keys == p.sync.runs.Keys + {1}
  {
    var a, b, c := Scan(CheckScan(1, account)), Scan(CheckScan(2, account)), Scan(OpenScan(1, 1));
    var p1 := Apply(cfg, p, a);
    var p2 := Apply(cfg, p1, b);
    LegalOne(cfg, p, a);
    LegalExtends(cfg, p, [a], b);
    LegalExtends(cfg, p, [a] + [b], c);
    var p3 := Apply(cfg, p2, c);
    var pages := PagesWithoutWatermark(cfg, p3, 1, page, cfg.pageCap);
    LegalConcat(cfg, p, [a] + [b] + [c], pages);
    LegalExtends(cfg, p, [a] + [b] + [c] + pages, Scan(GapScan(1)));
    steps := [a] + [b] + [c] + pages + [Scan(GapScan(1))];
  }

  /**
   The race, as a run of every deployment that scans: a first scan stores a watermark, two scans check, one reads its
   page cap of pages without the watermark and marks the gap, and the other still opens its run.
   */
  lemma ScanStartsBehindGap(cfg: Config, p: Protocol, account: Uuid, known: Page, page: Page) returns (steps: seq<Step>)
    requires ValidSetup(cfg) && 1 <= cfg.pageCap <= cfg.requestCap && Initial(p) && p.sync.incremental == map[]
    requires ValidPage(known) && ValidPage(page) && page.next.Some? && known.items[0] !in page.items
    ensures steps != [] && Legal(cfg, p, steps) && steps[|steps| - 1] == Scan(GapScan(1))
    ensures Flagged(Exec(cfg, p, steps), account) && Enabled(cfg, Exec(cfg, p, steps), Scan(OpenScan(2, 2)))
    ensures Opens(Exec(cfg, p, steps), Scan(OpenScan(2, 2)), account)
  {
    var first := FirstScan(cfg, p, account, known);
    var gap := GapBehindCheck(cfg, Exec(cfg, p, first), account, page);
    LegalConcat(cfg, p, first, gap);
    steps := first + gap;
  }

  // ---------------------------------------------------------------- over runs

  lemma {:induction false} RunKeepsScans(cfg: Config, p: Protocol, steps: seq<Step>)
    requires ValidSetup(cfg) && Legal(cfg, p, steps) && ScansInv(cfg, p)
    ensures ScansInv(cfg, Exec(cfg, p, steps))
    decreases |steps|
  {
    if steps != [] {
      StepKeepsScans(cfg, p, steps[0]);
      RunKeepsScans(cfg, Apply(cfg, p, steps[0]), steps[1..]);
    }
  }

  /** In every reachable state every scan has made at most min(page cap, request cap) provider requests, failed ones included. */
  lemma ScansAreBounded(cfg: Config, p: Protocol, steps: seq<Step>, x: Uuid)
    requires ValidSetup(cfg) && Initial(p) && Legal(cfg, p, steps) && x in Exec(cfg, p, steps).scanners
    ensures Exec(cfg, p, steps).scanners[x].requests <= Min(cfg.pageCap, cfg.requestCap)
  {
    RunKeepsScans(cfg, p, steps);
    assert ScannerSound(cfg, Exec(cfg, p, steps).scanners[x]);
  }
}
