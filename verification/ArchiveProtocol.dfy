/**
 The interleaved protocol. Every committed statement or transaction of every live write-back caller,
 snapshot runner and incremental scanner is one step; between any two of them any other process may move,
 and any process may be lost. Runs are lists of steps. `History` only records what happened: nothing
 guards on it except the freshness of generated identifiers.
 */
module ArchiveProtocol {
  import opened Common
  import opened ArchiveTables
  import opened BudgetGate
  import opened Writeback
  import opened Snapshots
  import opened Incremental
  import opened PageChains

  datatype Config = Config(write: WriteConfig, pageCap: nat, requestCap: nat)

  predicate ValidSetup(cfg: Config) { ValidConfig(cfg.write) }

  // ---------------------------------------------------------------- processes

  /** Where a write-back call stands between two awaits. */
  datatype CallerPhase =
    | Claimed
    | Judged(verdict: Verdict, now: Instant)
    | Holding(now: Instant, window: WindowKey)
    | Refunding(window: WindowKey)
    | Ready(window: WindowKey)
    | Called(window: WindowKey)

  datatype Caller = Caller(operation: Uuid, request: Request, action: Action, mode: Mode, phase: CallerPhase)

  datatype RunnerPhase = Resuming | Paging | Finishing

  datatype Runner = Runner(handle: RunHandle, phase: RunnerPhase)

  datatype ScanPhase = Checked | Scanning | Asking | Observing(page: Page, reached: bool) | Closing | Unreached

  /** `first` remembers the items of the first page fetched; `requests` counts a request when it is made, answered or not. */
  datatype Scanner = Scanner(account: Uuid, watermark: Option<PostId>, run: Uuid, newest: Option<PostId>,
                             first: seq<PostId>, pages: nat, requests: nat, phase: ScanPhase)

  // ---------------------------------------------------------------- history

  datatype Contact = Contact(caller: Uuid, operation: Uuid, account: Uuid, digest: Digest, consent: Uuid, window: WindowKey)

  datatype History = History(contacts: seq<Contact>, charged: map<Uuid, WindowKey>, refunded: set<Uuid>,
                             consumers: map<Uuid, Uuid>, pages: map<Uuid, seq<Fetched>>)

  datatype Protocol = Protocol(writes: WriteTables, sync: SyncTables, callers: map<Uuid, Caller>,
                               runners: map<Uuid, Runner>, scanners: map<Uuid, Scanner>, history: History)

  function PagesOf(h: History, snapshot: Uuid): seq<Fetched>
  {
    if snapshot in h.pages then h.pages[snapshot] else []
  }

  // ---------------------------------------------------------------- steps

  /** Whether the consent transaction fails, and if so on which side of its commit. */
  datatype CommitFault = NoFault | FaultBeforeCommit | FaultAfterCommit

  datatype WriteStep =
    | RecordConsent(consent: Uuid, row: Consent)
    | ChangeGrants(grants: Grants)
    | Claim(caller: Uuid, operation: Uuid, request: Request, action: Action, mode: Mode)
    | Judge(caller: Uuid, verdict: Verdict, now: Instant)
    | FinishSatisfied(caller: Uuid)
    | FinishRefused(caller: Uuid)
    | RecordPrediction(caller: Uuid)
    | Reserve(caller: Uuid, at: Instant)
    | Consume(caller: Uuid, fault: CommitFault)
    | GiveBack(caller: Uuid)
    | CallProvider(caller: Uuid)
    | Settle(caller: Uuid, answer: ProviderAnswer, at: Instant)
    | LoseCaller(caller: Uuid)

  datatype SnapshotStep =
    | OpenRun(runner: Uuid, account: Uuid, run: Uuid, snapshot: Uuid)
    | ReadRun(runner: Uuid, account: Uuid, run: Uuid, snapshot: Uuid)
    | MarkRunning(runner: Uuid)
    | Stage(runner: Uuid, page: Page, at: Instant)
    | FailRun(runner: Uuid)
    | Finish(runner: Uuid, at: Instant)
    | LoseRunner(runner: Uuid)

  datatype ScanStep =
    | CheckScan(scanner: Uuid, account: Uuid)
    | OpenScan(scanner: Uuid, run: Uuid)
    | AskScan(scanner: Uuid)
    | FetchScan(scanner: Uuid, page: Page)
    | ObserveScan(scanner: Uuid, at: Instant)
    | FinishScan(scanner: Uuid)
    | GapScan(scanner: Uuid)
    | HaltScan(scanner: Uuid)
    | BreakScan(scanner: Uuid)
    | LoseScanner(scanner: Uuid)

  datatype Step = Write(w: WriteStep) | Snap(s: SnapshotStep) | Scan(c: ScanStep)

  /**
   Admission reads several rows one after another, so under interference its verdict can be any of the
   three; `Judge` therefore leaves it free. Nothing proved about the protocol rests on it.
   */
  predicate WriteEnabled(cfg: Config, p: Protocol, step: WriteStep)
  {
    match step
    case RecordConsent(consent, row) => consent !in p.writes.consents && row.consumedAt.None?
    case ChangeGrants(_) => true
    case Claim(caller, operation, request, action, mode) =>
      && caller !in p.callers && caller !in p.history.charged
      && operation !in p.writes.operations && ValidRequest(request)
    case Judge(caller, _, _) => caller in p.callers && p.callers[caller].phase.Claimed?
    case FinishSatisfied(caller) =>
      && caller in p.callers && p.callers[caller].mode == Live
      && p.callers[caller].phase.Judged? && p.callers[caller].phase.verdict.Satisfied?
    case FinishRefused(caller) =>
      && caller in p.callers && p.callers[caller].mode == Live
      && p.callers[caller].phase.Judged? && p.callers[caller].phase.verdict.Rejected?
    case RecordPrediction(caller) =>
      caller in p.callers && p.callers[caller].mode == DryRun && p.callers[caller].phase.Judged?
    case Reserve(caller, _) =>
      && caller in p.callers && p.callers[caller].mode == Live
      && p.callers[caller].phase.Judged? && p.callers[caller].phase.verdict.Admitted?
    case Consume(caller, _) => caller in p.callers && p.callers[caller].phase.Holding?
    case GiveBack(caller) => caller in p.callers && p.callers[caller].phase.Refunding?
    case CallProvider(caller) => caller in p.callers && p.callers[caller].phase.Ready?
    case Settle(caller, _, _) => caller in p.callers && p.callers[caller].phase.Called?
    case LoseCaller(caller) => caller in p.callers
  }

  function SetPhase(p: Protocol, caller: Uuid, phase: CallerPhase): Protocol
    requires caller in p.callers
  {
    p.(callers := p.callers[caller := p.callers[caller].(phase := phase)])
  }

  function DropCaller(p: Protocol, caller: Uuid): Protocol
  {
    p.(callers := p.callers - {caller})
  }

  function ApplyClaim(p: Protocol, caller: Uuid, operation: Uuid, request: Request, action: Action, mode: Mode): Protocol
  {
    if KeyTaken(p.writes, request.account, Sha256(request.key)) then p
    else p.(writes := ClaimOperation(p.writes, operation, request, action, mode),
            callers := p.callers[caller := Caller(operation, request, action, mode, Claimed)])
  }

  function ApplyReserve(cfg: Config, p: Protocol, caller: Uuid, at: Instant): Protocol
    requires ValidSetup(cfg) && WriteEnabled(cfg, p, Reserve(caller, at))
  {
    var c := p.callers[caller];
    var window := WriteWindow(cfg.write, c.request.account, at);
    if WRITE_COST > cfg.write.cap then DropCaller(p, caller)
    else if Fits(p.writes.windows, window, cfg.write.cap, WRITE_COST) then
      SetPhase(p, caller, Holding(c.phase.now, window)).(
        writes := p.writes.(windows := Charge(p.writes.windows, window, cfg.write.cap, WRITE_COST)),
        history := p.history.(charged := p.history.charged[caller := window]))
    else SetPhase(p, caller, Judged(Rejected(BudgetExhausted), c.phase.now))
  }

  function ApplyConsume(p: Protocol, caller: Uuid, fault: CommitFault): Protocol
    requires caller in p.callers && p.callers[caller].phase.Holding?
  {
    var c := p.callers[caller];
    if fault == FaultBeforeCommit || !ConsentUsable(p.writes, c.request, c.action, c.phase.now) then
      SetPhase(p, caller, Refunding(c.phase.window))
    else
      SetPhase(p, caller, if fault == NoFault then Ready(c.phase.window) else Refunding(c.phase.window)).(
        writes := ConsumeConsent(p.writes, c.operation, c.request, c.action, c.phase.now),
        history := p.history.(consumers := p.history.consumers[c.request.consent := c.operation]))
  }

  function ApplyCall(p: Protocol, caller: Uuid): Protocol
    requires caller in p.callers && p.callers[caller].phase.Ready?
  {
    var c := p.callers[caller];
    var contact := Contact(caller, c.operation, c.request.account, Sha256(c.request.key), c.request.consent, c.phase.window);
    SetPhase(p, caller, Called(c.phase.window)).(history := p.history.(contacts := p.history.contacts + [contact]))
  }

  function ApplySettle(p: Protocol, caller: Uuid, answer: ProviderAnswer, at: Instant): Protocol
    requires caller in p.callers && p.callers[caller].phase.Called?
  {
    var c := p.callers[caller];
    DropCaller(p, caller).(
      writes := SettleWrites(p.writes, p.sync, c.operation, c.request.account, c.request.post, c.action, answer, at),
      sync := SettleSync(p.sync, c.operation, c.request.account, c.request.post, c.action, answer, at))
  }

  function ApplyWrite(cfg: Config, p: Protocol, step: WriteStep): Protocol
    requires ValidSetup(cfg) && WriteEnabled(cfg, p, step)
  {
    match step
    case RecordConsent(consent, row) => p.(writes := p.writes.(consents := p.writes.consents[consent := row]))
    case ChangeGrants(grants) => p.(writes := p.writes.(grants := grants))
    case Claim(caller, operation, request, action, mode) => ApplyClaim(p, caller, operation, request, action, mode)
    case Judge(caller, verdict, now) => SetPhase(p, caller, Judged(verdict, now))
    case FinishSatisfied(caller) =>
      DropCaller(p, caller).(writes := Transition(p.writes, p.callers[caller].operation, Received, Succeeded,
        Some(AlreadySatisfied), VerdictObservation(p.callers[caller].phase.verdict)))
    case FinishRefused(caller) =>
      DropCaller(p, caller).(writes := Transition(p.writes, p.callers[caller].operation, Received, Refused,
        Some(RefusedFor(p.callers[caller].phase.verdict.refusal)), None))
    case RecordPrediction(caller) =>
      DropCaller(p, caller).(writes := Transition(p.writes, p.callers[caller].operation, Received, DryRunRecorded,
        Some(Predicted(PredictionOf(p.callers[caller].phase.verdict))), VerdictObservation(p.callers[caller].phase.verdict)))
    case Reserve(caller, at) => ApplyReserve(cfg, p, caller, at)
    case Consume(caller, fault) => ApplyConsume(p, caller, fault)
    case GiveBack(caller) =>
      DropCaller(p, caller).(
        writes := p.writes.(windows := Refund(p.writes.windows, p.callers[caller].phase.window, WRITE_COST)),
        history := p.history.(refunded := p.history.refunded + {caller}))
    case CallProvider(caller) => ApplyCall(p, caller)
    case Settle(caller, answer, at) => ApplySettle(p, caller, answer, at)
    case LoseCaller(caller) => DropCaller(p, caller)
  }

  predicate SnapshotEnabled(p: Protocol, step: SnapshotStep)
  {
    match step
    case OpenRun(runner, account, run, snapshot) =>
      && runner !in p.runners && run !in p.sync.runs && snapshot !in p.sync.snapshots
      && snapshot !in p.sync.staged && snapshot !in p.history.pages
    case ReadRun(runner, account, run, snapshot) => runner !in p.runners && Resumable(p.sync, account, run, snapshot)
    case MarkRunning(runner) => runner in p.runners && p.runners[runner].phase == Resuming
    case Stage(runner, page, _) => runner in p.runners && p.runners[runner].phase == Paging && ValidPage(page)
    case FailRun(runner) => runner in p.runners && p.runners[runner].phase == Paging
    case Finish(runner, _) => runner in p.runners && p.runners[runner].phase == Finishing
    case LoseRunner(runner) => runner in p.runners
  }

  function ApplyStage(p: Protocol, runner: Uuid, page: Page, at: Instant): Protocol
    requires runner in p.runners
  {
    var handle := p.runners[runner].handle;
    var log := PagesOf(p.history, handle.snapshot) + [Fetched(handle.checkpoint, page)];
    p.(sync := StagePage(p.sync, handle, page, at),
       runners := p.runners[runner := Runner(handle.(checkpoint := page.next), if page.next.None? then Finishing else Paging)],
       history := p.history.(pages := p.history.pages[handle.snapshot := log]))
  }

  function ApplyFinish(p: Protocol, runner: Uuid, at: Instant): Protocol
    requires runner in p.runners
  {
    var handle := p.runners[runner].handle;
    var left := p.(runners := p.runners - {runner});
    if Finalizable(p.sync, handle) then
      left.(writes := SettleUncertain(p.writes, handle.account, StagedOf(p.sync, handle.snapshot), at),
            sync := CompleteRun(p.sync, handle, at))
    else left
  }

  function ApplySnapshot(p: Protocol, step: SnapshotStep): Protocol
    requires SnapshotEnabled(p, step)
  {
    match step
    case OpenRun(runner, account, run, snapshot) =>
      p.(sync := CreateRun(p.sync, account, run, snapshot),
         runners := p.runners[runner := Runner(RunHandle(run, snapshot, account, None), Paging)])
    case ReadRun(runner, account, run, snapshot) =>
      p.(runners := p.runners[runner := Runner(RunHandle(run, snapshot, account, p.sync.runs[run].checkpoint), Resuming)])
    case MarkRunning(runner) =>
      p.(sync := SetRunState(p.sync, p.runners[runner].handle.run, Running),
         runners := p.runners[runner := p.runners[runner].(phase := Paging)])
    case Stage(runner, page, at) => ApplyStage(p, runner, page, at)
    case FailRun(runner) =>
      p.(sync := SetRunState(p.sync, p.runners[runner].handle.run, RunFailed), runners := p.runners - {runner})
    case Finish(runner, at) => ApplyFinish(p, runner, at)
    case LoseRunner(runner) => p.(runners := p.runners - {runner})
  }

  predicate ScanEnabled(cfg: Config, p: Protocol, step: ScanStep)
  {
    match step
    case CheckScan(scanner, _) => scanner !in p.scanners
    case OpenScan(scanner, run) => scanner in p.scanners && p.scanners[scanner].phase == Checked && run !in p.sync.runs
    case AskScan(scanner) =>
      && scanner in p.scanners && p.scanners[scanner].phase == Scanning
      && p.scanners[scanner].pages < cfg.pageCap && p.scanners[scanner].requests < cfg.requestCap
    case FetchScan(scanner, page) => scanner in p.scanners && p.scanners[scanner].phase == Asking && ValidPage(page)
    case ObserveScan(scanner, _) => scanner in p.scanners && p.scanners[scanner].phase.Observing?
    case FinishScan(scanner) => scanner in p.scanners && p.scanners[scanner].phase == Closing
    case GapScan(scanner) =>
      scanner in p.scanners && p.scanners[scanner].phase == Scanning && p.scanners[scanner].pages >= cfg.pageCap
    case HaltScan(scanner) =>
      scanner in p.scanners && p.scanners[scanner].phase == Scanning && p.scanners[scanner].pages < cfg.pageCap
    case BreakScan(scanner) =>
      && scanner in p.scanners
      && (p.scanners[scanner].phase == Scanning || p.scanners[scanner].phase == Asking || p.scanners[scanner].phase == Unreached)
    case LoseScanner(scanner) => scanner in p.scanners
  }

  function ApplyFetch(p: Protocol, scanner: Uuid, page: Page): Protocol
    requires scanner in p.scanners && ValidPage(page)
  {
    var sc := p.scanners[scanner];
    var reached := Reaches(p.sync, sc.account, sc.watermark, page);
    p.(scanners := p.scanners[scanner :=
      sc.(newest := if sc.newest.None? then Some(page.items[0]) else sc.newest,
          first := if sc.newest.None? then page.items else sc.first,
          phase := Observing(page, reached))])
  }

  function ApplyObserve(p: Protocol, scanner: Uuid, at: Instant): Protocol
    requires scanner in p.scanners && p.scanners[scanner].phase.Observing?
  {
    var sc := p.scanners[scanner];
    p.(sync := ObservePage(p.sync, sc.account, sc.run, sc.phase.page, at),
       scanners := p.scanners[scanner := sc.(pages := sc.pages + 1,
         phase := if sc.phase.reached then Closing else if sc.phase.page.next.None? then Unreached else Scanning)])
  }

  function ApplyScan(cfg: Config, p: Protocol, step: ScanStep): Protocol
    requires ScanEnabled(cfg, p, step)
  {
    match step
    case CheckScan(scanner, account) =>
      if IncrementalOf(p.sync, account).requiresFull then p
      else p.(scanners := p.scanners[scanner :=
        Scanner(account, IncrementalOf(p.sync, account).watermark, 0, None, [], 0, 0, Checked)])
    case OpenScan(scanner, run) =>
      p.(sync := CreateScan(p.sync, p.scanners[scanner].account, run),
         scanners := p.scanners[scanner := p.scanners[scanner].(run := run, phase := Scanning)])
    case AskScan(scanner) =>
      p.(scanners := p.scanners[scanner := p.scanners[scanner].(requests := p.scanners[scanner].requests + 1, phase := Asking)])
    case FetchScan(scanner, page) => ApplyFetch(p, scanner, page)
    case ObserveScan(scanner, at) => ApplyObserve(p, scanner, at)
    case FinishScan(scanner) =>
      p.(sync := CompleteScan(p.sync, p.scanners[scanner].account, p.scanners[scanner].run, p.scanners[scanner].newest),
         scanners := p.scanners - {scanner})
    case GapScan(scanner) =>
      p.(sync := MarkGap(p.sync, p.scanners[scanner].account, p.scanners[scanner].run), scanners := p.scanners - {scanner})
    case HaltScan(scanner) =>
      p.(sync := StopScan(p.sync, p.scanners[scanner].account, p.scanners[scanner].run), scanners := p.scanners - {scanner})
    case BreakScan(scanner) =>
      p.(sync := SetRunState(p.sync, p.scanners[scanner].run, RunFailed), scanners := p.scanners - {scanner})
    case LoseScanner(scanner) => p.(scanners := p.scanners - {scanner})
  }

  predicate Enabled(cfg: Config, p: Protocol, step: Step)
  {
    match step
    case Write(w) => WriteEnabled(cfg, p, w)
    case Snap(s) => SnapshotEnabled(p, s)
    case Scan(c) => ScanEnabled(cfg, p, c)
  }

  function Apply(cfg: Config, p: Protocol, step: Step): Protocol
    requires ValidSetup(cfg) && Enabled(cfg, p, step)
  {
    match step
    case Write(w) => ApplyWrite(cfg, p, w)
    case Snap(s) => ApplySnapshot(p, s)
    case Scan(c) => ApplyScan(cfg, p, c)
  }

  // ---------------------------------------------------------------- runs

  /** The step completes a full snapshot of the account. */
  predicate Completes(p: Protocol, step: Step, account: Uuid)
  {
    && step.Snap? && step.s.Finish? && step.s.runner in p.runners
    && Finalizable(p.sync, p.runners[step.s.runner].handle) && p.runners[step.s.runner].handle.account == account
  }

  /** A freshly deployed archive: no operations, runs, bookmarks or processes yet. */
  ghost predicate Initial(p: Protocol)
  {
    && p.writes.consents == map[] && p.writes.operations == map[] && p.writes.windows == map[]
    && p.sync.bookmarks == map[] && p.sync.runs == map[] && p.sync.snapshots == map[] && p.sync.staged == map[]
    && p.callers == map[] && p.runners == map[] && p.scanners == map[]
    && p.history == History([], map[], {}, map[], map[])
  }

  ghost predicate Legal(cfg: Config, p: Protocol, steps: seq<Step>)
    requires ValidSetup(cfg)
    decreases |steps|
  {
    steps == [] || (Enabled(cfg, p, steps[0]) && Legal(cfg, Apply(cfg, p, steps[0]), steps[1..]))
  }

  ghost function Exec(cfg: Config, p: Protocol, steps: seq<Step>): Protocol
    requires ValidSetup(cfg) && Legal(cfg, p, steps)
    decreases |steps|
  {
    if steps == [] then p else Exec(cfg, Apply(cfg, p, steps[0]), steps[1..])
  }

  /** A legal run splits at any point into a legal prefix and a legal rest. */
  lemma {:induction false} LegalSplits(cfg: Config, p: Protocol, steps: seq<Step>, n: nat)
    requires ValidSetup(cfg) && Legal(cfg, p, steps) && n <= |steps|
    ensures Legal(cfg, p, steps[..n]) && Legal(cfg, Exec(cfg, p, steps[..n]), steps[n..])
    ensures Exec(cfg, Exec(cfg, p, steps[..n]), steps[n..]) == Exec(cfg, p, steps)
    decreases n
  {
    if n == 0 {
      assert steps[..0] == [] && steps[0..] == steps;
    } else {
      var q := Apply(cfg, p, steps[0]);
      LegalSplits(cfg, q, steps[1..], n - 1);
      assert steps[..n][1..] == steps[1..][..n - 1];
      assert steps[n..] == steps[1..][n - 1..];
      assert steps[..n][0] == steps[0];
    }
  }

  /** Two legal runs, the second from where the first ends, make one. */
  lemma {:induction false} LegalConcat(cfg: Config, p: Protocol, a: seq<Step>, b: seq<Step>)
    requires ValidSetup(cfg) && Legal(cfg, p, a) && Legal(cfg, Exec(cfg, p, a), b)
    ensures Legal(cfg, p, a + b) && Exec(cfg, p, a + b) == Exec(cfg, Exec(cfg, p, a), b)
    decreases |a|
  {
    if a == [] {
      assert a + b == b;
    } else {
      LegalConcat(cfg, Apply(cfg, p, a[0]), a[1..], b);
      assert (a + b)[1..] == a[1..] + b;
    }
  }

  /** One enabled step is a run. */
  lemma LegalOne(cfg: Config, p: Protocol, step: Step)
    requires ValidSetup(cfg) && Enabled(cfg, p, step)
    ensures Legal(cfg, p, [step]) && Exec(cfg, p, [step]) == Apply(cfg, p, step)
  {
    assert [step][1..] == [];
  }

  /** A legal run extended by an enabled step is legal, and ends in that step's state. */
  lemma {:induction false} LegalExtends(cfg: Config, p: Protocol, steps: seq<Step>, step: Step)
    requires ValidSetup(cfg) && Legal(cfg, p, steps) && Enabled(cfg, Exec(cfg, p, steps), step)
    ensures Legal(cfg, p, steps + [step])
    ensures Exec(cfg, p, steps + [step]) == Apply(cfg, Exec(cfg, p, steps), step)
    decreases |steps|
  {
    if steps == [] {
      assert [step][1..] == [];
    } else {
      assert (steps + [step])[1..] == steps[1..] + [step];
      LegalExtends(cfg, Apply(cfg, p, steps[0]), steps[1..], step);
    }
  }
}
