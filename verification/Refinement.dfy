/**
 The sequential services are runs of the interleaved protocol: a live call, a snapshot page loop and an incremental
 scan that nothing disturbs are each a list of protocol steps with the same effect, so whatever holds of every run
 holds of them.
 */
module Refinement {
  import opened Common
  import opened ArchiveTables
  import opened BudgetGate
  import opened Writeback
  import opened Snapshots
  import opened Incremental
  import opened ArchiveProtocol

  // ---------------------------------------------------------------- a live write-back call

  /** The run has the call's effect, leaves no caller behind, and calls the provider exactly when the call does. */
  ghost predicate RunsAs(cfg: Config, p: Protocol, caller: Uuid, steps: seq<Step>, live: LiveRun)
    requires ValidSetup(cfg)
  {
    && Legal(cfg, p, steps)
    && var q := Exec(cfg, p, steps);
    && q.writes == live.writes && q.sync == live.sync
    && q.runners == p.runners && q.scanners == p.scanners && q.callers == p.callers - {caller}
    && |q.history.contacts| == |p.history.contacts| + (if live.contacted then 1 else 0)
    && q.history.pages == p.history.pages
  }

  lemma Prepend(cfg: Config, p: Protocol, caller: Uuid, step: Step, steps: seq<Step>, live: LiveRun)
    requires ValidSetup(cfg) && Enabled(cfg, p, step) && RunsAs(cfg, Apply(cfg, p, step), caller, steps, live)
    requires var q := Apply(cfg, p, step);
             && q.runners == p.runners && q.scanners == p.scanners && q.callers - {caller} == p.callers - {caller}
             && |q.history.contacts| == |p.history.contacts| && q.history.pages == p.history.pages
    ensures RunsAs(cfg, p, caller, [step] + steps, live)
  {
    LegalOne(cfg, p, step);
    LegalConcat(cfg, p, [step], steps);
  }

  /** The caller is past admission and about to reserve. */
  ghost predicate About(p: Protocol, caller: Uuid, id: Uuid, request: Request, action: Action, phase: CallerPhase)
  {
    caller in p.callers && p.callers[caller] == Caller(id, request, action, Live, phase)
  }

  lemma SettleRuns(cfg: Config, p: Protocol, caller: Uuid, id: Uuid, request: Request, action: Action, window: WindowKey, now: Instant,
                   answer: ProviderAnswer) returns (steps: seq<Step>)
    requires ValidSetup(cfg) && About(p, caller, id, request, action, Ready(window))
    ensures Legal(cfg, p, steps)
    ensures var q := Exec(cfg, p, steps);
            && q.writes == SettleWrites(p.writes, p.sync, id, request.account, request.post, action, answer, now)
            && q.sync == SettleSync(p.sync, id, request.account, request.post, action, answer, now)
            && q.runners == p.runners && q.scanners == p.scanners && q.callers == p.callers - {caller}
            && |q.history.contacts| == |p.history.contacts| + 1 && q.history.pages == p.history.pages
  {
    var call, settle := Write(CallProvider(caller)), Write(Settle(caller, answer, now));
    var p1 := ApplyCall(p, caller);
    assert Apply(cfg, p, call) == p1;
    assert Enabled(cfg, p1, settle);
    LegalOne(cfg, p, call);
    LegalOne(cfg, p1, settle);
    LegalConcat(cfg, p, [call], [settle]);
    steps := [call] + [settle];
    assert Apply(cfg, p1, settle) == ApplySettle(p1, caller, answer, now);
  }

  lemma ConsumeRuns(cfg: Config, p: Protocol, caller: Uuid, id: Uuid, request: Request, action: Action, window: WindowKey, now: Instant,
                    answer: ProviderAnswer) returns (steps: seq<Step>)
    requires ValidSetup(cfg) && About(p, caller, id, request, action, Holding(now, window)) && ConsentUsable(p.writes, request, action, now)
    ensures Legal(cfg, p, steps)
    ensures var q := Exec(cfg, p, steps);
            var inFlight := ConsumeConsent(p.writes, id, request, action, now);
            && q.writes == SettleWrites(inFlight, p.sync, id, request.account, request.post, action, answer, now)
            && q.sync == SettleSync(p.sync, id, request.account, request.post, action, answer, now)
            && q.runners == p.runners && q.scanners == p.scanners && q.callers == p.callers - {caller}
            && |q.history.contacts| == |p.history.contacts| + 1 && q.history.pages == p.history.pages
  {
    var consume := Write(Consume(caller, NoFault));
    var p1 := ApplyConsume(p, caller, NoFault);
    assert Apply(cfg, p, consume) == p1;
    LegalOne(cfg, p, consume);
    var rest := SettleRuns(cfg, p1, caller, id, request, action, window, now, answer);
    LegalConcat(cfg, p, [consume], rest);
    steps := [consume] + rest;
  }

  lemma GiveBackRuns(cfg: Config, p: Protocol, caller: Uuid, id: Uuid, request: Request, action: Action, window: WindowKey, now: Instant)
    returns (steps: seq<Step>)
    requires ValidSetup(cfg) && About(p, caller, id, request, action, Holding(now, window)) && !ConsentUsable(p.writes, request, action, now)
    ensures Legal(cfg, p, steps)
    ensures var q := Exec(cfg, p, steps);
            && q.writes == p.writes.(windows := Refund(p.writes.windows, window, WRITE_COST)) && q.sync == p.sync
            && q.runners == p.runners && q.scanners == p.scanners && q.callers == p.callers - {caller}
            && q.history.contacts == p.history.contacts && q.history.pages == p.history.pages
  {
    var consume, back := Write(Consume(caller, NoFault)), Write(GiveBack(caller));
    var p1 := ApplyConsume(p, caller, NoFault);
    assert Apply(cfg, p, consume) == p1 && Enabled(cfg, p1, back);
    LegalOne(cfg, p, consume);
    LegalOne(cfg, p1, back);
    LegalConcat(cfg, p, [consume], [back]);
    steps := [consume] + [back];
  }

  lemma RefuseRuns(cfg: Config, p: Protocol, caller: Uuid, id: Uuid, request: Request, action: Action, refusal: Refusal, now: Instant)
    returns (steps: seq<Step>)
    requires ValidSetup(cfg) && About(p, caller, id, request, action, Judged(Rejected(refusal), now))
    ensures Legal(cfg, p, steps)
    ensures var q := Exec(cfg, p, steps);
            && q.writes == Transition(p.writes, id, Received, Refused, Some(RefusedFor(refusal)), None) && q.sync == p.sync
            && q.runners == p.runners && q.scanners == p.scanners && q.callers == p.callers - {caller}
            && q.history == p.history
  {
    steps := [Write(FinishRefused(caller))];
    LegalOne(cfg, p, Write(FinishRefused(caller)));
  }

  lemma SubmitRuns(cfg: Config, p: Protocol, caller: Uuid, id: Uuid, request: Request, action: Action, now: Instant, reserveAt: Instant,
                   answer: ProviderAnswer) returns (steps: seq<Step>)
    requires ValidSetup(cfg) && About(p, caller, id, request, action, Judged(Admitted, now))
    ensures RunsAs(cfg, p, caller, steps, SubmitCall(p.writes, p.sync, cfg.write, id, request, action, now, reserveAt, answer))
  {
    var reserve := Write(Reserve(caller, reserveAt));
    var window := WriteWindow(cfg.write, request.account, reserveAt);
    var p1 := ApplyReserve(cfg, p, caller, reserveAt);
    assert Enabled(cfg, p, reserve) && Apply(cfg, p, reserve) == p1;
    var live := SubmitCall(p.writes, p.sync, cfg.write, id, request, action, now, reserveAt, answer);
    var rest: seq<Step>;
    if WRITE_COST > cfg.write.cap {
      rest := [];
    } else if !Fits(p.writes.windows, window, cfg.write.cap, WRITE_COST) {
      rest := RefuseRuns(cfg, p1, caller, id, request, action, BudgetExhausted, now);
    } else {
      rest := HoldingRuns(cfg, p, p1, caller, id, request, action, now, reserveAt, answer);
    }
    Prepend(cfg, p, caller, reserve, rest, live);
    steps := [reserve] + rest;
  }

  lemma HoldingRuns(cfg: Config, p: Protocol, p1: Protocol, caller: Uuid, id: Uuid, request: Request, action: Action, now: Instant,
                    reserveAt: Instant, answer: ProviderAnswer) returns (steps: seq<Step>)
    requires ValidSetup(cfg) && WRITE_COST <= cfg.write.cap
    requires var window := WriteWindow(cfg.write, request.account, reserveAt);
             && Fits(p.writes.windows, window, cfg.write.cap, WRITE_COST)
             && About(p1, caller, id, request, action, Holding(now, window)) && p1.sync == p.sync
             && p1.writes == p.writes.(windows := Charge(p.writes.windows, window, cfg.write.cap, WRITE_COST))
    ensures RunsAs(cfg, p1, caller, steps, SubmitCall(p.writes, p.sync, cfg.write, id, request, action, now, reserveAt, answer))
  {
    var window := WriteWindow(cfg.write, request.account, reserveAt);
    if ConsentUsable(p1.writes, request, action, now) {
      steps := ConsumeRuns(cfg, p1, caller, id, request, action, window, now, answer);
    } else {
      steps := GiveBackRuns(cfg, p1, caller, id, request, action, window, now);
    }
  }

  lemma JudgedRuns(cfg: Config, p: Protocol, caller: Uuid, id: Uuid, request: Request, action: Action, verdict: Verdict, now: Instant,
                   reserveAt: Instant, answer: ProviderAnswer) returns (steps: seq<Step>)
    requires ValidSetup(cfg) && About(p, caller, id, request, action, Judged(verdict, now))
    ensures RunsAs(cfg, p, caller, steps, AfterVerdict(p.writes, p.sync, cfg.write, id, request, action, verdict, now, reserveAt, answer))
  {
    match verdict
    case Satisfied(_) =>
      steps := [Write(FinishSatisfied(caller))];
      LegalOne(cfg, p, Write(FinishSatisfied(caller)));
    case Rejected(refusal) => steps := RefuseRuns(cfg, p, caller, id, request, action, refusal, now);
    case Admitted => steps := SubmitRuns(cfg, p, caller, id, request, action, now, reserveAt, answer);
  }

  /** The live call after its claim and its verdict. */
  function AfterVerdict(w: WriteTables, s: SyncTables, cfg: WriteConfig, id: Uuid, request: Request, action: Action, verdict: Verdict,
                        now: Instant, reserveAt: Instant, answer: ProviderAnswer): LiveRun
    requires ValidConfig(cfg)
  {
    match verdict
    case Satisfied(observedAt) =>
      LiveRun(Transition(w, id, Received, Succeeded, Some(AlreadySatisfied), Some(observedAt)), s, false, Finished(id, WriteAlreadySatisfied))
    case Rejected(refusal) =>
      LiveRun(Transition(w, id, Received, Refused, Some(RefusedFor(refusal)), None), s, false, RefusedWith(refusal))
    case Admitted => SubmitCall(w, s, cfg, id, request, action, now, reserveAt, answer)
  }

  /** An undisturbed live call on an unused key is a run of the protocol. */
  lemma LiveCallIsRun(cfg: Config, p: Protocol, caller: Uuid, id: Uuid, request: Request, action: Action, now: Instant, reserveAt: Instant,
                      answer: ProviderAnswer) returns (steps: seq<Step>)
    requires ValidSetup(cfg) && caller !in p.callers && caller !in p.history.charged && id !in p.writes.operations
    requires ValidRequest(request) && !KeyTaken(p.writes, request.account, Sha256(request.key))
    ensures RunsAs(cfg, p, caller, steps, LiveCall(p.writes, p.sync, cfg.write, id, request, action, now, reserveAt, answer))
  {
    var claim := Write(Claim(caller, id, request, action, Live));
    var p1 := ApplyClaim(p, caller, id, request, action, Live);
    assert Enabled(cfg, p, claim) && Apply(cfg, p, claim) == p1;
    var verdict := EvaluateLocal(p1.writes, p.sync, cfg.write, request, action, now);
    var live := AfterVerdict(p1.writes, p.sync, cfg.write, id, request, action, verdict, now, reserveAt, answer);
    var judge := Write(Judge(caller, verdict, now));
    var p2 := SetPhase(p1, caller, Judged(verdict, now));
    assert Enabled(cfg, p1, judge) && Apply(cfg, p1, judge) == p2;
    var rest := JudgedRuns(cfg, p2, caller, id, request, action, verdict, now, reserveAt, answer);
    Prepend(cfg, p1, caller, judge, rest, live);
    Prepend(cfg, p, caller, claim, [judge] + rest, live);
    steps := [claim] + ([judge] + rest);
  }

  // ---------------------------------------------------------------- a snapshot's page loop

  ghost predicate ValidDeliveries(turns: seq<Turn>) { forall i | 0 <= i < |turns| && turns[i].Delivered? :: ValidPage(turns[i].page) }

  /** The run has the loop's effect and its runner is gone. */
  ghost predicate PagesAs(cfg: Config, p: Protocol, steps: seq<Step>, a: Archive, runner: Uuid)
    requires ValidSetup(cfg)
  {
    && Legal(cfg, p, steps)
    && var q := Exec(cfg, p, steps);
    && Archive(q.writes, q.sync) == a && q.runners == p.runners - {runner} && q.callers == p.callers && q.scanners == p.scanners
  }

  lemma FailRuns(cfg: Config, p: Protocol, runner: Uuid)
    requires ValidSetup(cfg) && runner in p.runners && p.runners[runner].phase == Paging
    ensures PagesAs(cfg, p, [Snap(FailRun(runner))], Archive(p.writes, SetRunState(p.sync, p.runners[runner].handle.run, RunFailed)), runner)
  {
    LegalOne(cfg, p, Snap(FailRun(runner)));
  }

  lemma SameCompletion(s: SyncTables, handle: RunHandle, at: Instant)
    requires Finalizable(s, handle)
    ensures CompleteRun(s, handle.(checkpoint := None), at) == CompleteRun(s, handle, at)
  {
  }

  lemma FinishRuns(cfg: Config, p: Protocol, runner: Uuid, handle: RunHandle, at: Instant)
    requires ValidSetup(cfg) && runner in p.runners && p.runners[runner] == Runner(handle.(checkpoint := None), Finishing)
    ensures PagesAs(cfg, p, [Snap(Finish(runner, at))],
                    if Finalizable(p.sync, handle) then CompleteBoth(Archive(p.writes, p.sync), handle, at) else Archive(p.writes, p.sync), runner)
  {
    LegalOne(cfg, p, Snap(Finish(runner, at)));
    if Finalizable(p.sync, handle) {
      SameCompletion(p.sync, handle, at);
    }
  }

  lemma StageThen(cfg: Config, p: Protocol, runner: Uuid, page: Page, at: Instant, steps: seq<Step>, a: Archive)
    requires ValidSetup(cfg) && runner in p.runners && p.runners[runner].phase == Paging && ValidPage(page)
    requires PagesAs(cfg, ApplyStage(p, runner, page, at), steps, a, runner)
    ensures PagesAs(cfg, p, [Snap(Stage(runner, page, at))] + steps, a, runner)
  {
    LegalOne(cfg, p, Snap(Stage(runner, page, at)));
    LegalConcat(cfg, p, [Snap(Stage(runner, page, at))], steps);
    var q := Exec(cfg, p, [Snap(Stage(runner, page, at))] + steps);
    assert q.runners == p.runners - {runner};
  }

  /** An undisturbed page loop is a run of the protocol, wherever it ends or crashes. */
  lemma {:induction false} PageLoopIsRun(cfg: Config, p: Protocol, runner: Uuid, turns: seq<Turn>, completedAt: Instant) returns (steps: seq<Step>)
    requires ValidSetup(cfg) && runner in p.runners && p.runners[runner].phase == Paging && ValidDeliveries(turns)
    ensures PagesAs(cfg, p, steps, PageLoop(Archive(p.writes, p.sync), p.runners[runner].handle, turns, completedAt).0, runner)
    decreases |turns|
  {
    var handle := p.runners[runner].handle;
    if turns == [] {
      steps := [Snap(LoseRunner(runner))];
      LegalOne(cfg, p, Snap(LoseRunner(runner)));
    } else if !turns[0].Delivered? {
      steps := [Snap(FailRun(runner))];
      FailRuns(cfg, p, runner);
    } else {
      var page, at := turns[0].page, turns[0].at;
      var p1 := ApplyStage(p, runner, page, at);
      var rest: seq<Step>;
      if page.next.Some? {
        assert ValidDeliveries(turns[1..]) by {
          forall i | 0 <= i < |turns[1..]| ensures turns[1..][i] == turns[i + 1] {}
        }
        rest := PageLoopIsRun(cfg, p1, runner, turns[1..], completedAt);
      } else {
        rest := [Snap(Finish(runner, completedAt))];
        FinishRuns(cfg, p1, runner, handle, completedAt);
      }
      StageThen(cfg, p, runner, page, at, rest, PageLoop(Archive(p.writes, p.sync), handle, turns, completedAt).0);
      steps := [Snap(Stage(runner, page, at))] + rest;
    }
  }

  // ---------------------------------------------------------------- an incremental scan

  /** The run has the scan's effect on the tables and its scanner is gone. */
  ghost predicate ScansAs(cfg: Config, p: Protocol, steps: seq<Step>, t: SyncTables, x: Uuid)
    requires ValidSetup(cfg)
  {
    && Legal(cfg, p, steps)
    && var q := Exec(cfg, p, steps);
    && q.sync == t && q.writes == p.writes && q.scanners == p.scanners - {x} && q.callers == p.callers && q.runners == p.runners
  }

  /** The scanner stands at the top of its loop with so many pages read. */
  ghost predicate AtTop(p: Protocol, x: Uuid, account: Uuid, run: Uuid, watermark: Option<PostId>, newest: Option<PostId>, requests: nat)
  {
    && x in p.scanners
    && var sc := p.scanners[x];
    && sc.account == account && sc.run == run && sc.watermark == watermark && sc.newest == newest
    && sc.pages == requests && sc.requests == requests && sc.phase == Scanning
  }

  lemma ScanStepThen(cfg: Config, p: Protocol, step: ScanStep, steps: seq<Step>, t: SyncTables, x: Uuid)
    requires ValidSetup(cfg) && ScanEnabled(cfg, p, step) && ScansAs(cfg, ApplyScan(cfg, p, step), steps, t, x)
    requires var q := ApplyScan(cfg, p, step); q.scanners - {x} == p.scanners - {x}
    ensures ScansAs(cfg, p, [Scan(step)] + steps, t, x)
  {
    LegalOne(cfg, p, Scan(step));
    LegalConcat(cfg, p, [Scan(step)], steps);
  }

  lemma LastScanStep(cfg: Config, p: Protocol, step: ScanStep, x: Uuid)
    requires ValidSetup(cfg) && ScanEnabled(cfg, p, step) && ApplyScan(cfg, p, step).scanners == p.scanners - {x}
    ensures ScansAs(cfg, p, [Scan(step)], ApplyScan(cfg, p, step).sync, x)
  {
    LegalOne(cfg, p, Scan(step));
  }

  /** Ends before a request is made. */
  lemma EarlyEndRuns(cfg: Config, p: Protocol, x: Uuid, account: Uuid, run: Uuid, watermark: Option<PostId>, turn: ScanTurn,
                     newest: Option<PostId>, requests: nat) returns (steps: seq<Step>)
    requires ValidSetup(cfg) && AtTop(p, x, account, run, watermark, newest, requests) && (turn.ScanDelivered? ==> ValidPage(turn.page))
    requires requests >= cfg.pageCap || requests >= cfg.requestCap || turn.ScanBudgetExhausted? || turn.ScanBudgetFailed?
    ensures var end := TurnEnd(p.sync, account, run, cfg.pageCap, cfg.requestCap, watermark, turn, newest, requests);
            end.Some? && ScansAs(cfg, p, steps, end.value.0, x)
  {
    var step := if requests >= cfg.pageCap then GapScan(x)
      else if requests >= cfg.requestCap || turn.ScanBudgetExhausted? then HaltScan(x)
      else BreakScan(x);
    LastScanStep(cfg, p, step, x);
    steps := [Scan(step)];
  }

  /** Ends on a request that brings no usable page. */
  lemma FailedRequestRuns(cfg: Config, p: Protocol, x: Uuid, account: Uuid, run: Uuid, watermark: Option<PostId>, turn: ScanTurn,
                          newest: Option<PostId>, requests: nat) returns (steps: seq<Step>)
    requires ValidSetup(cfg) && AtTop(p, x, account, run, watermark, newest, requests)
    requires requests < cfg.pageCap && requests < cfg.requestCap && (turn.ScanUnavailable? || turn.ScanUnnormalizable?)
    ensures var end := TurnEnd(p.sync, account, run, cfg.pageCap, cfg.requestCap, watermark, turn, newest, requests);
            end.Some? && ScansAs(cfg, p, steps, end.value.0, x)
  {
    var p1 := ApplyScan(cfg, p, AskScan(x));
    var step := if turn.ScanUnavailable? then BreakScan(x) else LoseScanner(x);
    LastScanStep(cfg, p1, step, x);
    ScanStepThen(cfg, p, AskScan(x), [Scan(step)], ApplyScan(cfg, p1, step).sync, x);
    steps := [Scan(AskScan(x))] + [Scan(step)];
  }

  /** After a request, a fetched page and its observation, the scanner closes, gives up or is at the top again. */
  lemma ObservedRuns(cfg: Config, p: Protocol, x: Uuid, account: Uuid, run: Uuid, watermark: Option<PostId>, page: Page, at: Instant,
                     newest: Option<PostId>, requests: nat, rest: seq<Step>, t: SyncTables)
    requires ValidSetup(cfg) && AtTop(p, x, account, run, watermark, newest, requests) && ValidPage(page)
    requires requests < cfg.pageCap && requests < cfg.requestCap
    requires ScansAs(cfg, AfterPage(cfg, p, x, page, at), rest, t, x)
    ensures ScansAs(cfg, p, [Scan(AskScan(x))] + ([Scan(FetchScan(x, page))] + ([Scan(ObserveScan(x, at))] + rest)), t, x)
  {
    var p1 := ApplyScan(cfg, p, AskScan(x));
    var p2 := ApplyScan(cfg, p1, FetchScan(x, page));
    var p3 := ApplyScan(cfg, p2, ObserveScan(x, at));
    ScanStepThen(cfg, p2, ObserveScan(x, at), rest, t, x);
    ScanStepThen(cfg, p1, FetchScan(x, page), [Scan(ObserveScan(x, at))] + rest, t, x);
    ScanStepThen(cfg, p, AskScan(x), [Scan(FetchScan(x, page))] + ([Scan(ObserveScan(x, at))] + rest), t, x);
  }

  /** The state after asking for, fetching and observing one page. */
  function AfterPage(cfg: Config, p: Protocol, x: Uuid, page: Page, at: Instant): Protocol
    requires x in p.scanners && p.scanners[x].phase == Scanning && ValidPage(page)
    requires p.scanners[x].pages < cfg.pageCap && p.scanners[x].requests < cfg.requestCap
  {
    ApplyScan(cfg, ApplyScan(cfg, ApplyScan(cfg, p, AskScan(x)), FetchScan(x, page)), ObserveScan(x, at))
  }

  lemma PageShape(cfg: Config, p: Protocol, x: Uuid, account: Uuid, run: Uuid, watermark: Option<PostId>, page: Page, at: Instant,
                  newest: Option<PostId>, requests: nat)
    requires AtTop(p, x, account, run, watermark, newest, requests) && ValidPage(page)
    requires requests < cfg.pageCap && requests < cfg.requestCap
    ensures var q := AfterPage(cfg, p, x, page, at);
            && q.sync == ObservePage(p.sync, account, run, page, at) && x in q.scanners
            && q.scanners[x].account == account && q.scanners[x].run == run && q.scanners[x].newest == Newer(newest, page)
            && (if Reaches(p.sync, account, watermark, page) then q.scanners[x].phase == Closing
                else if page.next.None? then q.scanners[x].phase == Unreached
                else AtTop(q, x, account, run, watermark, Newer(newest, page), requests + 1))
  {
  }

  /** An undisturbed scan loop is a run of the protocol. */
  lemma {:induction false} ScanLoopIsRun(cfg: Config, p: Protocol, x: Uuid, account: Uuid, run: Uuid, watermark: Option<PostId>,
                                         turnAt: nat -> ScanTurn, newest: Option<PostId>, requests: nat) returns (steps: seq<Step>)
    requires ValidSetup(cfg) && ValidTurns(turnAt) && AtTop(p, x, account, run, watermark, newest, requests)
    ensures ScansAs(cfg, p, steps, ScanLoop(p.sync, account, run, cfg.pageCap, cfg.requestCap, watermark, turnAt, newest, requests).0, x)
    decreases cfg.pageCap - requests
  {
    var turn := turnAt(requests);
    if requests >= cfg.pageCap || requests >= cfg.requestCap || turn.ScanBudgetExhausted? || turn.ScanBudgetFailed? {
      steps := EarlyEndRuns(cfg, p, x, account, run, watermark, turn, newest, requests);
    } else if !turn.ScanDelivered? {
      steps := FailedRequestRuns(cfg, p, x, account, run, watermark, turn, newest, requests);
    } else {
      var q := AfterPage(cfg, p, x, turn.page, turn.at);
      PageShape(cfg, p, x, account, run, watermark, turn.page, turn.at, newest, requests);
      var rest: seq<Step>;
      if Reaches(p.sync, account, watermark, turn.page) {
        LastScanStep(cfg, q, FinishScan(x), x);
        rest := [Scan(FinishScan(x))];
      } else if turn.page.next.None? {
        LastScanStep(cfg, q, BreakScan(x), x);
        rest := [Scan(BreakScan(x))];
      } else {
        rest := ScanLoopIsRun(cfg, q, x, account, run, watermark, turnAt, Newer(newest, turn.page), requests + 1);
      }
      ObservedRuns(cfg, p, x, account, run, watermark, turn.page, turn.at, newest, requests, rest,
                   ScanLoop(p.sync, account, run, cfg.pageCap, cfg.requestCap, watermark, turnAt, newest, requests).0);
      steps := [Scan(AskScan(x))] + ([Scan(FetchScan(x, turn.page))] + ([Scan(ObserveScan(x, turn.at))] + rest));
    }
  }

  /** An undisturbed scan is a run of the protocol: refused at its check, or opened and run to its end. */
  lemma ScanCallIsRun(cfg: Config, p: Protocol, x: Uuid, account: Uuid, run: Uuid, turnAt: nat -> ScanTurn) returns (steps: seq<Step>)
    requires ValidSetup(cfg) && ValidTurns(turnAt) && x !in p.scanners && run !in p.sync.runs
    ensures ScansAs(cfg, p, steps, ScanCall(p.sync, account, run, cfg.pageCap, cfg.requestCap, turnAt).0, x)
  {
    var check := CheckScan(x, account);
    if IncrementalOf(p.sync, account).requiresFull {
      LastScanStep(cfg, p, check, x);
      steps := [Scan(check)];
    } else {
      var p1 := ApplyScan(cfg, p, check);
      var p2 := ApplyScan(cfg, p1, OpenScan(x, run));
      var rest := ScanLoopIsRun(cfg, p2, x, account, run, IncrementalOf(p.sync, account).watermark, turnAt, None, 0);
      var t := ScanCall(p.sync, account, run, cfg.pageCap, cfg.requestCap, turnAt).0;
      ScanStepThen(cfg, p1, OpenScan(x, run), rest, t, x);
      ScanStepThen(cfg, p, check, [Scan(OpenScan(x, run))] + rest, t, x);
      steps := [Scan(check)] + ([Scan(OpenScan(x, run))] + rest);
    }
  }
}
