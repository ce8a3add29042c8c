/**
 Folder snapshots with their runners: any number of them, for the same or different runs, may page, fail, be limited,
 resume and be lost. A checkpoint still stands for an unbroken chain of staged pages, and a completed snapshot for a
 whole one.
 */
module FolderRunners {
  import opened Common
  import opened ArchiveTables
  import Snapshots
  import opened PageChains
  import opened Folders

  datatype Phase = Resuming | Paging | Finishing

  datatype Runner = Runner(handle: FolderRun, phase: Phase)

  /** `pages` lists what was fetched for each snapshot. */
  datatype State = State(world: World, runners: map<Uuid, Runner>, pages: map<Uuid, seq<Fetched>>)

  datatype Move = OpenRunner(runner: Uuid, account: Uuid, folder: Uuid, run: Uuid, snapshot: Uuid)
                | ReadRunner(runner: Uuid, account: Uuid, folder: Uuid, run: Uuid, snapshot: Uuid)
                | MarkRunning(runner: Uuid)
                | StagePage(runner: Uuid, page: Snapshots.Page, at: Instant)
                | FailRunner(runner: Uuid)
                | LimitRunner(runner: Uuid, capability: Capability)
                | FinishRunner(runner: Uuid, at: Instant)
                | LoseRunner(runner: Uuid)

  function PagesOf(s: State, snapshot: Uuid): seq<Fetched> { if snapshot in s.pages then s.pages[snapshot] else [] }

  ghost predicate CanMove(s: State, move: Move)
  {
    match move
    case OpenRunner(runner, _, _, run, snapshot) =>
      && runner !in s.runners && run !in s.world.tables.runs && snapshot !in s.world.tables.snapshots
      && snapshot !in s.world.tables.staged && snapshot !in s.pages
    case ReadRunner(runner, account, folder, run, snapshot) =>
      runner !in s.runners && Resumable(s.world.tables, account, folder, run, snapshot)
    case MarkRunning(runner) => runner in s.runners && s.runners[runner].phase == Resuming
    case StagePage(runner, page, _) => runner in s.runners && s.runners[runner].phase == Paging && Snapshots.ValidPage(page)
    case FailRunner(runner) => runner in s.runners && s.runners[runner].phase == Paging
    case LimitRunner(runner, _) =>
      runner in s.runners && s.runners[runner].phase == Paging && s.runners[runner].handle.run in s.world.tables.runs
    case FinishRunner(runner, _) => runner in s.runners && s.runners[runner].phase == Finishing
    case LoseRunner(runner) => runner in s.runners
  }

  /** What a move does to the folder tables, if anything. */
  function StepOf(s: State, move: Move): Option<Step>
  {
    match move
    case OpenRunner(_, account, folder, run, snapshot) => Some(Open(account, folder, run, snapshot))
    case MarkRunning(runner) => if runner in s.runners then Some(Resume(s.runners[runner].handle.run)) else None
    case StagePage(runner, page, at) => if runner in s.runners then Some(Stage(s.runners[runner].handle, page, at)) else None
    case FailRunner(runner) => if runner in s.runners then Some(Fail(s.runners[runner].handle.run)) else None
    case LimitRunner(runner, capability) => if runner in s.runners then Some(Limit(s.runners[runner].handle.run, capability)) else None
    case FinishRunner(runner, at) => if runner in s.runners then Some(Finish(s.runners[runner].handle, at)) else None
    case _ => None
  }

  ghost function WorldAfter(s: State, move: Move): World
    requires CanMove(s, move)
  {
    if StepOf(s, move).Some? then Apply(s.world, StepOf(s, move).value) else s.world
  }

  function RunnersAfter(s: State, move: Move): map<Uuid, Runner>
  {
    match move
    case OpenRunner(runner, _, folder, run, snapshot) => s.runners[runner := Runner(FolderRun(run, snapshot, folder, None), Paging)]
    case ReadRunner(runner, _, folder, run, snapshot) =>
      if run in s.world.tables.runs
      then s.runners[runner := Runner(FolderRun(run, snapshot, folder, s.world.tables.runs[run].checkpoint), Resuming)] else s.runners
    case MarkRunning(runner) => if runner in s.runners then s.runners[runner := s.runners[runner].(phase := Paging)] else s.runners
    case StagePage(runner, page, _) =>
      if runner in s.runners
      then s.runners[runner := Runner(s.runners[runner].handle.(checkpoint := page.next), if page.next.None? then Finishing else Paging)]
      else s.runners
    case _ => s.runners - {move.runner}
  }

  function PagesAfter(s: State, move: Move): map<Uuid, seq<Fetched>>
  {
    if move.StagePage? && move.runner in s.runners then
      var handle := s.runners[move.runner].handle;
      s.pages[handle.snapshot := PagesOf(s, handle.snapshot) + [Fetched(handle.checkpoint, move.page)]]
    else s.pages
  }

  ghost function Moved(s: State, move: Move): State
    requires CanMove(s, move)
  {
    State(WorldAfter(s, move), RunnersAfter(s, move), PagesAfter(s, move))
  }

  ghost predicate LegalMoves(s: State, moves: seq<Move>)
    decreases |moves|
  {
    moves == [] || (CanMove(s, moves[0]) && LegalMoves(Moved(s, moves[0]), moves[1..]))
  }

  ghost function AfterMoves(s: State, moves: seq<Move>): State
    requires LegalMoves(s, moves)
    decreases |moves|
  {
    if moves == [] then s else AfterMoves(Moved(s, moves[0]), moves[1..])
  }

  const START: State := State(EMPTY, map[], map[])

  // ---------------------------------------------------------------- invariants

  /** Each snapshot has its own run, and handles name a snapshot with its run. */
  ghost predicate RowsInv(s: State)
  {
    var t := s.world.tables;
    && (forall a | a in t.snapshots :: t.snapshots[a].run in t.runs)
    && (forall a, b | a in t.snapshots && b in t.snapshots && a != b :: t.snapshots[a].run != t.snapshots[b].run)
    && (forall r | r in s.runners :: HandleFits(t, s.runners[r].handle))
  }

  predicate HandleFits(t: FolderTables, h: FolderRun)
  {
    h.snapshot in t.snapshots && t.snapshots[h.snapshot].run == h.run && h.run in t.runs
  }

  ghost predicate RunnerChained(log: seq<Fetched>, runner: Runner)
  {
    && (runner.handle.checkpoint.Some? ==> Chained(log, runner.handle.checkpoint))
    && (runner.phase == Finishing ==> Chained(log, None))
  }

  ghost predicate SnapshotChained(t: FolderTables, log: seq<Fetched>, a: Uuid)
    requires a in t.snapshots && t.snapshots[a].run in t.runs
  {
    && (t.runs[t.snapshots[a].run].checkpoint.Some? ==> Chained(log, t.runs[t.snapshots[a].run].checkpoint))
    && (t.snapshots[a].complete ==> Chained(log, None))
    && StagedIn(t, a).Keys == UnionOf(log)
  }

  ghost predicate ChainsInv(s: State)
  {
    && RowsInv(s)
    && (forall r | r in s.runners :: RunnerChained(PagesOf(s, s.runners[r].handle.snapshot), s.runners[r]))
    && (forall a | a in s.world.tables.snapshots :: SnapshotChained(s.world.tables, PagesOf(s, a), a))
  }

  // ---------------------------------------------------------------- moves that fetch nothing

  /** Rows stay, run checkpoints stay or are cleared, and staged items stay. */
  ghost predicate RowsKept(t: FolderTables, u: FolderTables)
  {
    && (forall r | r in t.runs :: r in u.runs && (u.runs[r].checkpoint == t.runs[r].checkpoint || u.runs[r].checkpoint.None?))
    && u.snapshots.Keys == t.snapshots.Keys && u.staged == t.staged
    && (forall a | a in t.snapshots :: u.snapshots[a].run == t.snapshots[a].run)
  }

  ghost predicate HandlesKept(s: State, q: State)
  {
    forall r | r in q.runners :: r in s.runners && q.runners[r].handle == s.runners[r].handle
      && (q.runners[r].phase == Finishing ==> s.runners[r].phase == Finishing)
  }

  lemma QuietKeepsRows(s: State, q: State)
    requires RowsInv(s) && RowsKept(s.world.tables, q.world.tables) && HandlesKept(s, q)
    ensures RowsInv(q)
  {
  }

  lemma QuietKeepsSnapshot(t: FolderTables, u: FolderTables, log: seq<Fetched>, a: Uuid)
    requires RowsKept(t, u) && a in t.snapshots && t.snapshots[a].run in t.runs && SnapshotChained(t, log, a)
    requires u.snapshots[a].complete ==> t.snapshots[a].complete || Chained(log, None)
    ensures SnapshotChained(u, log, a)
  {
    var run := t.snapshots[a].run;
    assert u.runs[run].checkpoint == t.runs[run].checkpoint || u.runs[run].checkpoint.None?;
  }

  lemma QuietKeepsChains(s: State, q: State)
    requires ChainsInv(s) && RowsKept(s.world.tables, q.world.tables) && HandlesKept(s, q) && q.pages == s.pages
    requires forall a | a in q.world.tables.snapshots && q.world.tables.snapshots[a].complete ::
               s.world.tables.snapshots[a].complete || Chained(PagesOf(s, a), None)
    ensures ChainsInv(q)
  {
    QuietKeepsRows(s, q);
    forall r | r in q.runners ensures RunnerChained(PagesOf(q, q.runners[r].handle.snapshot), q.runners[r]) {
      assert RunnerChained(PagesOf(s, s.runners[r].handle.snapshot), s.runners[r]);
    }
    forall a | a in q.world.tables.snapshots ensures SnapshotChained(q.world.tables, PagesOf(q, a), a) {
      QuietKeepsSnapshot(s.world.tables, q.world.tables, PagesOf(s, a), a);
    }
  }

  /** Only the handle's own snapshot may newly be complete. */
  ghost predicate CompletesOnly(t: FolderTables, u: FolderTables, snapshot: Uuid)
  {
    forall a | a in u.snapshots && u.snapshots[a].complete :: a in t.snapshots && (t.snapshots[a].complete || a == snapshot)
  }

  lemma ClosedRows(t: FolderTables, handle: FolderRun, statistics: Statistics)
    requires FolderFinalizable(t, handle)
    ensures RowsKept(t, CloseRows(t, handle, statistics)) && CompletesOnly(t, CloseRows(t, handle, statistics), handle.snapshot)
  {
  }

  lemma FinishedRows(t: FolderTables, handle: FolderRun, at: Instant)
    requires FolderFinalizable(t, handle)
    ensures RowsKept(t, CompleteFolder(t, handle, at)) && CompletesOnly(t, CompleteFolder(t, handle, at), handle.snapshot)
  {
    ClosedRows(t, handle, MembershipStatistics(ActiveMembers(t.members, handle.folder), StagedIn(t, handle.snapshot).Keys));
  }

  function FinishedTables(t: FolderTables, handle: FolderRun, at: Instant): FolderTables
  {
    if FolderFinalizable(t, handle) then CompleteFolder(t, handle, at) else t
  }

  lemma FinishedTablesKept(t: FolderTables, handle: FolderRun, at: Instant)
    ensures RowsKept(t, FinishedTables(t, handle, at)) && CompletesOnly(t, FinishedTables(t, handle, at), handle.snapshot)
  {
    if FolderFinalizable(t, handle) {
      FinishedRows(t, handle, at);
    }
  }

  lemma FinishShape(s: State, runner: Uuid, at: Instant)
    requires CanMove(s, FinishRunner(runner, at))
    ensures var q := Moved(s, FinishRunner(runner, at));
            && q.pages == s.pages && q.runners == s.runners - {runner}
            && q.world.tables == FinishedTables(s.world.tables, s.runners[runner].handle, at)
  {
  }

  lemma FinishedKeepsChains(s: State, q: State, runner: Uuid)
    requires ChainsInv(s) && runner in s.runners && s.runners[runner].phase == Finishing
    requires q.pages == s.pages && q.runners == s.runners - {runner} && RowsKept(s.world.tables, q.world.tables)
    requires CompletesOnly(s.world.tables, q.world.tables, s.runners[runner].handle.snapshot)
    ensures ChainsInv(q)
  {
    assert RunnerChained(PagesOf(s, s.runners[runner].handle.snapshot), s.runners[runner]);
    QuietKeepsChains(s, q);
  }

  lemma FinishKeepsChains(s: State, runner: Uuid, at: Instant)
    requires ChainsInv(s) && CanMove(s, FinishRunner(runner, at))
    ensures ChainsInv(Moved(s, FinishRunner(runner, at)))
  {
    FinishShape(s, runner, at);
    FinishedTablesKept(s.world.tables, s.runners[runner].handle, at);
    FinishedKeepsChains(s, Moved(s, FinishRunner(runner, at)), runner);
  }

  lemma QuietShape(s: State, move: Move)
    requires CanMove(s, move) && (move.MarkRunning? || move.FailRunner? || move.LimitRunner? || move.LoseRunner?)
    ensures var q := Moved(s, move);
            && q.pages == s.pages && HandlesKept(s, q) && RowsKept(s.world.tables, q.world.tables)
            && q.world.tables.snapshots == s.world.tables.snapshots
  {
  }

  lemma QuietMoveKeepsChains(s: State, move: Move)
    requires ChainsInv(s) && CanMove(s, move) && (move.MarkRunning? || move.FailRunner? || move.LimitRunner? || move.LoseRunner?)
    ensures ChainsInv(Moved(s, move))
  {
    QuietShape(s, move);
    QuietKeepsChains(s, Moved(s, move));
  }

  // ---------------------------------------------------------------- opening, resuming and staging

  lemma OpenKeepsRows(s: State, move: Move)
    requires RowsInv(s) && CanMove(s, move) && move.OpenRunner?
    ensures RowsInv(Moved(s, move))
  {
  }

  lemma OpenedSnapshot(t: FolderTables, move: Move, log: seq<Fetched>, a: Uuid)
    requires move.OpenRunner? && move.run !in t.runs && a in t.snapshots && a != move.snapshot && t.snapshots[a].run in t.runs
    requires SnapshotChained(t, log, a)
    ensures SnapshotChained(OpenRun(t, move.account, move.folder, move.run, move.snapshot), log, a)
  {
  }

  lemma OpenKeepsChains(s: State, move: Move)
    requires ChainsInv(s) && CanMove(s, move) && move.OpenRunner?
    ensures ChainsInv(Moved(s, move))
  {
    var q := Moved(s, move);
    OpenKeepsRows(s, move);
    forall r | r in q.runners ensures RunnerChained(PagesOf(q, q.runners[r].handle.snapshot), q.runners[r]) {
      if r != move.runner {
        assert RunnerChained(PagesOf(s, s.runners[r].handle.snapshot), s.runners[r]);
      }
    }
    forall a | a in q.world.tables.snapshots ensures SnapshotChained(q.world.tables, PagesOf(q, a), a) {
      if a != move.snapshot {
        OpenedSnapshot(s.world.tables, move, PagesOf(s, a), a);
      }
    }
  }

  lemma ReadKeepsChains(s: State, move: Move)
    requires ChainsInv(s) && CanMove(s, move) && move.ReadRunner?
    ensures ChainsInv(Moved(s, move))
  {
    var q := Moved(s, move);
    assert SnapshotChained(s.world.tables, PagesOf(s, move.snapshot), move.snapshot);
    forall r | r in q.runners ensures RunnerChained(PagesOf(q, q.runners[r].handle.snapshot), q.runners[r]) {
      if r != move.runner {
        assert RunnerChained(PagesOf(s, s.runners[r].handle.snapshot), s.runners[r]);
      }
    }
    forall a | a in q.world.tables.snapshots ensures SnapshotChained(q.world.tables, PagesOf(q, a), a) {
      assert SnapshotChained(s.world.tables, PagesOf(s, a), a);
    }
  }

  lemma StageKeepsRunner(s: State, move: Move, r: Uuid)
    requires ChainsInv(s) && CanMove(s, move) && move.StagePage? && r in Moved(s, move).runners
    ensures var q := Moved(s, move); RunnerChained(PagesOf(q, q.runners[r].handle.snapshot), q.runners[r])
  {
    var h := s.runners[move.runner].handle;
    var log, f := PagesOf(s, h.snapshot), Fetched(h.checkpoint, move.page);
    assert RunnerChained(log, s.runners[move.runner]);
    ChainExtends(log, h.checkpoint, move.page);
    if r != move.runner {
      var other := s.runners[r];
      assert RunnerChained(PagesOf(s, other.handle.snapshot), other);
      if other.handle.snapshot == h.snapshot {
        if other.handle.checkpoint.Some? { ChainGrows(log, f, other.handle.checkpoint); }
        if other.phase == Finishing { ChainGrows(log, f, None); }
      }
    }
  }

  /** Staging into the snapshot itself. */
  lemma StagedSnapshot(t: FolderTables, h: FolderRun, page: Snapshots.Page, at: Instant, log: seq<Fetched>)
    requires HandleFits(t, h) && SnapshotChained(t, log, h.snapshot) && (h.checkpoint.Some? ==> Chained(log, h.checkpoint))
    ensures SnapshotChained(StageMembers(t, h, page, at), log + [Fetched(h.checkpoint, page)], h.snapshot)
  {
    ChainExtends(log, h.checkpoint, page);
    if t.snapshots[h.snapshot].complete {
      ChainGrows(log, Fetched(h.checkpoint, page), None);
    }
    UnionGrows(log, Fetched(h.checkpoint, page));
    assert Snapshots.StageItems(StagedIn(t, h.snapshot), page, at).Keys == StagedIn(t, h.snapshot).Keys + Snapshots.PostsOf(page);
  }

  /** Staging into another snapshot. */
  lemma StagedElsewhere(t: FolderTables, h: FolderRun, page: Snapshots.Page, at: Instant, log: seq<Fetched>, a: Uuid)
    requires HandleFits(t, h) && a in t.snapshots && t.snapshots[a].run in t.runs && a != h.snapshot && t.snapshots[a].run != h.run
    requires SnapshotChained(t, log, a)
    ensures SnapshotChained(StageMembers(t, h, page, at), log, a)
  {
  }

  /** What the invariant says about one runner and one snapshot. */
  lemma ChainFacts(s: State, runner: Uuid, a: Uuid)
    requires ChainsInv(s) && runner in s.runners && a in s.world.tables.snapshots
    ensures var t, h := s.world.tables, s.runners[runner].handle;
            && HandleFits(t, h) && t.snapshots[a].run in t.runs && SnapshotChained(t, PagesOf(s, a), a)
            && (h.checkpoint.Some? ==> Chained(PagesOf(s, h.snapshot), h.checkpoint))
            && (a != h.snapshot ==> t.snapshots[a].run != h.run)
  {
    assert RunnerChained(PagesOf(s, s.runners[runner].handle.snapshot), s.runners[runner]);
  }

  lemma StageKeepsSnapshot(s: State, h: FolderRun, page: Snapshots.Page, at: Instant, a: Uuid)
    requires var t := s.world.tables;
             && HandleFits(t, h) && a in t.snapshots && t.snapshots[a].run in t.runs && SnapshotChained(t, PagesOf(s, a), a)
             && (h.checkpoint.Some? ==> Chained(PagesOf(s, h.snapshot), h.checkpoint))
             && (a != h.snapshot ==> t.snapshots[a].run != h.run)
    ensures var t := StageMembers(s.world.tables, h, page, at);
            && a in t.snapshots && t.snapshots[a].run in t.runs
            && SnapshotChained(t, PagesOf(s, a) + (if a == h.snapshot then [Fetched(h.checkpoint, page)] else []), a)
  {
    if a == h.snapshot {
      StagedSnapshot(s.world.tables, h, page, at, PagesOf(s, a));
    } else {
      StagedElsewhere(s.world.tables, h, page, at, PagesOf(s, a), a);
      assert PagesOf(s, a) + [] == PagesOf(s, a);
    }
  }

  lemma StageShape(s: State, move: Move, a: Uuid)
    requires CanMove(s, move) && move.StagePage?
    ensures var h := s.runners[move.runner].handle;
            var q := Moved(s, move);
            && q.world.tables == StageMembers(s.world.tables, h, move.page, move.at)
            && PagesOf(q, a) == PagesOf(s, a) + (if a == h.snapshot then [Fetched(h.checkpoint, move.page)] else [])
  {
    assert PagesOf(s, a) + [] == PagesOf(s, a);
  }

  lemma StageKeepsRows(s: State, move: Move)
    requires RowsInv(s) && CanMove(s, move) && move.StagePage?
    ensures RowsInv(Moved(s, move))
  {
  }

  lemma StageKeepsChains(s: State, move: Move)
    requires ChainsInv(s) && CanMove(s, move) && move.StagePage?
    ensures ChainsInv(Moved(s, move))
  {
    var q := Moved(s, move);
    StageKeepsRows(s, move);
    forall r | r in q.runners ensures RunnerChained(PagesOf(q, q.runners[r].handle.snapshot), q.runners[r]) {
      StageKeepsRunner(s, move, r);
    }
    forall a | a in q.world.tables.snapshots ensures SnapshotChained(q.world.tables, PagesOf(q, a), a) {
      StageShape(s, move, a);
      ChainFacts(s, move.runner, a);
      StageKeepsSnapshot(s, s.runners[move.runner].handle, move.page, move.at, a);
    }
  }

  lemma MoveKeepsChains(s: State, move: Move)
    requires ChainsInv(s) && CanMove(s, move)
    ensures ChainsInv(Moved(s, move))
  {
    match move
    case OpenRunner(_, _, _, _, _) => OpenKeepsChains(s, move);
    case ReadRunner(_, _, _, _, _) => ReadKeepsChains(s, move);
    case StagePage(_, _, _) => StageKeepsChains(s, move);
    case FinishRunner(runner, at) => FinishKeepsChains(s, runner, at);
    case _ => QuietMoveKeepsChains(s, move);
  }

  // ---------------------------------------------------------------- main result

  lemma {:induction false} MovesKeepInv(s: State, moves: seq<Move>)
    requires ChainsInv(s) && Inv(s.world) && LegalMoves(s, moves)
    ensures ChainsInv(AfterMoves(s, moves)) && Inv(AfterMoves(s, moves).world)
    decreases |moves|
  {
    if moves != [] {
      MoveKeepsChains(s, moves[0]);
      if StepOf(s, moves[0]).Some? {
        StepKeepsInv(s.world, StepOf(s, moves[0]).value);
      }
      MovesKeepInv(Moved(s, moves[0]), moves[1..]);
    }
  }

  /**
   In every reachable state of every number of folder runners: a stored checkpoint stands for an unbroken token chain
   of staged pages from the first page up to it, a completed snapshot's staged posts are the union of its fetched
   pages and contain a whole chain, and a folder's members are what its completed authority had staged.
   */
  lemma FolderSnapshotsAreWhole(moves: seq<Move>, a: Uuid, folder: Uuid)
    requires LegalMoves(START, moves)
    ensures var s := AfterMoves(START, moves);
            var t := s.world.tables;
            && AuthorityHolds(s.world, folder)
            && (folder in t.authority ==> t.authority[folder] in t.snapshots && t.snapshots[t.authority[folder]].complete)
            && (a in t.snapshots ==> t.snapshots[a].run in t.runs && SnapshotChained(t, PagesOf(s, a), a))
  {
    assert Inv(EMPTY) && ChainsInv(START);
    MovesKeepInv(START, moves);
    AuthorityIsComplete(AfterMoves(START, moves).world, folder);
  }

  lemma AuthorityIsComplete(w: World, folder: Uuid)
    requires Inv(w)
    ensures AuthorityHolds(w, folder)
    ensures folder in w.tables.authority ==>
              w.tables.authority[folder] in w.tables.snapshots && w.tables.snapshots[w.tables.authority[folder]].complete
  {
    assert AuthorityHolds(w, folder);
    if folder in w.tables.authority {
      var entry := (w.tables.authority[folder], ActiveMembers(w.tables.members, folder));
      var i :| 0 <= i < |w.completions| && w.completions[i] == entry;
    }
  }
}
