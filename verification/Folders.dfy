/**
 Native folder membership snapshots: paged staging, and one completion that makes the folder's members
 exactly the staged posts and records one observation per changed member.
 */
module Folders {
  import opened Common
  import opened ArchiveTables
  import Snapshots

  datatype MemberKey = MemberKey(folder: Uuid, post: PostId)

  /** A row of `bookmark_folder_items`. */
  datatype Member = Member(firstAt: Instant, removedAt: Option<Instant>, removedSnapshot: Option<Uuid>)

  type Members = map<MemberKey, Member>

  datatype Change = Added | Removed

  datatype ObservationKey = ObservationKey(snapshot: Uuid, folder: Uuid, post: PostId, change: Change)

  type Observations = map<ObservationKey, Instant>

  datatype Capability = Listing | Membership

  datatype FolderSnapshot = FolderSnapshot(run: Uuid, folder: Uuid, complete: bool)

  datatype FolderRunRow = FolderRunRow(account: Uuid, state: RunState, checkpoint: Option<string>, statistics: Statistics)

  datatype FolderTables = FolderTables(
    members: Members, runs: map<Uuid, FolderRunRow>, snapshots: map<Uuid, FolderSnapshot>, staged: map<Uuid, StagedItems>,
    observations: Observations, authority: map<Uuid, Uuid>, limits: map<(Uuid, Capability), Uuid>)

  datatype FolderRun = FolderRun(run: Uuid, snapshot: Uuid, folder: Uuid, checkpoint: Option<string>)

  function ActiveMembers(members: Members, folder: Uuid): set<PostId>
  {
    set k | k in members && k.folder == folder && members[k].removedAt.None? :: k.post
  }

  function StagedIn(t: FolderTables, snapshot: Uuid): StagedItems { if snapshot in t.staged then t.staged[snapshot] else map[] }

  function MemberKeys(folder: Uuid, posts: set<PostId>): set<MemberKey> { set p | p in posts :: MemberKey(folder, p) }

  function ObservationKeys(snapshot: Uuid, folder: Uuid, posts: set<PostId>, change: Change): set<ObservationKey>
  {
    set p | p in posts :: ObservationKey(snapshot, folder, p, change)
  }

  // ---------------------------------------------------------------- transactions before completion

  function OpenRun(t: FolderTables, account: Uuid, folder: Uuid, run: Uuid, snapshot: Uuid): FolderTables
  {
    t.(runs := t.runs[run := FolderRunRow(account, Running, None, NewStatistics())],
       snapshots := t.snapshots[snapshot := FolderSnapshot(run, folder, false)])
  }

  predicate Resumable(t: FolderTables, account: Uuid, folder: Uuid, run: Uuid, snapshot: Uuid)
  {
    && run in t.runs && snapshot in t.snapshots && t.snapshots[snapshot].run == run && t.snapshots[snapshot].folder == folder
    && t.runs[run].account == account && t.runs[run].state != Completed
  }

  function SetState(t: FolderTables, run: Uuid, state: RunState): FolderTables
  {
    if run in t.runs then t.(runs := t.runs[run := t.runs[run].(state := state)]) else t
  }

  /** Unlike the bookmark snapshot, the checkpoint moves whatever the run's state. */
  function StageMembers(t: FolderTables, handle: FolderRun, page: Snapshots.Page, at: Instant): FolderTables
  {
    t.(staged := t.staged[handle.snapshot := Snapshots.StageItems(StagedIn(t, handle.snapshot), page, at)],
       runs := if handle.run in t.runs then t.runs[handle.run := t.runs[handle.run].(checkpoint := page.next)] else t.runs)
  }

  /** A capability limit ends the run and notes the limit; members, observations and authority stay. */
  function LimitRun(t: FolderTables, run: Uuid, capability: Capability): FolderTables
    requires run in t.runs
  {
    SetState(t, run, RunFailed).(limits := t.limits[(t.runs[run].account, capability) := run])
  }

  // ---------------------------------------------------------------- completion

  predicate FolderFinalizable(t: FolderTables, handle: FolderRun)
  {
    && handle.snapshot in t.snapshots && t.snapshots[handle.snapshot] == FolderSnapshot(handle.run, handle.folder, false)
    && handle.run in t.runs && t.runs[handle.run].state == Running
  }

  /** A member that comes back keeps the time it was first observed. */
  function UpsertMembers(members: Members, folder: Uuid, items: StagedItems): Members
  {
    members + map k | k in MemberKeys(folder, items.Keys) ::
      if k in members then members[k].(removedAt := None, removedSnapshot := None) else Member(items[k.post], None, None)
  }

  function RemoveMembers(members: Members, folder: Uuid, gone: set<PostId>, snapshot: Uuid, at: Instant): Members
  {
    map k | k in members ::
      if k.folder == folder && k.post in gone then members[k].(removedAt := Some(at), removedSnapshot := Some(snapshot)) else members[k]
  }

  /** `insert … on conflict do nothing`. */
  function Observe(observations: Observations, keys: set<ObservationKey>, at: Instant): Observations
  {
    (map k | k in keys :: at) + observations
  }

  function ReconciledMembers(members: Members, folder: Uuid, items: StagedItems, snapshot: Uuid, at: Instant): Members
  {
    RemoveMembers(UpsertMembers(members, folder, items), folder, ActiveMembers(members, folder) - items.Keys, snapshot, at)
  }

  function MembershipStatistics(active: set<PostId>, staged: set<PostId>): Statistics
  {
    Statistics(|staged - active|, |staged * active|, |active - staged|)
  }

  function ReconciledObservations(
    observations: Observations, active: set<PostId>, staged: set<PostId>, folder: Uuid, snapshot: Uuid, at: Instant): Observations
  {
    Observe(Observe(observations, ObservationKeys(snapshot, folder, staged - active, Added), at),
            ObservationKeys(snapshot, folder, active - staged, Removed), at)
  }

  /** `record_completion` and `replace_authority`. */
  function CloseRows(t: FolderTables, handle: FolderRun, statistics: Statistics): FolderTables
    requires FolderFinalizable(t, handle)
  {
    t.(runs := t.runs[handle.run := t.runs[handle.run].(state := Completed, checkpoint := None, statistics := statistics)],
       snapshots := t.snapshots[handle.snapshot := t.snapshots[handle.snapshot].(complete := true)],
       authority := t.authority[handle.folder := handle.snapshot])
  }

  function CompleteFolder(t: FolderTables, handle: FolderRun, at: Instant): FolderTables
    requires FolderFinalizable(t, handle)
  {
    var items := StagedIn(t, handle.snapshot);
    var active := ActiveMembers(t.members, handle.folder);
    CloseRows(t, handle, MembershipStatistics(active, items.Keys)).(
      members := ReconciledMembers(t.members, handle.folder, items, handle.snapshot, at),
      observations := ReconciledObservations(t.observations, active, items.Keys, handle.folder, handle.snapshot, at))
  }

  // ---------------------------------------------------------------- what completion means

  lemma ReconcilingActivates(members: Members, folder: Uuid, items: StagedItems, snapshot: Uuid, at: Instant)
    ensures var after := ReconciledMembers(members, folder, items, snapshot, at);
            && ActiveMembers(after, folder) == items.Keys
            && forall k: MemberKey | k.folder != folder :: (k in after <==> k in members) && (k in members ==> after[k] == members[k])
  {
    var upserted := UpsertMembers(members, folder, items);
    var after := ReconciledMembers(members, folder, items, snapshot, at);
    forall p | p in items.Keys ensures p in ActiveMembers(after, folder) {
      var k := MemberKey(folder, p);
      assert k in MemberKeys(folder, items.Keys);
      assert k in upserted && upserted[k].removedAt.None?;
      assert after[k] == upserted[k];
    }
    forall p | p in ActiveMembers(after, folder) ensures p in items.Keys {
      var k :| k in after && k.folder == folder && after[k].removedAt.None? && k.post == p;
      assert k in upserted;
    }
  }

  lemma OtherFoldersKeep(before: Members, after: Members, folder: Uuid, other: Uuid)
    requires other != folder
    requires forall k: MemberKey | k.folder != folder :: (k in after <==> k in before) && (k in before ==> after[k] == before[k])
    ensures ActiveMembers(after, other) == ActiveMembers(before, other)
  {
    forall p ensures p in ActiveMembers(after, other) <==> p in ActiveMembers(before, other) {
      var k := MemberKey(other, p);
      if p in ActiveMembers(before, other) {
        var x :| x in before && x.folder == other && before[x].removedAt.None? && x.post == p;
        assert x == k && k in after && after[k] == before[k];
      }
      if p in ActiveMembers(after, other) {
        var x :| x in after && x.folder == other && after[x].removedAt.None? && x.post == p;
        assert x == k && k in before && after[k] == before[k];
      }
    }
  }

  /**
   Folder completion makes the members exactly the staged posts, for this folder only, and its counts balance:
   added + retained = |staged| and retained + removed = |members before|.
   */
  lemma FolderCompletionBalances(t: FolderTables, handle: FolderRun, at: Instant, other: Uuid)
    requires FolderFinalizable(t, handle)
    ensures var after := CompleteFolder(t, handle, at);
            var items := StagedIn(t, handle.snapshot);
            var st := after.runs[handle.run].statistics;
            && ActiveMembers(after.members, handle.folder) == items.Keys
            && (other != handle.folder ==> ActiveMembers(after.members, other) == ActiveMembers(t.members, other))
            && st.added + st.retained == |items.Keys|
            && st.retained + st.removed == |ActiveMembers(t.members, handle.folder)|
            && st.added == |items.Keys - ActiveMembers(t.members, handle.folder)|
            && st.retained == |items.Keys * ActiveMembers(t.members, handle.folder)|
            && st.removed == |ActiveMembers(t.members, handle.folder) - items.Keys|
  {
    var items := StagedIn(t, handle.snapshot);
    var active := ActiveMembers(t.members, handle.folder);
    ReconcilingActivates(t.members, handle.folder, items, handle.snapshot, at);
    if other != handle.folder {
      OtherFoldersKeep(t.members, CompleteFolder(t, handle, at).members, handle.folder, other);
    }
    CardinalitySplit(items.Keys, active);
    CardinalitySplit(active, items.Keys);
    assert active * items.Keys == items.Keys * active;
  }

  /** Posts observed with one kind of change by one snapshot. */
  function Observed(observations: Observations, snapshot: Uuid, folder: Uuid, change: Change): set<PostId>
  {
    set k | k in observations && k.snapshot == snapshot && k.folder == folder && k.change == change :: k.post
  }

  /** No observation of the snapshot is stored yet. */
  predicate Unobserved(observations: Observations, snapshot: Uuid) { forall k | k in observations :: k.snapshot != snapshot }

  lemma ObservationsAfter(
    before: Observations, active: set<PostId>, staged: set<PostId>, folder: Uuid, snapshot: Uuid, at: Instant, k: ObservationKey)
    ensures var after := ReconciledObservations(before, active, staged, folder, snapshot, at);
            && (k in before ==> k in after && after[k] == before[k])
            && (k in after <==> || k in before
                                || (&& k.snapshot == snapshot && k.folder == folder
                                    && k.post in (if k.change == Added then staged - active else active - staged)))
  {
  }

  /** With nothing observed before, completion observes each changed member exactly once, with the right kind, and no other. */
  lemma ReconcilingObserves(
    before: Observations, active: set<PostId>, staged: set<PostId>, folder: Uuid, snapshot: Uuid, at: Instant)
    requires Unobserved(before, snapshot)
    ensures var after := ReconciledObservations(before, active, staged, folder, snapshot, at);
            && Observed(after, snapshot, folder, Added) == staged - active
            && Observed(after, snapshot, folder, Removed) == active - staged
  {
    var after := ReconciledObservations(before, active, staged, folder, snapshot, at);
    forall p ensures p in Observed(after, snapshot, folder, Added) <==> p in staged - active {
      ObservationsAfter(before, active, staged, folder, snapshot, at, ObservationKey(snapshot, folder, p, Added));
      ObservedKey(after, snapshot, folder, Added, p);
    }
    forall p ensures p in Observed(after, snapshot, folder, Removed) <==> p in active - staged {
      ObservationsAfter(before, active, staged, folder, snapshot, at, ObservationKey(snapshot, folder, p, Removed));
      ObservedKey(after, snapshot, folder, Removed, p);
    }
  }

  lemma ObservedKey(observations: Observations, snapshot: Uuid, folder: Uuid, change: Change, p: PostId)
    ensures p in Observed(observations, snapshot, folder, change) <==> ObservationKey(snapshot, folder, p, change) in observations
  {
  }

  lemma CompletionObserves(t: FolderTables, handle: FolderRun, at: Instant)
    requires FolderFinalizable(t, handle) && Unobserved(t.observations, handle.snapshot)
    ensures var after := CompleteFolder(t, handle, at).observations;
            var active, staged := ActiveMembers(t.members, handle.folder), StagedIn(t, handle.snapshot).Keys;
            && Observed(after, handle.snapshot, handle.folder, Added) == staged - active
            && Observed(after, handle.snapshot, handle.folder, Removed) == active - staged
  {
    ReconcilingObserves(t.observations, ActiveMembers(t.members, handle.folder), StagedIn(t, handle.snapshot).Keys,
                        handle.folder, handle.snapshot, at);
  }

  /** Completion leaves every other observation as it was, and adds only its own. */
  lemma CompletionKeepsObservations(t: FolderTables, handle: FolderRun, at: Instant, k: ObservationKey)
    requires FolderFinalizable(t, handle)
    ensures var after := CompleteFolder(t, handle, at).observations;
            && (k in t.observations ==> k in after && after[k] == t.observations[k])
            && (k in after && k !in t.observations ==> k.snapshot == handle.snapshot && k.folder == handle.folder)
  {
    ObservationsAfter(t.observations, ActiveMembers(t.members, handle.folder), StagedIn(t, handle.snapshot).Keys,
                      handle.folder, handle.snapshot, at, k);
  }

  // ---------------------------------------------------------------- every run

  /** `completions` lists the completed snapshots in commit order, with the posts each had staged. */
  datatype World = World(tables: FolderTables, completions: seq<(Uuid, set<PostId>)>)

  datatype Step = Open(account: Uuid, folder: Uuid, run: Uuid, snapshot: Uuid)
                | Resume(run: Uuid)
                | Stage(handle: FolderRun, page: Snapshots.Page, at: Instant)
                | Fail(run: Uuid)
                | Limit(run: Uuid, capability: Capability)
                | Finish(handle: FolderRun, at: Instant)

  /** Runners are not tracked here: any handle may stage or try to finish at any time. FolderRunners tracks them. */
  ghost predicate Enabled(w: World, step: Step)
  {
    match step
    case Open(_, _, run, snapshot) => run !in w.tables.runs && snapshot !in w.tables.snapshots
    case Limit(run, _) => run in w.tables.runs
    case _ => true
  }

  ghost function Apply(w: World, step: Step): World
    requires Enabled(w, step)
  {
    match step
    case Open(account, folder, run, snapshot) => w.(tables := OpenRun(w.tables, account, folder, run, snapshot))
    case Resume(run) => w.(tables := SetState(w.tables, run, Running))
    case Stage(handle, page, at) => w.(tables := StageMembers(w.tables, handle, page, at))
    case Fail(run) => w.(tables := SetState(w.tables, run, RunFailed))
    case Limit(run, capability) => w.(tables := LimitRun(w.tables, run, capability))
    case Finish(handle, at) =>
      if FolderFinalizable(w.tables, handle) then
        World(CompleteFolder(w.tables, handle, at), w.completions + [(handle.snapshot, StagedIn(w.tables, handle.snapshot).Keys)])
      else w
  }

  ghost predicate Legal(w: World, steps: seq<Step>)
    decreases |steps|
  {
    steps == [] || (Enabled(w, steps[0]) && Legal(Apply(w, steps[0]), steps[1..]))
  }

  ghost function Exec(w: World, steps: seq<Step>): World
    requires Legal(w, steps)
    decreases |steps|
  {
    if steps == [] then w else Exec(Apply(w, steps[0]), steps[1..])
  }

  const EMPTY: World := World(FolderTables(map[], map[], map[], map[], map[], map[], map[]), [])

  /** The folder's members, replayed from the observations of the completed snapshots in order. */
  function Replay(observations: Observations, completions: seq<(Uuid, set<PostId>)>, folder: Uuid): set<PostId>
  {
    if completions == [] then {}
    else
      var last := completions[|completions| - 1].0;
      Replay(observations, completions[..|completions| - 1], folder)
      + Observed(observations, last, folder, Added) - Observed(observations, last, folder, Removed)
  }

  ghost predicate CompletionsInv(w: World)
  {
    && (forall i | 0 <= i < |w.completions| ::
          w.completions[i].0 in w.tables.snapshots && w.tables.snapshots[w.completions[i].0].complete)
    && (forall s | s in w.tables.snapshots && !w.tables.snapshots[s].complete :: Unobserved(w.tables.observations, s))
    && (forall k | k in w.tables.observations :: k.snapshot in w.tables.snapshots)
  }

  /** A folder without authority has no members; otherwise it has exactly what its authority staged when it completed. */
  ghost predicate AuthorityInv(w: World)
  {
    forall folder :: AuthorityHolds(w, folder)
  }

  ghost predicate AuthorityHolds(w: World, folder: Uuid)
  {
    var active := ActiveMembers(w.tables.members, folder);
    if folder !in w.tables.authority then active == {} else (w.tables.authority[folder], active) in w.completions
  }

  ghost predicate ReplayInv(w: World)
  {
    forall folder :: Replay(w.tables.observations, w.completions, folder) == ActiveMembers(w.tables.members, folder)
  }

  ghost predicate Inv(w: World) { CompletionsInv(w) && AuthorityInv(w) && ReplayInv(w) }

  /** What every step but a completion leaves alone. */
  lemma OnlyCompletionChangesMembers(w: World, step: Step)
    requires Enabled(w, step) && !(step.Finish? && FolderFinalizable(w.tables, step.handle))
    ensures var x := Apply(w, step);
            && x.tables.members == w.tables.members && x.tables.observations == w.tables.observations
            && x.tables.authority == w.tables.authority && x.completions == w.completions
  {
  }

  /** Observations of other snapshots do not touch a replay. */
  lemma {:induction false} ReplayUntouched(a: Observations, b: Observations, completions: seq<(Uuid, set<PostId>)>, snapshot: Uuid, folder: Uuid)
    requires forall k: ObservationKey | k.snapshot != snapshot :: k in a <==> k in b
    requires forall i | 0 <= i < |completions| :: completions[i].0 != snapshot
    ensures Replay(a, completions, folder) == Replay(b, completions, folder)
    decreases |completions|
  {
    if completions != [] {
      var last := completions[|completions| - 1].0;
      ReplayUntouched(a, b, completions[..|completions| - 1], snapshot, folder);
      SameObserved(a, b, last, folder, Added);
      SameObserved(a, b, last, folder, Removed);
    }
  }

  lemma SameObserved(a: Observations, b: Observations, snapshot: Uuid, folder: Uuid, change: Change)
    requires forall k: ObservationKey | k.snapshot == snapshot :: k in a <==> k in b
    ensures Observed(a, snapshot, folder, change) == Observed(b, snapshot, folder, change)
  {
    forall p ensures p in Observed(a, snapshot, folder, change) <==> p in Observed(b, snapshot, folder, change) {
      var key := ObservationKey(snapshot, folder, p, change);
      assert key in a <==> key in b;
      assert p in Observed(a, snapshot, folder, change) <==> key in a;
      assert p in Observed(b, snapshot, folder, change) <==> key in b;
    }
  }

  lemma ReplayExtends(before: Observations, after: Observations, completions: seq<(Uuid, set<PostId>)>, last: (Uuid, set<PostId>), folder: Uuid)
    requires forall k: ObservationKey | k.snapshot != last.0 :: k in after <==> k in before
    requires forall i | 0 <= i < |completions| :: completions[i].0 != last.0
    ensures Replay(after, completions + [last], folder)
            == Replay(before, completions, folder) + Observed(after, last.0, folder, Added) - Observed(after, last.0, folder, Removed)
  {
    assert (completions + [last])[..|completions|] == completions;
    ReplayUntouched(after, before, completions, last.0, folder);
  }

  lemma OpenIsNotCompleted(w: World, snapshot: Uuid, i: nat)
    requires CompletionsInv(w) && snapshot in w.tables.snapshots && !w.tables.snapshots[snapshot].complete && i < |w.completions|
    ensures w.completions[i].0 != snapshot
  {
  }

  lemma FinishReplays(w: World, handle: FolderRun, at: Instant, folder: Uuid)
    requires Inv(w) && FolderFinalizable(w.tables, handle)
    ensures var after := CompleteFolder(w.tables, handle, at).observations;
            Replay(after, w.completions + [(handle.snapshot, StagedIn(w.tables, handle.snapshot).Keys)], folder)
            == ActiveMembers(w.tables.members, folder) + Observed(after, handle.snapshot, folder, Added)
               - Observed(after, handle.snapshot, folder, Removed)
  {
    var after := CompleteFolder(w.tables, handle, at).observations;
    forall k: ObservationKey | k.snapshot != handle.snapshot ensures k in after <==> k in w.tables.observations {
      CompletionKeepsObservations(w.tables, handle, at, k);
    }
    forall i | 0 <= i < |w.completions| ensures w.completions[i].0 != handle.snapshot {
      OpenIsNotCompleted(w, handle.snapshot, i);
    }
    ReplayExtends(w.tables.observations, after, w.completions, (handle.snapshot, StagedIn(w.tables, handle.snapshot).Keys), folder);
  }

  lemma FinishKeepsReplay(w: World, handle: FolderRun, at: Instant, folder: Uuid)
    requires Inv(w) && FolderFinalizable(w.tables, handle)
    ensures var x := Apply(w, Finish(handle, at));
            Replay(x.tables.observations, x.completions, folder) == ActiveMembers(x.tables.members, folder)
  {
    var x := Apply(w, Finish(handle, at));
    FinishReplays(w, handle, at, folder);
    FolderCompletionBalances(w.tables, handle, at, folder);
    assert Unobserved(w.tables.observations, handle.snapshot);
    if folder == handle.folder {
      CompletionObserves(w.tables, handle, at);
      NetChange(ActiveMembers(w.tables.members, folder), StagedIn(w.tables, handle.snapshot).Keys);
    } else {
      forall k | k in x.tables.observations && k.snapshot == handle.snapshot ensures k.folder == handle.folder {
        CompletionKeepsObservations(w.tables, handle, at, k);
      }
      NotObserved(x.tables.observations, handle.snapshot, handle.folder, folder, Added);
      NotObserved(x.tables.observations, handle.snapshot, handle.folder, folder, Removed);
    }
  }

  lemma NetChange(active: set<PostId>, staged: set<PostId>)
    ensures active + (staged - active) - (active - staged) == staged
  {
  }

  lemma NotObserved(observations: Observations, snapshot: Uuid, folder: Uuid, other: Uuid, change: Change)
    requires other != folder && forall k | k in observations && k.snapshot == snapshot :: k.folder == folder
    ensures Observed(observations, snapshot, other, change) == {}
  {
  }

  lemma FinishKeepsCompletions(w: World, handle: FolderRun, at: Instant)
    requires CompletionsInv(w) && FolderFinalizable(w.tables, handle)
    ensures CompletionsInv(Apply(w, Finish(handle, at)))
  {
    var x := Apply(w, Finish(handle, at));
    forall k | k in x.tables.observations ensures k in w.tables.observations || k.snapshot == handle.snapshot {
      CompletionKeepsObservations(w.tables, handle, at, k);
    }
    CompletionsExtend(w, x, handle.snapshot);
  }

  lemma CompletionsExtend(w: World, x: World, snapshot: Uuid)
    requires CompletionsInv(w) && snapshot in w.tables.snapshots
    requires x.tables.snapshots == w.tables.snapshots[snapshot := w.tables.snapshots[snapshot].(complete := true)]
    requires |x.completions| == |w.completions| + 1 && x.completions[..|w.completions|] == w.completions
    requires x.completions[|w.completions|].0 == snapshot
    requires forall k | k in x.tables.observations :: k in w.tables.observations || k.snapshot == snapshot
    ensures CompletionsInv(x)
  {
    forall i | 0 <= i < |w.completions| ensures x.completions[i] == w.completions[i] {
      assert x.completions[..|w.completions|][i] == x.completions[i];
    }
  }

  lemma FinishKeepsAuthority(w: World, handle: FolderRun, at: Instant, folder: Uuid)
    requires AuthorityInv(w) && FolderFinalizable(w.tables, handle)
    ensures AuthorityHolds(Apply(w, Finish(handle, at)), folder)
  {
    assert AuthorityHolds(w, folder);
    FolderCompletionBalances(w.tables, handle, at, folder);
    var x := Apply(w, Finish(handle, at));
    if folder == handle.folder {
      assert x.completions[|w.completions|] == (handle.snapshot, ActiveMembers(x.tables.members, folder));
    }
  }

  lemma StepKeepsInv(w: World, step: Step)
    requires Inv(w) && Enabled(w, step)
    ensures Inv(Apply(w, step))
  {
    if step.Finish? && FolderFinalizable(w.tables, step.handle) {
      FinishKeepsCompletions(w, step.handle, step.at);
      forall folder ensures AuthorityHolds(Apply(w, step), folder) {
        FinishKeepsAuthority(w, step.handle, step.at, folder);
      }
      forall folder
        ensures Replay(Apply(w, step).tables.observations, Apply(w, step).completions, folder) == ActiveMembers(Apply(w, step).tables.members, folder)
      {
        FinishKeepsReplay(w, step.handle, step.at, folder);
      }
    } else {
      OthersKeepInv(w, step);
    }
  }

  lemma OthersKeepInv(w: World, step: Step)
    requires Inv(w) && Enabled(w, step) && !(step.Finish? && FolderFinalizable(w.tables, step.handle))
    ensures Inv(Apply(w, step))
  {
    OnlyCompletionChangesMembers(w, step);
    forall folder ensures AuthorityHolds(Apply(w, step), folder) {
      assert AuthorityHolds(w, folder);
    }
    if step.Open? {
      assert Unobserved(w.tables.observations, step.snapshot);
    }
  }

  lemma {:induction false} RunKeepsInv(w: World, steps: seq<Step>)
    requires Inv(w) && Legal(w, steps)
    ensures Inv(Exec(w, steps))
    decreases |steps|
  {
    if steps != [] {
      StepKeepsInv(w, steps[0]);
      RunKeepsInv(Apply(w, steps[0]), steps[1..]);
    }
  }

  /**
   In every run a folder's members are exactly what its authority had staged when it completed, and replaying the
   recorded observations in completion order reproduces them.
   */
  lemma MembersFollowAuthority(steps: seq<Step>, folder: Uuid)
    requires Legal(EMPTY, steps)
    ensures AuthorityHolds(Exec(EMPTY, steps), folder)
    ensures var w := Exec(EMPTY, steps);
            Replay(w.tables.observations, w.completions, folder) == ActiveMembers(w.tables.members, folder)
  {
    assert Inv(EMPTY);
    RunKeepsInv(EMPTY, steps);
  }

  // ---------------------------------------------------------------- the service

  datatype FolderTurn = BudgetRefused | BudgetFailed | Unavailable | Limited(capability: Capability) | Unnormalizable
                      | Delivered(page: Snapshots.Page, at: Instant)

  datatype FolderOutcome = RunUnavailable | Incomplete | Errored | CapabilityLimited(capability: Capability) | SnapshotCompleted | Crashed

  function FolderLoop(t: FolderTables, handle: FolderRun, turns: seq<FolderTurn>, completedAt: Instant): (FolderTables, FolderOutcome)
    decreases |turns|
  {
    if turns == [] then (t, Crashed)
    else match turns[0]
      case BudgetRefused => (SetState(t, handle.run, RunFailed), Incomplete)
      case Unavailable => (SetState(t, handle.run, RunFailed), Incomplete)
      case BudgetFailed => (SetState(t, handle.run, RunFailed), Errored)
      case Unnormalizable => (SetState(t, handle.run, RunFailed), Errored)
      case Limited(capability) =>
        if handle.run in t.runs then (LimitRun(t, handle.run, capability), CapabilityLimited(capability)) else (t, Errored)
      case Delivered(page, at) =>
        var staged := StageMembers(t, handle, page, at);
        if page.next.Some? then FolderLoop(staged, handle.(checkpoint := page.next), turns[1..], completedAt)
        else if FolderFinalizable(staged, handle) then (CompleteFolder(staged, handle, completedAt), SnapshotCompleted)
        else (staged, RunUnavailable)
  }

  /** Inserts one removal observation per post, skipping those already there. */
  method ObserveRemovals(before: Observations, snapshot: Uuid, folder: Uuid, gone: set<PostId>, at: Instant) returns (after: Observations)
    ensures after == Observe(before, ObservationKeys(snapshot, folder, gone, Removed), at)
  {
    after := before;
    var todo := gone;
    assert gone - todo == {};
    while todo != {}
      invariant todo <= gone
      invariant after == Observe(before, ObservationKeys(snapshot, folder, gone - todo, Removed), at)
      decreases todo
    {
      var p :| p in todo;
      var key := ObservationKey(snapshot, folder, p, Removed);
      ObserveOne(before, ObservationKeys(snapshot, folder, gone - todo, Removed), key, at);
      OneMoreKey(snapshot, folder, gone, todo, p);
      if key !in after {
        after := after[key := at];
      }
      todo := todo - {p};
    }
    assert gone - todo == gone;
  }

  lemma OneMoreKey(snapshot: Uuid, folder: Uuid, gone: set<PostId>, todo: set<PostId>, p: PostId)
    requires p in todo && todo <= gone
    ensures ObservationKeys(snapshot, folder, gone - (todo - {p}), Removed)
            == ObservationKeys(snapshot, folder, gone - todo, Removed) + {ObservationKey(snapshot, folder, p, Removed)}
  {
    assert gone - (todo - {p}) == (gone - todo) + {p};
  }

  class FolderSnapshotService {
    var tables: FolderTables

    constructor (tables: FolderTables)
      ensures this.tables == tables
    {
      this.tables := tables;
    }

    /** Marks the absent members, then inserts their removal observations one by one. */
    method RecordAbsentMemberships(handle: FolderRun, items: StagedItems, at: Instant) returns (removed: nat)
      modifies this
      ensures var gone := ActiveMembers(old(tables.members), handle.folder) - items.Keys;
              && removed == |gone|
              && tables == old(tables).(
                   members := RemoveMembers(old(tables.members), handle.folder, gone, handle.snapshot, at),
                   observations := Observe(old(tables.observations), ObservationKeys(handle.snapshot, handle.folder, gone, Removed), at))
    {
      var gone := ActiveMembers(tables.members, handle.folder) - items.Keys;
      removed := |gone|;
      tables := tables.(members := RemoveMembers(tables.members, handle.folder, gone, handle.snapshot, at));
      var observations := ObserveRemovals(tables.observations, handle.snapshot, handle.folder, gone, at);
      tables := tables.(observations := observations);
    }

    /** Refused without effect unless the run is running and its snapshot open. */
    method Complete(handle: FolderRun, at: Instant) returns (ok: bool)
      modifies this
      ensures ok <==> FolderFinalizable(old(tables), handle)
      ensures tables == if ok then CompleteFolder(old(tables), handle, at) else old(tables)
    {
      ok := FolderFinalizable(tables, handle);
      if !ok {
        return;
      }
      var items := StagedIn(tables, handle.snapshot);
      var active := ActiveMembers(tables.members, handle.folder);
      var added, retained := |items.Keys - active|, |items.Keys * active|;
      var news := ObservationKeys(handle.snapshot, handle.folder, items.Keys - active, Added);
      tables := tables.(observations := Observe(tables.observations, news, at));
      tables := tables.(members := UpsertMembers(tables.members, handle.folder, items));
      UpsertLoses(old(tables).members, handle.folder, items);
      var removed := RecordAbsentMemberships(handle, items, at);
      var row := tables.runs[handle.run].(state := Completed, checkpoint := None, statistics := Statistics(added, retained, removed));
      tables := tables.(runs := tables.runs[handle.run := row],
                        snapshots := tables.snapshots[handle.snapshot := tables.snapshots[handle.snapshot].(complete := true)],
                        authority := tables.authority[handle.folder := handle.snapshot]);
    }

    method RunPages(start: FolderRun, turns: seq<FolderTurn>, completedAt: Instant) returns (outcome: FolderOutcome)
      modifies this
      ensures (tables, outcome) == FolderLoop(old(tables), start, turns, completedAt)
    {
      var handle := start;
      var i := 0;
      while i < |turns|
        invariant 0 <= i <= |turns|
        invariant FolderLoop(tables, handle, turns[i..], completedAt) == FolderLoop(old(tables), start, turns, completedAt)
      {
        assert turns[i..][1..] == turns[i + 1..];
        match turns[i] {
          case BudgetRefused =>
            tables := SetState(tables, handle.run, RunFailed);
            return Incomplete;
          case Unavailable =>
            tables := SetState(tables, handle.run, RunFailed);
            return Incomplete;
          case BudgetFailed =>
            tables := SetState(tables, handle.run, RunFailed);
            return Errored;
          case Unnormalizable =>
            tables := SetState(tables, handle.run, RunFailed);
            return Errored;
          case Limited(capability) =>
            if handle.run !in tables.runs {
              return Errored;
            }
            tables := LimitRun(tables, handle.run, capability);
            return CapabilityLimited(capability);
          case Delivered(page, at) =>
            tables := StageMembers(tables, handle, page, at);
            if page.next.None? {
              var ok := Complete(handle, completedAt);
              return if ok then SnapshotCompleted else RunUnavailable;
            }
            handle := handle.(checkpoint := page.next);
        }
        i := i + 1;
      }
      outcome := Crashed;
    }
  }

  lemma ObserveOne(observations: Observations, keys: set<ObservationKey>, key: ObservationKey, at: Instant)
    ensures var before := Observe(observations, keys, at);
            Observe(observations, keys + {key}, at) == if key in before then before else before[key := at]
  {
  }

  /** The upsert does not change which members the snapshot lacks. */
  lemma UpsertLoses(members: Members, folder: Uuid, items: StagedItems)
    ensures ActiveMembers(UpsertMembers(members, folder, items), folder) - items.Keys == ActiveMembers(members, folder) - items.Keys
  {
    var upserted := UpsertMembers(members, folder, items);
    forall p | p !in items.Keys ensures p in ActiveMembers(upserted, folder) <==> p in ActiveMembers(members, folder) {
      var k := MemberKey(folder, p);
      assert k !in MemberKeys(folder, items.Keys);
      assert p in ActiveMembers(upserted, folder) <==> k in upserted && upserted[k].removedAt.None?;
      assert p in ActiveMembers(members, folder) <==> k in members && members[k].removedAt.None?;
    }
  }
}
