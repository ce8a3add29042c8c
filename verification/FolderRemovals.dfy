/** Which step removes a folder member, and what the removed member names, over every run. */
module FolderRemovals {
  import opened Common
  import opened ArchiveTables
  import opened Folders
  import opened FolderRunners

  predicate MemberRemoved(t: FolderTables, k: MemberKey) { k in t.members && t.members[k].removedAt.Some? }

  /** The step completes a snapshot of the member's folder whose staged posts lack this active member. */
  ghost predicate Loses(w: World, step: Step, k: MemberKey)
  {
    && step.Finish? && FolderFinalizable(w.tables, step.handle) && step.handle.folder == k.folder
    && k in w.tables.members && w.tables.members[k].removedAt.None? && k.post !in StagedIn(w.tables, step.handle.snapshot)
  }

  /** The row names the completed snapshot and its time. */
  predicate Names(row: Member, step: Step)
    requires step.Finish?
  {
    row.removedAt == Some(step.at) && row.removedSnapshot == Some(step.handle.snapshot)
  }

  /** Each member after reconciliation. */
  lemma ReconciledMember(members: Members, folder: Uuid, items: StagedItems, snapshot: Uuid, at: Instant, k: MemberKey)
    ensures var after := ReconciledMembers(members, folder, items, snapshot, at);
            && (k in after && after[k].removedAt.Some? ==> k in members)
            && (k in members ==>
                  && k in after
                  && (k.folder == folder && k.post in items ==> after[k].removedAt.None?)
                  && (k.folder == folder && k.post !in items && members[k].removedAt.None? ==>
                        after[k] == members[k].(removedAt := Some(at), removedSnapshot := Some(snapshot)))
                  && ((k.folder != folder || (k.post !in items && members[k].removedAt.Some?)) ==> after[k] == members[k]))
  {
    var upserted := UpsertMembers(members, folder, items);
    var gone := ActiveMembers(members, folder) - items.Keys;
    if k in members {
      assert k.folder == folder && k.post in items ==> k in MemberKeys(folder, items.Keys);
      assert k == MemberKey(k.folder, k.post);
      assert k.folder == folder ==> (k.post in ActiveMembers(members, folder) <==> members[k].removedAt.None?) by {
        if k.folder == folder && k.post in ActiveMembers(members, folder) {
          var x :| x in members && x.folder == folder && members[x].removedAt.None? && x.post == k.post;
          assert x == k;
        }
      }
    }
  }

  /** A member turns removed exactly in the completion that loses it, which it then names; a removed one otherwise keeps its row. */
  lemma OnlyCompletionRemovesMembers(w: World, step: Step, k: MemberKey)
    requires Enabled(w, step)
    ensures !MemberRemoved(w.tables, k) ==> (MemberRemoved(Apply(w, step).tables, k) <==> Loses(w, step, k))
    ensures var t := Apply(w, step).tables;
            MemberRemoved(t, k) ==>
              || (Loses(w, step, k) && Names(t.members[k], step))
              || (MemberRemoved(w.tables, k) && t.members[k] == w.tables.members[k])
  {
    if step.Finish? && FolderFinalizable(w.tables, step.handle) {
      ReconciledMember(w.tables.members, step.handle.folder, StagedIn(w.tables, step.handle.snapshot), step.handle.snapshot, step.at, k);
    } else {
      OnlyCompletionChangesMembers(w, step);
    }
  }

  /** The snapshot of this folder is complete. */
  predicate CompleteFor(t: FolderTables, a: Uuid, folder: Uuid)
  {
    a in t.snapshots && t.snapshots[a].complete && t.snapshots[a].folder == folder
  }

  lemma CompleteStays(w: World, step: Step, a: Uuid, folder: Uuid)
    requires Enabled(w, step) && CompleteFor(w.tables, a, folder)
    ensures CompleteFor(Apply(w, step).tables, a, folder)
  {
  }

  /** Step `j` of the run lost the member, and the row names its snapshot. */
  ghost predicate LostAt(w: World, steps: seq<Step>, j: nat, k: MemberKey, row: Member)
  {
    j < |steps| && Legal(w, steps[..j]) && Loses(Exec(w, steps[..j]), steps[j], k) && Names(row, steps[j])
  }

  lemma LostLater(w: World, steps: seq<Step>, j: nat, k: MemberKey, row: Member)
    requires Legal(w, steps) && steps != [] && LostAt(Apply(w, steps[0]), steps[1..], j, k, row)
    ensures LostAt(w, steps, j + 1, k, row)
  {
    assert steps[..j + 1][1..] == steps[1..][..j] && steps[..j + 1][0] == steps[0];
  }

  /** A member that is removed and stays so keeps its row, or is found and lost again by a later step. */
  lemma {:induction false} RemovedHasStep(w: World, steps: seq<Step>, k: MemberKey) returns (j: nat)
    requires Legal(w, steps) && MemberRemoved(Exec(w, steps).tables, k)
    ensures var row := Exec(w, steps).tables.members[k];
            LostAt(w, steps, j, k, row) || (MemberRemoved(w.tables, k) && w.tables.members[k] == row)
    decreases |steps|
  {
    j := 0;
    if steps != [] {
      var next := Apply(w, steps[0]);
      var row := Exec(w, steps).tables.members[k];
      var i := RemovedHasStep(next, steps[1..], k);
      if LostAt(next, steps[1..], i, k, row) {
        LostLater(w, steps, i, k, row);
        j := i + 1;
      } else {
        OnlyCompletionRemovesMembers(w, steps[0], k);
        assert steps[..0] == [];
      }
    }
  }

  lemma {:induction false} CompleteForever(w: World, steps: seq<Step>, a: Uuid, folder: Uuid)
    requires Legal(w, steps) && CompleteFor(w.tables, a, folder)
    ensures CompleteFor(Exec(w, steps).tables, a, folder)
    decreases |steps|
  {
    if steps != [] {
      CompleteStays(w, steps[0], a, folder);
      CompleteForever(Apply(w, steps[0]), steps[1..], a, folder);
    }
  }

  lemma {:induction false} LostIsComplete(w: World, steps: seq<Step>, j: nat, k: MemberKey, row: Member)
    requires Legal(w, steps) && LostAt(w, steps, j, k, row)
    ensures row.removedSnapshot.Some? && CompleteFor(Exec(w, steps).tables, row.removedSnapshot.value, k.folder)
    decreases |steps|
  {
    if j == 0 {
      assert steps[..0] == [];
      CompleteForever(Apply(w, steps[0]), steps[1..], steps[0].handle.snapshot, k.folder);
    } else {
      assert steps[..j][1..] == steps[1..][..j - 1] && steps[..j][0] == steps[0];
      LostIsComplete(Apply(w, steps[0]), steps[1..], j - 1, k, row);
    }
  }

  /**
   In every run every removed member names its step: the completion of the snapshot it names, a complete one of its
   own folder, whose staged posts then lacked it.
   */
  lemma MemberRemovalsNameTheirStep(steps: seq<Step>, k: MemberKey) returns (j: nat)
    requires Legal(EMPTY, steps) && MemberRemoved(Exec(EMPTY, steps).tables, k)
    ensures var t := Exec(EMPTY, steps).tables;
            && LostAt(EMPTY, steps, j, k, t.members[k])
            && t.members[k].removedSnapshot.Some? && CompleteFor(t, t.members[k].removedSnapshot.value, k.folder)
  {
    j := RemovedHasStep(EMPTY, steps, k);
    LostIsComplete(EMPTY, steps, j, k, Exec(EMPTY, steps).tables.members[k]);
  }

  // ---------------------------------------------------------------- runs with runners

  /** The moves of the runners are steps of the tables, so the result holds of every run with runners. */
  lemma {:induction false} MovesAreSteps(s: State, moves: seq<Move>) returns (steps: seq<Step>)
    requires LegalMoves(s, moves)
    ensures Legal(s.world, steps) && Exec(s.world, steps) == AfterMoves(s, moves).world
    decreases |moves|
  {
    if moves == [] {
      steps := [];
    } else {
      var rest := MovesAreSteps(Moved(s, moves[0]), moves[1..]);
      if StepOf(s, moves[0]).Some? {
        steps := [StepOf(s, moves[0]).value] + rest;
        assert steps[1..] == rest;
      } else {
        steps := rest;
      }
    }
  }

  lemma RunnersNameTheirRemovals(moves: seq<Move>, k: MemberKey) returns (steps: seq<Step>, j: nat)
    requires LegalMoves(START, moves) && MemberRemoved(AfterMoves(START, moves).world.tables, k)
    ensures Legal(EMPTY, steps) && Exec(EMPTY, steps) == AfterMoves(START, moves).world
    ensures LostAt(EMPTY, steps, j, k, AfterMoves(START, moves).world.tables.members[k])
  {
    steps := MovesAreSteps(START, moves);
    j := MemberRemovalsNameTheirStep(steps, k);
  }
}
