/**
 Full bookmark snapshots: paged staging with a durable checkpoint, resume, and one atomic completion
 that reconciles bookmarks, settles uncertain writes and takes over absence authority.
 */
module Snapshots {
  import opened Common
  import opened ArchiveTables

  /** One provider page after normalization: at least one post, in ascending identity order. */
  datatype Page = Page(items: seq<PostId>, next: Option<string>)

  predicate ValidPage(page: Page) { page.items != [] }

  function PostsOf(page: Page): set<PostId> { set p | p in page.items }

  /** The in-memory handle of a live runner. */
  datatype RunHandle = RunHandle(run: Uuid, snapshot: Uuid, account: Uuid, checkpoint: Option<string>)

  // ---------------------------------------------------------------- transactions before completion

  function CreateRun(s: SyncTables, account: Uuid, run: Uuid, snapshot: Uuid): SyncTables
  {
    s.(runs := s.runs[run := RunRow(account, Full, Running, None, NewStatistics())],
       snapshots := s.snapshots[snapshot := SnapshotRow(run, false)])
  }

  predicate Resumable(s: SyncTables, account: Uuid, run: Uuid, snapshot: Uuid)
  {
    && run in s.runs && snapshot in s.snapshots && s.snapshots[snapshot].run == run
    && s.runs[run].account == account && s.runs[run].kind == Full && s.runs[run].state != Completed
  }

  function SetRunState(s: SyncTables, run: Uuid, state: RunState): SyncTables
  {
    if run in s.runs then s.(runs := s.runs[run := s.runs[run].(state := state)]) else s
  }

  function StageItems(items: StagedItems, page: Page, at: Instant): StagedItems
  {
    items + map p | p in page.items :: at
  }

  /** Items are always staged; the checkpoint moves only while the run is still `running`. */
  function StagePage(s: SyncTables, handle: RunHandle, page: Page, at: Instant): SyncTables
  {
    s.(posts := s.posts + PostsOf(page),
       staged := s.staged[handle.snapshot := StageItems(StagedOf(s, handle.snapshot), page, at)],
       runs := if handle.run in s.runs && s.runs[handle.run].state == Running
               then s.runs[handle.run := s.runs[handle.run].(checkpoint := page.next)] else s.runs)
  }

  // ---------------------------------------------------------------- completion

  predicate Finalizable(s: SyncTables, handle: RunHandle)
  {
    && handle.snapshot in s.snapshots && !s.snapshots[handle.snapshot].complete
    && s.snapshots[handle.snapshot].run == handle.run
    && handle.run in s.runs && s.runs[handle.run].account == handle.account && s.runs[handle.run].state == Running
  }

  function UpsertedRow(bookmarks: Bookmarks, key: BookmarkKey, at: Instant): Bookmark
  {
    if key in bookmarks then
      bookmarks[key].(lastSavedAt := at, removedAt := None, removedSnapshot := None, lastIncremental := None)
    else Bookmark(at, at, None, None, None, None, None)
  }

  /** `insert … select … on conflict do update`: every staged post becomes active. */
  function UpsertActive(bookmarks: Bookmarks, account: Uuid, items: StagedItems): Bookmarks
  {
    bookmarks + map k | k in KeysOf(account, items.Keys) :: UpsertedRow(bookmarks, k, items[k.post])
  }

  /** Active rows of the account that the snapshot does not carry. */
  function AbsentKeys(bookmarks: Bookmarks, account: Uuid, items: StagedItems): set<BookmarkKey>
  {
    set k | k in bookmarks && k.account == account && bookmarks[k].removedAt.None? && k.post !in items
  }

  function MarkAbsent(bookmarks: Bookmarks, absent: set<BookmarkKey>, snapshot: Uuid, at: Instant): Bookmarks
  {
    map k | k in bookmarks ::
      if k in absent then bookmarks[k].(removedAt := Some(at), removedSnapshot := Some(snapshot)) else bookmarks[k]
  }

  function Reconciled(bookmarks: Bookmarks, account: Uuid, items: StagedItems, snapshot: Uuid, at: Instant): Bookmarks
  {
    var upserted := UpsertActive(bookmarks, account, items);
    MarkAbsent(upserted, AbsentKeys(upserted, account, items), snapshot, at)
  }

  /** One drift repair per removed row that an incremental run touched last. */
  function DriftRepairs(bookmarks: Bookmarks, absent: set<BookmarkKey>, snapshot: Uuid): set<(Uuid, BookmarkKey)>
  {
    set k | k in absent && k in bookmarks && bookmarks[k].lastIncremental.Some? :: (snapshot, k)
  }

  function CompletionStatistics(bookmarks: Bookmarks, account: Uuid, items: StagedItems): Statistics
  {
    var active := ActivePosts(bookmarks, account);
    Statistics(|items.Keys - active|, |items.Keys * active|,
               |AbsentKeys(UpsertActive(bookmarks, account, items), account, items)|)
  }

  /** `record_completion`, the gap flag and `replace_authority`. */
  function FinishRows(s: SyncTables, handle: RunHandle, statistics: Statistics): SyncTables
    requires Finalizable(s, handle)
  {
    s.(runs := s.runs[handle.run := s.runs[handle.run].(state := Completed, checkpoint := None, statistics := statistics)],
       snapshots := s.snapshots[handle.snapshot := s.snapshots[handle.snapshot].(complete := true)],
       incremental := if handle.account in s.incremental
                      then s.incremental[handle.account := s.incremental[handle.account].(requiresFull := false)]
                      else s.incremental,
       authority := s.authority[handle.account := handle.snapshot])
  }

  function CompleteRun(s: SyncTables, handle: RunHandle, at: Instant): SyncTables
    requires Finalizable(s, handle)
  {
    var items := StagedOf(s, handle.snapshot);
    var upserted := UpsertActive(s.bookmarks, handle.account, items);
    var absent := AbsentKeys(upserted, handle.account, items);
    FinishRows(s, handle, CompletionStatistics(s.bookmarks, handle.account, items)).(
      bookmarks := MarkAbsent(upserted, absent, handle.snapshot, at),
      repairs := s.repairs + DriftRepairs(upserted, absent, handle.snapshot))
  }

  function SettledUncertain(operation: Operation, present: bool, at: Instant): Operation
  {
    operation.(status := if (operation.action == Add) == present then ReconciledSucceeded else ReconciledNotCurrent,
               outcome := Some(if present then CompleteSnapshotPresent else CompleteSnapshotAbsent),
               observedAt := Some(at))
  }

  function UncertainOf(w: WriteTables, account: Uuid): set<Uuid>
  {
    set o | o in w.operations && w.operations[o].account == account && w.operations[o].status == Uncertain
  }

  /** Every uncertain operation of the account is settled against the staged items. */
  function SettleUncertain(w: WriteTables, account: Uuid, items: StagedItems, at: Instant): WriteTables
  {
    w.(operations := map o | o in w.operations ::
      if o in UncertainOf(w, account) then SettledUncertain(w.operations[o], w.operations[o].post in items, at)
      else w.operations[o])
  }

  /** The settled operations have their final row, the others their old one. */
  predicate PartlySettled(before: map<Uuid, Operation>, now: map<Uuid, Operation>, settled: set<Uuid>, items: StagedItems, at: Instant)
  {
    && now.Keys == before.Keys
    && forall o | o in before ::
         now[o] == if o in settled then SettledUncertain(before[o], before[o].post in items, at) else before[o]
  }

  // ---------------------------------------------------------------- what completion means

  /** Completion makes the active set exactly the staged set, for this account only. */
  lemma CompletionActivates(bookmarks: Bookmarks, account: Uuid, items: StagedItems, snapshot: Uuid, at: Instant)
    ensures var after := Reconciled(bookmarks, account, items, snapshot, at);
            && ActivePosts(after, account) == items.Keys
            && (forall k | k in bookmarks && k.account != account :: k in after && after[k] == bookmarks[k])
            && (forall k | k in after && k.account != account :: k in bookmarks)
            && (forall k | k in bookmarks && k.account == account && bookmarks[k].removedAt.Some? && k.post !in items ::
                  after[k] == bookmarks[k])
  {
    var upserted := UpsertActive(bookmarks, account, items);
    var after := Reconciled(bookmarks, account, items, snapshot, at);
    forall p | p in items.Keys ensures p in ActivePosts(after, account) {
      var k := BookmarkKey(account, p);
      assert k in KeysOf(account, items.Keys);
      assert k in upserted && upserted[k].removedAt.None?;
      assert after[k].removedAt.None?;
    }
    forall p | p in ActivePosts(after, account) ensures p in items.Keys {
      var k :| k in after && k.account == account && after[k].removedAt.None? && k.post == p;
      assert k in upserted;
    }
  }

  lemma AbsentAreLost(bookmarks: Bookmarks, account: Uuid, items: StagedItems)
    ensures AbsentKeys(UpsertActive(bookmarks, account, items), account, items) == AbsentKeys(bookmarks, account, items)
    ensures |AbsentKeys(bookmarks, account, items)| == |ActivePosts(bookmarks, account) - items.Keys|
  {
    var upserted := UpsertActive(bookmarks, account, items);
    assert AbsentKeys(upserted, account, items) == AbsentKeys(bookmarks, account, items);
    var lost := ActivePosts(bookmarks, account) - items.Keys;
    assert AbsentKeys(bookmarks, account, items) == KeysOf(account, lost) by {
      forall p | p in lost ensures BookmarkKey(account, p) in AbsentKeys(bookmarks, account, items) {
        var k :| k in bookmarks && k.account == account && bookmarks[k].removedAt.None? && k.post == p;
        assert k == BookmarkKey(account, p);
      }
      forall k | k in AbsentKeys(bookmarks, account, items) ensures k in KeysOf(account, lost) {
        assert k.post in lost && k == BookmarkKey(account, k.post);
      }
    }
    KeyedCardinality(account, lost);
  }

  lemma {:induction false} KeyedCardinality(account: Uuid, posts: set<PostId>)
    ensures |KeysOf(account, posts)| == |posts|
    decreases |posts|
  {
    if posts != {} {
      var p :| p in posts;
      KeyedCardinality(account, posts - {p});
      assert KeysOf(account, posts) == KeysOf(account, posts - {p}) + {BookmarkKey(account, p)};
    }
  }

  /** The recorded counts are the sizes of their sets, so added + retained = |staged| and retained + removed = |active before|. */
  lemma CompletionBalances(s: SyncTables, handle: RunHandle, at: Instant)
    requires Finalizable(s, handle)
    ensures var items := StagedOf(s, handle.snapshot);
            var st := CompleteRun(s, handle, at).runs[handle.run].statistics;
            && st.added + st.retained == |items.Keys|
            && st.retained + st.removed == |ActivePosts(s.bookmarks, handle.account)|
            && st.added == |items.Keys - ActivePosts(s.bookmarks, handle.account)|
            && st.retained == |items.Keys * ActivePosts(s.bookmarks, handle.account)|
            && st.removed == |ActivePosts(s.bookmarks, handle.account) - items.Keys|
            && ActivePosts(CompleteRun(s, handle, at).bookmarks, handle.account) == items.Keys
  {
    var items := StagedOf(s, handle.snapshot);
    var active := ActivePosts(s.bookmarks, handle.account);
    CompletionActivates(s.bookmarks, handle.account, items, handle.snapshot, at);
    AbsentAreLost(s.bookmarks, handle.account, items);
    CardinalitySplit(items.Keys, active);
    CardinalitySplit(active, items.Keys);
    assert active * items.Keys == items.Keys * active;
  }

  lemma RepairsOf(bookmarks: Bookmarks, account: Uuid, items: StagedItems, snapshot: Uuid, r: (Uuid, BookmarkKey))
    ensures r in DriftRepairs(UpsertActive(bookmarks, account, items), AbsentKeys(bookmarks, account, items), snapshot) <==>
            && r.0 == snapshot && r.1 in bookmarks && r.1.account == account && bookmarks[r.1].removedAt.None?
            && bookmarks[r.1].lastIncremental.Some? && r.1.post !in items
  {
    var upserted := UpsertActive(bookmarks, account, items);
    var absent := AbsentKeys(bookmarks, account, items);
    forall k | k in absent ensures k in upserted && upserted[k] == bookmarks[k] {
      assert k !in KeysOf(account, items.Keys);
    }
  }

  /** Completion writes one drift repair for each lost row an incremental run touched last, and no other. */
  lemma CompletionRepairs(s: SyncTables, handle: RunHandle, at: Instant, r: (Uuid, BookmarkKey))
    requires Finalizable(s, handle)
    ensures r in CompleteRun(s, handle, at).repairs <==>
            || r in s.repairs
            || (&& r.0 == handle.snapshot && r.1 in s.bookmarks && r.1.account == handle.account
                && s.bookmarks[r.1].removedAt.None? && s.bookmarks[r.1].lastIncremental.Some?
                && r.1.post !in StagedOf(s, handle.snapshot))
  {
    var items := StagedOf(s, handle.snapshot);
    AbsentAreLost(s.bookmarks, handle.account, items);
    RepairsOf(s.bookmarks, handle.account, items, handle.snapshot, r);
    var upserted := UpsertActive(s.bookmarks, handle.account, items);
    var absent := AbsentKeys(s.bookmarks, handle.account, items);
    assert CompleteRun(s, handle, at).repairs == s.repairs + DriftRepairs(upserted, absent, handle.snapshot);
  }

  /** Settlement agrees with the projection the same completion leaves behind. */
  lemma SettlementMatchesProjection(w: WriteTables, s: SyncTables, handle: RunHandle, at: Instant, o: Uuid)
    requires Finalizable(s, handle) && o in w.operations
    ensures var after := SettleUncertain(w, handle.account, StagedOf(s, handle.snapshot), at).operations[o];
            var bookmarked := w.operations[o].post in ActivePosts(CompleteRun(s, handle, at).bookmarks, handle.account);
            if w.operations[o].account == handle.account && w.operations[o].status == Uncertain then
              && (after.status == ReconciledSucceeded <==> (w.operations[o].action == Add <==> bookmarked))
              && (after.status == ReconciledNotCurrent <==> !(w.operations[o].action == Add <==> bookmarked))
              && after.(status := Uncertain, outcome := w.operations[o].outcome, observedAt := w.operations[o].observedAt) == w.operations[o]
            else after == w.operations[o]
  {
    CompletionActivates(s.bookmarks, handle.account, StagedOf(s, handle.snapshot), handle.snapshot, at);
  }

  // ---------------------------------------------------------------- the service

  /** What one turn of the page loop meets. Running out of turns is a crash between two statements. */
  datatype Turn = BudgetRefused
                | BudgetFailed
                | SourceUnavailable
                | Unnormalizable
                | Delivered(page: Page, at: Instant)

  datatype SnapshotOutcome = RunUnavailable
                           | Incomplete(run: Uuid)
                           | Errored(run: Uuid)
                           | SnapshotCompleted(run: Uuid, snapshot: Uuid)
                           | Crashed

  datatype Archive = Archive(writes: WriteTables, sync: SyncTables)

  function CompleteBoth(a: Archive, handle: RunHandle, at: Instant): Archive
    requires Finalizable(a.sync, handle)
  {
    Archive(SettleUncertain(a.writes, handle.account, StagedOf(a.sync, handle.snapshot), at),
            CompleteRun(a.sync, handle, at))
  }

  /** The page loop as a fold over its turns; `completedAt` is read once, when the last page is in. */
  function PageLoop(a: Archive, handle: RunHandle, turns: seq<Turn>, completedAt: Instant): (Archive, SnapshotOutcome)
    decreases |turns|
  {
    if turns == [] then (a, Crashed)
    else match turns[0]
      case BudgetRefused => (a.(sync := SetRunState(a.sync, handle.run, RunFailed)), Incomplete(handle.run))
      case SourceUnavailable => (a.(sync := SetRunState(a.sync, handle.run, RunFailed)), Incomplete(handle.run))
      case BudgetFailed => (a.(sync := SetRunState(a.sync, handle.run, RunFailed)), Errored(handle.run))
      case Unnormalizable => (a.(sync := SetRunState(a.sync, handle.run, RunFailed)), Errored(handle.run))
      case Delivered(page, at) =>
        var staged := a.(sync := StagePage(a.sync, handle, page, at));
        var next := handle.(checkpoint := page.next);
        if page.next.Some? then PageLoop(staged, next, turns[1..], completedAt)
        else if Finalizable(staged.sync, handle) then
          (CompleteBoth(staged, handle, completedAt), SnapshotCompleted(handle.run, handle.snapshot))
        else (staged, RunUnavailable)
  }

  class BookmarkSnapshotService {
    const db: Database

    constructor (db: Database)
      ensures this.db == db
    {
      this.db := db;
    }

    method StageOnePage(handle: RunHandle, page: Page, at: Instant)
      modifies db`sync
      ensures db.sync == StagePage(old(db.sync), handle, page, at)
    {
      var items := StagedOf(db.sync, handle.snapshot);
      ghost var before := items;
      for i := 0 to |page.items|
        invariant items == before + map p | p in page.items[..i] :: at
      {
        items := items[page.items[i] := at];
        assert page.items[..i + 1] == page.items[..i] + [page.items[i]];
      }
      assert page.items[..|page.items|] == page.items;
      var runs := db.sync.runs;
      if handle.run in runs && runs[handle.run].state == Running {
        runs := runs[handle.run := runs[handle.run].(checkpoint := page.next)];
      }
      db.sync := db.sync.(posts := db.sync.posts + PostsOf(page), staged := db.sync.staged[handle.snapshot := items], runs := runs);
    }

    /** Marks the absent rows, then walks the returned rows and inserts their repairs one by one. */
    method RecordAbsent(handle: RunHandle, items: StagedItems, at: Instant) returns (removed: nat)
      modifies db`sync
      ensures var absent := AbsentKeys(old(db.sync.bookmarks), handle.account, items);
              && removed == |absent|
              && db.sync == old(db.sync).(
                   bookmarks := MarkAbsent(old(db.sync.bookmarks), absent, handle.snapshot, at),
                   repairs := old(db.sync.repairs) + DriftRepairs(old(db.sync.bookmarks), absent, handle.snapshot))
    {
      var before := db.sync.bookmarks;
      var absent := AbsentKeys(before, handle.account, items);
      removed := |absent|;
      var repairs := db.sync.repairs;
      var todo := absent;
      while todo != {}
        invariant todo <= absent
        invariant repairs == old(db.sync.repairs) + DriftRepairs(before, absent - todo, handle.snapshot)
        decreases |todo|
      {
        var k :| k in todo;
        if before[k].lastIncremental.Some? {
          repairs := repairs + {(handle.snapshot, k)};
        }
        assert absent - (todo - {k}) == (absent - todo) + {k};
        todo := todo - {k};
      }
      assert absent - {} == absent;
      db.sync := db.sync.(bookmarks := MarkAbsent(before, absent, handle.snapshot, at), repairs := repairs);
    }

    /** Settles the uncertain operations of the account one by one. */
    method ReconcileUncertain(account: Uuid, items: StagedItems, at: Instant)
      modifies db`writes
      ensures db.writes == SettleUncertain(old(db.writes), account, items, at)
    {
      var before := db.writes;
      var todo := UncertainOf(before, account);
      var operations := before.operations;
      while todo != {}
        invariant todo <= UncertainOf(before, account)
        invariant PartlySettled(before.operations, operations, UncertainOf(before, account) - todo, items, at)
        decreases todo
      {
        var o :| o in todo;
        var row := operations[o];
        var present := row.post in items;
        var current := (row.action == Add && present) || (row.action == Remove && !present);
        operations := operations[o := row.(status := if current then ReconciledSucceeded else ReconciledNotCurrent,
                                           outcome := Some(if present then CompleteSnapshotPresent else CompleteSnapshotAbsent),
                                           observedAt := Some(at))];
        todo := todo - {o};
      }
      assert operations == SettleUncertain(before, account, items, at).operations;
      db.writes := before.(operations := operations);
    }

    /** The completion transaction: refused without effect unless the run is running and its snapshot open. */
    method Complete(handle: RunHandle, at: Instant) returns (ok: bool)
      modifies db
      ensures ok <==> Finalizable(old(db.sync), handle)
      ensures Archive(db.writes, db.sync) ==
                if ok then CompleteBoth(Archive(old(db.writes), old(db.sync)), handle, at)
                else Archive(old(db.writes), old(db.sync))
    {
      ok := Finalizable(db.sync, handle);
      if !ok {
        return;
      }
      var items := StagedOf(db.sync, handle.snapshot);
      var active := ActivePosts(db.sync.bookmarks, handle.account);
      var added := |items.Keys - active|;
      var retained := |items.Keys * active|;
      db.sync := db.sync.(bookmarks := UpsertActive(db.sync.bookmarks, handle.account, items));
      var removed := RecordAbsent(handle, items, at);
      ReconcileUncertain(handle.account, items, at);
      var row := db.sync.runs[handle.run].(state := Completed, checkpoint := None, statistics := Statistics(added, retained, removed));
      db.sync := db.sync.(runs := db.sync.runs[handle.run := row],
                          snapshots := db.sync.snapshots[handle.snapshot := db.sync.snapshots[handle.snapshot].(complete := true)],
                          authority := db.sync.authority[handle.account := handle.snapshot]);
      if handle.account in db.sync.incremental {
        var state := db.sync.incremental[handle.account].(requiresFull := false);
        db.sync := db.sync.(incremental := db.sync.incremental[handle.account := state]);
      }
    }

    /** Pages until the provider says it has no more, then completes. */
    method RunPages(start: RunHandle, turns: seq<Turn>, completedAt: Instant) returns (outcome: SnapshotOutcome)
      modifies db
      ensures (Archive(db.writes, db.sync), outcome) == PageLoop(Archive(old(db.writes), old(db.sync)), start, turns, completedAt)
    {
      var handle := start;
      var i := 0;
      while i < |turns|
        invariant 0 <= i <= |turns|
        invariant PageLoop(Archive(db.writes, db.sync), handle, turns[i..], completedAt)
                  == PageLoop(Archive(old(db.writes), old(db.sync)), start, turns, completedAt)
      {
        assert turns[i..][1..] == turns[i + 1..];
        match turns[i] {
          case BudgetRefused =>
            db.sync := SetRunState(db.sync, handle.run, RunFailed);
            return Incomplete(handle.run);
          case SourceUnavailable =>
            db.sync := SetRunState(db.sync, handle.run, RunFailed);
            return Incomplete(handle.run);
          case BudgetFailed =>
            db.sync := SetRunState(db.sync, handle.run, RunFailed);
            return Errored(handle.run);
          case Unnormalizable =>
            db.sync := SetRunState(db.sync, handle.run, RunFailed);
            return Errored(handle.run);
          case Delivered(page, at) =>
            StageOnePage(handle, page, at);
            if page.next.None? {
              var ok := Complete(handle.(checkpoint := None), completedAt);
              return if ok then SnapshotCompleted(handle.run, handle.snapshot) else RunUnavailable;
            }
            handle := handle.(checkpoint := page.next);
        }
        i := i + 1;
      }
      outcome := Crashed;
    }
  }
}
