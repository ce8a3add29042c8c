/**
 An operation id that outlives its removal, as a run: a confirmed remove, a snapshot that finds the bookmark again, and
 a snapshot that loses it. The bookmark then names its snapshot and, beside it, the operation of the older removal.
 */
module StaleEvidence {
  import opened Common
  import opened ArchiveTables
  import opened BudgetGate
  import opened Writeback
  import opened Snapshots
  import opened ArchiveProtocol
  import opened RemovalSafety
  import opened Refinement

  // ---------------------------------------------------------------- a one-page snapshot

  /** No runner is alive and every run and snapshot id is below the bound. */
  ghost predicate IdsBelow(p: Protocol, n: nat)
  {
    && p.runners == map[]
    && (forall x | x in p.sync.runs :: x < n) && (forall x | x in p.sync.snapshots :: x < n)
    && (forall x | x in p.sync.staged :: x < n) && (forall x | x in p.history.pages :: x < n)
  }

  /** No write-back call was ever made. */
  ghost predicate NoWrites(p: Protocol)
  {
    && p.writes.consents == map[] && p.writes.operations == map[] && p.writes.windows == map[]
    && p.callers == map[] && p.history.charged == map[]
  }

  /** The runner of snapshot `n` has staged its only page and is about to finish. */
  ghost predicate Staged(p: Protocol, q: Protocol, account: Uuid, n: nat, post: PostId, at: Instant)
  {
    var handle := RunHandle(n, n, account, None);
    && q.runners == map[0 := Runner(handle, Finishing)] && Finalizable(q.sync, handle)
    && StagedOf(q.sync, n) == map[post := at] && q.sync.bookmarks == p.sync.bookmarks && post in q.sync.posts
    && q.writes == p.writes && q.callers == p.callers && q.history.charged == p.history.charged
    && IdsBelow(q.(runners := map[]), n + 1)
  }

  lemma StageOne(p: Protocol, p1: Protocol, account: Uuid, n: nat, post: PostId, at: Instant)
    requires IdsBelow(p, n) && p1 == ApplySnapshot(p, OpenRun(0, account, n, n))
    ensures Staged(p, ApplyStage(p1, 0, Page([post], None), at), account, n, post, at)
  {
    assert StageItems(map[], Page([post], None), at) == map[post := at];
    assert post in PostsOf(Page([post], None));
  }

  lemma OpenAndStage(cfg: Config, p: Protocol, account: Uuid, n: nat, post: PostId, at: Instant) returns (steps: seq<Step>)
    requires ValidSetup(cfg) && IdsBelow(p, n)
    ensures Legal(cfg, p, steps) && Staged(p, Exec(cfg, p, steps), account, n, post, at)
  {
    var open, stage := Snap(OpenRun(0, account, n, n)), Snap(Stage(0, Page([post], None), at));
    var p1 := ApplySnapshot(p, OpenRun(0, account, n, n));
    LegalOne(cfg, p, open);
    LegalExtends(cfg, p, [open], stage);
    StageOne(p, p1, account, n, post, at);
    steps := [open] + [stage];
  }

  lemma CompletionKeepsKeys(s: SyncTables, handle: RunHandle, at: Instant)
    requires Finalizable(s, handle)
    ensures var t := CompleteRun(s, handle, at);
            && t.posts == s.posts && t.runs.Keys == s.runs.Keys && t.snapshots.Keys == s.snapshots.Keys && t.staged == s.staged
  {
  }

  lemma FinishOne(q: Protocol, account: Uuid, n: nat, at: Instant)
    requires q.runners == map[0 := Runner(RunHandle(n, n, account, None), Finishing)]
    requires Finalizable(q.sync, RunHandle(n, n, account, None)) && IdsBelow(q.(runners := map[]), n + 1)
    ensures var r := ApplyFinish(q, 0, at);
            && r.sync == CompleteRun(q.sync, RunHandle(n, n, account, None), at) && r.callers == q.callers && r.history == q.history
            && r.writes == SettleUncertain(q.writes, account, StagedOf(q.sync, n), at)
            && IdsBelow(r, n + 1)
  {
    CompletionKeepsKeys(q.sync, RunHandle(n, n, account, None), at);
  }

  lemma SettleKeepsNoWrites(w: WriteTables, account: Uuid, items: StagedItems, at: Instant)
    requires w.operations == map[]
    ensures SettleUncertain(w, account, items, at) == w
  {
  }

  /** A full snapshot of one page with one post reconciles the account's bookmarks against that post. */
  lemma OnePostSnapshot(cfg: Config, p: Protocol, account: Uuid, n: nat, post: PostId, at: Instant) returns (steps: seq<Step>)
    requires ValidSetup(cfg) && IdsBelow(p, n)
    ensures Legal(cfg, p, steps)
    ensures var q := Exec(cfg, p, steps);
            && q.sync.bookmarks == Reconciled(p.sync.bookmarks, account, map[post := at], n, at) && post in q.sync.posts
            && IdsBelow(q, n + 1) && (NoWrites(p) ==> NoWrites(q))
  {
    var first := OpenAndStage(cfg, p, account, n, post, at);
    var q := Exec(cfg, p, first);
    var handle := RunHandle(n, n, account, None);
    CompletionReconciles(q.sync, handle, at);
    CompletionKeepsKeys(q.sync, handle, at);
    FinishOne(q, account, n, at);
    if NoWrites(p) {
      SettleKeepsNoWrites(q.writes, account, StagedOf(q.sync, n), at);
    }
    LegalExtends(cfg, p, first, Snap(Finish(0, at)));
    steps := first + [Snap(Finish(0, at))];
  }

  // ---------------------------------------------------------------- a confirmed remove

  function Allowed(request: Request): Grants
  {
    Grants(map[request.account := Account(request.user, true)], map[request.account := REQUIRED_SCOPES],
           map[request.account := Authorization(true, REQUIRED_SCOPES)])
  }

  /** With grants and consent in place, removing an active bookmark is admitted, and a confirmed answer marks it. */
  lemma AdmittedRemove(w: WriteTables, s: SyncTables, cfg: WriteConfig, id: Uuid, request: Request, now: Instant)
    requires ValidConfig(cfg) && w.grants == Allowed(request) && ConsentUsable(w, request, Remove, now) && id !in w.operations
    requires !KeyTaken(w, request.account, Sha256(request.key)) && Fits(w.windows, WriteWindow(cfg, request.account, now), cfg.cap, WRITE_COST)
    requires var k := BookmarkKey(request.account, request.post); k in s.bookmarks && s.bookmarks[k].removedAt.None? && request.post in s.posts
    ensures var k := BookmarkKey(request.account, request.post);
            var live := LiveCall(w, s, cfg, id, request, Remove, now, now, ProviderConfirmed);
            && live.sync == s.(bookmarks := s.bookmarks[k := s.bookmarks[k].(removedAt := Some(now), removedSnapshot := None, removedOperation := Some(id))])
            && id in live.writes.operations
  {
    ClaimKeepsVerdict(w, s, cfg, id, request, Remove, Live, now);
    assert EvaluateLocal(w, s, cfg, request, Remove, now) == Admitted;
  }

  lemma ConfirmedRemove(cfg: Config, p: Protocol, request: Request, now: Instant) returns (steps: seq<Step>)
    requires ValidSetup(cfg) && cfg.write.cap >= WRITE_COST && ValidRequest(request)
    requires NoWrites(p)
    requires var k := BookmarkKey(request.account, request.post); k in p.sync.bookmarks && p.sync.bookmarks[k].removedAt.None? && request.post in p.sync.posts
    ensures Legal(cfg, p, steps)
    ensures var q := Exec(cfg, p, steps);
            var k := BookmarkKey(request.account, request.post);
            && q.sync == p.sync.(bookmarks := p.sync.bookmarks[k :=
                 p.sync.bookmarks[k].(removedAt := Some(now), removedSnapshot := None, removedOperation := Some(0))])
            && q.runners == p.runners && q.history.pages == p.history.pages
  {
    var grant, consent := Write(ChangeGrants(Allowed(request))), Write(RecordConsent(request.consent, ConsentFor(request, now)));
    var p1 := Apply(cfg, p, grant);
    LegalOne(cfg, p, grant);
    LegalExtends(cfg, p, [grant], consent);
    var p2 := Apply(cfg, p1, consent);
    AdmittedRemove(p2.writes, p2.sync, cfg.write, 0, request, now);
    var call := LiveCallIsRun(cfg, p2, 0, 0, request, Remove, now, now, ProviderConfirmed);
    LegalConcat(cfg, p, [grant] + [consent], call);
    steps := [grant] + [consent] + call;
  }

  function ConsentFor(request: Request, now: Instant): Consent
  {
    Consent(request.user, request.account, Remove, request.post, now + 1, None)
  }

  // ---------------------------------------------------------------- the run

  lemma ReconciledStays(bookmarks: Bookmarks, account: Uuid, post: PostId, other: PostId, snapshot: Uuid, at: Instant)
    requires post != other
    ensures var k := BookmarkKey(account, post);
            var found := Reconciled(bookmarks, account, map[post := at], snapshot, at);
            var lost := Reconciled(bookmarks, account, map[other := at], snapshot, at);
            && k in found && found[k].removedAt.None?
            && (k in bookmarks ==> found[k].removedOperation == bookmarks[k].removedOperation)
            && (k in bookmarks && bookmarks[k].removedAt.None? ==>
                  k in lost && Mark(lost[k]) == (Some(at), Some(snapshot), bookmarks[k].removedOperation))
  {
    var k := BookmarkKey(account, post);
    assert k in KeysOf(account, (map[post := at]).Keys);
    ReconciledRow(bookmarks, account, map[post := at], snapshot, at, k);
    if k in bookmarks {
      assert k in UpsertActive(bookmarks, account, map[other := at]);
      ReconciledRow(bookmarks, account, map[other := at], snapshot, at, k);
    }
  }

  /**
   A legal run from an empty archive that ends with both ids set: the bookmark is found, removed by operation 0, found
   again by a second snapshot and lost by a third, and it names that third snapshot and the operation.
   */
  lemma StaleOperationRun(cfg: Config, p: Protocol, request: Request, other: PostId, now: Instant) returns (steps: seq<Step>)
    requires ValidSetup(cfg) && cfg.write.cap >= WRITE_COST && ValidRequest(request) && Initial(p) && other != request.post
    ensures Legal(cfg, p, steps)
    ensures var k := BookmarkKey(request.account, request.post);
            var t := Exec(cfg, p, steps).sync;
            RemovedIn(t, k) && t.bookmarks[k].removedSnapshot == Some(3) && t.bookmarks[k].removedOperation == Some(0)
  {
    var found := FoundThenRemoved(cfg, p, request, other, now);
    var p2 := Exec(cfg, p, found);
    var rest := FoundThenLost(cfg, p2, request.account, request.post, other, now);
    LegalConcat(cfg, p, found, rest);
    steps := found + rest;
  }

  lemma FoundThenRemoved(cfg: Config, p: Protocol, request: Request, other: PostId, now: Instant) returns (steps: seq<Step>)
    requires ValidSetup(cfg) && cfg.write.cap >= WRITE_COST && ValidRequest(request) && Initial(p) && other != request.post
    ensures Legal(cfg, p, steps)
    ensures var k := BookmarkKey(request.account, request.post);
            var q := Exec(cfg, p, steps);
            IdsBelow(q, 2) && k in q.sync.bookmarks && q.sync.bookmarks[k].removedOperation == Some(0)
  {
    var found := OnePostSnapshot(cfg, p, request.account, 1, request.post, now);
    var p1 := Exec(cfg, p, found);
    ReconciledStays(p.sync.bookmarks, request.account, request.post, other, 1, now);
    var removed := ConfirmedRemove(cfg, p1, request, now);
    LegalConcat(cfg, p, found, removed);
    steps := found + removed;
  }

  lemma FoundThenLost(cfg: Config, p: Protocol, account: Uuid, post: PostId, other: PostId, now: Instant) returns (steps: seq<Step>)
    requires ValidSetup(cfg) && IdsBelow(p, 2) && post != other
    requires var k := BookmarkKey(account, post); k in p.sync.bookmarks && p.sync.bookmarks[k].removedOperation == Some(0)
    ensures Legal(cfg, p, steps)
    ensures var k := BookmarkKey(account, post);
            var t := Exec(cfg, p, steps).sync;
            k in t.bookmarks && Mark(t.bookmarks[k]) == (Some(now), Some(3), Some(0))
  {
    var again := OnePostSnapshot(cfg, p, account, 2, post, now);
    var q := Exec(cfg, p, again);
    ReconciledStays(p.sync.bookmarks, account, post, other, 2, now);
    var lost := OnePostSnapshot(cfg, q, account, 3, other, now);
    ReconciledStays(q.sync.bookmarks, account, post, other, 3, now);
    LegalConcat(cfg, p, again, lost);
    steps := again + lost;
  }
}
