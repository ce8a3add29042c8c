/** Bounded incremental scans: observation only, stopped by page and request caps, gated by the gap flag. */
module Incremental {
  import opened Common
  import opened ArchiveTables
  import opened Snapshots

  // ---------------------------------------------------------------- transactions

  function CreateScan(s: SyncTables, account: Uuid, run: Uuid): SyncTables
  {
    s.(runs := s.runs[run := RunRow(account, Incremental, Running, None, NewStatistics())])
  }

  function ObservedRow(bookmarks: Bookmarks, key: BookmarkKey, run: Uuid, at: Instant): Bookmark
  {
    if key in bookmarks then
      bookmarks[key].(lastSavedAt := at, removedAt := None, removedSnapshot := None, lastIncremental := Some(run))
    else Bookmark(at, at, None, None, None, None, Some(run))
  }

  /** `upsert_observed_bookmarks`: every seen post becomes active; nothing else is touched. */
  function UpsertObserved(bookmarks: Bookmarks, account: Uuid, run: Uuid, posts: set<PostId>, at: Instant): Bookmarks
  {
    bookmarks + map k | k in KeysOf(account, posts) :: ObservedRow(bookmarks, k, run, at)
  }

  function ObservePage(s: SyncTables, account: Uuid, run: Uuid, page: Page, at: Instant): SyncTables
  {
    s.(posts := s.posts + PostsOf(page), bookmarks := UpsertObserved(s.bookmarks, account, run, PostsOf(page), at))
  }

  /** The watermark moves; the gap flag is left as it is. */
  function CompleteScan(s: SyncTables, account: Uuid, run: Uuid, watermark: Option<PostId>): SyncTables
  {
    SetRunState(s, run, Completed).(incremental := s.incremental[account := IncrementalOf(s, account).(watermark := watermark)])
  }

  /** The gap flag rises; the watermark is left as it is. */
  function MarkGap(s: SyncTables, account: Uuid, run: Uuid): SyncTables
  {
    SetRunState(s, run, RunFailed).(incremental := s.incremental[account := IncrementalOf(s, account).(requiresFull := true)])
  }

  function StopScan(s: SyncTables, account: Uuid, run: Uuid): SyncTables
  {
    SetRunState(s, run, RunFailed).(incremental := s.incremental[account := IncrementalOf(s, account)])
  }

  // ---------------------------------------------------------------- the scan loop

  datatype ScanTurn = ScanBudgetExhausted
                    | ScanBudgetFailed
                    | ScanUnavailable
                    | ScanUnnormalizable
                    | ScanDelivered(page: Page, at: Instant)

  datatype ScanOutcome = ScanRefused
                       | ScanCompleted(run: Uuid, watermark: Option<PostId>)
                       | RequiresFullSnapshot(run: Uuid)
                       | ScanIncomplete(run: Uuid)
                       | ScanErrored(run: Uuid)

  ghost predicate ValidTurns(turnAt: nat -> ScanTurn) { forall k: nat :: turnAt(k).ScanDelivered? ==> ValidPage(turnAt(k).page) }

  predicate Reaches(s: SyncTables, account: Uuid, watermark: Option<PostId>, page: Page)
  {
    var prior := IncrementalOf(s, account).watermark;
    (prior.Some? && prior.value in page.items) || watermark.None?
  }

  function Newer(newest: Option<PostId>, page: Page): Option<PostId>
    requires ValidPage(page)
  {
    if newest.None? then Some(page.items[0]) else newest
  }

  /** How a scan ends after a page that was delivered, if it does. */
  function PageEnd(s: SyncTables, account: Uuid, run: Uuid, watermark: Option<PostId>, page: Page, at: Instant, newest: Option<PostId>,
                   requests: nat): Option<(SyncTables, ScanOutcome, nat)>
    requires ValidPage(page)
  {
    var seen := ObservePage(s, account, run, page, at);
    if Reaches(s, account, watermark, page) then
      Some((CompleteScan(seen, account, run, Newer(newest, page)), ScanCompleted(run, Newer(newest, page)), requests + 1))
    else if page.next.None? then Some((SetRunState(seen, run, RunFailed), ScanErrored(run), requests + 1))
    else None
  }

  /** How a scan ends at the given turn, if it does. */
  function TurnEnd(s: SyncTables, account: Uuid, run: Uuid, pageCap: nat, requestCap: nat, watermark: Option<PostId>, turn: ScanTurn,
                   newest: Option<PostId>, requests: nat): (end: Option<(SyncTables, ScanOutcome, nat)>)
    requires turn.ScanDelivered? ==> ValidPage(turn.page)
    ensures end.None? ==> requests < pageCap && requests < requestCap && turn.ScanDelivered?
  {
    if requests >= pageCap then Some((MarkGap(s, account, run), RequiresFullSnapshot(run), requests))
    else if requests >= requestCap then Some((StopScan(s, account, run), ScanIncomplete(run), requests))
    else match turn
      case ScanBudgetExhausted => Some((StopScan(s, account, run), ScanIncomplete(run), requests))
      case ScanBudgetFailed => Some((SetRunState(s, run, RunFailed), ScanErrored(run), requests))
      case ScanUnavailable => Some((SetRunState(s, run, RunFailed), ScanErrored(run), requests + 1))
      case ScanUnnormalizable => Some((s, ScanErrored(run), requests + 1))
      case ScanDelivered(page, at) => PageEnd(s, account, run, watermark, page, at, newest, requests)
  }

  /** The scan loop after `requests` pages; `turnAt(k)` is what the k-th request meets. */
  ghost function ScanLoop(s: SyncTables, account: Uuid, run: Uuid, pageCap: nat, requestCap: nat, watermark: Option<PostId>,
                          turnAt: nat -> ScanTurn, newest: Option<PostId>, requests: nat): (SyncTables, ScanOutcome, nat)
    requires ValidTurns(turnAt)
    decreases pageCap - requests
  {
    var turn := turnAt(requests);
    var end := TurnEnd(s, account, run, pageCap, requestCap, watermark, turn, newest, requests);
    if end.Some? then end.value
    else ScanLoop(ObservePage(s, account, run, turn.page, turn.at), account, run, pageCap, requestCap, watermark, turnAt,
                  Newer(newest, turn.page), requests + 1)
  }

  /** A whole scan: refused behind the flag, otherwise a new run and the loop. */
  ghost function ScanCall(s: SyncTables, account: Uuid, run: Uuid, pageCap: nat, requestCap: nat, turnAt: nat -> ScanTurn): (SyncTables, ScanOutcome, nat)
    requires ValidTurns(turnAt)
  {
    if IncrementalOf(s, account).requiresFull then (s, ScanRefused, 0)
    else ScanLoop(CreateScan(s, account, run), account, run, pageCap, requestCap, IncrementalOf(s, account).watermark, turnAt, None, 0)
  }

  /** No scan transaction can turn an active bookmark into a removed one. */
  ghost predicate OnlyObserves(before: Bookmarks, after: Bookmarks)
  {
    && before.Keys <= after.Keys
    && (forall k | k in after && after[k].removedAt.Some? :: k in before && before[k].removedAt == after[k].removedAt)
  }

  lemma OnlyObservesComposes(a: Bookmarks, b: Bookmarks, c: Bookmarks)
    requires OnlyObserves(a, b) && OnlyObserves(b, c)
    ensures OnlyObserves(a, c)
  {
  }

  lemma ObservationOnlyObserves(s: SyncTables, account: Uuid, run: Uuid, page: Page, at: Instant)
    ensures OnlyObserves(s.bookmarks, ObservePage(s, account, run, page, at).bookmarks)
    ensures ObservePage(s, account, run, page, at).incremental == s.incremental
  {
  }

  /**
   A page observed: every post on it has an active row, last seen now and last touched by this run, with its first
   sighting kept or made now; the row's write evidence stays, and every other row, of this or another account, too.
   */
  lemma ObservationStores(s: SyncTables, account: Uuid, run: Uuid, page: Page, at: Instant, k: BookmarkKey)
    ensures var t := ObservePage(s, account, run, page, at);
            && t.(posts := s.posts, bookmarks := s.bookmarks) == s && (forall p :: p in t.posts <==> p in s.posts || p in page.items)
            && (k.account == account && k.post in page.items ==>
                  && k in t.bookmarks
                  && var row := t.bookmarks[k];
                  && row.removedAt == None && row.removedSnapshot == None && row.lastSavedAt == at && row.lastIncremental == Some(run)
                  && (k in s.bookmarks ==>
                        && row.firstSavedAt == s.bookmarks[k].firstSavedAt && row.removedOperation == s.bookmarks[k].removedOperation
                        && row.lastWrite == s.bookmarks[k].lastWrite)
                  && (k !in s.bookmarks ==> row.firstSavedAt == at && row.removedOperation == None && row.lastWrite == None))
            && (k.account != account || k.post !in page.items ==>
                  (k in t.bookmarks <==> k in s.bookmarks) && (k in s.bookmarks ==> t.bookmarks[k] == s.bookmarks[k]))
  {
    if k.account == account && k.post in page.items {
      assert k == BookmarkKey(account, k.post) && k.post in PostsOf(page);
      assert k in KeysOf(account, PostsOf(page));
    }
  }

  /** Completion moves the watermark, a gap raises the flag, every other outcome leaves both, and so do other accounts. */
  function StateAfter(state: IncrementalState, outcome: ScanOutcome): IncrementalState
  {
    match outcome
    case ScanCompleted(_, watermark) => state.(watermark := watermark)
    case RequiresFullSnapshot(_) => state.(requiresFull := true)
    case _ => state
  }

  ghost predicate StatesAfter(before: SyncTables, after: SyncTables, account: Uuid, outcome: ScanOutcome)
  {
    forall other ::
      IncrementalOf(after, other)
      == if other == account then StateAfter(IncrementalOf(before, account), outcome) else IncrementalOf(before, other)
  }

  lemma ClosingStates(before: SyncTables, s: SyncTables, account: Uuid, run: Uuid, watermark: Option<PostId>)
    requires s.incremental == before.incremental
    ensures StatesAfter(before, MarkGap(s, account, run), account, RequiresFullSnapshot(run))
    ensures StatesAfter(before, StopScan(s, account, run), account, ScanIncomplete(run))
    ensures StatesAfter(before, SetRunState(s, run, RunFailed), account, ScanErrored(run))
    ensures StatesAfter(before, s, account, ScanErrored(run))
    ensures StatesAfter(before, CompleteScan(s, account, run, watermark), account, ScanCompleted(run, watermark))
  {
  }

  class IncrementalScanService {
    const db: Database
    const pageCap: nat
    const requestCap: nat

    constructor (db: Database, pageCap: nat, requestCap: nat)
      ensures this.db == db && this.pageCap == pageCap && this.requestCap == requestCap
    {
      this.db := db;
      this.pageCap := pageCap;
      this.requestCap := requestCap;
    }

    method Observe(account: Uuid, run: Uuid, page: Page, at: Instant)
      modifies db`sync
      ensures db.sync == ObservePage(old(db.sync), account, run, page, at)
    {
      var before := db.sync.bookmarks;
      var rows := before;
      ghost var done: set<BookmarkKey> := {};
      for i := 0 to |page.items|
        invariant done == set j | 0 <= j < i :: BookmarkKey(account, page.items[j])
        invariant rows.Keys == before.Keys + done
        invariant forall k | k in rows :: rows[k] == if k in done then ObservedRow(before, k, run, at) else before[k]
      {
        var key := BookmarkKey(account, page.items[i]);
        var row := Bookmark(at, at, None, None, None, None, Some(run));
        if key in rows {
          row := rows[key].(lastSavedAt := at, removedAt := None, removedSnapshot := None, lastIncremental := Some(run));
        }
        rows := rows[key := row];
        done := done + {key};
      }
      assert done == KeysOf(account, PostsOf(page)) by {
        forall k | k in KeysOf(account, PostsOf(page)) ensures k in done {
          var j :| 0 <= j < |page.items| && page.items[j] == k.post;
        }
      }
      assert rows == UpsertObserved(before, account, run, PostsOf(page), at);
      db.sync := db.sync.(posts := db.sync.posts + PostsOf(page), bookmarks := rows);
    }

    /** The loop of one scan; the provider may go on forever, the caps still end it. */
    method ScanPages(account: Uuid, run: Uuid, watermark: Option<PostId>, turnAt: nat -> ScanTurn) returns (outcome: ScanOutcome, requests: nat)
      requires ValidTurns(turnAt)
      modifies db`sync
      ensures (db.sync, outcome, requests)
              == ScanLoop(old(db.sync), account, run, pageCap, requestCap, watermark, turnAt, None, 0)
    {
      requests := 0;
      var newest: Option<PostId> := None;
      var pages := 0;
      while true
        invariant pages == requests <= pageCap
        invariant ScanLoop(db.sync, account, run, pageCap, requestCap, watermark, turnAt, newest, requests)
                  == ScanLoop(old(db.sync), account, run, pageCap, requestCap, watermark, turnAt, None, 0)
        decreases pageCap - pages
      {
        if pages >= pageCap {
          db.sync := MarkGap(db.sync, account, run);
          return RequiresFullSnapshot(run), requests;
        }
        if requests >= requestCap {
          db.sync := StopScan(db.sync, account, run);
          return ScanIncomplete(run), requests;
        }
        var turn := turnAt(requests);
        if turn.ScanBudgetExhausted? {
          db.sync := StopScan(db.sync, account, run);
          return ScanIncomplete(run), requests;
        }
        if turn.ScanBudgetFailed? {
          db.sync := SetRunState(db.sync, run, RunFailed);
          return ScanErrored(run), requests;
        }
        requests := requests + 1;
        if turn.ScanUnavailable? {
          db.sync := SetRunState(db.sync, run, RunFailed);
          return ScanErrored(run), requests;
        }
        if turn.ScanUnnormalizable? {
          return ScanErrored(run), requests;
        }
        if newest.None? {
          newest := Some(turn.page.items[0]);
        }
        var reached := Reaches(db.sync, account, watermark, turn.page);
        Observe(account, run, turn.page, turn.at);
        pages := pages + 1;
        if reached {
          db.sync := CompleteScan(db.sync, account, run, newest);
          return ScanCompleted(run, newest), requests;
        }
        if turn.page.next.None? {
          db.sync := SetRunState(db.sync, run, RunFailed);
          return ScanErrored(run), requests;
        }
      }
    }

    /** One bounded scan. `turnAt(k)` is what the k-th request meets; `requests` counts the provider requests made. */
    method Run(account: Uuid, run: Uuid, turnAt: nat -> ScanTurn) returns (outcome: ScanOutcome, requests: nat)
      requires ValidTurns(turnAt)
      modifies db`sync
      ensures (db.sync, outcome, requests) == ScanCall(old(db.sync), account, run, pageCap, requestCap, turnAt)
      ensures outcome == ScanRefused <==> IncrementalOf(old(db.sync), account).requiresFull
      ensures outcome == ScanRefused ==> db.sync == old(db.sync)
      ensures requests <= Min(pageCap, requestCap)
      ensures MeansOutcome(old(db.sync), db.sync, account, pageCap, turnAt, outcome, requests)
    {
      var state := IncrementalOf(db.sync, account);
      ScanCallMeans(db.sync, account, run, pageCap, requestCap, turnAt);
      if state.requiresFull {
        return ScanRefused, 0;
      }
      db.sync := CreateScan(db.sync, account, run);
      outcome, requests := ScanPages(account, run, state.watermark, turnAt);
    }
  }

  /**
   What an outcome means: a completed scan stores the first identity of its first page, a gap was found after exactly
   the page cap, watermark and flag move only so, and no bookmark turned removed.
   */
  ghost predicate MeansOutcome(before: SyncTables, after: SyncTables, account: Uuid, pageCap: nat, turnAt: nat -> ScanTurn,
                               outcome: ScanOutcome, requests: nat)
  {
    && (outcome.ScanCompleted? ==>
          && requests >= 1 && turnAt(0).ScanDelivered? && turnAt(0).page.items != []
          && outcome.watermark == Some(turnAt(0).page.items[0]))
    && (outcome.RequiresFullSnapshot? ==> requests == pageCap)
    && StatesAfter(before, after, account, outcome)
    && OnlyObserves(before.bookmarks, after.bookmarks)
  }

  /** The first page's first identity is held from the first page on. */
  ghost predicate HoldsNewest(turnAt: nat -> ScanTurn, newest: Option<PostId>, requests: nat)
  {
    if requests == 0 then newest.None?
    else turnAt(0).ScanDelivered? && turnAt(0).page.items != [] && newest == Some(turnAt(0).page.items[0])
  }

  lemma ObservingKeepsStart(start: SyncTables, s: SyncTables, account: Uuid, run: Uuid, page: Page, at: Instant)
    requires s.incremental == start.incremental && OnlyObserves(start.bookmarks, s.bookmarks)
    ensures var seen := ObservePage(s, account, run, page, at);
            seen.incremental == start.incremental && OnlyObserves(start.bookmarks, seen.bookmarks)
  {
    ObservationOnlyObserves(s, account, run, page, at);
    OnlyObservesComposes(start.bookmarks, s.bookmarks, ObservePage(s, account, run, page, at).bookmarks);
  }

  lemma PageEndMeans(start: SyncTables, s: SyncTables, account: Uuid, run: Uuid, pageCap: nat, watermark: Option<PostId>,
                     turnAt: nat -> ScanTurn, page: Page, at: Instant, newest: Option<PostId>, requests: nat)
    requires ValidPage(page) && HoldsNewest(turnAt, newest, requests) && turnAt(requests) == ScanDelivered(page, at)
    requires s.incremental == start.incremental && OnlyObserves(start.bookmarks, s.bookmarks)
    ensures HoldsNewest(turnAt, Newer(newest, page), requests + 1)
    ensures var end := PageEnd(s, account, run, watermark, page, at, newest, requests);
            end.Some? ==>
              && end.value.1 != ScanRefused && end.value.2 == requests + 1
              && MeansOutcome(start, end.value.0, account, pageCap, turnAt, end.value.1, end.value.2)
  {
    var seen := ObservePage(s, account, run, page, at);
    ObservingKeepsStart(start, s, account, run, page, at);
    ClosingStates(start, seen, account, run, Newer(newest, page));
  }

  lemma TurnEndMeans(start: SyncTables, s: SyncTables, account: Uuid, run: Uuid, pageCap: nat, requestCap: nat,
                     watermark: Option<PostId>, turnAt: nat -> ScanTurn, newest: Option<PostId>, requests: nat)
    requires ValidTurns(turnAt) && requests <= Min(pageCap, requestCap) && HoldsNewest(turnAt, newest, requests)
    requires s.incremental == start.incremental && OnlyObserves(start.bookmarks, s.bookmarks)
    ensures var end := TurnEnd(s, account, run, pageCap, requestCap, watermark, turnAt(requests), newest, requests);
            end.Some? ==>
              && end.value.1 != ScanRefused && end.value.2 <= Min(pageCap, requestCap)
              && MeansOutcome(start, end.value.0, account, pageCap, turnAt, end.value.1, end.value.2)
  {
    if requests < pageCap && requests < requestCap && turnAt(requests).ScanDelivered? {
      PageEndMeans(start, s, account, run, pageCap, watermark, turnAt, turnAt(requests).page, turnAt(requests).at, newest, requests);
    } else {
      EarlyEndMeans(start, s, account, run, pageCap, requestCap, watermark, turnAt, newest, requests);
    }
  }

  /** Ends that observe no page. */
  lemma EarlyEndMeans(start: SyncTables, s: SyncTables, account: Uuid, run: Uuid, pageCap: nat, requestCap: nat,
                      watermark: Option<PostId>, turnAt: nat -> ScanTurn, newest: Option<PostId>, requests: nat)
    requires ValidTurns(turnAt) && requests <= Min(pageCap, requestCap)
    requires requests >= pageCap || requests >= requestCap || !turnAt(requests).ScanDelivered?
    requires s.incremental == start.incremental && OnlyObserves(start.bookmarks, s.bookmarks)
    ensures var end := TurnEnd(s, account, run, pageCap, requestCap, watermark, turnAt(requests), newest, requests);
            && end.Some? && end.value.1 != ScanRefused && end.value.2 <= Min(pageCap, requestCap)
            && MeansOutcome(start, end.value.0, account, pageCap, turnAt, end.value.1, end.value.2)
  {
    var end := TurnEnd(s, account, run, pageCap, requestCap, watermark, turnAt(requests), newest, requests);
    assert StatesAfter(start, end.value.0, account, end.value.1) by {
      ClosingStates(start, s, account, run, newest);
    }
    assert end.value.0.bookmarks == s.bookmarks;
  }

  lemma {:induction false} ScanLoopMeans(start: SyncTables, s: SyncTables, account: Uuid, run: Uuid, pageCap: nat, requestCap: nat,
                                         watermark: Option<PostId>, turnAt: nat -> ScanTurn, newest: Option<PostId>, requests: nat)
    requires ValidTurns(turnAt) && requests <= Min(pageCap, requestCap) && HoldsNewest(turnAt, newest, requests)
    requires s.incremental == start.incremental && OnlyObserves(start.bookmarks, s.bookmarks)
    ensures var (t, outcome, made) := ScanLoop(s, account, run, pageCap, requestCap, watermark, turnAt, newest, requests);
            && outcome != ScanRefused && made <= Min(pageCap, requestCap)
            && MeansOutcome(start, t, account, pageCap, turnAt, outcome, made)
    decreases pageCap - requests
  {
    TurnEndMeans(start, s, account, run, pageCap, requestCap, watermark, turnAt, newest, requests);
    var turn := turnAt(requests);
    if TurnEnd(s, account, run, pageCap, requestCap, watermark, turn, newest, requests).None? {
      PageEndMeans(start, s, account, run, pageCap, watermark, turnAt, turn.page, turn.at, newest, requests);
      ObservingKeepsStart(start, s, account, run, turn.page, turn.at);
      ScanLoopMeans(start, ObservePage(s, account, run, turn.page, turn.at), account, run, pageCap, requestCap, watermark, turnAt,
                    Newer(newest, turn.page), requests + 1);
    }
  }

  lemma ScanCallMeans(s: SyncTables, account: Uuid, run: Uuid, pageCap: nat, requestCap: nat, turnAt: nat -> ScanTurn)
    requires ValidTurns(turnAt)
    ensures var (t, outcome, made) := ScanCall(s, account, run, pageCap, requestCap, turnAt);
            && (outcome == ScanRefused <==> IncrementalOf(s, account).requiresFull) && made <= Min(pageCap, requestCap)
            && MeansOutcome(s, t, account, pageCap, turnAt, outcome, made)
  {
    if !IncrementalOf(s, account).requiresFull {
      ScanLoopMeans(s, CreateScan(s, account, run), account, run, pageCap, requestCap, IncrementalOf(s, account).watermark, turnAt, None, 0);
    }
  }
}
