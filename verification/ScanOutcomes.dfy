/**
 How an undisturbed incremental scan ends: by the first request that meets a cap, a failure, the stored watermark or the
 end of the list, and what it leaves in its run row and in the bookmarks.
 */
module ScanOutcomes {
  import opened Common
  import opened ArchiveTables
  import opened Snapshots
  import opened Incremental

  /** The page carries the stored watermark, or there is none to look for. */
  predicate Carries(prior: Option<PostId>, turn: ScanTurn)
  {
    turn.ScanDelivered? && (prior == None || prior.value in turn.page.items)
  }

  /** The request brings a page without the watermark that has a continuation. */
  predicate GoesOn(prior: Option<PostId>, turn: ScanTurn)
  {
    turn.ScanDelivered? && !Carries(prior, turn) && turn.page.next != None
  }

  ghost predicate GoesOnUntil(prior: Option<PostId>, turnAt: nat -> ScanTurn, n: nat)
  {
    forall i: nat | i < n :: GoesOn(prior, turnAt(i))
  }

  /** How a scan that met its end at request `n` answers, how many requests and pages it made, and its run's state. */
  datatype Ending = Ending(outcome: ScanOutcome, requests: nat, pages: nat, state: RunState)

  ghost predicate EndsWith(run: Uuid, pageCap: nat, requestCap: nat, prior: Option<PostId>, turnAt: nat -> ScanTurn, n: nat, e: Ending)
  {
    && n <= pageCap && n <= requestCap && GoesOnUntil(prior, turnAt, n)
    && if n == pageCap then e == Ending(RequiresFullSnapshot(run), n, n, RunFailed)
       else if n == requestCap then e == Ending(ScanIncomplete(run), n, n, RunFailed)
       else match turnAt(n)
         case ScanBudgetExhausted => e == Ending(ScanIncomplete(run), n, n, RunFailed)
         case ScanBudgetFailed => e == Ending(ScanErrored(run), n, n, RunFailed)
         case ScanUnavailable => e == Ending(ScanErrored(run), n + 1, n, RunFailed)
         case ScanUnnormalizable => e == Ending(ScanErrored(run), n + 1, n, Running)
         case ScanDelivered(page, _) =>
           if Carries(prior, turnAt(n)) then
             && turnAt(0).ScanDelivered? && turnAt(0).page.items != []
             && e == Ending(ScanCompleted(run, Some(turnAt(0).page.items[0])), n + 1, n + 1, Completed)
           else page.next == None && e == Ending(ScanErrored(run), n + 1, n + 1, RunFailed)
  }

  ghost predicate DeliveredUntil(turnAt: nat -> ScanTurn, n: nat)
  {
    forall i: nat | i < n :: turnAt(i).ScanDelivered?
  }

  /** The first `n` pages observed, in order. */
  ghost function ObservedThrough(s: SyncTables, account: Uuid, run: Uuid, turnAt: nat -> ScanTurn, n: nat): SyncTables
    requires DeliveredUntil(turnAt, n)
    decreases n
  {
    if n == 0 then s
    else ObservePage(ObservedThrough(s, account, run, turnAt, n - 1), account, run, turnAt(n - 1).page, turnAt(n - 1).at)
  }

  /** The scan's pages are observed and its run is in the ending's state; nothing else but the account's scan state moved. */
  ghost predicate LeavesBehind(s: SyncTables, t: SyncTables, account: Uuid, run: Uuid, turnAt: nat -> ScanTurn, e: Ending)
  {
    && DeliveredUntil(turnAt, e.pages)
    && var seen := ObservedThrough(s, account, run, turnAt, e.pages);
       t == seen.(runs := s.runs[run := RunRow(account, RunKind.Incremental, e.state, None, Statistics(0, 0, 0))], incremental := t.incremental)
  }

  lemma {:induction false} ObservingKeepsRuns(s: SyncTables, account: Uuid, run: Uuid, turnAt: nat -> ScanTurn, n: nat)
    requires DeliveredUntil(turnAt, n)
    ensures var seen := ObservedThrough(s, account, run, turnAt, n); seen.runs == s.runs && seen.incremental == s.incremental
    decreases n
  {
    if n > 0 {
      ObservingKeepsRuns(s, account, run, turnAt, n - 1);
    }
  }

  /** The run row the scan inserts does not matter to what it observes. */
  lemma {:induction false} ObservingIgnoresRuns(s: SyncTables, account: Uuid, run: Uuid, turnAt: nat -> ScanTurn, n: nat, runs: map<Uuid, RunRow>)
    requires DeliveredUntil(turnAt, n)
    ensures ObservedThrough(s.(runs := runs), account, run, turnAt, n) == ObservedThrough(s, account, run, turnAt, n).(runs := runs)
    decreases n
  {
    if n > 0 {
      ObservingIgnoresRuns(s, account, run, turnAt, n - 1, runs);
    }
  }

  /** Where the loop stands before request `n`. */
  ghost predicate Stands(start: SyncTables, s: SyncTables, account: Uuid, run: Uuid, turnAt: nat -> ScanTurn, newest: Option<PostId>, n: nat)
  {
    && DeliveredUntil(turnAt, n) && s == ObservedThrough(start, account, run, turnAt, n) && HoldsNewest(turnAt, newest, n)
  }

  /** A request that does not end the scan moves it on by one page. */
  lemma StandsOn(start: SyncTables, s: SyncTables, account: Uuid, run: Uuid, pageCap: nat, requestCap: nat, prior: Option<PostId>,
                 turnAt: nat -> ScanTurn, newest: Option<PostId>, n: nat)
    requires ValidTurns(turnAt) && GoesOnUntil(prior, turnAt, n) && prior == IncrementalOf(s, account).watermark
    requires Stands(start, s, account, run, turnAt, newest, n)
    requires TurnEnd(s, account, run, pageCap, requestCap, prior, turnAt(n), newest, n).None?
    ensures n < pageCap && n < requestCap && turnAt(n).ScanDelivered? && GoesOnUntil(prior, turnAt, n + 1)
    ensures Stands(start, ObservePage(s, account, run, turnAt(n).page, turnAt(n).at), account, run, turnAt, Newer(newest, turnAt(n).page), n + 1)
  {
  }

  lemma {:induction false} LoopEndsByItsTurn(start: SyncTables, s: SyncTables, account: Uuid, run: Uuid, pageCap: nat, requestCap: nat,
                                             prior: Option<PostId>, turnAt: nat -> ScanTurn, newest: Option<PostId>, requests: nat)
    returns (n: nat, e: Ending)
    requires ValidTurns(turnAt) && requests <= pageCap && requests <= requestCap && GoesOnUntil(prior, turnAt, requests)
    requires prior == IncrementalOf(start, account).watermark && run in start.runs && start.runs[run].state == Running
    requires Stands(start, s, account, run, turnAt, newest, requests)
    ensures EndsWith(run, pageCap, requestCap, prior, turnAt, n, e) && DeliveredUntil(turnAt, e.pages)
    ensures var (t, outcome, made) := ScanLoop(s, account, run, pageCap, requestCap, prior, turnAt, newest, requests);
            && outcome == e.outcome && made == e.requests
            && ClosedAs(ObservedThrough(start, account, run, turnAt, e.pages), t, run, e.state)
    decreases pageCap - requests
  {
    ObservingKeepsRuns(start, account, run, turnAt, requests);
    var turn := turnAt(requests);
    var end := TurnEnd(s, account, run, pageCap, requestCap, prior, turn, newest, requests);
    if end.Some? {
      n := requests;
      e := EndingAt(s, account, run, pageCap, requestCap, prior, turnAt, newest, requests);
    } else {
      StandsOn(start, s, account, run, pageCap, requestCap, prior, turnAt, newest, requests);
      n, e := LoopEndsByItsTurn(start, ObservePage(s, account, run, turn.page, turn.at), account, run, pageCap, requestCap, prior, turnAt,
                                Newer(newest, turn.page), requests + 1);
    }
  }

  ghost predicate ClosedAs(seen: SyncTables, t: SyncTables, run: Uuid, state: RunState)
  {
    run in seen.runs && t == seen.(runs := seen.runs[run := seen.runs[run].(state := state)], incremental := t.incremental)
  }

  /** The end at this request, in the tables the pages before it left. */
  lemma EndingAt(s: SyncTables, account: Uuid, run: Uuid, pageCap: nat, requestCap: nat, prior: Option<PostId>, turnAt: nat -> ScanTurn,
                 newest: Option<PostId>, n: nat) returns (e: Ending)
    requires ValidTurns(turnAt) && n <= pageCap && n <= requestCap && GoesOnUntil(prior, turnAt, n)
    requires prior == IncrementalOf(s, account).watermark && run in s.runs && s.runs[run].state == Running && HoldsNewest(turnAt, newest, n)
    requires TurnEnd(s, account, run, pageCap, requestCap, prior, turnAt(n), newest, n).Some?
    ensures EndsWith(run, pageCap, requestCap, prior, turnAt, n, e) && e.pages <= n + 1 && (e.pages == n + 1 ==> turnAt(n).ScanDelivered?)
    ensures n <= e.pages
    ensures var (t, outcome, made) := TurnEnd(s, account, run, pageCap, requestCap, prior, turnAt(n), newest, n).value;
            && outcome == e.outcome && made == e.requests
            && ClosedAs(if e.pages == n then s else ObservePage(s, account, run, turnAt(n).page, turnAt(n).at), t, run, e.state)
  {
    var (t, outcome, made) := TurnEnd(s, account, run, pageCap, requestCap, prior, turnAt(n), newest, n).value;
    var seen := n < pageCap && n < requestCap && turnAt(n).ScanDelivered?;
    e := Ending(outcome, made, if seen then n + 1 else n, t.runs[run].state);
  }

  /** A scan the flag lets through ends by its first ending request, and leaves its pages and its run row behind. */
  lemma ScanEndsByItsTurn(s: SyncTables, account: Uuid, run: Uuid, pageCap: nat, requestCap: nat, turnAt: nat -> ScanTurn) returns (n: nat, e: Ending)
    requires ValidTurns(turnAt) && !IncrementalOf(s, account).requiresFull
    ensures EndsWith(run, pageCap, requestCap, IncrementalOf(s, account).watermark, turnAt, n, e)
    ensures var (t, outcome, made) := ScanCall(s, account, run, pageCap, requestCap, turnAt);
            outcome == e.outcome && made == e.requests && LeavesBehind(s, t, account, run, turnAt, e)
  {
    var start := CreateScan(s, account, run);
    var prior := IncrementalOf(s, account).watermark;
    n, e := LoopEndsByItsTurn(start, start, account, run, pageCap, requestCap, prior, turnAt, None, 0);
    ObservingKeepsRuns(start, account, run, turnAt, e.pages);
    ObservingIgnoresRuns(s, account, run, turnAt, e.pages, start.runs);
  }

  /** Request `n`, within both caps and after pages that all go on, brings a page that carries the watermark. */
  ghost predicate FindsWatermark(pageCap: nat, requestCap: nat, prior: Option<PostId>, turnAt: nat -> ScanTurn, n: nat)
  {
    n < pageCap && n < requestCap && GoesOnUntil(prior, turnAt, n) && Carries(prior, turnAt(n))
  }

  /**
   A scan completes exactly when it was let through and, before either cap and any failure, one of its pages carries the
   stored watermark or there is none to look for.
   */
  lemma ScanCompletesExactly(s: SyncTables, account: Uuid, run: Uuid, pageCap: nat, requestCap: nat, turnAt: nat -> ScanTurn)
    requires ValidTurns(turnAt)
    ensures ScanCall(s, account, run, pageCap, requestCap, turnAt).1.ScanCompleted? <==>
            && !IncrementalOf(s, account).requiresFull
            && exists n: nat :: FindsWatermark(pageCap, requestCap, IncrementalOf(s, account).watermark, turnAt, n)
  {
    var prior := IncrementalOf(s, account).watermark;
    if !IncrementalOf(s, account).requiresFull {
      var n, e := ScanEndsByItsTurn(s, account, run, pageCap, requestCap, turnAt);
      if e.outcome.ScanCompleted? {
        assert FindsWatermark(pageCap, requestCap, prior, turnAt, n);
      } else if m: nat :| FindsWatermark(pageCap, requestCap, prior, turnAt, m) {
        FoundIsTheEnd(run, pageCap, requestCap, prior, turnAt, n, e, m);
      }
    }
  }

  lemma FoundIsTheEnd(run: Uuid, pageCap: nat, requestCap: nat, prior: Option<PostId>, turnAt: nat -> ScanTurn, n: nat, e: Ending, m: nat)
    requires EndsWith(run, pageCap, requestCap, prior, turnAt, n, e) && FindsWatermark(pageCap, requestCap, prior, turnAt, m)
    ensures m == n && e.outcome.ScanCompleted?
  {
    assert m < n ==> GoesOn(prior, turnAt(m));
    assert n < m ==> GoesOn(prior, turnAt(n));
  }
}
