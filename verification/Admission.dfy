/**
 When a write-back call is admitted, what it is told otherwise, and what it leaves behind: each verdict, retry answer
 and settlement with the exact condition on the rows a maintainer could look up beforehand.
 */
module Admission {
  import opened Common
  import opened ArchiveTables
  import opened BudgetGate
  import opened Writeback

  // ---------------------------------------------------------------- the tests, in the order they are made

  predicate OwnsAccount(w: WriteTables, request: Request)
  {
    request.account in w.grants.accounts && w.grants.accounts[request.account].user == request.user
  }

  predicate IsConnected(w: WriteTables, request: Request)
  {
    request.account in w.grants.accounts && w.grants.accounts[request.account].connected
  }

  predicate HasCredentialAndAuthorization(w: WriteTables, request: Request)
  {
    && request.account in w.grants.credentialScopes
    && request.account in w.grants.authorizations && w.grants.authorizations[request.account].active
  }

  /** The five scopes a write needs, written out. */
  predicate GrantsAll(scopes: set<string>)
  {
    && "users.read" in scopes && "tweet.read" in scopes && "bookmark.read" in scopes
    && "offline.access" in scopes && "bookmark.write" in scopes
  }

  predicate ScopesSuffice(w: WriteTables, request: Request)
    requires HasCredentialAndAuthorization(w, request)
  {
    GrantsAll(w.grants.credentialScopes[request.account]) && GrantsAll(w.grants.authorizations[request.account].scopes)
  }

  predicate ConsentMatches(w: WriteTables, request: Request, action: Action, now: Instant)
  {
    && request.consent in w.consents
    && var row := w.consents[request.consent];
    && row.user == request.user && row.account == request.account && row.action == action && row.post == request.post
    && row.consumedAt == None && now < row.expiresAt
  }

  /** Since when the bookmark is already as requested, if it is. */
  function AsRequestedSince(s: SyncTables, request: Request, action: Action): Option<Instant>
  {
    var k := BookmarkKey(request.account, request.post);
    if k !in s.bookmarks then None
    else match action
      case Add => if s.bookmarks[k].removedAt.Some? then None else Some(s.bookmarks[k].lastSavedAt)
      case Remove => s.bookmarks[k].removedAt
  }

  /** One more write fits into the window that contains the instant. */
  predicate BudgetLeft(w: WriteTables, cfg: WriteConfig, request: Request, at: Instant)
    requires ValidConfig(cfg)
  {
    forall start | start % cfg.windowSeconds == 0 && start <= at < start + cfg.windowSeconds ::
      var key := WindowKey(request.account, BookmarkWriteClass, start);
      (if key in w.windows then w.windows[key] else 0) + 1 <= cfg.cap
  }

  lemma BudgetLeftIsFit(w: WriteTables, cfg: WriteConfig, request: Request, at: Instant)
    requires ValidConfig(cfg)
    ensures BudgetLeft(w, cfg, request, at) <==> Fits(w.windows, WriteWindow(cfg, request.account, at), cfg.cap, WRITE_COST)
  {
    var window := WindowStartFor(at, cfg.windowSeconds);
    forall start | start % cfg.windowSeconds == 0 && start <= at < start + cfg.windowSeconds ensures start == window {
      OneWindowHolds(start, window, at, cfg.windowSeconds);
    }
  }

  lemma OneWindowHolds(a: Instant, b: Instant, at: Instant, d: int)
    requires 1 <= d && a % d == 0 && b % d == 0 && a <= at < a + d && b <= at < b + d
    ensures a == b
  {
    assert a == a / d * d && b == b / d * d;
    if a / d < b / d {
      MultiplesAreApart(a / d, b / d, d);
    } else if b / d < a / d {
      MultiplesAreApart(b / d, a / d, d);
    }
  }

  /** All tests before the bookmark and the budget are passed. */
  predicate MayWrite(w: WriteTables, request: Request, action: Action, now: Instant)
  {
    && OwnsAccount(w, request) && IsConnected(w, request)
    && HasCredentialAndAuthorization(w, request) && ScopesSuffice(w, request)
    && ConsentMatches(w, request, action, now)
  }

  // ---------------------------------------------------------------- the verdict

  /** Each refusal class is given exactly when its test is the first to fail. */
  lemma RefusalsAreExact(w: WriteTables, s: SyncTables, cfg: WriteConfig, request: Request, action: Action, now: Instant)
    requires ValidConfig(cfg)
    ensures var verdict := EvaluateLocal(w, s, cfg, request, action, now);
            && (verdict == Rejected(OwnershipMismatch) <==> !OwnsAccount(w, request))
            && (verdict == Rejected(ConnectionInactive) <==> OwnsAccount(w, request) && !IsConnected(w, request))
            && (verdict == Rejected(WriteAuthorizationRequired) <==>
                  OwnsAccount(w, request) && IsConnected(w, request) && !HasCredentialAndAuthorization(w, request))
            && (verdict == Rejected(WriteScopeRequired) <==>
                  && OwnsAccount(w, request) && IsConnected(w, request)
                  && HasCredentialAndAuthorization(w, request) && !ScopesSuffice(w, request))
            && (verdict == Rejected(ConsentRequired) <==>
                  && OwnsAccount(w, request) && IsConnected(w, request)
                  && HasCredentialAndAuthorization(w, request) && ScopesSuffice(w, request)
                  && !ConsentMatches(w, request, action, now))
  {
  }

  /**
   A call is admitted exactly when it may write, the bookmark is not yet as requested and the budget has room; it is
   satisfied, with that instant, exactly when it may write and the bookmark is as requested; and the budget refuses it
   exactly when only room is missing.
   */
  lemma AdmissionIsExact(w: WriteTables, s: SyncTables, cfg: WriteConfig, request: Request, action: Action, now: Instant)
    requires ValidConfig(cfg)
    ensures var verdict := EvaluateLocal(w, s, cfg, request, action, now);
            var since := AsRequestedSince(s, request, action);
            && (verdict == Admitted <==> MayWrite(w, request, action, now) && since == None && BudgetLeft(w, cfg, request, now))
            && (forall at :: verdict == Satisfied(at) <==> MayWrite(w, request, action, now) && since == Some(at))
            && (verdict == Rejected(BudgetExhausted) <==>
                  MayWrite(w, request, action, now) && since == None && !BudgetLeft(w, cfg, request, now))
  {
    BudgetLeftIsFit(w, cfg, request, now);
  }

  /** A live call on an unused key contacts the provider exactly when it is admissible, whatever the provider answers. */
  lemma ContactsExactlyWhenAdmissible(w: WriteTables, s: SyncTables, cfg: WriteConfig, id: Uuid, request: Request, action: Action, now: Instant,
                                      answer: ProviderAnswer)
    requires ValidConfig(cfg) && id !in w.operations && !KeyTaken(w, request.account, Sha256(request.key))
    ensures LiveCall(w, s, cfg, id, request, action, now, now, answer).contacted <==>
            && MayWrite(w, request, action, now) && AsRequestedSince(s, request, action) == None
            && BudgetLeft(w, cfg, request, now)
  {
    AdmissionIsExact(w, s, cfg, request, action, now);
    ClaimKeepsVerdict(w, s, cfg, id, request, action, Live, now);
    if EvaluateLocal(w, s, cfg, request, action, now) == Admitted {
      SubmissionContacts(ClaimOperation(w, id, request, action, Live), s, cfg, id, request, action, now, answer);
    }
  }

  // ---------------------------------------------------------------- requests, claims and retries

  /** A request is refused unread exactly when its post is not 1 to 19 digits or its key not 1 to 256 bytes. */
  lemma RequestsAreRefusedExactly(request: Request)
    ensures !ValidRequest(request) <==>
            || request.post == "" || |request.post| >= 20 || request.key == "" || |request.key| >= 257
            || exists i :: 0 <= i < |request.post| && !(request.post[i] in "0123456789")
  {
  }

  /** Two requests have one fingerprint exactly when they agree in everything but the key. */
  lemma FingerprintsAgree(a: Request, b: Request, action: Action, other: Action, mode: Mode, otherMode: Mode)
    ensures FingerprintOf(a, action, mode) == FingerprintOf(b, other, otherMode) <==>
            a.(key := b.key) == b && action == other && mode == otherMode
  {
  }

  /** A claim on a free key stores one received operation with the request's own columns, and nothing else changes. */
  lemma ClaimStores(w: WriteTables, id: Uuid, request: Request, action: Action, mode: Mode)
    requires id !in w.operations && !KeyTaken(w, request.account, Sha256(request.key))
    ensures var x := ClaimOperation(w, id, request, action, mode);
            && x.(operations := w.operations) == w && x.operations.Keys == w.operations.Keys + {id}
            && (forall o | o in w.operations :: x.operations[o] == w.operations[o])
            && var row := x.operations[id];
            && row.account == request.account && row.user == request.user && row.action == action && row.post == request.post
            && row.mode == mode && row.digest == Sha256(request.key) && row.status == Received
            && row.outcome == None && row.observedAt == None
            && (row.consent == Some(request.consent) <==> request.consent in w.consents)
            && (row.consent == None <==> request.consent !in w.consents)
  {
  }

  /** What an exact retry is told at once, status by status; `None` stands for waiting. */
  function ToldAtOnce(status: Status): Option<WriteStatus>
  {
    if status == Succeeded || status == ReconciledSucceeded then Some(WriteSucceeded)
    else if status == Uncertain then Some(WriteUncertain)
    else if status == ProjectionPending then Some(WriteProjectionPending)
    else if status == ReconciledNotCurrent then Some(WriteNotCurrent)
    else None
  }

  /**
   A caller whose key is taken: another request under the key is a conflict, an exact retry of a finished operation is
   told its status, and one of an operation still received, in flight, refused, failed or dry is polled.
   */
  lemma RetriesAreTold(id: Uuid, existing: Operation, request: Request, action: Action, statusAt: nat -> Option<Status>)
    ensures var result := LoserResult(id, existing, FingerprintOf(request, action, Live), statusAt);
            && (existing.fingerprint != FingerprintOf(request, action, Live) ==> result == IdempotencyConflict)
            && (existing.fingerprint == FingerprintOf(request, action, Live) ==>
                  match ToldAtOnce(existing.status)
                  case Some(told) => result == Finished(id, told)
                  case None =>
                    && existing.status in {Received, ProviderInFlight, Refused, Failed, DryRunRecorded}
                    && (|| (result == InProgress(id) && forall j: nat | j < MAX_POLLS :: statusAt(j).Some? ==> ToldAtOnce(statusAt(j).value).None?)
                        || exists n: nat :: ToldAtPoll(id, statusAt, n, result)))
  {
    PollsUntilReplayable(id, statusAt, 0);
    var polled := PollFrom(id, statusAt, 0);
    forall status: Status ensures StoredWriteStatus(status) == ToldAtOnce(status) {
    }
    if exists n: nat :: PollEndsAt(id, statusAt, 0, n, polled) {
      var n: nat :| PollEndsAt(id, statusAt, 0, n, polled);
      assert ToldAtPoll(id, statusAt, n, polled);
    }
    forall j: nat | j < MAX_POLLS && !Replayable(statusAt(j)) && statusAt(j).Some? ensures ToldAtOnce(statusAt(j).value).None? {
    }
  }

  /** The n-th poll is the first that reads a status a retry can be told. */
  ghost predicate ToldAtPoll(id: Uuid, statusAt: nat -> Option<Status>, n: nat, result: LiveResult)
  {
    && n < MAX_POLLS && statusAt(n).Some? && ToldAtOnce(statusAt(n).value).Some?
    && result == Finished(id, ToldAtOnce(statusAt(n).value).value)
    && forall j: nat | j < n :: statusAt(j).Some? ==> ToldAtOnce(statusAt(j).value).None?
  }

  // ---------------------------------------------------------------- what a settlement leaves

  /** A confirmed write can be projected: the post is archived and, for a remove, so is the bookmark. */
  predicate Projectable(s: SyncTables, account: Uuid, post: PostId, action: Action)
  {
    post in s.posts && (action == Remove ==> BookmarkKey(account, post) in s.bookmarks)
  }

  /** The operation ends by the provider's answer, and nothing but its own row changes. */
  lemma SettlesByAnswer(w: WriteTables, s: SyncTables, id: Uuid, account: Uuid, post: PostId, action: Action, answer: ProviderAnswer, at: Instant)
    requires id in w.operations && w.operations[id].status == ProviderInFlight
    ensures var x := SettleWrites(w, s, id, account, post, action, answer, at);
            && id in x.operations && x == w.(operations := w.operations[id := x.operations[id]])
            && var row := x.operations[id];
            && row.(status := ProviderInFlight, outcome := w.operations[id].outcome, observedAt := w.operations[id].observedAt) == w.operations[id]
            && (answer == ProviderConfirmed && Projectable(s, account, post, action) ==>
                  row.status == Succeeded && row.outcome == Some(Confirmed) && row.observedAt == Some(at))
            && (answer == ProviderConfirmed && !Projectable(s, account, post, action) ==>
                  row.status == ProjectionPending && row.outcome == Some(Confirmed) && row.observedAt == None)
            && (answer == ProviderUncertain ==> row.status == Uncertain && row.outcome == Some(UncertainOutcome) && row.observedAt == None)
            && (answer == ProviderFailed ==> row.status == Failed && row.outcome == Some(ProviderFailure) && row.observedAt == None)
  {
  }

  /** A confirmed add makes the bookmark active under its operation; a confirmed remove marks it; nothing else changes. */
  lemma ProjectsByAnswer(s: SyncTables, id: Uuid, account: Uuid, post: PostId, action: Action, answer: ProviderAnswer, at: Instant)
    ensures var t := SettleSync(s, id, account, post, action, answer, at);
            var k := BookmarkKey(account, post);
            && (answer != ProviderConfirmed || !Projectable(s, account, post, action) ==> t == s)
            && t.(bookmarks := s.bookmarks) == s
            && (forall x | x != k :: (x in t.bookmarks <==> x in s.bookmarks) && (x in s.bookmarks ==> t.bookmarks[x] == s.bookmarks[x]))
            && (answer == ProviderConfirmed && Projectable(s, account, post, action) ==>
                  && k in t.bookmarks
                  && var row := t.bookmarks[k];
                  && (k in s.bookmarks ==> row.firstSavedAt == s.bookmarks[k].firstSavedAt && row.lastIncremental == s.bookmarks[k].lastIncremental)
                  && (k !in s.bookmarks ==> row.firstSavedAt == at && row.lastIncremental == None)
                  && (action == Add ==>
                        && row.removedAt == None && row.removedSnapshot == None && row.removedOperation == None
                        && row.lastSavedAt == at && row.lastWrite == Some(id))
                  && (action == Remove ==>
                        && row.removedAt == Some(at) && row.removedSnapshot == None && row.removedOperation == Some(id)
                        && row.lastSavedAt == s.bookmarks[k].lastSavedAt && row.lastWrite == s.bookmarks[k].lastWrite))
  {
  }

  /** Consuming stamps exactly the consent it names and sets exactly a received operation in flight. */
  lemma ConsumesExactly(w: WriteTables, id: Uuid, request: Request, action: Action, now: Instant)
    requires ConsentMatches(w, request, action, now) && id in w.operations && w.operations[id].status == Received
    ensures ConsentUsable(w, request, action, now)
    ensures var x := ConsumeConsent(w, id, request, action, now);
            && x.consents == w.consents[request.consent := w.consents[request.consent].(consumedAt := Some(now))]
            && x.operations == w.operations[id := w.operations[id].(status := ProviderInFlight)]
            && x.windows == w.windows && x.grants == w.grants
  {
  }

  // ---------------------------------------------------------------- how whole calls end

  /** Only the claimed row was added, and it ended with this status, outcome and instant. */
  predicate EndsAs(w: WriteTables, x: WriteTables, id: Uuid, request: Request, action: Action, mode: Mode, status: Status,
                   outcome: Outcome, observedAt: Option<Instant>)
  {
    var claimed := ClaimOperation(w, id, request, action, mode);
    && id in claimed.operations
    && x == w.(operations := w.operations[id := claimed.operations[id].(status := status, outcome := Some(outcome), observedAt := observedAt)])
  }

  /** A call that is not admitted contacts nobody and leaves its own row alone: refused with the class, or satisfied since the instant. */
  lemma UnsubmittedCallsEnd(w: WriteTables, s: SyncTables, cfg: WriteConfig, id: Uuid, request: Request, action: Action, now: Instant,
                            reserveAt: Instant, answer: ProviderAnswer)
    requires ValidConfig(cfg) && id !in w.operations && !KeyTaken(w, request.account, Sha256(request.key))
    ensures var live := LiveCall(w, s, cfg, id, request, action, now, reserveAt, answer);
            match EvaluateLocal(w, s, cfg, request, action, now)
            case Rejected(refusal) =>
              && !live.contacted && live.sync == s && live.result == RefusedWith(refusal)
              && EndsAs(w, live.writes, id, request, action, Live, Refused, RefusedFor(refusal), None)
            case Satisfied(at) =>
              && !live.contacted && live.sync == s && live.result == Finished(id, WriteAlreadySatisfied)
              && EndsAs(w, live.writes, id, request, action, Live, Succeeded, AlreadySatisfied, Some(at))
            case Admitted => true
  {
    ClaimKeepsVerdict(w, s, cfg, id, request, action, Live, now);
  }

  /** A dry run records what it predicts, and since when the bookmark is as requested if it is. */
  lemma DryRunsEnd(w: WriteTables, s: SyncTables, cfg: WriteConfig, id: Uuid, request: Request, action: Action, now: Instant)
    requires ValidConfig(cfg) && id !in w.operations && !KeyTaken(w, request.account, Sha256(request.key))
    ensures var dry := DryRunCall(w, s, cfg, id, request, action, now);
            match EvaluateLocal(w, s, cfg, request, action, now)
            case Rejected(refusal) =>
              && dry.result == DryPredicted(WouldRefuse(refusal))
              && EndsAs(w, dry.writes, id, request, action, DryRun, DryRunRecorded, Predicted(WouldRefuse(refusal)), None)
            case Satisfied(at) =>
              && dry.result == DryPredicted(WouldAlreadySatisfy)
              && EndsAs(w, dry.writes, id, request, action, DryRun, DryRunRecorded, Predicted(WouldAlreadySatisfy), Some(at))
            case Admitted =>
              && dry.result == DryPredicted(WouldSubmit)
              && EndsAs(w, dry.writes, id, request, action, DryRun, DryRunRecorded, Predicted(WouldSubmit), None)
  {
    ClaimKeepsVerdict(w, s, cfg, id, request, action, DryRun, now);
  }

  /** What the caller of an admitted write is told. */
  function ToldAfter(id: Uuid, s: SyncTables, request: Request, action: Action, answer: ProviderAnswer): LiveResult
  {
    match answer
    case ProviderConfirmed => Finished(id, if Projectable(s, request.account, request.post, action) then WriteSucceeded else WriteProjectionPending)
    case ProviderUncertain => Finished(id, WriteUncertain)
    case ProviderFailed => ProviderError
  }

  /** What a confirmed, uncertain or failed answer leaves in the admitted operation's row. */
  predicate AnsweredRow(row: Operation, s: SyncTables, request: Request, action: Action, answer: ProviderAnswer, now: Instant)
  {
    match answer
    case ProviderConfirmed =>
      && row.outcome == Some(Confirmed)
      && (if Projectable(s, request.account, request.post, action) then row.status == Succeeded && row.observedAt == Some(now)
          else row.status == ProjectionPending && row.observedAt == None)
    case ProviderUncertain => row.status == Uncertain && row.outcome == Some(UncertainOutcome) && row.observedAt == None
    case ProviderFailed => row.status == Failed && row.outcome == Some(ProviderFailure) && row.observedAt == None
  }

  /**
   An admitted call: the provider's answer decides its result, its row and the bookmark; exactly one unit of the window is
   charged and exactly its consent stamped, whatever the answer.
   */
  lemma AdmittedCallsEnd(w: WriteTables, s: SyncTables, cfg: WriteConfig, id: Uuid, request: Request, action: Action, now: Instant,
                         answer: ProviderAnswer)
    requires ValidConfig(cfg) && id !in w.operations && !KeyTaken(w, request.account, Sha256(request.key))
    requires EvaluateLocal(w, s, cfg, request, action, now) == Admitted
    ensures var live := LiveCall(w, s, cfg, id, request, action, now, now, answer);
            var window := WriteWindow(cfg, request.account, now);
            && live.contacted && live.result == ToldAfter(id, s, request, action, answer)
            && live.sync == SettleSync(s, id, request.account, request.post, action, answer, now)
            && request.consent in w.consents
            && live.writes.consents == w.consents[request.consent := w.consents[request.consent].(consumedAt := Some(now))]
            && live.writes.windows == w.windows[window := Usage(w.windows, window) + 1]
            && live.writes.grants == w.grants
            && id in live.writes.operations && live.writes.operations == w.operations[id := live.writes.operations[id]]
            && AnsweredRow(live.writes.operations[id], s, request, action, answer, now)
  {
    ClaimKeepsVerdict(w, s, cfg, id, request, action, Live, now);
    var claimed := ClaimOperation(w, id, request, action, Live);
    SubmittedCallsEnd(claimed, s, cfg, id, request, action, now, answer);
  }

  lemma SubmittedCallsEnd(w: WriteTables, s: SyncTables, cfg: WriteConfig, id: Uuid, request: Request, action: Action, now: Instant,
                          answer: ProviderAnswer)
    requires ValidConfig(cfg) && id in w.operations && w.operations[id].status == Received
    requires EvaluateLocal(w, s, cfg, request, action, now) == Admitted
    ensures var live := SubmitCall(w, s, cfg, id, request, action, now, now, answer);
            var window := WriteWindow(cfg, request.account, now);
            && live.contacted && live.result == ToldAfter(id, s, request, action, answer)
            && live.sync == SettleSync(s, id, request.account, request.post, action, answer, now)
            && request.consent in w.consents
            && live.writes.consents == w.consents[request.consent := w.consents[request.consent].(consumedAt := Some(now))]
            && live.writes.windows == w.windows[window := Usage(w.windows, window) + 1]
            && live.writes.grants == w.grants
            && id in live.writes.operations && live.writes.operations == w.operations[id := live.writes.operations[id]]
            && AnsweredRow(live.writes.operations[id], s, request, action, answer, now)
  {
    AdmissionIsExact(w, s, cfg, request, action, now);
    var charged := w.(windows := Charge(w.windows, WriteWindow(cfg, request.account, now), cfg.cap, WRITE_COST));
    ConsumesExactly(charged, id, request, action, now);
    var inFlight := ConsumeConsent(charged, id, request, action, now);
    SettlesByAnswer(inFlight, s, id, request.account, request.post, action, answer, now);
    assert inFlight.operations[id := SettleWrites(inFlight, s, id, request.account, request.post, action, answer, now).operations[id]]
           == w.operations[id := SettleWrites(inFlight, s, id, request.account, request.post, action, answer, now).operations[id]];
  }
}
