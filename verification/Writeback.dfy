/**
 Bookmark write-back: the idempotency claim, local admission, budget reservation, consent consumption,
 the provider call and the terminal transition. Each function up to `Settle` is one committed statement
 or transaction; `DryRunCall` and `LiveCall` compose them without interference. The interleaved protocol
 is in module ArchiveProtocol.
 */
module Writeback {
  import opened Common
  import opened ArchiveTables
  import opened BudgetGate

  const REQUIRED_SCOPES: set<string> :=
    {"users.read", "tweet.read", "bookmark.read", "offline.access", "bookmark.write"}
  const MAX_KEY_BYTES := 256
  const MAX_POLLS := 500
  const WRITE_COST: nat := 1

  datatype WriteConfig = WriteConfig(cap: nat, windowSeconds: int)

  predicate ValidConfig(cfg: WriteConfig) { 1 <= cfg.windowSeconds }

  datatype Verdict = Admitted | Satisfied(observedAt: Instant) | Rejected(refusal: Refusal)

  datatype ProviderAnswer = ProviderConfirmed | ProviderUncertain | ProviderFailed

  /** The result classes of `BookmarkWriteStatus`. */
  datatype WriteStatus = WriteSucceeded | WriteAlreadySatisfied | WriteUncertain
                       | WriteProjectionPending | WriteNotCurrent

  datatype LiveResult = InvalidRequest
                      | IdempotencyConflict
                      | InProgress(operation: Uuid)
                      | Finished(operation: Uuid, status: WriteStatus)
                      | RefusedWith(refusal: Refusal)
                      | BudgetMisconfigured
                      | ProviderError

  datatype LiveRun = LiveRun(writes: WriteTables, sync: SyncTables, contacted: bool, result: LiveResult)

  datatype DryResult = DryInvalidRequest | DryConflict | DryInProgress | DryPredicted(prediction: Prediction)

  datatype DryRunRun = DryRunRun(writes: WriteTables, result: DryResult)

  // ---------------------------------------------------------------- pure helpers

  /** Identities are 1 to 19 ASCII digits; a key is 1 to 256 bytes (one `char` stands for one byte). */
  predicate ValidRequest(request: Request)
  {
    && 1 <= |request.post| <= 19
    && (forall i :: 0 <= i < |request.post| ==> '0' <= request.post[i] <= '9')
    && 1 <= |request.key| <= MAX_KEY_BYTES
  }

  /** Statuses an exact retry may be answered with. */
  function StoredWriteStatus(status: Status): Option<WriteStatus>
  {
    match status
    case Succeeded => Some(WriteSucceeded)
    case ReconciledSucceeded => Some(WriteSucceeded)
    case ProjectionPending => Some(WriteProjectionPending)
    case Uncertain => Some(WriteUncertain)
    case ReconciledNotCurrent => Some(WriteNotCurrent)
    case _ => None
  }

  function FingerprintOf(request: Request, action: Action, mode: Mode): Fingerprint
  {
    Fingerprint(request.user, request.account, action, request.post, request.consent, mode)
  }

  predicate ConsentCovers(consent: Consent, request: Request, action: Action, now: Instant)
  {
    && consent.user == request.user && consent.account == request.account
    && consent.action == action && consent.post == request.post
    && consent.consumedAt.None? && consent.expiresAt > now
  }

  predicate ConsentUsable(w: WriteTables, request: Request, action: Action, now: Instant)
  {
    request.consent in w.consents && ConsentCovers(w.consents[request.consent], request, action, now)
  }

  function WriteWindow(cfg: WriteConfig, account: Uuid, now: Instant): WindowKey
    requires ValidConfig(cfg)
  {
    WindowKey(account, BookmarkWriteClass, WindowStartFor(now, cfg.windowSeconds))
  }

  // ---------------------------------------------------------------- committed statements

  predicate KeyTaken(w: WriteTables, account: Uuid, digest: Digest)
  {
    exists o | o in w.operations :: w.operations[o].account == account && w.operations[o].digest == digest
  }

  function NewOperation(w: WriteTables, request: Request, action: Action, mode: Mode): Operation
  {
    Operation(request.account, request.user,
              if request.consent in w.consents then Some(request.consent) else None,
              action, request.post, mode, Sha256(request.key), FingerprintOf(request, action, mode),
              Received, None, None)
  }

  /** `insert … on conflict (account_id, idempotency_digest) do nothing`. */
  function ClaimOperation(w: WriteTables, id: Uuid, request: Request, action: Action, mode: Mode): WriteTables
  {
    if KeyTaken(w, request.account, Sha256(request.key)) then w
    else w.(operations := w.operations[id := NewOperation(w, request, action, mode)])
  }

  /** `update … where id = $1 and status = $from`. */
  function Transition(w: WriteTables, id: Uuid, from: Status, to: Status, outcome: Option<Outcome>,
                      observedAt: Option<Instant>): WriteTables
  {
    if id in w.operations && w.operations[id].status == from then
      w.(operations := w.operations[id := w.operations[id].(status := to, outcome := outcome, observedAt := observedAt)])
    else w
  }

  /** The consent is stamped and the operation set in flight in one transaction. */
  function ConsumeConsent(w: WriteTables, id: Uuid, request: Request, action: Action, now: Instant): WriteTables
    requires ConsentUsable(w, request, action, now)
  {
    var stamped := w.(consents := w.consents[request.consent := w.consents[request.consent].(consumedAt := Some(now))]);
    if id in w.operations && w.operations[id].status == Received then
      stamped.(operations := w.operations[id := w.operations[id].(status := ProviderInFlight)])
    else stamped
  }

  predicate ProjectionApplies(s: SyncTables, account: Uuid, post: PostId, action: Action)
  {
    post in s.posts && (action == Add || BookmarkKey(account, post) in s.bookmarks)
  }

  /** `project_confirmed_bookmark`: an add upserts an active row, a remove marks an existing row. */
  function ProjectConfirmed(s: SyncTables, id: Uuid, account: Uuid, post: PostId, action: Action, at: Instant): SyncTables
  {
    var key := BookmarkKey(account, post);
    if !ProjectionApplies(s, account, post, action) then s
    else if action == Add then
      s.(bookmarks := s.bookmarks[key :=
        if key in s.bookmarks then
          s.bookmarks[key].(lastSavedAt := at, removedAt := None, removedSnapshot := None,
                            removedOperation := None, lastWrite := Some(id))
        else Bookmark(at, at, None, None, None, Some(id), None)])
    else
      s.(bookmarks := s.bookmarks[key :=
        s.bookmarks[key].(removedAt := Some(at), removedSnapshot := None, removedOperation := Some(id))])
  }

  function SettledStatus(s: SyncTables, account: Uuid, post: PostId, action: Action, answer: ProviderAnswer): Status
  {
    match answer
    case ProviderConfirmed => if ProjectionApplies(s, account, post, action) then Succeeded else ProjectionPending
    case ProviderUncertain => Uncertain
    case ProviderFailed => Failed
  }

  /** The guarded terminal update after the provider answered. */
  function SettleWrites(w: WriteTables, s: SyncTables, id: Uuid, account: Uuid, post: PostId, action: Action,
                        answer: ProviderAnswer, at: Instant): WriteTables
  {
    var status := SettledStatus(s, account, post, action, answer);
    var outcome := match answer
      case ProviderConfirmed => Confirmed
      case ProviderUncertain => UncertainOutcome
      case ProviderFailed => ProviderFailure;
    Transition(w, id, ProviderInFlight, status, Some(outcome), if status == Succeeded then Some(at) else None)
  }

  function SettleSync(s: SyncTables, id: Uuid, account: Uuid, post: PostId, action: Action,
                      answer: ProviderAnswer, at: Instant): SyncTables
  {
    if answer == ProviderConfirmed then ProjectConfirmed(s, id, account, post, action, at) else s
  }

  // ---------------------------------------------------------------- local admission

  function WriteAuthority(g: Grants, account: Uuid): Option<Refusal>
  {
    if account !in g.credentialScopes then Some(WriteAuthorizationRequired)
    else if account !in g.authorizations || !g.authorizations[account].active then Some(WriteAuthorizationRequired)
    else if !(REQUIRED_SCOPES <= g.credentialScopes[account] && REQUIRED_SCOPES <= g.authorizations[account].scopes)
    then Some(WriteScopeRequired)
    else None
  }

  /** `evaluate_local`, its reads taken from one committed state. */
  function EvaluateLocal(w: WriteTables, s: SyncTables, cfg: WriteConfig, request: Request, action: Action, now: Instant): Verdict
    requires ValidConfig(cfg)
  {
    var g := w.grants;
    if request.account !in g.accounts || g.accounts[request.account].user != request.user then Rejected(OwnershipMismatch)
    else if !g.accounts[request.account].connected then Rejected(ConnectionInactive)
    else if WriteAuthority(g, request.account).Some? then Rejected(WriteAuthority(g, request.account).value)
    else if !ConsentUsable(w, request, action, now) then Rejected(ConsentRequired)
    else
      var key := BookmarkKey(request.account, request.post);
      if key in s.bookmarks && action == Add && s.bookmarks[key].removedAt.None? then
        Satisfied(s.bookmarks[key].lastSavedAt)
      else if key in s.bookmarks && action == Remove && s.bookmarks[key].removedAt.Some? then
        Satisfied(s.bookmarks[key].removedAt.value)
      else if Fits(w.windows, WriteWindow(cfg, request.account, now), cfg.cap, WRITE_COST) then Admitted
      else Rejected(BudgetExhausted)
  }

  function PredictionOf(verdict: Verdict): Prediction
  {
    match verdict
    case Admitted => WouldSubmit
    case Satisfied(_) => WouldAlreadySatisfy
    case Rejected(refusal) => WouldRefuse(refusal)
  }

  function VerdictObservation(verdict: Verdict): Option<Instant>
  {
    if verdict.Satisfied? then Some(verdict.observedAt) else None
  }

  // ---------------------------------------------------------------- whole calls without interference

  /** What a caller that lost the claim is told: a conflict, the stored result, or "still in progress". */
  function AnswerFor(id: Uuid, existing: Operation, fingerprint: Fingerprint): LiveResult
  {
    if existing.fingerprint != fingerprint then IdempotencyConflict
    else match StoredWriteStatus(existing.status)
      case Some(status) => Finished(id, status)
      case None => InProgress(id)
  }

  predicate Replayable(status: Option<Status>) { status.Some? && StoredWriteStatus(status.value).Some? }

  /** The bounded poll from its k-th read on; `statusAt(k)` is what the k-th read finds. */
  function PollFrom(id: Uuid, statusAt: nat -> Option<Status>, k: nat): LiveResult
    decreases MAX_POLLS - k
  {
    if k >= MAX_POLLS then InProgress(id)
    else if Replayable(statusAt(k)) then Finished(id, StoredWriteStatus(statusAt(k).value).value)
    else PollFrom(id, statusAt, k + 1)
  }

  /** What a live caller that lost the claim ends with: an operation still in progress is polled. */
  function LoserResult(id: Uuid, existing: Operation, fingerprint: Fingerprint, statusAt: nat -> Option<Status>): LiveResult
  {
    var answer := AnswerFor(id, existing, fingerprint);
    if answer.InProgress? then PollFrom(id, statusAt, 0) else answer
  }

  /** The poll answers with the first replayable status among its reads, and gives up when none of them is. */
  lemma {:induction false} PollsUntilReplayable(id: Uuid, statusAt: nat -> Option<Status>, k: nat)
    requires k <= MAX_POLLS
    ensures var result := PollFrom(id, statusAt, k);
            || (result == InProgress(id) && forall j: nat | k <= j < MAX_POLLS :: !Replayable(statusAt(j)))
            || exists n: nat :: PollEndsAt(id, statusAt, k, n, result)
    decreases MAX_POLLS - k
  {
    if k < MAX_POLLS {
      if Replayable(statusAt(k)) {
        assert PollEndsAt(id, statusAt, k, k, PollFrom(id, statusAt, k));
      } else {
        var next, result := k + 1, PollFrom(id, statusAt, k);
        PollsUntilReplayable(id, statusAt, next);
        if exists n: nat :: PollEndsAt(id, statusAt, next, n, result) {
          var n: nat :| PollEndsAt(id, statusAt, next, n, result);
          assert PollEndsAt(id, statusAt, k, n, result);
        }
      }
    }
  }

  /** The n-th read is the first replayable one from `k` on, and the result is its status. */
  ghost predicate PollEndsAt(id: Uuid, statusAt: nat -> Option<Status>, k: nat, n: nat, result: LiveResult)
  {
    && k <= n < MAX_POLLS && Replayable(statusAt(n)) && result == Finished(id, StoredWriteStatus(statusAt(n).value).value)
    && forall j: nat | k <= j < n :: !Replayable(statusAt(j))
  }

  predicate HoldsKey(w: WriteTables, id: Uuid, request: Request)
  {
    id in w.operations && w.operations[id].account == request.account && w.operations[id].digest == Sha256(request.key)
  }

  /** `dry_run` on an unused key: claim, evaluate, record the prediction. */
  function DryRunCall(w: WriteTables, s: SyncTables, cfg: WriteConfig, id: Uuid, request: Request, action: Action,
                      now: Instant): DryRunRun
    requires ValidConfig(cfg)
  {
    var claimed := ClaimOperation(w, id, request, action, DryRun);
    var verdict := EvaluateLocal(claimed, s, cfg, request, action, now);
    var prediction := PredictionOf(verdict);
    DryRunRun(Transition(claimed, id, Received, DryRunRecorded, Some(Predicted(prediction)), VerdictObservation(verdict)),
              DryPredicted(prediction))
  }

  /** The admitted part of `execute`: reserve (the gate reads the clock again), consume, contact, settle. */
  function SubmitCall(w: WriteTables, s: SyncTables, cfg: WriteConfig, id: Uuid, request: Request, action: Action,
                      now: Instant, reserveAt: Instant, answer: ProviderAnswer): LiveRun
    requires ValidConfig(cfg)
  {
    var window := WriteWindow(cfg, request.account, reserveAt);
    if WRITE_COST > cfg.cap then LiveRun(w, s, false, BudgetMisconfigured)
    else if !Fits(w.windows, window, cfg.cap, WRITE_COST) then
      LiveRun(Transition(w, id, Received, Refused, Some(RefusedFor(BudgetExhausted)), None), s, false, RefusedWith(BudgetExhausted))
    else
      var charged := w.(windows := Charge(w.windows, window, cfg.cap, WRITE_COST));
      if !ConsentUsable(charged, request, action, now) then
        LiveRun(charged.(windows := Refund(charged.windows, window, WRITE_COST)), s, false, RefusedWith(ConsentRequired))
      else
        var inFlight := ConsumeConsent(charged, id, request, action, now);
        var result :=
          match answer
          case ProviderConfirmed =>
            Finished(id, if ProjectionApplies(s, request.account, request.post, action) then WriteSucceeded else WriteProjectionPending)
          case ProviderUncertain => Finished(id, WriteUncertain)
          case ProviderFailed => ProviderError;
        LiveRun(SettleWrites(inFlight, s, id, request.account, request.post, action, answer, now),
                SettleSync(s, id, request.account, request.post, action, answer, now), true, result)
  }

  /** `execute` on an unused key. */
  function LiveCall(w: WriteTables, s: SyncTables, cfg: WriteConfig, id: Uuid, request: Request, action: Action,
                    now: Instant, reserveAt: Instant, answer: ProviderAnswer): LiveRun
    requires ValidConfig(cfg)
  {
    var claimed := ClaimOperation(w, id, request, action, Live);
    match EvaluateLocal(claimed, s, cfg, request, action, now)
    case Satisfied(observedAt) =>
      LiveRun(Transition(claimed, id, Received, Succeeded, Some(AlreadySatisfied), Some(observedAt)), s, false,
              Finished(id, WriteAlreadySatisfied))
    case Rejected(refusal) =>
      LiveRun(Transition(claimed, id, Received, Refused, Some(RefusedFor(refusal)), None), s, false, RefusedWith(refusal))
    case Admitted => SubmitCall(claimed, s, cfg, id, request, action, now, reserveAt, answer)
  }

  /** Claiming an unused key cannot change the verdict: nothing admission reads is touched. */
  lemma ClaimKeepsVerdict(w: WriteTables, s: SyncTables, cfg: WriteConfig, id: Uuid, request: Request, action: Action,
                          mode: Mode, now: Instant)
    requires ValidConfig(cfg)
    ensures EvaluateLocal(ClaimOperation(w, id, request, action, mode), s, cfg, request, action, now)
            == EvaluateLocal(w, s, cfg, request, action, now)
  {
  }

  /**
   A dry run predicts the live call made from the same state at the same clock reading, whatever the
   provider answers: it says "would submit" exactly when the live call contacts the provider, "already
   satisfied" exactly when the live call reports that, and refusal class c exactly when the live call
   fails with c. The dry run itself touches nothing but its own new operation row.
   */
  lemma DryRunPredictsLive(w: WriteTables, s: SyncTables, cfg: WriteConfig, dryId: Uuid, dryKey: string, liveId: Uuid,
                           request: Request, action: Action, now: Instant, answer: ProviderAnswer)
    requires ValidConfig(cfg)
    requires dryId !in w.operations && liveId !in w.operations
    requires !KeyTaken(w, request.account, Sha256(request.key)) && !KeyTaken(w, request.account, Sha256(dryKey))
    ensures var dry := DryRunCall(w, s, cfg, dryId, request.(key := dryKey), action, now);
            var live := LiveCall(w, s, cfg, liveId, request, action, now, now, answer);
            && dry.result.DryPredicted?
            && (dry.result.prediction == WouldSubmit <==> live.contacted)
            && (dry.result.prediction == WouldAlreadySatisfy <==> live.result == Finished(liveId, WriteAlreadySatisfied))
            && (forall c :: dry.result.prediction == WouldRefuse(c) <==> live.result == RefusedWith(c))
            && dry.writes.operations.Keys == w.operations.Keys + {dryId}
            && (forall o | o in w.operations :: dry.writes.operations[o] == w.operations[o])
            && dry.writes.operations[dryId].status == DryRunRecorded
            && dry.writes.operations[dryId].outcome == Some(Predicted(dry.result.prediction))
            && dry.writes.(operations := w.operations) == w
  {
    var dryRequest := request.(key := dryKey);
    ClaimKeepsVerdict(w, s, cfg, dryId, dryRequest, action, DryRun, now);
    ClaimKeepsVerdict(w, s, cfg, liveId, request, action, Live, now);
    assert EvaluateLocal(w, s, cfg, dryRequest, action, now) == EvaluateLocal(w, s, cfg, request, action, now);
    var claimed := ClaimOperation(w, liveId, request, action, Live);
    if EvaluateLocal(w, s, cfg, request, action, now).Admitted? {
      SubmissionContacts(claimed, s, cfg, liveId, request, action, now, answer);
    }
  }

  lemma SubmissionContacts(w: WriteTables, s: SyncTables, cfg: WriteConfig, id: Uuid, request: Request, action: Action,
                           now: Instant, answer: ProviderAnswer)
    requires ValidConfig(cfg)
    requires EvaluateLocal(w, s, cfg, request, action, now).Admitted?
    requires id in w.operations && w.operations[id].status == Received
    ensures var live := SubmitCall(w, s, cfg, id, request, action, now, now, answer);
            && live.contacted && !live.result.RefusedWith? && live.result != Finished(id, WriteAlreadySatisfied)
            && live.writes.consents[request.consent].consumedAt == Some(now)
            && Usage(live.writes.windows, WriteWindow(cfg, request.account, now))
               == Usage(w.windows, WriteWindow(cfg, request.account, now)) + WRITE_COST
            && live.writes.operations[id].status
               == SettledStatus(s, request.account, request.post, action, answer)
  {
    var window := WriteWindow(cfg, request.account, now);
    assert Fits(w.windows, window, cfg.cap, WRITE_COST);
    var charged := w.(windows := Charge(w.windows, window, cfg.cap, WRITE_COST));
    assert ConsentUsable(charged, request, action, now);
  }

  /** The service object: the same calls written as the statements the source issues. */
  class BookmarkWritebackService {
    const db: Database
    const budget: Gate
    const cfg: WriteConfig

    constructor (db: Database, budget: Gate)
      requires budget.db == db && 1 <= budget.windowSeconds && budget.budgetClass == BookmarkWriteClass
      ensures this.db == db && this.budget == budget && Wired()
    {
      this.db := db;
      this.budget := budget;
      this.cfg := WriteConfig(budget.cap, budget.windowSeconds);
    }

    ghost predicate Wired()
    {
      && budget.db == db && 1 <= budget.windowSeconds && budget.budgetClass == BookmarkWriteClass
      && cfg == WriteConfig(budget.cap, budget.windowSeconds)
    }

    method Claim(id: Uuid, request: Request, action: Action, mode: Mode) returns (inserted: bool)
      requires id !in db.writes.operations
      modifies db`writes
      ensures inserted <==> !KeyTaken(old(db.writes), request.account, Sha256(request.key))
      ensures db.writes == ClaimOperation(old(db.writes), id, request, action, mode)
    {
      inserted := !KeyTaken(db.writes, request.account, Sha256(request.key));
      if inserted {
        var consent := if request.consent in db.writes.consents then Some(request.consent) else None;
        var row := Operation(request.account, request.user, consent, action, request.post, mode, Sha256(request.key),
                             FingerprintOf(request, action, mode), Received, None, None);
        db.writes := db.writes.(operations := db.writes.operations[id := row]);
      }
    }

    method Evaluate(request: Request, action: Action, now: Instant) returns (verdict: Verdict)
      requires Wired()
      ensures verdict == EvaluateLocal(db.writes, db.sync, cfg, request, action, now)
    {
      var g := db.writes.grants;
      if request.account !in g.accounts || g.accounts[request.account].user != request.user {
        return Rejected(OwnershipMismatch);
      }
      if !g.accounts[request.account].connected {
        return Rejected(ConnectionInactive);
      }
      var authority := WriteAuthority(g, request.account);
      if authority.Some? {
        return Rejected(authority.value);
      }
      if !ConsentUsable(db.writes, request, action, now) {
        return Rejected(ConsentRequired);
      }
      var key := BookmarkKey(request.account, request.post);
      if key in db.sync.bookmarks {
        var row := db.sync.bookmarks[key];
        if action == Add && row.removedAt.None? {
          return Satisfied(row.lastSavedAt);
        }
        if action == Remove && row.removedAt.Some? {
          return Satisfied(row.removedAt.value);
        }
      }
      var inspection := budget.Inspect(request.account, WRITE_COST, now);
      verdict := if inspection.eligible then Admitted else Rejected(BudgetExhausted);
    }

    method Move(id: Uuid, from: Status, to: Status, outcome: Option<Outcome>, observedAt: Option<Instant>)
      modifies db`writes
      ensures db.writes == Transition(old(db.writes), id, from, to, outcome, observedAt)
    {
      if id in db.writes.operations && db.writes.operations[id].status == from {
        var row := db.writes.operations[id].(status := to, outcome := outcome, observedAt := observedAt);
        db.writes := db.writes.(operations := db.writes.operations[id := row]);
      }
    }

    /** Locks and stamps the consent, or refunds the reservation when it is gone. */
    method Consume(id: Uuid, request: Request, action: Action, now: Instant, reservation: Reservation) returns (ok: bool)
      requires Wired()
      modifies db`writes
      ensures ok <==> ConsentUsable(old(db.writes), request, action, now)
      ensures ok ==> db.writes == ConsumeConsent(old(db.writes), id, request, action, now)
      ensures !ok ==> db.writes == old(db.writes).(windows := Refund(old(db.writes.windows), reservation.window, reservation.cost))
    {
      ok := ConsentUsable(db.writes, request, action, now);
      if !ok {
        budget.Release(reservation);
        return;
      }
      var consent := db.writes.consents[request.consent].(consumedAt := Some(now));
      db.writes := db.writes.(consents := db.writes.consents[request.consent := consent]);
      if id in db.writes.operations && db.writes.operations[id].status == Received {
        var row := db.writes.operations[id].(status := ProviderInFlight);
        db.writes := db.writes.(operations := db.writes.operations[id := row]);
      }
    }

    method CompleteConfirmed(id: Uuid, request: Request, action: Action, at: Instant) returns (status: WriteStatus)
      modifies db
      ensures db.writes == SettleWrites(old(db.writes), old(db.sync), id, request.account, request.post, action, ProviderConfirmed, at)
      ensures db.sync == ProjectConfirmed(old(db.sync), id, request.account, request.post, action, at)
      ensures status == if ProjectionApplies(old(db.sync), request.account, request.post, action) then WriteSucceeded else WriteProjectionPending
    {
      var updated := false;
      var key := BookmarkKey(request.account, request.post);
      if request.post in db.sync.posts {
        if action == Add {
          var row := Bookmark(at, at, None, None, None, Some(id), None);
          if key in db.sync.bookmarks {
            row := db.sync.bookmarks[key].(lastSavedAt := at, removedAt := None, removedSnapshot := None,
                                           removedOperation := None, lastWrite := Some(id));
          }
          db.sync := db.sync.(bookmarks := db.sync.bookmarks[key := row]);
          updated := true;
        } else if key in db.sync.bookmarks {
          var row := db.sync.bookmarks[key].(removedAt := Some(at), removedSnapshot := None, removedOperation := Some(id));
          db.sync := db.sync.(bookmarks := db.sync.bookmarks[key := row]);
          updated := true;
        }
      }
      Move(id, ProviderInFlight, if updated then Succeeded else ProjectionPending, Some(Confirmed), if updated then Some(at) else None);
      status := if updated then WriteSucceeded else WriteProjectionPending;
    }

    /**
     A live call: `contacted` tells whether the provider was called, `answer` is what it said, `statusAt(k)` what the
     k-th poll of another caller's operation reads.
     */
    method Execute(id: Uuid, request: Request, action: Action, now: Instant, reserveAt: Instant, answer: ProviderAnswer,
                   statusAt: nat -> Option<Status>)
      returns (contacted: bool, result: LiveResult)
      requires Wired() && id !in db.writes.operations
      modifies db
      ensures !ValidRequest(request) ==>
                db.writes == old(db.writes) && db.sync == old(db.sync) && !contacted && result == InvalidRequest
      ensures ValidRequest(request) && KeyTaken(old(db.writes), request.account, Sha256(request.key)) ==>
                && db.writes == old(db.writes) && db.sync == old(db.sync) && !contacted
                && exists o :: HoldsKey(old(db.writes), o, request)
                     && result == LoserResult(o, old(db.writes).operations[o], FingerprintOf(request, action, Live), statusAt)
      ensures ValidRequest(request) && !KeyTaken(old(db.writes), request.account, Sha256(request.key)) ==>
                LiveRun(db.writes, db.sync, contacted, result)
                == LiveCall(old(db.writes), old(db.sync), cfg, id, request, action, now, reserveAt, answer)
    {
      contacted := false;
      if !ValidRequest(request) {
        return false, InvalidRequest;
      }
      var inserted := Claim(id, request, action, Live);
      if !inserted {
        var o :| o in db.writes.operations && HoldsKey(db.writes, o, request);
        result := AnswerFor(o, db.writes.operations[o], FingerprintOf(request, action, Live));
        if result.InProgress? {
          result := WaitForOperation(o, statusAt);
        }
        return false, result;
      }
      var verdict := Evaluate(request, action, now);
      match verdict {
        case Satisfied(observedAt) =>
          Move(id, Received, Succeeded, Some(AlreadySatisfied), Some(observedAt));
          return false, Finished(id, WriteAlreadySatisfied);
        case Rejected(refusal) =>
          Move(id, Received, Refused, Some(RefusedFor(refusal)), None);
          return false, RefusedWith(refusal);
        case Admitted =>
      }
      var reserved := budget.Reserve(request.account, WRITE_COST, reserveAt);
      if reserved.CostExceedsCap? {
        return false, BudgetMisconfigured;
      }
      if reserved.Exhausted? {
        Move(id, Received, Refused, Some(RefusedFor(BudgetExhausted)), None);
        return false, RefusedWith(BudgetExhausted);
      }
      var ok := Consume(id, request, action, now, reserved.reservation);
      if !ok {
        return false, RefusedWith(ConsentRequired);
      }
      contacted := true;
      match answer {
        case ProviderConfirmed =>
          var status := CompleteConfirmed(id, request, action, now);
          result := Finished(id, status);
        case ProviderUncertain =>
          Move(id, ProviderInFlight, Uncertain, Some(UncertainOutcome), None);
          result := Finished(id, WriteUncertain);
        case ProviderFailed =>
          Move(id, ProviderInFlight, Failed, Some(ProviderFailure), None);
          result := ProviderError;
      }
    }

    method Preview(id: Uuid, request: Request, action: Action, now: Instant) returns (result: DryResult)
      requires Wired() && id !in db.writes.operations
      modifies db`writes
      ensures !ValidRequest(request) ==> db.writes == old(db.writes) && result == DryInvalidRequest
      ensures ValidRequest(request) && KeyTaken(old(db.writes), request.account, Sha256(request.key)) ==>
                && db.writes == old(db.writes)
                && exists o :: HoldsKey(old(db.writes), o, request)
                     && result == if old(db.writes).operations[o].fingerprint != FingerprintOf(request, action, DryRun) then DryConflict
                                  else DryInProgress
      ensures ValidRequest(request) && !KeyTaken(old(db.writes), request.account, Sha256(request.key)) ==>
                DryRunRun(db.writes, result) == DryRunCall(old(db.writes), db.sync, cfg, id, request, action, now)
    {
      if !ValidRequest(request) {
        return DryInvalidRequest;
      }
      var inserted := Claim(id, request, action, DryRun);
      if !inserted {
        var o :| o in db.writes.operations && HoldsKey(db.writes, o, request);
        var answer := AnswerFor(o, db.writes.operations[o], FingerprintOf(request, action, DryRun));
        return if answer.IdempotencyConflict? then DryConflict else DryInProgress;
      }
      var verdict := Evaluate(request, action, now);
      Move(id, Received, DryRunRecorded, Some(Predicted(PredictionOf(verdict))), VerdictObservation(verdict));
      result := DryPredicted(PredictionOf(verdict));
    }

    /** Polls the stored status at most `MAX_POLLS` times. */
    method WaitForOperation(id: Uuid, statusAt: nat -> Option<Status>) returns (result: LiveResult)
      ensures result == PollFrom(id, statusAt, 0)
      ensures result == InProgress(id) <==> forall j: nat | j < MAX_POLLS :: !Replayable(statusAt(j))
      ensures result != InProgress(id) ==> exists n: nat :: PollEndsAt(id, statusAt, 0, n, result)
    {
      PollsUntilReplayable(id, statusAt, 0);
      var k := 0;
      while k < MAX_POLLS
        invariant 0 <= k <= MAX_POLLS
        invariant PollFrom(id, statusAt, k) == PollFrom(id, statusAt, 0)
      {
        var seen := statusAt(k);
        if Replayable(seen) {
          return Finished(id, StoredWriteStatus(seen.value).value);
        }
        k := k + 1;
      }
      result := InProgress(id);
    }
  }
}
