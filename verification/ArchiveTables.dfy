/**
 The rows of the archive database that write-back, full snapshots and incremental scans share.
 Tables are values; one `Database` object holds the current ones and the services update it.
 */
module ArchiveTables {
  import opened Common

  // ---------------------------------------------------------------- write-back rows

  datatype Action = Add | Remove

  datatype Mode = Live | DryRun

  datatype Request = Request(user: Uuid, account: Uuid, consent: Uuid, post: PostId, key: string)

  /** `request_fingerprint` hashes these six parts behind length prefixes, so it is injective. */
  datatype Fingerprint = Fingerprint(user: Uuid, account: Uuid, action: Action, post: PostId,
                                     consent: Uuid, mode: Mode)

  datatype Refusal = OwnershipMismatch | ConnectionInactive | WriteAuthorizationRequired
                   | WriteScopeRequired | ConsentRequired | BudgetExhausted

  datatype Prediction = WouldSubmit | WouldAlreadySatisfy | WouldRefuse(refusal: Refusal)

  datatype Status = Received | Refused | DryRunRecorded | ProviderInFlight | Succeeded | Failed
                  | Uncertain | ProjectionPending | ReconciledSucceeded | ReconciledNotCurrent

  datatype Outcome = AlreadySatisfied | RefusedFor(refusal: Refusal) | Confirmed | UncertainOutcome
                   | ProviderFailure | Predicted(prediction: Prediction)
                   | CompleteSnapshotPresent | CompleteSnapshotAbsent

  datatype Operation = Operation(account: Uuid, user: Uuid, consent: Option<Uuid>, action: Action,
                                 post: PostId, mode: Mode, digest: Digest, fingerprint: Fingerprint,
                                 status: Status, outcome: Option<Outcome>,
                                 observedAt: Option<Instant>)

  datatype Consent = Consent(user: Uuid, account: Uuid, action: Action, post: PostId,
                             expiresAt: Instant, consumedAt: Option<Instant>)

  datatype BudgetClass = ReadClass | BookmarkWriteClass

  datatype WindowKey = WindowKey(account: Uuid, budgetClass: BudgetClass, start: Instant)

  type Windows = map<WindowKey, nat>

  datatype Account = Account(user: Uuid, connected: bool)

  datatype Authorization = Authorization(active: bool, scopes: set<string>)

  /** What other components own and write-back only reads. */
  datatype Grants = Grants(accounts: map<Uuid, Account>,
                           credentialScopes: map<Uuid, set<string>>,
                           authorizations: map<Uuid, Authorization>)

  datatype WriteTables = WriteTables(grants: Grants, consents: map<Uuid, Consent>,
                                     operations: map<Uuid, Operation>, windows: Windows)

  // ---------------------------------------------------------------- synchronisation rows

  datatype BookmarkKey = BookmarkKey(account: Uuid, post: PostId)

  datatype Bookmark = Bookmark(firstSavedAt: Instant, lastSavedAt: Instant,
                               removedAt: Option<Instant>, removedSnapshot: Option<Uuid>,
                               removedOperation: Option<Uuid>, lastWrite: Option<Uuid>,
                               lastIncremental: Option<Uuid>)

  type Bookmarks = map<BookmarkKey, Bookmark>

  datatype RunKind = Full | Incremental

  datatype RunState = Running | RunFailed | Completed

  datatype Statistics = Statistics(added: nat, retained: nat, removed: nat)

  datatype RunRow = RunRow(account: Uuid, kind: RunKind, state: RunState,
                           checkpoint: Option<string>, statistics: Statistics)

  datatype SnapshotRow = SnapshotRow(run: Uuid, complete: bool)

  type StagedItems = map<PostId, Instant>

  datatype IncrementalState = IncrementalState(watermark: Option<PostId>, requiresFull: bool)

  datatype SyncTables = SyncTables(posts: set<PostId>, bookmarks: Bookmarks,
                                   runs: map<Uuid, RunRow>, snapshots: map<Uuid, SnapshotRow>,
                                   staged: map<Uuid, StagedItems>,
                                   incremental: map<Uuid, IncrementalState>,
                                   authority: map<Uuid, Uuid>,
                                   repairs: set<(Uuid, BookmarkKey)>)

  /** Posts the account currently has bookmarked. */
  function ActivePosts(bookmarks: Bookmarks, account: Uuid): set<PostId>
  {
    set k | k in bookmarks && k.account == account && bookmarks[k].removedAt.None? :: k.post
  }

  function KeysOf(account: Uuid, posts: set<PostId>): set<BookmarkKey>
  {
    set p | p in posts :: BookmarkKey(account, p)
  }

  function NewStatistics(): Statistics { Statistics(0, 0, 0) }

  function StagedOf(s: SyncTables, snapshot: Uuid): StagedItems
  {
    if snapshot in s.staged then s.staged[snapshot] else map[]
  }

  function IncrementalOf(s: SyncTables, account: Uuid): IncrementalState
  {
    if account in s.incremental then s.incremental[account] else IncrementalState(None, false)
  }

  /** The connection pool every service writes through. */
  class Database {
    var writes: WriteTables
    var sync: SyncTables

    constructor (writes: WriteTables, sync: SyncTables)
      ensures this.writes == writes && this.sync == sync
    {
      this.writes := writes;
      this.sync := sync;
    }
  }
}
