/**
 Refresh-token rotation over the credential table: classification under the row lock, the guarded
 rotation, and the scrub that answers the reuse of a retired token.
 */
module Credentials {
  import opened Common

  datatype CredentialStatus = Active | Expired | Revoked

  datatype Tokens = Tokens(access: string, refresh: string)

  /** A credential row; `payload` is `None` when the sealed envelope is empty or cannot be opened. */
  datatype Credential = Credential(
    account: Uuid, payload: Option<Tokens>, status: CredentialStatus, createdAt: Instant,
    expiresAt: Option<Instant>, retired: Option<Digest>)

  datatype Connection = Connected | ReauthRequired | Disconnected

  datatype Vault = Vault(credentials: map<Uuid, Credential>, accounts: map<Uuid, Connection>)

  datatype ProviderAnswer = Rotated(tokens: Tokens, expiresIn: nat) | Invalidated | Unreachable

  datatype FlowResult = Refreshed | CredentialInactive | Unreadable | RefreshReplay | StaleRefreshToken
                      | UpstreamInvalidation | ProviderUnavailable

  // ---------------------------------------------------------------- row updates

  function ActiveOf(v: Vault, account: Uuid): set<Uuid>
  {
    set id | id in v.credentials && v.credentials[id].account == account && v.credentials[id].status == Active
  }

  predicate NoNewer(v: Vault, id: Uuid, other: Uuid)
    requires id in v.credentials && other in v.credentials
  {
    || v.credentials[other].createdAt < v.credentials[id].createdAt
    || (v.credentials[other].createdAt == v.credentials[id].createdAt && other <= id)
  }

  /** `order by created_at desc, id desc limit 1` over the account's active rows. */
  ghost predicate NewestActive(v: Vault, account: Uuid, id: Uuid)
  {
    id in ActiveOf(v, account) && forall other | other in ActiveOf(v, account) :: NoNewer(v, id, other)
  }

  function SetConnection(v: Vault, account: Uuid, state: Connection): Vault
  {
    if account in v.accounts then v.(accounts := v.accounts[account := state]) else v
  }

  predicate RotationLands(v: Vault, id: Uuid, expected: Option<Digest>)
  {
    id in v.credentials && v.credentials[id].status == Active && v.credentials[id].retired == expected
  }

  function RotateGuarded(v: Vault, id: Uuid, tokens: Tokens, expiresAt: Instant, retired: Digest, expected: Option<Digest>): Vault
  {
    if RotationLands(v, id, expected)
    then v.(credentials := v.credentials[id :=
              v.credentials[id].(payload := Some(tokens), expiresAt := Some(expiresAt), retired := Some(retired))])
    else v
  }

  function ScrubRevoke(v: Vault, id: Uuid): Vault
  {
    if id in v.credentials
    then v.(credentials := v.credentials[id := v.credentials[id].(payload := None, status := Revoked)]) else v
  }

  function MarkExpired(v: Vault, id: Uuid): Vault
  {
    if id in v.credentials then v.(credentials := v.credentials[id := v.credentials[id].(status := Expired)]) else v
  }

  /** The activation of a write grant expires every active row of the account and inserts one new active row. */
  function Activate(v: Vault, account: Uuid, id: Uuid, tokens: Tokens, now: Instant, expiresAt: Option<Instant>): Vault
  {
    v.(credentials := (map x | x in v.credentials ::
         if x in ActiveOf(v, account) then v.credentials[x].(status := Expired) else v.credentials[x])
         [id := Credential(account, Some(tokens), Active, now, expiresAt, None)])
  }

  // ---------------------------------------------------------------- one refresh

  datatype Presentation = Current | Replayed | Stale

  /** A caller that presents nothing adopts the stored token; an absent retired hash matches no token. */
  function Classify(row: Credential, presented: Option<string>): Presentation
    requires row.payload.Some?
  {
    var stored := row.payload.value.refresh;
    var token := if presented.Some? then presented.value else stored;
    if token == stored then Current else if Some(Sha256(token)) == row.retired then Replayed else Stale
  }

  function RevokeFamily(v: Vault, id: Uuid, account: Uuid): Vault
  {
    SetConnection(ScrubRevoke(v, id), account, ReauthRequired)
  }

  /** What the provider's answer does to the row read under the lock. */
  function Settle(v: Vault, id: Uuid, row: Credential, answer: ProviderAnswer, now: Instant): (Vault, FlowResult)
    requires row.payload.Some?
  {
    match answer
    case Unreachable => (v, ProviderUnavailable)
    case Invalidated => (SetConnection(MarkExpired(v, id), row.account, ReauthRequired), UpstreamInvalidation)
    case Rotated(tokens, expiresIn) =>
      if RotationLands(v, id, row.retired)
      then (RotateGuarded(v, id, tokens, now + expiresIn, Sha256(row.payload.value.refresh), row.retired), Refreshed)
      else (v, CredentialInactive)
  }

  /** A whole refresh against the locked row, and whether the provider was called. */
  function RefreshOn(v: Vault, id: Uuid, presented: Option<string>, answer: ProviderAnswer, now: Instant): (Vault, FlowResult, bool)
    requires id in v.credentials
  {
    var row := v.credentials[id];
    if row.payload.None? then (v, Unreadable, false)
    else match Classify(row, presented)
      case Replayed => (RevokeFamily(v, id, row.account), RefreshReplay, false)
      case Stale => (v, StaleRefreshToken, false)
      case Current => (Settle(v, id, row, answer, now).0, Settle(v, id, row, answer, now).1, true)
  }

  // ---------------------------------------------------------------- what a refresh leaves behind

  /** Nothing but this row and the connection of its account may differ. */
  predicate OnlyRowAndAccount(v: Vault, x: Vault, id: Uuid, account: Uuid)
  {
    && id in v.credentials && id in x.credentials && x.credentials == v.credentials[id := x.credentials[id]]
    && x.accounts.Keys == v.accounts.Keys && forall a | a in v.accounts && a != account :: x.accounts[a] == v.accounts[a]
  }

  /** Presenting the stored token, or nothing: the provider is called with it, and its answer decides. */
  lemma CurrentTokenOutcome(v: Vault, id: Uuid, presented: Option<string>, answer: ProviderAnswer, now: Instant)
    requires id in v.credentials && v.credentials[id].status == Active && v.credentials[id].payload.Some?
    requires presented.Some? ==> presented.value == v.credentials[id].payload.value.refresh
    ensures var (x, result, contacted) := RefreshOn(v, id, presented, answer, now);
            var row := v.credentials[id];
            && contacted && OnlyRowAndAccount(v, x, id, row.account)
            && match answer
               case Invalidated =>
                 && result == UpstreamInvalidation
                 && x.credentials[id].status == Expired && x.credentials[id].payload == row.payload && x.credentials[id].retired == row.retired
                 && x.credentials[id].account == row.account && x.credentials[id].createdAt == row.createdAt
                 && x.credentials[id].expiresAt == row.expiresAt
                 && (row.account in v.accounts ==> x.accounts[row.account] == ReauthRequired)
               case Unreachable => result == ProviderUnavailable && x == v
               case Rotated(tokens, expiresIn) =>
                 && result == Refreshed && x.accounts == v.accounts
                 && x.credentials[id].payload == Some(tokens) && x.credentials[id].expiresAt == Some(now + expiresIn)
                 && x.credentials[id].retired == Some(Sha256(row.payload.value.refresh)) && x.credentials[id].status == Active
                 && x.credentials[id].account == row.account && x.credentials[id].createdAt == row.createdAt
  {
  }

  /**
   Presenting another token calls nobody. The one whose hash is retired revokes and empties the row and asks the account to
   authorize again; any other, and any token for a row that cannot be opened, changes nothing.
   */
  lemma OtherTokenOutcome(v: Vault, id: Uuid, token: string, answer: ProviderAnswer, now: Instant)
    requires id in v.credentials
    requires v.credentials[id].payload.Some? ==> token != v.credentials[id].payload.value.refresh
    ensures var (x, result, contacted) := RefreshOn(v, id, Some(token), answer, now);
            var row := v.credentials[id];
            && !contacted && OnlyRowAndAccount(v, x, id, row.account)
            && (row.payload == None ==> result == Unreadable && x == v)
            && (row.payload.Some? && row.retired == Some(Sha256(token)) ==>
                  && result == RefreshReplay
                  && x.credentials[id].status == Revoked && x.credentials[id].payload == None && x.credentials[id].retired == row.retired
                  && (row.account in v.accounts ==> x.accounts[row.account] == ReauthRequired))
            && (row.payload.Some? && row.retired != Some(Sha256(token)) ==> result == StaleRefreshToken && x == v)
  {
  }

  class OAuthService {
    var vault: Vault

    constructor (vault: Vault)
      ensures this.vault == vault
    {
      this.vault := vault;
    }

    method LockNewest(account: Uuid) returns (id: Option<Uuid>)
      ensures id.None? <==> ActiveOf(vault, account) == {}
      ensures id.Some? ==> NewestActive(vault, account, id.value)
      ensures id.Some? ==>
                && id.value in vault.credentials && vault.credentials[id.value].account == account && vault.credentials[id.value].status == Active
                && forall other | other in vault.credentials && vault.credentials[other].account == account && vault.credentials[other].status == Active ::
                     && vault.credentials[other].createdAt <= vault.credentials[id.value].createdAt
                     && (vault.credentials[other].createdAt == vault.credentials[id.value].createdAt ==> other <= id.value)
    {
      var active := ActiveOf(vault, account);
      if active == {} {
        return None;
      }
      var newest :| newest in active;
      var rest := active - {newest};
      while rest != {}
        invariant newest in active && rest <= active
        invariant forall other | other in active - rest :: NoNewer(vault, newest, other)
        decreases rest
      {
        var x :| x in rest;
        assert forall other | other in active - (rest - {x}) :: other == x || other in active - rest;
        if !NoNewer(vault, newest, x) {
          newest := x;
        }
        rest := rest - {x};
      }
      assert forall other | other in vault.credentials && vault.credentials[other].account == account && vault.credentials[other].status == Active ::
               other in active && NoNewer(vault, newest, other);
      id := Some(newest);
    }

    /** One refresh; nothing interferes, because the row stays locked across the provider call. */
    method Refresh(account: Uuid, presented: Option<string>, answer: ProviderAnswer, now: Instant)
      returns (result: FlowResult, contacted: bool, ghost id: Uuid)
      modifies this
      ensures ActiveOf(old(vault), account) == {} ==> vault == old(vault) && result == CredentialInactive && !contacted
      ensures ActiveOf(old(vault), account) != {} ==>
                NewestActive(old(vault), account, id) && (vault, result, contacted) == RefreshOn(old(vault), id, presented, answer, now)
    {
      var locked := LockNewest(account);
      if locked.None? {
        return CredentialInactive, false, 0;
      }
      id := locked.value;
      var row := vault.credentials[locked.value];
      if row.payload.None? {
        return Unreadable, false, id;
      }
      var stored := row.payload.value;
      var token := if presented.Some? then presented.value else stored.refresh;
      if token != stored.refresh {
        if row.retired.Some? && Sha256(token) == row.retired.value {
          vault := SetConnection(ScrubRevoke(vault, locked.value), account, ReauthRequired);
          return RefreshReplay, false, id;
        }
        return StaleRefreshToken, false, id;
      }
      contacted := true;
      match answer {
        case Unreachable => result := ProviderUnavailable;
        case Invalidated =>
          vault := SetConnection(MarkExpired(vault, locked.value), account, ReauthRequired);
          result := UpstreamInvalidation;
        case Rotated(tokens, expiresIn) =>
          var applied := RotationLands(vault, locked.value, row.retired);
          vault := RotateGuarded(vault, locked.value, tokens, now + expiresIn, Sha256(stored.refresh), row.retired);
          result := if applied then Refreshed else CredentialInactive;
      }
    }

    /** Absent credentials succeed silently; an unreachable provider leaves everything as it was. */
    method Revoke(account: Uuid, reachable: bool) returns (result: FlowResult, ghost id: Uuid)
      modifies this
      ensures ActiveOf(old(vault), account) == {} ==> vault == old(vault) && result == Refreshed
      ensures ActiveOf(old(vault), account) != {} ==>
                && NewestActive(old(vault), account, id)
                && var row := old(vault).credentials[id];
                && (result == Refreshed <==> row.payload.Some? && reachable)
                && vault == (if row.payload.Some? && reachable then SetConnection(ScrubRevoke(old(vault), id), account, Disconnected)
                             else old(vault))
                && (row.payload.Some? && reachable ==>
                      && OnlyRowAndAccount(old(vault), vault, id, account)
                      && vault.credentials[id].status == Revoked && vault.credentials[id].payload == None
                      && (account in vault.accounts ==> vault.accounts[account] == Disconnected))
    {
      var locked := LockNewest(account);
      if locked.None? {
        return Refreshed, 0;
      }
      id := locked.value;
      if vault.credentials[locked.value].payload.None? {
        return Unreadable, id;
      }
      if !reachable {
        return ProviderUnavailable, id;
      }
      vault := SetConnection(ScrubRevoke(vault, locked.value), account, Disconnected);
      result := Refreshed;
    }
  }
}
