/**
 Concurrent refreshes, revocations, code exchanges and write-grant activations. A session keeps its row lock
 from the read to its commit, so the retired hash always names the token that was current just before.
 */
module RotationSafety {
  import opened Common
  import opened Credentials

  /** A transaction that holds the lock of one row, with the row as it read it. */
  datatype Session = Session(id: Uuid, row: Credential, presented: Option<string>, called: bool, revoking: bool)

  /** `chains` lists the refresh tokens each row ever held, oldest first; `calls` the provider calls. */
  datatype World = World(vault: Vault, sessions: map<Uuid, Session>, chains: map<Uuid, seq<string>>, calls: seq<(Uuid, string)>)

  datatype Step =
    | Exchange(account: Uuid, id: Uuid, tokens: Tokens, now: Instant, expiresAt: Option<Instant>)
    | Connect(account: Uuid)
    | RejectGrant(account: Uuid, id: Uuid, now: Instant)
    | ActivateWrite(account: Uuid, id: Uuid, tokens: Tokens, now: Instant, expiresAt: Option<Instant>)
    | Lock(session: Uuid, account: Uuid, id: Uuid, presented: Option<string>, revoking: bool)
    | Refuse(session: Uuid)
    | RevokeReplay(session: Uuid)
    | CallProvider(session: Uuid)
    | Commit(session: Uuid, answer: ProviderAnswer, now: Instant)
    | Rollback(session: Uuid)

  predicate LockedRow(w: World, id: Uuid) { exists s :: s in w.sessions && w.sessions[s].id == id }

  /** A refresh sends the presented refresh token, a revocation the stored access token. */
  function TokenOf(s: Session): string
    requires s.row.payload.Some?
  {
    if s.revoking then s.row.payload.value.access
    else if s.presented.Some? then s.presented.value else s.row.payload.value.refresh
  }

  /**
   The select picks the newest active row, but one that had to wait for its row lock re-checks only that row, so it may
   be granted an active row that a newer one has overtaken. `Lock` therefore takes any active row.
   */
  ghost predicate Enabled(w: World, step: Step)
  {
    match step
    case Exchange(_, id, _, _, _) => id !in w.vault.credentials && id !in w.chains
    case Connect(_) => true
    case RejectGrant(_, id, _) => id !in w.vault.credentials && id !in w.chains
    case ActivateWrite(account, id, _, _, _) =>
      && id !in w.vault.credentials && id !in w.chains
      && forall x | x in ActiveOf(w.vault, account) :: !LockedRow(w, x)
    case Lock(session, account, id, _, _) =>
      && session !in w.sessions && id in ActiveOf(w.vault, account) && !LockedRow(w, id)
    case Refuse(session) =>
      && session in w.sessions && !w.sessions[session].revoking && !w.sessions[session].called
      && (w.sessions[session].row.payload.Some? ==> Classify(w.sessions[session].row, w.sessions[session].presented) == Stale)
    case RevokeReplay(session) =>
      && session in w.sessions && !w.sessions[session].revoking && !w.sessions[session].called
      && w.sessions[session].row.payload.Some? && Classify(w.sessions[session].row, w.sessions[session].presented) == Replayed
    case CallProvider(session) =>
      && session in w.sessions && !w.sessions[session].called && w.sessions[session].row.payload.Some?
      && (w.sessions[session].revoking || Classify(w.sessions[session].row, w.sessions[session].presented) == Current)
    case Commit(session, _, _) => session in w.sessions && w.sessions[session].called && w.sessions[session].row.payload.Some?
    case Rollback(session) => session in w.sessions
  }

  /** A committed rotation puts the new refresh token at the end of the row's chain. */
  ghost function ApplyCommit(w: World, session: Uuid, answer: ProviderAnswer, now: Instant): World
    requires Enabled(w, Commit(session, answer, now))
  {
    var s := w.sessions[session];
    var closed := w.(sessions := w.sessions - {session});
    if s.revoking then
      if answer == Unreachable then closed
      else closed.(vault := SetConnection(ScrubRevoke(w.vault, s.id), s.row.account, Disconnected))
    else
      var (v, result) := Settle(w.vault, s.id, s.row, answer, now);
      closed.(vault := v,
              chains := if result == Refreshed && s.id in w.chains
                        then w.chains[s.id := w.chains[s.id] + [answer.tokens.refresh]] else w.chains)
  }

  ghost function Apply(w: World, step: Step): World
    requires Enabled(w, step)
  {
    match step
    case Exchange(account, id, tokens, now, expiresAt) =>
      w.(vault := w.vault.(credentials := w.vault.credentials[id := Credential(account, Some(tokens), Active, now, expiresAt, None)]),
         chains := w.chains[id := [tokens.refresh]])
    case Connect(account) => w.(vault := SetConnection(w.vault, account, Connected))
    case RejectGrant(account, id, now) =>
      w.(vault := w.vault.(credentials := w.vault.credentials[id := Credential(account, None, Expired, now, None, None)]))
    case ActivateWrite(account, id, tokens, now, expiresAt) =>
      w.(vault := Activate(w.vault, account, id, tokens, now, expiresAt), chains := w.chains[id := [tokens.refresh]])
    case Lock(session, account, id, presented, revoking) =>
      w.(sessions := w.sessions[session := Session(id, w.vault.credentials[id], presented, false, revoking)])
    case Refuse(session) => w.(sessions := w.sessions - {session})
    case RevokeReplay(session) =>
      w.(vault := RevokeFamily(w.vault, w.sessions[session].id, w.sessions[session].row.account),
         sessions := w.sessions - {session})
    case CallProvider(session) =>
      w.(sessions := w.sessions[session := w.sessions[session].(called := true)],
         calls := w.calls + [(w.sessions[session].id, TokenOf(w.sessions[session]))])
    case Commit(session, answer, now) => ApplyCommit(w, session, answer, now)
    case Rollback(session) => w.(sessions := w.sessions - {session})
  }

  ghost predicate Legal(w: World, steps: seq<Step>)
    decreases |steps|
  {
    steps == [] || (Enabled(w, steps[0]) && Legal(Apply(w, steps[0]), steps[1..]))
  }

  ghost function Exec(w: World, steps: seq<Step>): World
    requires Legal(w, steps)
    decreases |steps|
  {
    if steps == [] then w else Exec(Apply(w, steps[0]), steps[1..])
  }

  ghost predicate Initial(w: World) { w.vault.credentials == map[] && w.sessions == map[] && w.chains == map[] && w.calls == [] }

  ghost predicate Reachable(w: World) { exists start, steps :: Reaches(start, steps, w) }

  ghost predicate Reaches(start: World, steps: seq<Step>, w: World) { Initial(start) && Legal(start, steps) && Exec(start, steps) == w }

  // ---------------------------------------------------------------- invariants

  /** The stored token ends the chain, and the retired hash is that of its predecessor. */
  predicate FollowsChain(row: Credential, chain: seq<string>)
  {
    && chain != []
    && (row.payload.Some? ==> row.payload.value.refresh == chain[|chain| - 1])
    && row.retired == RetiredOf(chain)
  }

  function RetiredOf(chain: seq<string>): Option<Digest>
  {
    if |chain| < 2 then None else Some(Sha256(chain[|chain| - 2]))
  }

  ghost predicate RowsInv(w: World)
  {
    && (forall id | id in w.chains :: id in w.vault.credentials && FollowsChain(w.vault.credentials[id], w.chains[id]))
    && (forall id | id in w.vault.credentials && w.vault.credentials[id].status == Active ::
          id in w.chains && w.vault.credentials[id].payload.Some?)
  }

  /** Locks are exclusive, and a locked row is still the row its session read. */
  ghost predicate LocksInv(w: World)
  {
    && (forall s | s in w.sessions :: SessionFits(w.vault, w.sessions[s]))
    && (forall s, t | s in w.sessions && t in w.sessions && s != t :: w.sessions[s].id != w.sessions[t].id)
  }

  predicate SessionFits(v: Vault, s: Session)
  {
    && s.id in v.credentials && v.credentials[s.id] == s.row && s.row.status == Active
    && (s.called && !s.revoking && s.row.payload.Some? ==> Classify(s.row, s.presented) == Current)
  }

  ghost predicate Inv(w: World) { RowsInv(w) && LocksInv(w) }

  /** Rows other than one are unchanged. */
  predicate OnlyRow(v: Vault, x: Vault, id: Uuid)
  {
    && id in v.credentials && id in x.credentials && x.credentials == v.credentials[id := x.credentials[id]]
  }

  lemma CommitShape(w: World, session: Uuid, answer: ProviderAnswer, now: Instant)
    requires Inv(w) && Enabled(w, Commit(session, answer, now))
    ensures var s := w.sessions[session];
            var x := ApplyCommit(w, session, answer, now);
            && OnlyRow(w.vault, x.vault, s.id) && x.sessions == w.sessions - {session} && x.calls == w.calls
            && s.id in w.chains
            && if !s.revoking && answer.Rotated? then
                 && x.vault.credentials[s.id].payload == Some(answer.tokens) && x.vault.credentials[s.id].status == Active
                 && x.vault.credentials[s.id].retired == Some(Sha256(s.row.payload.value.refresh))
                 && x.chains == w.chains[s.id := w.chains[s.id] + [answer.tokens.refresh]]
               else
                 && x.chains == w.chains && x.vault.credentials[s.id].retired == s.row.retired
                 && x.vault.credentials[s.id].payload in {s.row.payload, None}
                 && (x.vault.credentials[s.id].status == Active ==> x.vault.credentials[s.id] == s.row)
  {
    assert SessionFits(w.vault, w.sessions[session]);
  }

  lemma CommitKeeps(w: World, session: Uuid, answer: ProviderAnswer, now: Instant)
    requires Inv(w) && Enabled(w, Commit(session, answer, now))
    ensures Inv(Apply(w, Commit(session, answer, now)))
  {
    var s := w.sessions[session];
    var x := ApplyCommit(w, session, answer, now);
    CommitShape(w, session, answer, now);
    assert FollowsChain(w.vault.credentials[s.id], w.chains[s.id]) && SessionFits(w.vault, s);
    ReleaseKeepsLocks(w, x, session);
  }

  /** Committing on one's own locked row disturbs no other session. */
  lemma ReleaseKeepsLocks(w: World, x: World, session: Uuid)
    requires LocksInv(w) && session in w.sessions && x.sessions == w.sessions - {session}
    requires OnlyRow(w.vault, x.vault, w.sessions[session].id)
    ensures LocksInv(x)
  {
    forall t | t in x.sessions ensures SessionFits(x.vault, x.sessions[t]) {
      assert SessionFits(w.vault, w.sessions[t]);
      assert w.sessions[t].id != w.sessions[session].id;
    }
  }

  lemma ReplayKeeps(w: World, session: Uuid)
    requires Inv(w) && Enabled(w, RevokeReplay(session))
    ensures Inv(Apply(w, RevokeReplay(session)))
  {
    var s := w.sessions[session];
    var x := Apply(w, RevokeReplay(session));
    assert SessionFits(w.vault, s);
    assert FollowsChain(w.vault.credentials[s.id], w.chains[s.id]);
    ReleaseKeepsLocks(w, x, session);
  }

  lemma InsertKeeps(w: World, step: Step)
    requires Inv(w) && Enabled(w, step) && (step.Exchange? || step.RejectGrant?)
    ensures Inv(Apply(w, step))
  {
    var x := Apply(w, step);
    assert x.vault.credentials == w.vault.credentials[step.id := x.vault.credentials[step.id]];
    forall id | id in x.chains ensures id in x.vault.credentials && FollowsChain(x.vault.credentials[id], x.chains[id]) {
      if id != step.id {
        assert FollowsChain(w.vault.credentials[id], w.chains[id]);
      }
    }
    forall t | t in x.sessions ensures SessionFits(x.vault, x.sessions[t]) {
      assert SessionFits(w.vault, w.sessions[t]);
    }
  }

  lemma ActivateKeeps(w: World, step: Step)
    requires Inv(w) && Enabled(w, step) && step.ActivateWrite?
    ensures Inv(Apply(w, step))
  {
    var x := Apply(w, step);
    forall id | id in x.chains ensures id in x.vault.credentials && FollowsChain(x.vault.credentials[id], x.chains[id]) {
      if id != step.id {
        assert FollowsChain(w.vault.credentials[id], w.chains[id]);
      }
    }
    forall t | t in x.sessions ensures SessionFits(x.vault, x.sessions[t]) {
      assert SessionFits(w.vault, w.sessions[t]);
      assert LockedRow(w, w.sessions[t].id);
    }
  }

  lemma SessionStepsKeep(w: World, step: Step)
    requires Inv(w) && Enabled(w, step) && (step.Lock? || step.Connect? || step.Refuse? || step.CallProvider? || step.Rollback?)
    ensures Inv(Apply(w, step))
  {
    var x := Apply(w, step);
    assert x.vault.credentials == w.vault.credentials && x.chains == w.chains;
    forall t | t in x.sessions ensures SessionFits(x.vault, x.sessions[t]) {
      if t in w.sessions {
        assert SessionFits(w.vault, w.sessions[t]);
      }
    }
    if step.Lock? {
      forall t | t in w.sessions ensures w.sessions[t].id != step.id {
        assert !LockedRow(w, step.id);
      }
    }
  }

  lemma StepKeepsInv(w: World, step: Step)
    requires Inv(w) && Enabled(w, step)
    ensures Inv(Apply(w, step))
  {
    match step
    case Exchange(_, _, _, _, _) => InsertKeeps(w, step);
    case RejectGrant(_, _, _) => InsertKeeps(w, step);
    case ActivateWrite(_, _, _, _, _) => ActivateKeeps(w, step);
    case RevokeReplay(session) => ReplayKeeps(w, session);
    case Commit(session, answer, now) => CommitKeeps(w, session, answer, now);
    case _ => SessionStepsKeep(w, step);
  }

  lemma {:induction false} RunKeepsInv(w: World, steps: seq<Step>)
    requires Inv(w) && Legal(w, steps)
    ensures Inv(Exec(w, steps))
    decreases |steps|
  {
    if steps != [] {
      StepKeepsInv(w, steps[0]);
      RunKeepsInv(Apply(w, steps[0]), steps[1..]);
    }
  }

  lemma ReachableInv(w: World)
    requires Reachable(w)
    ensures Inv(w)
  {
    var start, steps :| Reaches(start, steps, w);
    RunKeepsInv(start, steps);
  }

  // ---------------------------------------------------------------- main results

  /** In every reachable state the retired hash is that of the token that was current just before. */
  lemma RetiredIsPredecessor(w: World, id: Uuid)
    requires Reachable(w) && id in w.chains
    ensures id in w.vault.credentials && w.chains[id] != []
    ensures w.vault.credentials[id].retired == RetiredOf(w.chains[id])
    ensures w.vault.credentials[id].payload.Some? ==>
              w.vault.credentials[id].payload.value.refresh == w.chains[id][|w.chains[id]| - 1]
  {
    ReachableInv(w);
  }

  /**
   What a presented token is taken for, in terms of the tokens the row ever held: the last one is current, its
   immediate predecessor is a replay unless the provider issued the same value again, and every other is stale.
   */
  lemma PresentationIsExact(w: World, session: Uuid, token: string)
    requires Reachable(w) && session in w.sessions
    ensures w.sessions[session].id in w.chains && w.sessions[session].row.payload.Some?
    ensures var chain := w.chains[w.sessions[session].id];
            var verdict := Classify(w.sessions[session].row, Some(token));
            && chain != []
            && (verdict == Current <==> token == chain[|chain| - 1])
            && (verdict == Replayed <==> |chain| >= 2 && token == chain[|chain| - 2] && token != chain[|chain| - 1])
  {
    ReachableInv(w);
    var s := w.sessions[session];
    assert SessionFits(w.vault, s);
    assert FollowsChain(w.vault.credentials[s.id], w.chains[s.id]);
  }

  /** Presenting the predecessor scrubs and revokes the row, marks the account, and calls nobody. */
  lemma ReplayScrubs(w: World, session: Uuid)
    requires Reachable(w) && Enabled(w, RevokeReplay(session))
    ensures var s := w.sessions[session];
            var x := Apply(w, RevokeReplay(session));
            && s.id in x.vault.credentials && x.vault.credentials[s.id].status == Revoked && x.vault.credentials[s.id].payload.None?
            && x.calls == w.calls && !Enabled(w, CallProvider(session)) && !Enabled(w, Refuse(session))
            && (s.row.account in w.vault.accounts ==> x.vault.accounts[s.row.account] == ReauthRequired)
            && forall other | other in w.vault.credentials && other != s.id :: x.vault.credentials[other] == w.vault.credentials[other]
  {
    ReachableInv(w);
    assert SessionFits(w.vault, w.sessions[session]);
  }

  /** A stale token can only end its session: no call, no commit, nothing changed. */
  lemma StaleChangesNothing(w: World, session: Uuid, step: Step)
    requires Reachable(w) && session in w.sessions && !w.sessions[session].revoking && Enabled(w, step)
    requires w.sessions[session].row.payload.Some? && Classify(w.sessions[session].row, w.sessions[session].presented) == Stale
    requires step in {Refuse(session), RevokeReplay(session), CallProvider(session), Rollback(session)} || (step.Commit? && step.session == session)
    ensures Apply(w, step) == w.(sessions := w.sessions - {session})
  {
    ReachableInv(w);
    assert SessionFits(w.vault, w.sessions[session]);
  }

  /** While its session holds the lock, the guarded rotation always lands. */
  lemma RotationCannotMiss(w: World, session: Uuid, answer: ProviderAnswer, now: Instant)
    requires Reachable(w) && Enabled(w, Commit(session, answer, now)) && answer.Rotated? && !w.sessions[session].revoking
    ensures RotationLands(w.vault, w.sessions[session].id, w.sessions[session].row.retired)
    ensures w.sessions[session].id in w.chains
    ensures Apply(w, Commit(session, answer, now)).chains
            == w.chains[w.sessions[session].id := w.chains[w.sessions[session].id] + [answer.tokens.refresh]]
  {
    ReachableInv(w);
    assert SessionFits(w.vault, w.sessions[session]);
    CommitShape(w, session, answer, now);
  }

  lemma InactiveStays(w: World, step: Step, id: Uuid)
    requires Inv(w) && Enabled(w, step) && id in w.vault.credentials && w.vault.credentials[id].status != Active
    ensures id in Apply(w, step).vault.credentials && Apply(w, step).vault.credentials[id] == w.vault.credentials[id]
  {
    if step.Commit? {
      CommitShape(w, step.session, step.answer, step.now);
      assert SessionFits(w.vault, w.sessions[step.session]);
    } else if step.RevokeReplay? {
      assert SessionFits(w.vault, w.sessions[step.session]);
    }
  }

  /** A row that is no longer active never changes again, so it is never active again. */
  lemma {:induction false} NeverActiveAgain(w: World, steps: seq<Step>, id: Uuid)
    requires Inv(w) && Legal(w, steps) && id in w.vault.credentials && w.vault.credentials[id].status != Active
    ensures id in Exec(w, steps).vault.credentials && Exec(w, steps).vault.credentials[id] == w.vault.credentials[id]
    decreases |steps|
  {
    if steps != [] {
      InactiveStays(w, steps[0], id);
      StepKeepsInv(w, steps[0]);
      NeverActiveAgain(Apply(w, steps[0]), steps[1..], id);
    }
  }

  /** Activating a write grant leaves its own row as the account's only active one, and no other account's row changed. */
  lemma ActivationLeavesOneActive(v: Vault, account: Uuid, id: Uuid, tokens: Tokens, now: Instant, expiresAt: Option<Instant>)
    requires id !in v.credentials
    ensures var x := Activate(v, account, id, tokens, now, expiresAt);
            && ActiveOf(x, account) == {id} && x.credentials[id].payload == Some(tokens) && x.credentials[id].retired.None?
            && x.credentials[id].createdAt == now && x.credentials[id].expiresAt == expiresAt && x.accounts == v.accounts
            && x.credentials.Keys == v.credentials.Keys + {id}
            && (forall other | other in v.credentials && v.credentials[other].account != account :: x.credentials[other] == v.credentials[other])
            && (forall other | other in v.credentials && v.credentials[other].account == account ::
                  x.credentials[other] == if v.credentials[other].status == Active then v.credentials[other].(status := Expired) else v.credentials[other])
  {
    assert ActiveOf(Activate(v, account, id, tokens, now, expiresAt), account) == {id};
  }

  /** The token sent to the provider is always the stored one: no other value ever leaves the service. */
  lemma CallsSendTheCurrentToken(w: World, session: Uuid)
    requires Reachable(w) && Enabled(w, CallProvider(session)) && !w.sessions[session].revoking
    ensures w.sessions[session].id in w.chains
    ensures var chain := w.chains[w.sessions[session].id];
            chain != [] && Apply(w, CallProvider(session)).calls == w.calls + [(w.sessions[session].id, chain[|chain| - 1])]
  {
    ReachableInv(w);
    assert SessionFits(w.vault, w.sessions[session]);
    assert FollowsChain(w.vault.credentials[w.sessions[session].id], w.chains[w.sessions[session].id]);
  }

  /** Undisturbed, a session does what the sequential refresh does, and calls the provider exactly when that does. */
  lemma SessionRefinesRefresh(
    w: World, session: Uuid, account: Uuid, id: Uuid, presented: Option<string>, answer: ProviderAnswer, now: Instant)
    requires Inv(w) && Enabled(w, Lock(session, account, id, presented, false))
    ensures w.vault.credentials[id].payload.Some?
    ensures var w1 := Apply(w, Lock(session, account, id, presented, false));
            var (v, _, contacted) := RefreshOn(w.vault, id, presented, answer, now);
            match Classify(w.vault.credentials[id], presented)
            case Replayed => Enabled(w1, RevokeReplay(session)) && Apply(w1, RevokeReplay(session)).vault == v && !contacted
            case Stale => Enabled(w1, Refuse(session)) && Apply(w1, Refuse(session)).vault == v && !contacted
            case Current =>
              && contacted && Enabled(w1, CallProvider(session))
              && var w2 := Apply(w1, CallProvider(session));
              Enabled(w2, Commit(session, answer, now)) && Apply(w2, Commit(session, answer, now)).vault == v
  {
    assert id in w.vault.credentials && w.vault.credentials[id].status == Active;
  }

  lemma Then(w: World, step: Step, rest: seq<Step>)
    requires Enabled(w, step) && Legal(Apply(w, step), rest)
    ensures Legal(w, [step] + rest) && Exec(w, [step] + rest) == Exec(Apply(w, step), rest)
  {
    assert ([step] + rest)[1..] == rest;
  }

  /** A code exchange, and a refresh whose provider issues the same refresh value again. */
  function Reissues(account: Uuid, tokens: Tokens, access: string, expiresIn: nat, now: Instant): seq<Step>
  {
    [Exchange(account, 0, tokens, now, None)]
    + ([Lock(1, account, 0, None, false)]
    + ([CallProvider(1)]
    + ([Commit(1, Rotated(Tokens(access, tokens.refresh), expiresIn), now)] + [])))
  }

  lemma ReissueRun(w: World, account: Uuid, tokens: Tokens, access: string, expiresIn: nat, now: Instant)
    requires Initial(w)
    ensures Legal(w, Reissues(account, tokens, access, expiresIn, now))
    ensures var x := Exec(w, Reissues(account, tokens, access, expiresIn, now));
            && x.sessions == map[] && x.vault.credentials.Keys == {0} && x.chains == map[0 := [tokens.refresh, tokens.refresh]]
            && x.vault.credentials[0] == Credential(account, Some(Tokens(access, tokens.refresh)), Active, now, Some(now + expiresIn),
                                                    Some(Sha256(tokens.refresh)))
  {
    var exchange, lock, call := Exchange(account, 0, tokens, now, None), Lock(1, account, 0, None, false), CallProvider(1);
    var commit := Commit(1, Rotated(Tokens(access, tokens.refresh), expiresIn), now);
    var w1 := Apply(w, exchange);
    assert 0 in ActiveOf(w1.vault, account);
    var w2 := Apply(w1, lock);
    var w3 := Apply(w2, call);
    var w4 := Apply(w3, commit);
    Then(w3, commit, []);
    Then(w2, call, [commit] + []);
    Then(w1, lock, [call] + ([commit] + []));
    Then(w, exchange, [lock] + ([call] + ([commit] + [])));
    assert [tokens.refresh] + [tokens.refresh] == [tokens.refresh, tokens.refresh];
  }

  /**
   The exception to reuse detection, as a run: the provider issues the same refresh value again, so the token just
   before is also the current one. A session that presents it is not a replay: it can call the provider, and neither
   the scrub nor the refusal is open to it, although the retired hash is that of the token it presents.
   */
  lemma ReissuedTokenIsNotReplay(w: World, account: Uuid, tokens: Tokens, access: string, expiresIn: nat, now: Instant)
    requires Initial(w)
    ensures var steps := Reissues(account, tokens, access, expiresIn, now);
            && Legal(w, steps)
            && var x := Exec(w, steps);
            && x.chains == map[0 := [tokens.refresh, tokens.refresh]]
            && 0 in x.vault.credentials && x.vault.credentials[0].retired == Some(Sha256(tokens.refresh))
            && Enabled(x, Lock(2, account, 0, Some(tokens.refresh), false))
            && var y := Apply(x, Lock(2, account, 0, Some(tokens.refresh), false));
            Enabled(y, CallProvider(2)) && !Enabled(y, RevokeReplay(2)) && !Enabled(y, Refuse(2))
  {
    ReissueRun(w, account, tokens, access, expiresIn, now);
  }
}
