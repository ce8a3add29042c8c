/**
 What each answer of the resolver does to an open capture, its owner's source and the event log, written out column by
 column and event by event; and what intake and a lease store.
 */
module CaptureOutcomes {
  import opened Common
  import opened ExplicitCapture

  /** The text a reader sees: the long form where there is one. */
  function EffectiveText(post: PublicPost): string { match post.longText case Some(long) => long case None => post.text }

  /** Seconds before the next try, by the number of tries made so far. */
  function DelayAfter(tries: nat): int { if tries <= 1 then 30 else if tries == 2 then 120 else if tries == 3 then 480 else 1800 }

  /** Only this capture's row differs. */
  predicate OnlyCapture(l: Lane, m: Lane, id: Uuid)
  {
    m.inbox == l.inbox && id in m.captures && m.captures == l.captures[id := m.captures[id]]
  }

  /** The capture ended now, with one more try, and keeps what identifies it. */
  predicate EndedAs(before: Capture, after: Capture, status: CaptureStatus, source: Option<Uuid>, now: Instant)
  {
    && after.command == before.command && after.operation == before.operation && after.owner == before.owner && after.post == before.post
    && after.capturedAt == before.capturedAt
    && after.status == status && after.attempts == before.attempts + 1 && after.source == source
    && after.reportedAt == Some(now) && after.nextAttemptAt == now
  }

  /** The capture ended unavailable with the report of this failure, after these other events. */
  predicate EndsUnavailable(l: Lane, m: Lane, claim: Claimed, failure: Failure, now: Instant, events: seq<Event>)
    requires Open(l, claim.id)
  {
    && OnlyCapture(l, m, claim.id) && EndedAs(l.captures[claim.id], m.captures[claim.id], Unavailable, l.captures[claim.id].source, now)
    && m.outbox == l.outbox + events + [Reported(claim.id, claim.command, claim.operation, claim.owner, Failed(failure))]
  }

  // ---------------------------------------------------------------- a failed resolution

  lemma TerminationWithout(l: Lane, claim: Claimed, failure: Failure, now: Instant, removedAt: Instant)
    requires Open(l, claim.id) && (failure != Deleted || SourceKey(claim.owner, claim.post) !in l.sources)
    ensures var m := TerminateCapture(l, claim, failure, now, removedAt);
            m.sources == l.sources && EndsUnavailable(l, m, claim, failure, now, [])
  {
    assert l.outbox + [] == l.outbox;
  }

  lemma TerminationRemoving(l: Lane, claim: Claimed, now: Instant, removedAt: Instant)
    requires Open(l, claim.id) && SourceKey(claim.owner, claim.post) in l.sources
    ensures var m := TerminateCapture(l, claim, Deleted, now, removedAt);
            var key := SourceKey(claim.owner, claim.post);
            && m.sources == l.sources - {key}
            && EndsUnavailable(l, m, claim, Deleted, now, [Social(claim.owner, Removed(l.sources[key].source, removedAt))])
  {
  }

  /**
   A failed resolution of an open capture. A transient failure with a try left only reschedules it. Every other ends it
   with the resolver's own failure in the report, and the owner's source for the post is removed, with one Removed event
   naming it, exactly when the post was deleted and the owner had one.
   */
  lemma MissingPostOutcome(l: Lane, claim: Claimed, failure: Failure, turn: Turn, policy: Policy)
    requires Open(l, claim.id) && turn.answer == Missing(failure)
    ensures var m := Handle(l, claim, turn, policy);
            var key := SourceKey(claim.owner, claim.post);
            var tries := if claim.attempts < 0x7fff_ffff then claim.attempts + 1 else 0x7fff_ffff;
            if failure == Transient && tries < policy.maxAttempts then
              && OnlyCapture(l, m, claim.id) && m.sources == l.sources && m.outbox == l.outbox
              && m.captures[claim.id] == l.captures[claim.id].(
                   attempts := l.captures[claim.id].attempts + 1, nextAttemptAt := turn.now + DelayAfter(tries))
            else if failure == Deleted && key in l.sources then
              && m.sources == l.sources - {key}
              && EndsUnavailable(l, m, claim, Deleted, turn.now, [Social(claim.owner, Removed(l.sources[key].source, turn.removedAt))])
            else
              m.sources == l.sources && EndsUnavailable(l, m, claim, failure, turn.now, [])
  {
    var tries := if claim.attempts < 0x7fff_ffff then claim.attempts + 1 else 0x7fff_ffff;
    if failure == Transient && tries < policy.maxAttempts {
      RetryDelays(tries);
    } else if failure == Deleted && SourceKey(claim.owner, claim.post) in l.sources {
      TerminationRemoving(l, claim, turn.now, turn.removedAt);
    } else {
      TerminationWithout(l, claim, failure, turn.now, turn.removedAt);
    }
  }

  // ---------------------------------------------------------------- a resolved post

  /** The stored source shows the same post with the same effective text and everything else. */
  predicate ShowsSame(row: SourceRow, post: PublicPost)
  {
    row.digest.post == post.id && row.digest.body == EffectiveText(post) && row.digest.rest == post.rest
  }

  /** The row a resolved post is stored as. */
  predicate StoresPost(row: SourceRow, source: Uuid, post: PublicPost, capturedAt: Instant)
  {
    && row.source == source && row.text == post.text && row.longText == post.longText && row.rest == post.rest
    && ShowsSame(row, post) && row.capturedAt == capturedAt
  }

  /** The snapshot an event carries of a resolved post. */
  predicate ShowsPost(snapshot: Snapshot, source: Uuid, post: PublicPost, capturedAt: Instant)
  {
    && snapshot.source == source && snapshot.post == post.id && snapshot.body == EffectiveText(post)
    && snapshot.digest == ContentDigest(post.id, EffectiveText(post), post.rest) && snapshot.capturedAt == capturedAt
  }

  /** The capture ended resolved with this source and the report of it, after these other events. */
  predicate EndsPreserved(l: Lane, m: Lane, claim: Claimed, source: Uuid, now: Instant, events: seq<Event>)
    requires Open(l, claim.id)
  {
    && OnlyCapture(l, m, claim.id) && EndedAs(l.captures[claim.id], m.captures[claim.id], Resolved, Some(source), now)
    && m.outbox == l.outbox + events + [Reported(claim.id, claim.command, claim.operation, claim.owner, Preserved(source))]
  }

  /** What is stored and announced for a post that is new or has changed. */
  ghost predicate Publishes(l: Lane, m: Lane, claim: Claimed, source: Uuid, post: PublicPost, now: Instant, isNew: bool)
    requires Open(l, claim.id)
  {
    var key := SourceKey(claim.owner, claim.post);
    && key in m.sources && m.sources == l.sources[key := m.sources[key]] && StoresPost(m.sources[key], source, post, claim.capturedAt)
    && exists snapshot :: ShowsPost(snapshot, source, post, claim.capturedAt)
         && EndsPreserved(l, m, claim, source, now, [Social(claim.owner, if isNew then Captured(snapshot) else Updated(snapshot))])
  }

  lemma PreservesKnown(l: Lane, claim: Claimed, post: PublicPost, now: Instant, minted: Uuid)
    requires Open(l, claim.id) && SourceKey(claim.owner, claim.post) in l.sources
    requires ShowsSame(l.sources[SourceKey(claim.owner, claim.post)], post)
    ensures Unchanged(l, claim, post)
    ensures var m := PreserveCapture(l, claim, post, now, minted);
            m.sources == l.sources && EndsPreserved(l, m, claim, l.sources[SourceKey(claim.owner, claim.post)].source, now, [])
  {
    assert l.outbox + [] == l.outbox;
  }

  lemma PreservesNew(l: Lane, claim: Claimed, post: PublicPost, now: Instant, minted: Uuid)
    requires Open(l, claim.id) && post.id == claim.post
    requires var key := SourceKey(claim.owner, claim.post); key in l.sources ==> !ShowsSame(l.sources[key], post)
    ensures !Unchanged(l, claim, post)
    ensures var key := SourceKey(claim.owner, claim.post);
            Publishes(l, PreserveCapture(l, claim, post, now, minted), claim,
                      if key in l.sources then l.sources[key].source else minted, post, now, key !in l.sources)
  {
    var key := SourceKey(claim.owner, claim.post);
    var source := if key in l.sources then l.sources[key].source else minted;
    var m := PreserveCapture(l, claim, post, now, minted);
    assert DigestOf(post) == ContentDigest(post.id, EffectiveText(post), post.rest);
    var snapshot := Snapshot(source, post.id, EffectiveText(post), ContentDigest(post.id, EffectiveText(post), post.rest), claim.capturedAt);
    assert ShowsPost(snapshot, source, post, claim.capturedAt);
    assert EndsPreserved(l, m, claim, source, now, [Social(claim.owner, if key !in l.sources then Captured(snapshot) else Updated(snapshot))]);
  }

  /**
   A resolved post. Another post than the one asked for, or a new or changed one the social contract cannot represent,
   ends the capture as inaccessible and touches no source. A post shown unchanged only ends it. A new one is stored under
   a minted id and announced as Captured, a changed one under its id and announced as Updated, both as shown.
   */
  lemma FoundPostOutcome(l: Lane, claim: Claimed, post: PublicPost, turn: Turn, policy: Policy)
    requires Open(l, claim.id) && turn.answer == Found(post)
    ensures var m := Handle(l, claim, turn, policy);
            var key := SourceKey(claim.owner, claim.post);
            var known := key in l.sources && ShowsSame(l.sources[key], post);
            if post.id != claim.post || (!known && !post.representable) then
              m.sources == l.sources && EndsUnavailable(l, m, claim, Inaccessible, turn.now, [])
            else if known then
              m.sources == l.sources && EndsPreserved(l, m, claim, l.sources[key].source, turn.now, [])
            else if key in l.sources then
              Publishes(l, m, claim, l.sources[key].source, post, turn.now, false)
            else
              Publishes(l, m, claim, turn.minted, post, turn.now, true)
  {
    var key := SourceKey(claim.owner, claim.post);
    if key in l.sources && ShowsSame(l.sources[key], post) {
      PreservesKnown(l, claim, post, turn.now, turn.minted);
    } else if post.id == claim.post {
      PreservesNew(l, claim, post, turn.now, turn.minted);
    }
    TerminationWithout(l, claim, Inaccessible, turn.now, turn.removedAt);
  }

  /** What a claim counts as: preserved, deferred, or unavailable with this failure. */
  lemma OutcomesExactly(l: Lane, claim: Claimed, answer: Answer, policy: Policy, failure: Failure)
    ensures var key := SourceKey(claim.owner, claim.post);
            var tries := if claim.attempts < 0x7fff_ffff then claim.attempts + 1 else 0x7fff_ffff;
            var preserved := answer.Found? && answer.post.id == claim.post
                             && (answer.post.representable || (key in l.sources && ShowsSame(l.sources[key], answer.post)));
            var deferred := answer == Missing(Transient) && tries < policy.maxAttempts;
            && (OutcomeFor(l, claim, answer, policy) == DidPreserve <==> preserved)
            && (OutcomeFor(l, claim, answer, policy) == DidDefer <==> deferred)
            && (OutcomeFor(l, claim, answer, policy) == DidTerminate(failure) <==>
                  !preserved && !deferred && failure == if answer.Found? then Inaccessible else answer.failure)
  {
  }

  /** A capture that is no longer open is left alone by every answer. */
  lemma ClosedOutcome(l: Lane, claim: Claimed, turn: Turn, policy: Policy)
    requires !Open(l, claim.id)
    ensures Handle(l, claim, turn, policy) == l
  {
  }

  // ---------------------------------------------------------------- intake and leases

  /**
   A command with a tenant and an unseen id stores one capture of that tenant: queued and due at once when its permalink
   names a status, and otherwise unavailable from the start with its terminal report. Every other changes nothing.
   */
  lemma IntakeStores(l: Lane, command: Command, id: Uuid, now: Instant)
    ensures var (m, delivery) := Intake(l, command, id, now);
            if command.tenant == None then m == l && delivery == MissingTenant
            else if command.id in l.inbox then m == l && delivery == Duplicate
            else
              && delivery == Applied && m.inbox == l.inbox + {command.id} && m.sources == l.sources
              && id in m.captures && m.captures == l.captures[id := m.captures[id]]
              && var row := m.captures[id];
              && row.command == command.id && row.operation == command.operation && row.owner == command.tenant.value
              && row.post == command.post && row.capturedAt == command.capturedAt && row.attempts == 0 && row.nextAttemptAt == now
              && row.source == None
              && if command.post.Some? then
                   && row.status == Accepted && row.reportedAt == None
                   && m.outbox == l.outbox + [Reported(id, command.id, command.operation, command.tenant.value, Queued)]
                 else
                   && row.status == Unavailable && row.reportedAt == Some(now)
                   && m.outbox == l.outbox + [Reported(id, command.id, command.operation, command.tenant.value, Failed(Inaccessible))]
  {
  }

  /**
   A batch: accepted captures with a post whose time has come and that nobody locks; as many as the batch holds; none left
   behind that was due earlier, or as early with a smaller id; each put off by two minutes and otherwise unchanged.
   */
  lemma BatchIsEarliest(captures: map<Uuid, Capture>, locked: set<Uuid>, now: Instant, limit: nat, picked: set<Uuid>)
    requires Selected(captures, locked, now, limit, picked)
    ensures forall id | id in picked ::
              && id in captures && id !in locked && captures[id].status == Accepted && captures[id].post.Some? && captures[id].nextAttemptAt <= now
    ensures forall a, b | a in picked && b in captures && b !in picked && b !in locked && captures[b].status == Accepted
                && captures[b].post.Some? && captures[b].nextAttemptAt <= now ::
              captures[a].nextAttemptAt < captures[b].nextAttemptAt || (captures[a].nextAttemptAt == captures[b].nextAttemptAt && a < b)
    ensures |picked| <= limit
    ensures |picked| < limit ==> forall b | b in captures && b !in locked && captures[b].status == Accepted && captures[b].post.Some?
                && captures[b].nextAttemptAt <= now :: b in picked
    ensures var after := Leased(captures, picked, now);
            && after.Keys == captures.Keys
            && forall id | id in captures ::
                 after[id] == if id in picked then captures[id].(nextAttemptAt := now + 120) else captures[id]
  {
    forall a, b | a in picked && b in captures && b !in picked && b !in locked && captures[b].status == Accepted
        && captures[b].post.Some? && captures[b].nextAttemptAt <= now
      ensures captures[a].nextAttemptAt < captures[b].nextAttemptAt || (captures[a].nextAttemptAt == captures[b].nextAttemptAt && a < b)
    {
      assert b in DueIds(captures, locked, now) - picked;
      assert Before(captures, a, b);
    }
    if |picked| < limit {
      forall b | b in DueIds(captures, locked, now) ensures b in picked {
        if b !in picked {
          CardinalityMonotone(picked, DueIds(captures, locked, now) - {b});
          CardinalityRemove(DueIds(captures, locked, now), b);
        }
      }
    }
  }
}
