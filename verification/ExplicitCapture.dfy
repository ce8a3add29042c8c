/**
 The explicit capture lane: browser-capture commands become queued captures, leased workers resolve them
 against the public post, and each capture ends in one transaction that changes the owner's source, queues
 the social event and queues the one terminal operation report.
 */
module ExplicitCapture {
  import opened Common

  const LEASE: int := 120
  const FIRST_RETRY_SECONDS: int := 30
  const MAX_RETRY_SECONDS: int := 1800
  const MAX_I32: int := 0x7fff_ffff

  datatype CaptureStatus = Accepted | Resolved | Unavailable

  datatype Capture = Capture(
    command: string, operation: Uuid, owner: Uuid, post: Option<PostId>, capturedAt: Instant,
    status: CaptureStatus, attempts: nat, nextAttemptAt: Instant, source: Option<Uuid>, reportedAt: Option<Instant>)

  datatype Failure = Deleted | Inaccessible | Transient

  datatype Report = Queued | Preserved(source: Uuid) | Failed(reason: Failure)

  /** What the semantic digest covers: the effective text, and everything else the public post shows. */
  datatype ContentDigest = ContentDigest(post: PostId, body: string, rest: string)

  /**
   A resolved public post. `rest` stands for author, publication time and expanded links; `representable`
   says whether the shared social contract admits a snapshot of it.
   */
  datatype PublicPost = PublicPost(id: PostId, text: string, longText: Option<string>, rest: string, representable: bool)

  function Body(text: string, longText: Option<string>): string { if longText.Some? then longText.value else text }

  function DigestOf(post: PublicPost): ContentDigest { ContentDigest(post.id, Body(post.text, post.longText), post.rest) }

  datatype SourceKey = SourceKey(owner: Uuid, post: PostId)

  /** A row of `explicit_sources`; unique per (owner, post). */
  datatype SourceRow = SourceRow(source: Uuid, text: string, longText: Option<string>, rest: string,
                                 digest: ContentDigest, capturedAt: Instant)

  /** The state carried by a captured or updated event. */
  datatype Snapshot = Snapshot(source: Uuid, post: PostId, body: string, digest: ContentDigest, capturedAt: Instant)

  datatype Fact = Captured(snapshot: Snapshot) | Updated(snapshot: Snapshot) | Removed(source: Uuid, removedAt: Instant)

  /** A queued envelope: an operation report of one capture, or a social fact of one owner. */
  datatype Event = Reported(capture: Uuid, command: string, operation: Uuid, owner: Uuid, report: Report)
                 | Social(owner: Uuid, fact: Fact)

  /** The tables of the lane; `outbox` lists the envelopes in commit order. */
  datatype Lane = Lane(inbox: set<string>, captures: map<Uuid, Capture>, sources: map<SourceKey, SourceRow>, outbox: seq<Event>)

  /** A valid browser-capture command; `post` is the status id its permalink names, if any. */
  datatype Command = Command(id: string, tenant: Option<Uuid>, operation: Uuid, post: Option<PostId>, capturedAt: Instant)

  datatype Delivery = Applied | Duplicate | MissingTenant

  /** A worker's copy of a claimed row. */
  datatype Claimed = Claimed(id: Uuid, command: string, operation: Uuid, owner: Uuid, post: PostId, attempts: nat, capturedAt: Instant)

  datatype Policy = Policy(maxAttempts: nat, batchSize: nat)

  /** What the resolver answers. */
  datatype Answer = Found(post: PublicPost) | Missing(failure: Failure)

  // ---------------------------------------------------------------- intake

  function Intake(l: Lane, command: Command, id: Uuid, now: Instant): (r: (Lane, Delivery))
  {
    if command.tenant.None? then (l, MissingTenant)
    else if command.id in l.inbox then (l, Duplicate)
    else
      var owner := command.tenant.value;
      var row := if command.post.Some?
        then Capture(command.id, command.operation, owner, command.post, command.capturedAt, Accepted, 0, now, None, None)
        else Capture(command.id, command.operation, owner, None, command.capturedAt, Unavailable, 0, now, None, Some(now));
      var report := if command.post.Some? then Queued else Failed(Inaccessible);
      (Lane(l.inbox + {command.id}, l.captures[id := row], l.sources,
            l.outbox + [Reported(id, command.id, command.operation, owner, report)]), Applied)
  }

  // ---------------------------------------------------------------- leased claims

  predicate Due(row: Capture, now: Instant) { row.status == Accepted && row.post.Some? && row.nextAttemptAt <= now }

  /** Due rows no other transaction holds locked. */
  function DueIds(captures: map<Uuid, Capture>, locked: set<Uuid>, now: Instant): set<Uuid>
  {
    set id | id in captures && id !in locked && Due(captures[id], now)
  }

  predicate Before(captures: map<Uuid, Capture>, a: Uuid, b: Uuid)
    requires a in captures && b in captures
  {
    captures[a].nextAttemptAt < captures[b].nextAttemptAt || (captures[a].nextAttemptAt == captures[b].nextAttemptAt && a <= b)
  }

  /** `order by next_attempt_at, capture_id limit … for update skip locked`. */
  ghost predicate Selected(captures: map<Uuid, Capture>, locked: set<Uuid>, now: Instant, limit: nat, picked: set<Uuid>)
  {
    && picked <= DueIds(captures, locked, now)
    && |picked| == Min(limit, |DueIds(captures, locked, now)|)
    && (forall a, b | a in picked && b in DueIds(captures, locked, now) - picked :: Before(captures, a, b))
  }

  function Leased(captures: map<Uuid, Capture>, picked: set<Uuid>, now: Instant): map<Uuid, Capture>
  {
    map id | id in captures :: if id in picked then captures[id].(nextAttemptAt := now + LEASE) else captures[id]
  }

  function ClaimOf(id: Uuid, row: Capture): Claimed
    requires row.post.Some?
  {
    Claimed(id, row.command, row.operation, row.owner, row.post.value, row.attempts, row.capturedAt)
  }

  /** The claims are the picked rows, each once, in some order. */
  ghost predicate ClaimsOf(captures: map<Uuid, Capture>, picked: set<Uuid>, claims: seq<Claimed>)
  {
    && |claims| == |picked|
    && (forall i | 0 <= i < |claims| :: claims[i].id in picked)
    && (forall i, j | 0 <= i < j < |claims| :: claims[i].id != claims[j].id)
    && (forall i | 0 <= i < |claims| :: claims[i].id in captures && captures[claims[i].id].post.Some?
          && claims[i] == ClaimOf(claims[i].id, captures[claims[i].id]))
  }

  // ---------------------------------------------------------------- outcomes

  function Pow4(exponent: nat): int { if exponent == 0 then 1 else 4 * Pow4(exponent - 1) }

  /** The delay before attempt `failures + 1`. */
  function RetryDelay(failures: int): int
  {
    var exponent := if failures < 1 then 0 else Min(failures - 1, 8);
    Min(FIRST_RETRY_SECONDS * Pow4(exponent), MAX_RETRY_SECONDS)
  }

  /** 30 s, 2 min, 8 min, then 30 min. */
  lemma RetryDelays(failures: int)
    ensures RetryDelay(failures) == if failures <= 1 then 30 else if failures == 2 then 120 else if failures == 3 then 480 else 1800
  {
    assert Pow4(2) == 16;
    if failures >= 4 {
      Pow4Grows(Min(failures - 1, 8));
    }
  }

  lemma {:induction false} Pow4Grows(exponent: nat)
    requires exponent >= 3
    ensures Pow4(exponent) >= 64
  {
    if exponent == 3 {
      assert Pow4(2) == 16;
    } else {
      Pow4Grows(exponent - 1);
    }
  }

  function SaturatingIncrement(attempts: nat): nat { if attempts >= MAX_I32 then MAX_I32 else attempts + 1 }

  predicate HasAttemptsLeft(claim: Claimed, policy: Policy) { SaturatingIncrement(claim.attempts) < policy.maxAttempts }

  /** The guard of every outcome: still accepted and not reported. */
  predicate Open(l: Lane, id: Uuid) { id in l.captures && l.captures[id].status == Accepted && l.captures[id].reportedAt.None? }

  function ReportOf(claim: Claimed, report: Report): Event
  {
    Reported(claim.id, claim.command, claim.operation, claim.owner, report)
  }

  function KeyOf(claim: Claimed): SourceKey { SourceKey(claim.owner, claim.post) }

  function DeferCapture(l: Lane, claim: Claimed, now: Instant): Lane
  {
    if !Open(l, claim.id) then l
    else
      var row := l.captures[claim.id];
      l.(captures := l.captures[claim.id := row.(
        attempts := row.attempts + 1, nextAttemptAt := now + RetryDelay(SaturatingIncrement(claim.attempts)))])
  }

  function RemoveSource(l: Lane, claim: Claimed, removedAt: Instant): Lane
  {
    var key := KeyOf(claim);
    if key !in l.sources then l
    else l.(sources := l.sources - {key}, outbox := l.outbox + [Social(claim.owner, Removed(l.sources[key].source, removedAt))])
  }

  function Closed(row: Capture, status: CaptureStatus, source: Option<Uuid>, now: Instant): Capture
  {
    row.(status := status, attempts := row.attempts + 1, source := source, reportedAt := Some(now), nextAttemptAt := now)
  }

  function TerminateCapture(l: Lane, claim: Claimed, failure: Failure, now: Instant, removedAt: Instant): Lane
  {
    if !Open(l, claim.id) then l
    else
      var row := l.captures[claim.id];
      var closed := l.(captures := l.captures[claim.id := Closed(row, Unavailable, row.source, now)]);
      var m := if failure == Deleted then RemoveSource(closed, claim, removedAt) else closed;
      m.(outbox := m.outbox + [ReportOf(claim, Failed(failure))])
  }

  predicate Unchanged(l: Lane, claim: Claimed, post: PublicPost)
  {
    KeyOf(claim) in l.sources && l.sources[KeyOf(claim)].digest == DigestOf(post)
  }

  /** The identity the upsert returns: the stored one, or the freshly minted one. */
  function SourceIdFor(l: Lane, claim: Claimed, minted: Uuid): Uuid
  {
    if KeyOf(claim) in l.sources then l.sources[KeyOf(claim)].source else minted
  }

  function SourceRowFor(source: Uuid, claim: Claimed, post: PublicPost): SourceRow
  {
    SourceRow(source, post.text, post.longText, post.rest, DigestOf(post), claim.capturedAt)
  }

  function SnapshotOf(key: SourceKey, row: SourceRow): Snapshot
  {
    Snapshot(row.source, key.post, Body(row.text, row.longText), row.digest, row.capturedAt)
  }

  function UpsertSource(l: Lane, claim: Claimed, post: PublicPost, minted: Uuid): Lane
  {
    if Unchanged(l, claim, post) then l
    else
      var row := SourceRowFor(SourceIdFor(l, claim, minted), claim, post);
      var snapshot := SnapshotOf(KeyOf(claim), row);
      l.(sources := l.sources[KeyOf(claim) := row],
         outbox := l.outbox + [Social(claim.owner, if KeyOf(claim) in l.sources then Updated(snapshot) else Captured(snapshot))])
  }

  /** The whole `preserve` transaction; when the guard misses, the upsert is rolled back. */
  function PreserveCapture(l: Lane, claim: Claimed, post: PublicPost, now: Instant, minted: Uuid): Lane
  {
    if !Open(l, claim.id) then l
    else
      var source := SourceIdFor(l, claim, minted);
      var m := UpsertSource(l, claim, post, minted);
      m.(captures := m.captures[claim.id := Closed(m.captures[claim.id], Resolved, Some(source), now)],
         outbox := m.outbox + [ReportOf(claim, Preserved(source))])
  }

  /** What the worker does with one answer. */
  datatype Turn = Turn(answer: Answer, now: Instant, removedAt: Instant, minted: Uuid)

  datatype Outcome = DidPreserve | DidTerminate(failure: Failure) | DidDefer

  function OutcomeFor(l: Lane, claim: Claimed, answer: Answer, policy: Policy): Outcome
  {
    match answer
    case Found(post) =>
      if post.id == claim.post && (Unchanged(l, claim, post) || post.representable) then DidPreserve else DidTerminate(Inaccessible)
    case Missing(failure) =>
      if failure == Transient && HasAttemptsLeft(claim, policy) then DidDefer else DidTerminate(failure)
  }

  function Handle(l: Lane, claim: Claimed, turn: Turn, policy: Policy): Lane
  {
    match OutcomeFor(l, claim, turn.answer, policy)
    case DidPreserve => PreserveCapture(l, claim, turn.answer.post, turn.now, turn.minted)
    case DidTerminate(failure) => TerminateCapture(l, claim, failure, turn.now, turn.removedAt)
    case DidDefer => DeferCapture(l, claim, turn.now)
  }

  datatype Summary = Summary(claimed: nat, preserved: nat, unavailable: nat, deferred: nat)

  /** One pass over its claims; fewer turns than claims is a crash part-way. */
  function HandleAll(l: Lane, claims: seq<Claimed>, turns: seq<Turn>, policy: Policy): Lane
    decreases |claims|
  {
    if claims == [] || turns == [] then l
    else HandleAll(Handle(l, claims[0], turns[0], policy), claims[1..], turns[1..], policy)
  }

  /** The outcomes of the same pass, each by the answer and the lane it met. */
  function OutcomesOf(l: Lane, claims: seq<Claimed>, turns: seq<Turn>, policy: Policy): (outcomes: seq<Outcome>)
    ensures |outcomes| == Min(|claims|, |turns|)
    decreases |claims|
  {
    if claims == [] || turns == [] then []
    else [OutcomeFor(l, claims[0], turns[0].answer, policy)] + OutcomesOf(Handle(l, claims[0], turns[0], policy), claims[1..], turns[1..], policy)
  }

  /** The summary counts preserved and deferred claims; every other handled one is unavailable. */
  predicate Counts(summary: Summary, outcomes: seq<Outcome>)
  {
    && summary.preserved == multiset(outcomes)[DidPreserve] && summary.deferred == multiset(outcomes)[DidDefer]
    && summary.preserved + summary.deferred + summary.unavailable == |outcomes|
  }

  lemma CountsOneMore(summary: Summary, next: Summary, outcomes: seq<Outcome>, outcome: Outcome)
    requires Counts(summary, outcomes)
    requires next == match outcome
                     case DidPreserve => summary.(preserved := summary.preserved + 1)
                     case DidDefer => summary.(deferred := summary.deferred + 1)
                     case DidTerminate(_) => summary.(unavailable := summary.unavailable + 1)
    ensures Counts(next, outcomes + [outcome])
  {
  }

  lemma OutcomesStep(l: Lane, claims: seq<Claimed>, turns: seq<Turn>, policy: Policy, done: seq<Outcome>)
    requires claims != [] && turns != []
    ensures done + OutcomesOf(l, claims, turns, policy)
            == done + [OutcomeFor(l, claims[0], turns[0].answer, policy)]
               + OutcomesOf(Handle(l, claims[0], turns[0], policy), claims[1..], turns[1..], policy)
  {
  }

  // ---------------------------------------------------------------- the worker

  class PublicCaptureWorker {
    var lane: Lane
    const policy: Policy

    constructor (lane: Lane, policy: Policy)
      ensures this.lane == lane && this.policy == policy
    {
      this.lane := lane;
      this.policy := policy;
    }

    method PersistBrowserCapture(command: Command, id: Uuid, now: Instant) returns (delivery: Delivery)
      modifies this`lane
      ensures (lane, delivery) == Intake(old(lane), command, id, now)
    {
      if command.tenant.None? {
        return MissingTenant;
      }
      if command.id in lane.inbox {
        return Duplicate;
      }
      lane := lane.(inbox := lane.inbox + {command.id});
      var queued := command.post.Some?;
      var row := Capture(command.id, command.operation, command.tenant.value, command.post, command.capturedAt,
                         if queued then Accepted else Unavailable, 0, now, None, if queued then None else Some(now));
      lane := lane.(captures := lane.captures[id := row]);
      var report := if queued then Queued else Failed(Inaccessible);
      lane := lane.(outbox := lane.outbox + [Reported(id, command.id, command.operation, command.tenant.value, report)]);
      delivery := Applied;
    }

    /** Leases the earliest due rows, at most a batch of them. */
    method ClaimDue(locked: set<Uuid>, now: Instant) returns (claims: seq<Claimed>, ghost picked: set<Uuid>)
      modifies this`lane
      ensures Selected(old(lane.captures), locked, now, policy.batchSize, picked)
      ensures ClaimsOf(old(lane.captures), picked, claims)
      ensures lane == old(lane).(captures := Leased(old(lane.captures), picked, now))
      ensures forall i, at | 0 <= i < |claims| && at < now + LEASE :: !Due(lane.captures[claims[i].id], at)
    {
      var before := lane.captures;
      var due := DueIds(before, locked, now);
      var chosen: set<Uuid> := {};
      claims := [];
      while |claims| < policy.batchSize && due - chosen != {}
        invariant lane == old(lane)
        invariant chosen <= due && |chosen| == |claims| <= policy.batchSize
        invariant ClaimsOf(before, chosen, claims)
        invariant forall a, b | a in chosen && b in due - chosen :: Before(before, a, b)
        decreases due - chosen
      {
        var id := Earliest(before, due - chosen);
        claims := claims + [ClaimOf(id, before[id])];
        chosen := chosen + {id};
      }
      SelectionSize(due, chosen, policy.batchSize);
      lane := lane.(captures := Leased(before, chosen, now));
      picked := chosen;
    }

    method Earliest(captures: map<Uuid, Capture>, ids: set<Uuid>) returns (first: Uuid)
      requires ids != {} && ids <= captures.Keys
      ensures first in ids && forall b | b in ids :: Before(captures, first, b)
    {
      first :| first in ids;
      var rest := ids - {first};
      while rest != {}
        invariant first in ids && rest <= ids
        invariant forall b | b in ids - rest :: Before(captures, first, b)
        decreases rest
      {
        var x :| x in rest;
        assert forall b | b in ids - (rest - {x}) :: b == x || b in ids - rest;
        if !Before(captures, first, x) {
          first := x;
        }
        rest := rest - {x};
      }
    }

    method Defer(claim: Claimed, now: Instant)
      modifies this`lane
      ensures lane == DeferCapture(old(lane), claim, now)
    {
      var delay := RetryDelay(SaturatingIncrement(claim.attempts));
      if Open(lane, claim.id) {
        var row := lane.captures[claim.id];
        lane := lane.(captures := lane.captures[claim.id := row.(attempts := row.attempts + 1, nextAttemptAt := now + delay)]);
      }
    }

    method Terminate(claim: Claimed, failure: Failure, now: Instant, removedAt: Instant)
      modifies this`lane
      ensures lane == TerminateCapture(old(lane), claim, failure, now, removedAt)
    {
      if Open(lane, claim.id) {
        var row := lane.captures[claim.id];
        lane := lane.(captures := lane.captures[claim.id := Closed(row, Unavailable, row.source, now)]);
        if failure == Deleted && KeyOf(claim) in lane.sources {
          var removed := lane.sources[KeyOf(claim)].source;
          lane := lane.(sources := lane.sources - {KeyOf(claim)});
          lane := lane.(outbox := lane.outbox + [Social(claim.owner, Removed(removed, removedAt))]);
        }
        lane := lane.(outbox := lane.outbox + [ReportOf(claim, Failed(failure))]);
      }
    }

    /** Returns no identity when the social contract refuses the snapshot; nothing is written then. */
    method UpsertOwnerSource(claim: Claimed, post: PublicPost, minted: Uuid) returns (source: Option<Uuid>)
      modifies this`lane
      ensures source.Some? <==> Unchanged(old(lane), claim, post) || post.representable
      ensures source.Some? ==> source.value == SourceIdFor(old(lane), claim, minted)
      ensures lane == if source.Some? then UpsertSource(old(lane), claim, post, minted) else old(lane)
    {
      var digest := DigestOf(post);
      var key := KeyOf(claim);
      var id := minted;
      var isNew := key !in lane.sources;
      if !isNew {
        id := lane.sources[key].source;
        if lane.sources[key].digest == digest {
          return Some(id);
        }
      }
      if !post.representable {
        return None;
      }
      var row := SourceRowFor(id, claim, post);
      var snapshot := SnapshotOf(key, row);
      lane := lane.(sources := lane.sources[key := row]);
      lane := lane.(outbox := lane.outbox + [Social(claim.owner, if isNew then Captured(snapshot) else Updated(snapshot))]);
      source := Some(id);
    }

    /** The upsert runs before the guard, so a lost race rolls the transaction back. */
    method Preserve(claim: Claimed, post: PublicPost, now: Instant, minted: Uuid) returns (admitted: bool)
      modifies this`lane
      ensures admitted <==> Unchanged(old(lane), claim, post) || post.representable
      ensures lane == if admitted then PreserveCapture(old(lane), claim, post, now, minted) else old(lane)
    {
      var begin := lane;
      var source := UpsertOwnerSource(claim, post, minted);
      admitted := source.Some?;
      if admitted {
        if Open(lane, claim.id) {
          lane := lane.(captures := lane.captures[claim.id := Closed(lane.captures[claim.id], Resolved, source, now)]);
          lane := lane.(outbox := lane.outbox + [ReportOf(claim, Preserved(source.value))]);
        } else {
          lane := begin;
        }
      }
    }

    /** Preserves, terminates or defers one claim by the resolver's answer. */
    method HandleOne(claim: Claimed, turn: Turn) returns (outcome: Outcome)
      modifies this`lane
      ensures lane == Handle(old(lane), claim, turn, policy)
      ensures outcome == OutcomeFor(old(lane), claim, turn.answer, policy)
    {
      match turn.answer {
        case Found(post) =>
          if post.id == claim.post {
            var admitted := Preserve(claim, post, turn.now, turn.minted);
            if admitted {
              return DidPreserve;
            }
          }
          Terminate(claim, Inaccessible, turn.now, turn.removedAt);
          outcome := DidTerminate(Inaccessible);
        case Missing(failure) =>
          if failure == Transient && HasAttemptsLeft(claim, policy) {
            Defer(claim, turn.now);
            outcome := DidDefer;
          } else {
            Terminate(claim, failure, turn.now, turn.removedAt);
            outcome := DidTerminate(failure);
          }
      }
    }

    /** One pass without interference; fewer turns than claims is a crash part-way. */
    method RunDueOnce(locked: set<Uuid>, now: Instant, turns: seq<Turn>)
      returns (summary: Summary, ghost claims: seq<Claimed>, ghost picked: set<Uuid>)
      modifies this`lane
      ensures Selected(old(lane.captures), locked, now, policy.batchSize, picked)
      ensures ClaimsOf(old(lane.captures), picked, claims)
      ensures lane == HandleAll(old(lane).(captures := Leased(old(lane.captures), picked, now)), claims, turns, policy)
      ensures summary.claimed == |picked|
      ensures Counts(summary, OutcomesOf(old(lane).(captures := Leased(old(lane.captures), picked, now)), claims, turns, policy))
      ensures summary.preserved + summary.unavailable + summary.deferred == Min(|picked|, |turns|)
    {
      var claimed, p := ClaimDue(locked, now);
      claims, picked := claimed, p;
      ghost var start := lane;
      summary := Summary(|claimed|, 0, 0, 0);
      ghost var done: seq<Outcome> := [];
      var i := 0;
      while i < |claimed| && i < |turns|
        invariant 0 <= i <= Min(|claimed|, |turns|)
        invariant HandleAll(start, claimed, turns, policy) == HandleAll(lane, claimed[i..], turns[i..], policy)
        invariant OutcomesOf(start, claimed, turns, policy) == done + OutcomesOf(lane, claimed[i..], turns[i..], policy)
        invariant summary.claimed == |claimed| && |done| == i && Counts(summary, done)
      {
        ghost var before, counted := lane, summary;
        var outcome := HandleOne(claimed[i], turns[i]);
        match outcome {
          case DidPreserve => summary := summary.(preserved := summary.preserved + 1);
          case DidTerminate(_) => summary := summary.(unavailable := summary.unavailable + 1);
          case DidDefer => summary := summary.(deferred := summary.deferred + 1);
        }
        assert claimed[i..][1..] == claimed[i + 1..] && turns[i..][1..] == turns[i + 1..];
        CountsOneMore(counted, summary, done, outcome);
        OutcomesStep(before, claimed[i..], turns[i..], policy, done);
        done := done + [outcome];
        i := i + 1;
      }
      assert OutcomesOf(start, claimed, turns, policy) == done;
    }
  }

  lemma SelectionSize(due: set<Uuid>, chosen: set<Uuid>, limit: nat)
    requires chosen <= due && |chosen| <= limit && (|chosen| >= limit || due - chosen == {})
    ensures |chosen| == Min(limit, |due|)
  {
    CardinalityMonotone(chosen, due);
    if due - chosen == {} {
      assert due == chosen + (due - chosen);
    }
  }
}
