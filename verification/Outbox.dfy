/** The envelope outbox: guarded updates of one row at a time, and the wait between two copies of a removal. */
module Outbox {
  import opened Common

  const REMOVAL_EVENT_TYPE: string := "social.source.removed.v1"

  /** The closed list of subjects; the schema's CHECK admits the same event types. */
  function SubjectFor(eventType: string): Option<string>
  {
    if eventType in {"platform.operation.reported.v1", "social.source.captured.v1", "social.source.updated.v1", REMOVAL_EVENT_TYPE}
    then Some("evt." + eventType)
    else if eventType == "content.capture.requested.v1" then Some("cmd." + eventType)
    else None
  }

  /** The stored envelope: the tenant an acknowledgement must name, and the rest of the document. */
  datatype Payload = Payload(tenant: string, document: string)

  datatype AckOutcome = Applied | Refused

  datatype Row = Row(
    eventType: string, payload: Payload, createdAt: Instant,
    publishedAt: Option<Instant>, attempts: nat, lastError: Option<string>, nextAttemptAt: Instant,
    undeliverableAt: Option<Instant>, acknowledgedAt: Option<Instant>, ackOutcome: Option<AckOutcome>,
    resendCount: nat, nextResendAt: Option<Instant>)

  type Rows = map<Uuid, Row>

  function NewRow(eventType: string, payload: Payload, now: Instant): Row
  {
    Row(eventType, payload, now, None, 0, None, now, None, None, None, 0, None)
  }

  datatype ResendPolicy = ResendPolicy(after: nat, cap: nat)

  /** What the configuration accepts for removals. */
  predicate AcceptedPolicy(policy: ResendPolicy) { 30 <= policy.after <= 86_400 && policy.after <= policy.cap <= 604_800 }

  // ---------------------------------------------------------------- the wait between two copies

  function Pow2(n: nat): nat { if n == 0 then 1 else 2 * Pow2(n - 1) }

  /** `least(after * 2^least(resend_count, 30), cap)`, with the count before the update. */
  function ResendWait(policy: ResendPolicy, resendCount: nat): nat
  {
    Min(policy.after * Pow2(Min(resendCount, 30)), policy.cap)
  }

  lemma {:induction false} Pow2Monotone(m: nat, n: nat)
    requires m <= n
    ensures 1 <= Pow2(m) <= Pow2(n)
    decreases n
  {
    if m < n {
      Pow2Monotone(m, n - 1);
    } else if m > 0 {
      Pow2Monotone(m - 1, n - 1);
    }
  }

  lemma ScaledMonotone(after: nat, m: nat, n: nat)
    requires m <= n
    ensures after * Pow2(m) <= after * Pow2(n)
  {
    Pow2Monotone(m, n);
    MulMonotone(after, Pow2(m), Pow2(n));
  }

  lemma MulMonotone(a: nat, x: nat, y: nat)
    requires x <= y
    ensures a * x <= a * y
  {
    assert a * (y - x) >= 0;
    assert a * y - a * x == a * (y - x);
  }

  /** The clamped exponent gives the unclamped wait for every count exactly when the cap wins by 2^30. */
  lemma ClampIsExact(policy: ResendPolicy)
    ensures (forall n: nat :: ResendWait(policy, n) == Min(policy.after * Pow2(n), policy.cap))
            <==> policy.after == 0 || policy.cap <= policy.after * Pow2(30)
  {
    var a, top := policy.after, Pow2(30);
    if a == 0 || policy.cap <= a * top {
      forall n: nat ensures ResendWait(policy, n) == Min(a * Pow2(n), policy.cap) {
        if n > 30 {
          ScaledMonotone(a, 30, n);
        }
      }
    } else {
      assert Pow2(31) == 2 * top;
      Pow2Monotone(0, 30);
      assert a * Pow2(31) == 2 * (a * top);
      assert a * top > 0;
      assert ResendWait(policy, 31) == a * top;
      assert ResendWait(policy, 31) != Min(a * Pow2(31), policy.cap);
    }
  }

  lemma Pow2Of15()
    ensures Pow2(15) == 32768
  {
    assert Pow2(4) == 16;
    assert Pow2(8) == 256;
    assert Pow2(12) == 4096;
  }

  lemma ScaledDoubles(after: nat, n: nat)
    ensures after <= after * Pow2(n) && after * Pow2(n + 1) == 2 * (after * Pow2(n))
  {
    Pow2Monotone(0, n);
    MulMonotone(after, 1, Pow2(n));
  }

  /** Under every accepted configuration the cap has won by the fifteenth copy. */
  lemma CapWins(policy: ResendPolicy, n: nat)
    requires AcceptedPolicy(policy) && n >= 15
    ensures policy.cap <= policy.after * Pow2(n)
  {
    Pow2Of15();
    MulMonotone(32768, 30, policy.after);
    assert policy.after * Pow2(15) >= 30 * 32768;
    ScaledMonotone(policy.after, 15, n);
  }

  lemma WaitIsUnclamped(policy: ResendPolicy, n: nat)
    requires AcceptedPolicy(policy)
    ensures ResendWait(policy, n) == Min(policy.after * Pow2(n), policy.cap)
  {
    CapWins(policy, 30);
    ClampIsExact(policy);
  }

  /** For every accepted configuration and every count. */
  lemma WaitsAreBoundedAndDoubling(policy: ResendPolicy, n: nat)
    requires AcceptedPolicy(policy)
    ensures policy.after <= ResendWait(policy, n) <= policy.cap
    ensures ResendWait(policy, n) <= ResendWait(policy, n + 1) <= 2 * ResendWait(policy, n)
    ensures ResendWait(policy, n) == Min(policy.after * Pow2(n), policy.cap)
    ensures n >= 15 ==> ResendWait(policy, n) == policy.cap
  {
    WaitIsUnclamped(policy, n);
    WaitIsUnclamped(policy, n + 1);
    ScaledDoubles(policy.after, n);
    if n >= 15 {
      CapWins(policy, n);
    }
  }

  // ---------------------------------------------------------------- transitions of one row

  function Published(row: Row, policy: ResendPolicy, now: Instant): Row
  {
    row.(publishedAt := Some(now), lastError := None,
         nextResendAt := if row.eventType == REMOVAL_EVENT_TYPE then Some(now + policy.after) else None)
  }

  function MarkPublished(rows: Rows, id: Uuid, policy: ResendPolicy, now: Instant): Rows
  {
    if id in rows && rows[id].publishedAt.None? then rows[id := Published(rows[id], policy, now)] else rows
  }

  function Resent(row: Row, policy: ResendPolicy, now: Instant): Row
  {
    row.(resendCount := row.resendCount + 1, lastError := None, attempts := 0,
         nextResendAt := Some(now + ResendWait(policy, row.resendCount)))
  }

  function RecordResend(rows: Rows, id: Uuid, policy: ResendPolicy, now: Instant): Rows
  {
    if id in rows && rows[id].eventType == REMOVAL_EVENT_TYPE && rows[id].publishedAt.Some? && rows[id].acknowledgedAt.None?
    then rows[id := Resent(rows[id], policy, now)] else rows
  }

  predicate Acknowledgeable(rows: Rows, id: Uuid, tenant: string)
  {
    id in rows && rows[id].eventType == REMOVAL_EVENT_TYPE && rows[id].payload.tenant == tenant && rows[id].acknowledgedAt.None?
  }

  function Acknowledged(rows: Rows, id: Uuid, tenant: string, outcome: AckOutcome, now: Instant): Rows
  {
    if Acknowledgeable(rows, id, tenant)
    then rows[id := rows[id].(acknowledgedAt := Some(now), ackOutcome := Some(outcome))] else rows
  }

  /** `least(300, 10 * (1 << least(attempt_count + 1, 5)))`, with the count before the update. */
  function Backoff(attempts: nat): nat { Min(300, 10 * Pow2(Min(attempts + 1, 5))) }

  /** 20 s, 40 s, 80 s, 160 s, then 5 min. */
  lemma Backoffs(attempts: nat)
    ensures Backoff(attempts) == if attempts == 0 then 20 else if attempts == 1 then 40 else if attempts == 2 then 80
                                 else if attempts == 3 then 160 else 300
  {
    assert Pow2(2) == 4;
    assert Pow2(5) == 32;
  }

  function RecordFailure(rows: Rows, id: Uuid, failure: string, republish: bool, now: Instant): Rows
  {
    if id in rows && rows[id].publishedAt.None? != republish
    then rows[id := rows[id].(attempts := rows[id].attempts + 1, lastError := Some(failure),
                              nextAttemptAt := now + Backoff(rows[id].attempts))]
    else rows
  }

  function RecordUndeliverable(rows: Rows, id: Uuid, failure: string, now: Instant): Rows
  {
    if id in rows && rows[id].publishedAt.None?
    then rows[id := rows[id].(attempts := rows[id].attempts + 1, lastError := Some(failure), undeliverableAt := Some(now))]
    else rows
  }

  // ---------------------------------------------------------------- the schedule of one removal

  /** The n-th wait of a removal: armed by its publication, then by each confirmed copy. */
  function NthWait(policy: ResendPolicy, n: nat): nat { if n == 0 then policy.after else ResendWait(policy, n - 1) }

  /** Confirmed copies at the given times, one after another. */
  function Copied(rows: Rows, id: Uuid, policy: ResendPolicy, times: seq<Instant>): Rows
  {
    if times == [] then rows else RecordResend(Copied(rows, id, policy, times[..|times| - 1]), id, policy, times[|times| - 1])
  }

  /** From its publication on, a removal waits its n-th wait after its n-th copy. */
  lemma {:induction false} ScheduleOfRemoval(rows: Rows, id: Uuid, policy: ResendPolicy, publishedAt: Instant, times: seq<Instant>)
    requires id in rows && rows[id].eventType == REMOVAL_EVENT_TYPE && rows[id].publishedAt.None?
    requires rows[id].acknowledgedAt.None? && rows[id].resendCount == 0
    ensures id in Copied(MarkPublished(rows, id, policy, publishedAt), id, policy, times)
    ensures var row := Copied(MarkPublished(rows, id, policy, publishedAt), id, policy, times)[id];
            && row.eventType == REMOVAL_EVENT_TYPE && row.publishedAt == Some(publishedAt) && row.acknowledgedAt.None?
            && row.resendCount == |times|
            && row.nextResendAt == Some((if times == [] then publishedAt else times[|times| - 1]) + NthWait(policy, |times|))
    decreases |times|
  {
    if times != [] {
      ScheduleOfRemoval(rows, id, policy, publishedAt, times[..|times| - 1]);
    }
  }

  /**
   A wait is twice the one before it exactly when it is not the second one and the cap does not cut it. So the
   documented doubling holds from the third wait until the cap wins, and never for the second.
   */
  lemma DoublesExactly(policy: ResendPolicy, n: nat)
    requires AcceptedPolicy(policy) && n >= 1
    ensures NthWait(policy, n) == 2 * NthWait(policy, n - 1) <==> n != 1 && policy.after * Pow2(n - 1) <= policy.cap
  {
    WaitIsUnclamped(policy, n - 1);
    if n >= 2 {
      WaitIsUnclamped(policy, n - 2);
      ScaledDoubles(policy.after, n - 2);
      DoublesUnderCap(policy.after * Pow2(n - 2), policy.cap);
    } else {
      assert Pow2(0) == 1;
    }
  }

  lemma DoublesUnderCap(scaled: nat, cap: nat)
    requires cap > 0
    ensures Min(2 * scaled, cap) == 2 * Min(scaled, cap) <==> 2 * scaled <= cap
  {
  }

  /** The failing case: the second wait repeats the first, for every accepted configuration. */
  lemma SecondWaitRepeatsFirst(policy: ResendPolicy)
    requires AcceptedPolicy(policy)
    ensures NthWait(policy, 1) == NthWait(policy, 0) == policy.after && NthWait(policy, 1) != 2 * NthWait(policy, 0)
  {
    assert Pow2(0) == 1;
  }

  /** The delete trigger refuses a removal that is not acknowledged. */
  predicate Deletable(row: Row) { !(row.eventType == REMOVAL_EVENT_TYPE && row.acknowledgedAt.None?) }

  // ---------------------------------------------------------------- the table

  class OutboxTable {
    var rows: Rows

    constructor ()
      ensures rows == map[]
    {
      rows := map[];
    }

    /** Refused for an unlisted event type or a repeated id. */
    method Enqueue(id: Uuid, eventType: string, payload: Payload, now: Instant) returns (stored: bool)
      modifies this
      ensures stored <==> id !in old(rows) && SubjectFor(eventType).Some?
      ensures rows == if stored then old(rows)[id := NewRow(eventType, payload, now)] else old(rows)
    {
      stored := id !in rows && SubjectFor(eventType).Some?;
      if stored {
        rows := rows[id := NewRow(eventType, payload, now)];
      }
    }

    method MarkRowPublished(id: Uuid, policy: ResendPolicy, now: Instant)
      modifies this
      ensures rows == MarkPublished(old(rows), id, policy, now)
    {
      if id in rows && rows[id].publishedAt.None? {
        var row := rows[id].(publishedAt := Some(now), lastError := None);
        if row.eventType == REMOVAL_EVENT_TYPE {
          row := row.(nextResendAt := Some(now + policy.after));
        } else {
          row := row.(nextResendAt := None);
        }
        rows := rows[id := row];
      }
    }

    method RecordRowResend(id: Uuid, policy: ResendPolicy, now: Instant)
      modifies this
      ensures rows == RecordResend(old(rows), id, policy, now)
    {
      if id in rows && rows[id].eventType == REMOVAL_EVENT_TYPE && rows[id].publishedAt.Some? && rows[id].acknowledgedAt.None? {
        var wait := ResendWait(policy, rows[id].resendCount);
        rows := rows[id := rows[id].(resendCount := rows[id].resendCount + 1, lastError := None, attempts := 0,
                                     nextResendAt := Some(now + wait))];
      }
    }

    /** Changes exactly the unacknowledged removal of that tenant, and says whether it did. */
    method Acknowledge(id: Uuid, tenant: string, outcome: AckOutcome, now: Instant) returns (changed: bool)
      modifies this
      ensures changed <==> Acknowledgeable(old(rows), id, tenant)
      ensures rows == Acknowledged(old(rows), id, tenant, outcome, now)
    {
      changed := Acknowledgeable(rows, id, tenant);
      if changed {
        rows := rows[id := rows[id].(acknowledgedAt := Some(now), ackOutcome := Some(outcome))];
      }
    }

    method BackOff(id: Uuid, failure: string, republish: bool, now: Instant)
      modifies this
      ensures rows == RecordFailure(old(rows), id, failure, republish, now)
    {
      if id in rows && rows[id].publishedAt.None? != republish {
        var wait := Backoff(rows[id].attempts);
        rows := rows[id := rows[id].(attempts := rows[id].attempts + 1, lastError := Some(failure), nextAttemptAt := now + wait)];
      }
    }

    method MarkUndeliverable(id: Uuid, failure: string, now: Instant)
      modifies this
      ensures rows == RecordUndeliverable(old(rows), id, failure, now)
    {
      if id in rows && rows[id].publishedAt.None? {
        rows := rows[id := rows[id].(attempts := rows[id].attempts + 1, lastError := Some(failure), undeliverableAt := Some(now))];
      }
    }

    method Delete(id: Uuid) returns (deleted: bool)
      modifies this
      ensures deleted <==> id in old(rows) && Deletable(old(rows)[id])
      ensures rows == if deleted then old(rows) - {id} else old(rows)
    {
      deleted := id in rows && Deletable(rows[id]);
      if deleted {
        rows := rows - {id};
      }
    }
  }
}
