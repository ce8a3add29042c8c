/**
 What each answer leaves in an outbox row, column by column: acknowledgements by tenant, publications, copies and
 refusals, and how a whole pass records its replies, counts them and ends.
 */
module OutboxOutcomes {
  import opened Common
  import opened Outbox
  import opened Relay
  import OutboxSafety

  // ---------------------------------------------------------------- acknowledgements

  /** A removal of this tenant that nobody has acknowledged. */
  predicate AwaitsTenant(row: Row, tenant: string)
  {
    row.eventType == "social.source.removed.v1" && row.payload.tenant == tenant && row.acknowledgedAt == None
  }

  /** An acknowledgement fills the two columns of the row it names if that row awaits this tenant, and changes nothing else. */
  lemma AcknowledgesExactly(rows: Rows, id: Uuid, tenant: string, outcome: AckOutcome, now: Instant, k: Uuid)
    ensures var after := Acknowledged(rows, id, tenant, outcome, now);
            && after.Keys == rows.Keys
            && (k in rows ==>
                  after[k] == if k == id && AwaitsTenant(rows[k], tenant)
                              then rows[k].(acknowledgedAt := Some(now), ackOutcome := Some(outcome)) else rows[k])
  {
  }

  /** Another tenant's acknowledgement changes no row. */
  lemma OtherTenantsChangeNothing(rows: Rows, id: Uuid, tenant: string, outcome: AckOutcome, now: Instant)
    requires id in rows ==> rows[id].payload.tenant != tenant
    ensures Acknowledged(rows, id, tenant, outcome, now) == rows
  {
  }

  /** Step `i` of the run is the acknowledgement the row carries, sent by the row's own tenant. */
  ghost predicate AnsweredAt(steps: seq<OutboxSafety.Step>, i: nat, id: Uuid, row: Row)
  {
    && i < |steps| && row.ackOutcome.Some? && row.acknowledgedAt.Some?
    && steps[i] == OutboxSafety.Answered(id, row.payload.tenant, row.ackOutcome.value, row.acknowledgedAt.value)
  }

  /** Along every run, an acknowledged row is a removal and its two columns come from an answer of its own tenant. */
  lemma {:induction false} AcknowledgedByItsTenant(policy: ResendPolicy, steps: seq<OutboxSafety.Step>, id: Uuid) returns (i: nat)
    requires OutboxSafety.Legal(policy, OutboxSafety.EMPTY, steps) && id in OutboxSafety.Exec(policy, OutboxSafety.EMPTY, steps).rows
    requires OutboxSafety.Exec(policy, OutboxSafety.EMPTY, steps).rows[id].acknowledgedAt != None
    ensures OutboxSafety.Exec(policy, OutboxSafety.EMPTY, steps).rows[id].eventType == "social.source.removed.v1"
    ensures AnsweredAt(steps, i, id, OutboxSafety.Exec(policy, OutboxSafety.EMPTY, steps).rows[id])
  {
    i := AnswerSince(policy, OutboxSafety.EMPTY, steps, id);
  }

  ghost predicate OpenOrAbsent(q: OutboxSafety.Queue, id: Uuid)
  {
    id in q.rows ==> q.rows[id].acknowledgedAt == None
  }

  /** From a queue where the row is open or absent. */
  lemma {:induction false} AnswerSince(policy: ResendPolicy, q: OutboxSafety.Queue, steps: seq<OutboxSafety.Step>, id: Uuid) returns (i: nat)
    requires OutboxSafety.Inv(q) && OutboxSafety.Legal(policy, q, steps) && OpenOrAbsent(q, id)
    requires id in OutboxSafety.Exec(policy, q, steps).rows && OutboxSafety.Exec(policy, q, steps).rows[id].acknowledgedAt != None
    ensures OutboxSafety.Exec(policy, q, steps).rows[id].eventType == "social.source.removed.v1"
    ensures AnsweredAt(steps, i, id, OutboxSafety.Exec(policy, q, steps).rows[id])
    decreases |steps|
  {
    var r := OutboxSafety.Apply(policy, q, steps[0]);
    OutboxSafety.StepKeepsRows(policy, q, steps[0]);
    OutboxSafety.StepKeepsPasses(policy, q, steps[0]);
    OutboxSafety.StepKeepsSent(policy, q, steps[0]);
    if OpenOrAbsent(r, id) {
      var j := AnswerSince(policy, r, steps[1..], id);
      i := j + 1;
    } else {
      FirstAnswer(policy, q, steps[0], id);
      AnswerStays(policy, r, steps[1..], id);
      i := 0;
    }
  }

  /** The step that acknowledges an open row is its own tenant's answer. */
  lemma FirstAnswer(policy: ResendPolicy, q: OutboxSafety.Queue, step: OutboxSafety.Step, id: Uuid)
    requires OutboxSafety.Inv(q) && OutboxSafety.Enabled(q, step) && OpenOrAbsent(q, id) && !OpenOrAbsent(OutboxSafety.Apply(policy, q, step), id)
    ensures AnsweredAt([step], 0, id, OutboxSafety.Apply(policy, q, step).rows[id])
    ensures OutboxSafety.Apply(policy, q, step).rows[id].eventType == "social.source.removed.v1"
  {
    if id in q.rows {
      OutboxSafety.RowsAreKept(policy, q, step, id);
      assert step.Answered?;
    } else if step.Record? {
      OutboxSafety.RecordedRowsExist(q.rows, policy, q.passes[step.relay], step.now, id);
    }
  }

  /** An acknowledged row keeps its envelope and its answer while it is there. */
  lemma {:induction false} AnswerStays(policy: ResendPolicy, q: OutboxSafety.Queue, steps: seq<OutboxSafety.Step>, id: Uuid)
    requires OutboxSafety.Inv(q) && OutboxSafety.Legal(policy, q, steps) && id in q.rows && q.rows[id].acknowledgedAt != None
    requires id in OutboxSafety.Exec(policy, q, steps).rows
    ensures var row := OutboxSafety.Exec(policy, q, steps).rows[id];
            && row.payload == q.rows[id].payload && row.eventType == q.rows[id].eventType
            && row.acknowledgedAt == q.rows[id].acknowledgedAt && row.ackOutcome == q.rows[id].ackOutcome
    decreases |steps|
  {
    if steps != [] {
      var r := OutboxSafety.Apply(policy, q, steps[0]);
      OutboxSafety.RowsAreKept(policy, q, steps[0], id);
      OutboxSafety.StepKeepsRows(policy, q, steps[0]);
      OutboxSafety.StepKeepsPasses(policy, q, steps[0]);
      OutboxSafety.StepKeepsSent(policy, q, steps[0]);
      if id in r.rows {
        AnswerStays(policy, r, steps[1..], id);
      } else {
        SweptStaysAway(policy, r, steps[1..], id);
      }
    }
  }

  lemma {:induction false} SweptStaysAway(policy: ResendPolicy, q: OutboxSafety.Queue, steps: seq<OutboxSafety.Step>, id: Uuid)
    requires OutboxSafety.Legal(policy, q, steps) && id in q.born && id !in q.rows
    ensures id !in OutboxSafety.Exec(policy, q, steps).rows
    decreases |steps|
  {
    if steps != [] {
      var step := steps[0];
      var r := OutboxSafety.Apply(policy, q, step);
      if id in r.rows && step.Record? {
        OutboxSafety.RecordedRowsExist(q.rows, policy, q.passes[step.relay], step.now, id);
      }
      SweptStaysAway(policy, r, steps[1..], id);
    }
  }

  // ---------------------------------------------------------------- the other updates of one row

  /** The four event types and the one command type have subjects; every other type has none. */
  lemma SubjectsAre(eventType: string)
    ensures SubjectFor(eventType) == Some("evt." + eventType) <==>
            || eventType == "platform.operation.reported.v1" || eventType == "social.source.captured.v1"
            || eventType == "social.source.updated.v1" || eventType == "social.source.removed.v1"
    ensures SubjectFor(eventType) == Some("cmd." + eventType) <==> eventType == "content.capture.requested.v1"
    ensures SubjectFor(eventType) in {None, Some("evt." + eventType), Some("cmd." + eventType)}
  {
    assert ("evt." + eventType)[0] == 'e' && ("cmd." + eventType)[0] == 'c';
  }

  /** A refused publish backs off by 20 s, 40 s, 80 s, 160 s, then 5 min. */
  function WaitAfter(attempts: nat): nat
  {
    match attempts case 0 => 20 case 1 => 40 case 2 => 80 case 3 => 160 case _ => 300
  }

  /** What the broker's answer to a first publish leaves in the row. */
  predicate RecordedAs(before: Row, after: Row, reply: Reply, policy: ResendPolicy)
  {
    match reply.answer
    case Confirmed =>
      && after == before.(publishedAt := Some(reply.at), lastError := None, nextResendAt := after.nextResendAt)
      && after.nextResendAt == if before.eventType == "social.source.removed.v1" then Some(reply.at + policy.after) else None
    case Rejected(failure) =>
      if failure == "payload_too_large" then
        after == before.(attempts := before.attempts + 1, lastError := Some(failure), undeliverableAt := Some(reply.at))
      else
        after == before.(attempts := before.attempts + 1, lastError := Some(failure), nextAttemptAt := reply.at + WaitAfter(before.attempts))
  }

  lemma AnswerRecords(rows: Rows, id: Uuid, reply: Reply, policy: ResendPolicy, k: Uuid)
    requires id in rows && k in rows && rows[id].publishedAt == None
    ensures var after := Settled(rows, id, reply, policy);
            after.Keys == rows.Keys && (if k == id then RecordedAs(rows[id], after[id], reply, policy) else after[k] == rows[k])
  {
    Backoffs(rows[id].attempts);
  }

  /** What the broker's answer to another copy of a removal leaves in the row. */
  predicate CopyRecordedAs(before: Row, after: Row, reply: Reply, policy: ResendPolicy)
  {
    match reply.answer
    case Confirmed =>
      after == before.(resendCount := before.resendCount + 1, lastError := None, attempts := 0,
                       nextResendAt := Some(reply.at + ResendWait(policy, before.resendCount)))
    case Rejected(failure) =>
      after == before.(attempts := before.attempts + 1, lastError := Some(failure), nextAttemptAt := reply.at + WaitAfter(before.attempts))
  }

  /** The row update of the resend loop. */
  function CopySettled(rows: Rows, id: Uuid, reply: Reply, policy: ResendPolicy): Rows
  {
    if reply.answer.Confirmed? then RecordResend(rows, id, policy, reply.at) else RecordFailure(rows, id, reply.answer.failure, true, reply.at)
  }

  /** The row is a published removal without an acknowledgement. */
  predicate OwedRow(row: Row) { row.eventType == "social.source.removed.v1" && row.publishedAt != None && row.acknowledgedAt == None }

  lemma CopyRecords(rows: Rows, id: Uuid, reply: Reply, policy: ResendPolicy, k: Uuid)
    requires id in rows && k in rows && OwedRow(rows[id])
    ensures var after := CopySettled(rows, id, reply, policy);
            after.Keys == rows.Keys && (if k == id then CopyRecordedAs(rows[id], after[id], reply, policy) else after[k] == rows[k])
  {
    Backoffs(rows[id].attempts);
  }

  /** A row that was published meanwhile ignores a late first answer; an acknowledged or unpublished one ignores a late copy. */
  lemma LateAnswersAreIgnored(rows: Rows, id: Uuid, reply: Reply, policy: ResendPolicy)
    ensures id !in rows || rows[id].publishedAt != None ==> Settled(rows, id, reply, policy) == rows
    ensures (id !in rows || !OwedRow(rows[id])) && reply.answer == Confirmed ==> CopySettled(rows, id, reply, policy) == rows
  {
  }

  /** A row can be deleted unless it is a removal nobody has acknowledged. */
  lemma DeletableExactly(row: Row)
    ensures Deletable(row) <==> row.eventType != "social.source.removed.v1" || row.acknowledgedAt != None
  {
  }

  /** A row makes the relay unhealthy when it was refused before and was tried three times or is older than five minutes. */
  lemma StuckExactly(row: Row, now: Instant)
    ensures Stuck(row, now) <==>
            && row.publishedAt == None && row.undeliverableAt == None
            && (row.attempts >= 3 || (row.attempts >= 1 && row.createdAt + 300 < now))
  {
  }

  // ---------------------------------------------------------------- what a pass selects

  /** Never published, not given up, and not backing off. */
  predicate AwaitsPublish(row: Row, now: Instant) { row.publishedAt == None && row.undeliverableAt == None && row.nextAttemptAt <= now }

  /** Owed, armed, and neither its wait nor its backoff runs any more. */
  predicate AwaitsCopy(row: Row, now: Instant)
  {
    OwedRow(row) && row.nextResendAt != None && row.nextResendAt.value <= now && row.nextAttemptAt <= now
  }

  /** The fresh rows of a pass await a publish, are the oldest by creation and id, and leave one out only when there are 32. */
  lemma FreshBatchIs(rows: Rows, now: Instant, batch: seq<Uuid>, i: nat, x: Uuid)
    requires FirstOf(FreshDueIds(rows, now), CreatedOrder(rows), BATCH_SIZE, batch) && x in rows && AwaitsPublish(rows[x], now)
    ensures |batch| <= 32 && (x !in batch ==> |batch| == 32)
    ensures i < |batch| ==>
              && batch[i] in rows && AwaitsPublish(rows[batch[i]], now)
              && (x !in batch ==> rows[batch[i]].createdAt < rows[x].createdAt || (rows[batch[i]].createdAt == rows[x].createdAt && batch[i] < x))
  {
    LeftOutWhenFull(FreshDueIds(rows, now), batch, BATCH_SIZE, x);
  }

  /** The removals of a pass await a copy, are the earliest due by wait and id, and leave one out only when there are 32. */
  lemma CopyBatchIs(rows: Rows, now: Instant, batch: seq<Uuid>, i: nat, x: Uuid)
    requires FirstOf(ResendDueIds(rows, now), ResendOrder(rows), BATCH_SIZE, batch) && x in rows && AwaitsCopy(rows[x], now)
    ensures |batch| <= 32 && (x !in batch ==> |batch| == 32)
    ensures i < |batch| ==>
              && batch[i] in rows && AwaitsCopy(rows[batch[i]], now)
              && (x !in batch ==>
                    || rows[batch[i]].nextResendAt.value < rows[x].nextResendAt.value
                    || (rows[batch[i]].nextResendAt == rows[x].nextResendAt && batch[i] < x))
  {
    LeftOutWhenFull(ResendDueIds(rows, now), batch, BATCH_SIZE, x);
  }

  lemma LeftOutWhenFull(due: set<Uuid>, batch: seq<Uuid>, limit: nat, x: Uuid)
    requires |batch| == Min(limit, |due|) && x in due && (forall i | 0 <= i < |batch| :: batch[i] in due)
    requires forall i, j | 0 <= i < j < |batch| :: batch[i] != batch[j]
    ensures x !in batch ==> |batch| == limit
  {
    if x !in batch && |batch| == |due| {
      DistinctCount(batch);
      assert Taken(batch) <= due - {x};
      CardinalityMonotone(Taken(batch), due - {x});
      assert false;
    }
  }

  function Taken(batch: seq<Uuid>): set<Uuid> { set y | y in batch }

  lemma {:induction false} DistinctCount(batch: seq<Uuid>)
    requires forall i, j | 0 <= i < j < |batch| :: batch[i] != batch[j]
    ensures |Taken(batch)| == |batch|
    decreases |batch|
  {
    if batch != [] {
      var n := |batch| - 1;
      DistinctCount(batch[..n]);
      assert batch == batch[..n] + [batch[n]];
      assert Taken(batch) == Taken(batch[..n]) + {batch[n]};
      assert batch[n] !in Taken(batch[..n]);
    }
  }

  // ---------------------------------------------------------------- a whole pass over the fresh rows

  predicate Transient(answer: Answer) { answer.Rejected? && answer.failure != "payload_too_large" }

  ghost predicate Distinct(items: seq<Item>)
  {
    forall i, j | 0 <= i < j < |items| :: items[i].id != items[j].id
  }

  ghost predicate AllFresh(rows: Rows, items: seq<Item>)
  {
    forall i | 0 <= i < |items| :: items[i].id in rows && rows[items[i].id].publishedAt == None
  }

  /** Each offered row is recorded by its own reply, and every other row stays. */
  lemma {:induction false} PassRecords(rows: Rows, items: seq<Item>, replies: seq<Reply>, policy: ResendPolicy, report: Report,
                                       sent: seq<Message>, k: Uuid)
    requires Distinct(items) && AllFresh(rows, items) && k in rows
    ensures var p := OfferLoop(rows, items, replies, policy, report, sent);
            && p.rows.Keys == rows.Keys
            && |sent| <= |p.sent| <= |sent| + |items| && |p.sent| - |sent| <= |replies|
            && var made := |p.sent| - |sent|;
            && (forall i | 0 <= i < made && items[i].id == k :: RecordedAs(rows[k], p.rows[k], replies[i], policy))
            && ((forall i | 0 <= i < made :: items[i].id != k) ==> p.rows[k] == rows[k])
    decreases |items|
  {
    if items != [] && SubjectFor(items[0].eventType).Some? && replies != [] {
      AnswerRecords(rows, items[0].id, replies[0], policy, k);
      if !Halts(replies[0].answer) {
        var next := Settled(rows, items[0].id, replies[0], policy);
        RestIsFresh(rows, items, replies[0], policy);
        PassRecords(next, items[1..], replies[1..], policy, Counted(report, replies[0].answer), sent + [MessageOf(items[0])], k);
        PassRecordsStep(rows, next, items, replies, policy, report, sent, k);
      }
    }
  }

  lemma RestIsFresh(rows: Rows, items: seq<Item>, reply: Reply, policy: ResendPolicy)
    requires items != [] && Distinct(items) && AllFresh(rows, items)
    ensures Distinct(items[1..]) && AllFresh(Settled(rows, items[0].id, reply, policy), items[1..])
  {
    forall i | 0 <= i < |items| - 1
      ensures items[1..][i].id in rows && Settled(rows, items[0].id, reply, policy)[items[1..][i].id].publishedAt == None
    {
      assert items[1..][i] == items[i + 1];
      AnswerRecords(rows, items[0].id, reply, policy, items[i + 1].id);
    }
  }

  lemma PassRecordsStep(rows: Rows, next: Rows, items: seq<Item>, replies: seq<Reply>, policy: ResendPolicy, report: Report,
                        sent: seq<Message>, k: Uuid)
    requires Distinct(items) && AllFresh(rows, items) && k in rows && items != [] && replies != [] && SubjectFor(items[0].eventType).Some?
    requires !Halts(replies[0].answer) && next == Settled(rows, items[0].id, replies[0], policy) && next.Keys == rows.Keys
    requires if k == items[0].id then RecordedAs(rows[k], next[k], replies[0], policy) else next[k] == rows[k]
    requires var p := OfferLoop(next, items[1..], replies[1..], policy, Counted(report, replies[0].answer), sent + [MessageOf(items[0])]);
             && p.rows.Keys == next.Keys
             && |sent| + 1 <= |p.sent| <= |sent| + |items| && |p.sent| - |sent| <= |replies|
             && (forall i | 0 <= i < |p.sent| - |sent| - 1 && items[1..][i].id == k :: RecordedAs(next[k], p.rows[k], replies[1..][i], policy))
             && ((forall i | 0 <= i < |p.sent| - |sent| - 1 :: items[1..][i].id != k) ==> p.rows[k] == next[k])
    ensures var p := OfferLoop(rows, items, replies, policy, report, sent);
            var made := |p.sent| - |sent|;
            && (forall i | 0 <= i < made && items[i].id == k :: RecordedAs(rows[k], p.rows[k], replies[i], policy))
            && ((forall i | 0 <= i < made :: items[i].id != k) ==> p.rows[k] == rows[k])
  {
    var p := OfferLoop(rows, items, replies, policy, report, sent);
    var made := |p.sent| - |sent|;
    assert forall i | 0 <= i < made - 1 :: items[1..][i] == items[i + 1];
    forall i | 0 <= i < made && items[i].id == k ensures RecordedAs(rows[k], p.rows[k], replies[i], policy) {
      if i > 0 {
        assert items[1..][i - 1].id == k && replies[1..][i - 1] == replies[i];
      }
    }
  }

  /** The pass ends at the first transient refusal, the first unlisted type or the end of its rows. */
  predicate EndsPass(items: seq<Item>, replies: seq<Reply>, made: nat, ending: Relay.Ending)
    requires made <= |items| && made <= |replies|
  {
    && (forall i | 0 <= i < made - 1 :: !Transient(replies[i].answer))
    && if made > 0 && Transient(replies[made - 1].answer) then ending == Halted
       else if made == |items| then ending == Drained
       else if SubjectFor(items[made].eventType) == None then ending == Unmappable(items[made].eventType)
       else made == |replies| && ending == Relay.Crashed
  }

  function Confirmations(replies: seq<Reply>): nat
  {
    if replies == [] then 0 else (if replies[0].answer == Confirmed then 1 else 0) + Confirmations(replies[1..])
  }

  function Oversized(replies: seq<Reply>): nat
  {
    if replies == [] then 0 else (if replies[0].answer == Rejected("payload_too_large") then 1 else 0) + Oversized(replies[1..])
  }

  /** The report counts confirmations, oversized payloads and the one transient refusal. */
  ghost predicate Counts(before: Report, after: Report, replies: seq<Reply>, halted: bool)
  {
    && after.published == before.published + Confirmations(replies)
    && after.undeliverable == before.undeliverable + Oversized(replies)
    && after.failed == before.failed + (if halted then 1 else 0)
    && after.resent == before.resent
  }

  lemma {:induction false} PassEnds(rows: Rows, items: seq<Item>, replies: seq<Reply>, policy: ResendPolicy, report: Report, sent: seq<Message>)
    ensures var p := OfferLoop(rows, items, replies, policy, report, sent);
            && |sent| <= |p.sent| <= |sent| + |items| && |p.sent| - |sent| <= |replies|
            && EndsPass(items, replies, |p.sent| - |sent|, p.ending)
            && Counts(report, p.report, replies[..|p.sent| - |sent|], p.ending == Halted)
    decreases |items|
  {
    if items == [] || SubjectFor(items[0].eventType).None? || replies == [] {
      assert replies[..0] == [];
    } else {
      if Halts(replies[0].answer) {
        PassHalts(items, replies, report);
      } else {
        var tally := Counted(report, replies[0].answer);
        var more := sent + [MessageOf(items[0])];
        var next := Settled(rows, items[0].id, replies[0], policy);
        PassEnds(next, items[1..], replies[1..], policy, tally, more);
        var p := OfferLoop(rows, items, replies, policy, report, sent);
        PassEndsStep(items, replies, report, tally, p.report, p.ending, |p.sent| - |sent|);
      }
    }
  }

  lemma PassHalts(items: seq<Item>, replies: seq<Reply>, report: Report)
    requires items != [] && replies != [] && Halts(replies[0].answer)
    ensures EndsPass(items, replies, 1, Halted) && Counts(report, Counted(report, replies[0].answer), replies[..1], true)
  {
    assert replies[..1][0] == replies[0] && replies[..1][1..] == [];
  }

  lemma PassEndsStep(items: seq<Item>, replies: seq<Reply>, report: Report, tally: Report, after: Report, ending: Relay.Ending, made: nat)
    requires 1 <= made <= |items| && made <= |replies| && !Halts(replies[0].answer) && tally == Counted(report, replies[0].answer)
    requires EndsPass(items[1..], replies[1..], made - 1, ending) && Counts(tally, after, replies[1..][..made - 1], ending == Halted)
    ensures EndsPass(items, replies, made, ending) && Counts(report, after, replies[..made], ending == Halted)
  {
    assert replies[..made][0] == replies[0] && replies[..made][1..] == replies[1..][..made - 1];
    forall i | 0 <= i < made - 1 ensures !Transient(replies[i].answer) {
      assert i > 0 ==> replies[1..][i - 1] == replies[i];
    }
  }

  // ---------------------------------------------------------------- a whole pass over the owed removals

  ghost predicate AllOwed(rows: Rows, items: seq<Item>)
  {
    forall i | 0 <= i < |items| :: items[i].id in rows && OwedRow(rows[items[i].id])
  }

  lemma RestIsOwed(rows: Rows, items: seq<Item>, reply: Reply, policy: ResendPolicy)
    requires items != [] && Distinct(items) && AllOwed(rows, items)
    ensures Distinct(items[1..]) && AllOwed(CopySettled(rows, items[0].id, reply, policy), items[1..])
  {
    forall i | 0 <= i < |items| - 1
      ensures items[1..][i].id in rows && OwedRow(CopySettled(rows, items[0].id, reply, policy)[items[1..][i].id])
    {
      assert items[1..][i] == items[i + 1];
      CopyRecords(rows, items[0].id, reply, policy, items[i + 1].id);
    }
  }

  /** The resend loop stops at its first refusal, whatever the refusal says, and counts the copies confirmed before it. */
  ghost predicate EndsCopies(items: seq<Item>, replies: seq<Reply>, made: nat, before: Report, after: Report, ending: Relay.Ending)
    requires made <= |items| && made <= |replies|
  {
    && (forall i | 0 <= i < made - 1 :: replies[i].answer == Confirmed)
    && if made > 0 && replies[made - 1].answer != Confirmed then
         ending == Halted && after == before.(resent := before.resent + made - 1, failed := before.failed + 1)
       else
         && after == before.(resent := before.resent + made)
         && if made == |items| then ending == Drained else made == |replies| && ending == Relay.Crashed
  }

  lemma {:induction false} CopiesEnd(rows: Rows, items: seq<Item>, replies: seq<Reply>, policy: ResendPolicy, report: Report, sent: seq<Message>)
    ensures var p := ResendLoop(rows, items, replies, policy, report, sent);
            && |sent| <= |p.sent| <= |sent| + |items| && |p.sent| - |sent| <= |replies|
            && EndsCopies(items, replies, |p.sent| - |sent|, report, p.report, p.ending)
    decreases |items|
  {
    if items != [] && replies != [] && replies[0].answer == Confirmed {
      var more := sent + [MessageOf(items[0].(eventType := REMOVAL_EVENT_TYPE))];
      var tally := report.(resent := report.resent + 1);
      CopiesEnd(RecordResend(rows, items[0].id, policy, replies[0].at), items[1..], replies[1..], policy, tally, more);
      var p := ResendLoop(rows, items, replies, policy, report, sent);
      CopiesEndStep(items, replies, |p.sent| - |sent|, report, tally, p.report, p.ending);
    }
  }

  lemma CopiesEndStep(items: seq<Item>, replies: seq<Reply>, made: nat, report: Report, tally: Report, after: Report, ending: Relay.Ending)
    requires 1 <= made <= |items| && made <= |replies| && replies[0].answer == Confirmed && tally == report.(resent := report.resent + 1)
    requires EndsCopies(items[1..], replies[1..], made - 1, tally, after, ending)
    ensures EndsCopies(items, replies, made, report, after, ending)
  {
    forall i | 0 <= i < made - 1 ensures replies[i].answer == Confirmed {
      assert i > 0 ==> replies[1..][i - 1] == replies[i];
    }
  }

  /** Each removal copied is recorded by its own reply, and every other row stays. */
  lemma {:induction false} CopiesRecord(rows: Rows, items: seq<Item>, replies: seq<Reply>, policy: ResendPolicy, report: Report,
                                        sent: seq<Message>, k: Uuid)
    requires Distinct(items) && AllOwed(rows, items) && k in rows
    ensures var p := ResendLoop(rows, items, replies, policy, report, sent);
            && p.rows.Keys == rows.Keys
            && |sent| <= |p.sent| <= |sent| + |items| && |p.sent| - |sent| <= |replies|
            && var made := |p.sent| - |sent|;
            && (forall i | 0 <= i < made && items[i].id == k :: CopyRecordedAs(rows[k], p.rows[k], replies[i], policy))
            && ((forall i | 0 <= i < made :: items[i].id != k) ==> p.rows[k] == rows[k])
    decreases |items|
  {
    if items != [] && replies != [] {
      CopyRecords(rows, items[0].id, replies[0], policy, k);
      if replies[0].answer == Confirmed {
        var next := CopySettled(rows, items[0].id, replies[0], policy);
        RestIsOwed(rows, items, replies[0], policy);
        CopiesRecord(next, items[1..], replies[1..], policy, report.(resent := report.resent + 1),
                     sent + [MessageOf(items[0].(eventType := REMOVAL_EVENT_TYPE))], k);
        var p := ResendLoop(rows, items, replies, policy, report, sent);
        CopiesRecordStep(rows, next, p.rows, items, replies, policy, |p.sent| - |sent|, k);
      }
    }
  }

  lemma CopiesRecordStep(rows: Rows, next: Rows, after: Rows, items: seq<Item>, replies: seq<Reply>, policy: ResendPolicy, made: nat, k: Uuid)
    requires Distinct(items) && 1 <= made <= |items| && made <= |replies| && k in rows && next.Keys == rows.Keys == after.Keys
    requires if k == items[0].id then CopyRecordedAs(rows[k], next[k], replies[0], policy) else next[k] == rows[k]
    requires forall i | 0 <= i < made - 1 && items[1..][i].id == k :: CopyRecordedAs(next[k], after[k], replies[1..][i], policy)
    requires (forall i | 0 <= i < made - 1 :: items[1..][i].id != k) ==> after[k] == next[k]
    ensures forall i | 0 <= i < made && items[i].id == k :: CopyRecordedAs(rows[k], after[k], replies[i], policy)
    ensures (forall i | 0 <= i < made :: items[i].id != k) ==> after[k] == rows[k]
  {
    assert forall i | 0 <= i < made - 1 :: items[1..][i] == items[i + 1];
    forall i | 0 <= i < made && items[i].id == k ensures CopyRecordedAs(rows[k], after[k], replies[i], policy) {
      if i > 0 {
        assert items[1..][i - 1].id == k && replies[1..][i - 1] == replies[i];
      }
    }
  }
}
