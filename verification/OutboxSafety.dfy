/**
 Every interleaving of producers, relays, acknowledgements and deletions over the outbox: no published removal
 is dropped before it is acknowledged, and every copy of a row goes out unchanged.
 */
module OutboxSafety {
  import opened Common
  import opened Outbox
  import opened Relay

  /** A live pass: what it still holds in memory, and the broker's answer it has not recorded yet. */
  datatype Pass = Pass(resending: bool, todo: seq<Item>, pending: Option<Answer>, failed: bool)

  /** `born` remembers what was enqueued under each id, `sent` every message handed to the broker. */
  datatype Queue = Queue(rows: Rows, born: map<Uuid, Item>, passes: map<Uuid, Pass>, sent: seq<Message>)

  datatype Step = Produce(id: Uuid, eventType: string, payload: Payload, now: Instant)
                | StartPass(relay: Uuid, now: Instant, batch: seq<Uuid>)
                | StartResend(relay: Uuid, now: Instant, batch: seq<Uuid>)
                | Publish(relay: Uuid, answer: Answer)
                | Record(relay: Uuid, now: Instant)
                | EndPass(relay: Uuid)
                | Answered(id: Uuid, tenant: string, outcome: AckOutcome, now: Instant)
                | Sweep(id: Uuid)

  ghost predicate Enabled(q: Queue, step: Step)
  {
    match step
    case Produce(id, eventType, _, _) => id !in q.born && SubjectFor(eventType).Some?
    case StartPass(relay, now, batch) =>
      relay !in q.passes && FirstOf(FreshDueIds(q.rows, now), CreatedOrder(q.rows), BATCH_SIZE, batch)
    case StartResend(relay, now, batch) =>
      && relay in q.passes && !q.passes[relay].resending && !q.passes[relay].failed
      && q.passes[relay].todo == [] && q.passes[relay].pending.None?
      && FirstOf(ResendDueIds(q.rows, now), ResendOrder(q.rows), BATCH_SIZE, batch)
    case Publish(relay, _) =>
      && relay in q.passes && q.passes[relay].todo != [] && q.passes[relay].pending.None?
      && SubjectFor(q.passes[relay].todo[0].eventType).Some?
    case Record(relay, _) => relay in q.passes && q.passes[relay].todo != [] && q.passes[relay].pending.Some?
    case EndPass(relay) => relay in q.passes
    case Answered(_, _, _, _) => true
    case Sweep(id) => id in q.rows && Deletable(q.rows[id])
  }

  /** What recording the answer to the head of the pass does to the rows. */
  function RecordedRows(rows: Rows, policy: ResendPolicy, pass: Pass, now: Instant): Rows
    requires pass.todo != [] && pass.pending.Some?
  {
    var id, answer := pass.todo[0].id, pass.pending.value;
    if !pass.resending then Settled(rows, id, Reply(answer, now), policy)
    else if answer.Confirmed? then RecordResend(rows, id, policy, now)
    else RecordFailure(rows, id, answer.failure, true, now)
  }

  function RecordedPass(pass: Pass): Pass
    requires pass.todo != [] && pass.pending.Some?
  {
    var answer := pass.pending.value;
    if (if pass.resending then answer.Rejected? else Halts(answer)) then pass.(todo := [], pending := None, failed := true)
    else pass.(todo := pass.todo[1..], pending := None)
  }

  ghost function Apply(policy: ResendPolicy, q: Queue, step: Step): Queue
    requires Enabled(q, step)
  {
    match step
    case Produce(id, eventType, payload, now) =>
      q.(rows := q.rows[id := NewRow(eventType, payload, now)], born := q.born[id := Item(id, eventType, payload)])
    case StartPass(relay, _, batch) => q.(passes := q.passes[relay := Pass(false, ItemsOf(q.rows, batch), None, false)])
    case StartResend(relay, _, batch) =>
      q.(passes := q.passes[relay := q.passes[relay].(resending := true, todo := ItemsOf(q.rows, batch))])
    case Publish(relay, answer) =>
      q.(passes := q.passes[relay := q.passes[relay].(pending := Some(answer))],
         sent := q.sent + [MessageOf(q.passes[relay].todo[0])])
    case Record(relay, now) =>
      q.(rows := RecordedRows(q.rows, policy, q.passes[relay], now), passes := q.passes[relay := RecordedPass(q.passes[relay])])
    case EndPass(relay) => q.(passes := q.passes - {relay})
    case Answered(id, tenant, outcome, now) => q.(rows := Acknowledged(q.rows, id, tenant, outcome, now))
    case Sweep(id) => q.(rows := q.rows - {id})
  }

  ghost predicate Legal(policy: ResendPolicy, q: Queue, steps: seq<Step>)
    decreases |steps|
  {
    steps == [] || (Enabled(q, steps[0]) && Legal(policy, Apply(policy, q, steps[0]), steps[1..]))
  }

  ghost function Exec(policy: ResendPolicy, q: Queue, steps: seq<Step>): Queue
    requires Legal(policy, q, steps)
    decreases |steps|
  {
    if steps == [] then q else Exec(policy, Apply(policy, q, steps[0]), steps[1..])
  }

  const EMPTY: Queue := Queue(map[], map[], map[], [])

  // ---------------------------------------------------------------- what one step does to one row

  /** What no update may change: the envelope, and the two write-once timestamps once they are set. */
  predicate Kept(before: Row, after: Row)
  {
    && after.eventType == before.eventType && after.payload == before.payload && after.createdAt == before.createdAt
    && (before.publishedAt.Some? ==> after.publishedAt == before.publishedAt)
    && (before.acknowledgedAt.Some? ==> after.acknowledgedAt == before.acknowledgedAt && after.ackOutcome == before.ackOutcome)
    && (before.nextResendAt.Some? && before.publishedAt.Some? ==> after.nextResendAt.Some?)
    && (before.publishedAt.None? && after.publishedAt.Some? && after.eventType == REMOVAL_EVENT_TYPE ==> after.nextResendAt.Some?)
  }

  predicate Acks(q: Queue, step: Step, id: Uuid) { step.Answered? && step.id == id && Acknowledgeable(q.rows, id, step.tenant) }

  lemma RecordingKeeps(rows: Rows, policy: ResendPolicy, pass: Pass, now: Instant, id: Uuid)
    requires pass.todo != [] && pass.pending.Some? && id in rows
    ensures var after := RecordedRows(rows, policy, pass, now);
            after.Keys == rows.Keys && Kept(rows[id], after[id]) && after[id].acknowledgedAt == rows[id].acknowledgedAt
  {
  }

  /** `published_at` and `acknowledged_at` are write-once, the envelope never changes, and only an acknowledgement acknowledges. */
  lemma RowsAreKept(policy: ResendPolicy, q: Queue, step: Step, id: Uuid)
    requires Enabled(q, step) && id in q.rows && id in q.born
    ensures var after := Apply(policy, q, step).rows;
            if id in after then
              && Kept(q.rows[id], after[id])
              && (after[id].acknowledgedAt != q.rows[id].acknowledgedAt <==> Acks(q, step, id))
            else step == Sweep(id) && Deletable(q.rows[id])
  {
    if step.Record? {
      RecordingKeeps(q.rows, policy, q.passes[step.relay], step.now, id);
    }
  }

  // ---------------------------------------------------------------- the invariant

  /** Rows and copies held in memory are what was enqueued under their id. */
  ghost predicate RowsInv(q: Queue)
  {
    && (forall id | id in q.born :: q.born[id].id == id && SubjectFor(q.born[id].eventType).Some?)
    && (forall id | id in q.rows :: id in q.born && ItemOf(q.rows, id) == q.born[id] && Armed(q.rows[id]))
  }

  predicate Armed(row: Row)
  {
    row.eventType == REMOVAL_EVENT_TYPE && row.publishedAt.Some? ==> row.nextResendAt.Some?
  }

  ghost predicate PassesInv(q: Queue)
  {
    forall x, i | x in q.passes && 0 <= i < |q.passes[x].todo| ::
      && q.passes[x].todo[i].id in q.born && q.passes[x].todo[i] == q.born[q.passes[x].todo[i].id]
      && (q.passes[x].resending ==> q.passes[x].todo[i].eventType == REMOVAL_EVENT_TYPE)
  }

  ghost predicate SentInv(q: Queue)
  {
    forall i | 0 <= i < |q.sent| ::
      q.sent[i].id in q.born && SubjectFor(q.born[q.sent[i].id].eventType).Some? && q.sent[i] == MessageOf(q.born[q.sent[i].id])
  }

  ghost predicate Inv(q: Queue) { RowsInv(q) && PassesInv(q) && SentInv(q) }

  lemma StepKeepsRows(policy: ResendPolicy, q: Queue, step: Step)
    requires RowsInv(q) && Enabled(q, step)
    ensures RowsInv(Apply(policy, q, step))
  {
    var r := Apply(policy, q, step);
    forall id | id in r.rows ensures id in r.born && ItemOf(r.rows, id) == r.born[id] && Armed(r.rows[id]) {
      if id in q.rows {
        RowsAreKept(policy, q, step, id);
        assert Armed(q.rows[id]);
      } else if step.Record? {
        RecordedRowsExist(q.rows, policy, q.passes[step.relay], step.now, id);
      }
    }
  }

  lemma RecordedRowsExist(rows: Rows, policy: ResendPolicy, pass: Pass, now: Instant, id: Uuid)
    requires pass.todo != [] && pass.pending.Some? && id in RecordedRows(rows, policy, pass, now)
    ensures id in rows
  {
  }

  lemma StepKeepsPasses(policy: ResendPolicy, q: Queue, step: Step)
    requires RowsInv(q) && PassesInv(q) && Enabled(q, step)
    ensures PassesInv(Apply(policy, q, step))
  {
    var r := Apply(policy, q, step);
    forall x, i | x in r.passes && 0 <= i < |r.passes[x].todo|
      ensures && r.passes[x].todo[i].id in r.born && r.passes[x].todo[i] == r.born[r.passes[x].todo[i].id]
              && (r.passes[x].resending ==> r.passes[x].todo[i].eventType == REMOVAL_EVENT_TYPE)
    {
      if step.StartPass? && step.relay == x {
        assert step.batch[i] in FreshDueIds(q.rows, step.now);
      } else if step.StartResend? && step.relay == x {
        assert step.batch[i] in ResendDueIds(q.rows, step.now);
      } else if step.Record? && step.relay == x {
        assert r.passes[x].todo[i] == q.passes[x].todo[i + 1];
      }
    }
  }

  lemma StepKeepsSent(policy: ResendPolicy, q: Queue, step: Step)
    requires RowsInv(q) && PassesInv(q) && SentInv(q) && Enabled(q, step)
    ensures SentInv(Apply(policy, q, step))
  {
  }

  lemma {:induction false} RunKeepsInv(policy: ResendPolicy, q: Queue, steps: seq<Step>)
    requires Inv(q) && Legal(policy, q, steps)
    ensures Inv(Exec(policy, q, steps))
    decreases |steps|
  {
    if steps != [] {
      StepKeepsRows(policy, q, steps[0]);
      StepKeepsPasses(policy, q, steps[0]);
      StepKeepsSent(policy, q, steps[0]);
      RunKeepsInv(policy, Apply(policy, q, steps[0]), steps[1..]);
    }
  }

  // ---------------------------------------------------------------- main results

  /** A published removal without an acknowledgement, armed for its next copy. */
  predicate Owed(q: Queue, id: Uuid)
  {
    && id in q.rows && q.rows[id].eventType == REMOVAL_EVENT_TYPE && q.rows[id].publishedAt.Some?
    && q.rows[id].acknowledgedAt.None? && q.rows[id].nextResendAt.Some?
  }

  /** Some step of the run acknowledges the row. */
  ghost predicate AckedDuring(policy: ResendPolicy, q: Queue, steps: seq<Step>, id: Uuid)
    requires Legal(policy, q, steps)
    decreases |steps|
  {
    steps != [] && (Acks(q, steps[0], id) || AckedDuring(policy, Apply(policy, q, steps[0]), steps[1..], id))
  }

  /** Acknowledged rows stay so until they are swept, and a swept id is never reused. */
  predicate Done(q: Queue, id: Uuid) { id in q.born && (id in q.rows ==> q.rows[id].acknowledgedAt.Some?) }

  lemma DoneStays(policy: ResendPolicy, q: Queue, step: Step, id: Uuid)
    requires Enabled(q, step) && Done(q, id)
    ensures Done(Apply(policy, q, step), id)
  {
    if id in q.rows {
      RowsAreKept(policy, q, step, id);
    } else if step.Record? {
      if id in Apply(policy, q, step).rows {
        RecordedRowsExist(q.rows, policy, q.passes[step.relay], step.now, id);
      }
    }
  }

  lemma {:induction false} DoneForever(policy: ResendPolicy, q: Queue, steps: seq<Step>, id: Uuid)
    requires Legal(policy, q, steps) && Done(q, id)
    ensures Done(Exec(policy, q, steps), id)
    decreases |steps|
  {
    if steps != [] {
      DoneStays(policy, q, steps[0], id);
      DoneForever(policy, Apply(policy, q, steps[0]), steps[1..], id);
    }
  }

  /**
   Along every run a published removal stays in the table, armed, with its envelope and publish time unchanged,
   exactly until a step acknowledges it.
   */
  lemma {:induction false} KeptUntilAcknowledged(policy: ResendPolicy, q: Queue, steps: seq<Step>, id: Uuid)
    requires Inv(q) && Legal(policy, q, steps) && Owed(q, id)
    ensures Owed(Exec(policy, q, steps), id) <==> !AckedDuring(policy, q, steps, id)
    ensures var end := Exec(policy, q, steps);
            Owed(end, id) ==> end.rows[id].payload == q.rows[id].payload && end.rows[id].publishedAt == q.rows[id].publishedAt
    decreases |steps|
  {
    if steps != [] {
      var r := Apply(policy, q, steps[0]);
      RowsAreKept(policy, q, steps[0], id);
      StepKeepsRows(policy, q, steps[0]);
      StepKeepsPasses(policy, q, steps[0]);
      StepKeepsSent(policy, q, steps[0]);
      if Acks(q, steps[0], id) {
        DoneForever(policy, r, steps[1..], id);
      } else {
        KeptUntilAcknowledged(policy, r, steps[1..], id);
      }
    }
  }

  /** Only recording a confirmed copy reschedules an owed removal, to between `after` and `cap` later. */
  lemma CopiesAreSpaced(policy: ResendPolicy, q: Queue, step: Step, id: Uuid)
    requires AcceptedPolicy(policy) && Enabled(q, step) && id in q.born && Owed(q, id)
    requires id in Apply(policy, q, step).rows && Apply(policy, q, step).rows[id].nextResendAt != q.rows[id].nextResendAt
    ensures step.Record? && q.passes[step.relay].pending == Some(Confirmed)
    ensures var next := Apply(policy, q, step).rows[id].nextResendAt;
            next.Some? && step.now + policy.after <= next.value <= step.now + policy.cap
  {
    WaitsAreBoundedAndDoubling(policy, q.rows[id].resendCount);
  }

  /** Once acknowledged, a row is never selected for another copy. */
  lemma NeverSelectedAgain(policy: ResendPolicy, q: Queue, steps: seq<Step>, id: Uuid, resend: Step)
    requires Legal(policy, q, steps) && Done(q, id)
    requires resend.StartResend? && Enabled(Exec(policy, q, steps), resend)
    ensures id !in resend.batch
  {
    DoneForever(policy, q, steps, id);
  }

  /** Every message ever handed to the broker is the stored envelope of its row, on the row's own subject. */
  lemma CopiesAreIdentical(policy: ResendPolicy, steps: seq<Step>, i: nat, j: nat)
    requires Legal(policy, EMPTY, steps)
    requires i < |Exec(policy, EMPTY, steps).sent| && j < |Exec(policy, EMPTY, steps).sent|
    ensures var q := Exec(policy, EMPTY, steps);
            && q.sent[i].id in q.born && q.sent[i].payload == q.born[q.sent[i].id].payload
            && (q.sent[i].id == q.sent[j].id ==> q.sent[i] == q.sent[j])
  {
    RunKeepsInv(policy, EMPTY, steps);
  }

  /** The relay never meets a row it cannot map: the schema admits only listed event types. */
  lemma NeverUnmappable(policy: ResendPolicy, steps: seq<Step>, relay: Uuid, i: nat)
    requires Legal(policy, EMPTY, steps)
    requires relay in Exec(policy, EMPTY, steps).passes && i < |Exec(policy, EMPTY, steps).passes[relay].todo|
    ensures SubjectFor(Exec(policy, EMPTY, steps).passes[relay].todo[i].eventType).Some?
  {
    RunKeepsInv(policy, EMPTY, steps);
    var q := Exec(policy, EMPTY, steps);
    assert q.passes[relay].todo[i] == q.born[q.passes[relay].todo[i].id];
  }
}
