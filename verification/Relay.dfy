/**
 One relay pass: the due rows oldest first until the first transient refusal, then the unacknowledged
 removals; and why a failing head row never starves the rows behind it.
 */
module Relay {
  import opened Common
  import opened Outbox

  const BATCH_SIZE: nat := 32
  const PAYLOAD_TOO_LARGE: string := "payload_too_large"
  const UNHEALTHY_ATTEMPTS: nat := 3
  const UNHEALTHY_AGE_SECONDS: nat := 300

  datatype Answer = Confirmed | Rejected(failure: string)

  predicate IsPermanent(failure: string) { failure == PAYLOAD_TOO_LARGE }

  /** What the broker answers to one publish, and the clock when the outcome is recorded. */
  datatype Reply = Reply(answer: Answer, at: Instant)

  datatype Message = Message(subject: string, id: Uuid, payload: Payload)

  /** A selected row, as the pass holds it in memory. */
  datatype Item = Item(id: Uuid, eventType: string, payload: Payload)

  datatype Report = Report(published: nat, failed: nat, resent: nat, undeliverable: nat)

  datatype Ending = Drained | Halted | Unmappable(eventType: string) | Crashed

  datatype Progress = Progress(rows: Rows, report: Report, sent: seq<Message>, ending: Ending)

  // ---------------------------------------------------------------- selection

  predicate FreshDue(row: Row, now: Instant) { row.publishedAt.None? && row.undeliverableAt.None? && row.nextAttemptAt <= now }

  predicate ResendDue(row: Row, now: Instant)
  {
    && row.eventType == REMOVAL_EVENT_TYPE && row.publishedAt.Some? && row.acknowledgedAt.None?
    && row.nextResendAt.Some? && row.nextResendAt.value <= now && row.nextAttemptAt <= now
  }

  function FreshDueIds(rows: Rows, now: Instant): set<Uuid> { set id | id in rows && FreshDue(rows[id], now) }

  function ResendDueIds(rows: Rows, now: Instant): set<Uuid> { set id | id in rows && ResendDue(rows[id], now) }

  /** `order by created_at, id`. */
  predicate CreatedBefore(rows: Rows, a: Uuid, b: Uuid)
  {
    && a in rows && b in rows
    && (rows[a].createdAt < rows[b].createdAt || (rows[a].createdAt == rows[b].createdAt && a < b))
  }

  /** `order by next_resend_at, id`. */
  predicate ResendBefore(rows: Rows, a: Uuid, b: Uuid)
  {
    && a in rows && b in rows && rows[a].nextResendAt.Some? && rows[b].nextResendAt.Some?
    && (rows[a].nextResendAt.value < rows[b].nextResendAt.value || (rows[a].nextResendAt == rows[b].nextResendAt && a < b))
  }

  function CreatedOrder(rows: Rows): (Uuid, Uuid) -> bool { (a: Uuid, b: Uuid) => CreatedBefore(rows, a, b) }

  function ResendOrder(rows: Rows): (Uuid, Uuid) -> bool { (a: Uuid, b: Uuid) => ResendBefore(rows, a, b) }

  /** The first `limit` of the due ids in a given strict order. */
  ghost predicate FirstOf(due: set<Uuid>, less: (Uuid, Uuid) -> bool, limit: nat, batch: seq<Uuid>)
  {
    && |batch| == Min(limit, |due|)
    && (forall i | 0 <= i < |batch| :: batch[i] in due)
    && (forall i, j | 0 <= i < j < |batch| :: less(batch[i], batch[j]))
    && (forall i, x | 0 <= i < |batch| && x in due && x !in batch :: less(batch[i], x))
  }

  function ItemOf(rows: Rows, id: Uuid): Item
    requires id in rows
  {
    Item(id, rows[id].eventType, rows[id].payload)
  }

  function ItemsOf(rows: Rows, batch: seq<Uuid>): (items: seq<Item>)
    requires forall i | 0 <= i < |batch| :: batch[i] in rows
    ensures |items| == |batch| && forall i | 0 <= i < |batch| :: items[i] == ItemOf(rows, batch[i])
  {
    seq(|batch|, i requires 0 <= i < |batch| => ItemOf(rows, batch[i]))
  }

  // ---------------------------------------------------------------- the two loops

  function MessageOf(item: Item): Message
    requires SubjectFor(item.eventType).Some?
  {
    Message(SubjectFor(item.eventType).value, item.id, item.payload)
  }

  /** The row update that follows one answer. */
  function Settled(rows: Rows, id: Uuid, reply: Reply, policy: ResendPolicy): Rows
  {
    match reply.answer
    case Confirmed => MarkPublished(rows, id, policy, reply.at)
    case Rejected(failure) =>
      if IsPermanent(failure) then RecordUndeliverable(rows, id, failure, reply.at)
      else RecordFailure(rows, id, failure, false, reply.at)
  }

  /** A transient refusal ends the pass over the fresh rows. */
  predicate Halts(answer: Answer) { answer.Rejected? && !IsPermanent(answer.failure) }

  function Counted(report: Report, answer: Answer): Report
  {
    if answer.Confirmed? then report.(published := report.published + 1)
    else if IsPermanent(answer.failure) then report.(undeliverable := report.undeliverable + 1)
    else report.(failed := report.failed + 1)
  }

  function OfferLoop(rows: Rows, items: seq<Item>, replies: seq<Reply>, policy: ResendPolicy, report: Report, sent: seq<Message>): Progress
    decreases |items|
  {
    if items == [] then Progress(rows, report, sent, Drained)
    else if SubjectFor(items[0].eventType).None? then Progress(rows, report, sent, Unmappable(items[0].eventType))
    else if replies == [] then Progress(rows, report, sent, Crashed)
    else
      var next := Settled(rows, items[0].id, replies[0], policy);
      var tally := Counted(report, replies[0].answer);
      var more := sent + [MessageOf(items[0])];
      if Halts(replies[0].answer) then Progress(next, tally, more, Halted)
      else OfferLoop(next, items[1..], replies[1..], policy, tally, more)
  }

  function ResendLoop(rows: Rows, items: seq<Item>, replies: seq<Reply>, policy: ResendPolicy, report: Report, sent: seq<Message>): Progress
    decreases |items|
  {
    if items == [] then Progress(rows, report, sent, Drained)
    else if replies == [] then Progress(rows, report, sent, Crashed)
    else
      var id, at := items[0].id, replies[0].at;
      var more := sent + [MessageOf(items[0].(eventType := REMOVAL_EVENT_TYPE))];
      match replies[0].answer
      case Confirmed =>
        ResendLoop(RecordResend(rows, id, policy, at), items[1..], replies[1..], policy, report.(resent := report.resent + 1), more)
      case Rejected(failure) =>
        Progress(RecordFailure(rows, id, failure, true, at), report.(failed := report.failed + 1), more, Halted)
  }

  // ---------------------------------------------------------------- order within a pass

  /** The pass offers a prefix of what it selected, in that order, and nothing else. */
  lemma {:induction false} OffersAPrefix(rows: Rows, items: seq<Item>, replies: seq<Reply>, policy: ResendPolicy, report: Report, sent: seq<Message>)
    ensures var done := OfferLoop(rows, items, replies, policy, report, sent).sent;
            && |sent| <= |done| <= |sent| + |items| && done[..|sent|] == sent
            && forall k | 0 <= k < |done| - |sent| ::
                 SubjectFor(items[k].eventType).Some? && done[|sent| + k] == MessageOf(items[k])
    decreases |items|
  {
    if items != [] && SubjectFor(items[0].eventType).Some? && replies != [] && !Halts(replies[0].answer) {
      var more := sent + [MessageOf(items[0])];
      OffersAPrefix(Settled(rows, items[0].id, replies[0], policy), items[1..], replies[1..], policy,
                    Counted(report, replies[0].answer), more);
      PrefixStep(sent, more, items, OfferLoop(rows, items, replies, policy, report, sent).sent);
    }
  }

  lemma PrefixStep(sent: seq<Message>, more: seq<Message>, items: seq<Item>, done: seq<Message>)
    requires items != [] && SubjectFor(items[0].eventType).Some? && more == sent + [MessageOf(items[0])]
    requires |more| <= |done| <= |more| + |items| - 1 && done[..|more|] == more
    requires forall k | 0 <= k < |done| - |more| ::
               SubjectFor(items[1..][k].eventType).Some? && done[|more| + k] == MessageOf(items[1..][k])
    ensures done[..|sent|] == sent
    ensures forall k | 0 <= k < |done| - |sent| ::
              SubjectFor(items[k].eventType).Some? && done[|sent| + k] == MessageOf(items[k])
  {
    assert done[..|sent|] == done[..|more|][..|sent|];
    forall k | 0 <= k < |done| - |sent| ensures SubjectFor(items[k].eventType).Some? && done[|sent| + k] == MessageOf(items[k]) {
      if k == 0 {
        assert done[|sent|] == done[..|more|][|sent|];
      } else {
        assert items[k] == items[1..][k - 1];
        assert done[|more| + (k - 1)] == MessageOf(items[1..][k - 1]);
      }
    }
  }

  /** Rows of one pass go out in (created_at, id) order. */
  lemma OfferedInOrder(rows: Rows, now: Instant, batch: seq<Uuid>, replies: seq<Reply>, policy: ResendPolicy)
    requires FirstOf(FreshDueIds(rows, now), CreatedOrder(rows), BATCH_SIZE, batch)
    ensures var sent := OfferLoop(rows, ItemsOf(rows, batch), replies, policy, Report(0, 0, 0, 0), []).sent;
            && |sent| <= |batch| && (forall k | 0 <= k < |sent| :: sent[k].id == batch[k])
            && forall i, j | 0 <= i < j < |sent| :: CreatedBefore(rows, sent[i].id, sent[j].id)
  {
    OffersAPrefix(rows, ItemsOf(rows, batch), replies, policy, Report(0, 0, 0, 0), []);
    var sent := OfferLoop(rows, ItemsOf(rows, batch), replies, policy, Report(0, 0, 0, 0), []).sent;
    forall k | 0 <= k < |sent| ensures sent[k].id == batch[k] {
      assert sent[0 + k] == MessageOf(ItemsOf(rows, batch)[k]);
    }
  }

  // ---------------------------------------------------------------- progress

  /** Still to be offered by a pass that starts no later than the horizon. */
  predicate Waiting(row: Row, horizon: Instant) { FreshDue(row, horizon) }

  function Ahead(rows: Rows, target: Uuid, horizon: Instant): set<Uuid>
  {
    set id | id in rows && Waiting(rows[id], horizon) && CreatedBefore(rows, id, target)
  }

  /** A pass only takes rows out of the waiting set, and takes out every row it offers. */
  ghost predicate Drains(before: Rows, after: Rows, horizon: Instant)
  {
    && after.Keys == before.Keys
    && (forall id | id in before :: after[id].createdAt == before[id].createdAt && after[id].eventType == before[id].eventType)
    && (forall id | id in before :: Waiting(after[id], horizon) ==> after[id] == before[id])
  }

  function Offered(sent: seq<Message>): set<Uuid> { set m | m in sent :: m.id }

  /** The reply that ends a pass: the first transient refusal. */
  predicate EndsPass(replies: seq<Reply>, i: int)
  {
    0 <= i < |replies| && Halts(replies[i].answer) && forall j | 0 <= j < i :: !Halts(replies[j].answer)
  }

  /** The backoff that the refusal ending the pass sets on its row, if one does, ends beyond the horizon. */
  ghost predicate Calm(rows: Rows, items: seq<Item>, replies: seq<Reply>, horizon: Instant)
  {
    forall i | EndsPass(replies, i) && i < |items| && items[i].id in rows ::
      horizon < replies[i].at + Backoff(rows[items[i].id].attempts)
  }

  predicate Distinct(items: seq<Item>) { forall i, j | 0 <= i < j < |items| :: items[i].id != items[j].id }

  lemma CalmTail(rows: Rows, items: seq<Item>, replies: seq<Reply>, policy: ResendPolicy, horizon: Instant)
    requires Calm(rows, items, replies, horizon) && Distinct(items) && items != [] && replies != [] && !Halts(replies[0].answer)
    ensures Distinct(items[1..])
    ensures Calm(Settled(rows, items[0].id, replies[0], policy), items[1..], replies[1..], horizon)
  {
    var next := Settled(rows, items[0].id, replies[0], policy);
    var later, rest := items[1..], replies[1..];
    forall i | EndsPass(rest, i) && i < |later| && later[i].id in next
      ensures horizon < rest[i].at + Backoff(next[later[i].id].attempts)
    {
      assert later[i] == items[i + 1] && rest[i] == replies[i + 1];
      assert EndsPass(replies, i + 1) by {
        forall j | 0 <= j < i + 1 ensures !Halts(replies[j].answer) {
          assert j > 0 ==> replies[j] == rest[j - 1];
        }
      }
      assert next[later[i].id] == rows[later[i].id];
    }
  }

  lemma SettlingDrains(rows: Rows, id: Uuid, reply: Reply, policy: ResendPolicy, horizon: Instant)
    requires id in rows && Halts(reply.answer) ==> horizon < reply.at + Backoff(rows[id].attempts)
    ensures Drains(rows, Settled(rows, id, reply, policy), horizon)
    ensures id in rows ==> !Waiting(Settled(rows, id, reply, policy)[id], horizon)
    ensures forall x | x in rows && x != id :: Settled(rows, id, reply, policy)[x] == rows[x]
  {
  }

  lemma {:induction false} OfferingDrains(
    rows: Rows, items: seq<Item>, replies: seq<Reply>, policy: ResendPolicy, report: Report, sent: seq<Message>, horizon: Instant)
    requires Calm(rows, items, replies, horizon) && Distinct(items)
    ensures var p := OfferLoop(rows, items, replies, policy, report, sent);
            && Drains(rows, p.rows, horizon) && Offered(sent) <= Offered(p.sent)
            && (forall id | id in rows && id in Offered(p.sent) - Offered(sent) :: !Waiting(p.rows[id], horizon))
            && (forall id | id in rows && id !in Offered(p.sent) :: p.rows[id] == rows[id])
    decreases |items|
  {
    if items != [] && SubjectFor(items[0].eventType).Some? && replies != [] {
      var id := items[0].id;
      var next := Settled(rows, id, replies[0], policy);
      var more := sent + [MessageOf(items[0])];
      assert Halts(replies[0].answer) ==> EndsPass(replies, 0);
      SettlingDrains(rows, id, replies[0], policy, horizon);
      OfferedAppend(sent, MessageOf(items[0]));
      if !Halts(replies[0].answer) {
        CalmTail(rows, items, replies, policy, horizon);
        OfferingDrains(next, items[1..], replies[1..], policy, Counted(report, replies[0].answer), more, horizon);
      }
    }
  }

  lemma OfferedAppend(sent: seq<Message>, m: Message)
    ensures Offered(sent + [m]) == Offered(sent) + {m.id}
  {
    assert (sent + [m])[|sent|] == m;
    forall x | x in Offered(sent) ensures x in Offered(sent + [m]) {
      var n :| n in sent && n.id == x;
      assert n in sent + [m];
    }
  }

  /** The inputs of one pass over the fresh rows. */
  datatype PassInput = PassInput(rows: Rows, now: Instant, batch: seq<Uuid>, replies: seq<Reply>)

  ghost predicate ValidPass(pass: PassInput, horizon: Instant)
  {
    && FirstOf(FreshDueIds(pass.rows, pass.now), CreatedOrder(pass.rows), BATCH_SIZE, pass.batch)
    && (forall id | id in pass.rows :: SubjectFor(pass.rows[id].eventType).Some?)
    && pass.now <= horizon && pass.replies != []
    && Calm(pass.rows, ItemsOf(pass.rows, pass.batch), pass.replies, horizon)
  }

  lemma BatchIsDistinct(pass: PassInput)
    requires FirstOf(FreshDueIds(pass.rows, pass.now), CreatedOrder(pass.rows), BATCH_SIZE, pass.batch)
    ensures Distinct(ItemsOf(pass.rows, pass.batch))
  {
    var items := ItemsOf(pass.rows, pass.batch);
    forall i, j | 0 <= i < j < |items| ensures items[i].id != items[j].id {
      assert CreatedOrder(pass.rows)(pass.batch[i], pass.batch[j]);
    }
  }

  ghost function PassResult(pass: PassInput, policy: ResendPolicy): Progress
    requires forall i | 0 <= i < |pass.batch| :: pass.batch[i] in pass.rows
  {
    OfferLoop(pass.rows, ItemsOf(pass.rows, pass.batch), pass.replies, policy, Report(0, 0, 0, 0), [])
  }

  /** A pass that does not offer a due row leaves it due and strictly shrinks what is ahead of it. */
  lemma PassMakesProgress(pass: PassInput, policy: ResendPolicy, target: Uuid, horizon: Instant)
    requires ValidPass(pass, horizon) && target in FreshDueIds(pass.rows, pass.now)
    ensures var p := PassResult(pass, policy);
            || target in Offered(p.sent)
            || (&& target in p.rows && p.rows[target] == pass.rows[target]
                && Ahead(p.rows, target, horizon) < Ahead(pass.rows, target, horizon))
  {
    var p := PassResult(pass, policy);
    var due := FreshDueIds(pass.rows, pass.now);
    var items := ItemsOf(pass.rows, pass.batch);
    BatchIsDistinct(pass);
    OfferingDrains(pass.rows, items, pass.replies, policy, Report(0, 0, 0, 0), [], horizon);
    assert Offered([]) == {};
    CardinalityRemove(due, target);
    var first := pass.batch[0];
    FirstIsOffered(pass, policy, horizon);
    if target !in Offered(p.sent) {
      assert first != target;
      assert first in pass.rows && CreatedBefore(pass.rows, first, target) by {
        if target in pass.batch {
          var i :| 0 <= i < |pass.batch| && pass.batch[i] == target;
          assert 0 < i;
        }
      }
      assert first in Ahead(pass.rows, target, horizon) && first !in Ahead(p.rows, target, horizon);
    }
  }

  lemma FirstIsOffered(pass: PassInput, policy: ResendPolicy, horizon: Instant)
    requires ValidPass(pass, horizon) && pass.batch != []
    ensures pass.batch[0] in Offered(PassResult(pass, policy).sent)
  {
    var items := ItemsOf(pass.rows, pass.batch);
    assert items[0] == ItemOf(pass.rows, pass.batch[0]) && pass.batch[0] in pass.rows;
    var reply := pass.replies[0];
    var more: seq<Message> := [] + [MessageOf(items[0])];
    OfferedAppend([], MessageOf(items[0]));
    if !Halts(reply.answer) {
      BatchIsDistinct(pass);
      CalmTail(pass.rows, items, pass.replies, policy, horizon);
      OfferingDrains(Settled(pass.rows, items[0].id, reply, policy), items[1..], pass.replies[1..], policy,
                     Counted(Report(0, 0, 0, 0), reply.answer), more, horizon);
    }
  }

  /** Between passes anything may happen that neither touches the target nor puts a row ahead of it. */
  ghost predicate Quiet(after: Rows, next: PassInput, target: Uuid, horizon: Instant)
  {
    && (target in after ==>
          target in next.rows && next.rows[target] == after[target] && after[target].nextAttemptAt <= next.now)
    && Ahead(next.rows, target, horizon) <= Ahead(after, target, horizon)
  }

  ghost predicate QuietRun(passes: seq<PassInput>, policy: ResendPolicy, target: Uuid, horizon: Instant)
  {
    && (forall k | 0 <= k < |passes| :: ValidPass(passes[k], horizon))
    && (forall k | 0 < k < |passes| :: Quiet(PassResult(passes[k - 1], policy).rows, passes[k], target, horizon))
  }

  lemma StrictlyFewer(a: set<Uuid>, b: set<Uuid>)
    requires a < b
    ensures |a| < |b|
  {
    var gone :| gone in b && gone !in a;
    CardinalityMonotone(a, b - {gone});
    CardinalityRemove(b, gone);
  }

  lemma QuietTail(passes: seq<PassInput>, policy: ResendPolicy, target: Uuid, horizon: Instant)
    requires QuietRun(passes, policy, target, horizon) && |passes| > 1
    ensures QuietRun(passes[1..], policy, target, horizon)
    ensures passes[1..][0] == passes[1] && Quiet(PassResult(passes[0], policy).rows, passes[1], target, horizon)
  {
    var rest := passes[1..];
    assert Quiet(PassResult(passes[1 - 1], policy).rows, passes[1], target, horizon);
    forall i | 0 < i < |rest| ensures Quiet(PassResult(rest[i - 1], policy).rows, rest[i], target, horizon) {
      assert rest[i] == passes[i + 1] && rest[i - 1] == passes[i];
      assert Quiet(PassResult(passes[i + 1 - 1], policy).rows, passes[i + 1], target, horizon);
    }
  }

  /**
   Within one pass more than there are rows ahead of it that are due by the horizon, a due row is offered: stopping
   at the first refusal and the batch limit cannot hold it back while no backoff set meanwhile ends by the horizon.
   Nothing is asked of rows that were accepted or can never be delivered, however long that takes.
   */
  lemma {:induction false} OfferedWithinCount(passes: seq<PassInput>, policy: ResendPolicy, target: Uuid, horizon: Instant) returns (k: nat)
    requires QuietRun(passes, policy, target, horizon) && passes != []
    requires target in FreshDueIds(passes[0].rows, passes[0].now)
    requires |passes| > |Ahead(passes[0].rows, target, horizon)|
    ensures k <= |Ahead(passes[0].rows, target, horizon)| && k < |passes|
    ensures target in Offered(PassResult(passes[k], policy).sent)
    decreases |passes|
  {
    var p := PassResult(passes[0], policy);
    var ahead := Ahead(passes[0].rows, target, horizon);
    PassMakesProgress(passes[0], policy, target, horizon);
    if target in Offered(p.sent) {
      k := 0;
    } else {
      var rest := passes[1..];
      StrictlyFewer(Ahead(p.rows, target, horizon), ahead);
      QuietTail(passes, policy, target, horizon);
      CardinalityMonotone(Ahead(rest[0].rows, target, horizon), Ahead(p.rows, target, horizon));
      var j := OfferedWithinCount(rest, policy, target, horizon);
      k := j + 1;
      assert passes[k] == rest[j];
    }
  }

  // ---------------------------------------------------------------- the relay

  predicate Stuck(row: Row, now: Instant)
  {
    && row.publishedAt.None? && row.undeliverableAt.None? && row.attempts >= 1
    && (row.attempts >= UNHEALTHY_ATTEMPTS || row.createdAt < now - UNHEALTHY_AGE_SECONDS)
  }

  ghost predicate StrictOrder(due: set<Uuid>, less: (Uuid, Uuid) -> bool)
  {
    && (forall a, b | a in due && b in due && a != b :: less(a, b) || less(b, a))
    && (forall a, b, c | a in due && b in due && c in due && less(a, b) && less(b, c) :: less(a, c))
  }

  method Least(ids: set<Uuid>, less: (Uuid, Uuid) -> bool) returns (first: Uuid)
    requires ids != {} && StrictOrder(ids, less)
    ensures first in ids && forall b | b in ids && b != first :: less(first, b)
  {
    first :| first in ids;
    var rest := ids - {first};
    while rest != {}
      invariant first in ids && first !in rest && rest <= ids
      invariant forall b | b in ids - rest && b != first :: less(first, b)
      decreases rest
    {
      var x :| x in rest;
      assert forall b | b in ids - (rest - {x}) :: b == x || b in ids - rest;
      if !less(first, x) {
        first := x;
      }
      rest := rest - {x};
    }
  }

  method SelectFirst(due: set<Uuid>, less: (Uuid, Uuid) -> bool, limit: nat) returns (batch: seq<Uuid>)
    requires StrictOrder(due, less)
    ensures FirstOf(due, less, limit, batch)
  {
    batch := [];
    var rest := due;
    while |batch| < limit && rest != {}
      invariant rest <= due && |batch| + |rest| == |due| && |batch| <= limit
      invariant forall x :: x in batch <==> x in due && x !in rest
      invariant forall i, j | 0 <= i < j < |batch| :: less(batch[i], batch[j])
      invariant forall i, x | 0 <= i < |batch| && x in rest :: less(batch[i], x)
      decreases rest
    {
      var first := Least(rest, less);
      batch := batch + [first];
      rest := rest - {first};
    }
  }

  class OutboxRelay {
    const table: OutboxTable
    const policy: ResendPolicy
    var healthy: bool

    constructor (table: OutboxTable, policy: ResendPolicy)
      ensures this.table == table && this.policy == policy && healthy
    {
      this.table := table;
      this.policy := policy;
      healthy := true;
    }

    /** Publishes the selected rows one by one; a failed transient publish ends the loop. */
    method OfferFresh(items: seq<Item>, replies: seq<Reply>) returns (report: Report, sent: seq<Message>, ending: Ending)
      modifies table
      ensures Progress(table.rows, report, sent, ending) == OfferLoop(old(table.rows), items, replies, policy, Report(0, 0, 0, 0), [])
    {
      report, sent := Report(0, 0, 0, 0), [];
      var i := 0;
      while i < |items|
        invariant 0 <= i <= |items| && i <= |replies|
        invariant OfferLoop(table.rows, items[i..], replies[i..], policy, report, sent)
                  == OfferLoop(old(table.rows), items, replies, policy, Report(0, 0, 0, 0), [])
      {
        assert items[i..][1..] == items[i + 1..];
        if SubjectFor(items[i].eventType).None? {
          return report, sent, Unmappable(items[i].eventType);
        }
        if i == |replies| {
          return report, sent, Crashed;
        }
        assert replies[i..][1..] == replies[i + 1..];
        sent := sent + [MessageOf(items[i])];
        match replies[i].answer {
          case Confirmed =>
            table.MarkRowPublished(items[i].id, policy, replies[i].at);
            report := report.(published := report.published + 1);
          case Rejected(failure) =>
            if IsPermanent(failure) {
              table.MarkUndeliverable(items[i].id, failure, replies[i].at);
              report := report.(undeliverable := report.undeliverable + 1);
            } else {
              table.BackOff(items[i].id, failure, false, replies[i].at);
              return report.(failed := report.failed + 1), sent, Halted;
            }
        }
        i := i + 1;
      }
      ending := Drained;
    }

    /** Publishes due unacknowledged removals again; any refusal backs the row off and ends the loop. */
    method ResendUnacknowledged(before: Report, items: seq<Item>, replies: seq<Reply>)
      returns (report: Report, sent: seq<Message>, ending: Ending)
      modifies table
      ensures Progress(table.rows, report, sent, ending) == ResendLoop(old(table.rows), items, replies, policy, before, [])
    {
      report, sent := before, [];
      var i := 0;
      while i < |items|
        invariant 0 <= i <= |items| && i <= |replies|
        invariant ResendLoop(table.rows, items[i..], replies[i..], policy, report, sent)
                  == ResendLoop(old(table.rows), items, replies, policy, before, [])
      {
        assert items[i..][1..] == items[i + 1..];
        if i == |replies| {
          return report, sent, Crashed;
        }
        assert replies[i..][1..] == replies[i + 1..];
        sent := sent + [MessageOf(items[i].(eventType := REMOVAL_EVENT_TYPE))];
        match replies[i].answer {
          case Confirmed =>
            table.RecordRowResend(items[i].id, policy, replies[i].at);
            report := report.(resent := report.resent + 1);
          case Rejected(failure) =>
            table.BackOff(items[i].id, failure, true, replies[i].at);
            return report.(failed := report.failed + 1), sent, Halted;
        }
        i := i + 1;
      }
      ending := Drained;
    }

    /** The verdict is healthy exactly when no publishable row is stuck; returns the previous verdict. */
    method RefreshHealth(now: Instant) returns (was: bool)
      modifies this`healthy
      ensures was == old(healthy)
      ensures healthy <==> forall id | id in table.rows :: !Stuck(table.rows[id], now)
    {
      was := healthy;
      var stuck := set id | id in table.rows && Stuck(table.rows[id], now);
      healthy := stuck == {};
      assert forall id | id in table.rows :: Stuck(table.rows[id], now) <==> id in stuck;
    }

    /**
     One pass without interference. Removals are sent again only when no fresh row was refused, and the health
     verdict is refreshed unless the pass ended in an error.
     */
    method RunOnce(now: Instant, replies: seq<Reply>, resendNow: Instant, resendReplies: seq<Reply>, healthNow: Instant)
      returns (report: Report, sent: seq<Message>, resent: seq<Message>, ending: Ending, ghost batch: seq<Uuid>, ghost again: seq<Uuid>)
      modifies table, this`healthy
      ensures FirstOf(FreshDueIds(old(table.rows), now), CreatedOrder(old(table.rows)), BATCH_SIZE, batch)
      ensures var offered := OfferLoop(old(table.rows), ItemsOf(old(table.rows), batch), replies, policy, Report(0, 0, 0, 0), []);
              && sent == offered.sent
              && if offered.ending != Drained then
                   table.rows == offered.rows && report == offered.report && resent == [] && ending == offered.ending
                 else
                   && FirstOf(ResendDueIds(offered.rows, resendNow), ResendOrder(offered.rows), BATCH_SIZE, again)
                   && Progress(table.rows, report, resent, ending)
                      == ResendLoop(offered.rows, ItemsOf(offered.rows, again), resendReplies, policy, offered.report, [])
      ensures ending in {Drained, Halted} ==> (healthy <==> forall id | id in table.rows :: !Stuck(table.rows[id], healthNow))
      ensures ending !in {Drained, Halted} ==> healthy == old(healthy)
    {
      var rows := table.rows;
      again, resent := [], [];
      var chosen := SelectFirst(FreshDueIds(rows, now), CreatedOrder(rows), BATCH_SIZE);
      batch := chosen;
      report, sent, ending := OfferFresh(ItemsOf(rows, chosen), replies);
      if ending == Drained {
        var left := table.rows;
        var due := SelectFirst(ResendDueIds(left, resendNow), ResendOrder(left), BATCH_SIZE);
        again := due;
        report, resent, ending := ResendUnacknowledged(report, ItemsOf(left, due), resendReplies);
      }
      if ending == Drained || ending == Halted {
        var was := RefreshHealth(healthNow);
      }
    }
  }
}
