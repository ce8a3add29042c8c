/** Why a due removal that Knowledge has not acknowledged is sent again soon, whatever is due before it. */
module ResendProgress {
  import opened Common
  import opened Outbox
  import opened Relay

  /** Due again by the horizon, with a resend time no later than `due`. */
  predicate OwedBy(row: Row, horizon: Instant, due: Instant) { ResendDue(row, horizon) && row.nextResendAt.value <= due }

  /** Removals due again by the horizon that the resend order puts before the target. */
  function OwedAhead(rows: Rows, target: Uuid, horizon: Instant): set<Uuid>
  {
    set id | id in rows && ResendDue(rows[id], horizon) && ResendBefore(rows, id, target)
  }

  /** Whatever is still owed afterwards was so before, unchanged. */
  ghost predicate DrainsOwed(before: Rows, after: Rows, horizon: Instant, due: Instant)
  {
    && after.Keys == before.Keys
    && forall id | id in before :: OwedBy(after[id], horizon, due) ==> after[id] == before[id]
  }

  lemma DrainsCompose(a: Rows, b: Rows, c: Rows, horizon: Instant, due: Instant)
    requires DrainsOwed(a, b, horizon, due) && DrainsOwed(b, c, horizon, due)
    ensures DrainsOwed(a, c, horizon, due)
  {
  }

  // ---------------------------------------------------------------- the fresh part of a pass

  /**
   No removal accepted meanwhile is due again by `due`. Every clock that has passed `due` and does not run back makes
   this true.
   */
  ghost predicate ArmsLater(rows: Rows, items: seq<Item>, replies: seq<Reply>, policy: ResendPolicy, due: Instant)
  {
    forall i | 0 <= i < |items| && i < |replies| && replies[i].answer.Confirmed? && IsRemoval(rows, items[i].id) ::
      due < replies[i].at + policy.after
  }

  predicate IsRemoval(rows: Rows, id: Uuid) { id in rows && rows[id].eventType == REMOVAL_EVENT_TYPE }

  lemma ArmsLaterTail(rows: Rows, next: Rows, items: seq<Item>, replies: seq<Reply>, policy: ResendPolicy, due: Instant)
    requires ArmsLater(rows, items, replies, policy, due) && items != [] && replies != []
    requires forall id :: IsRemoval(next, id) ==> IsRemoval(rows, id)
    ensures ArmsLater(next, items[1..], replies[1..], policy, due)
  {
    forall i | 0 <= i < |items[1..]| && i < |replies[1..]| && replies[1..][i].answer.Confirmed? && IsRemoval(next, items[1..][i].id)
      ensures due < replies[1..][i].at + policy.after
    {
      assert items[1..][i] == items[i + 1] && replies[1..][i] == replies[i + 1];
    }
  }

  lemma FreshSettlingDrains(rows: Rows, id: Uuid, reply: Reply, policy: ResendPolicy, horizon: Instant, due: Instant)
    requires reply.answer.Confirmed? && IsRemoval(rows, id) ==> due < reply.at + policy.after
    ensures DrainsOwed(rows, Settled(rows, id, reply, policy), horizon, due)
    ensures forall x | x in rows && rows[x].publishedAt.Some? :: Settled(rows, id, reply, policy)[x] == rows[x]
    ensures forall x :: IsRemoval(Settled(rows, id, reply, policy), x) ==> IsRemoval(rows, x)
  {
  }

  /** Offering fresh rows touches no published one, and what it publishes is not due again by `due`. */
  lemma {:induction false} OfferingKeepsOwed(
    rows: Rows, items: seq<Item>, replies: seq<Reply>, policy: ResendPolicy, report: Report, sent: seq<Message>, horizon: Instant, due: Instant)
    requires ArmsLater(rows, items, replies, policy, due)
    ensures var p := OfferLoop(rows, items, replies, policy, report, sent);
            && DrainsOwed(rows, p.rows, horizon, due)
            && forall x | x in rows && rows[x].publishedAt.Some? :: p.rows[x] == rows[x]
    decreases |items|
  {
    if items != [] && SubjectFor(items[0].eventType).Some? && replies != [] {
      var next := Settled(rows, items[0].id, replies[0], policy);
      FreshSettlingDrains(rows, items[0].id, replies[0], policy, horizon, due);
      if !Halts(replies[0].answer) {
        var more := sent + [MessageOf(items[0])];
        var tally := Counted(report, replies[0].answer);
        ArmsLaterTail(rows, next, items, replies, policy, due);
        OfferingKeepsOwed(next, items[1..], replies[1..], policy, tally, more, horizon, due);
        DrainsCompose(rows, next, OfferLoop(next, items[1..], replies[1..], policy, tally, more).rows, horizon, due);
      }
    }
  }

  // ---------------------------------------------------------------- the resend part of a pass

  /** The row update that follows one answer to a copy. */
  function CopySettled(rows: Rows, id: Uuid, reply: Reply, policy: ResendPolicy): Rows
  {
    if reply.answer.Confirmed? then RecordResend(rows, id, policy, reply.at)
    else RecordFailure(rows, id, reply.answer.failure, true, reply.at)
  }

  /** The reply that ends the copies of a pass: the first refusal. */
  predicate EndsCopies(replies: seq<Reply>, i: int)
  {
    0 <= i < |replies| && replies[i].answer.Rejected? && forall j | 0 <= j < i :: replies[j].answer.Confirmed?
  }

  /** The backoff that the refusal ending the copies sets on its row, if one does, ends beyond the horizon. */
  ghost predicate CalmCopies(rows: Rows, items: seq<Item>, replies: seq<Reply>, horizon: Instant)
  {
    forall i | EndsCopies(replies, i) && i < |items| && items[i].id in rows ::
      horizon < replies[i].at + Backoff(rows[items[i].id].attempts)
  }

  lemma CalmCopiesTail(rows: Rows, items: seq<Item>, replies: seq<Reply>, policy: ResendPolicy, horizon: Instant)
    requires CalmCopies(rows, items, replies, horizon) && Distinct(items) && items != [] && replies != [] && replies[0].answer.Confirmed?
    ensures Distinct(items[1..])
    ensures CalmCopies(CopySettled(rows, items[0].id, replies[0], policy), items[1..], replies[1..], horizon)
  {
    var next := CopySettled(rows, items[0].id, replies[0], policy);
    var later, rest := items[1..], replies[1..];
    forall i | EndsCopies(rest, i) && i < |later| && later[i].id in next
      ensures horizon < rest[i].at + Backoff(next[later[i].id].attempts)
    {
      assert later[i] == items[i + 1] && rest[i] == replies[i + 1];
      assert EndsCopies(replies, i + 1) by {
        forall j | 0 <= j < i + 1 ensures replies[j].answer.Confirmed? {
          assert j > 0 ==> replies[j] == rest[j - 1];
        }
      }
      assert next[later[i].id] == rows[later[i].id];
    }
  }

  lemma CopySettlingDrains(rows: Rows, id: Uuid, reply: Reply, policy: ResendPolicy, horizon: Instant, due: Instant)
    requires AcceptedPolicy(policy)
    requires reply.answer.Confirmed? && IsRemoval(rows, id) ==> due < reply.at + policy.after
    requires id in rows && reply.answer.Rejected? ==> horizon < reply.at + Backoff(rows[id].attempts)
    ensures DrainsOwed(rows, CopySettled(rows, id, reply, policy), horizon, due)
    ensures id in rows ==> !OwedBy(CopySettled(rows, id, reply, policy)[id], horizon, due)
    ensures forall x | x in rows && x != id :: CopySettled(rows, id, reply, policy)[x] == rows[x]
    ensures forall x :: IsRemoval(CopySettled(rows, id, reply, policy), x) ==> IsRemoval(rows, x)
  {
    if id in rows {
      WaitsAreBoundedAndDoubling(policy, rows[id].resendCount);
    }
  }

  function CopyOf(item: Item): Message { MessageOf(item.(eventType := REMOVAL_EVENT_TYPE)) }

  /** What sending copies of `done - before` does to the rows. */
  ghost predicate Copies(rows: Rows, after: Rows, before: set<Uuid>, done: set<Uuid>, horizon: Instant, due: Instant)
  {
    && DrainsOwed(rows, after, horizon, due) && before <= done
    && (forall id | id in rows && id in done - before :: !OwedBy(after[id], horizon, due))
    && (forall id | id in rows && id !in done :: after[id] == rows[id])
  }

  lemma CopiesCompose(
    rows: Rows, next: Rows, after: Rows, before: set<Uuid>, id: Uuid, done: set<Uuid>, horizon: Instant, due: Instant)
    requires DrainsOwed(rows, next, horizon, due) && (id in rows ==> !OwedBy(next[id], horizon, due))
    requires forall x | x in rows && x != id :: next[x] == rows[x]
    requires Copies(next, after, before + {id}, done, horizon, due)
    ensures Copies(rows, after, before, done, horizon, due)
  {
  }

  lemma {:induction false} CopyingDrains(
    rows: Rows, items: seq<Item>, replies: seq<Reply>, policy: ResendPolicy, report: Report, sent: seq<Message>, horizon: Instant, due: Instant)
    requires AcceptedPolicy(policy) && CalmCopies(rows, items, replies, horizon) && Distinct(items) && ArmsLater(rows, items, replies, policy, due)
    ensures var p := ResendLoop(rows, items, replies, policy, report, sent);
            Copies(rows, p.rows, Offered(sent), Offered(p.sent), horizon, due)
    decreases |items|
  {
    if items != [] && replies != [] {
      var id := items[0].id;
      var next := CopySettled(rows, id, replies[0], policy);
      var more := sent + [CopyOf(items[0])];
      assert replies[0].answer.Rejected? ==> EndsCopies(replies, 0);
      CopySettlingDrains(rows, id, replies[0], policy, horizon, due);
      OfferedAppend(sent, CopyOf(items[0]));
      if replies[0].answer.Confirmed? {
        CalmCopiesTail(rows, items, replies, policy, horizon);
        ArmsLaterTail(rows, next, items, replies, policy, due);
        CopyingDrains(next, items[1..], replies[1..], policy, report.(resent := report.resent + 1), more, horizon, due);
      }
      var p := ResendLoop(rows, items, replies, policy, report, sent);
      CopiesCompose(rows, next, p.rows, Offered(sent), id, Offered(p.sent), horizon, due);
    }
  }

  // ---------------------------------------------------------------- whole passes

  /** One pass: the fresh rows, then the removals due again. */
  datatype FullPass = FullPass(first: PassInput, resendNow: Instant, again: seq<Uuid>, resendReplies: seq<Reply>)

  ghost predicate FreshSelected(pass: FullPass)
  {
    FirstOf(FreshDueIds(pass.first.rows, pass.first.now), CreatedOrder(pass.first.rows), BATCH_SIZE, pass.first.batch)
  }

  ghost function AfterFresh(pass: FullPass, policy: ResendPolicy): Progress
    requires FreshSelected(pass)
  {
    PassResult(pass.first, policy)
  }

  /** The fresh rows all went out or can never be delivered, so the removals get their turn. */
  ghost predicate GetsToResend(pass: FullPass, policy: ResendPolicy)
  {
    && FreshSelected(pass) && AfterFresh(pass, policy).ending == Drained && pass.resendReplies != []
    && var left := AfterFresh(pass, policy).rows;
    FirstOf(ResendDueIds(left, pass.resendNow), ResendOrder(left), BATCH_SIZE, pass.again)
  }

  /**
   The removals get their turn no later than the horizon, no backoff set on a refused copy ends by the horizon, and
   no removal accepted meanwhile is due again by `due`. How long the pass takes does not matter.
   */
  ghost predicate Undisturbed(pass: FullPass, policy: ResendPolicy, horizon: Instant, due: Instant)
  {
    && GetsToResend(pass, policy) && pass.resendNow <= horizon
    && ArmsLater(pass.first.rows, ItemsOf(pass.first.rows, pass.first.batch), pass.first.replies, policy, due)
    && var left := AfterFresh(pass, policy).rows;
    && ArmsLater(left, ItemsOf(left, pass.again), pass.resendReplies, policy, due)
    && CalmCopies(left, ItemsOf(left, pass.again), pass.resendReplies, horizon)
  }

  ghost function AfterPass(pass: FullPass, policy: ResendPolicy): Progress
    requires GetsToResend(pass, policy)
  {
    var left := AfterFresh(pass, policy);
    ResendLoop(left.rows, ItemsOf(left.rows, pass.again), pass.resendReplies, policy, left.report, [])
  }

  lemma AgainIsDistinct(rows: Rows, now: Instant, again: seq<Uuid>)
    requires FirstOf(ResendDueIds(rows, now), ResendOrder(rows), BATCH_SIZE, again)
    ensures Distinct(ItemsOf(rows, again))
  {
    var items := ItemsOf(rows, again);
    forall i, j | 0 <= i < j < |items| ensures items[i].id != items[j].id {
      assert ResendOrder(rows)(again[i], again[j]);
    }
  }

  lemma FirstIsCopied(
    rows: Rows, again: seq<Uuid>, replies: seq<Reply>, policy: ResendPolicy, report: Report, horizon: Instant, due: Instant)
    requires AcceptedPolicy(policy) && again != [] && (forall i | 0 <= i < |again| :: again[i] in rows) && replies != []
    requires Distinct(ItemsOf(rows, again)) && CalmCopies(rows, ItemsOf(rows, again), replies, horizon) && ArmsLater(rows, ItemsOf(rows, again), replies, policy, due)
    ensures again[0] in Offered(ResendLoop(rows, ItemsOf(rows, again), replies, policy, report, []).sent)
  {
    var items := ItemsOf(rows, again);
    var more: seq<Message> := [] + [CopyOf(items[0])];
    OfferedAppend([], CopyOf(items[0]));
    if replies[0].answer.Confirmed? {
      var next := CopySettled(rows, items[0].id, replies[0], policy);
      CalmCopiesTail(rows, items, replies, policy, horizon);
      ArmsLaterTail(rows, next, items, replies, policy, due);
      CopyingDrains(next, items[1..], replies[1..], policy,
                    report.(resent := report.resent + 1), more, horizon, due);
    }
  }

  /** What is ahead of the target is owed by the target's own resend time. */
  lemma AheadIsOwed(rows: Rows, target: Uuid, id: Uuid, horizon: Instant, due: Instant)
    requires id in OwedAhead(rows, target, horizon) && rows[target].nextResendAt == Some(due)
    ensures OwedBy(rows[id], horizon, due)
  {
  }

  lemma AheadShrinks(before: Rows, after: Rows, target: Uuid, horizon: Instant, due: Instant)
    requires DrainsOwed(before, after, horizon, due) && target in before && after[target] == before[target]
    requires before[target].nextResendAt == Some(due)
    ensures OwedAhead(after, target, horizon) <= OwedAhead(before, target, horizon)
  {
    forall id | id in OwedAhead(after, target, horizon) ensures id in OwedAhead(before, target, horizon) {
      AheadIsOwed(after, target, id, horizon, due);
    }
  }

  /** The resend part alone: it copies the target, or strictly shrinks what is ahead of it. */
  lemma CopyingMakesProgress(
    rows: Rows, now: Instant, again: seq<Uuid>, replies: seq<Reply>, policy: ResendPolicy, report: Report, target: Uuid, horizon: Instant,
    due: Instant)
    requires AcceptedPolicy(policy) && FirstOf(ResendDueIds(rows, now), ResendOrder(rows), BATCH_SIZE, again)
    requires now <= horizon && replies != [] && CalmCopies(rows, ItemsOf(rows, again), replies, horizon)
    requires ArmsLater(rows, ItemsOf(rows, again), replies, policy, due)
    requires target in ResendDueIds(rows, now) && rows[target].nextResendAt == Some(due)
    ensures var p := ResendLoop(rows, ItemsOf(rows, again), replies, policy, report, []);
            || target in Offered(p.sent)
            || (&& target in p.rows && p.rows[target] == rows[target]
                && OwedAhead(p.rows, target, horizon) < OwedAhead(rows, target, horizon))
  {
    var p := ResendLoop(rows, ItemsOf(rows, again), replies, policy, report, []);
    AgainIsDistinct(rows, now, again);
    CopyingDrains(rows, ItemsOf(rows, again), replies, policy, report, [], horizon, due);
    assert Offered([]) == {};
    CardinalityRemove(ResendDueIds(rows, now), target);
    FirstIsCopied(rows, again, replies, policy, report, horizon, due);
    var head := again[0];
    if target !in Offered(p.sent) {
      assert ResendBefore(rows, head, target) by {
        if target in again {
          var i :| 0 <= i < |again| && again[i] == target;
          assert 0 < i;
        }
      }
      AheadShrinks(rows, p.rows, target, horizon, due);
      assert head in OwedAhead(rows, target, horizon);
      if head in OwedAhead(p.rows, target, horizon) {
        AheadIsOwed(p.rows, target, head, horizon, due);
      }
    }
  }

  /** A whole pass: the fresh part puts nothing ahead of an owed removal, the resend part takes something away. */
  lemma PassCopiesOrShrinks(pass: FullPass, policy: ResendPolicy, target: Uuid, horizon: Instant, due: Instant)
    requires AcceptedPolicy(policy) && Undisturbed(pass, policy, horizon, due)
    requires target in ResendDueIds(pass.first.rows, pass.resendNow) && pass.first.rows[target].nextResendAt == Some(due)
    ensures var p := AfterPass(pass, policy);
            || target in Offered(p.sent)
            || (&& target in p.rows && p.rows[target] == pass.first.rows[target]
                && OwedAhead(p.rows, target, horizon) < OwedAhead(pass.first.rows, target, horizon))
  {
    var rows := pass.first.rows;
    var left := AfterFresh(pass, policy).rows;
    OfferingKeepsOwed(rows, ItemsOf(rows, pass.first.batch), pass.first.replies, policy, Report(0, 0, 0, 0), [], horizon, due);
    assert left[target] == rows[target];
    AheadShrinks(rows, left, target, horizon, due);
    CopyingMakesProgress(left, pass.resendNow, pass.again, pass.resendReplies, policy, AfterFresh(pass, policy).report, target, horizon, due);
  }

  /** Between passes anything may happen that neither touches the target nor puts a due removal ahead of it. */
  ghost predicate QuietFor(after: Rows, next: FullPass, target: Uuid, horizon: Instant)
  {
    && (target in after ==>
          && target in next.first.rows && next.first.rows[target] == after[target]
          && after[target].nextAttemptAt <= next.resendNow
          && (after[target].nextResendAt.Some? ==> after[target].nextResendAt.value <= next.resendNow))
    && OwedAhead(next.first.rows, target, horizon) <= OwedAhead(after, target, horizon)
  }

  ghost predicate QuietPasses(passes: seq<FullPass>, policy: ResendPolicy, target: Uuid, horizon: Instant, due: Instant)
  {
    && (forall k | 0 <= k < |passes| :: Undisturbed(passes[k], policy, horizon, due))
    && (forall k | 0 < k < |passes| :: QuietFor(AfterPass(passes[k - 1], policy).rows, passes[k], target, horizon))
  }

  lemma QuietPassesTail(passes: seq<FullPass>, policy: ResendPolicy, target: Uuid, horizon: Instant, due: Instant)
    requires QuietPasses(passes, policy, target, horizon, due) && |passes| > 1
    ensures QuietPasses(passes[1..], policy, target, horizon, due)
    ensures passes[1..][0] == passes[1] && QuietFor(AfterPass(passes[0], policy).rows, passes[1], target, horizon)
  {
    var rest := passes[1..];
    assert QuietFor(AfterPass(passes[1 - 1], policy).rows, passes[1], target, horizon);
    forall i | 0 < i < |rest| ensures QuietFor(AfterPass(rest[i - 1], policy).rows, rest[i], target, horizon) {
      assert rest[i] == passes[i + 1] && rest[i - 1] == passes[i];
      assert QuietFor(AfterPass(passes[i + 1 - 1], policy).rows, passes[i + 1], target, horizon);
    }
  }

  /**
   A removal that is due again is sent again within one undisturbed pass more than there are removals before it that
   are due by the horizon, despite stop-at-first-refusal and the batch limit, however long the passes take.
   */
  lemma {:induction false} CopiedWithinCount(passes: seq<FullPass>, policy: ResendPolicy, target: Uuid, horizon: Instant, due: Instant)
    returns (k: nat)
    requires AcceptedPolicy(policy) && QuietPasses(passes, policy, target, horizon, due) && passes != []
    requires target in ResendDueIds(passes[0].first.rows, passes[0].resendNow)
    requires passes[0].first.rows[target].nextResendAt == Some(due)
    requires |passes| > |OwedAhead(passes[0].first.rows, target, horizon)|
    ensures k <= |OwedAhead(passes[0].first.rows, target, horizon)| && k < |passes|
    ensures target in Offered(AfterPass(passes[k], policy).sent)
    decreases |passes|
  {
    var p := AfterPass(passes[0], policy);
    PassCopiesOrShrinks(passes[0], policy, target, horizon, due);
    if target in Offered(p.sent) {
      k := 0;
    } else {
      var rest := passes[1..];
      StrictlyFewer(OwedAhead(p.rows, target, horizon), OwedAhead(passes[0].first.rows, target, horizon));
      QuietPassesTail(passes, policy, target, horizon, due);
      CardinalityMonotone(OwedAhead(rest[0].first.rows, target, horizon), OwedAhead(p.rows, target, horizon));
      var j := CopiedWithinCount(rest, policy, target, horizon, due);
      k := j + 1;
      assert passes[k] == rest[j];
    }
  }
}
