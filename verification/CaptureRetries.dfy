/**
 Bounded retry of captures: what `max_attempts` bounds in every run of the workers, exactly which step exceeds it,
 and the run of two overlapping leases that does.
 */
module CaptureRetries {
  import opened Common
  import opened ExplicitCapture
  import opened CaptureSafety

  function Head(w: World, worker: Uuid): Claimed
    requires worker in w.workers && w.workers[worker] != []
  {
    w.workers[worker][0]
  }

  // ---------------------------------------------------------------- attempts count tries

  /** The step tries to resolve the capture while it is open. */
  ghost predicate Tries(w: World, step: Step, id: Uuid)
  {
    && step.HandleNext? && step.worker in w.workers && w.workers[step.worker] != []
    && Head(w, step.worker).id == id && Open(w.lane, id)
  }

  ghost function TriesIn(w: World, steps: seq<Step>, id: Uuid): nat
    requires Legal(w, steps)
    decreases |steps|
  {
    if steps == [] then 0
    else (if Tries(w, steps[0], id) then 1 else 0) + TriesIn(Apply(w, steps[0]), steps[1..], id)
  }

  function AttemptsOf(l: Lane, id: Uuid): nat { if id in l.captures then l.captures[id].attempts else 0 }

  lemma TryCounts(w: World, step: Step, id: Uuid)
    requires Inv(w) && Enabled(w, step)
    ensures AttemptsOf(Apply(w, step).lane, id) == AttemptsOf(w.lane, id) + if Tries(w, step, id) then 1 else 0
  {
    if step.HandleNext? {
      HandleCounts(w.lane, Head(w, step.worker), step.turn, step.policy, id);
    }
  }

  lemma HandleCounts(l: Lane, claim: Claimed, turn: Turn, policy: Policy, id: Uuid)
    ensures AttemptsOf(Handle(l, claim, turn, policy), id) == AttemptsOf(l, id) + if claim.id == id && Open(l, id) then 1 else 0
  {
  }

  /** In every run, whatever overlaps, a capture's attempts are the tries made while it was open. */
  lemma {:induction false} AttemptsCountTries(w: World, steps: seq<Step>, id: Uuid)
    requires Inv(w) && Legal(w, steps)
    ensures AttemptsOf(Exec(w, steps).lane, id) == AttemptsOf(w.lane, id) + TriesIn(w, steps, id)
    decreases |steps|
  {
    if steps != [] {
      TryCounts(w, steps[0], id);
      StepKeepsInv(w, steps[0]);
      AttemptsCountTries(Apply(w, steps[0]), steps[1..], id);
    }
  }

  // ---------------------------------------------------------------- which step exceeds the bound

  /**
   A transient failure leaves a capture open with `max_attempts` or more tries behind it exactly when it was open and
   its claim still counted fewer tries than the row: the claim saw a next try allowed that the row no longer allows.
   */
  lemma BoundBreaksExactly(w: World, worker: Uuid, turn: Turn, policy: Policy)
    requires Inv(w) && Enabled(w, HandleNext(worker, turn, policy)) && turn.answer == Missing(Transient)
    ensures var claim := Head(w, worker);
            var m := Apply(w, HandleNext(worker, turn, policy)).lane;
            Open(m, claim.id) && m.captures[claim.id].attempts >= policy.maxAttempts <==>
            Open(w.lane, claim.id)
            && SaturatingIncrement(claim.attempts) < policy.maxAttempts <= w.lane.captures[claim.id].attempts + 1
  {
  }

  // ---------------------------------------------------------------- runs whose claims are current

  /** Within the bound; a count beyond the integer column stands for tries the column cannot hold. */
  predicate Within(attempts: nat, max: nat) { attempts == 0 || attempts < max || (max > MAX_I32 && attempts > MAX_I32) }

  /** All tries used up, and at least one made. */
  predicate UsedUp(attempts: nat, max: nat) { attempts == (if max == 0 then 1 else max) || (max > MAX_I32 && attempts > MAX_I32) }

  predicate GaveUp(e: Event) { e.Reported? && e.report == Failed(Transient) }

  /** Open captures are within the bound, and a capture reported as transient used up exactly its tries. */
  ghost predicate BoundInv(l: Lane, max: nat)
  {
    && (forall id | id in l.captures && l.captures[id].status == Accepted :: Within(l.captures[id].attempts, max))
    && (forall i | 0 <= i < |l.outbox| && GaveUp(l.outbox[i]) :: GaveUpInBound(l, l.outbox[i], max))
  }

  predicate GaveUpInBound(l: Lane, e: Event, max: nat)
    requires e.Reported?
  {
    e.capture in l.captures && l.captures[e.capture].status != Accepted && UsedUp(l.captures[e.capture].attempts, max)
  }

  /** The handled claim counts the same tries as the row, and the workers share one bound. */
  ghost predicate CurrentStep(w: World, step: Step, max: nat)
  {
    step.HandleNext? && step.worker in w.workers && w.workers[step.worker] != [] ==>
      && step.policy.maxAttempts == max
      && (Open(w.lane, Head(w, step.worker).id) ==> w.lane.captures[Head(w, step.worker).id].attempts == Head(w, step.worker).attempts)
  }

  ghost predicate CurrentRun(w: World, steps: seq<Step>, max: nat)
    requires Legal(w, steps)
    decreases |steps|
  {
    steps == [] || (CurrentStep(w, steps[0], max) && CurrentRun(Apply(w, steps[0]), steps[1..], max))
  }

  lemma DeferKeepsBound(l: Lane, claim: Claimed, now: Instant, policy: Policy)
    requires BoundInv(l, policy.maxAttempts) && HasAttemptsLeft(claim, policy)
    requires Open(l, claim.id) ==> l.captures[claim.id].attempts == claim.attempts
    ensures BoundInv(DeferCapture(l, claim, now), policy.maxAttempts)
  {
    var m := DeferCapture(l, claim, now);
    forall i | 0 <= i < |m.outbox| && GaveUp(m.outbox[i]) ensures GaveUpInBound(m, m.outbox[i], policy.maxAttempts) {
      assert GaveUpInBound(l, l.outbox[i], policy.maxAttempts);
    }
  }

  /** Closing an open capture keeps the bound, provided a transient report used up the tries. */
  lemma ClosingKeepsBound(l: Lane, m: Lane, claim: Claimed, report: Report, max: nat)
    requires BoundInv(l, max) && Ends(l, m, claim, report)
    requires report == Failed(Transient) ==> UsedUp(m.captures[claim.id].attempts, max)
    ensures BoundInv(m, max)
  {
    forall i | 0 <= i < |m.outbox| && GaveUp(m.outbox[i]) ensures GaveUpInBound(m, m.outbox[i], max) {
      if i < |l.outbox| {
        assert m.outbox[i] == l.outbox[i];
        assert GaveUpInBound(l, l.outbox[i], max);
      }
    }
  }

  lemma HandleKeepsBound(l: Lane, claim: Claimed, turn: Turn, policy: Policy)
    requires BoundInv(l, policy.maxAttempts) && Open(l, claim.id) && Describes(l.captures[claim.id], claim)
    requires l.captures[claim.id].attempts == claim.attempts
    ensures BoundInv(Handle(l, claim, turn, policy), policy.maxAttempts)
  {
    var m := Handle(l, claim, turn, policy);
    HandleShape(l, claim, turn, policy);
    HandleCounts(l, claim, turn, policy, claim.id);
    match OutcomeFor(l, claim, turn.answer, policy)
    case DidPreserve => ClosingKeepsBound(l, m, claim, Preserved(SourceIdFor(l, claim, turn.minted)), policy.maxAttempts);
    case DidTerminate(failure) => ClosingKeepsBound(l, m, claim, Failed(failure), policy.maxAttempts);
    case DidDefer => DeferKeepsBound(l, claim, turn.now, policy);
  }

  lemma DeliverKeepsBound(l: Lane, command: Command, id: Uuid, now: Instant, max: nat)
    requires BoundInv(l, max) && id !in l.captures
    ensures BoundInv(Intake(l, command, id, now).0, max)
  {
    var m := Intake(l, command, id, now).0;
    forall i | 0 <= i < |m.outbox| && GaveUp(m.outbox[i]) ensures GaveUpInBound(m, m.outbox[i], max) {
      assert GaveUpInBound(l, l.outbox[i], max);
    }
  }

  lemma StepKeepsBound(w: World, step: Step, max: nat)
    requires Inv(w) && Enabled(w, step) && BoundInv(w.lane, max) && CurrentStep(w, step, max)
    ensures BoundInv(Apply(w, step).lane, max)
  {
    match step
    case Deliver(command, id, now) => DeliverKeepsBound(w.lane, command, id, now, max);
    case HandleNext(worker, turn, policy) =>
      var claim := Head(w, worker);
      assert Describes(w.lane.captures[claim.id], claim);
      if Open(w.lane, claim.id) {
        HandleKeepsBound(w.lane, claim, turn, policy);
      }
    case ClaimBatch(_, _, _, _, _, _) =>
      var m := Apply(w, step).lane;
      forall i | 0 <= i < |m.outbox| && GaveUp(m.outbox[i]) ensures GaveUpInBound(m, m.outbox[i], max) {
        assert GaveUpInBound(w.lane, w.lane.outbox[i], max);
      }
    case LoseWorker(_) =>
  }

  /** In every run that handles current claims only, every open capture is within the bound, and giving up used it up. */
  lemma {:induction false} CurrentRunsAreBounded(w: World, steps: seq<Step>, max: nat)
    requires Inv(w) && Legal(w, steps) && CurrentRun(w, steps, max) && BoundInv(w.lane, max)
    ensures BoundInv(Exec(w, steps).lane, max)
    decreases |steps|
  {
    if steps != [] {
      StepKeepsBound(w, steps[0], max);
      StepKeepsInv(w, steps[0]);
      CurrentRunsAreBounded(Apply(w, steps[0]), steps[1..], max);
    }
  }

  // ---------------------------------------------------------------- runs whose leases hold

  function TimeOf(step: Step): Option<Instant>
  {
    match step
    case Deliver(_, _, now) => Some(now)
    case ClaimBatch(_, _, now, _, _, _) => Some(now)
    case HandleNext(_, turn, _) => Some(turn.now)
    case LoseWorker(_) => None
  }

  /** A clock that never runs backwards, and when each worker claimed. */
  datatype Watch = Watch(clock: Instant, claimedAt: map<Uuid, Instant>)

  function Tick(watch: Watch, step: Step): Watch
  {
    Watch(if TimeOf(step).Some? then TimeOf(step).value else watch.clock,
          if step.ClaimBatch? then watch.claimedAt[step.worker := step.now] else watch.claimedAt)
  }

  /** Times never decrease, every claim is handled before its lease ends, and the workers share one bound. */
  predicate TimelyStep(step: Step, watch: Watch, max: nat)
  {
    && (TimeOf(step).Some? ==> watch.clock <= TimeOf(step).value)
    && (step.HandleNext? ==>
          && step.policy.maxAttempts == max
          && step.worker in watch.claimedAt && step.turn.now < watch.claimedAt[step.worker] + LEASE)
  }

  predicate Timely(steps: seq<Step>, watch: Watch, max: nat)
    decreases |steps|
  {
    steps == [] || (TimelyStep(steps[0], watch, max) && Timely(steps[1..], Tick(watch, steps[0]), max))
  }

  /** The worker still holds the claim and its lease has not ended. */
  predicate Holds(w: World, watch: Watch, x: Uuid, i: int)
  {
    && x in w.workers && 0 <= i < |w.workers[x]|
    && x in watch.claimedAt && watch.clock < watch.claimedAt[x] + LEASE
  }

  /** A held claim counts the row's tries, and the row is not due before the lease ends. */
  predicate Agrees(l: Lane, claim: Claimed, until: Instant)
  {
    Open(l, claim.id) ==> l.captures[claim.id].attempts == claim.attempts && l.captures[claim.id].nextAttemptAt == until
  }

  ghost predicate LeaseInv(w: World, watch: Watch)
  {
    && (forall x, i | Holds(w, watch, x, i) :: Agrees(w.lane, w.workers[x][i], watch.claimedAt[x] + LEASE))
    && (forall x, i, y, j | Holds(w, watch, x, i) && Holds(w, watch, y, j) && (x != y || i != j) ::
          w.workers[x][i].id != w.workers[y][j].id)
  }

  lemma DeliverKeepsLeases(w: World, step: Step, watch: Watch)
    requires Inv(w) && LeaseInv(w, watch) && step.Deliver? && Enabled(w, step) && watch.clock <= step.now
    ensures LeaseInv(Apply(w, step), Tick(watch, step))
  {
    var v, later := Apply(w, step), Tick(watch, step);
    forall x, i | Holds(v, later, x, i) ensures Agrees(v.lane, v.workers[x][i], later.claimedAt[x] + LEASE) {
      assert Holds(w, watch, x, i);
      assert w.workers[x][i].id in w.lane.captures;
    }
    forall x, i, y, j | Holds(v, later, x, i) && Holds(v, later, y, j) && (x != y || i != j) ensures v.workers[x][i].id != v.workers[y][j].id {
      assert Holds(w, watch, x, i) && Holds(w, watch, y, j);
    }
  }

  /** A claim still held when another worker claims is not among the claimed: its row is not due. */
  lemma HeldIsNotPicked(w: World, step: Step, watch: Watch, x: Uuid, i: int)
    requires Inv(w) && LeaseInv(w, watch) && step.ClaimBatch? && Enabled(w, step) && watch.clock <= step.now
    requires Holds(w, watch, x, i) && step.now < watch.claimedAt[x] + LEASE
    ensures w.workers[x][i].id !in step.picked
  {
    var id := w.workers[x][i].id;
    assert Agrees(w.lane, w.workers[x][i], watch.claimedAt[x] + LEASE);
    if id in step.picked {
      assert id in DueIds(w.lane.captures, step.locked, step.now);
      assert Open(w.lane, id);
    }
  }

  lemma ClaimKeepsAgreement(w: World, step: Step, watch: Watch, x: Uuid, i: int)
    requires Inv(w) && LeaseInv(w, watch) && step.ClaimBatch? && Enabled(w, step) && watch.clock <= step.now
    requires Holds(Apply(w, step), Tick(watch, step), x, i)
    ensures Agrees(Apply(w, step).lane, Apply(w, step).workers[x][i], Tick(watch, step).claimedAt[x] + LEASE)
  {
    if x != step.worker {
      assert Holds(w, watch, x, i);
      HeldIsNotPicked(w, step, watch, x, i);
      assert Agrees(w.lane, w.workers[x][i], watch.claimedAt[x] + LEASE);
    } else {
      assert step.claims[i].id in step.picked;
    }
  }

  lemma ClaimKeepsLeases(w: World, step: Step, watch: Watch)
    requires Inv(w) && LeaseInv(w, watch) && step.ClaimBatch? && Enabled(w, step) && watch.clock <= step.now
    ensures LeaseInv(Apply(w, step), Tick(watch, step))
  {
    var v, later := Apply(w, step), Tick(watch, step);
    forall x, i | Holds(v, later, x, i) ensures Agrees(v.lane, v.workers[x][i], later.claimedAt[x] + LEASE) {
      ClaimKeepsAgreement(w, step, watch, x, i);
    }
    forall x, i, y, j | Holds(v, later, x, i) && Holds(v, later, y, j) && (x != y || i != j) ensures v.workers[x][i].id != v.workers[y][j].id {
      ClaimsStayApart(w, step, watch, x, i, y, j);
    }
  }

  lemma ClaimsStayApart(w: World, step: Step, watch: Watch, x: Uuid, i: int, y: Uuid, j: int)
    requires Inv(w) && LeaseInv(w, watch) && step.ClaimBatch? && Enabled(w, step) && watch.clock <= step.now
    requires Holds(Apply(w, step), Tick(watch, step), x, i) && Holds(Apply(w, step), Tick(watch, step), y, j) && (x != y || i != j)
    ensures Apply(w, step).workers[x][i].id != Apply(w, step).workers[y][j].id
  {
    if x != step.worker && y != step.worker {
      assert Holds(w, watch, x, i) && Holds(w, watch, y, j);
    } else if x != step.worker {
      assert Holds(w, watch, x, i);
      HeldIsNotPicked(w, step, watch, x, i);
      assert step.claims[j].id in step.picked;
    } else if y != step.worker {
      assert Holds(w, watch, y, j);
      HeldIsNotPicked(w, step, watch, y, j);
      assert step.claims[i].id in step.picked;
    }
  }

  /** Where a pending claim stood before the head of its worker's queue was handled. */
  function Was(step: Step, x: Uuid, i: int): int
    requires step.HandleNext?
  {
    if x == step.worker then i + 1 else i
  }

  lemma HandleShiftsClaims(w: World, step: Step, watch: Watch, x: Uuid, i: int)
    requires step.HandleNext? && Enabled(w, step) && watch.clock <= step.turn.now
    requires Holds(Apply(w, step), Tick(watch, step), x, i)
    ensures Holds(w, watch, x, Was(step, x, i)) && Apply(w, step).workers[x][i] == w.workers[x][Was(step, x, i)]
  {
  }

  lemma HandleKeepsOthers(l: Lane, claim: Claimed, turn: Turn, policy: Policy, id: Uuid)
    requires id != claim.id && id in l.captures
    ensures id in Handle(l, claim, turn, policy).captures && Handle(l, claim, turn, policy).captures[id] == l.captures[id]
  {
  }

  lemma HandleKeepsAgreement(w: World, step: Step, watch: Watch, x: Uuid, i: int)
    requires Inv(w) && LeaseInv(w, watch) && step.HandleNext? && Enabled(w, step)
    requires TimelyStep(step, watch, step.policy.maxAttempts) && Holds(Apply(w, step), Tick(watch, step), x, i)
    ensures Agrees(Apply(w, step).lane, Apply(w, step).workers[x][i], watch.claimedAt[x] + LEASE)
  {
    HandleShiftsClaims(w, step, watch, x, i);
    var claim := w.workers[x][Was(step, x, i)];
    assert Holds(w, watch, step.worker, 0);
    assert claim.id != Head(w, step.worker).id;
    assert claim.id in w.lane.captures;
    HandleKeepsOthers(w.lane, Head(w, step.worker), step.turn, step.policy, claim.id);
    assert Agrees(w.lane, claim, watch.claimedAt[x] + LEASE);
  }

  lemma HandleKeepsLeases(w: World, step: Step, watch: Watch)
    requires Inv(w) && LeaseInv(w, watch) && step.HandleNext? && Enabled(w, step) && TimelyStep(step, watch, step.policy.maxAttempts)
    ensures LeaseInv(Apply(w, step), Tick(watch, step))
  {
    var v, later := Apply(w, step), Tick(watch, step);
    forall x, i | Holds(v, later, x, i) ensures Agrees(v.lane, v.workers[x][i], later.claimedAt[x] + LEASE) {
      HandleKeepsAgreement(w, step, watch, x, i);
    }
    forall x, i, y, j | Holds(v, later, x, i) && Holds(v, later, y, j) && (x != y || i != j) ensures v.workers[x][i].id != v.workers[y][j].id {
      HandleShiftsClaims(w, step, watch, x, i);
      HandleShiftsClaims(w, step, watch, y, j);
    }
  }

  lemma LoseKeepsLeases(w: World, step: Step, watch: Watch)
    requires LeaseInv(w, watch) && step.LoseWorker? && Enabled(w, step)
    ensures LeaseInv(Apply(w, step), Tick(watch, step))
  {
    var v := Apply(w, step);
    forall x, i | Holds(v, watch, x, i) ensures Agrees(v.lane, v.workers[x][i], watch.claimedAt[x] + LEASE) {
      assert Holds(w, watch, x, i);
    }
    forall x, i, y, j | Holds(v, watch, x, i) && Holds(v, watch, y, j) && (x != y || i != j) ensures v.workers[x][i].id != v.workers[y][j].id {
      assert Holds(w, watch, x, i) && Holds(w, watch, y, j);
    }
  }

  lemma StepKeepsLeases(w: World, step: Step, watch: Watch, max: nat)
    requires Inv(w) && LeaseInv(w, watch) && Enabled(w, step) && TimelyStep(step, watch, max)
    ensures LeaseInv(Apply(w, step), Tick(watch, step)) && CurrentStep(w, step, max)
  {
    match step
    case Deliver(_, _, _) => DeliverKeepsLeases(w, step, watch);
    case ClaimBatch(_, _, _, _, _, _) => ClaimKeepsLeases(w, step, watch);
    case LoseWorker(_) => LoseKeepsLeases(w, step, watch);
    case HandleNext(worker, _, _) =>
      HandleKeepsLeases(w, step, watch);
      assert Holds(w, watch, worker, 0);
      assert Agrees(w.lane, Head(w, worker), watch.claimedAt[worker] + LEASE);
  }

  /** A claim handled before its lease ends is current. */
  lemma {:induction false} TimelyRunsAreCurrent(w: World, steps: seq<Step>, watch: Watch, max: nat)
    requires Inv(w) && LeaseInv(w, watch) && Legal(w, steps) && Timely(steps, watch, max)
    ensures CurrentRun(w, steps, max)
    decreases |steps|
  {
    if steps != [] {
      StepKeepsLeases(w, steps[0], watch, max);
      StepKeepsInv(w, steps[0]);
      TimelyRunsAreCurrent(Apply(w, steps[0]), steps[1..], Tick(watch, steps[0]), max);
    }
  }

  /**
   In every run in which times never decrease and each claim is handled before its lease ends, an open capture has made
   no try or fewer than `max_attempts`, and one reported as transient has made exactly `max_attempts`.
   */
  lemma LeasedRunsAreBounded(steps: seq<Step>, start: Instant, max: nat, id: Uuid)
    requires Legal(EMPTY, steps) && Timely(steps, Watch(start, map[]), max)
    ensures var l := Exec(EMPTY, steps).lane;
            && BoundInv(l, max)
            && (id in l.captures && l.captures[id].status == Accepted ==> Within(TriesIn(EMPTY, steps, id), max))
  {
    assert Inv(EMPTY);
    TimelyRunsAreCurrent(EMPTY, steps, Watch(start, map[]), max);
    CurrentRunsAreBounded(EMPTY, steps, max);
    AttemptsCountTries(EMPTY, steps, id);
  }

  // ---------------------------------------------------------------- a run that exceeds the bound

  function Transiently(now: Instant): Turn { Turn(Missing(Transient), now, now, 0) }

  /** One open capture with so many tries behind it, and no worker alive. */
  ghost predicate Idle(w: World, tries: nat)
  {
    && w.workers == map[] && w.lane.captures.Keys == {0} && Open(w.lane, 0) && w.lane.captures[0].post.Some?
    && w.lane.captures[0].attempts == tries && LifeOf(w.lane.outbox, 0) == Unborn
  }

  lemma LegalOne(w: World, step: Step, rest: seq<Step>)
    requires Enabled(w, step) && Legal(Apply(w, step), rest)
    ensures Legal(w, [step] + rest) && Exec(w, [step] + rest) == Exec(Apply(w, step), rest)
  {
    assert ([step] + rest)[1..] == rest;
  }

  lemma {:induction false} LegalConcat(w: World, a: seq<Step>, b: seq<Step>)
    requires Legal(w, a) && Legal(Exec(w, a), b)
    ensures Legal(w, a + b) && Exec(w, a + b) == Exec(Exec(w, a), b)
    decreases |a|
  {
    if a == [] {
      assert a + b == b;
    } else {
      LegalConcat(Apply(w, a[0]), a[1..], b);
      assert a + b == [a[0]] + (a[1..] + b);
      LegalOne(w, a[0], a[1..] + b);
    }
  }

  /** With one due capture, the claim of that capture is what a batch of one selects. */
  lemma OnlyDue(w: World, now: Instant)
    requires w.lane.captures.Keys == {0} && Due(w.lane.captures[0], now)
    ensures Selected(w.lane.captures, {}, now, 1, {0})
    ensures ClaimsOf(w.lane.captures, {0}, [ClaimOf(0, w.lane.captures[0])])
  {
    assert DueIds(w.lane.captures, {}, now) == {0};
  }

  function ClaimFirst(w: World, worker: Uuid, now: Instant): Step
    requires 0 in w.lane.captures && w.lane.captures[0].post.Some?
  {
    ClaimBatch(worker, {}, now, 1, {0}, [ClaimOf(0, w.lane.captures[0])])
  }

  /** Claiming the one capture when it is due leases it and changes nothing else. */
  lemma ClaimStep(w: World, worker: Uuid, now: Instant) returns (v: World)
    requires w.lane.captures.Keys == {0} && Due(w.lane.captures[0], now) && worker !in w.workers
    ensures Enabled(w, ClaimFirst(w, worker, now)) && v == Apply(w, ClaimFirst(w, worker, now))
    ensures v.workers == w.workers[worker := [ClaimOf(0, w.lane.captures[0])]]
    ensures v.lane == w.lane.(captures := map[0 := w.lane.captures[0].(nextAttemptAt := now + LEASE)])
  {
    OnlyDue(w, now);
    v := Apply(w, ClaimFirst(w, worker, now));
  }

  /** A transient failure with tries left counts one more and changes nothing else. */
  lemma RetryStep(w: World, worker: Uuid, now: Instant, policy: Policy) returns (v: World)
    requires worker in w.workers && |w.workers[worker]| == 1 && Head(w, worker).id == 0 && HasAttemptsLeft(Head(w, worker), policy)
    requires w.lane.captures.Keys == {0} && Open(w.lane, 0) && LifeOf(w.lane.outbox, 0) == Unborn
    ensures Enabled(w, HandleNext(worker, Transiently(now), policy)) && v == Apply(w, HandleNext(worker, Transiently(now), policy))
    ensures v.workers == w.workers[worker := []] && v.lane.outbox == w.lane.outbox && v.lane.captures.Keys == {0} && Open(v.lane, 0)
    ensures v.lane.captures[0].attempts == w.lane.captures[0].attempts + 1 && v.lane.captures[0].post == w.lane.captures[0].post
  {
    v := Apply(w, HandleNext(worker, Transiently(now), policy));
  }

  /** A worker claims the capture, meets a transient failure and ends: one more try. */
  lemma RetryOnce(w: World, tries: nat, policy: Policy) returns (steps: seq<Step>)
    requires Idle(w, tries) && tries + 1 < policy.maxAttempts <= MAX_I32
    ensures Legal(w, steps) && Idle(Exec(w, steps), tries + 1)
  {
    var now := w.lane.captures[0].nextAttemptAt;
    var w1 := ClaimStep(w, 1, now);
    var w2 := RetryStep(w1, 1, now, policy);
    LegalOne(w2, LoseWorker(1), []);
    LegalOne(w1, HandleNext(1, Transiently(now), policy), [LoseWorker(1)]);
    LegalOne(w, ClaimFirst(w, 1, now), [HandleNext(1, Transiently(now), policy)] + [LoseWorker(1)]);
    steps := [ClaimFirst(w, 1, now)] + ([HandleNext(1, Transiently(now), policy)] + [LoseWorker(1)]);
  }

  lemma {:induction false} RetryTo(command: Command, t: Instant, tries: nat, policy: Policy) returns (steps: seq<Step>)
    requires command.tenant.Some? && command.post.Some? && tries < policy.maxAttempts <= MAX_I32
    ensures Legal(EMPTY, steps) && Idle(Exec(EMPTY, steps), tries)
    decreases tries
  {
    if tries == 0 {
      var e := Reported(0, command.id, command.operation, command.tenant.value, Queued);
      LogAppend([], e);
      assert [] + [e] == [e];
      LegalOne(EMPTY, Deliver(command, 0, t), []);
      steps := [Deliver(command, 0, t)] + [];
    } else {
      var before := RetryTo(command, t, tries - 1, policy);
      var more := RetryOnce(Exec(EMPTY, before), tries - 1, policy);
      LegalConcat(EMPTY, before, more);
      steps := before + more;
    }
  }

  /** Two workers claim the same try, the second once the first lease is over, and both meet a transient failure. */
  lemma Overlap(w: World, tries: nat, policy: Policy) returns (steps: seq<Step>)
    requires Idle(w, tries) && tries + 1 < policy.maxAttempts <= MAX_I32
    ensures Legal(w, steps)
    ensures |steps| == 4 && steps[0].ClaimBatch? && steps[1].ClaimBatch? && steps[2].HandleNext? && steps[3].HandleNext?
    ensures steps[0].worker == steps[2].worker != steps[1].worker == steps[3].worker && steps[1].now == steps[0].now + LEASE
    ensures steps[2].policy == policy == steps[3].policy
    ensures var l := Exec(w, steps).lane; Open(l, 0) && l.captures[0].attempts == tries + 2
  {
    var now := w.lane.captures[0].nextAttemptAt;
    var w1 := ClaimStep(w, 1, now);
    var w2 := ClaimStep(w1, 2, now + LEASE);
    var a, b := HandleNext(1, Transiently(now + LEASE), policy), HandleNext(2, Transiently(now + LEASE), policy);
    var w3 := RetryStep(w2, 1, now + LEASE, policy);
    var w4 := RetryStep(w3, 2, now + LEASE, policy);
    var c, d := ClaimFirst(w, 1, now), ClaimFirst(w1, 2, now + LEASE);
    LegalOne(w3, b, []);
    LegalOne(w2, a, [b] + []);
    LegalOne(w1, d, [a] + ([b] + []));
    LegalOne(w, c, [d] + ([a] + ([b] + [])));
    steps := [c, d, a, b];
    assert steps == [c] + ([d] + ([a] + ([b] + [])));
  }

  /**
   The bound broken, by a run, for every bound of two or more: after `max - 2` tries of current claims a worker claims
   the capture, a second one claims it when that lease is over, and both meet a transient failure. Then the capture is
   open with all `max_attempts` tries made.
   */
  lemma OverlappingLeasesExceedBound(command: Command, t: Instant, policy: Policy) returns (before: seq<Step>, steps: seq<Step>)
    requires command.tenant.Some? && command.post.Some? && 2 <= policy.maxAttempts <= MAX_I32
    ensures Legal(EMPTY, before + steps)
    ensures |steps| == 4 && steps[0].ClaimBatch? && steps[1].ClaimBatch? && steps[2].HandleNext? && steps[3].HandleNext?
    ensures steps[0].worker == steps[2].worker != steps[1].worker == steps[3].worker && steps[1].now == steps[0].now + LEASE
    ensures steps[2].policy == policy == steps[3].policy
    ensures var l := Exec(EMPTY, before + steps).lane; Open(l, 0) && l.captures[0].attempts == policy.maxAttempts
  {
    before := RetryTo(command, t, policy.maxAttempts - 2, policy);
    steps := Overlap(Exec(EMPTY, before), policy.maxAttempts - 2, policy);
    LegalConcat(EMPTY, before, steps);
  }
}
