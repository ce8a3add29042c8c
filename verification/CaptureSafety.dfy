/**
 Every interleaving of deliveries and capture workers: one capture per command, one terminal report per
 capture, and a social event log that reproduces the source table.
 */
module CaptureSafety {
  import opened Common
  import opened ExplicitCapture

  /** The lane with its live workers; each holds the claims it has not handled yet. */
  datatype World = World(lane: Lane, workers: map<Uuid, seq<Claimed>>)

  datatype Step = Deliver(command: Command, id: Uuid, now: Instant)
                | ClaimBatch(worker: Uuid, locked: set<Uuid>, now: Instant, limit: nat, picked: set<Uuid>, claims: seq<Claimed>)
                | HandleNext(worker: Uuid, turn: Turn, policy: Policy)
                | LoseWorker(worker: Uuid)

  /** Generated identities are new: capture ids to the table, source ids to the whole event log. */
  ghost predicate Enabled(w: World, step: Step)
  {
    match step
    case Deliver(_, id, _) => id !in w.lane.captures
    case ClaimBatch(worker, locked, now, limit, picked, claims) =>
      worker !in w.workers && Selected(w.lane.captures, locked, now, limit, picked) && ClaimsOf(w.lane.captures, picked, claims)
    case HandleNext(worker, turn, _) =>
      worker in w.workers && w.workers[worker] != [] && LifeOf(w.lane.outbox, turn.minted) == Unborn
    case LoseWorker(worker) => worker in w.workers
  }

  ghost function Apply(w: World, step: Step): World
    requires Enabled(w, step)
  {
    match step
    case Deliver(command, id, now) => w.(lane := Intake(w.lane, command, id, now).0)
    case ClaimBatch(worker, _, now, _, picked, claims) =>
      World(w.lane.(captures := Leased(w.lane.captures, picked, now)), w.workers[worker := claims])
    case HandleNext(worker, turn, policy) =>
      World(Handle(w.lane, w.workers[worker][0], turn, policy), w.workers[worker := w.workers[worker][1..]])
    case LoseWorker(worker) => w.(workers := w.workers - {worker})
  }

  ghost predicate Legal(w: World, steps: seq<Step>)
    decreases |steps|
  {
    steps == [] || (Enabled(w, steps[0]) && Legal(Apply(w, steps[0]), steps[1..]))
  }

  ghost function Exec(w: World, steps: seq<Step>): World
    requires Legal(w, steps)
    decreases |steps|
  {
    if steps == [] then w else Exec(Apply(w, steps[0]), steps[1..])
  }

  const EMPTY: World := World(Lane({}, map[], map[], []), map[])

  ghost predicate Reachable(w: World) { exists steps :: Legal(EMPTY, steps) && Exec(EMPTY, steps) == w }

  // ---------------------------------------------------------------- reading the log

  /** What a consumer of one owner's events believes about one post. */
  function View(log: seq<Event>, key: SourceKey): Option<Snapshot>
  {
    if log == [] then None else ViewStep(View(log[..|log| - 1], key), log[|log| - 1], key)
  }

  function ViewStep(view: Option<Snapshot>, e: Event, key: SourceKey): Option<Snapshot>
  {
    if !e.Social? || e.owner != key.owner then view
    else match e.fact
      case Removed(source, _) => if view.Some? && view.value.source == source then None else view
      case _ => if e.fact.snapshot.post == key.post then Some(e.fact.snapshot) else view
  }

  function FactSource(fact: Fact): Uuid { if fact.Removed? then fact.source else fact.snapshot.source }

  /** The life of one source identity, as an automaton over the log; `Broken` is any order that must not occur. */
  datatype Life = Unborn | Live(owner: Uuid, snapshot: Snapshot) | Ended | Broken

  function LifeStep(life: Life, e: Event, source: Uuid): Life
  {
    if !e.Social? || FactSource(e.fact) != source then life
    else match e.fact
      case Captured(s) => if life == Unborn then Live(e.owner, s) else Broken
      case Updated(s) =>
        if life.Live? && life.owner == e.owner && life.snapshot.post == s.post && life.snapshot.digest != s.digest
        then Live(e.owner, s) else Broken
      case Removed(_, _) => if life.Live? && life.owner == e.owner then Ended else Broken
  }

  function LifeOf(log: seq<Event>, source: Uuid): Life
  {
    if log == [] then Unborn else LifeStep(LifeOf(log[..|log| - 1], source), log[|log| - 1], source)
  }

  predicate Terminal(e: Event, id: Uuid) { e.Reported? && e.capture == id && e.report != Queued }

  function TerminalReports(log: seq<Event>, id: Uuid): nat
  {
    if log == [] then 0
    else TerminalReports(log[..|log| - 1], id) + if Terminal(log[|log| - 1], id) then 1 else 0
  }

  lemma LogAppend(log: seq<Event>, e: Event)
    ensures forall key :: View(log + [e], key) == ViewStep(View(log, key), e, key)
    ensures forall source :: LifeOf(log + [e], source) == LifeStep(LifeOf(log, source), e, source)
    ensures forall id :: TerminalReports(log + [e], id) == TerminalReports(log, id) + if Terminal(e, id) then 1 else 0
  {
    assert (log + [e])[..|log|] == log;
  }

  // ---------------------------------------------------------------- invariants

  function Commands(captures: map<Uuid, Capture>): set<string> { set id | id in captures :: captures[id].command }

  /** One capture per accepted command, and a capture is reported exactly when it has left `accepted`. */
  ghost predicate CapturesInv(l: Lane)
  {
    && l.inbox == Commands(l.captures)
    && (forall a, b | a in l.captures && b in l.captures && a != b :: l.captures[a].command != l.captures[b].command)
    && (forall id | id in l.captures :: l.captures[id].status == Accepted <==> l.captures[id].reportedAt.None?)
    && (forall id | id in l.captures :: l.captures[id].post.None? ==> l.captures[id].status == Unavailable)
  }

  predicate Describes(row: Capture, claim: Claimed)
  {
    && row.command == claim.command && row.operation == claim.operation && row.owner == claim.owner
    && row.post == Some(claim.post) && row.capturedAt == claim.capturedAt
  }

  /** Claims may be stale in `attempts`, never in what identifies the capture. */
  ghost predicate WorkersInv(w: World)
  {
    forall x, i | x in w.workers && 0 <= i < |w.workers[x]| ::
      w.workers[x][i].id in w.lane.captures && Describes(w.lane.captures[w.workers[x][i].id], w.workers[x][i])
  }

  ghost predicate ReportsInv(l: Lane)
  {
    && (forall id :: TerminalReports(l.outbox, id) == if id in l.captures && l.captures[id].status != Accepted then 1 else 0)
    && (forall i | 0 <= i < |l.outbox| && l.outbox[i].Reported? :: ReportFits(l.captures, l.outbox[i]))
  }

  /** A report names its capture's own command, operation and owner, and tells how that capture ended. */
  predicate ReportFits(captures: map<Uuid, Capture>, e: Event)
    requires e.Reported?
  {
    && e.capture in captures
    && var row := captures[e.capture];
    && e.command == row.command && e.operation == row.operation && e.owner == row.owner
    && match e.report
       case Queued => row.post.Some?
       case Preserved(source) => row.status == Resolved && row.source == Some(source)
       case Failed(_) => row.status == Unavailable
  }

  ghost predicate SourcesInv(l: Lane)
  {
    && (forall key :: View(l.outbox, key) == if key in l.sources then Some(SnapshotOf(key, l.sources[key])) else None)
    && (forall key | key in l.sources :: LifeOf(l.outbox, l.sources[key].source) == Live(key.owner, SnapshotOf(key, l.sources[key])))
    && (forall source :: LifeFits(l.sources, LifeOf(l.outbox, source), source))
  }

  predicate LifeFits(sources: map<SourceKey, SourceRow>, life: Life, source: Uuid)
  {
    && life != Broken
    && (life.Live? ==>
          var key := SourceKey(life.owner, life.snapshot.post);
          key in sources && sources[key].source == source)
  }

  ghost predicate Inv(w: World) { CapturesInv(w.lane) && WorkersInv(w) && ReportsInv(w.lane) && SourcesInv(w.lane) }

  // ---------------------------------------------------------------- preservation: sources and the log

  /** Reports do not disturb the social side. */
  lemma ReportKeepsSources(l: Lane, m: Lane, e: Event)
    requires SourcesInv(l) && e.Reported? && m.sources == l.sources && m.outbox == l.outbox + [e]
    ensures SourcesInv(m)
  {
    LogAppend(l.outbox, e);
  }

  lemma UpsertKeepsSources(l: Lane, claim: Claimed, post: PublicPost, minted: Uuid)
    requires SourcesInv(l) && LifeOf(l.outbox, minted) == Unborn
    ensures SourcesInv(UpsertSource(l, claim, post, minted))
  {
    if !Unchanged(l, claim, post) {
      var m := UpsertSource(l, claim, post, minted);
      var e := m.outbox[|l.outbox|];
      var id := SourceIdFor(l, claim, minted);
      LogAppend(l.outbox, e);
      assert m.outbox == l.outbox + [e];
      assert FactSource(e.fact) == id;
      forall key | key in m.sources ensures LifeOf(m.outbox, m.sources[key].source) == Live(key.owner, SnapshotOf(key, m.sources[key])) {
        if key != KeyOf(claim) {
          assert LifeOf(l.outbox, l.sources[key].source) == Live(key.owner, SnapshotOf(key, l.sources[key]));
        }
      }
      forall source ensures LifeFits(m.sources, LifeOf(m.outbox, source), source) {
        assert LifeFits(l.sources, LifeOf(l.outbox, source), source);
      }
    }
  }

  lemma RemoveKeepsSources(l: Lane, claim: Claimed, removedAt: Instant)
    requires SourcesInv(l)
    ensures SourcesInv(RemoveSource(l, claim, removedAt))
  {
    var gone := KeyOf(claim);
    if gone in l.sources {
      var m := RemoveSource(l, claim, removedAt);
      var id := l.sources[gone].source;
      LogAppend(l.outbox, Social(claim.owner, Removed(id, removedAt)));
      forall key ensures View(m.outbox, key) == if key in m.sources then Some(SnapshotOf(key, m.sources[key])) else None {
        assert View(l.outbox, key) == if key in l.sources then Some(SnapshotOf(key, l.sources[key])) else None;
        if key in l.sources && key != gone {
          assert LifeOf(l.outbox, l.sources[key].source) == Live(key.owner, SnapshotOf(key, l.sources[key]));
          assert LifeOf(l.outbox, id) == Live(gone.owner, SnapshotOf(gone, l.sources[gone]));
          assert l.sources[key].source != id;
        }
      }
      forall key | key in m.sources ensures LifeOf(m.outbox, m.sources[key].source) == Live(key.owner, SnapshotOf(key, m.sources[key])) {
        assert LifeOf(l.outbox, l.sources[key].source) == Live(key.owner, SnapshotOf(key, l.sources[key]));
        assert LifeOf(l.outbox, id) == Live(gone.owner, SnapshotOf(gone, l.sources[gone]));
      }
      forall source ensures LifeFits(m.sources, LifeOf(m.outbox, source), source) {
        assert LifeFits(l.sources, LifeOf(l.outbox, source), source);
      }
    }
  }

  lemma HandleKeepsSources(l: Lane, claim: Claimed, turn: Turn, policy: Policy)
    requires SourcesInv(l) && LifeOf(l.outbox, turn.minted) == Unborn
    ensures SourcesInv(Handle(l, claim, turn, policy))
  {
    var m := Handle(l, claim, turn, policy);
    if Open(l, claim.id) {
      match OutcomeFor(l, claim, turn.answer, policy)
      case DidPreserve =>
        UpsertKeepsSources(l, claim, turn.answer.post, turn.minted);
        ReportKeepsSources(UpsertSource(l, claim, turn.answer.post, turn.minted), m,
                           ReportOf(claim, Preserved(SourceIdFor(l, claim, turn.minted))));
      case DidTerminate(failure) =>
        var closed := l.(captures := m.captures);
        assert SourcesInv(closed);
        if failure == Deleted {
          RemoveKeepsSources(closed, claim, turn.removedAt);
          ReportKeepsSources(RemoveSource(closed, claim, turn.removedAt), m, ReportOf(claim, Failed(failure)));
        } else {
          ReportKeepsSources(closed, m, ReportOf(claim, Failed(failure)));
        }
      case DidDefer =>
    }
  }

  // ---------------------------------------------------------------- preservation: captures and reports

  /** The shape of every outcome: at most one capture row changes, and at most one social event precedes its report. */
  ghost predicate Ends(l: Lane, m: Lane, claim: Claimed, report: Report)
  {
    && Open(l, claim.id) && claim.id in m.captures && m.inbox == l.inbox
    && m.captures == l.captures[claim.id := m.captures[claim.id]]
    && Describes(m.captures[claim.id], claim)
    && m.captures[claim.id].reportedAt.Some? && m.captures[claim.id].status != Accepted
    && ReportFits(m.captures, ReportOf(claim, report)) && report != Queued
    && (m.outbox == l.outbox + [ReportOf(claim, report)]
        || exists e :: SocialThen(l.outbox, m.outbox, e, claim, ReportOf(claim, report)))
  }

  predicate SocialThen(before: seq<Event>, after: seq<Event>, e: Event, claim: Claimed, last: Event)
  {
    e.Social? && e.owner == claim.owner && after == before + [e] + [last]
  }

  lemma HandleShape(l: Lane, claim: Claimed, turn: Turn, policy: Policy)
    requires Open(l, claim.id) && Describes(l.captures[claim.id], claim)
    ensures var m := Handle(l, claim, turn, policy);
            match OutcomeFor(l, claim, turn.answer, policy)
            case DidPreserve => Ends(l, m, claim, Preserved(SourceIdFor(l, claim, turn.minted)))
            case DidTerminate(failure) => Ends(l, m, claim, Failed(failure))
            case DidDefer =>
              && m.inbox == l.inbox && m.outbox == l.outbox && m.sources == l.sources && claim.id in m.captures
              && m.captures == l.captures[claim.id := m.captures[claim.id]]
              && Describes(m.captures[claim.id], claim) && Open(m, claim.id)
  {
    var m := Handle(l, claim, turn, policy);
    match OutcomeFor(l, claim, turn.answer, policy)
    case DidPreserve =>
      if !Unchanged(l, claim, turn.answer.post) {
        assert SocialThen(l.outbox, m.outbox, m.outbox[|l.outbox|], claim, ReportOf(claim, Preserved(SourceIdFor(l, claim, turn.minted))));
      }
    case DidTerminate(failure) =>
      if failure == Deleted && KeyOf(claim) in l.sources {
        assert SocialThen(l.outbox, m.outbox, m.outbox[|l.outbox|], claim, ReportOf(claim, Failed(failure)));
      }
    case DidDefer =>
  }

  lemma EndsKeepsReports(l: Lane, m: Lane, claim: Claimed, report: Report)
    requires ReportsInv(l) && Ends(l, m, claim, report) && Describes(l.captures[claim.id], claim)
    ensures ReportsInv(m)
  {
    var last := ReportOf(claim, report);
    var base := m.outbox[..|m.outbox| - 1];
    assert m.outbox == base + [last];
    LogAppend(base, last);
    if base != l.outbox {
      var e :| SocialThen(l.outbox, m.outbox, e, claim, last);
      assert base == l.outbox + [e];
      LogAppend(l.outbox, e);
    }
    forall i | 0 <= i < |m.outbox| && m.outbox[i].Reported? ensures ReportFits(m.captures, m.outbox[i]) {
      if i < |l.outbox| {
        assert m.outbox[i] == l.outbox[i];
        assert ReportFits(l.captures, l.outbox[i]);
      }
    }
  }

  /** Exactly one row is replaced, and what identifies it stays. */
  ghost predicate Touches(l: Lane, m: Lane, id: Uuid)
  {
    && id in l.captures && id in m.captures && m.inbox == l.inbox
    && m.captures == l.captures[id := m.captures[id]]
    && m.captures[id].command == l.captures[id].command && m.captures[id].post == l.captures[id].post
    && m.captures[id].operation == l.captures[id].operation && m.captures[id].owner == l.captures[id].owner
    && m.captures[id].capturedAt == l.captures[id].capturedAt
    && (m.captures[id].status == Accepted <==> m.captures[id].reportedAt.None?)
  }

  lemma TouchKeepsCaptures(l: Lane, m: Lane, id: Uuid)
    requires CapturesInv(l) && Touches(l, m, id) && l.captures[id].post.Some?
    ensures CapturesInv(m)
  {
    SameCommands(l.captures, m.captures);
  }

  lemma SameCommands(before: map<Uuid, Capture>, after: map<Uuid, Capture>)
    requires before.Keys == after.Keys && forall id | id in before :: after[id].command == before[id].command
    ensures Commands(after) == Commands(before)
  {
    forall c | c in Commands(before) ensures c in Commands(after) {
      var id :| id in before && before[id].command == c;
      assert id in after && after[id].command == c;
    }
    forall c | c in Commands(after) ensures c in Commands(before) {
      var id :| id in after && after[id].command == c;
      assert id in before && before[id].command == c;
    }
  }

  lemma HandleTouches(l: Lane, claim: Claimed, turn: Turn, policy: Policy)
    requires Open(l, claim.id) && Describes(l.captures[claim.id], claim)
    ensures Touches(l, Handle(l, claim, turn, policy), claim.id)
  {
    HandleShape(l, claim, turn, policy);
  }

  lemma HandleKeepsReports(l: Lane, claim: Claimed, turn: Turn, policy: Policy)
    requires ReportsInv(l) && Open(l, claim.id) && Describes(l.captures[claim.id], claim)
    ensures ReportsInv(Handle(l, claim, turn, policy))
  {
    var m := Handle(l, claim, turn, policy);
    HandleShape(l, claim, turn, policy);
    match OutcomeFor(l, claim, turn.answer, policy)
    case DidPreserve => EndsKeepsReports(l, m, claim, Preserved(SourceIdFor(l, claim, turn.minted)));
    case DidTerminate(failure) => EndsKeepsReports(l, m, claim, Failed(failure));
    case DidDefer => DeferKeepsReports(l, m, claim.id);
  }

  lemma DeferKeepsReports(l: Lane, m: Lane, id: Uuid)
    requires ReportsInv(l) && Open(l, id) && Open(m, id) && m.outbox == l.outbox && Touches(l, m, id)
    ensures ReportsInv(m)
  {
    forall i | 0 <= i < |m.outbox| && m.outbox[i].Reported? ensures ReportFits(m.captures, m.outbox[i]) {
      assert ReportFits(l.captures, l.outbox[i]);
    }
  }

  lemma TouchKeepsWorkers(w: World, v: World, id: Uuid, worker: Uuid)
    requires WorkersInv(w) && Touches(w.lane, v.lane, id)
    requires worker in w.workers && w.workers[worker] != [] && v.workers == w.workers[worker := w.workers[worker][1..]]
    ensures WorkersInv(v)
  {
    forall x, i | x in v.workers && 0 <= i < |v.workers[x]|
      ensures v.workers[x][i].id in v.lane.captures && Describes(v.lane.captures[v.workers[x][i].id], v.workers[x][i])
    {
      var k := if x == worker then i + 1 else i;
      assert v.workers[x][i] == w.workers[x][k];
      assert Describes(w.lane.captures[w.workers[x][k].id], w.workers[x][k]);
    }
  }

  lemma HandleKeepsRest(w: World, worker: Uuid, turn: Turn, policy: Policy)
    requires Inv(w) && Enabled(w, HandleNext(worker, turn, policy))
    ensures var v := Apply(w, HandleNext(worker, turn, policy)); CapturesInv(v.lane) && WorkersInv(v) && ReportsInv(v.lane)
  {
    var claim := w.workers[worker][0];
    var v := Apply(w, HandleNext(worker, turn, policy));
    assert Describes(w.lane.captures[claim.id], claim);
    if Open(w.lane, claim.id) {
      HandleTouches(w.lane, claim, turn, policy);
      TouchKeepsCaptures(w.lane, v.lane, claim.id);
      HandleKeepsReports(w.lane, claim, turn, policy);
      TouchKeepsWorkers(w, v, claim.id, worker);
    }
  }

  // ---------------------------------------------------------------- preservation: intake and claims

  lemma NewCommand(captures: map<Uuid, Capture>, id: Uuid, row: Capture)
    requires id !in captures
    ensures Commands(captures[id := row]) == Commands(captures) + {row.command}
  {
    var after := captures[id := row];
    assert after[id].command == row.command;
    forall c | c in Commands(captures) ensures c in Commands(after) {
      var x :| x in captures && captures[x].command == c;
      assert x in after && after[x].command == c;
    }
  }

  lemma DeliverKeepsCaptures(l: Lane, command: Command, id: Uuid, now: Instant)
    requires CapturesInv(l) && id !in l.captures
    ensures CapturesInv(Intake(l, command, id, now).0)
  {
    var m := Intake(l, command, id, now).0;
    if m != l {
      NewCommand(l.captures, id, m.captures[id]);
      forall x | x in l.captures ensures l.captures[x].command != command.id {
        assert l.captures[x].command in Commands(l.captures);
      }
    }
  }

  lemma DeliverKeepsReports(l: Lane, command: Command, id: Uuid, now: Instant)
    requires ReportsInv(l) && SourcesInv(l) && id !in l.captures
    ensures ReportsInv(Intake(l, command, id, now).0) && SourcesInv(Intake(l, command, id, now).0)
  {
    var m := Intake(l, command, id, now).0;
    if m != l {
      var e := m.outbox[|l.outbox|];
      ReportKeepsSources(l, m, e);
      LogAppend(l.outbox, e);
      forall i | 0 <= i < |m.outbox| && m.outbox[i].Reported? ensures ReportFits(m.captures, m.outbox[i]) {
        if i < |l.outbox| {
          assert ReportFits(l.captures, l.outbox[i]);
        }
      }
    }
  }

  lemma DeliverKeeps(w: World, command: Command, id: Uuid, now: Instant)
    requires Inv(w) && id !in w.lane.captures
    ensures Inv(Apply(w, Deliver(command, id, now)))
  {
    DeliverKeepsCaptures(w.lane, command, id, now);
    DeliverKeepsReports(w.lane, command, id, now);
  }

  lemma ClaimKeeps(w: World, step: Step)
    requires Inv(w) && step.ClaimBatch? && Enabled(w, step)
    ensures Inv(Apply(w, step))
  {
    var l, m := w.lane, Apply(w, step).lane;
    assert forall x | x in l.captures :: m.captures[x] == l.captures[x].(nextAttemptAt := m.captures[x].nextAttemptAt);
    SameCommands(l.captures, m.captures);
    forall i | 0 <= i < |m.outbox| && m.outbox[i].Reported? ensures ReportFits(m.captures, m.outbox[i]) {
      assert ReportFits(l.captures, l.outbox[i]);
    }
  }

  lemma StepKeepsInv(w: World, step: Step)
    requires Inv(w) && Enabled(w, step)
    ensures Inv(Apply(w, step))
  {
    match step
    case Deliver(command, id, now) => DeliverKeeps(w, command, id, now);
    case ClaimBatch(_, _, _, _, _, _) => ClaimKeeps(w, step);
    case HandleNext(worker, turn, policy) =>
      HandleKeepsRest(w, worker, turn, policy);
      HandleKeepsSources(w.lane, w.workers[worker][0], turn, policy);
    case LoseWorker(_) =>
  }

  lemma {:induction false} RunKeepsInv(w: World, steps: seq<Step>)
    requires Inv(w) && Legal(w, steps)
    ensures Inv(Exec(w, steps))
    decreases |steps|
  {
    if steps != [] {
      StepKeepsInv(w, steps[0]);
      RunKeepsInv(Apply(w, steps[0]), steps[1..]);
    }
  }

  lemma ReachableInv(w: World)
    requires Reachable(w)
    ensures Inv(w)
  {
    var steps :| Legal(EMPTY, steps) && Exec(EMPTY, steps) == w;
    RunKeepsInv(EMPTY, steps);
  }

  // ---------------------------------------------------------------- main results

  /** In every reachable state each accepted command has exactly one capture, whatever was redelivered. */
  lemma OneCapturePerCommand(w: World, command: string)
    requires Reachable(w) && command in w.lane.inbox
    ensures exists id :: id in w.lane.captures && w.lane.captures[id].command == command
                && forall other | other in w.lane.captures && w.lane.captures[other].command == command :: other == id
  {
    ReachableInv(w);
    var id :| id in w.lane.captures && w.lane.captures[id].command == command;
    assert forall other | other in w.lane.captures && w.lane.captures[other].command == command :: other == id;
  }

  /** A second delivery of a command changes nothing. */
  lemma RedeliveryIsAbsorbed(l: Lane, command: Command, again: Command, id: Uuid, other: Uuid, now: Instant, later: Instant)
    requires again.id == command.id && command.tenant.Some?
    ensures var once := Intake(l, command, id, now).0; Intake(once, again, other, later).0 == once
  {
  }

  /**
   In every reachable state a capture is reported exactly when it is no longer accepted, it then has exactly
   one terminal report and before that none, and every report agrees with the capture's row.
   */
  lemma ReportedExactlyOnce(w: World, id: Uuid)
    requires Reachable(w) && id in w.lane.captures
    ensures w.lane.captures[id].reportedAt.Some? <==> w.lane.captures[id].status != Accepted
    ensures TerminalReports(w.lane.outbox, id) == if w.lane.captures[id].status != Accepted then 1 else 0
    ensures forall i | 0 <= i < |w.lane.outbox| && w.lane.outbox[i].Reported? :: ReportFits(w.lane.captures, w.lane.outbox[i])
  {
    ReachableInv(w);
  }

  /** Folding the committed social events of a pair reproduces its row, in every reachable state. */
  lemma EventsReproduceSources(w: World, key: SourceKey)
    requires Reachable(w)
    ensures View(w.lane.outbox, key) == if key in w.lane.sources then Some(SnapshotOf(key, w.lane.sources[key])) else None
  {
    ReachableInv(w);
  }

  /** Every fact but the first Captured follows an earlier one. */
  ghost predicate StartsCaptured(log: seq<Event>, source: Uuid)
  {
    forall j | 0 <= j < |log| && About(log[j], source) && !log[j].fact.Captured? :: exists i :: Precedes(log, source, i, j)
  }

  ghost predicate StaysConsistent(log: seq<Event>, source: Uuid)
  {
    forall i, j | 0 <= i < j < |log| && About(log[i], source) && About(log[j], source) :: Consistent(log[i], log[j])
  }

  ghost predicate ChangesContent(log: seq<Event>, source: Uuid)
  {
    forall i, j | Precedes(log, source, i, j) && log[j].fact.Updated? && !log[i].fact.Removed? ::
      log[i].fact.snapshot.digest != log[j].fact.snapshot.digest
  }

  /**
   The life of a source identity, read off the log positions: its first fact is Captured and no other is, every
   later one keeps owner and post, each Updated changes the digest, and nothing follows Removed.
   */
  ghost predicate OrderlyLife(log: seq<Event>, source: Uuid)
  {
    StartsCaptured(log, source) && StaysConsistent(log, source) && ChangesContent(log, source)
  }

  /** What a later fact of the same source owes an earlier one. */
  predicate Consistent(earlier: Event, later: Event)
    requires earlier.Social? && later.Social?
  {
    && !later.fact.Captured? && !earlier.fact.Removed? && earlier.owner == later.owner
    && (later.fact.Updated? ==> earlier.fact.snapshot.post == later.fact.snapshot.post)
  }

  predicate About(e: Event, source: Uuid) { e.Social? && FactSource(e.fact) == source }

  /** `i` is the last position before `j` that is about the source. */
  ghost predicate Precedes(log: seq<Event>, source: Uuid, i: int, j: int)
  {
    0 <= i < j < |log| && About(log[i], source) && About(log[j], source) && forall k | i < k < j :: !About(log[k], source)
  }

  /** The automaton state summarises the facts seen: the last one, and owner and post of all of them. */
  ghost predicate Summarises(log: seq<Event>, source: Uuid)
  {
    match LifeOf(log, source)
    case Unborn => forall i | 0 <= i < |log| :: !About(log[i], source)
    case Live(owner, snapshot) =>
      && (exists i :: LastAbout(log, source, i) && !log[i].fact.Removed? && log[i].fact.snapshot == snapshot)
      && (forall i | 0 <= i < |log| && About(log[i], source) ::
            log[i].owner == owner && !log[i].fact.Removed? && log[i].fact.snapshot.post == snapshot.post)
    case _ => true
  }

  ghost predicate LastAbout(log: seq<Event>, source: Uuid, i: int)
  {
    0 <= i < |log| && About(log[i], source) && forall k | i < k < |log| :: !About(log[k], source)
  }

  lemma {:induction false} UnbrokenSummarises(log: seq<Event>, source: Uuid)
    requires LifeOf(log, source) != Broken
    ensures Summarises(log, source)
    decreases |log|
  {
    if log != [] {
      var prefix, e := log[..|log| - 1], log[|log| - 1];
      assert LifeOf(prefix, source) != Broken;
      UnbrokenSummarises(prefix, source);
      if About(e, source) {
        assert LastAbout(log, source, |log| - 1);
      } else if LifeOf(prefix, source).Live? {
        var i :| LastAbout(prefix, source, i) && !prefix[i].fact.Removed? && prefix[i].fact.snapshot == LifeOf(prefix, source).snapshot;
        assert LastAbout(log, source, i);
      }
    }
  }

  lemma {:induction false} UnbrokenIsOrderly(log: seq<Event>, source: Uuid)
    requires LifeOf(log, source) != Broken
    ensures OrderlyLife(log, source)
    decreases |log|
  {
    if log != [] {
      var prefix, e := log[..|log| - 1], log[|log| - 1];
      assert LifeOf(prefix, source) != Broken;
      UnbrokenIsOrderly(prefix, source);
      UnbrokenSummarises(prefix, source);
      ExtendsOrderly(log, source);
    }
  }

  lemma PrecedesExtends(log: seq<Event>, source: Uuid, n: nat, i: int, j: int)
    requires n <= |log| && Precedes(log[..n], source, i, j)
    ensures Precedes(log, source, i, j)
  {
    assert forall k | 0 <= k < n :: log[..n][k] == log[k];
  }

  lemma LastFactFollows(log: seq<Event>, source: Uuid, n: nat)
    requires n == |log| - 1 && LifeOf(log, source) != Broken && Summarises(log[..n], source)
    requires About(log[n], source) && !log[n].fact.Captured?
    ensures exists i :: Precedes(log, source, i, n)
  {
    var i :| LastAbout(log[..n], source, i);
    assert forall k | 0 <= k < n :: log[..n][k] == log[k];
    assert Precedes(log, source, i, n);
  }

  lemma NewFactFollows(log: seq<Event>, source: Uuid, j: int)
    requires log != [] && LifeOf(log, source) != Broken
    requires StartsCaptured(log[..|log| - 1], source) && Summarises(log[..|log| - 1], source)
    requires 0 <= j < |log| && About(log[j], source) && !log[j].fact.Captured?
    ensures exists i :: Precedes(log, source, i, j)
  {
    var n := |log| - 1;
    if j < n {
      assert log[..n][j] == log[j];
      var i :| Precedes(log[..n], source, i, j);
      PrecedesExtends(log, source, n, i, j);
    } else {
      LastFactFollows(log, source, n);
    }
  }

  lemma NewFactAgrees(log: seq<Event>, source: Uuid, i: int, j: int)
    requires log != [] && LifeOf(log, source) != Broken
    requires StaysConsistent(log[..|log| - 1], source) && Summarises(log[..|log| - 1], source)
    requires 0 <= i < j < |log| && About(log[i], source) && About(log[j], source)
    ensures Consistent(log[i], log[j])
  {
    var n := |log| - 1;
    var prefix := log[..n];
    assert prefix[i] == log[i];
    if j < n {
      assert prefix[j] == log[j];
      assert Consistent(prefix[i], prefix[j]);
    }
  }

  lemma LastFactChanges(log: seq<Event>, source: Uuid, i: int, n: nat)
    requires n == |log| - 1 && LifeOf(log, source) != Broken && Summarises(log[..n], source)
    requires Precedes(log, source, i, n) && log[n].fact.Updated? && !log[i].fact.Removed?
    ensures log[i].fact.snapshot.digest != log[n].fact.snapshot.digest
  {
    var prefix := log[..n];
    assert forall k | 0 <= k < n :: prefix[k] == log[k];
    var k :| LastAbout(prefix, source, k) && !prefix[k].fact.Removed? && prefix[k].fact.snapshot == LifeOf(prefix, source).snapshot;
    assert About(prefix[i], source);
    assert k == i;
  }

  lemma NewFactChanges(log: seq<Event>, source: Uuid, i: int, j: int)
    requires log != [] && LifeOf(log, source) != Broken
    requires ChangesContent(log[..|log| - 1], source) && Summarises(log[..|log| - 1], source)
    requires Precedes(log, source, i, j) && log[j].fact.Updated? && !log[i].fact.Removed?
    ensures log[i].fact.snapshot.digest != log[j].fact.snapshot.digest
  {
    var n := |log| - 1;
    if j < n {
      assert forall k | 0 <= k < n :: log[..n][k] == log[k];
      assert Precedes(log[..n], source, i, j);
    } else {
      LastFactChanges(log, source, i, n);
    }
  }

  lemma ExtendsOrderly(log: seq<Event>, source: Uuid)
    requires log != [] && LifeOf(log, source) != Broken
    requires OrderlyLife(log[..|log| - 1], source) && Summarises(log[..|log| - 1], source)
    ensures OrderlyLife(log, source)
  {
    forall j | 0 <= j < |log| && About(log[j], source) && !log[j].fact.Captured? ensures exists i :: Precedes(log, source, i, j) {
      NewFactFollows(log, source, j);
    }
    forall i, j | 0 <= i < j < |log| && About(log[i], source) && About(log[j], source) ensures Consistent(log[i], log[j]) {
      NewFactAgrees(log, source, i, j);
    }
    forall i, j | Precedes(log, source, i, j) && log[j].fact.Updated? && !log[i].fact.Removed?
      ensures log[i].fact.snapshot.digest != log[j].fact.snapshot.digest
    {
      NewFactChanges(log, source, i, j);
    }
  }

  /** Every source identity of every reachable state lives in order. */
  lemma SourcesLiveInOrder(w: World, source: Uuid)
    requires Reachable(w)
    ensures OrderlyLife(w.lane.outbox, source)
  {
    ReachableInv(w);
    assert LifeFits(w.lane.sources, LifeOf(w.lane.outbox, source), source);
    UnbrokenIsOrderly(w.lane.outbox, source);
  }

  /** The owner a step acts for, if it acts on captures at all. */
  function ActsFor(w: World, step: Step): Option<Uuid>
  {
    match step
    case Deliver(command, _, _) => command.tenant
    case HandleNext(worker, _, _) => if worker in w.workers && w.workers[worker] != [] then Some(w.workers[worker][0].owner) else None
    case _ => None
  }

  /** The log grows only by events of this owner, and the sources of every other owner stay as they are. */
  ghost predicate OnlyTouches(l: Lane, m: Lane, owner: Option<Uuid>)
  {
    && l.outbox <= m.outbox
    && (forall i | |l.outbox| <= i < |m.outbox| :: Some(m.outbox[i].owner) == owner)
    && (forall key: SourceKey | Some(key.owner) != owner ::
          (key in l.sources <==> key in m.sources) && (key in l.sources ==> m.sources[key] == l.sources[key]))
  }

  lemma PreserveOnlyTouches(l: Lane, claim: Claimed, post: PublicPost, now: Instant, minted: Uuid)
    ensures OnlyTouches(l, PreserveCapture(l, claim, post, now, minted), Some(claim.owner))
  {
  }

  lemma TerminateOnlyTouches(l: Lane, claim: Claimed, failure: Failure, now: Instant, removedAt: Instant)
    ensures OnlyTouches(l, TerminateCapture(l, claim, failure, now, removedAt), Some(claim.owner))
  {
  }

  /** No step of one owner touches another owner's sources or events. */
  lemma OwnersAreIsolated(w: World, step: Step)
    requires Enabled(w, step)
    ensures OnlyTouches(w.lane, Apply(w, step).lane, ActsFor(w, step))
  {
    if step.HandleNext? {
      var claim := w.workers[step.worker][0];
      match OutcomeFor(w.lane, claim, step.turn.answer, step.policy)
      case DidPreserve => PreserveOnlyTouches(w.lane, claim, step.turn.answer.post, step.turn.now, step.turn.minted);
      case DidTerminate(failure) => TerminateOnlyTouches(w.lane, claim, failure, step.turn.now, step.turn.removedAt);
      case DidDefer =>
    }
  }

  /** The events of one owner, in order. */
  function EventsOf(log: seq<Event>, owner: Uuid): seq<Event>
  {
    if log == [] then []
    else EventsOf(log[..|log| - 1], owner) + if log[|log| - 1].owner == owner then [log[|log| - 1]] else []
  }

  lemma {:induction false} ForeignEventsSkip(before: seq<Event>, after: seq<Event>, owner: Uuid)
    requires before <= after && forall i | |before| <= i < |after| :: after[i].owner != owner
    ensures EventsOf(after, owner) == EventsOf(before, owner)
    decreases |after|
  {
    if |before| < |after| {
      ForeignEventsSkip(before, after[..|after| - 1], owner);
    } else {
      assert before == after;
    }
  }

  /** No step of the run acts for the owner. */
  ghost predicate NeverActsFor(w: World, steps: seq<Step>, owner: Uuid)
    requires Legal(w, steps)
    decreases |steps|
  {
    steps == [] || (ActsFor(w, steps[0]) != Some(owner) && NeverActsFor(Apply(w, steps[0]), steps[1..], owner))
  }

  /** Whatever other owners do, for however long, an owner's sources and events stay exactly as they are. */
  lemma {:induction false} BystandersAreUntouched(w: World, steps: seq<Step>, key: SourceKey)
    requires Legal(w, steps) && NeverActsFor(w, steps, key.owner)
    ensures var v := Exec(w, steps);
            && EventsOf(v.lane.outbox, key.owner) == EventsOf(w.lane.outbox, key.owner)
            && (key in v.lane.sources <==> key in w.lane.sources)
            && (key in w.lane.sources ==> v.lane.sources[key] == w.lane.sources[key])
    decreases |steps|
  {
    if steps != [] {
      var next := Apply(w, steps[0]);
      OwnersAreIsolated(w, steps[0]);
      ForeignEventsSkip(w.lane.outbox, next.lane.outbox, key.owner);
      BystandersAreUntouched(next, steps[1..], key);
    }
  }

  // ---------------------------------------------------------------- closed captures

  /** A worker whose capture was already closed commits nothing, whatever it resolved. */
  lemma LosingWorkerLeavesNoTrace(w: World, worker: Uuid, turn: Turn, policy: Policy)
    requires Inv(w) && Enabled(w, HandleNext(worker, turn, policy))
    requires w.lane.captures[w.workers[worker][0].id].status != Accepted
    ensures Apply(w, HandleNext(worker, turn, policy)).lane == w.lane
  {
  }

  /** A closed capture never changes again, so its one terminal report is final. */
  lemma {:induction false} ClosedStaysClosed(w: World, steps: seq<Step>, id: Uuid)
    requires Inv(w) && Legal(w, steps) && id in w.lane.captures && w.lane.captures[id].status != Accepted
    ensures var v := Exec(w, steps); id in v.lane.captures && v.lane.captures[id] == w.lane.captures[id]
    decreases |steps|
  {
    if steps != [] {
      ClosedStepsKeep(w, steps[0], id);
      StepKeepsInv(w, steps[0]);
      ClosedStaysClosed(Apply(w, steps[0]), steps[1..], id);
    }
  }

  lemma ClosedStepsKeep(w: World, step: Step, id: Uuid)
    requires Inv(w) && Enabled(w, step) && id in w.lane.captures && w.lane.captures[id].status != Accepted
    ensures var v := Apply(w, step); id in v.lane.captures && v.lane.captures[id] == w.lane.captures[id]
  {
    if step.HandleNext? {
      var claim := w.workers[step.worker][0];
      if Open(w.lane, claim.id) {
        HandleShape(w.lane, claim, step.turn, step.policy);
      }
    }
  }
}
