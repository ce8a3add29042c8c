/** Safety of write-back over every interleaving: at most one contact per key and per consent, and the budget. */
module WritebackSafety {
  import opened Common
  import opened ArchiveTables
  import opened BudgetGate
  import opened Writeback
  import opened Snapshots
  import opened ArchiveProtocol

  // ---------------------------------------------------------------- claims

  predicate PhaseFits(phase: CallerPhase, mode: Mode, status: Status)
  {
    match phase
    case Claimed => status == Received
    case Judged(_, _) => status == Received
    case Holding(_, _) => status == Received && mode == Live
    case Refunding(_) => (status == Received || status == ProviderInFlight) && mode == Live
    case Ready(_) => status == ProviderInFlight && mode == Live
    case Called(_) => status == ProviderInFlight && mode == Live
  }

  predicate Describes(row: Operation, c: Caller)
  {
    && row.account == c.request.account && row.user == c.request.user && row.action == c.action
    && row.post == c.request.post && row.mode == c.mode && row.digest == Sha256(c.request.key)
    && PhaseFits(c.phase, c.mode, row.status)
  }

  /** One operation per (account, digest); a live caller owns its operation alone and knows its status. */
  ghost predicate ClaimsInv(p: Protocol)
  {
    && (forall a, b | a in p.writes.operations && b in p.writes.operations && a != b ::
          p.writes.operations[a].account != p.writes.operations[b].account || p.writes.operations[a].digest != p.writes.operations[b].digest)
    && (forall c | c in p.callers ::
          p.callers[c].operation in p.writes.operations && Describes(p.writes.operations[p.callers[c].operation], p.callers[c]))
    && (forall c, d | c in p.callers && d in p.callers && c != d :: p.callers[c].operation != p.callers[d].operation)
  }

  /** The identity columns of every operation row survive, and rows outside `touched` are unchanged. */
  ghost predicate RowsKept(before: map<Uuid, Operation>, after: map<Uuid, Operation>, touched: set<Uuid>)
  {
    && before.Keys == after.Keys
    && (forall o | o in before :: o !in touched ==> after[o] == before[o])
    && (forall o | o in before :: after[o].(status := before[o].status, outcome := before[o].outcome, observedAt := before[o].observedAt) == before[o])
  }

  lemma TransitionKeepsRows(w: WriteTables, id: Uuid, from: Status, to: Status, outcome: Option<Outcome>, observedAt: Option<Instant>)
    ensures RowsKept(w.operations, Transition(w, id, from, to, outcome, observedAt).operations, {id})
  {
  }

  lemma SettlementKeepsRows(w: WriteTables, account: Uuid, items: StagedItems, at: Instant)
    ensures RowsKept(w.operations, SettleUncertain(w, account, items, at).operations, UncertainOf(w, account))
    ensures forall o | o in UncertainOf(w, account) ::
              SettleUncertain(w, account, items, at).operations[o].status in {ReconciledSucceeded, ReconciledNotCurrent}
  {
  }

  /** Dropping a caller, with at most its own row changed. */
  lemma ClaimsDrop(p: Protocol, q: Protocol, c: Uuid)
    requires ClaimsInv(p) && c in p.callers && q.callers == p.callers - {c}
    requires RowsKept(p.writes.operations, q.writes.operations, {p.callers[c].operation})
    ensures ClaimsInv(q)
  {
  }

  /** Advancing a caller's phase, with at most its own row changed to match. */
  lemma ClaimsAdvance(p: Protocol, q: Protocol, c: Uuid, phase: CallerPhase)
    requires ClaimsInv(p) && c in p.callers && q.callers == p.callers[c := p.callers[c].(phase := phase)]
    requires RowsKept(p.writes.operations, q.writes.operations, {p.callers[c].operation})
    requires PhaseFits(phase, p.callers[c].mode, q.writes.operations[p.callers[c].operation].status)
    ensures ClaimsInv(q)
  {
  }

  /** Changes outside the write-back tables, or to rows no caller owns. */
  lemma ClaimsElsewhere(p: Protocol, q: Protocol, touched: set<Uuid>)
    requires ClaimsInv(p) && q.callers == p.callers && RowsKept(p.writes.operations, q.writes.operations, touched)
    requires forall o | o in touched && o in p.writes.operations :: p.writes.operations[o].status == Uncertain
    ensures ClaimsInv(q)
  {
    forall c | c in q.callers
      ensures q.callers[c].operation in q.writes.operations && Describes(q.writes.operations[q.callers[c].operation], q.callers[c])
    {
      assert p.callers[c].operation !in touched;
    }
  }

  lemma ClaimsNew(p: Protocol, step: WriteStep)
    requires ClaimsInv(p) && step.Claim? && step.operation !in p.writes.operations
    ensures ClaimsInv(ApplyClaim(p, step.caller, step.operation, step.request, step.action, step.mode))
  {
    var q := ApplyClaim(p, step.caller, step.operation, step.request, step.action, step.mode);
    if !KeyTaken(p.writes, step.request.account, Sha256(step.request.key)) {
      assert q.writes.operations.Keys == p.writes.operations.Keys + {step.operation};
      assert Describes(q.writes.operations[step.operation], q.callers[step.caller]);
    }
  }

  lemma ConsumeKeepsClaims(p: Protocol, caller: Uuid, fault: CommitFault)
    requires ClaimsInv(p) && caller in p.callers && p.callers[caller].phase.Holding?
    ensures ClaimsInv(ApplyConsume(p, caller, fault))
  {
    var q := ApplyConsume(p, caller, fault);
    var c := p.callers[caller];
    assert Describes(p.writes.operations[c.operation], c);
    if ConsentUsable(p.writes, c.request, c.action, c.phase.now) {
      ConsumeShape(p.writes, c.operation, c.request, c.action, c.phase.now);
    }
    ClaimsAdvance(p, q, caller, q.callers[caller].phase);
  }

  lemma ReserveKeepsClaims(cfg: Config, p: Protocol, caller: Uuid, at: Instant)
    requires ValidSetup(cfg) && WriteEnabled(cfg, p, Reserve(caller, at)) && ClaimsInv(p)
    ensures ClaimsInv(ApplyReserve(cfg, p, caller, at))
  {
    var q := ApplyReserve(cfg, p, caller, at);
    if caller in q.callers {
      ClaimsAdvance(p, q, caller, q.callers[caller].phase);
    } else {
      ClaimsDrop(p, q, caller);
    }
  }

  /** Steps that end a call. */
  predicate Ends(step: WriteStep)
  {
    step.FinishSatisfied? || step.FinishRefused? || step.RecordPrediction? || step.GiveBack? || step.Settle? || step.LoseCaller?
  }

  /** What any ending does: the caller leaves, and at most its own row and its own refund change. */
  ghost predicate EndsCall(p: Protocol, q: Protocol, caller: Uuid)
    requires caller in p.callers
  {
    && q.callers == p.callers - {caller}
    && RowsKept(p.writes.operations, q.writes.operations, {p.callers[caller].operation})
    && q.writes.consents == p.writes.consents
    && q.history == p.history.(refunded := q.history.refunded)
  }

  lemma VerdictShape(cfg: Config, p: Protocol, step: WriteStep)
    requires ValidSetup(cfg) && WriteEnabled(cfg, p, step) && (step.FinishSatisfied? || step.FinishRefused? || step.RecordPrediction?)
    ensures var q := ApplyWrite(cfg, p, step);
            EndsCall(p, q, step.caller) && q.history == p.history && q.writes.windows == p.writes.windows
  {
    var c := p.callers[step.caller];
    match step
    case FinishSatisfied(_) =>
      TransitionKeepsRows(p.writes, c.operation, Received, Succeeded, Some(AlreadySatisfied), VerdictObservation(c.phase.verdict));
    case FinishRefused(_) =>
      TransitionKeepsRows(p.writes, c.operation, Received, Refused, Some(RefusedFor(c.phase.verdict.refusal)), None);
    case RecordPrediction(_) =>
      TransitionKeepsRows(p.writes, c.operation, Received, DryRunRecorded,
                          Some(Predicted(PredictionOf(c.phase.verdict))), VerdictObservation(c.phase.verdict));
  }

  lemma SettleShape(p: Protocol, caller: Uuid, answer: ProviderAnswer, at: Instant)
    requires caller in p.callers && p.callers[caller].phase.Called?
    ensures var q := ApplySettle(p, caller, answer, at);
            EndsCall(p, q, caller) && q.history == p.history && q.writes.windows == p.writes.windows
  {
  }

  /** A call ends by leaving, at most one guarded transition of its own row, and no new history but a refund. */
  lemma EndingShape(cfg: Config, p: Protocol, step: WriteStep)
    requires ValidSetup(cfg) && WriteEnabled(cfg, p, step) && Ends(step)
    ensures var q := ApplyWrite(cfg, p, step);
            && EndsCall(p, q, step.caller)
            && (!step.GiveBack? ==> q.history == p.history && q.writes.windows == p.writes.windows)
  {
    if step.Settle? {
      SettleShape(p, step.caller, step.answer, step.at);
    } else if !step.GiveBack? && !step.LoseCaller? {
      VerdictShape(cfg, p, step);
    }
  }

  lemma EndingKeepsClaims(cfg: Config, p: Protocol, step: WriteStep)
    requires ValidSetup(cfg) && WriteEnabled(cfg, p, step) && ClaimsInv(p) && Ends(step)
    ensures ClaimsInv(ApplyWrite(cfg, p, step))
  {
    EndingShape(cfg, p, step);
    ClaimsDrop(p, ApplyWrite(cfg, p, step), step.caller);
  }

  lemma CallKeepsClaims(p: Protocol, caller: Uuid)
    requires ClaimsInv(p) && caller in p.callers && p.callers[caller].phase.Ready?
    ensures ClaimsInv(ApplyCall(p, caller))
  {
    assert Describes(p.writes.operations[p.callers[caller].operation], p.callers[caller]);
    ClaimsAdvance(p, ApplyCall(p, caller), caller, Called(p.callers[caller].phase.window));
  }

  lemma JudgeKeepsClaims(p: Protocol, caller: Uuid, verdict: Verdict, now: Instant)
    requires ClaimsInv(p) && caller in p.callers && p.callers[caller].phase.Claimed?
    ensures ClaimsInv(SetPhase(p, caller, Judged(verdict, now)))
  {
    assert Describes(p.writes.operations[p.callers[caller].operation], p.callers[caller]);
    ClaimsAdvance(p, SetPhase(p, caller, Judged(verdict, now)), caller, Judged(verdict, now));
  }

  lemma WriteKeepsClaims(cfg: Config, p: Protocol, step: WriteStep)
    requires ValidSetup(cfg) && WriteEnabled(cfg, p, step) && ClaimsInv(p)
    ensures ClaimsInv(ApplyWrite(cfg, p, step))
  {
    if Ends(step) {
      EndingKeepsClaims(cfg, p, step);
    } else {
      match step
      case RecordConsent(_, _) => ClaimsElsewhere(p, ApplyWrite(cfg, p, step), {});
      case ChangeGrants(_) => ClaimsElsewhere(p, ApplyWrite(cfg, p, step), {});
      case Claim(_, _, _, _, _) => ClaimsNew(p, step);
      case Judge(c, verdict, now) => JudgeKeepsClaims(p, c, verdict, now);
      case Reserve(c, at) => ReserveKeepsClaims(cfg, p, c, at);
      case Consume(c, fault) => ConsumeKeepsClaims(p, c, fault);
      case CallProvider(c) => CallKeepsClaims(p, c);
    }
  }

  function SettledBy(p: Protocol, runner: Uuid): set<Uuid>
    requires runner in p.runners
  {
    var handle := p.runners[runner].handle;
    if Finalizable(p.sync, handle) then UncertainOf(p.writes, handle.account) else {}
  }

  /** On the write-back side a finish settles the account's uncertain rows and does nothing else. */
  lemma FinishShape(p: Protocol, runner: Uuid, at: Instant)
    requires runner in p.runners
    ensures var q := ApplyFinish(p, runner, at);
            && q.callers == p.callers && q.history == p.history
            && q.writes.consents == p.writes.consents && q.writes.windows == p.writes.windows
            && RowsKept(p.writes.operations, q.writes.operations, SettledBy(p, runner))
            && (forall o | o in SettledBy(p, runner) :: o in p.writes.operations && p.writes.operations[o].status == Uncertain
                  && q.writes.operations[o].status in {ReconciledSucceeded, ReconciledNotCurrent})
  {
    var handle := p.runners[runner].handle;
    if Finalizable(p.sync, handle) {
      SettlementKeepsRows(p.writes, handle.account, StagedOf(p.sync, handle.snapshot), at);
    }
  }

  /** Snapshot and scan steps other than a completion leave the whole write-back side alone. */
  lemma OthersLeaveWrites(cfg: Config, p: Protocol, step: Step)
    requires ValidSetup(cfg) && Enabled(cfg, p, step) && !step.Write? && !(step.Snap? && step.s.Finish?)
    ensures var q := Apply(cfg, p, step);
            && q.writes == p.writes && q.callers == p.callers
            && q.history.(pages := p.history.pages) == p.history
  {
  }

  lemma StepKeepsClaims(cfg: Config, p: Protocol, step: Step)
    requires ValidSetup(cfg) && Enabled(cfg, p, step) && ClaimsInv(p)
    ensures ClaimsInv(Apply(cfg, p, step))
  {
    if step.Write? {
      WriteKeepsClaims(cfg, p, step.w);
    } else if step.Snap? && step.s.Finish? {
      FinishShape(p, step.s.runner, step.s.at);
      ClaimsElsewhere(p, ApplyFinish(p, step.s.runner, step.s.at), SettledBy(p, step.s.runner));
    } else {
      OthersLeaveWrites(cfg, p, step);
    }
  }

  // ---------------------------------------------------------------- contacts

  /** A contact is justified: its consent matched, was unexpired when stamped, and was stamped for this operation. */
  ghost predicate Justified(p: Protocol, contact: Contact)
  {
    && contact.operation in p.writes.operations && contact.consent in p.writes.consents
    && contact.consent in p.history.consumers && p.history.consumers[contact.consent] == contact.operation
    && var row := p.writes.operations[contact.operation];
       var consent := p.writes.consents[contact.consent];
       && row.account == contact.account && row.digest == contact.digest && row.mode == Live
       && row.status != Received && row.status != Refused && row.status != DryRunRecorded
       && consent.user == row.user && consent.account == row.account && consent.action == row.action && consent.post == row.post
       && consent.consumedAt.Some? && consent.consumedAt.value < consent.expiresAt
  }

  /** A caller past its consent transaction holds the consent it stamped. */
  ghost predicate HoldsConsent(p: Protocol, c: Caller)
  {
    && c.request.consent in p.writes.consents
    && c.request.consent in p.history.consumers && p.history.consumers[c.request.consent] == c.operation
    && var consent := p.writes.consents[c.request.consent];
       && consent.user == c.request.user && consent.account == c.request.account
       && consent.action == c.action && consent.post == c.request.post
       && consent.consumedAt.Some? && consent.consumedAt.value < consent.expiresAt
  }

  ghost predicate ContactsInv(p: Protocol)
  {
    && (forall x | x in p.history.consumers :: x in p.writes.consents && p.writes.consents[x].consumedAt.Some?)
    && (forall i | 0 <= i < |p.history.contacts| :: Justified(p, p.history.contacts[i]))
    && (forall i, j | 0 <= i < j < |p.history.contacts| :: p.history.contacts[i].operation != p.history.contacts[j].operation)
    && (forall c | c in p.callers && (p.callers[c].phase.Ready? || p.callers[c].phase.Called?) :: HoldsConsent(p, p.callers[c]))
    && (forall c, i | c in p.callers && p.callers[c].phase.Ready? && 0 <= i < |p.history.contacts| ::
          p.history.contacts[i].operation != p.callers[c].operation)
    && (forall c, i | c in p.callers && p.callers[c].phase.Refunding? && 0 <= i < |p.history.contacts| ::
          p.history.contacts[i].operation != p.callers[c].operation)
  }

  /** Identity columns of contacted rows kept, and no contacted row back before the contact. */
  ghost predicate ContactedRowsKept(p: Protocol, q: Protocol)
  {
    forall i | 0 <= i < |p.history.contacts| ::
      var o := p.history.contacts[i].operation;
      && o in p.writes.operations && o in q.writes.operations
      && q.writes.operations[o].(status := p.writes.operations[o].status, outcome := p.writes.operations[o].outcome,
                                 observedAt := p.writes.operations[o].observedAt) == p.writes.operations[o]
      && q.writes.operations[o].status != Received && q.writes.operations[o].status != Refused
      && q.writes.operations[o].status != DryRunRecorded
  }

  /** A step that neither stamps a consent nor calls the provider. */
  lemma ContactsQuiet(p: Protocol, q: Protocol)
    requires ContactsInv(p)
    requires q.history.contacts == p.history.contacts && q.history.consumers == p.history.consumers
    requires forall x | x in p.writes.consents :: x in q.writes.consents && q.writes.consents[x] == p.writes.consents[x]
    requires ContactedRowsKept(p, q)
    requires forall c | c in q.callers && (q.callers[c].phase.Ready? || q.callers[c].phase.Called? || q.callers[c].phase.Refunding?) ::
               c in p.callers && p.callers[c] == q.callers[c]
    ensures ContactsInv(q)
  {
    forall i | 0 <= i < |q.history.contacts| ensures Justified(q, q.history.contacts[i]) {
      assert Justified(p, p.history.contacts[i]);
    }
    forall c | c in q.callers && (q.callers[c].phase.Ready? || q.callers[c].phase.Called?) ensures HoldsConsent(q, q.callers[c]) {
      assert HoldsConsent(p, p.callers[c]);
    }
  }

  /** The quiet case, from what happened to the rows. */
  lemma ContactsAfterRows(p: Protocol, q: Protocol, touched: set<Uuid>)
    requires ContactsInv(p)
    requires q.history.contacts == p.history.contacts && q.history.consumers == p.history.consumers
    requires q.writes.consents == p.writes.consents
    requires RowsKept(p.writes.operations, q.writes.operations, touched)
    requires forall o | o in touched && o in p.writes.operations ::
               || (forall i | 0 <= i < |p.history.contacts| :: p.history.contacts[i].operation != o)
               || q.writes.operations[o].status !in {Received, Refused, DryRunRecorded}
    requires forall c | c in q.callers :: c in p.callers && p.callers[c] == q.callers[c]
    ensures ContactsInv(q)
  {
    forall i | 0 <= i < |p.history.contacts| ensures Justified(p, p.history.contacts[i]) {}
    assert ContactedRowsKept(p, q);
    ContactsQuiet(p, q);
  }

  /** An operation that was never set in flight has never been contacted about. */
  lemma UncontactedBefore(p: Protocol, o: Uuid)
    requires ContactsInv(p) && o in p.writes.operations && p.writes.operations[o].status == Received
    ensures forall i | 0 <= i < |p.history.contacts| :: p.history.contacts[i].operation != o
  {
    forall i | 0 <= i < |p.history.contacts| ensures p.history.contacts[i].operation != o {
      assert Justified(p, p.history.contacts[i]);
    }
  }

  /** An operation that is in flight when its call ends is left in flight or settled, never moved back. */
  lemma EndingMovesOn(cfg: Config, p: Protocol, step: WriteStep)
    requires ValidSetup(cfg) && WriteEnabled(cfg, p, step) && Ends(step)
    requires p.callers[step.caller].operation in p.writes.operations
    requires p.writes.operations[p.callers[step.caller].operation].status == ProviderInFlight
    ensures var o := p.callers[step.caller].operation;
            o in ApplyWrite(cfg, p, step).writes.operations &&
            ApplyWrite(cfg, p, step).writes.operations[o].status in {ProviderInFlight, Succeeded, ProjectionPending, Uncertain, Failed}
  {
  }

  /** However a call ends, a contacted row stays contacted. */
  lemma EndsKeepsContacts(p: Protocol, q: Protocol, caller: Uuid)
    requires ContactsInv(p) && caller in p.callers && EndsCall(p, q, caller)
    requires p.callers[caller].operation in p.writes.operations
    requires || p.writes.operations[p.callers[caller].operation].status == Received
             || q.writes.operations[p.callers[caller].operation].status !in {Received, Refused, DryRunRecorded}
    ensures ContactsInv(q)
  {
    var o := p.callers[caller].operation;
    if p.writes.operations[o].status == Received {
      UncontactedBefore(p, o);
    }
    ContactsAfterRows(p, q, {o});
  }

  lemma EndingKeepsContacts(cfg: Config, p: Protocol, step: WriteStep)
    requires ValidSetup(cfg) && WriteEnabled(cfg, p, step) && Ends(step) && ClaimsInv(p) && ContactsInv(p)
    ensures ContactsInv(ApplyWrite(cfg, p, step))
  {
    EndingShape(cfg, p, step);
    OwnedIsNotUncertain(p, step.caller);
    if p.writes.operations[p.callers[step.caller].operation].status == ProviderInFlight {
      EndingMovesOn(cfg, p, step);
    }
    EndsKeepsContacts(p, ApplyWrite(cfg, p, step), step.caller);
  }

  lemma ConsumeShape(w: WriteTables, id: Uuid, request: Request, action: Action, now: Instant)
    requires ConsentUsable(w, request, action, now) && id in w.operations && w.operations[id].status == Received
    ensures var x := ConsumeConsent(w, id, request, action, now);
            && x.consents == w.consents[request.consent := w.consents[request.consent].(consumedAt := Some(now))]
            && RowsKept(w.operations, x.operations, {id}) && x.operations[id].status == ProviderInFlight
            && x.windows == w.windows
  {
  }

  lemma ConsumeKeepsContacts(p: Protocol, caller: Uuid, fault: CommitFault)
    requires ClaimsInv(p) && ContactsInv(p) && caller in p.callers && p.callers[caller].phase.Holding?
    ensures ContactsInv(ApplyConsume(p, caller, fault))
  {
    var q := ApplyConsume(p, caller, fault);
    var c := p.callers[caller];
    assert Describes(p.writes.operations[c.operation], c);
    UncontactedBefore(p, c.operation);
    if fault == FaultBeforeCommit || !ConsentUsable(p.writes, c.request, c.action, c.phase.now) {
      forall i | 0 <= i < |q.history.contacts| ensures Justified(q, q.history.contacts[i]) {
        assert Justified(p, p.history.contacts[i]);
      }
      forall d | d in q.callers && (q.callers[d].phase.Ready? || q.callers[d].phase.Called?) ensures HoldsConsent(q, q.callers[d]) {
        assert HoldsConsent(p, p.callers[d]);
      }
    } else {
      ConsumeShape(p.writes, c.operation, c.request, c.action, c.phase.now);
      StampKeepsContacts(p, q, caller);
    }
  }

  lemma StampKeepsContacts(p: Protocol, q: Protocol, caller: Uuid)
    requires ContactsInv(p) && caller in p.callers && p.callers[caller].phase.Holding? && caller in q.callers
    requires var c := p.callers[caller];
             && c.operation in p.writes.operations && p.writes.operations[c.operation].status == Received
             && ConsentUsable(p.writes, c.request, c.action, c.phase.now)
             && q.callers == p.callers[caller := c.(phase := q.callers[caller].phase)]
             && q.writes.consents == p.writes.consents[c.request.consent := p.writes.consents[c.request.consent].(consumedAt := Some(c.phase.now))]
             && RowsKept(p.writes.operations, q.writes.operations, {c.operation})
             && q.history == p.history.(consumers := p.history.consumers[c.request.consent := c.operation])
    requires forall i | 0 <= i < |p.history.contacts| :: p.history.contacts[i].operation != p.callers[caller].operation
    ensures ContactsInv(q)
  {
    forall i | 0 <= i < |q.history.contacts| ensures Justified(q, q.history.contacts[i]) {
      assert Justified(p, p.history.contacts[i]);
    }
    forall d | d in q.callers && (q.callers[d].phase.Ready? || q.callers[d].phase.Called?) ensures HoldsConsent(q, q.callers[d]) {
      if d != caller {
        assert HoldsConsent(p, p.callers[d]);
      }
    }
  }

  lemma CallKeepsContacts(p: Protocol, caller: Uuid)
    requires ClaimsInv(p) && ContactsInv(p) && caller in p.callers && p.callers[caller].phase.Ready?
    ensures ContactsInv(ApplyCall(p, caller))
  {
    var q := ApplyCall(p, caller);
    var c := p.callers[caller];
    assert Describes(p.writes.operations[c.operation], c);
    assert HoldsConsent(p, c);
    forall i | 0 <= i < |q.history.contacts| ensures Justified(q, q.history.contacts[i]) {
      if i < |p.history.contacts| {
        assert Justified(p, p.history.contacts[i]);
      }
    }
    forall d | d in q.callers && (q.callers[d].phase.Ready? || q.callers[d].phase.Called?) ensures HoldsConsent(q, q.callers[d]) {
      assert HoldsConsent(p, p.callers[d]);
    }
  }

  lemma ReserveKeepsContacts(cfg: Config, p: Protocol, caller: Uuid, at: Instant)
    requires ValidSetup(cfg) && WriteEnabled(cfg, p, Reserve(caller, at)) && ContactsInv(p)
    ensures ContactsInv(ApplyReserve(cfg, p, caller, at))
  {
    var q := ApplyReserve(cfg, p, caller, at);
    forall i | 0 <= i < |p.history.contacts| ensures Justified(p, p.history.contacts[i]) {}
    ContactsQuiet(p, q);
  }

  lemma WriteKeepsContacts(cfg: Config, p: Protocol, step: WriteStep)
    requires ValidSetup(cfg) && WriteEnabled(cfg, p, step) && ClaimsInv(p) && ContactsInv(p)
    ensures ContactsInv(ApplyWrite(cfg, p, step))
  {
    var q := ApplyWrite(cfg, p, step);
    if Ends(step) {
      EndingKeepsContacts(cfg, p, step);
    } else if step.Consume? {
      ConsumeKeepsContacts(p, step.caller, step.fault);
    } else if step.CallProvider? {
      CallKeepsContacts(p, step.caller);
    } else if step.Reserve? {
      ReserveKeepsContacts(cfg, p, step.caller, step.at);
    } else {
      forall i | 0 <= i < |p.history.contacts| ensures Justified(p, p.history.contacts[i]) {}
      assert ContactedRowsKept(p, q);
      ContactsQuiet(p, q);
    }
  }

  lemma StepKeepsContacts(cfg: Config, p: Protocol, step: Step)
    requires ValidSetup(cfg) && Enabled(cfg, p, step) && ClaimsInv(p) && ContactsInv(p)
    ensures ContactsInv(Apply(cfg, p, step))
  {
    if step.Write? {
      WriteKeepsContacts(cfg, p, step.w);
    } else if step.Snap? && step.s.Finish? {
      FinishShape(p, step.s.runner, step.s.at);
      ContactsAfterRows(p, ApplyFinish(p, step.s.runner, step.s.at), SettledBy(p, step.s.runner));
    } else {
      OthersLeaveWrites(cfg, p, step);
      forall i | 0 <= i < |p.history.contacts| ensures Justified(p, p.history.contacts[i]) {}
      ContactsQuiet(p, Apply(cfg, p, step));
    }
  }

  // ---------------------------------------------------------------- over runs

  lemma {:induction false} RunKeepsWriteback(cfg: Config, p: Protocol, steps: seq<Step>)
    requires ValidSetup(cfg) && Legal(cfg, p, steps) && ClaimsInv(p) && ContactsInv(p)
    ensures ClaimsInv(Exec(cfg, p, steps)) && ContactsInv(Exec(cfg, p, steps))
    decreases |steps|
  {
    if steps != [] {
      StepKeepsClaims(cfg, p, steps[0]);
      StepKeepsContacts(cfg, p, steps[0]);
      RunKeepsWriteback(cfg, Apply(cfg, p, steps[0]), steps[1..]);
    }
  }

  /**
   Under every interleaving of live calls, retries and losses the provider is contacted at most once per
   (account, idempotency digest) and at most once per consent, and every contact was covered by a matching
   consent that was unexpired when it was stamped for that very operation.
   */
  lemma AtMostOneContact(cfg: Config, p: Protocol, steps: seq<Step>)
    requires ValidSetup(cfg) && Initial(p) && Legal(cfg, p, steps)
    ensures var contacts := Exec(cfg, p, steps).history.contacts;
            && (forall i, j | 0 <= i < j < |contacts| ::
                  && (contacts[i].account != contacts[j].account || contacts[i].digest != contacts[j].digest)
                  && contacts[i].consent != contacts[j].consent)
            && (forall i | 0 <= i < |contacts| :: Justified(Exec(cfg, p, steps), contacts[i]))
  {
    RunKeepsWriteback(cfg, p, steps);
    var q := Exec(cfg, p, steps);
    var contacts := q.history.contacts;
    forall i, j | 0 <= i < j < |contacts|
      ensures contacts[i].account != contacts[j].account || contacts[i].digest != contacts[j].digest
      ensures contacts[i].consent != contacts[j].consent
    {
      assert Justified(q, contacts[i]) && Justified(q, contacts[j]);
      assert contacts[i].operation != contacts[j].operation;
    }
  }

  /** The step that makes a caller ready is its own committed consent transaction. */
  ghost predicate StampedBy(before: Protocol, step: Step, after: Protocol, c: Uuid, caller: Caller)
  {
    && step == Write(Consume(c, NoFault))
    && c in before.callers && before.callers[c].phase.Holding?
    && before.callers[c].(phase := caller.phase) == caller
    && ConsentUsable(before.writes, caller.request, caller.action, before.callers[c].phase.now)
    && caller.operation in before.writes.operations && before.writes.operations[caller.operation].status == Received
    && caller.operation in after.writes.operations && after.writes.operations[caller.operation].status == ProviderInFlight
    && caller.request.consent in after.writes.consents
    && after.writes.consents[caller.request.consent].consumedAt == Some(before.callers[c].phase.now)
  }

  lemma ConsumeMakesReady(p: Protocol, c: Uuid, fault: CommitFault)
    requires ClaimsInv(p) && c in p.callers && p.callers[c].phase.Holding?
    requires ApplyConsume(p, c, fault).callers[c].phase.Ready?
    ensures StampedBy(p, Write(Consume(c, fault)), ApplyConsume(p, c, fault), c, ApplyConsume(p, c, fault).callers[c])
  {
    var x := p.callers[c];
    assert Describes(p.writes.operations[x.operation], x);
    ConsumeShape(p.writes, x.operation, x.request, x.action, x.phase.now);
  }

  /** Write steps that neither end a call nor stamp a consent make nobody ready. */
  lemma OthersMakeNobodyReady(cfg: Config, p: Protocol, step: WriteStep, c: Uuid)
    requires ValidSetup(cfg) && WriteEnabled(cfg, p, step) && !Ends(step) && !(step.Consume? && step.caller == c)
    requires c in ApplyWrite(cfg, p, step).callers && ApplyWrite(cfg, p, step).callers[c].phase.Ready?
    ensures c in p.callers && p.callers[c] == ApplyWrite(cfg, p, step).callers[c]
  {
  }

  lemma BecomesReady(cfg: Config, p: Protocol, step: Step, c: Uuid)
    requires ValidSetup(cfg) && Enabled(cfg, p, step) && ClaimsInv(p)
    requires c in Apply(cfg, p, step).callers && Apply(cfg, p, step).callers[c].phase.Ready?
    ensures || (c in p.callers && p.callers[c] == Apply(cfg, p, step).callers[c])
            || StampedBy(p, step, Apply(cfg, p, step), c, Apply(cfg, p, step).callers[c])
  {
    if step.Snap? && step.s.Finish? {
      FinishShape(p, step.s.runner, step.s.at);
    } else if !step.Write? {
      OthersLeaveWrites(cfg, p, step);
    } else if Ends(step.w) {
      EndingShape(cfg, p, step.w);
    } else if step.w.Consume? && step.w.caller == c {
      ConsumeMakesReady(p, c, step.w.fault);
    } else {
      OthersMakeNobodyReady(cfg, p, step.w, c);
    }
  }

  lemma LastStep(cfg: Config, p: Protocol, steps: seq<Step>) returns (before: Protocol)
    requires ValidSetup(cfg) && Legal(cfg, p, steps) && steps != []
    ensures var n := |steps| - 1;
            && Legal(cfg, p, steps[..n]) && before == Exec(cfg, p, steps[..n]) && steps[..n + 1] == steps
            && Enabled(cfg, before, steps[n]) && Apply(cfg, before, steps[n]) == Exec(cfg, p, steps)
  {
    var n := |steps| - 1;
    LegalSplits(cfg, p, steps, n);
    before := Exec(cfg, p, steps[..n]);
    assert steps[n..] == [steps[n]] && [steps[n]][1..] == [];
  }

  /** Step `j` of the run stamped the consent for this caller. */
  ghost predicate StampedAt(cfg: Config, p: Protocol, steps: seq<Step>, j: nat, c: Uuid, caller: Caller)
    requires ValidSetup(cfg)
  {
    && j < |steps| && Legal(cfg, p, steps[..j]) && Legal(cfg, p, steps[..j + 1])
    && StampedBy(Exec(cfg, p, steps[..j]), steps[j], Exec(cfg, p, steps[..j + 1]), c, caller)
  }

  lemma StampedAtExtends(cfg: Config, p: Protocol, steps: seq<Step>, n: nat, j: nat, c: Uuid, caller: Caller)
    requires ValidSetup(cfg) && n <= |steps| && StampedAt(cfg, p, steps[..n], j, c, caller)
    ensures StampedAt(cfg, p, steps, j, c, caller)
  {
    assert steps[..n][..j] == steps[..j] && steps[..n][..j + 1] == steps[..j + 1];
  }

  /** Whoever is ready after the last step was ready before it, or the last step stamped its consent. */
  lemma ReadyAtEnd(cfg: Config, p: Protocol, steps: seq<Step>, c: Uuid)
    requires ValidSetup(cfg) && Legal(cfg, p, steps) && steps != [] && ClaimsInv(p) && ContactsInv(p)
    requires c in Exec(cfg, p, steps).callers && Exec(cfg, p, steps).callers[c].phase.Ready?
    ensures var n := |steps| - 1;
            && Legal(cfg, p, steps[..n])
            && (|| StampedAt(cfg, p, steps, n, c, Exec(cfg, p, steps).callers[c])
                || (c in Exec(cfg, p, steps[..n]).callers && Exec(cfg, p, steps[..n]).callers[c] == Exec(cfg, p, steps).callers[c]))
  {
    var n := |steps| - 1;
    var before := LastStep(cfg, p, steps);
    RunKeepsWriteback(cfg, p, steps[..n]);
    BecomesReady(cfg, before, steps[n], c);
  }

  lemma {:induction false} ReadyWasStamped(cfg: Config, p: Protocol, steps: seq<Step>, c: Uuid) returns (j: nat)
    requires ValidSetup(cfg) && Legal(cfg, p, steps) && ClaimsInv(p) && ContactsInv(p)
    requires c !in p.callers || !p.callers[c].phase.Ready?
    requires c in Exec(cfg, p, steps).callers && Exec(cfg, p, steps).callers[c].phase.Ready?
    ensures StampedAt(cfg, p, steps, j, c, Exec(cfg, p, steps).callers[c])
    decreases |steps|
  {
    ReadyAtEnd(cfg, p, steps, c);
    j := |steps| - 1;
    if !StampedAt(cfg, p, steps, j, c, Exec(cfg, p, steps).callers[c]) {
      var n := j;
      j := ReadyWasStamped(cfg, p, steps[..n], c);
      StampedAtExtends(cfg, p, steps, n, j, c, Exec(cfg, p, steps).callers[c]);
    }
  }

  /**
   Every provider call in every run is preceded by a committed step of the same caller that found the matching
   consent unconsumed and unexpired, stamped it, and moved the operation from `received` to in flight.
   */
  lemma ContactFollowsConsent(cfg: Config, p: Protocol, steps: seq<Step>, i: nat) returns (j: nat)
    requires ValidSetup(cfg) && Initial(p) && Legal(cfg, p, steps)
    requires i < |steps| && steps[i].Write? && steps[i].w.CallProvider?
    ensures j < i && Legal(cfg, p, steps[..i]) && steps[i].w.caller in Exec(cfg, p, steps[..i]).callers
    ensures StampedAt(cfg, p, steps, j, steps[i].w.caller, Exec(cfg, p, steps[..i]).callers[steps[i].w.caller])
  {
    LegalSplits(cfg, p, steps, i);
    assert steps[i..][0] == steps[i];
    j := ReadyWasStamped(cfg, p, steps[..i], steps[i].w.caller);
    StampedAtExtends(cfg, p, steps, i, j, steps[i].w.caller, Exec(cfg, p, steps[..i]).callers[steps[i].w.caller]);
  }

  // ---------------------------------------------------------------- statuses only move forward

  /** The transitions the code makes in one statement. */
  predicate Edge(from: Status, to: Status)
  {
    || from == to
    || (from == Received && to in {Refused, DryRunRecorded, ProviderInFlight, Succeeded})
    || (from == ProviderInFlight && to in {Succeeded, Failed, Uncertain, ProjectionPending})
    || (from == Uncertain && to in {ReconciledSucceeded, ReconciledNotCurrent})
  }

  /** What a status can become in any number of steps. */
  predicate LeadsTo(from: Status, to: Status)
  {
    || from == to
    || from == Received
    || (from == ProviderInFlight && to !in {Received, Refused, DryRunRecorded})
    || (from == Uncertain && to in {ReconciledSucceeded, ReconciledNotCurrent})
  }

  /** `LeadsTo` is exactly the paths of edges; three edges are always enough. */
  lemma LeadsToIsPaths(from: Status, to: Status)
    ensures LeadsTo(from, to) <==> exists x, y :: Edge(from, x) && Edge(x, y) && Edge(y, to)
    ensures forall next | Edge(from, next) && LeadsTo(next, to) :: LeadsTo(from, to)
  {
    if LeadsTo(from, to) {
      if Edge(from, to) {
        assert Edge(from, from) && Edge(from, to) && Edge(to, to);
      } else if to in {ReconciledSucceeded, ReconciledNotCurrent} {
        assert Edge(from, ProviderInFlight) && Edge(ProviderInFlight, Uncertain) && Edge(Uncertain, to);
      } else {
        assert Edge(from, ProviderInFlight) && Edge(ProviderInFlight, to) && Edge(to, to);
      }
    }
  }

  /** Every step keeps every operation, its identity columns, and moves its status along an edge only. */
  ghost predicate MovesForward(before: map<Uuid, Operation>, after: map<Uuid, Operation>)
  {
    forall o | o in before ::
      && o in after
      && after[o].(status := before[o].status, outcome := before[o].outcome, observedAt := before[o].observedAt) == before[o]
      && Edge(before[o].status, after[o].status)
  }

  lemma TransitionMovesForward(w: WriteTables, id: Uuid, from: Status, to: Status, outcome: Option<Outcome>, observedAt: Option<Instant>)
    requires Edge(from, to)
    ensures MovesForward(w.operations, Transition(w, id, from, to, outcome, observedAt).operations)
  {
    var after := Transition(w, id, from, to, outcome, observedAt).operations;
    TransitionKeepsRows(w, id, from, to, outcome, observedAt);
    forall o | o in w.operations ensures Edge(w.operations[o].status, after[o].status) {
      if o == id && w.operations[id].status == from {
        assert after[id].status == to;
      } else {
        assert after[o] == w.operations[o];
      }
    }
  }

  lemma EndingMovesForward(cfg: Config, p: Protocol, step: WriteStep)
    requires ValidSetup(cfg) && WriteEnabled(cfg, p, step) && Ends(step)
    ensures MovesForward(p.writes.operations, ApplyWrite(cfg, p, step).writes.operations)
  {
    var c := p.callers[step.caller];
    match step
    case FinishSatisfied(_) =>
      TransitionMovesForward(p.writes, c.operation, Received, Succeeded, Some(AlreadySatisfied), VerdictObservation(c.phase.verdict));
    case FinishRefused(_) =>
      TransitionMovesForward(p.writes, c.operation, Received, Refused, Some(RefusedFor(c.phase.verdict.refusal)), None);
    case RecordPrediction(_) =>
      TransitionMovesForward(p.writes, c.operation, Received, DryRunRecorded,
                             Some(Predicted(PredictionOf(c.phase.verdict))), VerdictObservation(c.phase.verdict));
    case GiveBack(_) =>
    case Settle(_, _, _) =>
    case LoseCaller(_) =>
  }

  lemma ConsumeMovesForward(p: Protocol, caller: Uuid, fault: CommitFault)
    requires caller in p.callers && p.callers[caller].phase.Holding?
    ensures MovesForward(p.writes.operations, ApplyConsume(p, caller, fault).writes.operations)
  {
  }

  lemma FinishMovesForward(p: Protocol, runner: Uuid, at: Instant)
    requires runner in p.runners
    ensures MovesForward(p.writes.operations, ApplyFinish(p, runner, at).writes.operations)
  {
    FinishShape(p, runner, at);
    SettledMovesForward(p.writes.operations, ApplyFinish(p, runner, at).writes.operations, SettledBy(p, runner));
  }

  lemma SettledMovesForward(before: map<Uuid, Operation>, after: map<Uuid, Operation>, settled: set<Uuid>)
    requires RowsKept(before, after, settled)
    requires forall o | o in settled :: o in before && before[o].status == Uncertain
               && after[o].status in {ReconciledSucceeded, ReconciledNotCurrent}
    ensures MovesForward(before, after)
  {
  }

  /** Steps that neither end a call nor stamp a consent add at most one new operation. */
  lemma AdvancesMoveForward(cfg: Config, p: Protocol, step: WriteStep)
    requires ValidSetup(cfg) && WriteEnabled(cfg, p, step) && !Ends(step) && !step.Consume?
    ensures MovesForward(p.writes.operations, ApplyWrite(cfg, p, step).writes.operations)
  {
  }

  lemma WriteMovesForward(cfg: Config, p: Protocol, step: WriteStep)
    requires ValidSetup(cfg) && WriteEnabled(cfg, p, step)
    ensures MovesForward(p.writes.operations, ApplyWrite(cfg, p, step).writes.operations)
  {
    if step.Consume? {
      ConsumeMovesForward(p, step.caller, step.fault);
    } else if Ends(step) {
      EndingMovesForward(cfg, p, step);
    } else {
      AdvancesMoveForward(cfg, p, step);
    }
  }

  lemma StatusesMoveForward(cfg: Config, p: Protocol, step: Step)
    requires ValidSetup(cfg) && Enabled(cfg, p, step)
    ensures MovesForward(p.writes.operations, Apply(cfg, p, step).writes.operations)
  {
    if step.Write? {
      WriteMovesForward(cfg, p, step.w);
    } else if step.Snap? && step.s.Finish? {
      FinishMovesForward(p, step.s.runner, step.s.at);
    } else {
      OthersLeaveWrites(cfg, p, step);
    }
  }

  lemma {:induction false} StatusesMoveForwardInRuns(cfg: Config, p: Protocol, steps: seq<Step>, o: Uuid)
    requires ValidSetup(cfg) && Legal(cfg, p, steps) && o in p.writes.operations
    ensures o in Exec(cfg, p, steps).writes.operations
    ensures var now := Exec(cfg, p, steps).writes.operations[o];
            LeadsTo(p.writes.operations[o].status, now.status)
    decreases |steps|
  {
    if steps != [] {
      StatusesMoveForward(cfg, p, steps[0]);
      StatusesMoveForwardInRuns(cfg, Apply(cfg, p, steps[0]), steps[1..], o);
      LeadsToIsPaths(p.writes.operations[o].status, Exec(cfg, p, steps).writes.operations[o].status);
    }
  }

  predicate Agrees(row: Operation, bookmarks: Bookmarks)
  {
    row.action == Add <==> row.post in ActivePosts(bookmarks, row.account)
  }

  lemma FinishSettles(p: Protocol, runner: Uuid, at: Instant, o: Uuid)
    requires runner in p.runners && Finalizable(p.sync, p.runners[runner].handle)
    requires o in p.writes.operations && p.writes.operations[o].status == Uncertain
    ensures var q := ApplyFinish(p, runner, at);
            var row := p.writes.operations[o];
            && o in q.writes.operations
            && q.writes.operations[o].status ==
                 if p.runners[runner].handle.account != row.account then Uncertain
                 else if Agrees(row, q.sync.bookmarks) then ReconciledSucceeded else ReconciledNotCurrent
  {
    SettlementMatchesProjection(p.writes, p.sync, p.runners[runner].handle, at, o);
  }

  lemma OwnedIsNotUncertain(p: Protocol, caller: Uuid)
    requires ClaimsInv(p) && caller in p.callers
    ensures p.callers[caller].operation in p.writes.operations
    ensures p.writes.operations[p.callers[caller].operation].status in {Received, ProviderInFlight}
  {
    assert Describes(p.writes.operations[p.callers[caller].operation], p.callers[caller]);
  }

  lemma EndingKeepsUncertain(cfg: Config, p: Protocol, step: WriteStep, o: Uuid)
    requires ValidSetup(cfg) && WriteEnabled(cfg, p, step) && ClaimsInv(p) && Ends(step)
    requires o in p.writes.operations && p.writes.operations[o].status == Uncertain
    ensures var after := ApplyWrite(cfg, p, step).writes.operations; o in after && after[o].status == Uncertain
  {
    OwnedIsNotUncertain(p, step.caller);
    EndingKeepsOthers(cfg, p, step, o);
  }

  lemma EndingKeepsOthers(cfg: Config, p: Protocol, step: WriteStep, o: Uuid)
    requires ValidSetup(cfg) && WriteEnabled(cfg, p, step) && Ends(step)
    requires o in p.writes.operations && o != p.callers[step.caller].operation
    ensures var after := ApplyWrite(cfg, p, step).writes.operations; o in after && after[o] == p.writes.operations[o]
  {
    EndingShape(cfg, p, step);
  }

  lemma ConsumeKeepsUncertain(p: Protocol, caller: Uuid, fault: CommitFault, o: Uuid)
    requires ClaimsInv(p) && caller in p.callers && p.callers[caller].phase.Holding?
    requires o in p.writes.operations && p.writes.operations[o].status == Uncertain
    ensures var after := ApplyConsume(p, caller, fault).writes.operations; o in after && after[o].status == Uncertain
  {
    OwnedIsNotUncertain(p, caller);
  }

  lemma WritesKeepUncertain(cfg: Config, p: Protocol, step: WriteStep, o: Uuid)
    requires ValidSetup(cfg) && WriteEnabled(cfg, p, step) && ClaimsInv(p)
    requires o in p.writes.operations && p.writes.operations[o].status == Uncertain
    ensures var after := ApplyWrite(cfg, p, step).writes.operations; o in after && after[o].status == Uncertain
  {
    if Ends(step) {
      EndingKeepsUncertain(cfg, p, step, o);
    } else if step.Consume? {
      ConsumeKeepsUncertain(p, step.caller, step.fault, o);
    }
  }

  /**
   `uncertain` is left only by the completion of a full snapshot of the operation's account. That step settles
   it, as reconciled-succeeded exactly when the bookmark projection it leaves agrees with the request.
   */
  lemma OnlyCompletionSettlesUncertain(cfg: Config, p: Protocol, step: Step, o: Uuid)
    requires ValidSetup(cfg) && Enabled(cfg, p, step) && ClaimsInv(p)
    requires o in p.writes.operations && p.writes.operations[o].status == Uncertain
    ensures var q := Apply(cfg, p, step);
            var row := p.writes.operations[o];
            && o in q.writes.operations
            && q.writes.operations[o].status ==
                 if !Completes(p, step, row.account) then Uncertain
                 else if Agrees(row, q.sync.bookmarks) then ReconciledSucceeded else ReconciledNotCurrent
  {
    if step.Write? {
      WritesKeepUncertain(cfg, p, step.w, o);
    } else if step.Snap? && step.s.Finish? {
      if Finalizable(p.sync, p.runners[step.s.runner].handle) {
        FinishSettles(p, step.s.runner, step.s.at, o);
      }
    } else {
      OthersLeaveWrites(cfg, p, step);
    }
  }
}
