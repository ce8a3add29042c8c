/** The write budget over every interleaving: a window's usage is exactly its outstanding reservations. */
module BudgetSafety {
  import opened Common
  import opened ArchiveTables
  import opened BudgetGate
  import opened Writeback
  import opened Snapshots
  import opened ArchiveProtocol
  import opened WritebackSafety

  function ChargedTo(h: History, key: WindowKey): set<Uuid>
  {
    set c | c in h.charged && h.charged[c] == key
  }

  /** Calls whose charge to the window was not given back. */
  function Outstanding(h: History, key: WindowKey): set<Uuid>
  {
    ChargedTo(h, key) - h.refunded
  }

  function HeldWindow(phase: CallerPhase): Option<WindowKey>
  {
    match phase
    case Claimed => None
    case Judged(_, _) => None
    case Holding(_, window) => Some(window)
    case Refunding(window) => Some(window)
    case Ready(window) => Some(window)
    case Called(window) => Some(window)
  }

  ghost predicate CallersAccount(p: Protocol)
  {
    forall c | c in p.callers ::
      match HeldWindow(p.callers[c].phase)
      case None => c !in p.history.charged
      case Some(window) => c in p.history.charged && p.history.charged[c] == window && c !in p.history.refunded
  }

  ghost predicate WindowsAccount(cfg: Config, p: Protocol)
  {
    && p.history.refunded <= p.history.charged.Keys
    && (forall key :: Usage(p.writes.windows, key) == |Outstanding(p.history, key)|)
    && (forall key :: Usage(p.writes.windows, key) <= cfg.write.cap)
  }

  /** Every contact is paid for by its own call, and a call still to contact has not contacted. */
  ghost predicate ContactsAccount(p: Protocol)
  {
    && (forall i | 0 <= i < |p.history.contacts| ::
          var x := p.history.contacts[i];
          x.caller in p.history.charged && p.history.charged[x.caller] == x.window && x.caller !in p.history.refunded)
    && (forall i, j | 0 <= i < j < |p.history.contacts| :: p.history.contacts[i].caller != p.history.contacts[j].caller)
    && (forall c, i | c in p.callers && !p.callers[c].phase.Called? && 0 <= i < |p.history.contacts| ::
          p.history.contacts[i].caller != c)
  }

  ghost predicate BudgetInv(cfg: Config, p: Protocol)
  {
    CallersAccount(p) && WindowsAccount(cfg, p) && ContactsAccount(p)
  }

  /** Steps that move no money and call nobody. */
  lemma BudgetQuiet(cfg: Config, p: Protocol, q: Protocol)
    requires BudgetInv(cfg, p)
    requires q.writes.windows == p.writes.windows && q.history.contacts == p.history.contacts
    requires q.history.charged == p.history.charged && q.history.refunded == p.history.refunded
    requires forall c | c in q.callers ::
               || (c in p.callers && HeldWindow(q.callers[c].phase) == HeldWindow(p.callers[c].phase)
                   && (q.callers[c].phase.Called? <==> p.callers[c].phase.Called?))
               || (HeldWindow(q.callers[c].phase).None? && c !in p.history.charged)
    ensures BudgetInv(cfg, q)
  {
    assert forall key :: Outstanding(q.history, key) == Outstanding(p.history, key);
    forall c, i | c in q.callers && !q.callers[c].phase.Called? && 0 <= i < |q.history.contacts|
      ensures q.history.contacts[i].caller != c
    {
      assert p.history.contacts[i].caller in p.history.charged;
    }
  }

  /** One unit charged to `window` for a call that had none. */
  ghost predicate OneCharge(p: Protocol, q: Protocol, caller: Uuid, window: WindowKey)
  {
    && caller in p.callers && caller !in p.history.charged && !p.callers[caller].phase.Called?
    && q.writes.windows == p.writes.windows[window := Usage(p.writes.windows, window) + WRITE_COST]
    && q.history == p.history.(charged := p.history.charged[caller := window])
    && caller in q.callers && q.callers == p.callers[caller := q.callers[caller]]
    && q.callers[caller].phase.Holding? && q.callers[caller].phase.window == window
  }

  lemma ChargeAddsOne(h: History, caller: Uuid, window: WindowKey, key: WindowKey)
    requires caller !in h.charged && h.refunded <= h.charged.Keys
    ensures |Outstanding(h.(charged := h.charged[caller := window]), key)|
            == |Outstanding(h, key)| + if key == window then 1 else 0
  {
    var g := h.(charged := h.charged[caller := window]);
    if key == window {
      assert Outstanding(g, key) == Outstanding(h, key) + {caller};
    } else {
      assert Outstanding(g, key) == Outstanding(h, key);
    }
  }

  lemma ChargeKeepsWindows(cfg: Config, p: Protocol, q: Protocol, caller: Uuid, window: WindowKey)
    requires WindowsAccount(cfg, p) && OneCharge(p, q, caller, window)
    requires Usage(p.writes.windows, window) + WRITE_COST <= cfg.write.cap
    ensures WindowsAccount(cfg, q)
  {
    forall key
      ensures Usage(q.writes.windows, key) == |Outstanding(q.history, key)| && Usage(q.writes.windows, key) <= cfg.write.cap
    {
      assert Usage(p.writes.windows, key) == |Outstanding(p.history, key)|;
      ChargeAddsOne(p.history, caller, window, key);
    }
  }

  lemma ChargeKeepsParties(cfg: Config, p: Protocol, q: Protocol, caller: Uuid, window: WindowKey)
    requires CallersAccount(p) && ContactsAccount(p) && OneCharge(p, q, caller, window)
    requires p.history.refunded <= p.history.charged.Keys
    ensures CallersAccount(q) && ContactsAccount(q)
  {
    forall c | c in q.callers && c != caller
      ensures match HeldWindow(q.callers[c].phase)
              case None => c !in q.history.charged
              case Some(w) => c in q.history.charged && q.history.charged[c] == w && c !in q.history.refunded
    {
      assert q.callers[c] == p.callers[c];
    }
  }

  lemma ReserveKeepsBudget(cfg: Config, p: Protocol, caller: Uuid, at: Instant)
    requires ValidSetup(cfg) && WriteEnabled(cfg, p, Reserve(caller, at)) && BudgetInv(cfg, p)
    ensures BudgetInv(cfg, ApplyReserve(cfg, p, caller, at))
  {
    var q := ApplyReserve(cfg, p, caller, at);
    var window := WriteWindow(cfg.write, p.callers[caller].request.account, at);
    assert HeldWindow(p.callers[caller].phase).None?;
    if WRITE_COST <= cfg.write.cap && Fits(p.writes.windows, window, cfg.write.cap, WRITE_COST) {
      ChargeKeepsWindows(cfg, p, q, caller, window);
      ChargeKeepsParties(cfg, p, q, caller, window);
    } else {
      BudgetQuiet(cfg, p, q);
    }
  }

  /** A refund always finds its own charge in the window, so the clamp at zero is never reached. */
  lemma RefundNeverClamps(cfg: Config, p: Protocol, caller: Uuid)
    requires BudgetInv(cfg, p) && caller in p.callers && p.callers[caller].phase.Refunding?
    ensures Usage(p.writes.windows, p.callers[caller].phase.window) >= WRITE_COST
  {
    var key := p.callers[caller].phase.window;
    assert HeldWindow(p.callers[caller].phase) == Some(key);
    assert caller in Outstanding(p.history, key);
    CardinalityMonotone({caller}, Outstanding(p.history, key));
    assert Usage(p.writes.windows, key) == |Outstanding(p.history, key)|;
  }

  lemma GiveBackKeepsBudget(cfg: Config, p: Protocol, caller: Uuid)
    requires ValidSetup(cfg) && WriteEnabled(cfg, p, GiveBack(caller)) && BudgetInv(cfg, p)
    ensures BudgetInv(cfg, ApplyWrite(cfg, p, GiveBack(caller)))
  {
    var q := ApplyWrite(cfg, p, GiveBack(caller));
    var window := p.callers[caller].phase.window;
    RefundNeverClamps(cfg, p, caller);
    assert HeldWindow(p.callers[caller].phase) == Some(window);
    forall key
      ensures Usage(q.writes.windows, key) == |Outstanding(q.history, key)| && Usage(q.writes.windows, key) <= cfg.write.cap
    {
      assert Usage(p.writes.windows, key) == |Outstanding(p.history, key)|;
      if key == window {
        assert Outstanding(q.history, key) == Outstanding(p.history, key) - {caller};
      } else {
        assert Outstanding(q.history, key) == Outstanding(p.history, key);
      }
    }
    assert CallersAccount(q);
  }

  lemma CallKeepsBudget(cfg: Config, p: Protocol, caller: Uuid)
    requires ValidSetup(cfg) && WriteEnabled(cfg, p, CallProvider(caller)) && BudgetInv(cfg, p)
    ensures BudgetInv(cfg, ApplyCall(p, caller))
  {
    var q := ApplyCall(p, caller);
    assert HeldWindow(p.callers[caller].phase) == Some(p.callers[caller].phase.window);
    assert forall key :: Outstanding(q.history, key) == Outstanding(p.history, key);
  }

  lemma ConsumeKeepsBudget(cfg: Config, p: Protocol, caller: Uuid, fault: CommitFault)
    requires caller in p.callers && p.callers[caller].phase.Holding? && BudgetInv(cfg, p)
    ensures BudgetInv(cfg, ApplyConsume(p, caller, fault))
  {
    var q := ApplyConsume(p, caller, fault);
    assert HeldWindow(q.callers[caller].phase) == HeldWindow(p.callers[caller].phase);
    BudgetQuiet(cfg, p, q);
  }

  lemma WriteKeepsBudget(cfg: Config, p: Protocol, step: WriteStep)
    requires ValidSetup(cfg) && WriteEnabled(cfg, p, step) && BudgetInv(cfg, p)
    ensures BudgetInv(cfg, ApplyWrite(cfg, p, step))
  {
    if step.Reserve? {
      ReserveKeepsBudget(cfg, p, step.caller, step.at);
    } else if step.GiveBack? {
      GiveBackKeepsBudget(cfg, p, step.caller);
    } else if step.CallProvider? {
      CallKeepsBudget(cfg, p, step.caller);
    } else if step.Consume? {
      ConsumeKeepsBudget(cfg, p, step.caller, step.fault);
    } else if Ends(step) {
      EndingShape(cfg, p, step);
      BudgetQuiet(cfg, p, ApplyWrite(cfg, p, step));
    } else {
      BudgetQuiet(cfg, p, ApplyWrite(cfg, p, step));
    }
  }

  lemma StepKeepsBudget(cfg: Config, p: Protocol, step: Step)
    requires ValidSetup(cfg) && Enabled(cfg, p, step) && BudgetInv(cfg, p)
    ensures BudgetInv(cfg, Apply(cfg, p, step))
  {
    if step.Write? {
      WriteKeepsBudget(cfg, p, step.w);
    } else if step.Snap? && step.s.Finish? {
      FinishShape(p, step.s.runner, step.s.at);
      BudgetQuiet(cfg, p, ApplyFinish(p, step.s.runner, step.s.at));
    } else {
      OthersLeaveWrites(cfg, p, step);
      BudgetQuiet(cfg, p, Apply(cfg, p, step));
    }
  }

  // ---------------------------------------------------------------- over runs

  ghost function ContactsIn(h: History, key: WindowKey): set<nat>
  {
    set i: nat | i < |h.contacts| && h.contacts[i].window == key
  }

  /** Distinct contacts name distinct calls, so there are at most as many as outstanding charges. */
  lemma {:induction false} ContactsArePaid(p: Protocol, key: WindowKey, some: set<nat>)
    requires ContactsAccount(p) && some <= ContactsIn(p.history, key)
    ensures |some| <= |Outstanding(p.history, key)|
  {
    var payers := set i | i in some :: p.history.contacts[i].caller;
    PayersAreDistinct(p, some);
    assert payers <= Outstanding(p.history, key);
    CardinalityMonotone(payers, Outstanding(p.history, key));
  }

  lemma {:induction false} PayersAreDistinct(p: Protocol, some: set<nat>)
    requires ContactsAccount(p) && (forall i | i in some :: 0 <= i < |p.history.contacts|)
    ensures |set i | i in some :: p.history.contacts[i].caller| == |some|
    decreases |some|
  {
    if some != {} {
      var i :| i in some;
      PayersAreDistinct(p, some - {i});
      var payers := set j | j in some :: p.history.contacts[j].caller;
      var rest := set j | j in some - {i} :: p.history.contacts[j].caller;
      assert payers == rest + {p.history.contacts[i].caller};
      assert p.history.contacts[i].caller !in rest;
    }
  }

  lemma {:induction false} RunKeepsBudget(cfg: Config, p: Protocol, steps: seq<Step>)
    requires ValidSetup(cfg) && Legal(cfg, p, steps) && BudgetInv(cfg, p)
    ensures BudgetInv(cfg, Exec(cfg, p, steps))
    decreases |steps|
  {
    if steps != [] {
      StepKeepsBudget(cfg, p, steps[0]);
      RunKeepsBudget(cfg, Apply(cfg, p, steps[0]), steps[1..]);
    }
  }

  /**
   In every reachable state a write window's usage is its accepted charges minus its refunds, lies between
   zero and the cap, and covers the provider contacts charged to that window.
   */
  lemma WriteBudgetIsExact(cfg: Config, p: Protocol, steps: seq<Step>, key: WindowKey)
    requires ValidSetup(cfg) && Initial(p) && Legal(cfg, p, steps)
    ensures var q := Exec(cfg, p, steps);
            && Usage(q.writes.windows, key) == |ChargedTo(q.history, key)| - |ChargedTo(q.history, key) * q.history.refunded|
            && 0 <= Usage(q.writes.windows, key) <= cfg.write.cap
            && |ContactsIn(q.history, key)| <= Usage(q.writes.windows, key)
            && (forall c | c in q.callers && q.callers[c].phase.Refunding? ::
                  Usage(q.writes.windows, q.callers[c].phase.window) >= WRITE_COST)
  {
    assert forall k :: Outstanding(p.history, k) == {};
    RunKeepsBudget(cfg, p, steps);
    var q := Exec(cfg, p, steps);
    CardinalitySplit(ChargedTo(q.history, key), q.history.refunded);
    ContactsArePaid(q, key, ContactsIn(q.history, key));
    forall c | c in q.callers && q.callers[c].phase.Refunding?
      ensures Usage(q.writes.windows, q.callers[c].phase.window) >= WRITE_COST
    {
      RefundNeverClamps(cfg, q, c);
    }
  }
}
