/** Fixed request-budget windows: charged before a provider call, refunded when the call never happened. */
module BudgetGate {
  import opened Common
  import opened ArchiveTables

  const MAX_REFUND := 0x7FFF_FFFF

  datatype Reservation = Reservation(window: WindowKey, cost: nat)

  datatype ReserveResult = Reserved(reservation: Reservation)
                         | Exhausted(resetAt: Instant)
                         | CostExceedsCap

  datatype Inspection = Inspection(eligible: bool, resetAt: Instant)

  /** The aligned start of the window that contains `now`; Euclidean, so instants before the epoch align too. */
  function WindowStartFor(now: Instant, windowSeconds: int): (start: Instant)
    requires 1 <= windowSeconds
    ensures start <= now < start + windowSeconds && start % windowSeconds == 0
  {
    AlignedMultiple(now / windowSeconds, windowSeconds);
    now / windowSeconds * windowSeconds
  }

  lemma AlignedMultiple(n: int, d: int)
    requires 1 <= d
    ensures (n * d) % d == 0
  {
    var q := (n * d) / d;
    if q < n {
      MultiplesAreApart(q, n, d);
    } else if n < q {
      MultiplesAreApart(n, q, d);
    }
  }

  lemma MultiplesAreApart(a: int, b: int, d: int)
    requires a < b && 1 <= d
    ensures a * d + d <= b * d
  {
    assert (b - a - 1) * d >= 0;
  }

  /** Windows partition time: two instants align to one start exactly when one window contains both. */
  lemma WindowsPartitionTime(x: Instant, y: Instant, windowSeconds: int)
    requires 1 <= windowSeconds
    ensures WindowStartFor(x, windowSeconds) == WindowStartFor(y, windowSeconds) <==>
            WindowStartFor(x, windowSeconds) <= y < WindowStartFor(x, windowSeconds) + windowSeconds
  {
    var a, b := x / windowSeconds, y / windowSeconds;
    var u, v := WindowStartFor(x, windowSeconds), WindowStartFor(y, windowSeconds);
    assert u == a * windowSeconds && v == b * windowSeconds;
    if a < b {
      MultiplesAreApart(a, b, windowSeconds);
    } else if b < a {
      MultiplesAreApart(b, a, windowSeconds);
    }
  }

  function Usage(windows: Windows, key: WindowKey): nat
  {
    if key in windows then windows[key] else 0
  }

  predicate Fits(windows: Windows, key: WindowKey, cap: nat, cost: nat)
  {
    Usage(windows, key) + cost <= cap
  }

  /** One transaction: create the row, lock it, compare, bump or roll back. */
  function Charge(windows: Windows, key: WindowKey, cap: nat, cost: nat): Windows
  {
    if Fits(windows, key, cap, cost) then windows[key := Usage(windows, key) + cost] else windows
  }

  /** One statement; a missing row stays missing and the usage clamps at zero. */
  function Refund(windows: Windows, key: WindowKey, cost: nat): Windows
  {
    var bounded := if cost <= MAX_REFUND then cost else MAX_REFUND;
    if key in windows then windows[key := if windows[key] >= bounded then windows[key] - bounded else 0]
    else windows
  }

  /** An accepted charge followed by its refund leaves every usage as it was. */
  lemma RefundUndoesCharge(windows: Windows, key: WindowKey, cap: nat, cost: nat, other: WindowKey)
    requires Fits(windows, key, cap, cost) && cost <= MAX_REFUND
    ensures Usage(Refund(Charge(windows, key, cap, cost), key, cost), other) == Usage(windows, other)
  {
  }

  class Gate {
    const db: Database
    const budgetClass: BudgetClass
    const cap: nat
    const windowSeconds: int

    constructor (db: Database, budgetClass: BudgetClass, cap: nat, windowSeconds: int)
      requires 1 <= windowSeconds <= 0x7FFF_FFFF
      ensures this.db == db && this.budgetClass == budgetClass
      ensures this.cap == cap && this.windowSeconds == windowSeconds
    {
      this.db := db;
      this.budgetClass := budgetClass;
      this.cap := cap;
      this.windowSeconds := windowSeconds;
    }

    function Window(account: Uuid, now: Instant): WindowKey
      requires 1 <= windowSeconds
    {
      WindowKey(account, budgetClass, WindowStartFor(now, windowSeconds))
    }

    method Reserve(account: Uuid, cost: nat, now: Instant) returns (r: ReserveResult)
      requires 1 <= windowSeconds
      modifies db`writes
      ensures r.Reserved? <==> cost <= cap && Fits(old(db.writes.windows), Window(account, now), cap, cost)
      ensures var key := Window(account, now);
              var used := if key in old(db.writes.windows) then old(db.writes.windows)[key] else 0;
              && (r.Reserved? <==> used + cost <= cap)
              && db.writes.windows == if r.Reserved? then old(db.writes.windows)[key := used + cost] else old(db.writes.windows)
      ensures r.CostExceedsCap? <==> cost > cap
      ensures r.Reserved? ==> r.reservation == Reservation(Window(account, now), cost)
      ensures r.Exhausted? ==> now < r.resetAt <= now + windowSeconds
      ensures db.writes == old(db.writes).(windows :=
                if r.Reserved? then Charge(old(db.writes.windows), Window(account, now), cap, cost)
                else old(db.writes.windows))
    {
      if cost > cap {
        return CostExceedsCap;
      }
      var key := Window(account, now);
      var used := Usage(db.writes.windows, key);
      if used + cost > cap {
        return Exhausted(key.start + windowSeconds);
      }
      db.writes := db.writes.(windows := db.writes.windows[key := used + cost]);
      r := Reserved(Reservation(key, cost));
    }

    method Inspect(account: Uuid, cost: nat, now: Instant) returns (r: Inspection)
      requires 1 <= windowSeconds
      ensures r.eligible <==> Fits(db.writes.windows, Window(account, now), cap, cost)
      ensures r.eligible <==> (if Window(account, now) in db.writes.windows then db.writes.windows[Window(account, now)] else 0) + cost <= cap
      ensures now < r.resetAt <= now + windowSeconds
    {
      var key := Window(account, now);
      var used := Usage(db.writes.windows, key);
      r := Inspection(cost <= cap && used + cost <= cap, key.start + windowSeconds);
    }

    method Release(reservation: Reservation)
      modifies db`writes
      ensures db.writes == old(db.writes).(windows := Refund(old(db.writes.windows), reservation.window, reservation.cost))
      ensures var before, key := old(db.writes.windows), reservation.window;
              && db.writes.windows.Keys == before.Keys
              && (forall x | x in before && x != key :: db.writes.windows[x] == before[x])
              && (key in before && reservation.cost <= MAX_REFUND ==>
                    db.writes.windows[key] == if before[key] < reservation.cost then 0 else before[key] - reservation.cost)
    {
      var bounded := if reservation.cost <= MAX_REFUND then reservation.cost else MAX_REFUND;
      var windows := db.writes.windows;
      if reservation.window in windows {
        var left := if windows[reservation.window] >= bounded then windows[reservation.window] - bounded else 0;
        db.writes := db.writes.(windows := windows[reservation.window := left]);
      }
    }
  }
}
