/** What a recurring request waits for: which firing, until when, and when it is granted. */
module Waiting {
  import opened Options
  import opened Schedules
  import opened Resources
  import opened Windows
  import opened Recurring
  import opened Api
  import opened Rbac
  import opened Lifecycle
  import opened Safety
  import opened Theorems
  import opened Timing
  import opened Revocation

  // ----- Which activation is recorded -----

  /**
   * An activation that was recorded and has come is due until a whole duration later, and no
   * longer: then the request waits for the first firing after now.
   */
  lemma RecordedIsDueExactly(s: ScheduleSpec, st: Status, now: Now)
    requires s.cron.Every? && Perpetual(s.cron.cron) && s.duration > 0 && s.start <= now
    requires st.nextAt.Some? && st.nextAt.value <= now && !MaxActivationsReached(s, st)
    ensures var st' := Process(s, st, now).status;
            && (Due(s, st', now) <==> now <= st.nextAt.value + s.duration)
            && (if Due(s, st', now) then st'.nextAt == st.nextAt
                else st'.nextAt.Some? && FirstAfter(s.cron.cron, now, st'.nextAt.value))
  {
    hide InsideFiring, SetCondition;
    assert NextFiring(s.cron.cron, now) != ZERO;
  }

  /**
   * A request with no recorded activation that is not due waits for the first firing after now.
   * Before the schedule's start that firing gives way to the start; a firing whose window is open
   * already stays recorded, and the start decides.
   */
  lemma WaitsForNextFiring(s: ScheduleSpec, st: Status, now: Now)
    requires s.cron.Every? && Perpetual(s.cron.cron) && s.duration > 0
    requires st.nextAt.None? && !MaxActivationsReached(s, st)
    requires !Due(s, Process(s, st, now).status, now)
    ensures var next := Process(s, st, now).status.nextAt;
            && next.Some?
            && (s.start <= now ==> FirstAfter(s.cron.cron, now, next.value))
            && (now < s.start && !InsideFiring(s, s.cron.cron, now) ==>
                  && s.start <= next.value && (next.value == s.start || s.cron.cron.fires(next.value))
                  && forall x: Time | s.start <= x < next.value :: !s.cron.cron.fires(x))
            && (now < s.start && InsideFiring(s, s.cron.cron, now) ==>
                  && next.value < now < next.value + s.duration && s.cron.cron.fires(next.value)
                  && forall x: Time | next.value < x <= now :: !s.cron.cron.fires(x))
  {
    hide SetCondition;
    assert NextFiring(s.cron.cron, now) != ZERO;
  }

  // ----- Undisturbed reconciles of a waiting request -----

  /** A scheduled recurring request that may still be activated. */
  ghost predicate Waits(c: Cluster, now: Now) {
    var s := c.stored.spec.schedule;
    && Serving(c, now, Scheduled) && s.cron.Every? && Perpetual(s.cron.cron) && s.duration > 0
    && !MaxActivationsReached(s, c.stored.status)
  }

  /** A reconcile that finds a waiting request not due changes nothing, and asks to be called at its activation. */
  lemma WaitingPoll(c: Cluster, now: Now)
    requires Waits(c, now) && !DueNow(c.stored, now)
    ensures var next := Process(c.stored.spec.schedule, c.stored.status, now).status.nextAt;
            next.Some? && Fire(c, now) == (c, Some(Clamp(Until(next.value, now))))
  {
    hide HoldsIn, Reconcile, Perpetual, InsideFiring, CalculateNext, SetCondition;
    ServingDispatches(c, now, Scheduled, NoFaults(c));
    RecordsNext(c.stored.spec.schedule, c.stored.status, now);
    hide Process, Due, Dispatch;
    DispatchesPending(c, now);
  }

  lemma RecordsNext(s: ScheduleSpec, st: Status, now: Now)
    requires s.cron.Every? && !MaxActivationsReached(s, st)
    ensures !Process(s, st, now).failed && Process(s, st, now).status.nextAt.Some?
  {
  }

  lemma DispatchesPending(c: Cluster, now: Now)
    requires CurrentCondition(c.stored.status.conditions) == RecurringPending
    ensures Dispatch(c, c.stored, now, NoFaults(c)) == HandleRecurringPending(c, c.stored, now, NoFaults(c))
  {
    hide HandleRecurringPending;
  }

  /** From its start on, a request with nothing recorded that is not due asks to be called at the next firing. */
  lemma RecurringEarly(c: Cluster, now: Now) returns (next: Time)
    requires Waits(c, now) && c.stored.status.nextAt.None? && c.stored.spec.schedule.start <= now
    requires !InsideFiring(c.stored.spec.schedule, c.stored.spec.schedule.cron.cron, now)
    ensures FirstAfter(c.stored.spec.schedule.cron.cron, now, next)
    ensures Fire(c, now) == (c, Some(Clamp(next - now)))
  {
    var s, st := c.stored.spec.schedule, c.stored.status;
    FreshlyDueExactly(s, st, now);
    WaitsForNextFiring(s, st, now);
    WaitingPoll(c, now);
    next := Process(s, st, now).status.nextAt.value;
    hide Process, Fire, Waits, InsideFiring;
  }

  /** A request with nothing recorded that a reconcile finds strictly inside the latest firing's window is granted. */
  lemma RecurringGranted(c: Cluster, now: Now)
    requires Waits(c, now) && c.stored.status.nextAt.None? && c.stored.spec.schedule.start <= now
    requires InsideFiring(c.stored.spec.schedule, c.stored.spec.schedule.cron.cron, now)
    ensures GrantedAt(Fire(c, now).0, c.stored, now)
  {
    hide Process, Fire, InsideFiring, HoldsIn, Complete;
    FreshlyDueExactly(c.stored.spec.schedule, c.stored.status, now);
    OnlyBadFails(c.stored.spec.schedule, c.stored.status, now);
    GrantSucceeds(c, now);
    HeldIsActive(Fire(c, now).0, now);
  }

  /** Access was granted to a request, completely, at `now`. */
  ghost predicate GrantedAt(after: Cluster, r: Resource, now: Now) {
    && CurrentCondition(after.stored.status.conditions) == RecurringActive
    && after.stored.status.grantedAt == Some(now)
    && Complete(r.id, r.spec, after.objects)
  }

  lemma HeldIsActive(c: Cluster, now: Now)
    requires Serving(c, now, Held)
    ensures CurrentCondition(c.stored.status.conditions) == RecurringActive
  {
    DispatchedByPhase(c, c.stored, Held, now);
  }

  // ----- A grant that was interrupted -----

  /**
   * A recurring request that a run left with a recorded activation is granted by the next
   * undisturbed reconcile if and only if that comes within a duration of the activation.
   */
  lemma InterruptedIsResumed(worlds: seq<World>, steps: seq<Step>, i: nat)
    requires Run(worlds, steps) && i < |worlds|
    requires var c, s := worlds[i].cluster, worlds[i].cluster.stored.spec.schedule;
             && c.live && !c.stored.deleting && CurrentCondition(c.stored.status.conditions) == RecurringPending
             && s.cron.Every? && Perpetual(s.cron.cron) && s.duration > 0 && s.start <= worlds[i].now
             && !MaxActivationsReached(s, c.stored.status) && c.stored.status.nextAt.Some?
    ensures var c, now := worlds[i].cluster, worlds[i].now;
            && c.stored.status.nextAt.value <= now
            && (GrantedAt(Fire(c, now).0, c.stored, now) <==>
                  now <= c.stored.status.nextAt.value + c.stored.spec.schedule.duration)
  {
    var c, now := worlds[i].cluster, worlds[i].now;
    var s := c.stored.spec.schedule;
    var p := StatusOf(worlds, steps, i);
    ScheduledWaits(worlds[i], p);
    RecordedIsDueExactly(s, c.stored.status, now);
    OnlyBadFails(s, c.stored.status, now);
    hide Process, HoldsIn, Complete, Fire, Due, Perpetual;
    if now <= c.stored.status.nextAt.value + s.duration {
      GrantSucceeds(c, now);
      HeldIsActive(Fire(c, now).0, now);
    } else {
      WaitingPoll(c, now);
    }
  }

  lemma ScheduledWaits(w: World, p: Phase)
    requires HoldsIn(w, p) && w.cluster.live && !w.cluster.stored.deleting
    requires CurrentCondition(w.cluster.stored.status.conditions) == RecurringPending
    requires var s := w.cluster.stored.spec.schedule;
             s.cron.Every? && Perpetual(s.cron.cron) && s.duration > 0 && !MaxActivationsReached(s, w.cluster.stored.status)
    ensures Waits(w.cluster, w.now)
    ensures w.cluster.stored.status.nextAt.Some? ==> w.cluster.stored.status.nextAt.value <= w.now
  {
    PhaseDispatch(w.cluster.stored.status, p);
    assert p == Scheduled;
    hide Clean, NoDangling, RecordsHold;
  }

  // ----- Late reconciles -----

  /** The cluster after up to `n` reconciles, each `late` seconds after the delay the one before returned. */
  function DriveLate(c: Cluster, now: Now, late: nat, n: nat): (Cluster, Now)
    decreases n
  {
    if n == 0 then (c, now)
    else
      hide Fire;
      var (after, delay) := Fire(c, now);
      if n == 1 || delay.None? then (after, now) else DriveLate(after, now + delay.value + late, late, n - 1)
  }

  function WaitDelay(c: Cron, now: Now): (d: nat)
    ensures MIN_REQUEUE <= d <= HOUR
  {
    Clamp(NextFiring(c, now) - now)
  }

  /** The `k`-th reconcile of a waiting request, the one at `now` being number 0. */
  function WaitAt(c: Cron, now: Now, late: nat, k: nat): (t: Now)
    ensures now <= t
    decreases k
  {
    if k == 0 then now else WaitAt(c, now + WaitDelay(c, now) + late, late, k - 1)
  }

  lemma WaitsLater(c: Cluster, now: Now, d: nat)
    requires Waits(c, now)
    ensures Waits(c, now + d)
  {
    ServingLater(c, now, d, Scheduled);
    hide Serving, Perpetual;
  }

  /**
   * However late the reconciles are, as long as they miss the windows nothing changes, and the
   * first one strictly inside a firing's window grants.
   */
  lemma {:induction false} WaitingPolls(c: Cluster, now: Now, late: nat, k: nat)
    requires Waits(c, now) && c.stored.status.nextAt.None? && c.stored.spec.schedule.start <= now
    requires forall j: nat | j < k ::
               !InsideFiring(c.stored.spec.schedule, c.stored.spec.schedule.cron.cron,
                             WaitAt(c.stored.spec.schedule.cron.cron, now, late, j))
    ensures var s := c.stored.spec.schedule;
            var (after, t) := DriveLate(c, now, late, k + 1);
            && t == WaitAt(s.cron.cron, now, late, k)
            && (if InsideFiring(s, s.cron.cron, t) then GrantedAt(after, c.stored, t) else after == c)
    decreases k
  {
    hide Fire, InsideFiring, GrantedAt, WaitDelay, NextFiring, Serving, Perpetual;
    var s := c.stored.spec.schedule;
    var cron := s.cron.cron;
    assert WaitAt(cron, now, late, 0) == now;
    if k > 0 || !InsideFiring(s, cron, now) {
      var next := RecurringEarly(c, now);
      NextIsFirst(cron, now, next);
    } else {
      RecurringGranted(c, now);
    }
    if k > 0 {
      var u: Now := now + WaitDelay(cron, now) + late;
      WaitsLater(c, now, u - now);
      forall j: nat | j < k - 1
        ensures !InsideFiring(s, cron, WaitAt(cron, u, late, j))
      {
        assert WaitAt(cron, now, late, j + 1) == WaitAt(cron, u, late, j);
      }
      WaitingPolls(c, u, late, k - 1);
    }
  }

  lemma NextIsFirst(c: Cron, now: Now, next: Time)
    requires Perpetual(c) && FirstAfter(c, now, next)
    ensures next == NextFiring(c, now) && WaitDelay(c, now) == Clamp(next - now)
  {
    assert NextFiring(c, now) != ZERO;
  }

  // ----- The next window -----

  /** The first reconcile of a waiting request that comes after the firing `n`. */
  function PollAfter(c: Cron, n: Time, u: Now, late: nat): (t: Now)
    ensures n < t && u <= t
    decreases if u <= n then n - u + 1 else 0
  {
    if n < u then u else PollAfter(c, n, u + WaitDelay(c, u) + late, late)
  }

  lemma {:induction false} PollAfterIndex(c: Cron, n: Time, u: Now, late: nat) returns (k: nat)
    ensures WaitAt(c, u, late, k) == PollAfter(c, n, u, late)
    ensures forall j: nat | j < k :: u <= WaitAt(c, u, late, j) <= n
    decreases if u <= n then n - u + 1 else 0
  {
    k := 0;
    if u <= n {
      var v: Now := u + WaitDelay(c, u) + late;
      var m := PollAfterIndex(c, n, v, late);
      k := m + 1;
      forall j: nat | j < k
        ensures u <= WaitAt(c, u, late, j) <= n
      {
        if j > 0 {
          assert WaitAt(c, u, late, j) == WaitAt(c, v, late, j - 1);
        }
      }
    }
  }

  /**
   * A request that waits outside any window is granted in the window of the next firing if and
   * only if the first reconcile after that firing comes before the window ends.
   */
  lemma GrantedInNextWindowExactly(c: Cluster, now: Now, late: nat) returns (k: nat)
    requires Waits(c, now) && c.stored.status.nextAt.None? && c.stored.spec.schedule.start <= now
    requires var s := c.stored.spec.schedule;
             var n := NextFiring(s.cron.cron, now);
             && (forall u: Now | now <= u <= n :: !InsideFiring(s, s.cron.cron, u))
             && var t := PollAfter(s.cron.cron, n, now, late);
                t < NextFiring(s.cron.cron, n) && Lookback(s.cron.cron, t) < n
    ensures var s := c.stored.spec.schedule;
            var n := NextFiring(s.cron.cron, now);
            var (after, t) := DriveLate(c, now, late, k);
            && t == PollAfter(s.cron.cron, n, now, late)
            && (GrantedAt(after, c.stored, t) <==> t < n + s.duration)
  {
    hide GrantedAt, Waits, WaitAt, PollAfter, WaitDelay, InsideFiring, DriveLate;
    var s := c.stored.spec.schedule;
    WaitsPerpetually(c, now);
    var cron := s.cron.cron;
    var n := NextFiring(cron, now);
    var t := PollAfter(cron, n, now, late);
    var m := PollAfterIndex(cron, n, now, late);
    WaitingPolls(c, now, late, m);
    k := m + 1;
    InsideNext(s, n, t);
    if !InsideFiring(s, cron, t) {
      NotGranted(c, now, t);
    }
  }

  lemma WaitsPerpetually(c: Cluster, now: Now)
    requires Waits(c, now)
    ensures c.stored.spec.schedule.cron.Every? && Perpetual(c.stored.spec.schedule.cron.cron)
    ensures c.stored.spec.schedule.duration > 0
  {
  }

  lemma NotGranted(c: Cluster, now: Now, t: Now)
    requires Waits(c, now)
    ensures !GrantedAt(c, c.stored, t)
  {
    DispatchedByPhase(c, c.stored, Scheduled, now);
  }

  lemma InsideNext(s: ScheduleSpec, n: Time, t: Now)
    requires s.cron.Every? && Perpetual(s.cron.cron) && s.cron.cron.fires(n) && n != ZERO
    requires n < t < NextFiring(s.cron.cron, n) && Lookback(s.cron.cron, t) < n
    ensures InsideFiring(s, s.cron.cron, t) <==> t < n + s.duration
  {
    SearchFindsLast(s.cron.cron, t);
    var f := LastFiring(s.cron.cron, t);
    assert s.cron.cron.fires(f) && f == n;
  }

  /** A reconcile of the waiting request falls exactly on the firing, which is too early to be inside its window. */
  ghost predicate OnTheDot(c: Cron, n: Time, u: Now, late: nat) {
    exists k: nat :: WaitAt(c, u, late, k) == n
  }

  /** Unless one falls exactly on the firing, a reconcile comes at most 30 seconds and its lateness after it. */
  lemma {:induction false} PollAfterBound(c: Cron, n: Time, u: Now, late: nat)
    requires Perpetual(c) && u < n && NextFiring(c, u) == n
    ensures PollAfter(c, n, u, late) <= n + HOUR + late
    ensures !OnTheDot(c, n, u, late) ==> PollAfter(c, n, u, late) <= n + MIN_REQUEUE + late
    decreases n - u
  {
    var v: Now := u + WaitDelay(c, u) + late;
    assert WaitAt(c, u, late, 0) == u;
    if v < n {
      assert NextFiring(c, v) != ZERO;
      PollAfterBound(c, n, v, late);
      if OnTheDot(c, n, v, late) {
        var k: nat :| WaitAt(c, v, late, k) == n;
        assert WaitAt(c, u, late, k + 1) == n;
      }
    } else if v == n {
      assert WaitAt(c, v, late, 0) == n;
      assert WaitAt(c, u, late, 1) == n;
      assert PollAfter(c, n, u, late) == PollAfter(c, n, v, late);
    }
  }

  /**
   * With windows longer than 30 seconds and the lateness, a request that waits is granted within
   * that time after the next firing, unless a reconcile falls exactly on it.
   */
  lemma GrantedInTime(c: Cluster, now: Now, late: nat) returns (k: nat)
    requires Waits(c, now) && c.stored.status.nextAt.None? && c.stored.spec.schedule.start <= now
    requires var s := c.stored.spec.schedule;
             var n := NextFiring(s.cron.cron, now);
             && (forall u: Now | now <= u <= n :: !InsideFiring(s, s.cron.cron, u))
             && !OnTheDot(s.cron.cron, n, now, late)
             && n + MIN_REQUEUE + late < NextFiring(s.cron.cron, n)
             && (forall u: Now | n < u <= n + MIN_REQUEUE + late :: Lookback(s.cron.cron, u) < n)
             && MIN_REQUEUE + late < s.duration
    ensures var n := NextFiring(c.stored.spec.schedule.cron.cron, now);
            var (after, t) := DriveLate(c, now, late, k);
            n < t <= n + MIN_REQUEUE + late && GrantedAt(after, c.stored, t)
  {
    hide GrantedAt, Waits, PollAfter, WaitDelay, InsideFiring, DriveLate, OnTheDot, Lookback;
    WaitsPerpetually(c, now);
    var cron := c.stored.spec.schedule.cron.cron;
    var n := NextFiring(cron, now);
    assert n != ZERO;
    PollAfterBound(cron, n, now, late);
    k := GrantedInNextWindowExactly(c, now, late);
  }
}
