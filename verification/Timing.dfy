/** How soon access ends when nothing fails and every reconcile fires at its returned delay. */
module Timing {
  import opened Options
  import opened Schedules
  import opened Resources
  import opened Windows
  import opened Recurring
  import opened Api
  import opened Rbac
  import opened RbacProofs
  import opened Lifecycle
  import opened Safety
  import opened Theorems

  // ----- Fault-free runs -----

  /** The delay to the next reconcile, if one is asked for. */
  function Delay(r: Result): Option<nat> {
    match r
    case Again => Some(0)
    case After(d) => Some(d)
    case _ => None
  }

  /** One fault-free reconcile: the cluster after it, and the delay it asks for. */
  function Fire(c: Cluster, now: Now): (Cluster, Option<nat>) {
    var (after, result) := Reconcile(c, now, NoFaults(c));
    (after, Delay(result))
  }

  /** The cluster after up to `n` reconciles, each at the delay the one before returned, and the instant of the last. */
  function Drive(c: Cluster, now: Now, n: nat): (Cluster, Now)
    decreases n
  {
    if n == 0 then (c, now)
    else
      hide Fire;
      var (after, delay) := Fire(c, now);
      if n == 1 || delay.None? then (after, now) else Drive(after, now + delay.value, n - 1)
  }

  /** A resource the reconciler hands to its handlers, and that is not being deleted. */
  ghost predicate Serving(c: Cluster, now: Now, p: Phase) {
    && HoldsIn(World(c, now), p) && c.live && !c.stored.deleting && c.stored.finalizer
    && ScheduleAccepted(c.stored.spec.schedule)
  }

  lemma ServingDispatches(c: Cluster, now: Now, p: Phase, ch: Choices)
    requires Serving(c, now, p) && ch.read
    ensures Reconcile(c, now, ch) == (Dispatch(c, c.stored, now, ch).cluster, Dispatch(c, c.stored, now, ch).result)
    ensures CurrentCondition(c.stored.status.conditions) == if p == New then NoCondition else Types(p)[|Types(p)| - 1]
  {
    hide Dispatch;
    PhaseDispatch(c.stored.status, p);
  }

  // ----- While access is held -----

  /** The current window ends at `end` at every instant up to 30 seconds past it. */
  ghost predicate EndsAt(c: Cluster, now: Now, end: Time) {
    forall u: Now | now <= u && (u <= end + MIN_REQUEUE || u == now) ::
      var w := CurrentWindow(c.stored.spec.schedule, c.stored.status, u);
      w.Some? && w.value.end == end
  }

  /** Processing a held request in memory never brings RecurringPending to the end of its conditions. */
  lemma HeldMemory(s: ScheduleSpec, st: Status, now: Now)
    requires InPhase(st, Held) && st.count > 0
    ensures CurrentCondition(Process(s, st, now).status.conditions) != RecurringPending
    ensures !s.cron.BadCron? ==> !Process(s, st, now).failed
  {
    hide Process, SetCondition, InPhase, CurrentCondition;
    ProcessSets(s, st, now);
    OnlyBadFails(s, st, now);
    HeldStaysLast(st, Condition(RecurringPending, RecurringScheduled));
    HeldStaysLast(st, Condition(RecurringPending, RecurringWaiting));
    HeldStaysLast(st, Condition(Failed, LimitReached));
    HeldStaysLast(st, Condition(Failed, RecurringInvalidSchedule));
    PhaseDispatch(st, Held);
  }

  /** Setting a condition on held access in memory never brings RecurringPending to the end. */
  lemma HeldStaysLast(st: Status, c: Condition)
    requires InPhase(st, Held) && (c.kind == RecurringPending || c.kind == Failed)
    ensures CurrentCondition(SetCondition(st.conditions, c)) != RecurringPending
  {
    MarkedPhase(st, Held, c.kind, c.reason);
    PhaseDispatch(WithCondition(st, c.kind, c.reason), Marked(Held, c.kind).value);
    hide SetCondition;
  }

  lemma HeldIsCounted(c: Cluster, now: Now)
    requires HoldsIn(World(c, now), Held)
    ensures InPhase(c.stored.status, Held) && c.stored.status.count == 1 && !c.stored.spec.schedule.cron.BadCron?
  {
  }

  /** Inside the window a reconcile changes nothing and comes back when the window ends, at the latest in an hour. */
  lemma HeldInside(c: Cluster, now: Now, end: Time)
    requires Serving(c, now, Held) && EndsAt(c, now, end) && now <= end
    ensures Reconcile(c, now, NoFaults(c)) == (c, After(Clamp(end - now)))
  {
    hide HoldsIn, CurrentWindow, Reconcile, Process;
    ServingDispatches(c, now, Held, NoFaults(c));
    HeldIsCounted(c, now);
    HeldMemory(c.stored.spec.schedule, c.stored.status, now);
    assert !Process(c.stored.spec.schedule, c.stored.status, now).failed;
  }

  /** Past the window a reconcile revokes. */
  lemma HeldOver(c: Cluster, now: Now, end: Time)
    requires Serving(c, now, Held) && EndsAt(c, now, end) && end < now && end != ZERO
    ensures WindowOver(c.stored.spec.schedule, c.stored.status, now)
    ensures var after := Reconcile(c, now, NoFaults(c)).0;
            && after.objects == Erased(c.stored.id, c.objects)
            && after == HandleRecurringActive(c, c.stored, now, NoFaults(c)).cluster
    ensures c.stored.spec.schedule.cron.NoCron? ==> Reconcile(c, now, NoFaults(c)).1 == Done
  {
    hide HoldsIn, SetCondition, Reconcile, Process;
    ServingDispatches(c, now, Held, NoFaults(c));
    hide CurrentWindow;
  }

  /** The reconciles from `left` seconds before a window's end to the revoke. */
  function HeldRuns(left: int): nat
    decreases if left < 0 then 0 else left + 1
  {
    if left < 0 then 1 else 1 + HeldRuns(left - Clamp(left))
  }

  lemma {:induction false} HeldRunsBound(left: int)
    ensures HeldRuns(left) <= if left < 0 then 1 else left / HOUR + 3
    decreases if left < 0 then 0 else left + 1
  {
    if left >= 0 {
      HeldRunsBound(left - Clamp(left));
      if MIN_REQUEUE <= left <= HOUR {
        assert HeldRuns(0) == 2;
      }
    }
  }

  /** Held access is revoked within 30 seconds of its window's end, after exactly this many reconciles. */
  lemma {:induction false} HeldDrive(c: Cluster, now: Now, end: Time)
    requires Serving(c, now, Held) && EndsAt(c, now, end) && end != ZERO
    ensures var (after, t) := Drive(c, now, HeldRuns(end - now));
            && now <= t && end < t <= (if now <= end then end + MIN_REQUEUE else now)
            && WindowOver(c.stored.spec.schedule, c.stored.status, t)
            && after.objects == Erased(c.stored.id, c.objects)
            && after == HandleRecurringActive(c, c.stored, t, NoFaults(c)).cluster
    decreases if now <= end then end - now + 1 else 0
  {
    hide Reconcile, HandleRecurringActive, CurrentWindow, HoldsIn, ScheduleAccepted;
    if now <= end {
      HeldInside(c, now, end);
      assert Fire(c, now) == (c, Some(Clamp(end - now)));
      ServingLater(c, now, Clamp(end - now), Held);
      HeldDrive(c, now + Clamp(end - now), end);
    } else {
      HeldOver(c, now, end);
      assert HeldRuns(end - now) == 1;
    }
  }

  lemma ServingLater(c: Cluster, now: Now, d: nat, p: Phase)
    requires Serving(c, now, p)
    ensures Serving(c, now + d, p)
  {
    hide Clean, NoDangling, RecordsHold, InPhase;
  }

  // ----- The grant -----

  /** The schedule is due once the request is processed. */
  predicate DueNow(r: Resource, now: Now) {
    var m := Process(r.spec.schedule, r.status, now);
    !m.failed && Due(r.spec.schedule, m.status, now)
  }

  /** A due grant that nothing disturbs is complete, stored, and looked at again when its window ends. */
  lemma GrantSucceeds(c: Cluster, now: Now)
    requires Serving(c, now, Scheduled) && DueNow(c.stored, now)
    ensures var (after, delay) := Fire(c, now);
            var window := CurrentWindow(c.stored.spec.schedule, Process(c.stored.spec.schedule, c.stored.status, now).status, now);
            && Serving(after, now, Held)
            && after.stored.spec == c.stored.spec && after.stored.id == c.stored.id
            && after.stored.status.grantedAt == Some(now)
            && Complete(c.stored.id, c.stored.spec, after.objects)
            && delay == if window.Some? then Some(Clamp(Until(window.value.end, now))) else None
  {
    hide Process, GrantAccess, CurrentWindow, Reconcile, Clean, NoDangling, Complete, Perpetual, CalculateNext, Plan,
      InsideSomeWindow, InPhase;
    var ch, s := NoFaults(c), c.stored.spec.schedule;
    var bg := c.stored.(status := Process(s, c.stored.status, now).status);
    DueIsScheduled(c.stored, now);
    UndisturbedGrant(c, bg, now);
    AttemptKeeps(c, bg, ch.effort, ch.index, now);
    GrantCompletes(c, bg, ch.effort, ch.index);
    var g := GrantAccess(c, bg, ch.effort, ch.index);
    GrantedIsHeld(c.stored.(status := g.status), now);
    GrantFires(c, bg, now, g);
  }

  lemma UndisturbedGrant(c: Cluster, bg: Resource, now: Now)
    requires c.live && bg.id == c.stored.id && bg.spec == c.stored.spec && bg.status.created == c.stored.status.created
    ensures var g := GrantAccess(c, bg, NoFaults(c).effort, NoFaults(c).index);
            g.err.None? && g.status.nextAt == bg.status.nextAt && g.cluster.live
  {
    assert Plan(bg) == Plan(c.stored);
    hide Plan;
  }

  lemma GrantFires(c: Cluster, bg: Resource, now: Now, g: Granted)
    requires Serving(c, now, Scheduled) && DueNow(c.stored, now)
    requires bg == c.stored.(status := Process(c.stored.spec.schedule, c.stored.status, now).status)
    requires g == GrantAccess(c, bg, NoFaults(c).effort, NoFaults(c).index)
    requires g.err.None? && g.status.nextAt == bg.status.nextAt && g.cluster.live
    requires g.cluster.stored == c.stored.(status := g.cluster.stored.status)
    ensures var s := c.stored.spec.schedule;
            var window := CurrentWindow(s, bg.status, now);
            Fire(c, now) ==
            (g.cluster.(stored := c.stored.(status := GrantedStatus(s, g.status, now))),
             if window.Some? then Some(Clamp(Until(window.value.end, now))) else None)
  {
    hide Process, GrantAccess, CurrentWindow, HoldsIn, Due, SetCondition, Reconcile;
    var s := c.stored.spec.schedule;
    ServingDispatches(c, now, Scheduled, NoFaults(c));
    StartIsSet(c, now);
    NotBad(c.stored, now);
    SameWindow(s, bg.status, g.status, now);
    assert Dispatch(c, c.stored, now, NoFaults(c)) == GrantAndActivate(c, bg, now, NoFaults(c));
    GrantAnswers(c, bg, now, g);
    hide Dispatch, GrantAndActivate;
  }

  lemma NotBad(r: Resource, now: Now)
    requires DueNow(r, now)
    ensures !r.spec.schedule.cron.BadCron?
  {
  }

  lemma GrantAnswers(c: Cluster, bg: Resource, now: Now, g: Granted)
    requires g == GrantAccess(c, bg, NoFaults(c).effort, NoFaults(c).index)
    requires g.err.None? && g.cluster.live && !bg.spec.schedule.cron.BadCron?
    requires g.cluster.stored == c.stored.(status := g.cluster.stored.status)
    ensures var s := bg.spec.schedule;
            var approver := if g.status.approvedBy == "" then DEFAULT_APPROVER else g.status.approvedBy;
            var window := CurrentWindow(s, g.status.(approvedBy := approver, grantedAt := Some(now), expiresAt := None), now);
            var o := GrantAndActivate(c, bg, now, NoFaults(c));
            && o.cluster == g.cluster.(stored := c.stored.(status := GrantedStatus(s, g.status, now)))
            && o.result == if window.Some? then After(Clamp(Until(window.value.end, now))) else Done
  {
    hide GrantAccess, CurrentWindow, SetCondition;
  }

  lemma StartIsSet(c: Cluster, now: Now)
    requires Serving(c, now, Scheduled)
    ensures c.stored.spec.schedule.start != ZERO
  {
  }

  /** The window at a grant is the one the due schedule has in memory. */
  lemma SameWindow(s: ScheduleSpec, st: Status, granted: Status, now: Now)
    requires st.nextAt == granted.nextAt && s.start != ZERO
    ensures var approver := if granted.approvedBy == "" then DEFAULT_APPROVER else granted.approvedBy;
            CurrentWindow(s, granted.(approvedBy := approver, grantedAt := Some(now), expiresAt := None), now) ==
            CurrentWindow(s, st, now)
  {
  }

  // ----- A finite one-shot, from creation to expiry -----

  ghost predicate FiniteOneShot(r: Resource) {
    var s := r.spec.schedule;
    && s.cron.NoCron? && s.start != ZERO && s.duration > 0
    && (s.maxActivations.Some? ==> s.maxActivations.value >= 1)
    && Cleared(r)
  }

  /** Before its start a one-shot changes nothing and comes back at its start, at the latest in an hour. */
  lemma OneShotEarly(c: Cluster, now: Now)
    requires Serving(c, now, Scheduled) && FiniteOneShot(c.stored) && now < c.stored.spec.schedule.start
    ensures Fire(c, now) == (c, Some(Clamp(c.stored.spec.schedule.start - now)))
  {
    ServingDispatches(c, now, Scheduled, NoFaults(c));
    assert c.stored.status.count == 0;
    hide ObjectsHold, SetCondition, Reconcile;
  }

  /** A one-shot is due exactly from its start on, even after its window has ended. */
  lemma OneShotDue(c: Cluster, now: Now)
    requires Serving(c, now, Scheduled) && FiniteOneShot(c.stored)
    ensures DueNow(c.stored, now) <==> c.stored.spec.schedule.start <= now
    ensures CurrentWindow(c.stored.spec.schedule, Process(c.stored.spec.schedule, c.stored.status, now).status, now) ==
            Some(Window(c.stored.spec.schedule.start, c.stored.spec.schedule.start + c.stored.spec.schedule.duration))
  {
    hide ObjectsHold, SetCondition;
  }

  /** The reconciles from a scheduled one-shot to its expiry. */
  function OneShotRuns(now: Now, start: Time, duration: nat): nat
    decreases if now < start then start - now else 0
  {
    if now < start then 1 + OneShotRuns(now + Clamp(start - now), start, duration)
    else
      var end := start + duration;
      1 + HeldRuns(end - (now + Clamp(Until(end, now))))
  }

  lemma {:induction false} OneShotRunsBound(now: Now, start: Time, duration: nat)
    ensures OneShotRuns(now, start, duration) <= (if now < start then (start - now) / HOUR + 1 else 0) + duration / HOUR + 4
    decreases if now < start then start - now else 0
  {
    if now < start {
      OneShotRunsBound(now + Clamp(start - now), start, duration);
    } else {
      var end := start + duration;
      var left := end - (now + Clamp(Until(end, now)));
      HeldRunsBound(left);
      assert left <= duration;
      assert left >= 0 ==> left / HOUR <= duration / HOUR;
    }
  }

  /** How a finite one-shot that was scheduled at `from` ends. */
  ghost predicate ExpiredInTime(c: Cluster, t: Now, from: Now) {
    var s, st := c.stored.spec.schedule, c.stored.status;
    var end := s.start + s.duration;
    && CurrentCondition(st.conditions) == Expired
    && Own(c.stored.id, c.objects) == {}
    && st.expiresAt == Some(end)
    && st.grantedAt.Some?
    && var granted := st.grantedAt.value;
       && s.start <= granted < (if from < s.start + MIN_REQUEUE then s.start + MIN_REQUEUE else from + 1)
       && end < t <= (if granted <= end then end else granted) + MIN_REQUEUE
  }

  lemma OneShotEnds(c: Cluster, now: Now)
    requires Serving(c, now, Held) && FiniteOneShot(c.stored)
    ensures EndsAt(c, now, c.stored.spec.schedule.start + c.stored.spec.schedule.duration)
  {
  }

  /** The revoke of a finite one-shot is its expiry. */
  lemma OneShotRevoked(c: Cluster, now: Now)
    requires Serving(c, now, Held) && FiniteOneShot(c.stored)
    requires WindowOver(c.stored.spec.schedule, c.stored.status, now)
    ensures var after := HandleRecurringActive(c, c.stored, now, NoFaults(c)).cluster;
            && after.stored.spec == c.stored.spec && after.stored.id == c.stored.id
            && CurrentCondition(after.stored.status.conditions) == Expired
            && Own(c.stored.id, after.objects) == {}
            && after.stored.status.grantedAt == c.stored.status.grantedAt
            && after.stored.status.expiresAt == Some(c.stored.spec.schedule.start + c.stored.spec.schedule.duration)
  {
    var ch := NoFaults(c);
    ErasedIsSwept(c.stored.id, c.objects);
    RevokeOutcome(World(c, now), c.stored, ch);
    hide HoldsIn, SetCondition, Own, Swept;
    assert Loaded(c, c.stored);
  }

  lemma {:induction false} OneShotDrive(c: Cluster, now: Now, from: Now)
    requires Serving(c, now, Scheduled) && FiniteOneShot(c.stored)
    requires now == from || from < now < c.stored.spec.schedule.start + MIN_REQUEUE
    ensures var s := c.stored.spec.schedule;
            var (after, t) := Drive(c, now, OneShotRuns(now, s.start, s.duration));
            ExpiredInTime(after, t, from) && after.stored.spec == c.stored.spec && after.stored.id == c.stored.id
    decreases if now < c.stored.spec.schedule.start then c.stored.spec.schedule.start - now else 0
  {
    hide Serving, CurrentWindow, Process, Fire, WindowOver, EndsAt, HandleRecurringActive, Own, Complete;
    var s := c.stored.spec.schedule;
    if now < s.start {
      OneShotEarly(c, now);
      var d := Clamp(s.start - now);
      ServingLater(c, now, d, Scheduled);
      OneShotDrive(c, now + d, from);
      OneShotRunsPositive(now + d, s.start, s.duration);
    } else {
      OneShotDue(c, now);
      GrantSucceeds(c, now);
      var end: Time := s.start + s.duration;
      var d := Clamp(Until(end, now));
      var (held, delay) := Fire(c, now);
      assert delay == Some(d);
      HeldCleared(held, now);
      OneShotTail(held, now, d);
    }
  }

  lemma OneShotRunsPositive(now: Now, start: Time, duration: nat)
    ensures OneShotRuns(now, start, duration) > 0
  {
  }

  lemma HeldCleared(c: Cluster, now: Now)
    requires Serving(c, now, Held)
    ensures Cleared(c.stored)
  {
    hide ObjectsHold;
  }

  /** From the grant to the expiry. */
  lemma OneShotTail(held: Cluster, granted: Now, d: nat)
    requires Serving(held, granted, Held) && FiniteOneShot(held.stored)
    requires held.stored.status.grantedAt == Some(granted) && held.stored.spec.schedule.start <= granted
    requires var s := held.stored.spec.schedule; d == Clamp(Until(s.start + s.duration, granted))
    ensures var s := held.stored.spec.schedule;
            var end := s.start + s.duration;
            var runs := HeldRuns(end - (granted + d));
            && runs > 0
            && var (after, t) := Drive(held, granted + d, runs);
               && after.stored.spec == held.stored.spec && after.stored.id == held.stored.id
               && CurrentCondition(after.stored.status.conditions) == Expired
               && Own(held.stored.id, after.objects) == {}
               && after.stored.status.expiresAt == Some(end)
               && after.stored.status.grantedAt == Some(granted)
               && end < t <= (if granted <= end then end else granted) + MIN_REQUEUE
  {
    hide Fire, CurrentWindow, HandleRecurringActive, HoldsIn;
    var s := held.stored.spec.schedule;
    var end: Time := s.start + s.duration;
    var now := granted + d;
    ServingLater(held, granted, d, Held);
    OneShotEnds(held, now);
    HeldDrive(held, now, end);
    var (after, t) := Drive(held, now, HeldRuns(end - now));
    ServingLater(held, now, t - now, Held);
    OneShotRevoked(held, t);
  }

  /** A bound on the reconciles of a finite one-shot, from its creation to its expiry. */
  function OneShotBound(now: Now, start: Time, duration: nat): nat {
    (if now < start then (start - now) / HOUR + 1 else 0) + duration / HOUR + 7
  }

  /** The three reconciles that add the finalizer, then Pending, then RecurringPending. */
  lemma Admission(c: Cluster, now: Now)
    requires HoldsIn(World(c, now), New) && c.live && !c.stored.deleting && !c.stored.finalizer
    requires FiniteOneShot(c.stored)
    ensures var c1 := Fire(c, now).0;
            var c2 := Fire(c1, now).0;
            var c3 := Fire(c2, now).0;
            && Fire(c, now).1 == Fire(c1, now).1 == Fire(c2, now).1 == Some(0)
            && Serving(c3, now, Scheduled) && FiniteOneShot(c3.stored)
            && c3.stored.spec == c.stored.spec && c3.stored.id == c.stored.id
  {
    FinalizerAdded(c, now);
    var c1 := Fire(c, now).0;
    PendingStored(c1, now, New);
    var c2 := Fire(c1, now).0;
    PendingStored(c2, now, Waiting);
  }

  lemma FinalizerAdded(c: Cluster, now: Now)
    requires HoldsIn(World(c, now), New) && c.live && !c.stored.deleting && !c.stored.finalizer
    requires FiniteOneShot(c.stored)
    ensures Fire(c, now) == (c.(stored := c.stored.(finalizer := true)), Some(0))
    ensures Serving(Fire(c, now).0, now, New) && FiniteOneShot(Fire(c, now).0.stored)
  {
    hide Dispatch;
    assert Reconcile(c, now, NoFaults(c)).0 == c.(stored := c.stored.(finalizer := true));
  }

  lemma PendingStored(c: Cluster, now: Now, p: Phase)
    requires Serving(c, now, p) && FiniteOneShot(c.stored) && (p == New || p == Waiting)
    ensures var after := Fire(c, now).0;
            && Fire(c, now).1 == Some(0)
            && Serving(after, now, if p == New then Waiting else Scheduled)
            && FiniteOneShot(after.stored) && after.stored.spec == c.stored.spec && after.stored.id == c.stored.id
            && after.stored.status.created == c.stored.status.created
  {
    ServingDispatches(c, now, p, NoFaults(c));
    var ch := NoFaults(c);
    var kind := if p == New then Pending else RecurringPending;
    var reason := if p == New then NewResource else RecurringWaiting;
    assert Cleared(c.stored);
    assert c.stored.status.conditions == [] <==> p == New;
    MarkedPhase(c.stored.status, p, kind, reason);
    var marked := WithCondition(c.stored.status, kind, reason);
    assert Fire(c, now) == (c.(stored := c.stored.(status := marked)), Some(0)) by {
      hide HoldsIn, SetCondition;
    }
  }

  /**
   * A finite one-shot that needs no approval, or has it, expires within a bounded number of
   * fault-free reconciles: granted no earlier than its start, its objects gone within 30 seconds
   * of its end, or of its grant if that came later, and the recorded expiry exactly its end.
   */
  lemma OneShotExpires(c: Cluster, now: Now)
    requires HoldsIn(World(c, now), New) && c.live && !c.stored.deleting && !c.stored.finalizer
    requires FiniteOneShot(c.stored)
    ensures var s := c.stored.spec.schedule;
            var runs := 3 + OneShotRuns(now, s.start, s.duration);
            var (after, t) := Drive(c, now, runs);
            && runs <= OneShotBound(now, s.start, s.duration)
            && after.stored.spec == c.stored.spec && after.stored.id == c.stored.id
            && ExpiredInTime(after, t, now)
  {
    hide Fire, Serving, HoldsIn, ExpiredInTime;
    var s := c.stored.spec.schedule;
    Admission(c, now);
    var c1 := Fire(c, now).0;
    var c2 := Fire(c1, now).0;
    var c3 := Fire(c2, now).0;
    var runs := OneShotRuns(now, s.start, s.duration);
    OneShotRunsPositive(now, s.start, s.duration);
    OneShotRunsBound(now, s.start, s.duration);
    OneShotDrive(c3, now, now);
    assert Drive(c2, now, runs + 1) == Drive(c3, now, runs);
    assert Drive(c1, now, runs + 2) == Drive(c2, now, runs + 1);
    assert Drive(c, now, runs + 3) == Drive(c1, now, runs + 2);
  }

  // ----- Recovery: from any state of any run, once faults stop -----

  /** A finite one-shot has come to its end, at most 30 seconds late. */
  ghost predicate Settled(c: Cluster, t: Now, from: Now) {
    var s, st := c.stored.spec.schedule, c.stored.status;
    var end := s.start + s.duration;
    && CurrentCondition(st.conditions) == Expired
    && Own(c.stored.id, c.objects) == {}
    && st.expiresAt == Some(end) && st.grantedAt.Some?
    && end < t
    && (t <= end + MIN_REQUEUE || t <= st.grantedAt.value + MIN_REQUEUE || t == from)
  }

  lemma SettledByDrive(c: Cluster, t: Now, from: Now)
    requires ExpiredInTime(c, t, from)
    ensures Settled(c, t, from)
  {
  }

  /** From any state with no grant yet and the finalizer stored: at most two admission steps come first. */
  lemma AdmittedSettles(c: Cluster, now: Now, p: Phase) returns (runs: nat)
    requires Serving(c, now, p) && FiniteOneShot(c.stored) && (p == New || p == Waiting || p == Scheduled)
    ensures var s := c.stored.spec.schedule;
            0 < runs <= OneShotRuns(now, s.start, s.duration) + (if p == New then 2 else if p == Waiting then 1 else 0)
    ensures var (after, t) := Drive(c, now, runs);
            after.stored.spec == c.stored.spec && Settled(after, t, now)
    decreases if p == New then 2 else if p == Waiting then 1 else 0
  {
    hide Fire, Serving, ExpiredInTime, Settled, FiniteOneShot;
    var s := c.stored.spec.schedule;
    if p == Scheduled {
      PositiveDuration(c.stored);
      runs := OneShotRuns(now, s.start, s.duration);
      OneShotRunsPositive(now, s.start, s.duration);
      OneShotDrive(c, now, now);
      var (after, t) := Drive(c, now, runs);
      SettledByDrive(after, t, now);
    } else {
      PendingStored(c, now, p);
      var later := AdmittedSettles(Fire(c, now).0, now, if p == New then Waiting else Scheduled);
      runs := later + 1;
      assert Drive(c, now, runs) == Drive(Fire(c, now).0, now, later);
    }
  }

  lemma PositiveDuration(r: Resource)
    requires FiniteOneShot(r)
    ensures r.spec.schedule.duration > 0
  {
  }

  lemma HeldSettles(c: Cluster, now: Now) returns (runs: nat)
    requires Serving(c, now, Held) && FiniteOneShot(c.stored)
    ensures runs <= c.stored.spec.schedule.duration / HOUR + 3
    ensures var (after, t) := Drive(c, now, runs);
            after.stored.spec == c.stored.spec && Settled(after, t, now)
  {
    hide Fire, CurrentWindow, HandleRecurringActive;
    var s := c.stored.spec.schedule;
    var end: Time := s.start + s.duration;
    OneShotEnds(c, now);
    HeldDrive(c, now, end);
    runs := HeldRuns(end - now);
    HeldRunsBound(end - now);
    assert s.start <= now;
    var (after, t) := Drive(c, now, runs);
    ServingLater(c, now, t - now, Held);
    OneShotRevoked(c, t);
  }

  /**
   * From every reachable state of a finite one-shot that is cleared and has not failed for good,
   * whatever faults came before, fault-free reconciles bring it to its expiry within the bound.
   */
  lemma OneShotRecovers(worlds: seq<World>, steps: seq<Step>, i: nat) returns (runs: nat)
    requires Run(worlds, steps) && i < |worlds|
    requires var c := worlds[i].cluster;
             && c.live && !c.stored.deleting && FiniteOneShot(c.stored)
             && CurrentCondition(c.stored.status.conditions) != Failed
    ensures var c, now := worlds[i].cluster, worlds[i].now;
            var s := c.stored.spec.schedule;
            && runs <= OneShotBound(now, s.start, s.duration)
            && var (after, t) := Drive(c, now, runs);
               after.stored.spec == c.stored.spec && Settled(after, t, now)
  {
    hide Run, Fire, OneShotRuns, CurrentWindow;
    var c, now := worlds[i].cluster, worlds[i].now;
    var s := c.stored.spec.schedule;
    var p := StatusOf(worlds, steps, i);
    OneShotRunsBound(now, s.start, s.duration);
    if p == New && !c.stored.finalizer {
      OneShotExpires(c, now);
      runs := 3 + OneShotRuns(now, s.start, s.duration);
      var (after, t) := Drive(c, now, runs);
      SettledByDrive(after, t, now);
    } else if p == Held {
      runs := HeldSettles(c, now);
    } else if p == Ended {
      runs := 0;
    } else {
      runs := AdmittedSettles(c, now, p);
    }
  }
}
