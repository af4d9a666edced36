/** Every one of the seven sequences of condition types is stored by some run. */
module Reachability {
  import opened Options
  import opened Schedules
  import opened Resources
  import opened Windows
  import opened Recurring
  import opened Api
  import opened Rbac
  import opened RbacProofs
  import opened Lifecycle
  import opened Safety
  import opened Theorems
  import opened Timing

  /** A run leads from `first` to a state that stores these condition types. */
  ghost predicate Reaches(first: World, kinds: seq<ConditionType>) {
    exists worlds: seq<World>, steps: seq<Step> :: Run(worlds, steps) && Leads(worlds, first, kinds)
  }

  ghost predicate Leads(worlds: seq<World>, first: World, kinds: seq<ConditionType>) {
    |worlds| > 0 && worlds[0] == first && Kinds(worlds[|worlds| - 1].cluster.stored.status.conditions) == kinds
  }

  /** A run to a cluster, at the instant it started. */
  ghost predicate RunsTo(worlds: seq<World>, steps: seq<Step>, first: World, c: Cluster) {
    Run(worlds, steps) && worlds[0] == first && worlds[|worlds| - 1] == World(c, first.now)
  }

  lemma ReconcileOnce(worlds: seq<World>, steps: seq<Step>, first: World, c: Cluster, ch: Choices)
    returns (worlds': seq<World>, steps': seq<Step>)
    requires RunsTo(worlds, steps, first, c) && Possible(c, ch)
    ensures RunsTo(worlds', steps', first, Reconcile(c, first.now, ch).0)
  {
    hide Reconcile, Possible, Initial;
    steps' := steps + [Reconciled(ch)];
    worlds' := worlds + [World(Reconcile(c, first.now, ch).0, first.now)];
    forall i | 0 <= i < |steps'|
      ensures Allowed(worlds'[i], steps'[i]) && worlds'[i + 1] == Move(worlds'[i], steps'[i])
    {
      if i < |steps| {
        assert Allowed(worlds[i], steps[i]) && worlds[i + 1] == Move(worlds[i], steps[i]);
      }
    }
  }

  lemma FireOnce(worlds: seq<World>, steps: seq<Step>, first: World, c: Cluster)
    returns (worlds': seq<World>, steps': seq<Step>)
    requires RunsTo(worlds, steps, first, c)
    ensures RunsTo(worlds', steps', first, Fire(c, first.now).0)
  {
    NoFaultsPossible(c);
    worlds', steps' := ReconcileOnce(worlds, steps, first, c, NoFaults(c));
    hide RunsTo, Reconcile;
  }

  lemma HasReached(worlds: seq<World>, steps: seq<Step>, first: World, c: Cluster, p: Phase)
    requires RunsTo(worlds, steps, first, c) && InPhase(c.stored.status, p)
    ensures Reaches(first, Types(p))
  {
    assert Leads(worlds, first, Types(p));
  }

  /** The grant of a one-shot with something to create can fail for good. */
  lemma GrantCanAbort(c: Cluster, now: Now)
    requires Serving(c, now, Scheduled) && FiniteOneShot(c.stored) && c.stored.spec.schedule.start <= now
    requires Plan(c.stored) != []
    ensures var ch := NoFaults(c).(effort := Effort(0, Rejected));
            Possible(c, ch) && InPhase(Reconcile(c, now, ch).0.stored.status, GrantAborted)
  {
    hide HoldsIn, Possible, Reconcile, InPhase, Process, Plan, Dispatch, GrantAndActivate, DueNow;
    var ch := NoFaults(c).(effort := Effort(0, Rejected));
    GrantFaultPossible(c, ch.effort);
    OneShotDue(c, now);
    var bg := c.stored.(status := Process(c.stored.spec.schedule, c.stored.status, now).status);
    DueToGrant(c, now, ch);
    PlanIgnoresRest(bg, c.stored);
    AbortsAtOnce(c, bg, now, ch);
  }

  lemma GrantFaultPossible(c: Cluster, effort: Effort)
    requires effort.fault != AlreadyExists
    ensures Possible(c, NoFaults(c).(effort := effort))
  {
    hide Swept;
    NoFaultsPossible(c);
  }

  lemma DueToGrant(c: Cluster, now: Now, ch: Choices)
    requires Serving(c, now, Scheduled) && DueNow(c.stored, now) && ch.read
    ensures var bg := c.stored.(status := Process(c.stored.spec.schedule, c.stored.status, now).status);
            && Reconcile(c, now, ch).0 == GrantAndActivate(c, bg, now, ch).cluster
            && InPhase(bg.status, Scheduled) && bg.status.created == c.stored.status.created
  {
    hide Process, Reconcile, GrantAndActivate, Dispatch;
    ServingDispatches(c, now, Scheduled, ch);
    StartIsSet(c, now);
    DueIsScheduled(c.stored, now);
    DueGrants(c, c.stored, now, ch);
  }

  lemma AbortsAtOnce(c: Cluster, bg: Resource, now: Now, ch: Choices)
    requires c.live && InPhase(bg.status, Scheduled) && Plan(bg) != [] && ch.effort == Effort(0, Rejected) && ch.status.None?
    ensures InPhase(GrantAndActivate(c, bg, now, ch).cluster.stored.status, GrantAborted)
  {
    hide Plan, SetCondition, CurrentWindow;
    MarkedPhase(bg.status, Scheduled, Failed, RBACCreationFailed);
  }

  /** The revoke of held access whose window is over can fail for good. */
  lemma RevokeCanAbort(c: Cluster, now: Now, end: Time)
    requires Serving(c, now, Held) && EndsAt(c, now, end) && ZERO != end < now
    ensures var ch := NoFaults(c).(revoke := Sweep(c.objects, Some(RbacError(false, Rejected))));
            Possible(c, ch) && InPhase(Reconcile(c, now, ch).0.stored.status, RevokeAborted)
  {
    hide HoldsIn, Reconcile, InPhase, Dispatch, HandleRecurringActive, CurrentWindow, EndsAt, WindowOver;
    var ch := NoFaults(c).(revoke := Sweep(c.objects, Some(RbacError(false, Rejected))));
    assert Swept(c.stored.id, c.objects, ch.revoke.left, ch.revoke.err);
    HeldOver(c, now, end);
    ServingDispatches(c, now, Held, ch);
    DispatchesActive(c, now, ch);
    HeldIsCounted(c, now);
    StopsRevoking(c, now, ch);
  }

  lemma DispatchesActive(c: Cluster, now: Now, ch: Choices)
    requires CurrentCondition(c.stored.status.conditions) == RecurringActive
    ensures Dispatch(c, c.stored, now, ch) == HandleRecurringActive(c, c.stored, now, ch)
  {
    hide HandleRecurringActive;
  }

  lemma StopsRevoking(c: Cluster, now: Now, ch: Choices)
    requires c.live && InPhase(c.stored.status, Held) && ch.status.None?
    requires WindowOver(c.stored.spec.schedule, c.stored.status, now)
    requires ch.revoke.err == Some(RbacError(false, Rejected))
    ensures InPhase(HandleRecurringActive(c, c.stored, now, ch).cluster.stored.status, RevokeAborted)
  {
    hide SetCondition, CurrentWindow, PostRevoke, Process;
    MarkedPhase(c.stored.status, Held, Failed, RevokeFailed);
  }

  lemma PlanNotEmpty(r: Resource)
    requires r.status.created == [] && r.spec.clusterRoles != []
    ensures Plan(r) != []
  {
    ClusterRolePlanSound(r.id, r.spec, r.status.created, |r.spec.clusterRoles|);
    assert ClusterRoleItem(r.id, r.spec, r.spec.clusterRoles[0]) in
           ClusterRolePlan(r.id, r.spec, r.status.created, |r.spec.clusterRoles|);
  }

  /** From the creation of an overdue one-shot that needs no approval, all seven sequences can be reached. */
  lemma AllSequencesReached(c: Cluster, now: Now)
    requires Initial(World(c, now)) && FiniteOneShot(c.stored) && c.stored.spec.clusterRoles != []
    requires c.stored.spec.schedule.start + c.stored.spec.schedule.duration < now
    ensures forall kinds | kinds in TYPE_SEQUENCES :: Reaches(World(c, now), kinds)
  {
    hide Initial, Serving, RunsTo, FiniteOneShot, Reaches;
    var worlds, steps, c3 := Admitted(c, now);
    ScheduledReaches(worlds, steps, World(c, now), c3);
    assert forall kinds | kinds in TYPE_SEQUENCES ::
        kinds == Types(New) || kinds == Types(Waiting) || kinds == Types(Scheduled) || kinds == Types(Held) ||
        kinds == Types(GrantAborted) || kinds == Types(RevokeAborted) || kinds == Types(Ended);
  }

  lemma Admitted(c: Cluster, now: Now) returns (worlds: seq<World>, steps: seq<Step>, c3: Cluster)
    requires Initial(World(c, now)) && FiniteOneShot(c.stored)
    ensures RunsTo(worlds, steps, World(c, now), c3) && Serving(c3, now, Scheduled) && FiniteOneShot(c3.stored)
    ensures c3.stored.spec == c.stored.spec && c3.stored.status.created == []
    ensures Reaches(World(c, now), Types(New)) && Reaches(World(c, now), Types(Waiting))
    ensures Reaches(World(c, now), Types(Scheduled))
  {
    hide HoldsIn, Initial, Serving, Fire, RunsTo, InPhase, FiniteOneShot, Reaches;
    var first := World(c, now);
    worlds, steps := [first], [];
    InitialHolds(first);
    Fresh(first);
    HasReached(worlds, steps, first, c, New);
    FinalizerAdded(c, now);
    worlds, steps := FireOnce(worlds, steps, first, c);
    var c1 := Fire(c, now).0;
    PendingStored(c1, now, New);
    worlds, steps := FireOnce(worlds, steps, first, c1);
    var c2 := Fire(c1, now).0;
    ServingPhase(c2, now, Waiting);
    HasReached(worlds, steps, first, c2, Waiting);
    PendingStored(c2, now, Waiting);
    worlds, steps := FireOnce(worlds, steps, first, c2);
    c3 := Fire(c2, now).0;
    ServingPhase(c3, now, Scheduled);
    HasReached(worlds, steps, first, c3, Scheduled);
  }

  lemma Fresh(first: World)
    requires Initial(first)
    ensures RunsTo([first], [], first, first.cluster) && InPhase(first.cluster.stored.status, New)
    ensures var c := first.cluster; c.live && !c.stored.deleting && !c.stored.finalizer && c.stored.status.created == []
  {
  }

  lemma ServingPhase(c: Cluster, now: Now, p: Phase)
    requires Serving(c, now, p)
    ensures InPhase(c.stored.status, p)
  {
    hide ObjectsHold;
  }

  lemma ScheduledReaches(worlds: seq<World>, steps: seq<Step>, first: World, c: Cluster)
    requires RunsTo(worlds, steps, first, c) && Serving(c, first.now, Scheduled)
    requires FiniteOneShot(c.stored) && c.stored.spec.clusterRoles != [] && c.stored.status.created == []
    requires c.stored.spec.schedule.start + c.stored.spec.schedule.duration < first.now
    ensures Reaches(first, Types(GrantAborted)) && Reaches(first, Types(Held))
    ensures Reaches(first, Types(RevokeAborted)) && Reaches(first, Types(Ended))
  {
    hide HoldsIn, Serving, Fire, RunsTo, Possible, Reconcile, InPhase, EndsAt, DueNow, Plan, CurrentWindow, Process;
    var now := first.now;
    PlanNotEmpty(c.stored);
    GrantCanAbort(c, now);
    var aborted := NoFaults(c).(effort := Effort(0, Rejected));
    var worlds1, steps1 := ReconcileOnce(worlds, steps, first, c, aborted);
    HasReached(worlds1, steps1, first, Reconcile(c, now, aborted).0, GrantAborted);
    OneShotDue(c, now);
    GrantSucceeds(c, now);
    var worlds2, steps2 := FireOnce(worlds, steps, first, c);
    var held := Fire(c, now).0;
    ServingPhase(held, now, Held);
    HasReached(worlds2, steps2, first, held, Held);
    HeldCleared(held, now);
    HeldReaches(worlds2, steps2, first, held);
  }

  lemma HeldReaches(worlds: seq<World>, steps: seq<Step>, first: World, c: Cluster)
    requires RunsTo(worlds, steps, first, c) && Serving(c, first.now, Held) && FiniteOneShot(c.stored)
    requires c.stored.spec.schedule.start + c.stored.spec.schedule.duration < first.now
    ensures Reaches(first, Types(RevokeAborted)) && Reaches(first, Types(Ended))
  {
    hide HoldsIn, Serving, RunsTo, Possible, Reconcile, InPhase, EndsAt, CurrentWindow, WindowOver, HandleRecurringActive;
    var now := first.now;
    var end: Time := c.stored.spec.schedule.start + c.stored.spec.schedule.duration;
    OneShotEnds(c, now);
    RevokeCanAbort(c, now, end);
    var stuck := NoFaults(c).(revoke := Sweep(c.objects, Some(RbacError(false, Rejected))));
    var worlds1, steps1 := ReconcileOnce(worlds, steps, first, c, stuck);
    HasReached(worlds1, steps1, first, Reconcile(c, now, stuck).0, RevokeAborted);
    HeldOver(c, now, end);
    OneShotRevoked(c, now);
    var worlds2, steps2 := FireOnce(worlds, steps, first, c);
    EndedByRun(worlds2, steps2, first, Fire(c, now).0);
    HasReached(worlds2, steps2, first, Fire(c, now).0, Ended);
  }

  lemma EndedByRun(worlds: seq<World>, steps: seq<Step>, first: World, c: Cluster)
    requires RunsTo(worlds, steps, first, c) && CurrentCondition(c.stored.status.conditions) == Expired
    ensures InPhase(c.stored.status, Ended)
  {
    hide StatusHolds, ObjectsHold;
    var p := StatusOf(worlds, steps, |worlds| - 1);
    InPhaseOf(World(c, first.now), p);
  }
}
