/** Deletions: exactly when labelled objects outlive the resource, and an activation during one. */
module Deletion {
  import opened Options
  import opened Schedules
  import opened Resources
  import opened Windows
  import opened Recurring
  import opened Api
  import opened Rbac
  import opened RbacProofs
  import opened Lifecycle
  import opened Safety
  import opened Theorems
  import opened Timing
  import opened Reachability

  /**
   * The reconcile that removes the finalizer goes on to its handler, which still has a grant
   * to make: it is due, it has something to create, and at least one create goes through.
   */
  predicate GrantsOnExit(c: Cluster, now: Now, made: nat) {
    && CurrentCondition(c.stored.status.conditions) == RecurringPending
    && DueNow(c.stored, now) && Plan(c.stored) != [] && made > 0
  }

  /** A grant in a cluster without labelled objects adds some exactly if it makes a create. */
  lemma GrantLeaves(c: Cluster, bg: Resource, effort: Effort, index: Option<ApiError>)
    requires Clean(bg.id, bg.spec, c.objects) && Own(bg.id, c.objects) == {}
    ensures Own(bg.id, GrantAccess(c, bg, effort, index).cluster.objects) != {} <==> Plan(bg) != [] && effort.made > 0
  {
    hide Plan;
    var plan := Plan(bg);
    var made := if effort.made < |plan| then effort.made else |plan|;
    var objects := GrantAccess(c, bg, effort, index).cluster.objects;
    assert plan[..|plan|] == plan;
    assert objects == Build(c.objects, plan[..made]);
    PlanFacts(bg);
    GrantKeepsClean(c, bg, effort, index);
    if made > 0 {
      assert Sound(bg.id, bg.spec, plan[0]) && plan[0] in plan[..made];
      BuildContents(bg.id, bg.spec, c.objects, plan[..made]);
      OwnIsWanted(bg.id, bg.spec, objects);
      assert plan[0].key in Own(bg.id, objects);
    }
  }

  /** A resource ends only in a reconcile of its deletion whose cleanups both succeed. */
  lemma EndsByCleanup(c: Cluster, now: Now, ch: Choices)
    requires c.live && !Reconcile(c, now, ch).0.live
    ensures ch.read && ScheduleAccepted(c.stored.spec.schedule)
    ensures c.stored.deleting && !CleanupFailed(ch)
    ensures var bg := c.stored.(spec := Defaulted(c.stored.spec, now));
            ReconcileFinalizers(c, bg, ch).Go?
  {
    hide Dispatch, Defaulted, ScheduleAccepted;
    if ch.read && ScheduleAccepted(c.stored.spec.schedule) {
      var bg := c.stored.(spec := Defaulted(c.stored.spec, now));
      var f := ReconcileFinalizers(c, bg, ch);
      if f.Go? {
        HandlersKeepFinalizer(f.cluster, bg.(finalizer := f.cluster.stored.finalizer), now, ch);
      }
    }
  }

  /** The reconcile that ends the resource leaves labelled objects exactly if it goes on to grant. */
  lemma LastReconcile(w: World, ch: Choices, p: Phase)
    requires HoldsIn(w, p) && Possible(w.cluster, ch)
    requires w.cluster.live && !Reconcile(w.cluster, w.now, ch).0.live
    ensures Own(w.cluster.stored.id, Reconcile(w.cluster, w.now, ch).0.objects) != {} <==>
            GrantsOnExit(w.cluster, w.now, ch.effort.made)
  {
    hide HoldsIn, Possible, Dispatch, Process, Plan, Due, CleanupOnDelete;
    var c, r := w.cluster, w.cluster.stored;
    EndsByCleanup(c, w.now, ch);
    DispatchedByPhase(c, r, p, w.now);
    FinalizersKeep(w, ch, p);
    DeletionCleanupKeeps(w, ch, p);
    DeletingIsStarted(w, p);
    var f := ReconcileFinalizers(c, r, ch);
    var bg := r.(finalizer := f.cluster.stored.finalizer);
    assert Own(r.id, f.cluster.objects) == {};
    if p != Scheduled {
      var q := DispatchKeeps(f.cluster, bg, w.now, ch, p);
    } else if !DueNow(r, w.now) {
      NotDue(f.cluster, bg, w.now, ch);
    } else {
      LastGrant(f.cluster, bg, w.now, ch);
      PlanIgnoresRest(bg, r);
    }
  }

  lemma DeletingIsStarted(w: World, p: Phase)
    requires HoldsIn(w, p) && w.cluster.stored.deleting
    ensures w.cluster.stored.spec.schedule.start != ZERO
  {
    hide StatusHolds, Clean, NoDangling, RecordsHold, Own;
  }

  lemma LastGrant(c: Cluster, bg: Resource, now: Now, ch: Choices)
    requires HoldsIn(World(c, now), Scheduled) && Loaded(c, bg) && Own(bg.id, c.objects) == {}
    requires CurrentCondition(bg.status.conditions) == RecurringPending && DueNow(bg, now)
    ensures Own(bg.id, Dispatch(c, bg, now, ch).cluster.objects) != {} <==> Plan(bg) != [] && ch.effort.made > 0
  {
    hide Process, Plan, Due, Dispatch, GrantAndActivate, GrantAccess;
    var due := bg.(status := Process(bg.spec.schedule, bg.status, now).status);
    DueGrants(c, bg, now, ch);
    CleanHere(c, now);
    ProcessFrame(bg.spec.schedule, bg.status, now);
    PlanIgnoresRest(due, bg);
    GrantLeaves(c, due, ch.effort, ch.index);
    GrantKeepsBuilt(c, due, now, ch);
  }

  lemma CleanHere(c: Cluster, now: Now)
    requires HoldsIn(World(c, now), Scheduled)
    ensures Clean(c.stored.id, c.stored.spec, c.objects)
  {
  }

  /** Nothing the controller does once the resource has ended changes its labelled objects. */
  lemma {:induction false} EndedForGood(worlds: seq<World>, steps: seq<Step>, i: nat, j: nat)
    requires Run(worlds, steps) && i <= j < |worlds| && !worlds[i].cluster.live
    ensures !worlds[j].cluster.live && Access(worlds[j]) == Access(worlds[i])
  {
    hide Initial, Possible, Clean;
    if i < j {
      EndedForGood(worlds, steps, i, j - 1);
      assert Allowed(worlds[j - 1], steps[j - 1]) && worlds[j] == Move(worlds[j - 1], steps[j - 1]);
    }
  }

  /**
   * A deletion leaves nothing behind, then or ever after, if and only if the reconcile that
   * removes the finalizer does not also make a grant.
   */
  lemma DeletionIsCleanExactly(worlds: seq<World>, steps: seq<Step>, i: nat, j: nat)
    requires Run(worlds, steps) && i < j < |worlds| && steps[i].Reconciled?
    requires worlds[i].cluster.live && !worlds[i + 1].cluster.live
    ensures Access(worlds[j]) == {} <==> !GrantsOnExit(worlds[i].cluster, worlds[i].now, steps[i].ch.effort.made)
  {
    hide HoldsIn, Possible, Reconcile, Initial, GrantsOnExit;
    var p := StatusOf(worlds, steps, i);
    assert Allowed(worlds[i], steps[i]) && worlds[i + 1] == Move(worlds[i], steps[i]);
    LastReconcile(worlds[i], steps[i].ch, p);
    ReconcileKeepsIdentity(worlds[i].cluster, worlds[i].now, steps[i].ch);
    EndedForGood(worlds, steps, i + 1, j);
  }

  // ----- A run that does leave something behind -----

  lemma RequestOnce(worlds: seq<World>, steps: seq<Step>, first: World, c: Cluster)
    returns (worlds': seq<World>, steps': seq<Step>)
    requires RunsTo(worlds, steps, first, c) && c.live && c.stored.finalizer
    ensures RunsTo(worlds', steps', first, c.(stored := c.stored.(deleting := true)))
  {
    hide Initial;
    steps' := steps + [RequestDeletion];
    worlds' := worlds + [World(c.(stored := c.stored.(deleting := true)), first.now)];
    forall i | 0 <= i < |steps'|
      ensures Allowed(worlds'[i], steps'[i]) && worlds'[i + 1] == Move(worlds'[i], steps'[i])
    {
      if i < |steps| {
        assert Allowed(worlds[i], steps[i]) && worlds[i + 1] == Move(worlds[i], steps[i]);
      }
    }
  }

  /** Deleting a scheduled one-shot whose start has come ends it, without any fault, but leaves its access. */
  lemma DueDeletionGrants(c: Cluster, now: Now)
    requires Serving(c, now, Scheduled) && FiniteOneShot(c.stored) && c.stored.spec.schedule.start <= now
    requires c.stored.spec.clusterRoles != [] && c.stored.status.created == []
    ensures var going := c.(stored := c.stored.(deleting := true));
            && !Fire(going, now).0.live
            && Own(c.stored.id, Fire(going, now).0.objects) != {}
  {
    hide Plan, Process, Possible, Own, Clean, NoDangling, RecordsHold;
    var going := c.(stored := c.stored.(deleting := true));
    OneShotDue(c, now);
    PlanNotEmpty(going.stored);
    assert HoldsIn(World(going, now), Scheduled);
    NoFaultsPossible(going);
    FaultFreeDeletion(going, now);
    DispatchedByPhase(going, going.stored, Scheduled, now);
    hide HoldsIn, FiniteOneShot;
    LastReconcile(World(going, now), NoFaults(going), Scheduled);
  }

  lemma FaultFreeDeletion(c: Cluster, now: Now)
    requires c.live && c.stored.deleting && ScheduleAccepted(c.stored.spec.schedule)
    ensures !Reconcile(c, now, NoFaults(c)).0.live
  {
    hide Dispatch, Plan;
    var bg := c.stored.(spec := Defaulted(c.stored.spec, now));
    var f := ReconcileFinalizers(c, bg, NoFaults(c));
    HandlersKeepFinalizer(f.cluster, bg.(finalizer := f.cluster.stored.finalizer), now, NoFaults(c));
  }

  /** From the creation of a one-shot whose start has come, some run ends the resource and leaves its access. */
  lemma DeletionCanLeaveAccess(c: Cluster, now: Now) returns (worlds: seq<World>, steps: seq<Step>)
    requires Initial(World(c, now)) && FiniteOneShot(c.stored) && c.stored.spec.clusterRoles != []
    requires c.stored.spec.schedule.start <= now
    ensures Run(worlds, steps) && worlds[0] == World(c, now)
    ensures var last := worlds[|worlds| - 1]; !last.cluster.live && Access(last) != {}
  {
    hide Initial, FiniteOneShot, Fire, RunsTo, Reaches, Serving, Own;
    var first, c3 := World(c, now), c;
    worlds, steps, c3 := Admitted(c, now);
    ServingStays(c3, now);
    worlds, steps := RequestOnce(worlds, steps, first, c3);
    var going := c3.(stored := c3.stored.(deleting := true));
    DueDeletionGrants(c3, now);
    worlds, steps := FireOnce(worlds, steps, first, going);
    LeftOver(worlds, steps, first, Fire(going, now).0, going.stored.id);
  }

  lemma ServingStays(c: Cluster, now: Now)
    requires Serving(c, now, Scheduled)
    ensures c.live && c.stored.finalizer
    ensures Fire(c.(stored := c.stored.(deleting := true)), now).0.stored.id == c.stored.id
  {
    hide HoldsIn, Reconcile;
    var going := c.(stored := c.stored.(deleting := true));
    ReconcileKeepsIdentity(going, now, NoFaults(going));
  }

  lemma LeftOver(worlds: seq<World>, steps: seq<Step>, first: World, c: Cluster, id: Identity)
    requires RunsTo(worlds, steps, first, c) && !c.live && c.stored.id == id && Own(id, c.objects) != {}
    ensures Run(worlds, steps) && worlds[0] == first
    ensures var last := worlds[|worlds| - 1]; !last.cluster.live && Access(last) != {}
  {
  }

  // ----- A run that activates a resource being deleted, with nothing granted -----

  /** The last status update of the reconcile fails. */
  function UnstoredGrant(c: Cluster): Choices {
    NoFaults(c).(status := Some(Transient))
  }

  /** The deletion's first cleanup succeeds, and the second one cannot list its objects. */
  function HalfCleanup(c: Cluster): Choices {
    NoFaults(c).(sweep2 := Sweep(Erased(c.stored.id, c.objects), Some(Classified(Transient))))
  }

  lemma FaultsPossible(c: Cluster)
    ensures Possible(c, UnstoredGrant(c)) && Possible(c, HalfCleanup(c))
  {
    ErasedIsSwept(c.stored.id, c.objects);
    ErasedIsSwept(c.stored.id, Erased(c.stored.id, c.objects));
    NoFaultsPossible(c);
  }

  /** A due grant whose last status update fails is recorded and still scheduled. */
  lemma GrantIsRecorded(c: Cluster, now: Now)
    requires Serving(c, now, Scheduled) && FiniteOneShot(c.stored) && c.stored.spec.schedule.start <= now
    requires c.stored.spec.clusterRoles != [] && c.stored.status.created == []
    ensures var half := Reconcile(c, now, UnstoredGrant(c)).0;
            && Serving(half, now, Scheduled) && FiniteOneShot(half.stored)
            && half.stored.spec == c.stored.spec && half.stored.id == c.stored.id
            && half.stored.status.created == Names(Plan(c.stored))
  {
    hide Process, Plan, Reconcile, GrantAndActivate, Clean, NoDangling, RecordsHold, CurrentWindow;
    var ch := UnstoredGrant(c);
    var bg := c.stored.(status := Process(c.stored.spec.schedule, c.stored.status, now).status);
    OneShotDue(c, now);
    PlanNotEmpty(c.stored);
    DueToGrant(c, now, ch);
    DueIsScheduled(c.stored, now);
    AttemptKeeps(c, bg, ch.effort, ch.index, now);
    PlanIgnoresRest(bg, c.stored);
    StoresNames(c, bg, now, ch);
    HalfIsCleared(c, bg, now);
  }

  /** Processing leaves the approval as it is. */
  lemma HalfIsCleared(c: Cluster, bg: Resource, now: Now)
    requires bg == c.stored.(status := Process(c.stored.spec.schedule, c.stored.status, now).status)
    ensures bg.status.approvedBy == c.stored.status.approvedBy
  {
    ProcessFrame(c.stored.spec.schedule, c.stored.status, now);
  }

  lemma StoresNames(c: Cluster, bg: Resource, now: Now, ch: Choices)
    requires c.live && ch == UnstoredGrant(c) && Plan(bg) == Plan(c.stored) != [] && bg.status.created == []
    ensures GrantAndActivate(c, bg, now, ch).cluster ==
            c.(objects := Build(c.objects, Plan(bg)),
               stored := c.stored.(status := bg.status.(created := Names(Plan(bg)))))
    ensures GrantAndActivate(c, bg, now, ch).cluster == GrantAccess(c, bg, ch.effort, ch.index).cluster
  {
    hide Plan, CurrentWindow, SetCondition, Build;
    assert [] + Names(Plan(bg)) == Names(Plan(bg));
  }

  /** A reconcile whose cleanup fails half-way goes on to activate, although the cleanup took all there was. */
  lemma ActivatesNothing(c: Cluster, now: Now)
    requires Serving(c, now, Scheduled) && FiniteOneShot(c.stored) && c.stored.spec.schedule.start <= now
    requires Plan(c.stored) == []
    ensures var going := c.(stored := c.stored.(deleting := true));
            var after := Reconcile(going, now, HalfCleanup(going)).0;
            && after.live && after.stored.id == c.stored.id
            && CurrentCondition(after.stored.status.conditions) == RecurringActive
            && Own(c.stored.id, after.objects) == {}
  {
    hide Plan, Process, GrantAndActivate, Dispatch, HoldsIn, Due, SetCondition;
    var going := c.(stored := c.stored.(deleting := true));
    var swept := going.(objects := Erased(c.stored.id, c.objects));
    var ch, r := HalfCleanup(going), going.stored;
    var bg := r.(status := Process(r.spec.schedule, r.status, now).status);
    OneShotDue(c, now);
    ScheduledIs(c, now);
    ErasedIsSwept(c.stored.id, c.objects);
    assert Reconcile(going, now, ch).0 == Dispatch(swept, r, now, ch).cluster;
    DueGrants(swept, r, now, ch);
    ProcessFrame(r.spec.schedule, r.status, now);
    PlanIgnoresRest(bg, c.stored);
    GrantsNothing(swept, bg, now, ch);
  }

  lemma ScheduledIs(c: Cluster, now: Now)
    requires Serving(c, now, Scheduled)
    ensures CurrentCondition(c.stored.status.conditions) == RecurringPending && RecurringPending in Kinds(c.stored.status.conditions)
    ensures InPhase(c.stored.status, Scheduled)
  {
    DispatchedByPhase(c, c.stored, Scheduled, now);
    InPhaseOf(World(c, now), Scheduled);
    hide HoldsIn;
    assert Types(Scheduled)[1] == RecurringPending;
  }

  lemma GrantsNothing(c: Cluster, bg: Resource, now: Now, ch: Choices)
    requires c.live && Plan(bg) == [] && ch.status.None? && bg.spec.schedule.cron.NoCron?
    requires InPhase(bg.status, Scheduled)
    ensures var after := GrantAndActivate(c, bg, now, ch).cluster;
            && after.live && after.stored.id == c.stored.id && after.objects == c.objects
            && CurrentCondition(after.stored.status.conditions) == RecurringActive
  {
    hide Plan, CurrentWindow, SetCondition;
    MarkedPhase(bg.status, Scheduled, RecurringActive, RecurringActivated);
  }

  /**
   * From the creation of a one-shot whose start has come, some run activates it with no labelled
   * object: a grant is recorded but not completed, and a deletion cleans up in between.
   */
  lemma DeletionCanActivateNothing(c: Cluster, now: Now) returns (worlds: seq<World>, steps: seq<Step>)
    requires Initial(World(c, now)) && FiniteOneShot(c.stored) && c.stored.spec.clusterRoles != []
    requires c.stored.spec.schedule.start <= now
    ensures Run(worlds, steps) && worlds[0] == World(c, now)
    ensures var last := worlds[|worlds| - 1];
            && last.cluster.live && last.cluster.stored.deleting
            && CurrentCondition(last.cluster.stored.status.conditions) == RecurringActive
            && Access(last) == {}
  {
    hide Initial, FiniteOneShot, Reconcile, RunsTo, Reaches, Serving, Own, Possible, Plan;
    var first, c3 := World(c, now), c;
    worlds, steps, c3 := Admitted(c, now);
    GrantIsRecorded(c3, now);
    FaultsPossible(c3);
    worlds, steps := ReconcileOnce(worlds, steps, first, c3, UnstoredGrant(c3));
    var half := Reconcile(c3, now, UnstoredGrant(c3)).0;
    RecordedPlanIsDone(c3.stored, half.stored);
    ServingStays(half, now);
    worlds, steps := RequestOnce(worlds, steps, first, half);
    var going := half.(stored := half.stored.(deleting := true));
    ActivatesNothing(half, now);
    FaultsPossible(going);
    worlds, steps := ReconcileOnce(worlds, steps, first, going, HalfCleanup(going));
    var last := Reconcile(going, now, HalfCleanup(going)).0;
    KeepsDeleting(going, now, HalfCleanup(going));
    NothingLeft(worlds, steps, first, last, half.stored.id);
  }

  lemma KeepsDeleting(c: Cluster, now: Now, ch: Choices)
    ensures Reconcile(c, now, ch).0.stored.deleting == c.stored.deleting
  {
    hide Dispatch;
    if c.live && ch.read && ScheduleAccepted(c.stored.spec.schedule) {
      var bg := c.stored.(spec := Defaulted(c.stored.spec, now));
      var f := ReconcileFinalizers(c, bg, ch);
      if f.Go? {
        HandlersKeepFinalizer(f.cluster, bg.(finalizer := f.cluster.stored.finalizer), now, ch);
      }
    }
  }

  lemma NothingLeft(worlds: seq<World>, steps: seq<Step>, first: World, c: Cluster, id: Identity)
    requires RunsTo(worlds, steps, first, c) && c.stored.id == id && Own(id, c.objects) == {}
    ensures Run(worlds, steps) && worlds[0] == first
    ensures worlds[|worlds| - 1].cluster == c && Access(worlds[|worlds| - 1]) == {}
  {
  }
}
