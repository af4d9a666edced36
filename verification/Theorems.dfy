/** The promises of the lifecycle, over every run. */
module Theorems {
  import opened Options
  import opened Schedules
  import opened Resources
  import opened Windows
  import opened Recurring
  import opened Api
  import opened Rbac
  import opened RbacProofs
  import opened Lifecycle
  import opened Safety

  // ----- The invariant over a run -----

  /** The run's states, each with its phase. */
  ghost predicate Phased(worlds: seq<World>, phases: seq<Phase>) {
    && |phases| == |worlds|
    && (forall i | 0 <= i < |worlds| :: HoldsIn(worlds[i], phases[i]))
    && (forall i | 0 <= i < |worlds| - 1 :: Follows(phases[i], phases[i + 1]))
  }

  lemma InitialHolds(w: World)
    requires Initial(w)
    ensures HoldsIn(w, New)
  {
    var c := w.cluster;
    assert forall k | k in c.objects && Matches(LabelsOf(c.stored.id), c.objects[k].labels) :: k in Own(c.stored.id, c.objects);
  }

  lemma {:induction false} RunPhases(worlds: seq<World>, steps: seq<Step>) returns (phases: seq<Phase>)
    requires Run(worlds, steps)
    ensures Phased(worlds, phases) && phases[0] == New
  {
    hide HoldsIn, Move, Allowed, Initial;
    if steps == [] {
      InitialHolds(worlds[0]);
      phases := [New];
    } else {
      var n := |steps| - 1;
      phases := RunPhases(worlds[..n + 1], steps[..n]);
      assert HoldsIn(worlds[n], phases[n]);
      var q := MoveKeeps(worlds[n], steps[n], phases[n]);
      phases := phases + [q];
    }
  }

  lemma {:induction false} StatusOf(worlds: seq<World>, steps: seq<Step>, i: nat) returns (p: Phase)
    requires Run(worlds, steps) && i < |worlds|
    ensures HoldsIn(worlds[i], p)
    ensures CurrentCondition(worlds[i].cluster.stored.status.conditions) ==
            if p == New then NoCondition else Types(p)[|Types(p)| - 1]
  {
    var phases := RunPhases(worlds, steps);
    p := phases[i];
    PhaseDispatch(worlds[i].cluster.stored.status, p);
  }

  lemma InPhaseOf(w: World, p: Phase)
    requires HoldsIn(w, p)
    ensures InPhase(w.cluster.stored.status, p)
  {
    hide ObjectsHold;
  }

  // ----- Conditions -----

  const TYPE_SEQUENCES: set<seq<ConditionType>> := {
    [],
    [Pending],
    [Pending, RecurringPending],
    [Pending, RecurringPending, RecurringActive],
    [Pending, RecurringPending, Failed],
    [Pending, RecurringPending, RecurringActive, Failed],
    [Pending, RecurringPending, RecurringActive, Expired]
  }

  /** Under any failures the stored condition types form one of seven sequences, without repeats. */
  lemma ConditionTypes(worlds: seq<World>, steps: seq<Step>, i: nat)
    requires Run(worlds, steps) && i < |worlds|
    ensures var kinds := Kinds(worlds[i].cluster.stored.status.conditions);
            && kinds in TYPE_SEQUENCES
            && forall j, k | 0 <= j < k < |kinds| :: kinds[j] != kinds[k]
  {
    var p := StatusOf(worlds, steps, i);
    assert Types(p) in TYPE_SEQUENCES;
  }

  /** How often the current condition changes along a run. */
  function Changes(worlds: seq<World>): nat {
    if |worlds| < 2 then 0
    else
      var n := |worlds| - 1;
      Changes(worlds[..n]) +
      if CurrentCondition(worlds[n - 1].cluster.stored.status.conditions) !=
         CurrentCondition(worlds[n].cluster.stored.status.conditions) then 1 else 0
  }

  lemma {:induction false} ChangesCounted(worlds: seq<World>, phases: seq<Phase>)
    requires Phased(worlds, phases) && |worlds| > 0
    ensures Changes(worlds) + |Types(phases[0])| <= |Types(phases[|phases| - 1])|
  {
    var n := |worlds| - 1;
    if n > 0 {
      ChangesCounted(worlds[..n], phases[..n]);
      PhaseDispatch(worlds[n - 1].cluster.stored.status, phases[n - 1]);
      PhaseDispatch(worlds[n].cluster.stored.status, phases[n]);
      FollowsExtends(phases[n - 1], phases[n]);
    }
  }

  /** The current condition changes at most four times, in any run. */
  lemma AtMostFourChanges(worlds: seq<World>, steps: seq<Step>)
    requires Run(worlds, steps)
    ensures Changes(worlds) <= 4
  {
    hide HoldsIn;
    var phases := RunPhases(worlds, steps);
    ChangesCounted(worlds, phases);
  }

  /** Condition types are never dropped or reordered: earlier sequences are prefixes of later ones. */
  lemma {:induction false} TypesOnlyGrow(worlds: seq<World>, phases: seq<Phase>, i: nat, j: nat)
    requires Phased(worlds, phases) && i <= j < |worlds|
    ensures Types(phases[i]) <= Types(phases[j])
  {
    if i < j {
      TypesOnlyGrow(worlds, phases, i, j - 1);
      FollowsExtends(phases[j - 1], phases[j]);
    }
  }

  // ----- Access -----

  /** The labelled objects of the run's breakglass. */
  function Access(w: World): set<Key> {
    Own(w.cluster.stored.id, w.cluster.objects)
  }

  /** Once Expired is stored there are no labelled objects, and none ever appears again. */
  lemma ExpiredMeansNoAccess(worlds: seq<World>, steps: seq<Step>, i: nat, j: nat)
    requires Run(worlds, steps) && i <= j < |worlds|
    requires CurrentCondition(worlds[i].cluster.stored.status.conditions) == Expired
    ensures Access(worlds[j]) == {}
    ensures CurrentCondition(worlds[j].cluster.stored.status.conditions) == Expired
  {
    hide Clean, NoDangling, RecordsHold, Move, Allowed, Initial, CurrentWindow;
    var phases := RunPhases(worlds, steps);
    TypesOnlyGrow(worlds, phases, i, j);
    PhaseDispatch(worlds[i].cluster.stored.status, phases[i]);
    PhaseDispatch(worlds[j].cluster.stored.status, phases[j]);
    assert HoldsIn(worlds[j], phases[j]);
  }

  /** Labelled objects exist only after the approval gate and not before the schedule starts. */
  lemma AccessIsCleared(worlds: seq<World>, steps: seq<Step>, i: nat)
    requires Run(worlds, steps) && i < |worlds| && Access(worlds[i]) != {}
    ensures var r := worlds[i].cluster.stored;
            && (r.spec.approvalRequired ==> r.status.approvedBy != "")
            && r.spec.schedule.start <= worlds[i].now
  {
    var p := StatusOf(worlds, steps, i);
  }

  /** As long as the resource exists, labelled objects imply the stored finalizer. */
  lemma AccessIsFinalized(worlds: seq<World>, steps: seq<Step>, i: nat)
    requires Run(worlds, steps) && i < |worlds|
    requires worlds[i].cluster.live && Access(worlds[i]) != {}
    ensures worlds[i].cluster.stored.finalizer
  {
    var p := StatusOf(worlds, steps, i);
  }

  /** The finalizer is removed only from a state with no labelled objects. */
  lemma FinalizerRemovedWhenClean(worlds: seq<World>, steps: seq<Step>, i: nat)
    requires Run(worlds, steps) && i < |steps| && steps[i].Reconciled?
    requires worlds[i].cluster.stored.finalizer && !worlds[i + 1].cluster.stored.finalizer
    ensures var c := worlds[i].cluster;
            && c.stored.deleting
            && Own(c.stored.id, CleanupOnDelete(c, steps[i].ch).objects) == {}
            && Own(c.stored.id, ReconcileFinalizers(c, c.stored, steps[i].ch).cluster.objects) == {}
  {
    var p := StatusOf(worlds, steps, i);
    assert Allowed(worlds[i], steps[i]) && worlds[i + 1] == Move(worlds[i], steps[i]);
    var w, ch := worlds[i], steps[i].ch;
    var bg := w.cluster.stored.(spec := Defaulted(w.cluster.stored.spec, w.now));
    HandlersKeepFinalizer(w.cluster, bg, w.now, ch);
    if w.cluster.stored.deleting {
      HandlersKeepFinalizer(CleanupOnDelete(w.cluster, ch), bg, w.now, ch);
      DeletionCleanupKeeps(w, ch, p);
    }
  }

  lemma HandlersKeepFinalizer(c: Cluster, bg: Resource, now: Now, ch: Choices)
    ensures StatusOnly(c, Dispatch(c, bg, now, ch).cluster)
  {
    hide GrantAndActivate, RevokeAndExpire, Process, CurrentWindow;
    GrantWritesStatusOnly(c, bg.(status := Process(bg.spec.schedule, bg.status, now).status), now, ch);
    RevokeWritesStatusOnly(c, bg, now, ch);
  }

  /** A handler stores a status, if anything. */
  ghost predicate StatusOnly(before: Cluster, after: Cluster) {
    after.stored == before.stored.(status := after.stored.status) && after.live == before.live
  }

  lemma GrantWritesStatusOnly(c: Cluster, bg: Resource, now: Now, ch: Choices)
    ensures StatusOnly(c, GrantAndActivate(c, bg, now, ch).cluster)
  {
    var g := GrantAccess(c, bg, ch.effort, ch.index);
    assert StatusOnly(c, g.cluster);
  }

  lemma RevokeWritesStatusOnly(c: Cluster, bg: Resource, now: Now, ch: Choices)
    ensures StatusOnly(c, RevokeAndExpire(c, bg, now, ch).cluster)
  {
  }

  /** In every state of every run, each labelled RoleBinding refers to a Role in its namespace. */
  lemma RoleBindingsNeverDangle(worlds: seq<World>, steps: seq<Step>, i: nat, k: Key)
    requires Run(worlds, steps) && i < |worlds|
    requires k in Access(worlds[i]) && worlds[i].cluster.objects[k].RoleBinding?
    ensures var role := Key(Roles, k.namespace, worlds[i].cluster.objects[k].role);
            role in worlds[i].cluster.objects && worlds[i].cluster.objects[role].Role?
  {
    var p := StatusOf(worlds, steps, i);
    var r := worlds[i].cluster.stored;
    OwnIsWanted(r.id, r.spec, worlds[i].cluster.objects);
  }

  /** The step reaches a cleanup: of a deletion, or of a window that is over. */
  ghost predicate CleansUp(w: World, step: Step) {
    var r := w.cluster.stored;
    && step.Reconciled? && step.ch.read && w.cluster.live && ScheduleAccepted(r.spec.schedule)
    && (r.deleting ||
        (CurrentCondition(r.status.conditions) == RecurringActive && WindowOver(r.spec.schedule, r.status, w.now)))
  }

  /** As long as no step has reached a cleanup, every recorded name is that of a labelled object. */
  lemma RecordsExistBeforeCleanup(worlds: seq<World>, steps: seq<Step>, i: nat, name: Name)
    requires Run(worlds, steps) && i < |worlds|
    requires forall j | 0 <= j < i :: !CleansUp(worlds[j], steps[j])
    requires name in worlds[i].cluster.stored.status.created
    ensures KeyFor(worlds[i].cluster.stored.spec, name) in Access(worlds[i])
  {
    hide Initial, Allowed, Move, StatusHolds, CleansUp;
    var p := StatusOf(worlds, steps, i);
    var r := worlds[i].cluster.stored;
    RecordsKept(worlds, steps, i);
    OwnIsWanted(r.id, r.spec, worlds[i].cluster.objects);
  }

  ghost predicate Recorded(c: Cluster) {
    RecordsHold(c.stored.id, c.stored.spec, c.stored.status.created, c.objects)
  }

  lemma {:induction false} RecordsKept(worlds: seq<World>, steps: seq<Step>, i: nat)
    requires Run(worlds, steps) && i < |worlds|
    requires forall j | 0 <= j < i :: !CleansUp(worlds[j], steps[j])
    ensures Recorded(worlds[i].cluster)
  {
    hide Allowed, Move, HoldsIn, CleansUp, Clean;
    if i > 0 {
      RecordsKept(worlds, steps, i - 1);
      var p := StatusOf(worlds, steps, i - 1);
      assert Allowed(worlds[i - 1], steps[i - 1]) && worlds[i] == Move(worlds[i - 1], steps[i - 1]);
      StepKeepsRecords(worlds[i - 1], steps[i - 1], p);
    }
  }

  lemma StepKeepsRecords(w: World, step: Step, p: Phase)
    requires HoldsIn(w, p) && Allowed(w, step) && !CleansUp(w, step) && Recorded(w.cluster)
    ensures Recorded(Move(w, step).cluster)
  {
    hide HoldsIn, Possible, Reconcile, Clean, Recorded, Own;
    match step
    case Reconciled(ch) => ReconcileKeepsRecords(w, ch, p);
    case Others(objects) => OthersKeepRecords(w, objects, p);
    case _ => SameRecords(w.cluster, Move(w, step).cluster);
  }

  /** Only the names, the policies and the cluster roles matter, and that nothing goes. */
  lemma SameRecords(before: Cluster, after: Cluster)
    requires Recorded(before) && Kept(before.objects, after.objects)
    requires after.stored.id == before.stored.id && after.stored.status.created == before.stored.status.created
    requires after.stored.spec == before.stored.spec.(schedule := after.stored.spec.schedule)
    ensures Recorded(after)
  {
    var r, s := before.stored, after.stored;
    forall n | n in s.status.created
      ensures Wanted(s.id, s.spec, KeyFor(s.spec, n)).Some? && KeyFor(s.spec, n) in after.objects
    {
      assert KeyFor(s.spec, n) == KeyFor(r.spec, n);
      assert Wanted(s.id, s.spec, KeyFor(s.spec, n)) == Wanted(r.id, r.spec, KeyFor(r.spec, n));
    }
  }

  lemma OthersKeepRecords(w: World, objects: Objects, p: Phase)
    requires HoldsIn(w, p) && Allowed(w, Others(objects)) && Recorded(w.cluster)
    ensures Recorded(w.cluster.(objects := objects))
  {
    hide StatusHolds, NoDangling;
    var r := w.cluster.stored;
    OwnIsWanted(r.id, r.spec, w.cluster.objects);
    OwnIsWanted(r.id, r.spec, objects);
    forall n | n in r.status.created
      ensures KeyFor(r.spec, n) in objects
    {
      assert KeyFor(r.spec, n) in Own(r.id, w.cluster.objects);
    }
  }

  lemma ReconcileKeepsRecords(w: World, ch: Choices, p: Phase)
    requires HoldsIn(w, p) && Possible(w.cluster, ch) && !CleansUp(w, Reconciled(ch)) && Recorded(w.cluster)
    ensures Recorded(Reconcile(w.cluster, w.now, ch).0)
  {
    var c := w.cluster;
    hide HoldsIn, Dispatch, Possible, WindowOver, Recorded;
    DispatchedByPhase(c, c.stored, p, w.now);
    if c.live && ch.read && ScheduleAccepted(c.stored.spec.schedule) {
      if c.stored.finalizer {
        FinalizersKeep(w, ch, p);
        StartIsKept(w, p);
        assert c.stored.(spec := Defaulted(c.stored.spec, w.now)) == c.stored;
        DispatchKeepsRecords(c, w.now, ch, p);
      } else {
        SameRecords(c, Reconcile(c, w.now, ch).0);
      }
    }
  }

  lemma DispatchKeepsRecords(c: Cluster, now: Now, ch: Choices, p: Phase)
    requires HoldsIn(World(c, now), p) && Ready(c) && Recorded(c)
    requires p == Held ==> !WindowOver(c.stored.spec.schedule, c.stored.status, now)
    ensures Recorded(Dispatch(c, c.stored, now, ch).cluster)
  {
    hide HoldsIn, HandlePending, GrantAndActivate, GrantAccess, Process, Due, RevokeAndExpire, Clean, Recorded;
    DispatchedByPhase(c, c.stored, p, now);
    match p
    case New | Waiting | GrantAborted | RevokeAborted =>
      InPhaseOf(World(c, now), p);
      var kind, reason, result := PendingStores(c, c.stored, now, ch, p);
      SameRecords(c, HandlePending(c, c.stored, now, ch).cluster);
    case Scheduled =>
      var bg := c.stored.(status := Process(c.stored.spec.schedule, c.stored.status, now).status);
      ProcessFrame(c.stored.spec.schedule, c.stored.status, now);
      GrantKeepsRecorded(c, bg, now, ch);
    case Held =>
    case Ended =>
  }

  lemma GrantKeepsRecorded(c: Cluster, bg: Resource, now: Now, ch: Choices)
    requires Recorded(c) && bg.id == c.stored.id && bg.spec == c.stored.spec
    requires bg.status.created == c.stored.status.created
    ensures Recorded(GrantAndActivate(c, bg, now, ch).cluster)
  {
    GrantKeepsRecords(c, bg, ch.effort, ch.index);
    GrantKeepsBuilt(c, bg, now, ch);
    GrantRecords(c, bg, now, ch);
    GrantWritesStatusOnly(c, bg, now, ch);
    hide GrantAndActivate, GrantAccess, Wanted, KeyFor;
  }

  /** A grant stores the recorded names it had, or those with the new ones. */
  lemma GrantRecords(c: Cluster, bg: Resource, now: Now, ch: Choices)
    requires bg.status.created == c.stored.status.created
    ensures var created := GrantAndActivate(c, bg, now, ch).cluster.stored.status.created;
            created == bg.status.created || created == GrantAccess(c, bg, ch.effort, ch.index).status.created
  {
    hide Plan, CurrentWindow, SetCondition, CalculateNext;
  }

  // ----- Grants -----

  /** The reconcile calls `GrantAndActivate`. */
  ghost predicate Granting(w: World, ch: Choices) {
    var c := w.cluster;
    && c.live && ch.read && ScheduleAccepted(c.stored.spec.schedule)
    && var bg := c.stored.(spec := Defaulted(c.stored.spec, w.now));
       var m := Process(bg.spec.schedule, bg.status, w.now);
       && ReconcileFinalizers(c, bg, ch).Go?
       && CurrentCondition(bg.status.conditions) == RecurringPending
       && !m.failed && Due(bg.spec.schedule, m.status, w.now)
  }

  /** What `GrantAndActivate` has in memory when it is called. */
  function MemoryAtGrant(w: World): Status {
    Process(w.cluster.stored.spec.schedule, w.cluster.stored.status, w.now).status
  }

  /** Only a granting reconcile adds labelled objects or counts an activation. */
  lemma OnlyGrantingAddsAccess(worlds: seq<World>, steps: seq<Step>, i: nat)
    requires Run(worlds, steps) && i < |steps|
    requires steps[i].Reconciled? ==> !Granting(worlds[i], steps[i].ch)
    ensures Access(worlds[i + 1]) <= Access(worlds[i])
    ensures worlds[i + 1].cluster.stored.status.count == worlds[i].cluster.stored.status.count
  {
    hide HoldsIn, Possible, Granting, Reconcile, Clean;
    var p := StatusOf(worlds, steps, i);
    assert Allowed(worlds[i], steps[i]) && worlds[i + 1] == Move(worlds[i], steps[i]);
    match steps[i] {
      case Reconciled(ch) => NotGranting(worlds[i], ch, p);
      case _ => assert Access(worlds[i + 1]) == Access(worlds[i]);
    }
  }

  lemma NotGranting(w: World, ch: Choices, p: Phase)
    requires HoldsIn(w, p) && Possible(w.cluster, ch) && !Granting(w, ch)
    ensures Access(w.(cluster := Reconcile(w.cluster, w.now, ch).0)) <= Access(w)
    ensures Reconcile(w.cluster, w.now, ch).0.stored.status.count == w.cluster.stored.status.count
  {
    hide HoldsIn, Dispatch, Process, Due;
    var after := Reconcile(w.cluster, w.now, ch).0;
    var q := ReconcileKeeps(w, ch, p);
    CountByPhase(w, p);
    CountByPhase(w.(cluster := after), q);
    ReconcileKeepsIdentity(w.cluster, w.now, ch);
    if p == Scheduled && w.cluster.live && ch.read && ScheduleAccepted(w.cluster.stored.spec.schedule) {
      FinalizersKeep(w, ch, p);
      var bg := w.cluster.stored.(spec := Defaulted(w.cluster.stored.spec, w.now));
      var f := ReconcileFinalizers(w.cluster, bg, ch);
      if f.Go? {
        DispatchedByPhase(f.cluster, bg, p, w.now);
        NotDue(f.cluster, bg.(finalizer := f.cluster.stored.finalizer), w.now, ch);
      }
    }
  }

  lemma NotDue(c: Cluster, bg: Resource, now: Now, ch: Choices)
    requires CurrentCondition(bg.status.conditions) == RecurringPending
    requires var m := Process(bg.spec.schedule, bg.status, now);
             !m.failed ==> !Due(bg.spec.schedule, m.status, now)
    ensures Dispatch(c, bg, now, ch).cluster == c
  {
    hide Process, GrantAndActivate, Due;
  }

  lemma CountByPhase(w: World, p: Phase)
    requires HoldsIn(w, p)
    ensures w.cluster.stored.status.count == if p.Held? || p.RevokeAborted? || p.Ended? then 1 else 0
  {
    hide ObjectsHold, InPhase;
  }

  lemma ReconcileKeepsIdentity(c: Cluster, now: Now, ch: Choices)
    ensures Reconcile(c, now, ch).0.stored.id == c.stored.id
  {
    hide Dispatch;
    if c.live && ch.read && ScheduleAccepted(c.stored.spec.schedule) {
      var bg := c.stored.(spec := Defaulted(c.stored.spec, now));
      var f := ReconcileFinalizers(c, bg, ch);
      if f.Go? {
        HandlersKeepFinalizer(f.cluster, bg.(finalizer := f.cluster.stored.finalizer), now, ch);
      }
    }
  }

  /** Nothing is granted once RecurringActive is stored: every granting state is [Pending, RecurringPending]. */
  lemma GrantsComeFirst(worlds: seq<World>, steps: seq<Step>, i: nat, ch: Choices)
    requires Run(worlds, steps) && i < |worlds| && Granting(worlds[i], ch)
    ensures Kinds(worlds[i].cluster.stored.status.conditions) == [Pending, RecurringPending]
    ensures worlds[i].cluster.stored.status.grantedAt.None? && worlds[i].cluster.stored.status.count == 0
  {
    var p := StatusOf(worlds, steps, i);
  }

  /** A recurring request is granted only inside an open window: the manager and the window calculator agree. */
  lemma GrantedInOpenWindow(worlds: seq<World>, steps: seq<Step>, i: nat, ch: Choices)
    requires Run(worlds, steps) && i < |worlds| && Granting(worlds[i], ch)
    requires var s := worlds[i].cluster.stored.spec.schedule; s.cron.Every? && Perpetual(s.cron.cron)
    ensures var w := worlds[i];
            var window := CurrentWindow(w.cluster.stored.spec.schedule, MemoryAtGrant(w), w.now);
            window.Some? && window.value.start <= w.now <= window.value.end
  {
    var p := StatusOf(worlds, steps, i);
    var w := worlds[i];
    DueInOpenWindow(w.cluster.stored.spec.schedule, w.cluster.stored.status, w.now);
  }

  /** In any run, whatever the schedule, there is at most one activation. */
  lemma AtMostOneActivation(worlds: seq<World>, steps: seq<Step>, i: nat)
    requires Run(worlds, steps) && i < |worlds|
    ensures 0 <= worlds[i].cluster.stored.status.count <= 1
    ensures worlds[i].cluster.stored.status.count == 1 <==> RecurringActive in Kinds(worlds[i].cluster.stored.status.conditions)
  {
    var p := StatusOf(worlds, steps, i);
    CountByPhase(worlds[i], p);
    assert Kinds(worlds[i].cluster.stored.status.conditions) == Types(p);
  }

  /** A breakglass that becomes active has exactly the wanted objects. */
  lemma ActivationIsComplete(worlds: seq<World>, steps: seq<Step>, i: nat)
    requires Run(worlds, steps) && i < |steps| && !worlds[i].cluster.stored.deleting
    requires CurrentCondition(worlds[i].cluster.stored.status.conditions) == RecurringPending
    requires CurrentCondition(worlds[i + 1].cluster.stored.status.conditions) == RecurringActive
    ensures var c := worlds[i + 1].cluster;
            Complete(c.stored.id, c.stored.spec, c.objects)
  {
    hide HoldsIn, Possible, Reconcile, Complete, Initial;
    var p := StatusOf(worlds, steps, i);
    assert Allowed(worlds[i], steps[i]) && worlds[i + 1] == Move(worlds[i], steps[i]);
    if steps[i].Reconciled? {
      ActivatingReconcile(worlds[i], steps[i].ch);
    }
  }

  lemma ActivatingReconcile(w: World, ch: Choices)
    requires HoldsIn(w, Scheduled) && Possible(w.cluster, ch) && !w.cluster.stored.deleting
    requires CurrentCondition(Reconcile(w.cluster, w.now, ch).0.stored.status.conditions) == RecurringActive
    ensures var c := Reconcile(w.cluster, w.now, ch).0;
            Complete(c.stored.id, c.stored.spec, c.objects)
  {
    hide HoldsIn, Process, Due, Dispatch, Complete, GrantAndActivate, GrantAccess;
    var c := w.cluster;
    DispatchedByPhase(c, c.stored, Scheduled, w.now);
    ScheduledIsServed(w);
    assert Reconcile(c, w.now, ch).0 == Dispatch(c, c.stored, w.now, ch).cluster;
    var m := Process(c.stored.spec.schedule, c.stored.status, w.now);
    if m.failed || !Due(c.stored.spec.schedule, m.status, w.now) {
      NotDue(c, c.stored, w.now, ch);
    } else {
      var bg := c.stored.(status := m.status);
      DueGrants(c, c.stored, w.now, ch);
      var q := GrantKeeps(c, bg, w.now, ch);
      DispatchedByPhase(GrantAndActivate(c, bg, w.now, ch).cluster, GrantAndActivate(c, bg, w.now, ch).cluster.stored, q, w.now);
      GrantBegins(c, bg, w);
      GrantCompletes(c, bg, ch.effort, ch.index);
      GrantWritesStatusOnly(c, bg, w.now, ch);
      GrantKeepsBuilt(c, bg, w.now, ch);
    }
  }

  lemma ScheduledIsServed(w: World)
    requires HoldsIn(w, Scheduled) && !w.cluster.stored.deleting
    ensures w.cluster.live ==> w.cluster.stored.finalizer && w.cluster.stored.spec.schedule.start != ZERO
  {
    hide StatusHolds, Clean, NoDangling, RecordsHold, Own;
  }

  lemma DueGrants(c: Cluster, bg: Resource, now: Now, ch: Choices)
    requires CurrentCondition(bg.status.conditions) == RecurringPending
    requires var m := Process(bg.spec.schedule, bg.status, now); !m.failed && Due(bg.spec.schedule, m.status, now)
    ensures Dispatch(c, bg, now, ch) ==
            GrantAndActivate(c, bg.(status := Process(bg.spec.schedule, bg.status, now).status), now, ch)
  {
    hide Process, GrantAndActivate, Due;
  }

  lemma GrantBegins(c: Cluster, bg: Resource, w: World)
    requires HoldsIn(w, Scheduled) && w.cluster == c && c.live && !c.stored.deleting
    requires bg == c.stored.(status := Process(c.stored.spec.schedule, c.stored.status, w.now).status)
    ensures Clean(bg.id, bg.spec, c.objects) && RecordsHold(bg.id, bg.spec, bg.status.created, c.objects)
  {
    ProcessFrame(c.stored.spec.schedule, c.stored.status, w.now);
    hide Process, Clean, RecordsHold, NoDangling;
  }

  lemma GrantKeepsBuilt(c: Cluster, bg: Resource, now: Now, ch: Choices)
    ensures GrantAndActivate(c, bg, now, ch).cluster.objects == GrantAccess(c, bg, ch.effort, ch.index).cluster.objects
  {
    hide GrantAccess, SetCondition, CurrentWindow, CalculateNext;
  }

  /**
   * Access is not cut short: unless the resource is being deleted, labelled objects only go
   * while RecurringActive is current and the current window is over.
   */
  lemma AccessKeptInWindow(worlds: seq<World>, steps: seq<Step>, i: nat)
    requires Run(worlds, steps) && i < |steps| && !worlds[i].cluster.stored.deleting
    requires var r := worlds[i].cluster.stored;
             CurrentCondition(r.status.conditions) == RecurringActive ==> !WindowOver(r.spec.schedule, r.status, worlds[i].now)
    ensures Access(worlds[i]) <= Access(worlds[i + 1])
  {
    hide HoldsIn, Possible, Reconcile, Clean, Initial, WindowOver;
    var p := StatusOf(worlds, steps, i);
    assert Allowed(worlds[i], steps[i]) && worlds[i + 1] == Move(worlds[i], steps[i]);
    match steps[i] {
      case Reconciled(ch) => ReconcileKeepsObjects(worlds[i], ch, p);
      case _ => assert Access(worlds[i + 1]) == Access(worlds[i]);
    }
  }

  ghost predicate Kept(before: Objects, after: Objects) {
    forall k | k in before :: k in after && after[k] == before[k]
  }

  lemma ReconcileKeepsObjects(w: World, ch: Choices, p: Phase)
    requires HoldsIn(w, p) && Possible(w.cluster, ch) && !w.cluster.stored.deleting
    requires p == Held ==> !WindowOver(w.cluster.stored.spec.schedule, w.cluster.stored.status, w.now)
    ensures Access(w) <= Access(w.(cluster := Reconcile(w.cluster, w.now, ch).0))
  {
    var c, after := w.cluster, Reconcile(w.cluster, w.now, ch).0;
    hide HoldsIn, Dispatch, Possible, WindowOver;
    ReconcileKeepsIdentity(c, w.now, ch);
    if c.live && ch.read && ScheduleAccepted(c.stored.spec.schedule) && c.stored.finalizer {
      FinalizersKeep(w, ch, p);
      StartIsKept(w, p);
      assert c.stored.(spec := Defaulted(c.stored.spec, w.now)) == c.stored;
      DispatchKeepsObjects(c, w.now, ch, p);
      assert after == Dispatch(c, c.stored, w.now, ch).cluster;
    }
    assert Kept(c.objects, after.objects);
  }

  lemma StartIsKept(w: World, p: Phase)
    requires HoldsIn(w, p) && w.cluster.stored.finalizer
    ensures w.cluster.stored.spec.schedule.start != ZERO
  {
    hide StatusHolds, Clean, NoDangling, RecordsHold, Own;
  }

  lemma DispatchKeepsObjects(c: Cluster, now: Now, ch: Choices, p: Phase)
    requires HoldsIn(World(c, now), p) && Ready(c)
    requires p == Held ==> !WindowOver(c.stored.spec.schedule, c.stored.status, now)
    ensures Kept(c.objects, Dispatch(c, c.stored, now, ch).cluster.objects)
  {
    hide HoldsIn, HandlePending, GrantAndActivate, GrantAccess, Process, Due, RevokeAndExpire, Clean;
    DispatchedByPhase(c, c.stored, p, now);
    match p
    case New | Waiting | GrantAborted | RevokeAborted =>
      var q := PendingKeeps(c, c.stored, now, ch, p);
    case Scheduled =>
      var bg := c.stored.(status := Process(c.stored.spec.schedule, c.stored.status, now).status);
      CleanIn(World(c, now), p);
      GrantKeepsClean(c, bg, ch.effort, ch.index);
      GrantKeepsBuilt(c, bg, now, ch);
    case Held =>
    case Ended =>
  }

  lemma CleanIn(w: World, p: Phase)
    requires HoldsIn(w, p)
    ensures Clean(w.cluster.stored.id, w.cluster.stored.spec, w.cluster.objects)
  {
    hide StatusHolds, Clean, NoDangling, RecordsHold, Own;
  }

  /**
   * Failed is final: no later step leaves it, and nothing is granted again. Labelled objects that
   * are left stay exactly as they are until a deletion.
   */
  lemma {:induction false} FailedIsFinal(worlds: seq<World>, steps: seq<Step>, i: nat, j: nat)
    requires Run(worlds, steps) && i <= j < |worlds|
    requires CurrentCondition(worlds[i].cluster.stored.status.conditions) == Failed
    ensures Kinds(worlds[j].cluster.stored.status.conditions) == Kinds(worlds[i].cluster.stored.status.conditions)
    ensures CurrentCondition(worlds[j].cluster.stored.status.conditions) == Failed
    ensures Access(worlds[j]) <= Access(worlds[i])
    ensures (forall k | i <= k < j :: !worlds[k].cluster.stored.deleting) ==> Access(worlds[j]) == Access(worlds[i])
  {
    hide Initial, Allowed, Move, HoldsIn, Access, WindowOver;
    if i < j {
      FailedIsFinal(worlds, steps, i, j - 1);
      FailedStays(worlds, steps, j - 1);
      if !worlds[j - 1].cluster.stored.deleting {
        AccessKeptInWindow(worlds, steps, j - 1);
      }
    }
  }

  lemma FailedStays(worlds: seq<World>, steps: seq<Step>, i: nat)
    requires Run(worlds, steps) && i < |steps|
    requires CurrentCondition(worlds[i].cluster.stored.status.conditions) == Failed
    ensures Kinds(worlds[i + 1].cluster.stored.status.conditions) == Kinds(worlds[i].cluster.stored.status.conditions)
    ensures CurrentCondition(worlds[i + 1].cluster.stored.status.conditions) == Failed
    ensures Access(worlds[i + 1]) <= Access(worlds[i])
  {
    hide Initial, Allowed, Move, HoldsIn;
    var p := StatusOf(worlds, steps, i);
    assert Allowed(worlds[i], steps[i]) && worlds[i + 1] == Move(worlds[i], steps[i]);
    var q := MoveKeeps(worlds[i], steps[i], p);
    InPhaseOf(worlds[i], p);
    InPhaseOf(worlds[i + 1], q);
    PhaseDispatch(worlds[i + 1].cluster.stored.status, q);
    SameIdentity(worlds[i], steps[i]);
  }

  lemma SameIdentity(w: World, step: Step)
    ensures Move(w, step).cluster.stored.id == w.cluster.stored.id
  {
    hide Reconcile;
    if step.Reconciled? {
      ReconcileKeepsIdentity(w.cluster, w.now, step.ch);
    }
  }

  // ----- Held access and expiry -----

  /** What the store says while access is held. */
  lemma HeldStatus(worlds: seq<World>, steps: seq<Step>, i: nat)
    requires Run(worlds, steps) && i < |worlds|
    requires CurrentCondition(worlds[i].cluster.stored.status.conditions) == RecurringActive
    ensures var s, st := worlds[i].cluster.stored.spec.schedule, worlds[i].cluster.stored.status;
            && st.grantedAt.Some? && s.start <= st.grantedAt.value <= worlds[i].now
            && st.count >= 1
            && (st.nextAt.None? <==> s.cron.NoCron?)
            && (s.cron.Every? ==>
                  (st.nextAt.value > st.grantedAt.value <==> NextFiring(s.cron.cron, st.grantedAt.value) != ZERO))
            && (s.cron.Every? && Perpetual(s.cron.cron) ==> FirstAfter(s.cron.cron, st.grantedAt.value, st.nextAt.value))
  {
    var p := StatusOf(worlds, steps, i);
  }

  /** An Expired request records an expiry between its grant and now; for a one-shot, exactly start plus duration. */
  lemma ExpiryFollowsGrant(worlds: seq<World>, steps: seq<Step>, i: nat)
    requires Run(worlds, steps) && i < |worlds|
    requires CurrentCondition(worlds[i].cluster.stored.status.conditions) == Expired
    ensures var s, st := worlds[i].cluster.stored.spec.schedule, worlds[i].cluster.stored.status;
            && st.grantedAt.Some? && st.expiresAt.Some? && st.expiresAt.value < worlds[i].now
            && (s.cron.Every? && Perpetual(s.cron.cron) ==> st.grantedAt.value <= st.expiresAt.value)
            && (s.cron.NoCron? ==> st.expiresAt == Some(s.start + s.duration))
  {
    var p := StatusOf(worlds, steps, i);
  }

  /** A stored revoke ends one-shots and exhausted schedules, and keeps a later activation for the others. */
  lemma RevokeOutcome(w: World, bg: Resource, ch: Choices)
    requires HoldsIn(w, Held) && Loaded(w.cluster, bg) && w.cluster.live
    requires WindowOver(bg.spec.schedule, bg.status, w.now)
    requires Swept(bg.id, w.cluster.objects, ch.revoke.left, ch.revoke.err)
    requires ch.revoke.err.None? && ch.status.None?
    ensures var s, before := bg.spec.schedule, bg.status;
            var o := HandleRecurringActive(w.cluster, bg, w.now, ch);
            var after := o.cluster;
            && Own(bg.id, after.objects) == {}
            && var st := after.stored.status;
               if s.cron.NoCron? || MaxActivationsReached(s, before) then
                 && CurrentCondition(st.conditions) == Expired && o.result == Done
                 && var end := CurrentWindow(s, before, w.now).value.end;
                    st == before.(conditions := st.conditions, expiresAt := Some(end), nextAt := None)
               else
                 && CurrentCondition(st.conditions) == RecurringActive
                 && st.nextAt == before.nextAt && st.nextAt.Some?
                 && o.result == After(Clamp(Until(st.nextAt.value, w.now)))
                 && st == before.(conditions := st.conditions)
                 && (Perpetual(s.cron.cron) ==> st.nextAt.value > before.grantedAt.value)
  {
    assert Own(bg.id, ch.revoke.left) == {};
    hide ObjectsHold, CurrentWindow, Swept, InsideSomeWindow;
    var s, st := bg.spec.schedule, bg.status;
    var swept := w.cluster.(objects := ch.revoke.left);
    assert HandleRecurringActive(w.cluster, bg, w.now, ch) == PostRevoke(swept, bg, w.now, ch);
    if HasFutureActivations(s, st) {
      MarkedPhase(st.(expiresAt := None), Held, RecurringPending, RecurringScheduled);
      PhaseDispatch(WithCondition(st.(expiresAt := None), RecurringPending, RecurringScheduled), Held);
    } else {
      var window := CurrentWindow(s, st, w.now);
      var st' := st.(expiresAt := Some(window.value.end), nextAt := None);
      MarkedPhase(st', Held, Expired, AccessExpired);
      PhaseDispatch(WithCondition(st', Expired, AccessExpired), Ended);
    }
  }

  /** A failed revoke never ends in Expired: with this operator's errors the "not found" escape is dead. */
  lemma FailedRevokeNeverExpires(c: Cluster, bg: Resource, now: Now, ch: Choices)
    requires Swept(bg.id, c.objects, ch.revoke.left, ch.revoke.err) && ch.revoke.err.Some?
    ensures var o := RevokeAndExpire(c, bg, now, ch);
            if ch.revoke.err.value.retryable then o.cluster.stored == c.stored && o.result == After(BACKOFF)
            else o == Store(c.(objects := ch.revoke.left), bg.status, Failed, RevokeFailed, ch.status, Failure)
  {
  }

  // ----- Activation counts -----

  /** The status stored by a series of RecurringPending handler runs, each on the stored resource. */
  function HandlerRuns(c: Cluster, nows: seq<Now>, chs: seq<Choices>): Cluster
    requires |nows| == |chs|
  {
    if nows == [] then c
    else
      var n := |nows| - 1;
      var before := HandlerRuns(c, nows[..n], chs[..n]);
      HandleRecurringPending(before, before.stored, nows[n], chs[n]).cluster
  }

  predicate WithinLimit(s: ScheduleSpec, st: Status) {
    s.maxActivations.Some? ==> st.count <= if s.maxActivations.value < 0 then 0 else s.maxActivations.value
  }

  /** A one-shot has not been activated, or has been once and has nothing scheduled. */
  predicate OnceAtMost(s: ScheduleSpec, st: Status) {
    s.cron.NoCron? ==> st.count == 0 || (st.count == 1 && st.nextAt.None?)
  }

  /** From any stored status, any number of handler runs with any failures respect the activation limits. */
  lemma {:induction false} ActivationsLimited(c: Cluster, nows: seq<Now>, chs: seq<Choices>)
    requires |nows| == |chs|
    ensures var after := HandlerRuns(c, nows, chs).stored;
            && after.spec == c.stored.spec
            && (WithinLimit(c.stored.spec.schedule, c.stored.status) ==> WithinLimit(after.spec.schedule, after.status))
            && (OnceAtMost(c.stored.spec.schedule, c.stored.status) ==> OnceAtMost(after.spec.schedule, after.status))
  {
    if nows != [] {
      var n := |nows| - 1;
      ActivationsLimited(c, nows[..n], chs[..n]);
      var before := HandlerRuns(c, nows[..n], chs[..n]);
      HandlerRunLimited(before, nows[n], chs[n]);
    }
  }

  lemma HandlerRunLimited(c: Cluster, now: Now, ch: Choices)
    ensures var s, after := c.stored.spec.schedule, HandleRecurringPending(c, c.stored, now, ch).cluster.stored;
            && after.spec == c.stored.spec
            && (WithinLimit(s, c.stored.status) ==> WithinLimit(s, after.status))
            && (OnceAtMost(s, c.stored.status) ==> OnceAtMost(s, after.status))
  {
    var s, st := c.stored.spec.schedule, c.stored.status;
    ProcessFrame(s, st, now);
    var m := Process(s, st, now);
    if CurrentCondition(st.conditions) == RecurringPending && !m.failed && Due(s, m.status, now) {
      GrantLimited(c, c.stored.(status := m.status), now, ch);
    }
  }

  /** A grant attempt stores a count that is unchanged, or one more with the schedule advanced. */
  lemma GrantLimited(c: Cluster, bg: Resource, now: Now, ch: Choices)
    requires bg.id == c.stored.id && bg.spec == c.stored.spec && bg.status.count == c.stored.status.count
    ensures var after := GrantAndActivate(c, bg, now, ch).cluster.stored;
            && after.spec == c.stored.spec
            && (after.status == c.stored.status
                || (after.status.count == bg.status.count && after.status.nextAt == bg.status.nextAt)
                || (after.status.count == bg.status.count + 1 && (bg.spec.schedule.cron.NoCron? ==> after.status.nextAt.None?)))
  {
    hide Plan, CurrentWindow, SetCondition, NextFiring;
    var g := GrantAccess(c, bg, ch.effort, ch.index);
    assert g.status.count == bg.status.count && g.status.nextAt == bg.status.nextAt;
    assert g.cluster.stored == c.stored || g.cluster.stored == c.stored.(status := g.status);
  }
}
