/** What the store keeps over a run: the submitted spec and its start, the approver, and reasons that fit their conditions. */
module History {
  import opened Options
  import opened Schedules
  import opened Resources
  import opened Windows
  import opened Recurring
  import opened Api
  import opened Rbac
  import opened RbacProofs
  import opened Lifecycle
  import opened Safety
  import opened Theorems
  import opened Faults

  // ----- The spec -----

  /** The step stores the finalizer: it admits the resource. */
  ghost predicate Admits(w: World, step: Step) {
    step.Reconciled? && !w.cluster.stored.finalizer && Move(w, step).cluster.stored.finalizer
  }

  /** A step changes at most the start of the schedule: admitting sets it to now if it was not set. */
  lemma StepKeepsSpec(w: World, step: Step)
    ensures var before, after := w.cluster.stored, Move(w, step).cluster.stored;
            && after.spec == before.spec.(schedule := before.spec.schedule.(start := after.spec.schedule.start))
            && (before.spec.schedule.start != ZERO ==> after.spec == before.spec)
            && (Admits(w, step) ==>
                  && ScheduleAccepted(before.spec.schedule)
                  && after.spec.schedule.start ==
                     if before.spec.schedule.start == ZERO then w.now else before.spec.schedule.start)
            && (before.spec.schedule.start == ZERO && after.spec.schedule.start != ZERO && !before.deleting ==>
                  Admits(w, step) || before.finalizer)
  {
    hide Dispatch, ScheduleAccepted;
    if step.Reconciled? {
      var c, now, ch := w.cluster, w.now, step.ch;
      if c.live && ch.read && ScheduleAccepted(c.stored.spec.schedule) {
        var bg := c.stored.(spec := Defaulted(c.stored.spec, now));
        var f := ReconcileFinalizers(c, bg, ch);
        if f.Go? {
          HandlersKeepFinalizer(f.cluster, bg.(finalizer := f.cluster.stored.finalizer), now, ch);
        }
      }
    }
  }

  /** What becomes of the submitted start: it is kept, or an admitting reconcile has set it to its own instant. */
  ghost predicate StartFrom(worlds: seq<World>, steps: seq<Step>, i: nat)
    requires |worlds| == |steps| + 1 && i < |worlds|
  {
    var given, start := worlds[0].cluster.stored.spec.schedule, worlds[i].cluster.stored.spec.schedule.start;
    || start == given.start
    || (given.start == ZERO && !given.cron.NoCron? && exists j | 0 <= j < i :: Admits(worlds[j], steps[j]) && start == worlds[j].now)
  }

  /**
   * In every run the spec stays as submitted, except that a start that was not set becomes the
   * instant of the reconcile that admitted the resource. Only accepted schedules are admitted.
   */
  lemma {:induction false} SpecIsKept(worlds: seq<World>, steps: seq<Step>, i: nat)
    requires Run(worlds, steps) && i < |worlds|
    ensures var given, r := worlds[0].cluster.stored.spec, worlds[i].cluster.stored;
            && r.spec == given.(schedule := given.schedule.(start := r.spec.schedule.start))
            && StartFrom(worlds, steps, i)
            && (r.finalizer ==> r.spec.schedule.start != ZERO && ScheduleAccepted(given.schedule))
  {
    hide Initial, Allowed, Move, HoldsIn, Admits, ScheduleAccepted;
    if i == 0 {
      NotAdmitted(worlds[0]);
    } else {
      SpecIsKept(worlds, steps, i - 1);
      assert Allowed(worlds[i - 1], steps[i - 1]) && worlds[i] == Move(worlds[i - 1], steps[i - 1]);
      StepKeepsSpec(worlds[i - 1], steps[i - 1]);
      var p := StatusOf(worlds, steps, i - 1);
      var q := StatusOf(worlds, steps, i);
      Started(worlds[i - 1], p);
      Started(worlds[i], q);
      AdmitsOrNot(worlds[i - 1], steps[i - 1]);
      if Admits(worlds[i - 1], steps[i - 1]) {
        AcceptedAsSubmitted(worlds[0].cluster.stored.spec.schedule, worlds[i - 1].cluster.stored.spec.schedule);
      }
    }
  }

  lemma NotAdmitted(w: World)
    requires Initial(w)
    ensures !w.cluster.stored.finalizer
  {
  }

  lemma Started(w: World, p: Phase)
    requires HoldsIn(w, p)
    ensures w.cluster.stored.finalizer || w.cluster.stored.deleting ==> w.cluster.stored.spec.schedule.start != ZERO
  {
    hide StatusHolds, Clean, NoDangling, RecordsHold, Own;
  }

  /** Only an admitting step stores the finalizer. */
  lemma AdmitsOrNot(w: World, step: Step)
    ensures Move(w, step).cluster.stored.finalizer ==> w.cluster.stored.finalizer || Admits(w, step)
  {
    hide Reconcile;
  }

  lemma AcceptedAsSubmitted(given: ScheduleSpec, s: ScheduleSpec)
    requires s == given.(start := s.start) && ScheduleAccepted(s)
    requires given.cron.NoCron? ==> s.start == given.start
    ensures ScheduleAccepted(given)
    ensures s.start == ZERO ==> !given.cron.NoCron?
  {
  }

  // ----- The approver -----

  /** An approver once recorded stays; only a grant of an unapproved request fills in the default. */
  predicate ApproverFrom(before: string, after: string) {
    after == before || (before == "" && after == DEFAULT_APPROVER)
  }

  lemma HandlersKeepApprover(c: Cluster, bg: Resource, now: Now, ch: Choices)
    requires bg.status.approvedBy == c.stored.status.approvedBy
    ensures ApproverFrom(c.stored.status.approvedBy, Dispatch(c, bg, now, ch).cluster.stored.status.approvedBy)
  {
    hide GrantAndActivate, RevokeAndExpire, Process, CurrentWindow, SetCondition, Due;
    ProcessFrame(bg.spec.schedule, bg.status, now);
    GrantKeepsApprover(c, bg.(status := Process(bg.spec.schedule, bg.status, now).status), now, ch);
    RevokeKeepsApprover(c, bg, now, ch);
  }

  lemma GrantKeepsApprover(c: Cluster, bg: Resource, now: Now, ch: Choices)
    requires bg.status.approvedBy == c.stored.status.approvedBy
    ensures ApproverFrom(c.stored.status.approvedBy, GrantAndActivate(c, bg, now, ch).cluster.stored.status.approvedBy)
  {
    hide GrantAndActivate, GrantAccess, SetCondition;
    GrantStores(c, bg, now, ch);
    AttemptKeepsApprover(c, bg, ch);
    hide CalculateNext;
  }

  lemma AttemptKeepsApprover(c: Cluster, bg: Resource, ch: Choices)
    requires bg.status.approvedBy == c.stored.status.approvedBy
    ensures var g := GrantAccess(c, bg, ch.effort, ch.index);
            g.status.approvedBy == bg.status.approvedBy && g.cluster.stored.status.approvedBy == bg.status.approvedBy
  {
    hide Plan, Build;
  }

  lemma RevokeKeepsApprover(c: Cluster, bg: Resource, now: Now, ch: Choices)
    requires bg.status.approvedBy == c.stored.status.approvedBy
    ensures RevokeAndExpire(c, bg, now, ch).cluster.stored.status.approvedBy == c.stored.status.approvedBy
  {
    hide CurrentWindow, SetCondition;
  }

  /** In every run an approver stays recorded until someone else approves, and only a reconcile fills in the default. */
  lemma ApproverIsKept(worlds: seq<World>, steps: seq<Step>, i: nat)
    requires Run(worlds, steps) && i < |steps|
    ensures var before, after := worlds[i].cluster.stored.status.approvedBy, worlds[i + 1].cluster.stored.status.approvedBy;
            match steps[i]
            case Approve(approver) => after == before || after == approver
            case Reconciled(_) => ApproverFrom(before, after)
            case _ => after == before
  {
    hide Initial, Possible, Clean, Dispatch;
    assert Allowed(worlds[i], steps[i]) && worlds[i + 1] == Move(worlds[i], steps[i]);
    if steps[i].Reconciled? {
      var c, now, ch := worlds[i].cluster, worlds[i].now, steps[i].ch;
      var bg := c.stored.(spec := Defaulted(c.stored.spec, now));
      var f := ReconcileFinalizers(c, bg, ch);
      if c.live && ch.read && ScheduleAccepted(c.stored.spec.schedule) && f.Go? {
        HandlersKeepApprover(f.cluster, bg.(finalizer := f.cluster.stored.finalizer), now, ch);
      }
    }
  }

  // ----- The approval gate, from any status -----

  /**
   * Whatever is stored, also by hand: while the approver is missing, a request that is Approved,
   * or that has not been scheduled and needs approval, gets no object, and at most Pending is stored.
   */
  lemma GateIsShut(c: Cluster, bg: Resource, now: Now, ch: Choices)
    requires Loaded(c, bg) && bg.status.approvedBy == ""
    requires var current := CurrentCondition(bg.status.conditions);
             current == Approved || (bg.spec.approvalRequired && current in {NoCondition, Pending, Failed})
    ensures var o := Dispatch(c, bg, now, ch);
            && o.cluster.objects == c.objects
            && (o.cluster.stored.status == c.stored.status ||
                exists reason :: o.cluster.stored.status == WithCondition(c.stored.status, Pending, reason))
  {
    hide SetCondition, HandleRecurringPending;
  }

  /** With an approver such a request goes on: if the status update works, RecurringPending is stored and comes next. */
  lemma GateIsOpen(c: Cluster, bg: Resource, now: Now, ch: Choices)
    requires Loaded(c, bg) && c.live && bg.status.approvedBy != "" && ch.status.None?
    requires CurrentCondition(bg.status.conditions) in {Approved, Pending}
    ensures var o := Dispatch(c, bg, now, ch);
            && o.cluster.objects == c.objects && o.result == Again
            && RecurringPending in Kinds(o.cluster.stored.status.conditions)
  {
    SetConditionKinds(bg.status.conditions, Condition(RecurringPending, RecurringWaiting));
    hide SetCondition, Process, GrantAndActivate, Kinds;
    StoredKind(bg.status, RecurringPending, RecurringWaiting);
  }

  lemma StoredKind(st: Status, kind: ConditionType, reason: Reason)
    ensures kind in Kinds(WithCondition(st, kind, reason).conditions)
  {
    SetConditionKinds(st.conditions, Condition(kind, reason));
    var kinds := Kinds(st.conditions);
    assert kind !in kinds ==> (kinds + [kind])[|kinds|] == kind;
  }

  // ----- Other conditions, from any status -----

  /** The cluster after reconciles at these instants, with these choices. */
  function Reconciles(c: Cluster, nows: seq<Now>, chs: seq<Choices>): Cluster
    requires |nows| == |chs|
  {
    if nows == [] then c
    else
      var n := |nows| - 1;
      Reconcile(Reconciles(c, nows[..n], chs[..n]), nows[n], chs[n]).0
  }

  /** Denied, Expired and Revoked are never left by the controller, also when someone else has set them. */
  lemma {:induction false} TerminalIsAbsorbing(c: Cluster, nows: seq<Now>, chs: seq<Choices>)
    requires |nows| == |chs| && CurrentCondition(c.stored.status.conditions) in {Denied, Expired, Revoked}
    ensures Reconciles(c, nows, chs).stored.status == c.stored.status
    ensures !c.stored.deleting ==> Reconciles(c, nows, chs).objects == c.objects && !Reconciles(c, nows, chs).stored.deleting
  {
    if nows != [] {
      var n := |nows| - 1;
      TerminalIsAbsorbing(c, nows[..n], chs[..n]);
      TerminalStays(Reconciles(c, nows[..n], chs[..n]), nows[n], chs[n]);
    }
  }

  lemma TerminalStays(c: Cluster, now: Now, ch: Choices)
    requires CurrentCondition(c.stored.status.conditions) in {Denied, Expired, Revoked}
    ensures var after := Reconcile(c, now, ch).0;
            && after.stored.status == c.stored.status
            && (!c.stored.deleting ==> after.objects == c.objects && !after.stored.deleting)
  {
    hide HandlePending, HandleApproved, HandleRecurringActive, HandleRecurringPending, ScheduleAccepted;
  }

  /** Active, which only someone else sets, is revoked like RecurringActive: exactly once its window is over. */
  lemma ActiveIsRevokedExactly(c: Cluster, bg: Resource, now: Now)
    requires Loaded(c, bg) && CurrentCondition(bg.status.conditions) in {Active, RecurringActive}
    ensures var after := Dispatch(c, bg, now, NoFaults(c)).cluster;
            if WindowOver(bg.spec.schedule, bg.status, now) then
              after.objects == Erased(bg.id, c.objects) && Own(bg.id, after.objects) == {}
            else after == c
  {
    ErasedIsSwept(c.stored.id, c.objects);
    hide CurrentWindow, SetCondition, Process, Own, Erased;
  }

  // ----- Reasons -----

  /** A stored condition states one of the reasons for its type. */
  predicate Fits(c: Condition) {
    match c.kind
    case Pending => c.reason in {NewResource, WaitingForApproval}
    case RecurringPending => c.reason in {RecurringWaiting, RecurringScheduled}
    case RecurringActive => c.reason == RecurringActivated
    case Failed => c.reason in {RBACCreationFailed, RevokeFailed}
    case Expired => c.reason == AccessExpired
    case _ => false
  }

  predicate AllFit(st: Status) {
    forall c | c in st.conditions :: Fits(c)
  }

  lemma {:induction false} SetFits(conditions: seq<Condition>, c: Condition)
    requires Fits(c) && forall x | x in conditions :: Fits(x)
    ensures forall x | x in SetCondition(conditions, c) :: Fits(x)
  {
    if conditions != [] {
      assert conditions == [conditions[0]] + conditions[1..];
      assert forall x | x in conditions[1..] :: x in conditions;
      SetFits(conditions[1..], c);
    }
  }

  lemma MarkedFits(st: Status, kind: ConditionType, reason: Reason)
    requires AllFit(st) && Fits(Condition(kind, reason))
    ensures AllFit(WithCondition(st, kind, reason))
  {
    SetFits(st.conditions, Condition(kind, reason));
  }

  /** Processing that makes a request due sets no other reason. */
  lemma DueFits(s: ScheduleSpec, st: Status, now: Now)
    requires AllFit(st) && !Process(s, st, now).failed && Due(s, Process(s, st, now).status, now)
    ensures AllFit(Process(s, st, now).status)
  {
    hide SetCondition, CalculateNext, InsideFiring, AllFit;
    forall next: Option<Time>, reason | reason in {RecurringWaiting, RecurringScheduled}
      ensures AllFit(WithCondition(st.(nextAt := next), RecurringPending, reason))
      ensures AllFit(WithCondition(st, RecurringPending, reason))
    {
      SameConditionsFit(st, st.(nextAt := next));
      MarkedFits(st, RecurringPending, reason);
      MarkedFits(st.(nextAt := next), RecurringPending, reason);
    }
  }

  lemma SameConditionsFit(st: Status, later: Status)
    requires AllFit(st) && later.conditions == st.conditions
    ensures AllFit(later)
  {
  }

  lemma GrantFits(c: Cluster, bg: Resource, now: Now, ch: Choices)
    requires AllFit(c.stored.status) && AllFit(bg.status)
    ensures AllFit(GrantAndActivate(c, bg, now, ch).cluster.stored.status)
  {
    hide GrantAndActivate, GrantAccess, SetCondition, CalculateNext, AllFit;
    GrantStores(c, bg, now, ch);
    AttemptFits(c, bg, ch);
    var g, s := GrantAccess(c, bg, ch.effort, ch.index), bg.spec.schedule;
    MarkedFits(g.status, Failed, RBACCreationFailed);
    var approver := if g.status.approvedBy == "" then DEFAULT_APPROVER else g.status.approvedBy;
    var st := g.status.(approvedBy := approver, grantedAt := Some(now), expiresAt := None);
    SameConditionsFit(g.status, st);
    AdvanceFits(s, st, now);
    MarkedFits(Advance(s, st, now).status, RecurringActive, RecurringActivated);
    hide Advance;
  }

  lemma AdvanceFits(s: ScheduleSpec, st: Status, now: Now)
    requires AllFit(st)
    ensures AllFit(Advance(s, st, now).status)
  {
    hide SetCondition, CalculateNext, AllFit;
    var st' := Advance(s, st, now).status.(conditions := st.conditions);
    SameConditionsFit(st, st');
    MarkedFits(st', RecurringPending, RecurringScheduled);
  }

  lemma AttemptFits(c: Cluster, bg: Resource, ch: Choices)
    requires AllFit(c.stored.status) && AllFit(bg.status)
    ensures var g := GrantAccess(c, bg, ch.effort, ch.index); AllFit(g.status) && AllFit(g.cluster.stored.status)
  {
    hide Plan, Build;
  }

  lemma RevokeFits(c: Cluster, bg: Resource, now: Now, ch: Choices)
    requires AllFit(c.stored.status) && AllFit(bg.status)
    ensures AllFit(RevokeAndExpire(c, bg, now, ch).cluster.stored.status)
  {
    hide SetCondition, AllFit, CurrentWindow;
    MarkedFits(bg.status, Failed, RevokeFailed);
    var st, window := bg.status, CurrentWindow(bg.spec.schedule, bg.status, now);
    SameConditionsFit(st, st.(expiresAt := None));
    MarkedFits(st.(expiresAt := None), RecurringPending, if st.nextAt.Some? then RecurringScheduled else RecurringWaiting);
    var st' := st.(expiresAt := if window.Some? then Some(window.value.end) else None, nextAt := None);
    SameConditionsFit(st, st');
    MarkedFits(st', Expired, AccessExpired);
  }

  lemma DispatchFits(c: Cluster, bg: Resource, now: Now, ch: Choices)
    requires AllFit(c.stored.status) && bg.status == c.stored.status
    ensures AllFit(Dispatch(c, bg, now, ch).cluster.stored.status)
  {
    hide GrantAndActivate, RevokeAndExpire, Process, CurrentWindow, SetCondition, Due, AllFit;
    var s, st := bg.spec.schedule, bg.status;
    MarkedFits(st, Pending, NewResource);
    MarkedFits(st, Pending, WaitingForApproval);
    MarkedFits(st, RecurringPending, RecurringWaiting);
    RevokeFits(c, bg, now, ch);
    var m := Process(s, st, now);
    if !m.failed && Due(s, m.status, now) {
      DueFits(s, st, now);
      GrantFits(c, bg.(status := m.status), now, ch);
    }
  }

  /** In every run every stored condition states a reason for its type: what is set in memory only never gets out. */
  lemma {:induction false} ReasonsFit(worlds: seq<World>, steps: seq<Step>, i: nat)
    requires Run(worlds, steps) && i < |worlds|
    ensures AllFit(worlds[i].cluster.stored.status)
  {
    hide Allowed, Move, Dispatch, AllFit;
    if i == 0 {
      EmptyFits();
    } else {
      ReasonsFit(worlds, steps, i - 1);
      assert Allowed(worlds[i - 1], steps[i - 1]) && worlds[i] == Move(worlds[i - 1], steps[i - 1]);
      StepFits(worlds[i - 1], steps[i - 1]);
    }
  }

  lemma EmptyFits()
    ensures AllFit(EMPTY_STATUS)
  {
  }

  lemma StepFits(w: World, step: Step)
    requires AllFit(w.cluster.stored.status)
    ensures AllFit(Move(w, step).cluster.stored.status)
  {
    hide Dispatch;
    if step.Reconciled? {
      var c, now, ch := w.cluster, w.now, step.ch;
      var bg := c.stored.(spec := Defaulted(c.stored.spec, now));
      var f := ReconcileFinalizers(c, bg, ch);
      if c.live && ch.read && ScheduleAccepted(c.stored.spec.schedule) && f.Go? {
        DispatchFits(f.cluster, bg.(finalizer := f.cluster.stored.finalizer), now, ch);
      }
    }
  }
}
