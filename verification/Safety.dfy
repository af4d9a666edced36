/** Runs of the whole system, and what holds in every state they reach. */
module Safety {
  import opened Options
  import opened Schedules
  import opened Resources
  import opened Windows
  import opened Recurring
  import opened Api
  import opened Rbac
  import opened RbacProofs
  import opened Lifecycle

  // ----- Runs -----

  datatype World = World(cluster: Cluster, now: Now)

  /** Time passes, someone approves or deletes the resource, others change their objects, or the controller reconciles. */
  datatype Step =
    | Tick(d: nat)
    | Approve(approver: string)
    | RequestDeletion
    | Others(objects: Objects)
    | Reconciled(ch: Choices)

  ghost predicate Allowed(w: World, step: Step) {
    var r := w.cluster.stored;
    match step
    case Tick(_) => true
    case Approve(approver) => approver != ""
    case RequestDeletion => true
    case Others(objects) =>
      && Clean(r.id, r.spec, objects)
      && Own(r.id, objects) == Own(r.id, w.cluster.objects)
    case Reconciled(ch) => Possible(w.cluster, ch)
  }

  function Move(w: World, step: Step): World {
    var c := w.cluster;
    match step
    case Tick(d) => w.(now := w.now + d)
    case Approve(approver) =>
      if c.live then w.(cluster := c.(stored := c.stored.(status := c.stored.status.(approvedBy := approver)))) else w
    case RequestDeletion =>
      if !c.live then w
      else if c.stored.finalizer then w.(cluster := c.(stored := c.stored.(deleting := true)))
      else w.(cluster := c.(live := false))
    case Others(objects) => w.(cluster := c.(objects := objects))
    case Reconciled(ch) => w.(cluster := Reconcile(c, w.now, ch).0)
  }

  /** A freshly created resource, in a cluster where nobody holds its names or labels. */
  ghost predicate Initial(w: World) {
    var c := w.cluster;
    && c.live && !c.stored.deleting && !c.stored.finalizer
    && c.stored.status == EMPTY_STATUS
    && Clean(c.stored.id, c.stored.spec, c.objects) && Own(c.stored.id, c.objects) == {}
  }

  /** The states of a run, the initial one first. */
  ghost predicate Run(worlds: seq<World>, steps: seq<Step>) {
    && |worlds| == |steps| + 1
    && Initial(worlds[0])
    && forall i | 0 <= i < |steps| :: Allowed(worlds[i], steps[i]) && worlds[i + 1] == Move(worlds[i], steps[i])
  }

  // ----- Phases -----

  /** How far a breakglass has come, by the condition types it stores. */
  datatype Phase = New | Waiting | Scheduled | Held | GrantAborted | RevokeAborted | Ended

  function Types(p: Phase): seq<ConditionType> {
    match p
    case New => []
    case Waiting => [Pending]
    case Scheduled => [Pending, RecurringPending]
    case Held => [Pending, RecurringPending, RecurringActive]
    case GrantAborted => [Pending, RecurringPending, Failed]
    case RevokeAborted => [Pending, RecurringPending, RecurringActive, Failed]
    case Ended => [Pending, RecurringPending, RecurringActive, Expired]
  }

  ghost predicate InPhase(st: Status, p: Phase) {
    Kinds(st.conditions) == Types(p)
  }

  /** The phase reached by setting a condition in a phase. */
  function Marked(p: Phase, kind: ConditionType): Option<Phase> {
    if kind in Types(p) then Some(p)
    else match (p, kind)
    case (New, Pending) => Some(Waiting)
    case (Waiting, RecurringPending) => Some(Scheduled)
    case (Scheduled, RecurringActive) => Some(Held)
    case (Scheduled, Failed) => Some(GrantAborted)
    case (Held, Failed) => Some(RevokeAborted)
    case (Held, Expired) => Some(Ended)
    case _ => None
  }

  lemma MarkedPhase(st: Status, p: Phase, kind: ConditionType, reason: Reason)
    requires InPhase(st, p) && Marked(p, kind).Some?
    ensures InPhase(WithCondition(st, kind, reason), Marked(p, kind).value)
  {
    SetConditionKinds(st.conditions, Condition(kind, reason));
  }

  lemma PhaseDispatch(st: Status, p: Phase)
    requires InPhase(st, p)
    ensures CurrentCondition(st.conditions) == if p == New then NoCondition else Types(p)[|Types(p)| - 1]
  {
    assert Kinds(st.conditions) == Types(p);
  }

  // ----- The invariant -----

  /** The approval gate is passed. */
  predicate Cleared(r: Resource) {
    r.spec.approvalRequired ==> r.status.approvedBy != ""
  }

  /** Some firing's own window contains the instant. */
  ghost predicate InsideSomeWindow(s: ScheduleSpec, c: Cron, t: Time) {
    exists f: Time :: c.fires(f) && 0 < f <= t <= f + s.duration
  }

  /** What the store says about a grant that has not been completed. */
  ghost predicate NotYetGranted(r: Resource, now: Now) {
    var st := r.status;
    && st.grantedAt.None? && st.expiresAt.None? && st.count == 0 && Cleared(r)
    && match r.spec.schedule.cron
       case NoCron => st.nextAt.None? || st.nextAt == Some(r.spec.schedule.start)
       case BadCron => st.nextAt.None?
       case Every(c) => Perpetual(c) ==> RecordedFiring(c, st, now)
  }

  /** What the store says about a completed grant. */
  ghost predicate GrantStored(r: Resource, now: Now) {
    var s, st := r.spec.schedule, r.status;
    && st.grantedAt.Some? && s.start <= st.grantedAt.value <= now
    && st.count == 1 && st.approvedBy != "" && !s.cron.BadCron? && s.start != ZERO
    && (s.cron.Every? && Perpetual(s.cron.cron) && s.duration > 0 ==>
          InsideSomeWindow(s, s.cron.cron, st.grantedAt.value))
  }

  /** While access is held, the recorded activation is the one after the grant. */
  ghost predicate NextRecorded(s: ScheduleSpec, st: Status)
    requires st.grantedAt.Some?
  {
    match s.cron
    case Every(c) => st.nextAt == Some(CalculateNext(s, c, st.grantedAt.value))
    case _ => st.nextAt.None?
  }

  /** What the store says once the request has expired. */
  ghost predicate ExpiryRecorded(r: Resource, now: Now) {
    var s, st := r.spec.schedule, r.status;
    && st.grantedAt.Some? && st.expiresAt.Some? && st.nextAt.None?
    && s.duration > 0 && st.expiresAt.value < now
    && (s.cron.NoCron? ==> st.expiresAt == Some(s.start + s.duration))
    && (s.cron.Every? && Perpetual(s.cron.cron) ==> st.grantedAt.value <= st.expiresAt.value)
  }

  ghost predicate StatusHolds(r: Resource, p: Phase, now: Now) {
    && InPhase(r.status, p)
    && match p
       case New | Waiting => r.status == EMPTY_STATUS.(conditions := r.status.conditions, approvedBy := r.status.approvedBy)
       case Scheduled | GrantAborted => NotYetGranted(r, now)
       case Held | RevokeAborted => GrantStored(r, now) && r.status.expiresAt.None? && NextRecorded(r.spec.schedule, r.status)
       case Ended => GrantStored(r, now) && ExpiryRecorded(r, now)
  }

  ghost predicate ObjectsHold(c: Cluster, p: Phase, now: Now) {
    var r := c.stored;
    && Clean(r.id, r.spec, c.objects) && NoDangling(r.id, c.objects)
    && (Own(r.id, c.objects) != {} ==> p != New && p != Waiting && p != Ended && r.spec.schedule.start <= now)
    && (c.live && Own(r.id, c.objects) != {} ==> r.finalizer)
    && (c.live && !r.finalizer ==> p == New && !r.deleting)
    && (r.finalizer || r.deleting ==> r.spec.schedule.start != ZERO)
    && (c.live && !r.deleting && p != Held && p != RevokeAborted && p != Ended ==>
          RecordsHold(r.id, r.spec, r.status.created, c.objects))
  }

  ghost predicate HoldsIn(w: World, p: Phase) {
    StatusHolds(w.cluster.stored, p, w.now) && ObjectsHold(w.cluster, p, w.now)
  }

  /** The changes of phase that a step can make. */
  predicate Follows(p: Phase, q: Phase) {
    p == q ||
    match p
    case New => q == Waiting
    case Waiting => q == Scheduled
    case Scheduled => q == Held || q == GrantAborted
    case Held => q == RevokeAborted || q == Ended
    case _ => false
  }

  /** A new phase extends the list of types by one. */
  lemma FollowsExtends(p: Phase, q: Phase)
    requires Follows(p, q)
    ensures Types(p) <= Types(q) && |Types(q)| == |Types(p)| + if p == q then 0 else 1
  {
  }

  // ----- One handler at a time -----

  /** The handler's copy agrees with the store. */
  ghost predicate Loaded(c: Cluster, bg: Resource) {
    bg.id == c.stored.id && bg.spec == c.stored.spec && bg.status == c.stored.status
  }

  /** What the reconciler has checked before it calls a handler. */
  ghost predicate Ready(c: Cluster) {
    ScheduleAccepted(c.stored.spec.schedule) && (c.stored.finalizer || c.stored.deleting)
  }

  /** Storing a status that fits a phase keeps the objects' part of the invariant. */
  lemma StoreKeeps(c: Cluster, st: Status, kind: ConditionType, reason: Reason, fault: Option<ApiError>, result: Result,
                   p: Phase, q: Phase, now: Now)
    requires StatusHolds(c.stored, p, now) && ObjectsHold(c, p, now)
    requires var r := c.stored.(status := WithCondition(st, kind, reason));
             StatusHolds(r, q, now) && ObjectsHold(c.(stored := r), q, now)
    ensures var o := Store(c, st, kind, reason, fault, result);
            HoldsIn(World(o.cluster, now), if WriteAnswer(c, fault).None? then q else p)
  {
  }

  /** Outside the scheduled and held phases, the pending handler only stores one condition. */
  lemma PendingStores(c: Cluster, bg: Resource, now: Now, ch: Choices, p: Phase)
    returns (kind: ConditionType, reason: Reason, result: Result)
    requires InPhase(bg.status, p) && (p.New? || p.Waiting? || p.GrantAborted? || p.RevokeAborted?)
    ensures HandlePending(c, bg, now, ch) == Store(c, bg.status, kind, reason, ch.status, result)
    ensures kind == if p.New? || (bg.spec.approvalRequired && bg.status.approvedBy == "") then Pending else RecurringPending
  {
    PhaseDispatch(bg.status, p);
    hide Process, GrantAndActivate, SetCondition;
    if p.New? {
      kind, reason, result := Pending, NewResource, Again;
    } else if bg.spec.approvalRequired && bg.status.approvedBy == "" {
      assert bg.status.conditions != [];
      kind, reason, result := Pending, WaitingForApproval, After(MIN_REQUEUE);
    } else {
      kind, reason, result := RecurringPending, RecurringWaiting, Again;
    }
  }

  lemma PendingKeeps(c: Cluster, bg: Resource, now: Now, ch: Choices, p: Phase) returns (q: Phase)
    requires HoldsIn(World(c, now), p) && Loaded(c, bg) && Ready(c)
    requires p.New? || p.Waiting? || p.GrantAborted? || p.RevokeAborted?
    ensures HoldsIn(World(HandlePending(c, bg, now, ch).cluster, now), q) && Follows(p, q)
    ensures c.objects == HandlePending(c, bg, now, ch).cluster.objects
  {
    hide Clean, NoDangling, RecordsHold, Perpetual, CalculateNext, InsideSomeWindow, HandlePending;
    var kind, reason, result := PendingStores(c, bg, now, ch, p);
    MarkedPhase(bg.status, p, kind, reason);
    q := Marked(p, kind).value;
    assert StatusHolds(c.stored.(status := WithCondition(bg.status, kind, reason)), q, now);
    StoreKeeps(c, bg.status, kind, reason, ch.status, result, p, q, now);
    if WriteAnswer(c, ch.status).Some? {
      q := p;
    }
  }

  /** A status that processing has made due still describes a grant to come, in an open window. */
  lemma DueIsScheduled(r: Resource, now: Now)
    requires StatusHolds(r, Scheduled, now)
    requires ScheduleAccepted(r.spec.schedule) && r.spec.schedule.start != ZERO
    requires !Process(r.spec.schedule, r.status, now).failed
    requires Due(r.spec.schedule, Process(r.spec.schedule, r.status, now).status, now)
    ensures var st := Process(r.spec.schedule, r.status, now).status;
            && StatusHolds(r.(status := st), Scheduled, now) && st.created == r.status.created
            && (r.spec.schedule.cron.Every? && Perpetual(r.spec.schedule.cron.cron) ==>
                  InsideSomeWindow(r.spec.schedule, r.spec.schedule.cron.cron, now))
  {
    var s := r.spec.schedule;
    ProcessFrame(s, r.status, now);
    if s.cron.Every? && Perpetual(s.cron.cron) {
      DueInOpenWindow(s, r.status, now);
      var f := Process(s, r.status, now).status.nextAt.value;
      assert s.cron.cron.fires(f);
    }
  }

  /** A grant attempt, complete or not, leaves a state that is still waiting for its grant. */
  lemma AttemptKeeps(c: Cluster, bg: Resource, effort: Effort, index: Option<ApiError>, now: Now)
    requires HoldsIn(World(c, now), Scheduled) && Ready(c)
    requires bg.id == c.stored.id && bg.spec == c.stored.spec && bg.status.created == c.stored.status.created
    requires StatusHolds(c.stored.(status := bg.status), Scheduled, now) && bg.spec.schedule.start <= now
    ensures var g := GrantAccess(c, bg, effort, index);
            && HoldsIn(World(g.cluster, now), Scheduled)
            && StatusHolds(c.stored.(status := g.status), Scheduled, now)
            && ObjectsHold(g.cluster.(stored := c.stored.(status := g.status)), Scheduled, now)
            && g.cluster.stored == c.stored.(status := g.cluster.stored.status)
  {
    hide Plan, Clean, NoDangling, RecordsHold, Perpetual, CalculateNext;
    GrantKeepsClean(c, bg, effort, index);
    GrantKeepsNoDangling(c, bg, effort, index);
    var g := GrantAccess(c, bg, effort, index);
    if c.live && !c.stored.deleting {
      GrantKeepsRecords(c, bg, effort, index);
    }
  }

  /** The status a completed grant stores. */
  function GrantedStatus(s: ScheduleSpec, st: Status, now: Now): Status {
    var approver := if st.approvedBy == "" then DEFAULT_APPROVER else st.approvedBy;
    var m := Recurring.Advance(s, st.(approvedBy := approver, grantedAt := Some(now), expiresAt := None), now);
    WithCondition(m.status, RecurringActive, RecurringActivated)
  }

  lemma GrantedIsHeld(r: Resource, now: Now)
    requires StatusHolds(r, Scheduled, now)
    requires ZERO != r.spec.schedule.start <= now && !r.spec.schedule.cron.BadCron?
    requires r.spec.schedule.cron.Every? && Perpetual(r.spec.schedule.cron.cron) ==>
               InsideSomeWindow(r.spec.schedule, r.spec.schedule.cron.cron, now)
    ensures StatusHolds(r.(status := GrantedStatus(r.spec.schedule, r.status, now)), Held, now)
  {
    var s := r.spec.schedule;
    var approver := if r.status.approvedBy == "" then DEFAULT_APPROVER else r.status.approvedBy;
    var st := r.status.(approvedBy := approver, grantedAt := Some(now), expiresAt := None);
    var m := Recurring.Advance(s, st, now);
    SetConditionKinds(st.conditions, Condition(RecurringPending, RecurringScheduled));
    MarkedPhase(m.status, Scheduled, RecurringActive, RecurringActivated);
  }

  /** A grant that fails for good. */
  lemma AbortKeeps(c: Cluster, st: Status, fault: Option<ApiError>, now: Now) returns (q: Phase)
    requires HoldsIn(World(c, now), Scheduled)
    requires StatusHolds(c.stored.(status := st), Scheduled, now)
    requires ObjectsHold(c.(stored := c.stored.(status := st)), Scheduled, now)
    ensures HoldsIn(World(Store(c, st, Failed, RBACCreationFailed, fault, Done).cluster, now), q)
    ensures Follows(Scheduled, q) && q != Held
  {
    hide Clean, NoDangling, RecordsHold;
    MarkedPhase(st, Scheduled, Failed, RBACCreationFailed);
    StoreKeeps(c, st, Failed, RBACCreationFailed, fault, Done, Scheduled, GrantAborted, now);
    q := if WriteAnswer(c, fault).None? then GrantAborted else Scheduled;
  }

  /** A grant that succeeds. */
  lemma ActivateKeeps(c: Cluster, st: Status, fault: Option<ApiError>, now: Now) returns (q: Phase)
    requires HoldsIn(World(c, now), Scheduled) && Ready(c)
    requires StatusHolds(c.stored.(status := st), Scheduled, now)
    requires var s := c.stored.spec.schedule;
             && s.start <= now && !s.cron.BadCron?
             && (s.cron.Every? && Perpetual(s.cron.cron) ==> InsideSomeWindow(s, s.cron.cron, now))
    ensures HoldsIn(World(WriteStatus(c, GrantedStatus(c.stored.spec.schedule, st, now), fault), now), q)
    ensures Follows(Scheduled, q)
  {
    hide Clean, NoDangling, RecordsHold;
    GrantedIsHeld(c.stored.(status := st), now);
    q := if c.live && fault.None? then Held else Scheduled;
  }

  lemma GrantKeeps(c: Cluster, bg: Resource, now: Now, ch: Choices) returns (q: Phase)
    requires HoldsIn(World(c, now), Scheduled) && Ready(c)
    requires bg.id == c.stored.id && bg.spec == c.stored.spec
    requires var m := Process(bg.spec.schedule, c.stored.status, now);
             !m.failed && bg.status == m.status && Due(bg.spec.schedule, m.status, now)
    ensures HoldsIn(World(GrantAndActivate(c, bg, now, ch).cluster, now), q) && Follows(Scheduled, q)
    ensures q == Held ==> GrantAccess(c, bg, ch.effort, ch.index).err.None?
  {
    DueIsScheduled(c.stored, now);
    AttemptKeeps(c, bg, ch.effort, ch.index, now);
    hide HoldsIn, StatusHolds, ObjectsHold, GrantAccess, CurrentWindow;
    var g := GrantAccess(c, bg, ch.effort, ch.index);
    q := Scheduled;
    if g.err.None? {
      q := ActivateKeeps(g.cluster, g.status, ch.status, now);
    } else if !g.err.value.retryable {
      q := AbortKeeps(g.cluster, g.status, ch.status, now);
    }
  }

  lemma RecurringPendingKeeps(c: Cluster, bg: Resource, now: Now, ch: Choices, p: Phase) returns (q: Phase)
    requires HoldsIn(World(c, now), p) && Loaded(c, bg) && Ready(c)
    requires p == Scheduled
    ensures HoldsIn(World(HandleRecurringPending(c, bg, now, ch).cluster, now), q) && Follows(p, q)
  {
    PhaseDispatch(bg.status, p);
    hide HoldsIn, Process, Due, GrantAndActivate;
    q := p;
    var m := Process(bg.spec.schedule, bg.status, now);
    if !m.failed && Due(bg.spec.schedule, m.status, now) {
      q := GrantKeeps(c, bg.(status := m.status), now, ch);
    }
  }

  /** A cleanup, however it ends, keeps the objects' part of the invariant, once recorded names need not exist. */
  lemma SweepKeeps(c: Cluster, left: Objects, err: Option<RbacError>, p: Phase, now: Now)
    requires HoldsIn(World(c, now), p) && Swept(c.stored.id, c.objects, left, err)
    requires c.stored.deleting || p == Held
    ensures HoldsIn(World(c.(objects := left), now), p)
    ensures Own(c.stored.id, left) <= Own(c.stored.id, c.objects)
  {
    var r := c.stored;
    SweepKeepsClean(r.id, r.spec, c.objects, left, err);
    SweepKeepsNoDangling(r.id, r.spec, c.objects, left, err);
  }

  /** The end of the window that closes a held grant lies between the grant and now. */
  lemma ExpiryIsRecorded(r: Resource, now: Now)
    requires StatusHolds(r, Held, now) && r.spec.schedule.start != ZERO
    requires WindowOver(r.spec.schedule, r.status, now)
    ensures var window := CurrentWindow(r.spec.schedule, r.status, now);
            ExpiryRecorded(r.(status := r.status.(expiresAt := Some(window.value.end), nextAt := None)), now)
  {
    var s, st := r.spec.schedule, r.status;
    if s.cron.Every? && Perpetual(s.cron.cron) {
      var c, g := s.cron.cron, st.grantedAt.value;
      assert NextFiring(c, g) != ZERO;
      var f: Time :| c.fires(f) && 0 < f <= g <= f + s.duration;
      WindowEndsAfterFiring(s, st, now, f);
    }
  }

  lemma PostRevokeKeeps(c: Cluster, bg: Resource, now: Now, ch: Choices) returns (q: Phase)
    requires HoldsIn(World(c, now), Held) && Loaded(c, bg) && Ready(c)
    requires WindowOver(bg.spec.schedule, bg.status, now) && Own(c.stored.id, c.objects) == {}
    ensures HoldsIn(World(PostRevoke(c, bg, now, ch).cluster, now), q) && Follows(Held, q)
    ensures Own(c.stored.id, PostRevoke(c, bg, now, ch).cluster.objects) == {}
    ensures q == Ended ==> ch.status.None? && c.live
  {
    hide Clean, NoDangling, RecordsHold, Perpetual, CalculateNext, InsideSomeWindow;
    var s, st := bg.spec.schedule, bg.status;
    q := Held;
    if HasFutureActivations(s, st) {
      var reason := if st.nextAt.Some? then RecurringScheduled else RecurringWaiting;
      MarkedPhase(st.(expiresAt := None), Held, RecurringPending, reason);
      StoreKeeps(c, st.(expiresAt := None), RecurringPending, reason, ch.status, Done, Held, Held, now);
    } else {
      var window := CurrentWindow(s, st, now);
      var st' := st.(expiresAt := Some(window.value.end), nextAt := None);
      ExpiryIsRecorded(c.stored, now);
      MarkedPhase(st', Held, Expired, AccessExpired);
      var r := c.stored.(status := WithCondition(st', Expired, AccessExpired));
      assert StatusHolds(r, Ended, now);
      StoreKeeps(c, st', Expired, AccessExpired, ch.status, Done, Held, Ended, now);
      if WriteAnswer(c, ch.status).None? {
        q := Ended;
      }
    }
  }

  lemma RecurringActiveKeeps(c: Cluster, bg: Resource, now: Now, ch: Choices) returns (q: Phase)
    requires HoldsIn(World(c, now), Held) && Loaded(c, bg) && Ready(c)
    requires Swept(c.stored.id, c.objects, ch.revoke.left, ch.revoke.err)
    ensures HoldsIn(World(HandleRecurringActive(c, bg, now, ch).cluster, now), q) && Follows(Held, q)
    ensures Own(c.stored.id, HandleRecurringActive(c, bg, now, ch).cluster.objects) <= Own(c.stored.id, c.objects)
  {
    hide Clean, NoDangling, RecordsHold, Perpetual, CalculateNext, InsideSomeWindow, CurrentWindow;
    q := Held;
    if WindowOver(bg.spec.schedule, bg.status, now) {
      SweepKeeps(c, ch.revoke.left, ch.revoke.err, Held, now);
      var swept := c.(objects := ch.revoke.left);
      if ch.revoke.err.None? {
        q := PostRevokeKeeps(swept, bg, now, ch);
      } else if !ch.revoke.err.value.retryable {
        MarkedPhase(bg.status, Held, Failed, RevokeFailed);
        StoreKeeps(swept, bg.status, Failed, RevokeFailed, ch.status, Failure, Held, RevokeAborted, now);
        if WriteAnswer(swept, ch.status).None? {
          q := RevokeAborted;
        }
      }
    }
  }

  lemma DispatchedByPhase(c: Cluster, bg: Resource, p: Phase, now: Now)
    requires HoldsIn(World(c, now), p) && Loaded(c, bg)
    ensures CurrentCondition(bg.status.conditions) == if p == New then NoCondition else Types(p)[|Types(p)| - 1]
  {
    PhaseDispatch(bg.status, p);
  }

  lemma DispatchKeeps(c: Cluster, bg: Resource, now: Now, ch: Choices, p: Phase) returns (q: Phase)
    requires HoldsIn(World(c, now), p) && Loaded(c, bg) && Ready(c)
    requires Swept(c.stored.id, c.objects, ch.revoke.left, ch.revoke.err)
    ensures HoldsIn(World(Dispatch(c, bg, now, ch).cluster, now), q) && Follows(p, q)
    ensures p != Scheduled ==> Own(c.stored.id, Dispatch(c, bg, now, ch).cluster.objects) <= Own(c.stored.id, c.objects)
  {
    hide HoldsIn, Ready, Loaded, HandlePending, HandleRecurringPending, HandleRecurringActive;
    DispatchedByPhase(c, bg, p, now);
    match p
    case New | Waiting | GrantAborted | RevokeAborted =>
      q := PendingKeeps(c, bg, now, ch, p);
    case Scheduled =>
      q := RecurringPendingKeeps(c, bg, now, ch, p);
    case Held =>
      q := RecurringActiveKeeps(c, bg, now, ch);
    case Ended =>
      q := p;
  }

  // ----- The reconciler -----

  /** The cluster just after the cleanup of a deletion, before the finalizer goes. */
  lemma DeletionCleanupKeeps(w: World, ch: Choices, p: Phase)
    requires HoldsIn(w, p) && w.cluster.live && w.cluster.stored.deleting && Possible(w.cluster, ch)
    ensures HoldsIn(w.(cluster := CleanupOnDelete(w.cluster, ch)), p)
    ensures Own(w.cluster.stored.id, CleanupOnDelete(w.cluster, ch).objects) <= Own(w.cluster.stored.id, w.cluster.objects)
    ensures !CleanupFailed(ch) ==> Own(w.cluster.stored.id, CleanupOnDelete(w.cluster, ch).objects) == {}
  {
    SweepKeeps(w.cluster, ch.sweep1.left, ch.sweep1.err, p, w.now);
    if ch.sweep1.err.None? {
      var once := w.cluster.(objects := ch.sweep1.left);
      SweepKeeps(once, ch.sweep2.left, ch.sweep2.err, p, w.now);
      assert CleanupOnDelete(w.cluster, ch) == once.(objects := ch.sweep2.left);
    }
  }

  lemma FinalizersKeep(w: World, ch: Choices, p: Phase)
    requires HoldsIn(w, p) && w.cluster.live && Possible(w.cluster, ch)
    requires ScheduleAccepted(w.cluster.stored.spec.schedule)
    ensures var r := w.cluster.stored;
            var bg := r.(spec := Defaulted(r.spec, w.now));
            var f := ReconcileFinalizers(w.cluster, bg, ch);
            && HoldsIn(w.(cluster := f.cluster), p)
            && Own(r.id, f.cluster.objects) <= Own(r.id, w.cluster.objects)
            && (f.Go? ==> Loaded(f.cluster, bg) && Ready(f.cluster))
            && (f.Go? ==> Swept(r.id, f.cluster.objects, ch.revoke.left, ch.revoke.err))
  {
    hide InPhase, Perpetual, RecordedFiring, CalculateNext, Swept, NoDangling;
    var r := w.cluster.stored;
    if r.deleting {
      DeletionCleanupKeeps(w, ch, p);
    }
  }

  lemma ReconcileKeeps(w: World, ch: Choices, p: Phase) returns (q: Phase)
    requires HoldsIn(w, p) && Possible(w.cluster, ch)
    ensures HoldsIn(w.(cluster := Reconcile(w.cluster, w.now, ch).0), q) && Follows(p, q)
    ensures p != Scheduled ==>
              Own(w.cluster.stored.id, Reconcile(w.cluster, w.now, ch).0.objects) <= Own(w.cluster.stored.id, w.cluster.objects)
  {
    q := p;
    var r := w.cluster.stored;
    if w.cluster.live && ch.read && ScheduleAccepted(r.spec.schedule) {
      FinalizersKeep(w, ch, p);
      var bg := r.(spec := Defaulted(r.spec, w.now));
      var f := ReconcileFinalizers(w.cluster, bg, ch);
      if f.Go? {
        q := DispatchKeeps(f.cluster, bg.(finalizer := f.cluster.stored.finalizer), w.now, ch, p);
      }
    }
  }

  lemma MoveKeeps(w: World, step: Step, p: Phase) returns (q: Phase)
    requires HoldsIn(w, p) && Allowed(w, step)
    ensures HoldsIn(Move(w, step), q) && Follows(p, q)
    ensures p != Scheduled ==>
              Own(w.cluster.stored.id, Move(w, step).cluster.objects) <= Own(w.cluster.stored.id, w.cluster.objects)
  {
    hide Reconcile, Possible, Perpetual, CalculateNext, NoDangling, RecordsHold, InsideSomeWindow;
    q := p;
    match step
    case Reconciled(ch) => q := ReconcileKeeps(w, ch, p);
    case Others(objects) => OthersKeep(w, objects, p);
    case _ =>
  }

  lemma OthersKeep(w: World, objects: Objects, p: Phase)
    requires HoldsIn(w, p) && Allowed(w, Others(objects))
    ensures HoldsIn(Move(w, Others(objects)), p)
  {
    var r, before := w.cluster.stored, w.cluster.objects;
    OwnIsWanted(r.id, r.spec, before);
    OwnIsWanted(r.id, r.spec, objects);
    forall k | k in objects && objects[k].RoleBinding? && Matches(LabelsOf(r.id), objects[k].labels)
      ensures Key(Roles, k.namespace, objects[k].role) in objects
    {
      assert k in Own(r.id, before) && before[k] == objects[k];
      var role := Key(Roles, k.namespace, objects[k].role);
      assert role in before && Wanted(r.id, r.spec, role).Some?;
      assert role in Own(r.id, before);
    }
    if w.cluster.live && !r.deleting && p != Held && p != RevokeAborted && p != Ended {
      forall n | n in r.status.created
        ensures KeyFor(r.spec, n) in objects
      {
        assert KeyFor(r.spec, n) in Own(r.id, before);
      }
    }
  }

  lemma OwnIsWanted(id: Identity, spec: Spec, objects: Objects)
    requires Clean(id, spec, objects)
    ensures forall k | k in objects :: k in Own(id, objects) <==> Wanted(id, spec, k).Some?
    ensures forall k | k in Own(id, objects) :: Wanted(id, spec, k) == Some(objects[k])
  {
    WantedCarryLabels(id, spec);
  }
}
