/** What faults of the API lead to: when a request fails for good, when it is retried, and that it is never forgotten. */
module Faults {
  import opened Options
  import opened Schedules
  import opened Resources
  import opened Windows
  import opened Recurring
  import opened Api
  import opened Rbac
  import opened RbacProofs
  import opened Lifecycle
  import opened Safety
  import opened Theorems
  import opened Timing

  // ----- Errors to give up on -----

  /** The error that stops a grant of what is stored: of a create before the end of the plan, or of the record update. */
  function GrantError(c: Cluster, ch: Choices): Option<ApiError> {
    if ch.effort.made < |Plan(c.stored)| then Some(ch.effort.fault)
    else if Plan(c.stored) == [] then None
    else ch.index
  }

  /** The reconcile revokes: it reaches the handler with access held and the window over. */
  ghost predicate Revoking(w: World, ch: Choices) {
    var c := w.cluster;
    && c.live && ch.read && ScheduleAccepted(c.stored.spec.schedule)
    && var bg := c.stored.(spec := Defaulted(c.stored.spec, w.now));
       && ReconcileFinalizers(c, bg, ch).Go?
       && CurrentCondition(bg.status.conditions) == RecurringActive
       && WindowOver(bg.spec.schedule, bg.status, w.now)
  }

  /** The grant or the revoke of the reconcile met an error that is not worth retrying. */
  ghost predicate Refused(w: World, ch: Choices) {
    || (Granting(w, ch) && GrantError(w.cluster, ch).Some? && !IsRetryable(GrantError(w.cluster, ch).value))
    || (Revoking(w, ch) && ch.revoke.err.Some? && !ch.revoke.err.value.retryable)
  }

  lemma MildIsNotRefused(w: World, ch: Choices)
    requires Mild(ch)
    ensures !Refused(w, ch)
  {
  }

  // ----- Failing -----

  /** What a grant attempt answers, in terms of its first error. */
  lemma GrantAnswer(c: Cluster, bg: Resource, ch: Choices)
    requires bg.id == c.stored.id && bg.spec == c.stored.spec && bg.status.created == c.stored.status.created && c.live
    ensures var g, e := GrantAccess(c, bg, ch.effort, ch.index), GrantError(c, ch);
            && (g.err.Some? <==> e.Some?)
            && (e.Some? ==> g.err.value == Classified(e.value) && g.cluster.stored == c.stored)
            && g.cluster.live && g.status.conditions == bg.status.conditions
            && g.cluster.stored.status.conditions in {c.stored.status.conditions, bg.status.conditions}
  {
    PlanIgnoresRest(bg, c.stored);
    hide Plan, Build;
  }

  /** A live due grant fails for good exactly if it meets an error not worth retrying, and can say so. */
  lemma GrantFailsExactly(c: Cluster, bg: Resource, now: Now, ch: Choices)
    requires bg.id == c.stored.id && bg.spec == c.stored.spec && bg.status.created == c.stored.status.created && c.live
    requires InPhase(c.stored.status, Scheduled) && InPhase(bg.status, Scheduled)
    ensures var e := GrantError(c, ch);
            CurrentCondition(GrantAndActivate(c, bg, now, ch).cluster.stored.status.conditions) == Failed <==>
            ch.status.None? && e.Some? && !IsRetryable(e.value)
  {
    hide GrantAndActivate, GrantAccess, GrantError, GrantedStatus, WithCondition, InPhase, CurrentCondition;
    GrantAnswer(c, bg, ch);
    GrantStores(c, bg, now, ch);
    var g := GrantAccess(c, bg, ch.effort, ch.index);
    SamePhase(bg.status, g.status, Scheduled);
    PhaseDispatch(c.stored.status, Scheduled);
    PhaseDispatch(bg.status, Scheduled);
    MarkedPhase(g.status, Scheduled, Failed, RBACCreationFailed);
    PhaseDispatch(WithCondition(g.status, Failed, RBACCreationFailed), GrantAborted);
    GrantedPhase(bg.spec.schedule, g.status, now);
    PhaseDispatch(GrantedStatus(bg.spec.schedule, g.status, now), Held);
  }

  lemma SamePhase(st: Status, later: Status, p: Phase)
    requires InPhase(st, p) && later.conditions == st.conditions
    ensures InPhase(later, p) && CurrentCondition(later.conditions) == CurrentCondition(st.conditions)
  {
  }

  /** What `GrantAndActivate` stores after its grant. */
  lemma GrantStores(c: Cluster, bg: Resource, now: Now, ch: Choices)
    ensures var g, s := GrantAccess(c, bg, ch.effort, ch.index), bg.spec.schedule;
            var o := GrantAndActivate(c, bg, now, ch);
            if g.err.Some? then
              if g.err.value.retryable then o == Outcome(g.cluster, g.status, After(BACKOFF))
              else o.cluster == WriteStatus(g.cluster, WithCondition(g.status, Failed, RBACCreationFailed), ch.status)
            else if s.cron.BadCron? then o.cluster == g.cluster
            else o.cluster == WriteStatus(g.cluster, GrantedStatus(s, g.status, now), ch.status)
  {
    hide GrantAccess, SetCondition, CurrentWindow, CalculateNext;
  }

  lemma GrantedPhase(s: ScheduleSpec, st: Status, now: Now)
    requires InPhase(st, Scheduled)
    ensures InPhase(GrantedStatus(s, st, now), Held)
  {
    var approver := if st.approvedBy == "" then DEFAULT_APPROVER else st.approvedBy;
    var granted := st.(approvedBy := approver, grantedAt := Some(now), expiresAt := None);
    AdvanceKeepsPhase(s, granted, now);
    MarkedPhase(Advance(s, granted, now).status, Scheduled, RecurringActive, RecurringActivated);
    hide Advance, SetCondition;
  }

  lemma AdvanceKeepsPhase(s: ScheduleSpec, st: Status, now: Now)
    requires InPhase(st, Scheduled)
    ensures InPhase(Advance(s, st, now).status, Scheduled)
  {
    MarkedPhase(st, Scheduled, RecurringPending, RecurringScheduled);
    hide SetCondition, CalculateNext;
  }

  /** A live revoke fails for good exactly if its cleanup meets an error not worth retrying, and can say so. */
  lemma RevokeFailsExactly(c: Cluster, bg: Resource, now: Now, ch: Choices)
    requires Loaded(c, bg) && c.live && InPhase(bg.status, Held)
    requires WindowOver(bg.spec.schedule, bg.status, now)
    requires Swept(bg.id, c.objects, ch.revoke.left, ch.revoke.err)
    ensures CurrentCondition(HandleRecurringActive(c, bg, now, ch).cluster.stored.status.conditions) == Failed <==>
            ch.status.None? && ch.revoke.err.Some? && !ch.revoke.err.value.retryable
  {
    hide SetCondition, CurrentWindow;
    PhaseDispatch(bg.status, Held);
    MarkedPhase(bg.status, Held, Failed, RevokeFailed);
    PhaseDispatch(WithCondition(bg.status, Failed, RevokeFailed), RevokeAborted);
    PostRevokeCondition(c.(objects := ch.revoke.left), bg, now, ch);
    hide PostRevoke;
  }

  lemma PostRevokeCondition(c: Cluster, bg: Resource, now: Now, ch: Choices)
    requires Loaded(c, bg) && InPhase(bg.status, Held)
    ensures CurrentCondition(PostRevoke(c, bg, now, ch).cluster.stored.status.conditions) != Failed
  {
    hide SetCondition, CurrentWindow;
    var st := bg.status;
    PhaseDispatch(st, Held);
    var reason := if st.nextAt.Some? then RecurringScheduled else RecurringWaiting;
    MarkedPhase(st.(expiresAt := None), Held, RecurringPending, reason);
    PhaseDispatch(WithCondition(st.(expiresAt := None), RecurringPending, reason), Held);
    var window := CurrentWindow(bg.spec.schedule, st, now);
    var st' := st.(expiresAt := if window.Some? then Some(window.value.end) else None, nextAt := None);
    MarkedPhase(st', Held, Expired, AccessExpired);
    PhaseDispatch(WithCondition(st', Expired, AccessExpired), Ended);
  }

  /**
   * A reconcile stores Failed exactly if its grant or revoke meets an error that is not worth
   * retrying, and its status update works.
   */
  lemma FailsExactly(w: World, ch: Choices, p: Phase)
    requires HoldsIn(w, p) && Possible(w.cluster, ch) && p != GrantAborted && p != RevokeAborted
    ensures var after := Reconcile(w.cluster, w.now, ch).0;
            after.live ==>
              (CurrentCondition(after.stored.status.conditions) == Failed <==> ch.status.None? && Refused(w, ch))
  {
    hide HoldsIn, Possible, Dispatch, Refused, Revoking, Granting, GrantError, Ready, Loaded, Swept;
    var c, r := w.cluster, w.cluster.stored;
    DispatchedByPhase(c, r, p, w.now);
    NotServed(w, ch);
    if c.live && ch.read && ScheduleAccepted(r.spec.schedule) {
      FinalizersKeep(w, ch, p);
      var bg := r.(spec := Defaulted(r.spec, w.now));
      var f := ReconcileFinalizers(c, bg, ch);
      if f.Go? {
        HandlersKeepFinalizer(f.cluster, bg.(finalizer := f.cluster.stored.finalizer), w.now, ch);
        if f.cluster.live {
          ServedKeepsStatus(w, ch);
          DispatchFailsExactly(w, f.cluster, bg.(finalizer := f.cluster.stored.finalizer), ch, p);
        }
      }
    }
  }

  lemma NotServed(w: World, ch: Choices)
    ensures Refused(w, ch) ==>
              && w.cluster.live && ch.read && ScheduleAccepted(w.cluster.stored.spec.schedule)
              && var bg := w.cluster.stored.(spec := Defaulted(w.cluster.stored.spec, w.now));
                 ReconcileFinalizers(w.cluster, bg, ch).Go?
  {
    hide Process, Due, WindowOver, GrantError, ReconcileFinalizers;
  }

  /** Before its handler a reconcile leaves the stored status alone. */
  lemma ServedKeepsStatus(w: World, ch: Choices)
    ensures var c := w.cluster;
            var f := ReconcileFinalizers(c, c.stored.(spec := Defaulted(c.stored.spec, w.now)), ch);
            f.Go? ==> f.cluster.stored.status == c.stored.status && f.cluster.stored.id == c.stored.id
  {
  }

  lemma DispatchFailsExactly(w: World, c: Cluster, bg: Resource, ch: Choices, p: Phase)
    requires HoldsIn(World(c, w.now), p) && Loaded(c, bg) && Ready(c) && c.live
    requires p != GrantAborted && p != RevokeAborted
    requires Swept(c.stored.id, c.objects, ch.revoke.left, ch.revoke.err)
    requires w.cluster.live && ch.read && ScheduleAccepted(w.cluster.stored.spec.schedule)
    requires var r := w.cluster.stored;
             var given := r.(spec := Defaulted(r.spec, w.now));
             && ReconcileFinalizers(w.cluster, given, ch) == Go(c)
             && bg == given.(finalizer := bg.finalizer)
    ensures CurrentCondition(Dispatch(c, bg, w.now, ch).cluster.stored.status.conditions) == Failed <==>
            ch.status.None? && Refused(w, ch)
  {
    hide HoldsIn, ReconcileFinalizers, Process, Due, WindowOver, GrantError, GrantAndActivate, Swept, SetCondition,
      RevokeAndExpire, Ready, InPhase, Defaulted, ScheduleAccepted;
    InPhaseOf(World(c, w.now), p);
    DispatchedByPhase(c, bg, p, w.now);
    ErrorOfPlan(w, c, bg, ch);
    match p
    case New | Waiting =>
      FirstStepsNeverFail(c, bg, w.now, ch, p);
    case Scheduled =>
      var m := Process(bg.spec.schedule, bg.status, w.now);
      if !m.failed && Due(bg.spec.schedule, m.status, w.now) {
        DueGrants(c, bg, w.now, ch);
        DuePhase(World(c, w.now), bg);
        GrantFailsExactly(c, bg.(status := m.status), w.now, ch);
      } else {
        NotDue(c, bg, w.now, ch);
      }
    case Held =>
      HeldFailsExactly(c, bg, w.now, ch);
    case Ended =>
  }

  /** The default start does not change what there is to create. */
  lemma ErrorOfPlan(w: World, c: Cluster, bg: Resource, ch: Choices)
    requires Loaded(c, bg) && bg.id == w.cluster.stored.id && bg.status == w.cluster.stored.status
    requires bg.spec == Defaulted(w.cluster.stored.spec, w.now)
    ensures GrantError(c, ch) == GrantError(w.cluster, ch)
  {
    SamePlan(c.stored, w.cluster.stored);
    hide Plan;
  }

  lemma FirstStepsNeverFail(c: Cluster, bg: Resource, now: Now, ch: Choices, p: Phase)
    requires Loaded(c, bg) && InPhase(bg.status, p) && (p == New || p == Waiting)
    ensures CurrentCondition(HandlePending(c, bg, now, ch).cluster.stored.status.conditions) != Failed
  {
    hide HandlePending, SetCondition;
    var kind, reason, result := PendingStores(c, bg, now, ch, p);
    PhaseDispatch(bg.status, p);
    MarkedPhase(bg.status, p, kind, reason);
    PhaseDispatch(WithCondition(bg.status, kind, reason), Marked(p, kind).value);
  }

  lemma DuePhase(w: World, bg: Resource)
    requires HoldsIn(w, Scheduled) && Loaded(w.cluster, bg) && Ready(w.cluster)
    requires !Process(bg.spec.schedule, bg.status, w.now).failed
    requires Due(bg.spec.schedule, Process(bg.spec.schedule, bg.status, w.now).status, w.now)
    ensures var st := Process(bg.spec.schedule, bg.status, w.now).status;
            InPhase(st, Scheduled) && st.created == bg.status.created
  {
    DueIsScheduled(w.cluster.stored, w.now);
    hide ObjectsHold, Process;
  }

  lemma HeldFailsExactly(c: Cluster, bg: Resource, now: Now, ch: Choices)
    requires Loaded(c, bg) && c.live && InPhase(bg.status, Held)
    requires Swept(bg.id, c.objects, ch.revoke.left, ch.revoke.err)
    ensures CurrentCondition(HandleRecurringActive(c, bg, now, ch).cluster.stored.status.conditions) == Failed <==>
            && WindowOver(bg.spec.schedule, bg.status, now)
            && ch.status.None? && ch.revoke.err.Some? && !ch.revoke.err.value.retryable
  {
    PhaseDispatch(bg.status, Held);
    if WindowOver(bg.spec.schedule, bg.status, now) {
      RevokeFailsExactly(c, bg, now, ch);
    } else {
      hide WindowOver, Process, CurrentWindow;
    }
  }

  /** The step is a reconcile that meets an error not worth retrying. */
  ghost predicate Refusing(w: World, step: Step) {
    step.Reconciled? && Refused(w, step.ch)
  }

  /** In every run, Failed has a cause: some earlier reconcile met an error that is not worth retrying. */
  lemma {:induction false} FailedHasCause(worlds: seq<World>, steps: seq<Step>, i: nat)
    requires Run(worlds, steps) && i < |worlds|
    requires CurrentCondition(worlds[i].cluster.stored.status.conditions) == Failed
    ensures exists j | 0 <= j < i :: Refusing(worlds[j], steps[j])
  {
    hide HoldsIn, Allowed, Move, Refusing, Initial;
    var p := StatusOf(worlds, steps, i);
    if i == 0 {
      StartsClean(worlds[0]);
    } else if CurrentCondition(worlds[i - 1].cluster.stored.status.conditions) == Failed {
      FailedHasCause(worlds, steps, i - 1);
    } else {
      assert Allowed(worlds[i - 1], steps[i - 1]) && worlds[i] == Move(worlds[i - 1], steps[i - 1]);
      var before := StatusOf(worlds, steps, i - 1);
      FailingStep(worlds[i - 1], steps[i - 1], before);
    }
  }

  /** A run whose reconciles meet only errors worth retrying never stores Failed. */
  lemma MildRunsNeverFail(worlds: seq<World>, steps: seq<Step>, i: nat)
    requires Run(worlds, steps) && i < |worlds|
    requires forall j | 0 <= j < i && steps[j].Reconciled? :: Mild(steps[j].ch)
    ensures CurrentCondition(worlds[i].cluster.stored.status.conditions) != Failed
  {
    hide Initial, Allowed, Move, Refused, Mild;
    if CurrentCondition(worlds[i].cluster.stored.status.conditions) == Failed {
      FailedHasCause(worlds, steps, i);
      var j :| 0 <= j < i && Refusing(worlds[j], steps[j]);
      MildIsNotRefused(worlds[j], steps[j].ch);
    }
  }

  lemma StartsClean(w: World)
    requires Initial(w)
    ensures w.cluster.stored.status.conditions == []
  {
  }

  lemma FailingStep(w: World, step: Step, p: Phase)
    requires HoldsIn(w, p) && Allowed(w, step)
    requires CurrentCondition(w.cluster.stored.status.conditions) != Failed
    requires CurrentCondition(Move(w, step).cluster.stored.status.conditions) == Failed
    ensures Refusing(w, step)
  {
    hide HoldsIn, Reconcile, Refused, Possible, Clean, Own;
    DispatchedByPhase(w.cluster, w.cluster.stored, p, w.now);
    if step.Reconciled? {
      FailsExactly(w, step.ch, p);
      if !Reconcile(w.cluster, w.now, step.ch).0.live {
        EndingNeverFails(w, step.ch);
      }
    }
  }

  /** Once the resource has ended no status is stored. */
  lemma EndingNeverFails(w: World, ch: Choices)
    requires !Reconcile(w.cluster, w.now, ch).0.live
    ensures Reconcile(w.cluster, w.now, ch).0.stored.status == w.cluster.stored.status
  {
    hide Dispatch, ScheduleAccepted, Defaulted;
    var c := w.cluster;
    if c.live && ch.read && ScheduleAccepted(c.stored.spec.schedule) {
      var bg := c.stored.(spec := Defaulted(c.stored.spec, w.now));
      var f := ReconcileFinalizers(c, bg, ch);
      ServedKeepsStatus(w, ch);
      if f.Go? {
        HandlersKeepFinalizer(f.cluster, bg.(finalizer := f.cluster.stored.finalizer), w.now, ch);
        EndedKeepsStatus(f.cluster, bg.(finalizer := f.cluster.stored.finalizer), w.now, ch);
      }
    }
  }

  lemma EndedKeepsStatus(c: Cluster, bg: Resource, now: Now, ch: Choices)
    requires !c.live
    ensures Dispatch(c, bg, now, ch).cluster.stored == c.stored
  {
    hide GrantAndActivate, RevokeAndExpire, Process, CurrentWindow, SetCondition, Due;
    EndedGrants(c, bg.(status := Process(bg.spec.schedule, bg.status, now).status), now, ch);
    EndedRevokes(c, bg, now, ch);
  }

  lemma EndedGrants(c: Cluster, bg: Resource, now: Now, ch: Choices)
    requires !c.live
    ensures GrantAndActivate(c, bg, now, ch).cluster.stored == c.stored
  {
    hide Plan, Build, CurrentWindow, SetCondition, Advance;
  }

  lemma EndedRevokes(c: Cluster, bg: Resource, now: Now, ch: Choices)
    requires !c.live
    ensures RevokeAndExpire(c, bg, now, ch).cluster.stored == c.stored
  {
    hide CurrentWindow, SetCondition;
  }

  // ----- Retrying -----

  /** A due grant or an overdue revoke that meets an error worth retrying stores nothing, and is tried again soon. */
  lemma RetryableIsRetried(w: World, ch: Choices, p: Phase)
    requires HoldsIn(w, p) && Possible(w.cluster, ch) && !w.cluster.stored.deleting
    requires (Granting(w, ch) && GrantError(w.cluster, ch).Some?) || (Revoking(w, ch) && ch.revoke.err.Some?)
    requires !Refused(w, ch)
    ensures var (after, result) := Reconcile(w.cluster, w.now, ch);
            after.stored == w.cluster.stored && result == After(BACKOFF)
  {
    var c, r := w.cluster, w.cluster.stored;
    hide HoldsIn, Possible, Dispatch, GrantError, Process, Due, WindowOver, Ready, Loaded, Swept;
    DispatchedByPhase(c, r, p, w.now);
    assert r.finalizer;
    StartIsKept(w, p);
    assert r.(spec := Defaulted(r.spec, w.now)) == r;
    FinalizersKeep(w, ch, p);
    if Granting(w, ch) {
      DueGrants(c, r, w.now, ch);
      ProcessFrame(r.spec.schedule, r.status, w.now);
      GrantRetries(c, r.(status := Process(r.spec.schedule, r.status, w.now).status), w.now, ch);
    } else {
      RevokeRetries(c, r, w.now, ch);
    }
  }

  lemma GrantRetries(c: Cluster, bg: Resource, now: Now, ch: Choices)
    requires bg.id == c.stored.id && bg.spec == c.stored.spec && bg.status.created == c.stored.status.created && c.live
    requires GrantError(c, ch).Some? && IsRetryable(GrantError(c, ch).value)
    ensures var o := GrantAndActivate(c, bg, now, ch);
            o.cluster.stored == c.stored && o.result == After(BACKOFF)
  {
    hide GrantAndActivate, GrantAccess, GrantError, GrantedStatus;
    GrantAnswer(c, bg, ch);
    GrantStores(c, bg, now, ch);
  }

  lemma RevokeRetries(c: Cluster, bg: Resource, now: Now, ch: Choices)
    requires CurrentCondition(bg.status.conditions) == RecurringActive && WindowOver(bg.spec.schedule, bg.status, now)
    requires ch.revoke.err.Some? && ch.revoke.err.value.retryable
    ensures var o := Dispatch(c, bg, now, ch);
            o.cluster.stored == c.stored && o.result == After(BACKOFF)
  {
    hide PostRevoke, CurrentWindow, Process;
  }

  /**
   * After any number of partly failed attempts, one whose creates all go through or find their
   * object in place, and whose record is stored, succeeds and leaves exactly the wanted objects.
   */
  lemma RetriedGrantSucceeds(c: Cluster, tries: seq<Try>, last: Try)
    requires c.live && Clean(c.stored.id, c.stored.spec, c.objects)
    requires RecordsHold(c.stored.id, c.stored.spec, c.stored.status.created, c.objects)
    requires var r := Retried(c, tries); last.effort.made >= |Plan(r.stored)| && last.index.None?
    ensures var r := Retried(c, tries);
            var g := GrantAccess(r, r.stored, last.effort, last.index);
            && g.err.None? && g.cluster.stored.status == g.status
            && Complete(c.stored.id, c.stored.spec, g.cluster.objects)
            && RecordsHold(c.stored.id, c.stored.spec, g.status.created, g.cluster.objects)
            && (forall k | Wanted(c.stored.id, c.stored.spec, k).Some? :: k.name in g.status.created)
  {
    hide Clean, RecordsHold, Complete, Plan, Build;
    StaysLive(c, tries);
    RetriedGrantCompletes(c, tries, last);
    var r := Retried(c, tries);
    GrantKeepsRecords(r, r.stored, last.effort, last.index);
    GrantRecordsAll(r, r.stored, last.effort, last.index);
  }

  lemma {:induction false} StaysLive(c: Cluster, tries: seq<Try>)
    requires c.live
    ensures Retried(c, tries).live
  {
    hide Plan, Build;
    if tries != [] {
      StaysLive(c, tries[..|tries| - 1]);
    }
  }

  // ----- Never forgotten -----

  /** A schedule whose grants all have a window. */
  ghost predicate Windowed(s: ScheduleSpec) {
    s.duration > 0 && (s.cron.Every? ==> Perpetual(s.cron.cron))
  }

  /** The answers that ask for another reconcile: at once, with an error, or between ten seconds and an hour later. */
  predicate AsksAgain(result: Result) {
    match result
    case Done => false
    case Again | Failure => true
    case After(delay) => BACKOFF <= delay <= HOUR
  }

  /**
   * In every reachable state, under any faults, a reconcile asks for another one, unless the
   * resource has ended or expired, has just failed, or is held without a window.
   */
  lemma NeverForgotten(w: World, ch: Choices, p: Phase)
    requires HoldsIn(w, p) && Possible(w.cluster, ch)
    ensures var (after, result) := Reconcile(w.cluster, w.now, ch);
            || AsksAgain(result)
            || !after.live
            || CurrentCondition(after.stored.status.conditions) == Expired
            || (CurrentCondition(after.stored.status.conditions) == Failed
                && CurrentCondition(w.cluster.stored.status.conditions) != Failed)
            || (CurrentCondition(after.stored.status.conditions) == RecurringActive && !Windowed(after.stored.spec.schedule))
  {
    hide HoldsIn, Possible, Dispatch, Ready, Loaded, Swept, Windowed, CleanupFailed, CleanupOnDelete;
    var c, r := w.cluster, w.cluster.stored;
    if c.live && ch.read && ScheduleAccepted(r.spec.schedule) {
      FinalizersKeep(w, ch, p);
      var bg := r.(spec := Defaulted(r.spec, w.now));
      var f := ReconcileFinalizers(c, bg, ch);
      if f.Go? {
        var given := bg.(finalizer := f.cluster.stored.finalizer);
        HandlersKeepFinalizer(f.cluster, given, w.now, ch);
        if f.cluster.live {
          SameLoad(f.cluster, bg, given);
          ServedKeepsStatus(w, ch);
          DispatchNeverForgets(f.cluster, given, w.now, ch, p);
        }
      }
    }
  }

  lemma SameLoad(c: Cluster, bg: Resource, given: Resource)
    requires Loaded(c, bg) && given == bg.(finalizer := given.finalizer)
    ensures Loaded(c, given)
  {
  }

  lemma DispatchNeverForgets(c: Cluster, bg: Resource, now: Now, ch: Choices, p: Phase)
    requires HoldsIn(World(c, now), p) && Loaded(c, bg) && Ready(c) && c.live
    requires Swept(c.stored.id, c.objects, ch.revoke.left, ch.revoke.err)
    ensures var o := Dispatch(c, bg, now, ch);
            || AsksAgain(o.result)
            || CurrentCondition(o.cluster.stored.status.conditions) == Expired
            || (CurrentCondition(o.cluster.stored.status.conditions) == Failed && CurrentCondition(bg.status.conditions) != Failed)
            || (CurrentCondition(o.cluster.stored.status.conditions) == RecurringActive && !Windowed(bg.spec.schedule))
  {
    hide HoldsIn, Process, Due, GrantAndActivate, HandlePending, HandleRecurringActive, Swept, InPhase, Windowed, AsksAgain, Clamp;
    InPhaseOf(World(c, now), p);
    DispatchedByPhase(c, bg, p, now);
    match p
    case New | Waiting | GrantAborted | RevokeAborted =>
      PendingAsksAgain(c, bg, now, ch, p);
    case Scheduled =>
      var m := Process(bg.spec.schedule, bg.status, now);
      if !m.failed && Due(bg.spec.schedule, m.status, now) {
        DueGrants(c, bg, now, ch);
        DuePhase(World(c, now), bg);
        DueHasWindow(World(c, now), bg);
        GrantNeverForgets(c, bg.(status := m.status), now, ch);
      } else {
        WaitingAsksAgain(c, bg, now, ch);
      }
    case Held =>
      HeldNeverForgets(c, bg, now, ch);
    case Ended =>
  }

  lemma PendingAsksAgain(c: Cluster, bg: Resource, now: Now, ch: Choices, p: Phase)
    requires InPhase(bg.status, p) && p in {New, Waiting, GrantAborted, RevokeAborted}
    ensures AsksAgain(HandlePending(c, bg, now, ch).result)
  {
    PhaseDispatch(bg.status, p);
    hide SetCondition, Process, GrantAndActivate;
  }

  lemma WaitingAsksAgain(c: Cluster, bg: Resource, now: Now, ch: Choices)
    requires CurrentCondition(bg.status.conditions) == RecurringPending
    requires var m := Process(bg.spec.schedule, bg.status, now); !m.failed ==> !Due(bg.spec.schedule, m.status, now)
    ensures AsksAgain(Dispatch(c, bg, now, ch).result)
  {
    hide Process, GrantAndActivate, Due;
  }

  /** A due request has a window, if its schedule gives it one. */
  lemma DueHasWindow(w: World, bg: Resource)
    requires HoldsIn(w, Scheduled) && Loaded(w.cluster, bg) && Ready(w.cluster)
    requires !Process(bg.spec.schedule, bg.status, w.now).failed
    requires Due(bg.spec.schedule, Process(bg.spec.schedule, bg.status, w.now).status, w.now)
    ensures var st := Process(bg.spec.schedule, bg.status, w.now).status;
            Windowed(bg.spec.schedule) ==> CurrentWindow(bg.spec.schedule, st, w.now).Some?
    ensures bg.spec.schedule.start != ZERO && !bg.spec.schedule.cron.BadCron?
  {
    hide ObjectsHold, SetCondition;
    var s := bg.spec.schedule;
    StartOfReady(w);
    if s.cron.Every? && Windowed(s) {
      DueInOpenWindow(s, bg.status, w.now);
    }
  }

  lemma StartOfReady(w: World)
    requires HoldsIn(w, Scheduled) && Ready(w.cluster)
    ensures w.cluster.stored.spec.schedule.start != ZERO
  {
    hide StatusHolds, Clean, NoDangling, RecordsHold, Own;
  }

  lemma GrantNeverForgets(c: Cluster, bg: Resource, now: Now, ch: Choices)
    requires bg.id == c.stored.id && bg.spec == c.stored.spec && bg.status.created == c.stored.status.created && c.live
    requires InPhase(bg.status, Scheduled) && InPhase(c.stored.status, Scheduled)
    requires bg.spec.schedule.start != ZERO && !bg.spec.schedule.cron.BadCron?
    requires Windowed(bg.spec.schedule) ==> CurrentWindow(bg.spec.schedule, bg.status, now).Some?
    ensures var o := GrantAndActivate(c, bg, now, ch);
            || AsksAgain(o.result)
            || CurrentCondition(o.cluster.stored.status.conditions) == Failed
            || (CurrentCondition(o.cluster.stored.status.conditions) == RecurringActive && !Windowed(bg.spec.schedule))
  {
    hide GrantAccess, GrantError, GrantedStatus, WithCondition, InPhase, CurrentCondition, CurrentWindow, Advance;
    GrantAnswer(c, bg, ch);
    GrantStores(c, bg, now, ch);
    var g := GrantAccess(c, bg, ch.effort, ch.index);
    SamePhase(bg.status, g.status, Scheduled);
    GrantKeepsNext(c, bg, ch);
    SameWindow(bg.spec.schedule, bg.status, g.status, now);
    MarkedPhase(g.status, Scheduled, Failed, RBACCreationFailed);
    PhaseDispatch(WithCondition(g.status, Failed, RBACCreationFailed), GrantAborted);
    GrantedPhase(bg.spec.schedule, g.status, now);
    PhaseDispatch(GrantedStatus(bg.spec.schedule, g.status, now), Held);
    AdvanceFails(bg.spec.schedule, g.status, now);
  }

  lemma GrantKeepsNext(c: Cluster, bg: Resource, ch: Choices)
    ensures GrantAccess(c, bg, ch.effort, ch.index).status.nextAt == bg.status.nextAt
  {
    hide Plan, Build;
  }

  lemma AdvanceFails(s: ScheduleSpec, st: Status, now: Now)
    requires !s.cron.BadCron?
    ensures forall x: Status :: !Advance(s, x, now).failed
  {
  }

  lemma HeldNeverForgets(c: Cluster, bg: Resource, now: Now, ch: Choices)
    requires InPhase(bg.status, Held) && Loaded(c, bg) && c.live
    requires Swept(bg.id, c.objects, ch.revoke.left, ch.revoke.err)
    ensures var o := HandleRecurringActive(c, bg, now, ch);
            AsksAgain(o.result) || CurrentCondition(o.cluster.stored.status.conditions) == Expired
  {
    hide Process, CurrentWindow, SetCondition;
    var st, window := bg.status, CurrentWindow(bg.spec.schedule, bg.status, now);
    var st' := st.(expiresAt := if window.Some? then Some(window.value.end) else None, nextAt := None);
    MarkedPhase(st', Held, Expired, AccessExpired);
    PhaseDispatch(WithCondition(st', Expired, AccessExpired), Ended);
  }

  // ----- Updates that fail -----

  /** Where the status update makes a difference, its failure is reported as an error. */
  ghost predicate Reports(stored: Outcome, failed: Outcome) {
    stored.cluster != failed.cluster ==> failed.result == Failure
  }

  lemma GrantReports(c: Cluster, bg: Resource, now: Now, ch: Choices, e: ApiError)
    ensures Reports(GrantAndActivate(c, bg, now, ch.(status := None)), GrantAndActivate(c, bg, now, ch.(status := Some(e))))
  {
    hide GrantAccess, CurrentWindow, SetCondition, Advance;
  }

  lemma RevokeReports(c: Cluster, bg: Resource, now: Now, ch: Choices, e: ApiError)
    ensures Reports(RevokeAndExpire(c, bg, now, ch.(status := None)), RevokeAndExpire(c, bg, now, ch.(status := Some(e))))
  {
    hide CurrentWindow, SetCondition, HasFutureActivations;
  }

  lemma DispatchReports(c: Cluster, bg: Resource, now: Now, ch: Choices, e: ApiError)
    ensures Reports(Dispatch(c, bg, now, ch.(status := None)), Dispatch(c, bg, now, ch.(status := Some(e))))
  {
    hide GrantAndActivate, RevokeAndExpire, Process, CurrentWindow, SetCondition, Due;
    GrantReports(c, bg.(status := Process(bg.spec.schedule, bg.status, now).status), now, ch, e);
    RevokeReports(c, bg, now, ch, e);
  }

  /**
   * From any state, an update of the status, or of the finalizer, that fails is reported as an
   * error whenever it makes a difference to what is stored.
   */
  lemma FailedUpdateIsReported(c: Cluster, now: Now, ch: Choices, e: ApiError)
    ensures var (after, result) := Reconcile(c, now, ch.(status := Some(e)));
            Reconcile(c, now, ch.(status := None)).0 != after ==> result == Failure
    ensures var (after, result) := Reconcile(c, now, ch.(meta := Some(e)));
            !c.stored.deleting && Reconcile(c, now, ch.(meta := None)).0 != after ==> result == Failure
    ensures var (after, result) := Reconcile(c, now, ch.(meta := Some(e)));
            Reconcile(c, now, ch.(meta := None)).0.live != after.live ==> result == Failure
  {
    hide Dispatch, ScheduleAccepted, Defaulted;
    if c.live && ch.read && ScheduleAccepted(c.stored.spec.schedule) {
      var bg := c.stored.(spec := Defaulted(c.stored.spec, now));
      var f := ReconcileFinalizers(c, bg, ch);
      assert f == ReconcileFinalizers(c, bg, ch.(status := None)) == ReconcileFinalizers(c, bg, ch.(status := Some(e)));
      if f.Go? {
        DispatchReports(f.cluster, bg.(finalizer := f.cluster.stored.finalizer), now, ch, e);
      }
      forall meta | meta in {None, Some(e)}
        ensures Dispatch(c, bg, now, ch.(meta := meta)) == Dispatch(c, bg, now, ch)
        ensures var swept := CleanupOnDelete(c, ch); Dispatch(swept, bg, now, ch.(meta := meta)) == Dispatch(swept, bg, now, ch)
      {
        MetaIgnored(c, bg, now, ch, meta);
        MetaIgnored(CleanupOnDelete(c, ch), bg, now, ch, meta);
      }
    }
  }

  /** The handlers do not depend on how the finalizer's update was answered. */
  lemma MetaIgnored(c: Cluster, bg: Resource, now: Now, ch: Choices, meta: Option<ApiError>)
    ensures Dispatch(c, bg, now, ch.(meta := meta)) == Dispatch(c, bg, now, ch)
  {
    hide Process, CurrentWindow, SetCondition, GrantAccess, Advance, Due;
  }

  // ----- Recovery -----

  /**
   * A finite one-shot that has met only errors worth retrying, in whatever number and order, is
   * brought to its expiry by reconciles without faults, within the bound.
   */
  lemma OneShotOutlastsFaults(worlds: seq<World>, steps: seq<Step>, i: nat) returns (runs: nat)
    requires Run(worlds, steps) && i < |worlds|
    requires worlds[i].cluster.live && !worlds[i].cluster.stored.deleting && FiniteOneShot(worlds[i].cluster.stored)
    requires forall j | 0 <= j < i :: !Refusing(worlds[j], steps[j])
    ensures var c, now := worlds[i].cluster, worlds[i].now;
            var s := c.stored.spec.schedule;
            && runs <= OneShotBound(now, s.start, s.duration)
            && var (after, t) := Drive(c, now, runs);
               after.stored.spec == c.stored.spec && Settled(after, t, now)
  {
    hide Run, Drive, OneShotBound, FiniteOneShot, Settled, Refusing;
    if CurrentCondition(worlds[i].cluster.stored.status.conditions) == Failed {
      FailedHasCause(worlds, steps, i);
      assert false;
    }
    runs := OneShotRecovers(worlds, steps, i);
  }
}
