/** The condition handlers and the reconciler: what one reconcile does to the cluster. */
module Lifecycle {
  import opened Options
  import opened Schedules
  import opened Resources
  import opened Windows
  import opened Recurring
  import opened Api
  import opened Rbac
  import opened RbacProofs

  /** What a handler answers: finished, requeue at once, requeue after a delay, or an error. */
  datatype Result = Done | Again | After(delay: nat) | Failure

  const BACKOFF := 10
  const DEFAULT_APPROVER := "system"

  /** What is left of the objects after a cleanup, and how the cleanup answers. */
  datatype Sweep = Sweep(left: Objects, err: Option<RbacError>)

  /** Everything the API decides during one reconcile; each call happens at most once. */
  datatype Choices = Choices(
    read: bool,
    meta: Option<ApiError>,
    sweep1: Sweep,
    sweep2: Sweep,
    effort: Effort,
    index: Option<ApiError>,
    revoke: Sweep,
    status: Option<ApiError>)

  /** The cluster after a step, the status in the handler's memory, and the answer. */
  datatype Outcome = Outcome(cluster: Cluster, memory: Status, result: Result)

  // ----- Shared steps -----

  function Clamp(d: int): (r: nat)
    ensures MIN_REQUEUE <= r <= HOUR
  {
    if d < MIN_REQUEUE then MIN_REQUEUE else if d > HOUR then HOUR else d
  }

  /** `Clock.Until`: never negative, except for the sentinel of the zero time. */
  function Until(t: Time, now: Now): int {
    if t == ZERO then -1 else if t < now then 0 else t - now
  }

  /** Sets a condition and stores the status; `result` is the answer if that works. */
  function Store(c: Cluster, st: Status, kind: ConditionType, reason: Reason, fault: Option<ApiError>, result: Result): Outcome {
    var marked := WithCondition(st, kind, reason);
    Outcome(WriteStatus(c, marked, fault), marked, if WriteAnswer(c, fault).Some? then Failure else result)
  }

  function GrantAndActivate(c: Cluster, bg: Resource, now: Now, ch: Choices): Outcome {
    var g := GrantAccess(c, bg, ch.effort, ch.index);
    if g.err.Some? then
      if g.err.value.retryable then Outcome(g.cluster, g.status, After(BACKOFF))
      else Store(g.cluster, g.status, Failed, RBACCreationFailed, ch.status, Done)
    else
      var approver := if g.status.approvedBy == "" then DEFAULT_APPROVER else g.status.approvedBy;
      var st := g.status.(approvedBy := approver, grantedAt := Some(now), expiresAt := None);
      var window := CurrentWindow(bg.spec.schedule, st, now);
      var m := Advance(bg.spec.schedule, st, now);
      if m.failed then Outcome(g.cluster, m.status, Failure)
      else
        Store(g.cluster, m.status, RecurringActive, RecurringActivated, ch.status,
              if window.Some? then After(Clamp(Until(window.value.end, now))) else Done)
  }

  function PostRevoke(c: Cluster, bg: Resource, now: Now, ch: Choices): Outcome {
    var s, st := bg.spec.schedule, bg.status;
    if HasFutureActivations(s, st) then
      Store(c, st.(expiresAt := None), RecurringPending,
            if st.nextAt.Some? then RecurringScheduled else RecurringWaiting, ch.status,
            After(if st.nextAt.Some? then Clamp(Until(st.nextAt.value, now)) else MIN_REQUEUE))
    else
      var window := CurrentWindow(s, st, now);
      Store(c, st.(expiresAt := if window.Some? then Some(window.value.end) else None, nextAt := None),
            Expired, AccessExpired, ch.status, Done)
  }

  function RevokeAndExpire(c: Cluster, bg: Resource, now: Now, ch: Choices): Outcome {
    var swept := c.(objects := ch.revoke.left);
    if ch.revoke.err.Some? then
      if ch.revoke.err.value.retryable then Outcome(swept, bg.status, After(BACKOFF))
      else if ch.revoke.err.value.cause.NotFound? then PostRevoke(swept, bg, now, ch)
      else Store(swept, bg.status, Failed, RevokeFailed, ch.status, Failure)
    else PostRevoke(swept, bg, now, ch)
  }

  // ----- The handlers -----

  function HandleRecurringPending(c: Cluster, bg: Resource, now: Now, ch: Choices): Outcome {
    if CurrentCondition(bg.status.conditions) != RecurringPending then
      Store(c, bg.status, RecurringPending, RecurringWaiting, ch.status, Again)
    else
      var m := Process(bg.spec.schedule, bg.status, now);
      if m.failed then Outcome(c, m.status, Failure)
      else if Due(bg.spec.schedule, m.status, now) then
        GrantAndActivate(c, bg.(status := m.status), now, ch)
      else
        Outcome(c, m.status,
                After(if m.status.nextAt.Some? then Clamp(Until(m.status.nextAt.value, now)) else MIN_REQUEUE))
  }

  function HandlePending(c: Cluster, bg: Resource, now: Now, ch: Choices): Outcome {
    if bg.status.conditions == [] then Store(c, bg.status, Pending, NewResource, ch.status, Again)
    else if bg.spec.approvalRequired && bg.status.approvedBy == "" then
      Store(c, bg.status, Pending, WaitingForApproval, ch.status, After(MIN_REQUEUE))
    else HandleRecurringPending(c, bg, now, ch)
  }

  function HandleApproved(c: Cluster, bg: Resource, now: Now, ch: Choices): Outcome {
    if bg.status.approvedBy == "" then Store(c, bg.status, Pending, WaitingForApproval, ch.status, Done)
    else HandleRecurringPending(c, bg, now, ch)
  }

  /** The current window is over: `Clock.IsExpired` of its end. */
  predicate WindowOver(s: ScheduleSpec, st: Status, now: Now) {
    var window := CurrentWindow(s, st, now);
    window.Some? && window.value.end != ZERO && window.value.end < now
  }

  function HandleRecurringActive(c: Cluster, bg: Resource, now: Now, ch: Choices): Outcome {
    var window := CurrentWindow(bg.spec.schedule, bg.status, now);
    if WindowOver(bg.spec.schedule, bg.status, now) then RevokeAndExpire(c, bg, now, ch)
    else
      var m := Process(bg.spec.schedule, bg.status, now);
      if m.failed then Outcome(c, m.status, Failure)
      else
        Outcome(c, m.status,
                if CurrentCondition(m.status.conditions) == RecurringPending then Again
                else if window.Some? then After(Clamp(Until(window.value.end, now)))
                else if m.status.nextAt.Some? then After(Clamp(Until(m.status.nextAt.value, now)))
                else After(MIN_REQUEUE))
  }

  /** The handler for the current condition; an unknown one is treated as pending. */
  function Dispatch(c: Cluster, bg: Resource, now: Now, ch: Choices): Outcome {
    match CurrentCondition(bg.status.conditions)
    case Approved => HandleApproved(c, bg, now, ch)
    case Active | RecurringActive => HandleRecurringActive(c, bg, now, ch)
    case RecurringPending => HandleRecurringPending(c, bg, now, ch)
    case Denied | Expired | Revoked => Outcome(c, bg.status, Done)
    case NoCondition | Pending | Failed => HandlePending(c, bg, now, ch)
  }

  // ----- The reconciler -----

  /** Whether the reconcile goes on to a handler, and with which cluster. */
  datatype Finalized = Stop(cluster: Cluster, result: Result) | Go(cluster: Cluster)

  /** The two cleanups of a deletion. A failed first one skips the second. */
  function CleanupOnDelete(c: Cluster, ch: Choices): Cluster {
    c.(objects := if ch.sweep1.err.Some? then ch.sweep1.left else ch.sweep2.left)
  }

  predicate CleanupFailed(ch: Choices) {
    ch.sweep1.err.Some? || ch.sweep2.err.Some?
  }

  function ReconcileFinalizers(c: Cluster, bg: Resource, ch: Choices): Finalized {
    if !bg.deleting then
      if bg.finalizer then Go(c)
      else Stop(WriteMeta(c, bg.spec, true, ch.meta), if WriteAnswer(c, ch.meta).Some? then Failure else Again)
    else
      var swept := CleanupOnDelete(c, ch);
      if CleanupFailed(ch) then Go(swept)
      else
        var released := WriteMeta(swept, bg.spec, false, ch.meta);
        if WriteAnswer(swept, ch.meta).Some? then Stop(released, Failure) else Go(released)
  }

  /** The schedule as the reconciler reads it: a recurring schedule without a start begins now. */
  function Defaulted(spec: Spec, now: Now): Spec {
    if spec.schedule.start == ZERO then spec.(schedule := spec.schedule.(start := now)) else spec
  }

  predicate ScheduleAccepted(s: ScheduleSpec) {
    if s.cron.NoCron? then s.start != ZERO else s.duration > 0
  }

  function Reconcile(c: Cluster, now: Now, ch: Choices): (Cluster, Result) {
    if !ch.read then (c, Failure)
    else if !c.live then (c, Done)
    else if !ScheduleAccepted(c.stored.spec.schedule) then (c, Failure)
    else
      var bg := c.stored.(spec := Defaulted(c.stored.spec, now));
      match ReconcileFinalizers(c, bg, ch)
      case Stop(after, result) => (after, result)
      case Go(after) =>
        var o := Dispatch(after, bg.(finalizer := after.stored.finalizer), now, ch);
        (o.cluster, o.result)
  }

  /** Every call succeeds. */
  function NoFaults(c: Cluster): Choices {
    var erased := Sweep(Erased(c.stored.id, c.objects), None);
    Choices(true, None, erased, erased, AllMade(c.stored), None, erased, None)
  }

  /** The choices the API can really make in a reconcile of `c`; "already exists" never stops a create. */
  ghost predicate Possible(c: Cluster, ch: Choices) {
    && ch.effort.fault != AlreadyExists
    && (c.live && c.stored.deleting ==>
          && Swept(c.stored.id, c.objects, ch.sweep1.left, ch.sweep1.err)
          && (ch.sweep1.err.None? ==> Swept(c.stored.id, ch.sweep1.left, ch.sweep2.left, ch.sweep2.err)))
    && Swept(c.stored.id, if c.live && c.stored.deleting then CleanupOnDelete(c, ch).objects else c.objects,
             ch.revoke.left, ch.revoke.err)
  }

  lemma NoFaultsPossible(c: Cluster)
    ensures Possible(c, NoFaults(c))
  {
    ErasedIsSwept(c.stored.id, c.objects);
  }

  /** No error that the reconcile may meet is one to give up on. */
  predicate Mild(ch: Choices) {
    && IsRetryable(ch.effort.fault)
    && (ch.index.Some? ==> IsRetryable(ch.index.value))
    && (ch.revoke.err.Some? ==> ch.revoke.err.value.retryable)
  }
}
