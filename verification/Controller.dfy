/** The handlers and the reconciler as they run: updating their copy of the request and calling the API. */
module Controller {
  import opened Options
  import opened Schedules
  import opened Resources
  import opened Windows
  import opened Recurring
  import opened Api
  import opened Rbac
  import opened RbacProofs
  import opened Lifecycle

  /** What the API has decided before a handler runs; the handler's own calls fill in the rest. */
  ghost predicate Extends(ch: Choices, base: Choices) {
    ch.read == base.read && ch.meta == base.meta && ch.sweep1 == base.sweep1 && ch.sweep2 == base.sweep2
  }

  lemma FinalizersExtend(c: Cluster, bg: Resource, ch: Choices, base: Choices)
    requires Extends(ch, base)
    ensures ReconcileFinalizers(c, bg, ch) == ReconcileFinalizers(c, bg, base)
    ensures CleanupOnDelete(c, ch) == CleanupOnDelete(c, base)
  {
  }

  /** The objects a handler starts from. */
  ghost function HandlerObjects(c: Cluster, ch: Choices): Objects {
    if c.live && c.stored.deleting then CleanupOnDelete(c, ch).objects else c.objects
  }

  lemma PossibleExtends(c: Cluster, ch: Choices, base: Choices)
    requires Extends(ch, base) && Possible(c, base) && ch.effort.fault != AlreadyExists
    requires Swept(c.stored.id, HandlerObjects(c, base), ch.revoke.left, ch.revoke.err)
    ensures Possible(c, ch)
  {
    hide Swept;
  }

  // ----- Choices and answers -----

  /** A cleanup's error is that of a faulty answer. */
  ghost predicate Reported(s: Sweep, before: seq<Answer>, after: seq<Answer>) {
    s.err.Some? && exists i :: |before| <= i < |after| && Faulty(after[i]) && s.err.value == Blame(after[i])
  }

  /** An update's failure is that of an answer. */
  ghost predicate UpdateFailed(call: Call, fault: Option<ApiError>, before: seq<Answer>, after: seq<Answer>) {
    fault.Some? && fault != Some(NotFound) && Told(Answer(call, fault), before, after)
  }

  /** Wherever the choices depart from the base, an answer of the API says so. */
  ghost predicate Witnessed(ch: Choices, base: Choices, before: seq<Answer>, after: seq<Answer>) {
    && before <= after
    && (ch.read == base.read || exists i :: |before| <= i < |after| && after[i].call == Getting && Faulty(after[i]))
    && (ch.meta == base.meta || UpdateFailed(Updating, ch.meta, before, after))
    && (ch.sweep1 == base.sweep1 || Reported(ch.sweep1, before, after))
    && (ch.sweep2 == base.sweep2 || Reported(ch.sweep2, before, after))
    && (ch.effort == base.effort || Stopped(ch.effort, before, after))
    && (ch.index == base.index || UpdateFailed(UpdatingStatus, ch.index, before, after))
    && (ch.revoke == base.revoke || Reported(ch.revoke, before, after))
    && (ch.status == base.status || UpdateFailed(UpdatingStatus, ch.status, before, after))
  }

  lemma SmoothSoFar(base: Choices, answers: seq<Answer>)
    ensures Witnessed(base, base, answers, answers)
  {
  }

  lemma AccountedReports(left: Objects, before: seq<Answer>, after: seq<Answer>, err: Option<RbacError>)
    requires Accounted(before, after, err) && err.Some?
    ensures Reported(Sweep(left, err), before, after)
  {
  }

  lemma WitnessedThen(a: Choices, b: Choices, c: Choices, before: seq<Answer>, middle: seq<Answer>, after: seq<Answer>)
    requires Witnessed(b, a, before, middle) && Witnessed(c, b, middle, after)
    ensures Witnessed(c, a, before, after)
  {
    assert forall i | 0 <= i < |middle| :: middle[i] == after[i];
    forall x: Answer | Told(x, before, middle) || Told(x, middle, after)
      ensures Told(x, before, after)
    {
    }
    forall s: Sweep | Reported(s, before, middle) || Reported(s, middle, after)
      ensures Reported(s, before, after)
    {
    }
    hide Told, Reported;
  }

  /** Where no answer is faulty, no choice departs from the base. */
  lemma SmoothIsBase(ch: Choices, base: Choices, before: seq<Answer>, after: seq<Answer>)
    requires Witnessed(ch, base, before, after) && Smooth(before, after)
    ensures ch == base
  {
  }

  lemma GrantWitnessed(base: Choices, effort: Effort, index: Option<ApiError>, before: seq<Answer>, after: seq<Answer>)
    requires before <= after && (effort == base.effort || Stopped(effort, before, after)) && base.index.None?
    requires index.Some? ==> Told(Answer(UpdatingStatus, index), before, after) && index != Some(NotFound)
    ensures Witnessed(base.(effort := effort, index := index), base, before, after)
  {
    hide Stopped, Told;
  }

  lemma StatusWitnessed(base: Choices, fault: Option<ApiError>, before: seq<Answer>, after: seq<Answer>)
    requires before <= after && base.status.None?
    requires fault.Some? ==> UpdateFailed(UpdatingStatus, fault, before, after)
    ensures Witnessed(base.(status := fault), base, before, after)
  {
    hide UpdateFailed;
  }

  lemma NeverStoppedByExisting(ch: Choices, c: Cluster, before: seq<Answer>, after: seq<Answer>)
    requires Witnessed(ch, NoFaults(c), before, after)
    ensures ch.effort.fault != AlreadyExists
  {
  }

  /** Every faulty answer is one worth retrying. */
  ghost predicate Passing(before: seq<Answer>, after: seq<Answer>) {
    forall i | |before| <= i < |after| && Faulty(after[i]) :: Blame(after[i]).retryable
  }

  /** Where every faulty answer is worth retrying, so is every error the reconcile may meet. */
  lemma PassingIsMild(ch: Choices, base: Choices, before: seq<Answer>, after: seq<Answer>)
    requires Witnessed(ch, base, before, after) && Passing(before, after) && Mild(base)
    ensures Mild(ch)
  {
  }

  /** What a handler starts from: nothing that it may meet has failed yet. */
  ghost predicate Fresh(base: Choices, bg: Resource, objects: Objects) {
    && base.effort == AllMade(bg) && base.index.None? && base.status.None?
    && base.revoke == Sweep(Erased(bg.id, objects), None)
  }

  class Handler {
    const client: ApiServer
    const operator: Operator
    const manager: Manager

    constructor (client: ApiServer)
      ensures this.client == client && Valid()
    {
      this.client := client;
      operator := new Operator(client);
      manager := new Manager();
    }

    ghost predicate Valid() {
      operator.client == client
    }

    method UpdateStatus(bg: Breakglass, kind: ConditionType, reason: Reason)
      returns (e: Option<ApiError>, ghost fault: Option<ApiError>)
      modifies client`stored, client`answers, bg`status
      ensures bg.status == WithCondition(old(bg.status), kind, reason)
      ensures client.State() == WriteStatus(old(client.State()), bg.status, fault)
      ensures e == WriteAnswer(old(client.State()), fault)
      ensures old(client.answers) <= client.answers
      ensures fault.Some? ==> UpdateFailed(UpdatingStatus, fault, old(client.answers), client.answers)
    {
      bg.Mark(kind, reason);
      e, fault := client.UpdateStatus(bg);
      assert client.answers[|client.answers| - 1] == Answer(UpdatingStatus, e);
    }

    method GrantAndActivate(bg: Breakglass, now: Now, ghost base: Choices) returns (result: Result, ghost ch: Choices)
      requires Valid() && Fresh(base, bg.Snapshot(), client.objects)
      modifies client`objects, client`stored, client`answers, bg`status
      ensures Witnessed(ch, base, old(client.answers), client.answers)
      ensures Extends(ch, base) && ch.revoke == base.revoke
      ensures Outcome(client.State(), bg.status, result) ==
              Lifecycle.GrantAndActivate(old(client.State()), old(bg.Snapshot()), now, ch)
    {
      hide Witnessed, Stopped, UpdateFailed, Told, SetCondition, Plan, AllMade, CurrentWindow, GrantAccess, Advance;
      ghost var told := client.answers;
      var err, effort, index := operator.Grant(bg);
      ghost var granted, heard := base.(effort := effort, index := index), client.answers;
      ch := granted;
      GrantWitnessed(base, effort, index, told, heard);
      if err.Some? {
        if err.value.retryable {
          return After(BACKOFF), ch;
        }
        var e, fault := UpdateStatus(bg, Failed, RBACCreationFailed);
        ch := ch.(status := fault);
        StatusWitnessed(granted, fault, heard, client.answers);
        WitnessedThen(base, granted, ch, told, heard, client.answers);
        return if e.Some? then Failure else Done, ch;
      }
      if bg.status.approvedBy == "" {
        bg.status := bg.status.(approvedBy := DEFAULT_APPROVER);
      }
      bg.status := bg.status.(grantedAt := Some(now), expiresAt := None);
      var window := ComputeWindow(bg.spec.schedule, bg.status, now);
      var failed := manager.OnActivationGranted(bg, now);
      if failed {
        return Failure, ch;
      }
      var e, fault := UpdateStatus(bg, RecurringActive, RecurringActivated);
      ch := ch.(status := fault);
      StatusWitnessed(granted, fault, heard, client.answers);
      WitnessedThen(base, granted, ch, told, heard, client.answers);
      if e.Some? {
        return Failure, ch;
      }
      if window.Some? {
        return After(Clamp(Until(window.value.end, now))), ch;
      }
      return Done, ch;
    }

    method TransitionToRecurringPending(bg: Breakglass, now: Now) returns (result: Result, ghost fault: Option<ApiError>)
      modifies client`stored, client`answers, bg`status
      ensures old(client.answers) <= client.answers
      ensures fault.Some? ==> UpdateFailed(UpdatingStatus, fault, old(client.answers), client.answers)
      ensures Outcome(client.State(), bg.status, result) ==
              var next := old(bg.status.nextAt);
              Store(old(client.State()), old(bg.status).(expiresAt := None), RecurringPending,
                    if next.Some? then RecurringScheduled else RecurringWaiting, fault,
                    After(if next.Some? then Clamp(Until(next.value, now)) else MIN_REQUEUE))
    {
      bg.status := bg.status.(expiresAt := None);
      var reason := RecurringWaiting;
      if bg.status.nextAt.Some? {
        reason := RecurringScheduled;
      }
      var e;
      e, fault := UpdateStatus(bg, RecurringPending, reason);
      if e.Some? {
        return Failure, fault;
      }
      var requeue := MIN_REQUEUE;
      if bg.status.nextAt.Some? {
        requeue := Clamp(Until(bg.status.nextAt.value, now));
      }
      return After(requeue), fault;
    }

    method MarkExpired(bg: Breakglass, now: Now) returns (result: Result, ghost fault: Option<ApiError>)
      modifies client`stored, client`answers, bg`status
      ensures old(client.answers) <= client.answers
      ensures fault.Some? ==> UpdateFailed(UpdatingStatus, fault, old(client.answers), client.answers)
      ensures Outcome(client.State(), bg.status, result) ==
              var window := CurrentWindow(bg.spec.schedule, old(bg.status), now);
              Store(old(client.State()),
                    old(bg.status).(expiresAt := if window.Some? then Some(window.value.end) else None, nextAt := None),
                    Expired, AccessExpired, fault, Done)
    {
      var window := ComputeWindow(bg.spec.schedule, bg.status, now);
      if window.Some? {
        bg.status := bg.status.(expiresAt := Some(window.value.end));
      } else {
        bg.status := bg.status.(expiresAt := None);
      }
      bg.status := bg.status.(nextAt := None);
      var e;
      e, fault := UpdateStatus(bg, Expired, AccessExpired);
      return if e.Some? then Failure else Done, fault;
    }

    method PostRevokeTransition(bg: Breakglass, now: Now, ghost base: Choices) returns (result: Result, ghost ch: Choices)
      requires base.status.None?
      modifies client`stored, client`answers, bg`status
      ensures Witnessed(ch, base, old(client.answers), client.answers)
      ensures ch == base.(status := ch.status)
      ensures Outcome(client.State(), bg.status, result) ==
              PostRevoke(old(client.State()), old(bg.Snapshot()), now, ch)
    {
      ghost var fault;
      if HasFutureActivations(bg.spec.schedule, bg.status) {
        result, fault := TransitionToRecurringPending(bg, now);
      } else {
        result, fault := MarkExpired(bg, now);
      }
      ch := base.(status := fault);
    }

    method RevokeAndExpire(bg: Breakglass, now: Now, ghost base: Choices) returns (result: Result, ghost ch: Choices)
      requires Valid() && Fresh(base, bg.Snapshot(), client.objects)
      modifies client`objects, client`stored, client`answers, bg`status
      ensures Witnessed(ch, base, old(client.answers), client.answers)
      ensures Extends(ch, base) && Swept(bg.id, old(client.objects), ch.revoke.left, ch.revoke.err)
      ensures Outcome(client.State(), bg.status, result) ==
              Lifecycle.RevokeAndExpire(old(client.State()), old(bg.Snapshot()), now, ch)
    {
      ghost var told, start := client.answers, client.objects;
      var err := operator.CleanupResources(bg.id);
      ch := base.(revoke := Sweep(client.objects, err));
      ghost var revoked, heard := ch, client.answers;
      if err.Some? {
        AccountedReports(client.objects, told, heard, err);
        if err.value.retryable {
          return After(BACKOFF), ch;
        }
        if err.value.cause == NotFound {
          // The "not found" escape to PostRevokeTransition: this operator never answers so.
          assert false;
        }
        var _, fault := UpdateStatus(bg, Failed, RevokeFailed);
        ch := ch.(status := fault);
        WitnessedThen(base, revoked, ch, told, heard, client.answers);
        return Failure, ch;
      }
      SweptIsErased(bg.id, start, client.objects);
      result, ch := PostRevokeTransition(bg, now, ch);
      WitnessedThen(base, revoked, ch, told, heard, client.answers);
    }

    method RecurringPendingCondition(bg: Breakglass, now: Now, ghost base: Choices) returns (result: Result, ghost ch: Choices)
      requires Valid() && Fresh(base, bg.Snapshot(), client.objects)
      modifies client`objects, client`stored, client`answers, bg`status
      ensures Witnessed(ch, base, old(client.answers), client.answers)
      ensures Extends(ch, base) && ch.revoke == base.revoke
      ensures Outcome(client.State(), bg.status, result) ==
              HandleRecurringPending(old(client.State()), old(bg.Snapshot()), now, ch)
    {
      ch := base;
      if CurrentCondition(bg.status.conditions) != RecurringPending {
        var e, fault := UpdateStatus(bg, RecurringPending, RecurringWaiting);
        ch := ch.(status := fault);
        return if e.Some? then Failure else Again, ch;
      }
      var failed := manager.ProcessRecurring(bg, now);
      if failed {
        return Failure, ch;
      }
      var due := manager.ShouldActivate(bg, now);
      if due {
        result, ch := GrantAndActivate(bg, now, ch);
        return;
      }
      if bg.status.nextAt.Some? {
        return After(Clamp(Until(bg.status.nextAt.value, now))), ch;
      }
      return After(MIN_REQUEUE), ch;
    }

    method PendingCondition(bg: Breakglass, now: Now, ghost base: Choices) returns (result: Result, ghost ch: Choices)
      requires Valid() && Fresh(base, bg.Snapshot(), client.objects)
      modifies client`objects, client`stored, client`answers, bg`status
      ensures Witnessed(ch, base, old(client.answers), client.answers)
      ensures Extends(ch, base) && ch.revoke == base.revoke
      ensures Outcome(client.State(), bg.status, result) ==
              HandlePending(old(client.State()), old(bg.Snapshot()), now, ch)
    {
      ch := base;
      if |bg.status.conditions| == 0 {
        var e, fault := UpdateStatus(bg, Pending, NewResource);
        ch := ch.(status := fault);
        return if e.Some? then Failure else Again, ch;
      }
      if bg.spec.approvalRequired {
        if bg.status.approvedBy == "" {
          var e, fault := UpdateStatus(bg, Pending, WaitingForApproval);
          ch := ch.(status := fault);
          return if e.Some? then Failure else After(MIN_REQUEUE), ch;
        }
      }
      result, ch := RecurringPendingCondition(bg, now, ch);
    }

    method ApprovedCondition(bg: Breakglass, now: Now, ghost base: Choices) returns (result: Result, ghost ch: Choices)
      requires Valid() && Fresh(base, bg.Snapshot(), client.objects)
      modifies client`objects, client`stored, client`answers, bg`status
      ensures Witnessed(ch, base, old(client.answers), client.answers)
      ensures Extends(ch, base) && ch.revoke == base.revoke
      ensures Outcome(client.State(), bg.status, result) ==
              HandleApproved(old(client.State()), old(bg.Snapshot()), now, ch)
    {
      ch := base;
      if bg.status.approvedBy == "" {
        var e, fault := UpdateStatus(bg, Pending, WaitingForApproval);
        ch := ch.(status := fault);
        return if e.Some? then Failure else Done, ch;
      }
      result, ch := RecurringPendingCondition(bg, now, ch);
    }

    method RecurringActiveCondition(bg: Breakglass, now: Now, ghost base: Choices) returns (result: Result, ghost ch: Choices)
      requires Valid() && Fresh(base, bg.Snapshot(), client.objects)
      modifies client`objects, client`stored, client`answers, bg`status
      ensures Witnessed(ch, base, old(client.answers), client.answers)
      ensures Extends(ch, base) && Swept(bg.id, old(client.objects), ch.revoke.left, ch.revoke.err)
      ensures Outcome(client.State(), bg.status, result) ==
              HandleRecurringActive(old(client.State()), old(bg.Snapshot()), now, ch)
    {
      ch := base;
      var window := ComputeWindow(bg.spec.schedule, bg.status, now);
      if window.Some? && window.value.end != ZERO && now > window.value.end {
        result, ch := RevokeAndExpire(bg, now, ch);
        return;
      }
      var failed := manager.ProcessRecurring(bg, now);
      if failed {
        return Failure, ch;
      }
      if CurrentCondition(bg.status.conditions) == RecurringPending {
        return Again, ch;
      }
      if window.Some? {
        var untilExpiry := Until(window.value.end, now);
        if untilExpiry > HOUR {
          untilExpiry := HOUR;
        }
        if untilExpiry < MIN_REQUEUE {
          untilExpiry := MIN_REQUEUE;
        }
        return After(untilExpiry), ch;
      }
      if bg.status.nextAt.Some? {
        var untilNext := Until(bg.status.nextAt.value, now);
        if untilNext > HOUR {
          untilNext := HOUR;
        }
        if untilNext < MIN_REQUEUE {
          untilNext := MIN_REQUEUE;
        }
        return After(untilNext), ch;
      }
      return After(MIN_REQUEUE), ch;
    }

    /** The handler for the current condition. */
    method Handle(bg: Breakglass, now: Now, ghost base: Choices) returns (result: Result, ghost ch: Choices)
      requires Valid() && Fresh(base, bg.Snapshot(), client.objects)
      modifies client`objects, client`stored, client`answers, bg`status
      ensures Witnessed(ch, base, old(client.answers), client.answers)
      ensures Extends(ch, base) && Swept(bg.id, old(client.objects), ch.revoke.left, ch.revoke.err)
      ensures Outcome(client.State(), bg.status, result) ==
              Dispatch(old(client.State()), old(bg.Snapshot()), now, ch)
    {
      hide Witnessed, Swept, Erased, HandleApproved, HandleRecurringActive, HandleRecurringPending, HandlePending, Plan;
      SmoothSoFar(base, client.answers);
      ErasedIsSwept(bg.id, client.objects);
      ch := base;
      match CurrentCondition(bg.status.conditions) {
        case Approved => result, ch := ApprovedCondition(bg, now, ch);
        case Active | RecurringActive => result, ch := RecurringActiveCondition(bg, now, ch);
        case RecurringPending => result, ch := RecurringPendingCondition(bg, now, ch);
        case Denied | Expired | Revoked => result := Done;
        case NoCondition | Pending | Failed => result, ch := PendingCondition(bg, now, ch);
      }
    }
  }

  class Reconciler {
    const client: ApiServer
    const base: Handler

    constructor (client: ApiServer)
      ensures this.client == client && Valid()
    {
      this.client := client;
      base := new Handler(client);
    }

    ghost predicate Valid() {
      base.client == client && base.Valid()
    }

    /** The two cleanups of a deletion; one that is not reached counts as free of faults. */
    method DeleteObjects(id: Identity) returns (failed: bool, ghost sweep1: Sweep, ghost sweep2: Sweep)
      requires Valid()
      modifies client`objects, client`answers
      ensures Swept(id, old(client.objects), sweep1.left, sweep1.err)
      ensures sweep1.err.None? ==> Swept(id, sweep1.left, sweep2.left, sweep2.err)
      ensures failed == (sweep1.err.Some? || sweep2.err.Some?)
      ensures client.objects == if sweep1.err.Some? then sweep1.left else sweep2.left
      ensures !failed ==> client.objects == Erased(id, old(client.objects))
      ensures var erased := Sweep(Erased(id, old(client.objects)), None);
              && old(client.answers) <= client.answers
              && (sweep1 == erased || Reported(sweep1, old(client.answers), client.answers))
              && (sweep2 == erased || Reported(sweep2, old(client.answers), client.answers))
    {
      ghost var told, start := client.answers, client.objects;
      sweep2 := Sweep(Erased(id, start), None);
      var err := base.operator.CleanupResources(id);
      sweep1 := Sweep(client.objects, err);
      if err.Some? {
        AccountedReports(client.objects, told, client.answers, err);
        return true, sweep1, sweep2;
      }
      SweptIsErased(id, start, client.objects);
      ghost var heard := client.answers;
      err := base.operator.CleanupResources(id);
      AccountedThen(told, heard, client.answers, err);
      sweep2 := Sweep(client.objects, err);
      SweepTwice(id, start, sweep1.left, client.objects, err);
      if err.Some? {
        AccountedReports(client.objects, told, client.answers, err);
      }
      return err.Some?, sweep1, sweep2;
    }

    method Finalize(bg: Breakglass) returns (stop: bool, result: Result, ghost ch: Choices)
      requires Valid() && client.live && bg.Snapshot() == client.stored.(spec := bg.spec)
      modifies client, bg`finalizer
      ensures ch == NoFaults(old(client.State())).(meta := ch.meta, sweep1 := ch.sweep1, sweep2 := ch.sweep2)
      ensures Witnessed(ch, NoFaults(old(client.State())), old(client.answers), client.answers)
      ensures Possible(old(client.State()), ch)
      ensures OnlyOwnRemoved(bg.id, old(client.objects), client.objects)
      ensures client.objects == HandlerObjects(old(client.State()), ch)
      ensures !stop ==> bg.finalizer == client.stored.finalizer
      ensures ReconcileFinalizers(old(client.State()), old(bg.Snapshot()), ch) ==
              if stop then Stop(client.State(), result) else Go(client.State())
    {
      ghost var start, told := client.State(), client.answers;
      ch := NoFaults(start);
      NoFaultsPossible(start);
      if !bg.deleting {
        if bg.finalizer {
          return false, Done, ch;
        }
        bg.finalizer := true;
        var e, fault := client.Update(bg);
        ch := ch.(meta := fault);
        assert client.answers[|told|] == Answer(Updating, e);
        return true, if e.Some? then Failure else Again, ch;
      }
      var failed, sweep1, sweep2 := DeleteObjects(bg.id);
      ch := ch.(sweep1 := sweep1, sweep2 := sweep2);
      SweptAfter(start, ch);
      if failed {
        return false, Done, ch;
      }
      ghost var heard := client.answers;
      bg.finalizer := false;
      var e, fault := client.Update(bg);
      ghost var decided := ch;
      ch := ch.(meta := fault);
      assert client.answers[|heard|] == Answer(Updating, e);
      WitnessedThen(NoFaults(start), decided, ch, told, heard, client.answers);
      return e.Some?, Failure, ch;
    }

    /**
     * One reconcile is one step of the lifecycle, with choices the API could make and that its
     * answers bear out: undisturbed, it is the step without faults.
     */
    method Reconcile(now: Now) returns (result: Result, ghost ch: Choices)
      requires Valid()
      modifies client
      ensures Possible(old(client.State()), ch)
      ensures (client.State(), result) == Lifecycle.Reconcile(old(client.State()), now, ch)
      ensures Witnessed(ch, NoFaults(old(client.State())), old(client.answers), client.answers)
      ensures Smooth(old(client.answers), client.answers) ==>
                (client.State(), result) == Lifecycle.Reconcile(old(client.State()), now, NoFaults(old(client.State())))
      ensures Passing(old(client.answers), client.answers) ==> Mild(ch)
    {
      ghost var start, told := client.State(), client.answers;
      result, ch := Step(now);
      if Smooth(told, client.answers) {
        SmoothIsBase(ch, NoFaults(start), told, client.answers);
      }
      if Passing(told, client.answers) {
        PassingIsMild(ch, NoFaults(start), told, client.answers);
      }
    }

    method Step(now: Now) returns (result: Result, ghost ch: Choices)
      requires Valid()
      modifies client
      ensures Possible(old(client.State()), ch)
      ensures (client.State(), result) == Lifecycle.Reconcile(old(client.State()), now, ch)
      ensures Witnessed(ch, NoFaults(old(client.State())), old(client.answers), client.answers)
    {
      hide Dispatch, ReconcileFinalizers, HandlerObjects, Swept, Possible, Reported, UpdateFailed, Stopped, Erased, Plan;
      ghost var start, told := client.State(), client.answers;
      ch := NoFaults(start);
      NoFaultsPossible(start);
      var e := client.Get();
      if e.Some? {
        assert client.answers[|told|] == Answer(Getting, e);
        ch := ch.(read := e.value == NotFound);
        ReadIsFree(start, ch);
        return if e.value == NotFound then Done else Failure, ch;
      }
      var bg := new Breakglass(client.stored);
      if bg.spec.schedule.start == ZERO {
        if bg.spec.schedule.cron.NoCron? {
          return Failure, ch;
        }
        bg.spec := bg.spec.(schedule := bg.spec.schedule.(start := now));
      }
      if !bg.spec.schedule.cron.NoCron? && bg.spec.schedule.duration <= 0 {
        return Failure, ch;
      }
      ghost var asked := client.answers;
      var stop;
      stop, result, ch := Finalize(bg);
      ghost var decided, heard := ch, client.answers;
      WitnessedThen(NoFaults(start), NoFaults(start), decided, told, asked, heard);
      if stop {
        return;
      }
      FreshHere(start, bg.Snapshot(), client.objects);
      result, ch := base.Handle(bg, now, ch);
      WitnessedThen(NoFaults(start), decided, ch, told, heard, client.answers);
      FinalizersExtend(start, start.stored.(spec := bg.spec), ch, decided);
      NeverStoppedByExisting(ch, start, told, client.answers);
      PossibleExtends(start, ch, decided);
    }
  }

  lemma ReadIsFree(c: Cluster, ch: Choices)
    requires ch == NoFaults(c).(read := ch.read)
    ensures Possible(c, ch)
  {
    NoFaultsPossible(c);
  }

  /** After the cleanups of a deletion a revoke without faults has the same result as before. */
  lemma SweptAfter(c: Cluster, ch: Choices)
    requires c.live && c.stored.deleting && ch == NoFaults(c).(sweep1 := ch.sweep1, sweep2 := ch.sweep2)
    requires Swept(c.stored.id, c.objects, ch.sweep1.left, ch.sweep1.err)
    requires ch.sweep1.err.None? ==> Swept(c.stored.id, ch.sweep1.left, ch.sweep2.left, ch.sweep2.err)
    ensures Possible(c, ch)
    ensures OnlyOwnRemoved(c.stored.id, c.objects, CleanupOnDelete(c, ch).objects)
  {
    var id, after := c.stored.id, CleanupOnDelete(c, ch).objects;
    assert OnlyOwnRemoved(id, c.objects, after);
    ErasedAfter(id, c.objects, after);
    ErasedIsSwept(id, after);
  }

  lemma FreshHere(c: Cluster, bg: Resource, objects: Objects)
    requires bg.id == c.stored.id && bg.spec == c.stored.spec.(schedule := bg.spec.schedule)
    requires bg.status == c.stored.status && OnlyOwnRemoved(bg.id, c.objects, objects)
    ensures Fresh(NoFaults(c), bg, objects)
  {
    ErasedAfter(bg.id, c.objects, objects);
    SamePlan(bg, c.stored);
  }
}
