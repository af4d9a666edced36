# Verification of the breakglass lifecycle

This project models how firedoor decides when temporary RBAC access is granted, kept and revoked, and
proves what that lifecycle promises. `dafny verify dfyconfig.toml` checks all of it.

## What is modelled

* `Options.dfy`: optional values.
* `Schedules.dfy`: instants in whole seconds since Go's zero time (which stands for "not set"), cron
  schedules, `Schedule.Next`, and the two backward searches as loops. A cron schedule is any set of firing
  instants, with any horizon for `Next` of at least 370 days and any length of "a year back" below 370 days;
  the contract of `Next` is proved of its definition, not assumed. The 370-day break is what makes the loops
  terminate when `Next` returns the zero time, and their contracts show that it cuts no other search short.
* `Resources.dfy`: the custom resource, its status and conditions, RBAC objects, labels and names.
* `Windows.dfy`: `CurrentWindow` and the usecase predicates.
* `Recurring.dfy`: the recurring manager, updating a request in place.
* `Api.dfy`: the API server: atomic calls, each of which may fail in any way; an error is retryable or permanent.
  A ghost record of its answers says which calls were faulty.
* `Rbac.dfy`, `RbacProofs.dfy`: the RBAC operator's create and delete loops, and what they keep wherever they stop.
* `Lifecycle.dfy`: the effect of one reconcile on the cluster, as a function of the clock and of everything
  the API decides during it (`Choices`; `Possible` says which choices the API really has).
* `Controller.dfy`: the handlers and the reconciler in imperative form. `Controller.Reconciler.Reconcile` is
  proved to make exactly such a step, with choices that the API's answers bear out.
* `Safety.dfy`, `Theorems.dfy`: runs. A run starts from a fresh resource and interleaves, in any order,
  reconciles with any API failures, the passing of time, approvals, deletion requests, and other parties
  changing their own RBAC objects. `Safety` holds the inductive invariant; `Theorems` the promises.
* `History.dfy`: what the store keeps: the submitted spec, the approver, reasons; and handlers from any stored status.
* `Faults.dfy`: when a request fails for good, when it is retried, and that it is never forgotten.
* `Timing.dfy`: runs without faults in which every reconcile fires at the delay the one before returned.
* `Waiting.dfy`: which firing a recurring request waits for, and when it is granted, however late the reconciles.
* `Revocation.dfy`: when access to a recurring window is revoked: exactly, in time, and never.
* `Reachability.dfy`: each of the seven sequences of condition types is reached by a run.
* `Deletion.dfy`: exactly when a deletion leaves labelled objects behind, and an activation during one.

The clock is read once per reconcile and shows an instant after year 293, so that no `time.Duration` spans
the gap from the zero time. Assumed of the environment: nobody else's object carries the labels or
holds the names of the breakglass (`Rbac.Clean`), nobody edits its conditions, and its finalizer is the only one.

## Where the code and its documentation differ

The model follows the code in each case.

* README.md:116-130 describes repeated activation. `transitionToRecurringPending` updates an existing condition
  in place, so RecurringActive stays current and nothing is granted again: `Theorems.AtMostOneActivation` and
  `Theorems.GrantsComeFirst` hold for every schedule.
* A test calls `maxActivations: 0` unlimited (internal/operator/recurring/manager_test.go:228). The code treats
  the limit as reached at once; `Theorems.ActivationsLimited` then keeps the count at zero.
* docs/user-guide/concepts.md:22-31 shows a one-time request without a start; the reconciler rejects it.
* Design.md:85 expects a window that is longer than the gap between firings to be refused; the code accepts it.
  Such windows are never over (`Revocation.OverlapIsNeverOver`), and if the schedule also fires at least yearly only
  a deletion ever takes the access away (`Revocation.OverlapIsNeverRevoked`).
* The expiry check looks for the window's firing one year back only. Once a firing is older, there is no current
  window, so a window that outlives the lookback is not revoked at its end, nor before the next firing opens the next
  one: with `0 0 29 2 *` and 9600h, not for four years.
  `Revocation.WindowOverExactly` and `Revocation.RecurringRevokedExactly` give the exact condition,
  `Revocation.LongWindowIsMissed` a schedule that fails it, and `Revocation.ShortWindowStands` one that every
  window shorter than a year by more than 30 seconds meets.
* A resource being deleted can become RecurringActive without its objects, when a recorded grant is followed by a
  cleanup that fails half-way: `Deletion.DeletionCanActivateNothing`.
* The manager tests the window of the latest firing, the window calculator also clamps it to the schedule's
  start. They agree on every grant (`Theorems.GrantedInOpenWindow`), but when the schedule starts in
  mid-window the manager stops earlier; `Recurring.FreshlyDueExactly` gives the exact condition.
* The backward searches promise the latest firing of the past year. They lose it exactly when the schedule
  ends there (`Schedules.SearchFindsLatest`, with a failing schedule).
* The comment at internal/controller/breakglass/reconciler.go:138 lets the resource go once all is cleaned up, but
  `Reconcile` still calls the handler afterwards. `Deletion.DeletionIsCleanExactly` gives the exact condition for
  a clean end; `Deletion.DeletionCanLeaveAccess` is a run, without any fault, that ends otherwise.
* The manager's window test is strict, so a reconcile that falls exactly on a firing is too early and waits for the
  one after it: `Waiting.GrantedInNextWindowExactly` says when the window is met all the same.
* A one-shot is due from its start on, even once its window is over (`Timing.OneShotDue`).

## Model

| member | source | states |
|---|---|---|
| Schedules.NextFiring | internal/operator/recurring/manager.go:303 | `Next` returns the least firing after an instant, or the zero time when none lies within the horizon |
| Schedules.FindPrevActivation | internal/operator/recurring/manager.go:312-330 | the manager's search loop terminates and returns the latest firing of the past year; the zero time exactly when the schedule has no next firing from there |
| Schedules.FindPreviousActivation | internal/controller/breakglass/usecases/time.go:121-137 | the window calculator's search loop terminates and finds the same instant as the manager's |
| Schedules.SearchFindsLatest | internal/controller/breakglass/usecases/time.go:121-137 | the searches return the greatest firing in the lookback if and only if the schedule does not end there; always so when it never ends; a schedule for which they fail |
| Schedules.SearchMonotone | internal/controller/breakglass/usecases/time.go:121-137 | two successful searches never go back in time, whatever the year lengths |
| Resources.Breakglass.Mark | internal/operator/recurring/manager.go:333-349 | setting a condition overwrites the entry of its type in place, or appends |
| Resources.SetConditionKinds | internal/controller/breakglass/reconciler.go:84-89 | setting a condition never reorders the types, so the current condition is the one that appeared last |
| Resources.OtherLabelsDoNotMatch | internal/operator/rbac/operator.go:82-89 | the label set of one breakglass selects no object that carries the labels of another UID, whatever labels it carries besides |
| Resources.RenderInjective | internal/operator/rbac/operator.go:101-144 | different objects of a breakglass never format to the same name, so the recorded names identify them |
| Windows.ComputeWindow | internal/controller/breakglass/usecases/time.go:21-72 | the window, with the recorded-activation fallback and the start clamp, is the declarative one |
| Windows.OneShotWindowFixed | internal/controller/breakglass/usecases/time.go:91-105 | a one-shot's window is the same at every instant once a start, a recorded activation or a grant fixes it, in this order |
| Windows.WindowsMonotone | internal/controller/breakglass/usecases/time.go:21-72 | windows of later instants start and end no earlier, whenever both searches succeed |
| Windows.WindowsStable | internal/controller/breakglass/usecases/time.go:21-72 | between firings the window does not move while its firing is in the lookback |
| Windows.WindowEndsAfterFiring | internal/controller/breakglass/usecases/time.go:21-72 | a window in force ends no earlier than duration after any past firing, also under the fallback |
| Recurring.Manager.CheckActivationLimits | internal/operator/recurring/manager.go:381-398 | a reached limit clears the next activation and sets Failed in memory; otherwise nothing changes |
| Recurring.Manager.OneShot | internal/operator/recurring/manager.go:227-260 | one-shot processing: nothing once activated, else schedules the start, else notes that it is due |
| Recurring.Manager.HandleInitialActivation | internal/operator/recurring/manager.go:401-449 | first scheduling: the open window's firing, or the next firing not before the start |
| Recurring.Manager.ShouldActivateNow | internal/operator/recurring/manager.go:452-467 | true strictly inside the latest firing's window, or once the recorded activation has come |
| Recurring.Manager.ProcessRecurring | internal/operator/recurring/manager.go:82-163 | the in-place processing has exactly the effect the schedule theorems are about |
| Recurring.Manager.ShouldActivate | internal/operator/recurring/manager.go:166-174 | due: an activation is recorded, it has come, and the schedule has started |
| Recurring.Manager.OnActivationGranted | internal/operator/recurring/manager.go:185-225 | a grant counts one activation and records the next one, or none for a one-shot |
| Recurring.DueInOpenWindow | internal/operator/recurring/manager.go:113-149 | whenever processing makes a recurring request due, also from a half-stored grant, the current window exists and contains the instant |
| Recurring.FreshlyDueExactly | internal/operator/recurring/manager.go:401-437 | a request with no recorded activation is due if and only if the schedule has started and the instant is inside the latest firing's window |
| Waiting.RecordedIsDueExactly | internal/operator/recurring/manager.go:127-160 | a recorded activation that has come is due until a duration later and no longer; then the request waits for the first firing after now |
| Waiting.WaitsForNextFiring | internal/operator/recurring/manager.go:294-309 | a request that is not due waits for the first firing after now; before the schedule's start, for the start or the first firing from it, or keeps the firing whose window is open |
| Recurring.ProcessFrame | internal/operator/recurring/manager.go:82-163 | processing changes conditions and the next activation only, and appends no condition to a request it makes due |
| Rbac.Operator.CreateResource | internal/operator/rbac/operator.go:199-214 | fails exactly on a faulty answer, which an existing object never is, reports that answer classified, and then changes nothing |
| Rbac.Operator.CreateClusterRoleBindings | internal/operator/rbac/operator.go:92-130 | wherever the loop stops, a prefix of its plan has been created; it stops early exactly at a faulty answer |
| Rbac.Operator.CreatePolicyResources | internal/operator/rbac/operator.go:133-196 | wherever the loop stops, a prefix of its plan has been created; it stops early exactly at a faulty answer |
| Rbac.Operator.Grant | internal/operator/rbac/operator.go:52-79 | a grant creates all of the plan, or a prefix up to a faulty create, never one that only found its object in place; if all of it, it records the names, unless that update was answered with a failure |
| Rbac.Operator.DeleteKind | internal/operator/rbac/operator.go:285-348 | a delete loop removes labelled objects of its kind only, all of them on success; it fails exactly at the first faulty answer, a failed list being retryable and an object already gone no fault |
| Rbac.Operator.CleanupResources | internal/operator/rbac/operator.go:265-282 | RoleBindings go before Roles before ClusterRoleBindings, only labelled objects go, and success leaves none; it fails exactly if some call was answered with a fault, and reports that one |
| RbacProofs.GrantKeepsClean | internal/operator/rbac/operator.go:52-79 | wherever a grant stops, the labelled objects are wanted ones and nothing existing has changed |
| RbacProofs.GrantKeepsNoDangling | internal/operator/rbac/operator.go:142-193 | wherever a grant stops, every labelled RoleBinding has its Role in the same namespace |
| RbacProofs.GrantKeepsRecords | internal/operator/rbac/operator.go:217-233 | recorded names stay names of existing wanted objects, stored or only in memory |
| RbacProofs.GrantRecordsAll | internal/operator/rbac/operator.go:217-233 | a successful grant forgets no recorded name and has recorded that of every wanted object |
| RbacProofs.GrantCompletes | internal/operator/rbac/operator.go:101-127 | skipping recorded names is sound: a successful grant leaves exactly one object per distinct cluster role and two per policy, with the wanted contents |
| RbacProofs.GrantCompletesExactly | internal/operator/rbac/operator.go:101-149 | whatever names are recorded, a successful grant leaves exactly the wanted objects if and only if those it skips are already there |
| RbacProofs.RetriedGrantCompletes | internal/operator/rbac/operator.go:52-79 | the same after any number of partly failed attempts, each restarting from what is stored |
| Faults.RetriedGrantSucceeds | internal/operator/rbac/operator.go:199-233 | after any number of partly failed attempts, one whose creates go through or find their object in place, and whose record is stored, succeeds, is complete and fully recorded |
| RbacProofs.SweepKeepsClean | internal/operator/rbac/operator.go:265-282 | wherever a cleanup stops, the labelled objects have only become fewer |
| RbacProofs.SweepKeepsNoDangling | internal/operator/rbac/operator.go:265-282 | wherever a cleanup stops, no labelled RoleBinding has lost its Role |
| RbacProofs.SweepSparesOthers | internal/operator/rbac/operator.go:265-348 | a cleanup leaves every other breakglass's objects unchanged, even when it fails |
| RbacProofs.SweepTwice | internal/operator/rbac/operator.go:265-282 | after a successful cleanup a second one changes nothing |
| Lifecycle.Clamp | internal/controller/breakglass/handlers/common.go:331-339 | every requeue delay lies between 30 seconds and an hour |
| Controller.Handler.UpdateStatus | internal/controller/breakglass/handlers/common.go:97-117 | sets the condition in memory and stores the whole status, or stores nothing |
| Controller.Handler.GrantAndActivate | internal/controller/breakglass/handlers/common.go:120-202 | the handler code makes exactly the modelled step: cluster, memory and answer; every failure in it is one the API answered |
| Controller.Handler.RevokeAndExpire | internal/controller/breakglass/handlers/common.go:205-246 | as above; its cleanup is a possible one and its "not found" branch is dead |
| Controller.Handler.PostRevokeTransition | internal/controller/breakglass/handlers/common.go:248-253 | as above, by whether activations remain |
| Controller.Handler.TransitionToRecurringPending | internal/controller/breakglass/handlers/common.go:255-287 | as above: clears the expiry and stores RecurringPending |
| Controller.Handler.MarkExpired | internal/controller/breakglass/handlers/common.go:341-360 | as above: records the window's end and no next activation, and stores Expired |
| Controller.Handler.RecurringPendingCondition | internal/controller/breakglass/handlers/recurring_pending.go:23-73 | as above: the only way to a grant |
| Controller.Handler.RecurringActiveCondition | internal/controller/breakglass/handlers/recurring_active.go:24-84 | as above: revokes once the window is over, else only requeues |
| Controller.Handler.PendingCondition | internal/controller/breakglass/handlers/pending.go:41-80 | as above: first condition, then the approval gate |
| Controller.Handler.ApprovedCondition | internal/controller/breakglass/handlers/approved.go:22-39 | as above |
| Controller.Handler.Handle | internal/controller/breakglass/reconciler.go:192-209 | as above, for the current condition; terminal ones do nothing |
| Controller.Reconciler.DeleteObjects | internal/controller/breakglass/reconciler.go:91-119 | two cleanups, the second only after a successful first; success removes the labelled objects and nothing else |
| Controller.Reconciler.Finalize | internal/controller/breakglass/reconciler.go:121-141 | adds the finalizer, or cleans up and removes it; goes on to the handler after a failed cleanup |
| Controller.Reconciler.Reconcile | internal/controller/breakglass/reconciler.go:143-210 | one reconcile of the code is one step of the lifecycle, with choices the API could make; each failure among them is one it answered, so with no faulty answer it is the step without faults, and with retryable ones only it meets no error to give up on |
| Controller.WitnessedThen | internal/controller/breakglass/reconciler.go:188-209 | the answers to a reconcile's two phases together account for all its choices |
| Controller.PassingIsMild | internal/controller/breakglass/handlers/common.go:125-130 | if every faulty answer is worth retrying, so is every error the grant or the revoke meets |
| Safety.MoveKeeps | internal/controller/breakglass/reconciler.go:143-210 | the invariant is inductive: every step of a run keeps it and changes phase by at most one |
| Safety.DispatchKeeps | internal/controller/breakglass/reconciler.go:192-209 | each handler keeps the invariant, and only the scheduled phase can add labelled objects |
| Safety.ExpiryIsRecorded | internal/controller/breakglass/handlers/common.go:341-347 | the window that closes a held grant ended between the grant and now |
| Safety.DueIsScheduled | internal/controller/breakglass/handlers/recurring_pending.go:41-50 | a status made due in memory still fits the invariant, with the instant inside a firing's window |
| Theorems.ConditionTypes | internal/controller/breakglass/handlers/common.go:97-117 | in every run the stored condition types form one of seven sequences, without repeats |
| Reachability.AllSequencesReached | internal/controller/breakglass/handlers/common.go:97-117 | each of the seven sequences is stored by some run |
| Theorems.AtMostFourChanges | internal/controller/breakglass/reconciler.go:192-209 | the current condition changes at most four times in any run |
| Theorems.ExpiredMeansNoAccess | internal/controller/breakglass/handlers/terminal.go:20-24 | once Expired is stored there are no labelled objects, and none ever appears again, deletion included |
| Theorems.AccessIsCleared | internal/controller/breakglass/handlers/pending.go:58-79 | labelled objects exist only if approval was not required or is given, and not before the schedule starts |
| Theorems.AccessIsFinalized | internal/controller/breakglass/reconciler.go:121-141 | as long as the resource exists, labelled objects imply the stored finalizer |
| Theorems.FinalizerRemovedWhenClean | internal/controller/breakglass/reconciler.go:121-141 | the finalizer is removed only from a state with no labelled objects |
| Theorems.RoleBindingsNeverDangle | internal/operator/rbac/operator.go:151-192 | in every state of every run each labelled RoleBinding refers to a Role that exists in its namespace |
| Theorems.RecordsExistBeforeCleanup | internal/operator/rbac/operator.go:104-107 | in every run, as long as no reconcile has reached a cleanup (a deletion's or a revoke's), every recorded name is the name of a labelled object in the cluster |
| Theorems.OnlyGrantingAddsAccess | internal/controller/breakglass/handlers/recurring_pending.go:46-50 | only a reconcile that calls `GrantAndActivate` adds labelled objects or counts an activation |
| Theorems.GrantsComeFirst | internal/controller/breakglass/handlers/recurring_pending.go:26-50 | nothing is granted once RecurringActive is stored |
| Theorems.GrantedInOpenWindow | internal/controller/breakglass/handlers/common.go:120-170 | a recurring schedule that always has a next firing is granted only when the current window exists and contains now |
| Theorems.AtMostOneActivation | internal/controller/breakglass/handlers/common.go:255-287 | in every run there is at most one activation, and exactly one once RecurringActive is stored |
| Theorems.ActivationIsComplete | internal/controller/breakglass/handlers/common.go:120-202 | a breakglass that becomes RecurringActive and is not being deleted has exactly the wanted objects |
| Theorems.AccessKeptInWindow | internal/controller/breakglass/handlers/recurring_active.go:27-47 | unless the resource is being deleted, labelled objects go only once the current window is over |
| Theorems.FailedIsFinal | internal/controller/breakglass/handlers/common.go:120-150 | a stored Failed is never left: the condition types stay, no labelled object is added, and those left stay until a deletion |
| Faults.FailsExactly | internal/controller/breakglass/handlers/common.go:124-150 | from any reachable state, a reconcile stores Failed if and only if its grant or revoke meets an error not worth retrying and its status update works |
| Faults.FailedHasCause | internal/controller/breakglass/handlers/common.go:124-150 | in every run, Failed implies that an earlier reconcile met such an error |
| Faults.MildRunsNeverFail | internal/controller/breakglass/handlers/common.go:124-150 | a run whose grants and revokes meet only errors worth retrying never stores Failed |
| Faults.RetryableIsRetried | internal/controller/breakglass/handlers/common.go:128-131 | a due grant or overdue revoke that meets an error worth retrying stores nothing and is retried after the backoff |
| Faults.NeverForgotten | internal/controller/breakglass/reconciler.go:143-210 | in every reachable state, under any faults, a reconcile asks for another within an hour, unless the resource has ended or expired, has just failed, or is held without a window |
| Faults.FailedUpdateIsReported | internal/controller/breakglass/handlers/common.go:97-117 | from any state, an update of the status or the finalizer that fails is reported as an error whenever it makes a difference to what is stored |
| History.SpecIsKept | internal/controller/breakglass/reconciler.go:170-190 | in every run the spec stays as submitted, except that a start not set becomes the instant of the reconcile that admitted the resource; only accepted schedules are admitted |
| History.ApproverIsKept | internal/controller/breakglass/handlers/common.go:152-155 | in every run a recorded approver stays until someone else approves; a reconcile only ever fills in the default |
| History.GateIsShut | internal/controller/breakglass/handlers/approved.go:22-38 | from any stored status: without an approver, an Approved request, or one to be approved and not scheduled, gets no object and at most Pending is stored |
| History.GateIsOpen | internal/controller/breakglass/handlers/approved.go:22-38 | from any stored status: with an approver, an Approved or Pending request is scheduled and reconciled at once |
| History.TerminalIsAbsorbing | internal/controller/breakglass/handlers/terminal.go:20-24 | from any stored status: Denied, Expired and Revoked are never left, and without a deletion no object changes |
| History.ActiveIsRevokedExactly | internal/controller/breakglass/handlers/recurring_active.go:27-47 | from any stored status: Active and RecurringActive lose their objects exactly once the window is over |
| History.ReasonsFit | internal/operator/recurring/manager.go:333-349 | in every run each stored condition states a reason of its type: what the manager sets in memory only is never stored |
| Theorems.HeldStatus | internal/operator/recurring/manager.go:185-212 | while held: granted at or after the start, counted, no next activation exactly for one-shots; else it is after the grant if and only if the schedule goes on, and then it is the first firing after the grant |
| Theorems.ExpiryFollowsGrant | internal/controller/breakglass/handlers/common.go:341-347 | an Expired recurring request has grant <= expiry < now; an Expired one-shot has expiry = start + duration |
| Theorems.RevokeOutcome | internal/controller/breakglass/usecases/usecase.go:49-61 | a stored revoke records Expired, with the window's end, exactly for one-shots and exhausted schedules; the others keep a next activation after the grant and are reconciled at it; nothing else changes |
| Theorems.FailedRevokeNeverExpires | internal/controller/breakglass/handlers/common.go:205-246 | a failed revoke stores nothing or Failed: the "not found" escape is unreachable with this operator |
| Theorems.ActivationsLimited | internal/operator/recurring/manager.go:381-398 | from any stored status, any number of handler runs with any failures keeps the count within max(0, maxActivations), and a one-shot within one |
| Timing.HeldDrive | internal/controller/breakglass/handlers/recurring_active.go:27-66 | held access whose current window keeps its end until 30 seconds past it (`EndsAt`) is revoked within those 30 seconds, after an exact number of reconciles |
| Timing.HeldRunsBound | internal/controller/breakglass/handlers/recurring_active.go:49-66 | that number is at most one per remaining hour plus three |
| Timing.GrantSucceeds | internal/controller/breakglass/handlers/common.go:120-202 | an undisturbed due grant is complete, stored with now as its grant time, and requeued at its window's end |
| Timing.OneShotDue | internal/operator/recurring/manager.go:249-257 | a scheduled one-shot is due if and only if its start has come |
| Timing.OneShotExpires | internal/controller/breakglass/handlers/recurring_pending.go:41-72 | a finite one-shot is Expired within a bounded number of reconciles, its objects gone by max(end, grant) + 30s, its recorded expiry exactly start + duration |
| Timing.OneShotRecovers | internal/controller/breakglass/handlers/recurring_active.go:27-66 | from every reachable state of a finite, cleared one-shot that has not failed for good, whatever faults came before, fault-free reconciles bring it to Expired within the bound: objects gone, expiry exactly start + duration, within 30 s of the end or the grant, or at once when that has passed |
| Faults.OneShotOutlastsFaults | internal/controller/breakglass/handlers/common.go:128-131 | the same from every reachable state in which only errors worth retrying were met |
| Waiting.WaitingPoll | internal/controller/breakglass/handlers/recurring_pending.go:51-72 | an undisturbed reconcile of a recurring request that is not due changes nothing and asks to be called at its activation, within 30 s and an hour |
| Waiting.RecurringEarly | internal/controller/breakglass/handlers/recurring_pending.go:51-72 | from the start on, with nothing recorded, that is the first firing after now |
| Waiting.InterruptedIsResumed | internal/controller/breakglass/handlers/recurring_pending.go:41-50 | in every run, a recurring request left with a recorded activation is granted by the next undisturbed reconcile if and only if that comes within a duration of it |
| Waiting.WaitingPolls | internal/controller/breakglass/handlers/recurring_pending.go:41-72 | however late the reconciles, nothing changes until the first one strictly inside a firing's window, which grants |
| Waiting.GrantedInNextWindowExactly | internal/controller/breakglass/handlers/recurring_pending.go:41-72 | a waiting request is granted in the next firing's window if and only if the first reconcile after that firing comes before the window ends |
| Waiting.GrantedInTime | internal/controller/breakglass/handlers/recurring_pending.go:41-72 | with a window longer than 30 s and the lateness, and unless a reconcile falls exactly on the firing, it is granted within that time of it |
| Revocation.WindowAfterGrant | internal/controller/breakglass/usecases/time.go:21-72 | from a grant to the next firing, the window is that of the last firing while the lookback reaches it, and none afterwards |
| Revocation.WindowOverExactly | internal/controller/breakglass/handlers/recurring_active.go:27-33 | from a grant to the next firing, the expiry check fires if and only if the window has ended and its firing is still in the lookback |
| Revocation.HeldUnlessPastEnd | internal/controller/breakglass/handlers/recurring_active.go:27-47 | in any run, under any faults, until the next firing a step takes held access away only under that condition, deletion apart |
| Revocation.HeldRevokedExactly | internal/controller/breakglass/handlers/recurring_active.go:27-83 | after any number of fault-free reconciles before the next firing, held access is gone if and only if one of them met that condition |
| Revocation.RecurringRevokedExactly | internal/controller/breakglass/handlers/recurring_active.go:27-83 | access to at least one object, granted in a last firing's window (the current one whenever the search finds a firing) that ends more than 30 s before the next firing, is revoked by end + 30 s if and only if the first poll past the end comes by then and finds the window's firing in the lookback |
| Revocation.RecurringRevokedInTime | internal/controller/breakglass/handlers/recurring_active.go:27-66 | if moreover the firing stays in the lookback until end + 30 s, it is revoked in (end, end + 30s], after at most (end - grant) div 1h + 2 reconciles |
| Revocation.ShortWindowStands | internal/controller/breakglass/usecases/time.go:121-137 | the firing does so whenever the window and 30 s are shorter than any year back, counted from the firing |
| Revocation.LongWindowIsMissed | internal/controller/breakglass/handlers/recurring_active.go:27-83 | a 400-day window every 800 days: access granted ten seconds into it is not revoked before the next firing |
| Revocation.OverlapIsNeverOver | internal/controller/breakglass/handlers/recurring_active.go:27-33 | when every window reaches the next firing, the expiry check never fires as long as the search finds a firing |
| Revocation.OverlapKeepsAccess | internal/controller/breakglass/handlers/recurring_active.go:27-47 | such a schedule loses no labelled object in any step of any run at which the search finds a firing, deletion apart |
| Revocation.OverlapIsNeverRevoked | internal/controller/breakglass/handlers/recurring_active.go:27-47 | if it also fires at least yearly, access once granted is never taken away in any run, deletion apart |
| Deletion.DeletionIsCleanExactly | internal/controller/breakglass/reconciler.go:188-209 | after the reconcile that removes the finalizer there is never a labelled object, if and only if that reconcile does not also grant: a scheduled request that is due, with something to create, and a create that goes through |
| Deletion.DeletionCanLeaveAccess | internal/controller/breakglass/reconciler.go:188-209 | from the creation of any one-shot whose start has come and that has a cluster role, some run deletes it without faults and leaves its access |
| Deletion.DeletionCanActivateNothing | internal/controller/breakglass/reconciler.go:131-136 | from the creation of any one-shot whose start has come and that has a cluster role, some run activates it while it is being deleted, with no labelled object |

## Left out

- Cron text, time zones and daylight saving: schedules are sets of instants. A schedule is well-formed or not; the manager and the window calculator are taken to agree on which.
- Fractions of a second: stored times are truncated to seconds, and the model's clock has whole seconds only.
- Reading the clock again within one reconcile, and `LastTransitionTime`, messages and generations in the status.
- The Kubernetes client: caches, timeouts that land late, retries inside the client. Calls are atomic and reads are current.
- The table that maps API errors to retryable or permanent: an error carries its class.
- Events, logging, tracing, metrics, alerts, configuration, command line, charts and generated code.
- Finalizers of other controllers: the resource ends when this one is removed.
- UIDs of different breakglasses that share their first eight characters: excluded by the assumption on names.
- The 32-bit width of the activation count: a run never counts beyond one.
- Watch events: the timing results fire a reconcile at its returned delay only. In any run access stays before the window's end (`Theorems.AccessKeptInWindow`).
- Deletion in the timing results: they concern resources that are not being deleted; a deletion whose cleanups succeed ends the resource in one reconcile (`Deletion.DueDeletionGrants` shows one).
