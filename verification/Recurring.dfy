/** The recurring manager: when a request is next due, and what a grant does to the schedule. */
module Recurring {
  import opened Options
  import opened Schedules
  import opened Resources
  import opened Windows

  // ----- What each operation does to the status -----

  /** A status after a manager step, and whether the step returned an error. */
  datatype Managed = Managed(status: Status, failed: bool)

  /** The next firing after `ref`, but never before the schedule starts. */
  function CalculateNext(s: ScheduleSpec, c: Cron, ref: Time): Time {
    var candidate := NextFiring(c, ref);
    if candidate < s.start then s.start else candidate
  }

  function ProcessOneShot(s: ScheduleSpec, st: Status, now: Now): Status {
    if st.count > 0 then st
    else if st.nextAt.None? then
      var target := if s.start == ZERO then now else s.start;
      WithCondition(st.(nextAt := Some(target)), RecurringPending, RecurringScheduled)
    else if st.nextAt.value <= now then WithCondition(st, RecurringPending, RecurringWaiting)
    else st
  }

  /** Strictly between the latest firing and the end of the unclamped window it opens. */
  predicate InsideFiring(s: ScheduleSpec, c: Cron, now: Now) {
    var found := SearchBack(c, now);
    found != ZERO && found < now < found + s.duration
  }

  function InitialActivation(s: ScheduleSpec, c: Cron, st: Status, now: Now): Status {
    if InsideFiring(s, c, now) then
      WithCondition(st.(nextAt := Some(SearchBack(c, now))), RecurringPending, RecurringWaiting)
    else
      WithCondition(st.(nextAt := Some(CalculateNext(s, c, now))), RecurringPending, RecurringScheduled)
  }

  function LaterActivation(s: ScheduleSpec, c: Cron, st: Status, now: Now): Status
    requires st.nextAt.Some?
  {
    if now < s.start then st
    else if s.duration > 0 && st.nextAt.value + s.duration < now then
      WithCondition(st.(nextAt := Some(CalculateNext(s, c, now))), RecurringPending, RecurringScheduled)
    else if InsideFiring(s, c, now) || st.nextAt.value <= now then
      WithCondition(st, RecurringPending, RecurringWaiting)
    else st
  }

  function Process(s: ScheduleSpec, st: Status, now: Now): Managed {
    if MaxActivationsReached(s, st) then
      Managed(WithCondition(st.(nextAt := None), Failed, LimitReached), false)
    else match s.cron
    case NoCron => Managed(ProcessOneShot(s, st, now), false)
    case BadCron => Managed(WithCondition(st, Failed, RecurringInvalidSchedule), true)
    case Every(c) =>
      Managed(if st.nextAt.None? then InitialActivation(s, c, st, now) else LaterActivation(s, c, st, now), false)
  }

  predicate Due(s: ScheduleSpec, st: Status, now: Now) {
    st.nextAt.Some? && s.start <= now && st.nextAt.value <= now
  }

  function Advance(s: ScheduleSpec, st: Status, now: Now): Managed {
    match s.cron
    case NoCron => Managed(st.(nextAt := None, count := st.count + 1), false)
    case BadCron => Managed(st, true)
    case Every(c) =>
      var ref := if st.grantedAt.Some? then st.grantedAt.value else now;
      var next := CalculateNext(s, c, ref);
      Managed(
        WithCondition(st.(nextAt := Some(next), count := st.count + 1), RecurringPending, RecurringScheduled),
        false)
  }

  // ----- The manager, updating the request in place -----

  class Manager {
    constructor () {}

    method CheckActivationLimits(bg: Breakglass) returns (reached: bool)
      modifies bg`status
      ensures reached == MaxActivationsReached(bg.spec.schedule, old(bg.status))
      ensures !reached ==> bg.status == old(bg.status)
      ensures reached ==>
                bg.status == WithCondition(old(bg.status).(nextAt := None), Failed, LimitReached)
    {
      var s := bg.spec.schedule;
      if s.maxActivations.Some? && bg.status.count >= s.maxActivations.value {
        bg.status := bg.status.(nextAt := None);
        bg.Mark(Failed, LimitReached);
        return true;
      }
      return false;
    }

    method OneShot(bg: Breakglass, now: Now)
      modifies bg`status
      ensures bg.status == ProcessOneShot(bg.spec.schedule, old(bg.status), now)
    {
      if bg.status.count > 0 {
        return;
      }
      var target: Time := bg.spec.schedule.start;
      if target == ZERO {
        target := now;
      }
      if bg.status.nextAt.None? {
        bg.status := bg.status.(nextAt := Some(target));
        bg.Mark(RecurringPending, RecurringScheduled);
        return;
      }
      if !(now < bg.status.nextAt.value) {
        bg.Mark(RecurringPending, RecurringWaiting);
      }
    }

    method HandleInitialActivation(bg: Breakglass, c: Cron, now: Now)
      modifies bg`status
      ensures bg.status == InitialActivation(bg.spec.schedule, c, old(bg.status), now)
    {
      var nextActivation := CalculateNext(bg.spec.schedule, c, now);
      var prev := FindPrevActivation(c, now);
      if prev.Some? {
        var windowEnd: int := prev.value + bg.spec.schedule.duration;
        if now > prev.value && now < windowEnd {
          bg.status := bg.status.(nextAt := prev);
          bg.Mark(RecurringPending, RecurringWaiting);
          return;
        }
      }
      bg.status := bg.status.(nextAt := Some(nextActivation));
      bg.Mark(RecurringPending, RecurringScheduled);
    }

    method ShouldActivateNow(bg: Breakglass, c: Cron, now: Now) returns (yes: bool)
      ensures yes ==
              (InsideFiring(bg.spec.schedule, c, now) || (bg.status.nextAt.Some? && bg.status.nextAt.value <= now))
    {
      var prev := FindPrevActivation(c, now);
      if prev.Some? {
        var windowEnd: int := prev.value + bg.spec.schedule.duration;
        if now > prev.value && now < windowEnd {
          return true;
        }
      }
      if bg.status.nextAt.Some? && !(now < bg.status.nextAt.value) {
        return true;
      }
      return false;
    }

    method ProcessRecurring(bg: Breakglass, now: Now) returns (failed: bool)
      modifies bg`status
      ensures Managed(bg.status, failed) == Process(bg.spec.schedule, old(bg.status), now)
    {
      var reached := CheckActivationLimits(bg);
      if reached {
        return false;
      }
      var s := bg.spec.schedule;
      match s.cron {
        case NoCron =>
          OneShot(bg, now);
          return false;
        case BadCron =>
          bg.Mark(Failed, RecurringInvalidSchedule);
          return true;
        case Every(c) =>
          if bg.status.nextAt.None? {
            HandleInitialActivation(bg, c, now);
            return false;
          }
          if now < s.start {
            return false;
          }
          if s.duration > 0 {
            var windowEnd: int := bg.status.nextAt.value + s.duration;
            if now > windowEnd {
              var next := CalculateNext(s, c, now);
              bg.status := bg.status.(nextAt := Some(next));
              bg.Mark(RecurringPending, RecurringScheduled);
              return false;
            }
          }
          var open := ShouldActivateNow(bg, c, now);
          if open {
            bg.Mark(RecurringPending, RecurringWaiting);
          }
          return false;
      }
    }

    method ShouldActivate(bg: Breakglass, now: Now) returns (due: bool)
      ensures due == Due(bg.spec.schedule, bg.status, now)
    {
      if bg.status.nextAt.None? {
        return false;
      }
      if bg.spec.schedule.start != ZERO && now < bg.spec.schedule.start {
        return false;
      }
      return !(now < bg.status.nextAt.value);
    }

    method OnActivationGranted(bg: Breakglass, now: Now) returns (failed: bool)
      modifies bg`status
      ensures Managed(bg.status, failed) == Advance(bg.spec.schedule, old(bg.status), now)
    {
      match bg.spec.schedule.cron {
        case NoCron =>
          bg.status := bg.status.(nextAt := None, count := bg.status.count + 1);
          return false;
        case BadCron =>
          return true;
        case Every(c) =>
          var ref: Time := now;
          if bg.status.grantedAt.Some? {
            ref := bg.status.grantedAt.value;
          }
          var next := CalculateNext(bg.spec.schedule, c, ref);
          bg.status := bg.status.(count := bg.status.count + 1);
          bg.status := bg.status.(nextAt := Some(next));
          bg.Mark(RecurringPending, RecurringScheduled);
          return false;
      }
    }
  }

  // ----- What the manager promises -----

  /** A recorded activation that a half-stored grant can leave behind: none, or a past firing. */
  ghost predicate RecordedFiring(c: Cron, st: Status, now: Time) {
    st.nextAt.Some? ==> st.nextAt.value != ZERO && st.nextAt.value <= now && c.fires(st.nextAt.value)
  }

  /**
   * The manager's test and the window calculator agree: whenever processing makes a recurring
   * request due, the current window exists and contains the instant, and the recorded activation
   * is a firing whose own window does too.
   */
  lemma DueInOpenWindow(s: ScheduleSpec, st: Status, now: Now)
    requires s.cron.Every? && Perpetual(s.cron.cron) && s.duration > 0
    requires RecordedFiring(s.cron.cron, st, now)
    requires Due(s, Process(s, st, now).status, now)
    ensures var st' := Process(s, st, now).status;
            && CurrentWindow(s, st', now).Some?
            && CurrentWindow(s, st', now).value.start <= now <= CurrentWindow(s, st', now).value.end
            && RecordedFiring(s.cron.cron, st', now)
            && now <= st'.nextAt.value + s.duration
  {
    var c := s.cron.cron;
    var st' := Process(s, st, now).status;
    assert NextFiring(c, now) != ZERO;
    var f := st'.nextAt.value;
    assert c.fires(f) && f <= now <= f + s.duration;
    var found := SearchBack(c, now);
    var latest := LatestFiring(c, Lookback(c, now), now);
    assert latest.Some? ==> NextFiring(c, latest.value) != ZERO;
    assert found != ZERO ==> f <= found;
  }

  /**
   * A request with no recorded activation becomes due exactly inside the latest firing's window;
   * unless the schedule started in mid-window, that is exactly the interior of the current window.
   */
  lemma FreshlyDueExactly(s: ScheduleSpec, st: Status, now: Now)
    requires s.cron.Every? && Perpetual(s.cron.cron) && s.duration > 0
    requires st.nextAt.None? && !MaxActivationsReached(s, st)
    ensures Due(s, Process(s, st, now).status, now) <==> s.start <= now && InsideFiring(s, s.cron.cron, now)
    ensures var w := CurrentWindow(s, st, now);
            s.start <= SearchBack(s.cron.cron, now) ==>
              (Due(s, Process(s, st, now).status, now) <==> w.Some? && w.value.start < now < w.value.end)
  {
    assert NextFiring(s.cron.cron, now) != ZERO;
  }

  /** Processing sets at most one condition, in memory. */
  lemma ProcessSets(s: ScheduleSpec, st: Status, now: Now)
    ensures var conditions := Process(s, st, now).status.conditions;
            || conditions == st.conditions
            || conditions == SetCondition(st.conditions, Condition(RecurringPending, RecurringScheduled))
            || conditions == SetCondition(st.conditions, Condition(RecurringPending, RecurringWaiting))
            || conditions == SetCondition(st.conditions, Condition(Failed, LimitReached))
            || conditions == SetCondition(st.conditions, Condition(Failed, RecurringInvalidSchedule))
  {
    hide SetCondition, InsideFiring, CalculateNext;
  }

  /** Processing fails only on a schedule that does not parse. */
  lemma OnlyBadFails(s: ScheduleSpec, st: Status, now: Now)
    ensures Process(s, st, now).failed ==> s.cron.BadCron?
  {
  }

  /** Processing that makes a request due, or one within its limits, never sets Failed. */
  lemma ProcessSetsPending(s: ScheduleSpec, st: Status, now: Now)
    requires (!Process(s, st, now).failed && Due(s, Process(s, st, now).status, now))
             || (s.cron.Every? && !MaxActivationsReached(s, st))
    ensures var conditions := Process(s, st, now).status.conditions;
            || conditions == st.conditions
            || conditions == SetCondition(st.conditions, Condition(RecurringPending, RecurringScheduled))
            || conditions == SetCondition(st.conditions, Condition(RecurringPending, RecurringWaiting))
  {
    hide SetCondition, InsideFiring, CalculateNext;
  }

  lemma ProcessSparesRecords(s: ScheduleSpec, st: Status, now: Now)
    ensures var st' := Process(s, st, now).status;
            st'.(conditions := st.conditions, nextAt := st.nextAt) == st
  {
    hide SetCondition, InsideFiring, CalculateNext;
  }

  /** Processing never touches what a grant records, and only ever sets pending or failed conditions. */
  lemma ProcessFrame(s: ScheduleSpec, st: Status, now: Now)
    ensures var st' := Process(s, st, now).status;
            && st'.(conditions := st.conditions, nextAt := st.nextAt) == st
            && (!Process(s, st, now).failed && Due(s, st', now) && RecurringPending in Kinds(st.conditions) ==>
                  Kinds(st'.conditions) == Kinds(st.conditions))
            && (s.cron.Every? && !MaxActivationsReached(s, st) && RecurringPending in Kinds(st.conditions) ==>
                  Kinds(st'.conditions) == Kinds(st.conditions))
  {
    hide Process, Due, SetCondition, MaxActivationsReached;
    ProcessSparesRecords(s, st, now);
    SetConditionKinds(st.conditions, Condition(RecurringPending, RecurringScheduled));
    SetConditionKinds(st.conditions, Condition(RecurringPending, RecurringWaiting));
    if (!Process(s, st, now).failed && Due(s, Process(s, st, now).status, now))
       || (s.cron.Every? && !MaxActivationsReached(s, st)) {
      ProcessSetsPending(s, st, now);
    }
  }
}
