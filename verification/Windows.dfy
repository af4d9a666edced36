/** The activation window that applies at an instant, and what kind of schedule a request has. */
module Windows {
  import opened Options
  import opened Schedules
  import opened Resources

  datatype Window = Window(start: Time, end: Time)

  // ----- Usecase predicates -----

  datatype ScheduleKind = OneShotUnlimited | OneShotFinite | RecurringUnlimited | RecurringFinite

  function Determine(s: ScheduleSpec): ScheduleKind {
    if s.cron.NoCron? then
      if s.duration <= 0 then OneShotUnlimited else OneShotFinite
    else if s.maxActivations.Some? then RecurringFinite
    else RecurringUnlimited
  }

  predicate MaxActivationsReached(s: ScheduleSpec, st: Status) {
    s.maxActivations.Some? && st.count >= s.maxActivations.value
  }

  predicate HasFutureActivations(s: ScheduleSpec, st: Status) {
    match Determine(s)
    case RecurringUnlimited => st.nextAt.Some?
    case RecurringFinite => !MaxActivationsReached(s, st) && st.nextAt.Some?
    case _ => false
  }

  // ----- Windows -----

  function ResolveOneShotStart(s: ScheduleSpec, st: Status, now: Now): Time {
    if s.start != ZERO then s.start
    else if st.nextAt.Some? then st.nextAt.value
    else if st.grantedAt.Some? then st.grantedAt.value
    else now
  }

  /** The firing a recurring window is anchored at: the search result, else a recorded activation already due. */
  function Anchor(c: Cron, st: Status, now: Now): Time {
    var found := SearchBack(c, now);
    if found == ZERO && st.nextAt.Some? && st.nextAt.value <= now then st.nextAt.value else found
  }

  /** The window that applies at `now`. */
  function CurrentWindow(s: ScheduleSpec, st: Status, now: Now): Option<Window> {
    if s.duration <= 0 then None
    else match s.cron
    case NoCron =>
      var start := ResolveOneShotStart(s, st, now);
      Some(Window(start, start + s.duration))
    case BadCron => None
    case Every(c) =>
      var anchor := Anchor(c, st, now);
      if anchor == ZERO || now < s.start then None
      else
        var start := if anchor < s.start then s.start else anchor;
        Some(Window(start, start + s.duration))
  }

  /** The window calculation, step by step. */
  method ComputeWindow(s: ScheduleSpec, st: Status, now: Now) returns (w: Option<Window>)
    ensures w == CurrentWindow(s, st, now)
  {
    if s.duration <= 0 {
      return None;
    }
    if s.cron.NoCron? {
      var begin := ResolveOneShotStart(s, st, now);
      return Some(Window(begin, begin + s.duration));
    }
    if s.cron.BadCron? {
      return None;
    }
    var start := FindPreviousActivation(s.cron.cron, now);
    if start == ZERO && st.nextAt.Some? {
      if st.nextAt.value <= now {
        start := st.nextAt.value;
      }
    }
    if s.start != ZERO {
      if now < s.start {
        return None;
      }
      if start != ZERO && start < s.start {
        start := s.start;
      }
    }
    if start == ZERO {
      return None;
    }
    return Some(Window(start, start + s.duration));
  }

  /** Once anything fixes a one-shot's start, its window is the same at every instant, and holds what fixed it. */
  lemma OneShotWindowFixed(s: ScheduleSpec, st: Status, now1: Now, now2: Now)
    requires s.cron.NoCron? && s.duration > 0 && (s.start != ZERO || st.nextAt.Some? || st.grantedAt.Some?)
    ensures CurrentWindow(s, st, now1) == CurrentWindow(s, st, now2)
    ensures var w := CurrentWindow(s, st, now1);
            && w.Some? && w.value.end == w.value.start + s.duration
            && (s.start != ZERO ==> w.value.start == s.start)
            && (s.start == ZERO && st.nextAt.None? ==> st.grantedAt == Some(w.value.start))
            && (s.start == ZERO && st.nextAt.Some? ==> st.nextAt == Some(w.value.start))
  {
  }

  /** Where both backward searches succeed, windows only move forward. */
  lemma WindowsMonotone(s: ScheduleSpec, st1: Status, st2: Status, now1: Now, now2: Now)
    requires s.cron.Every? && now1 <= now2
    requires SearchBack(s.cron.cron, now1) != ZERO && SearchBack(s.cron.cron, now2) != ZERO
    requires CurrentWindow(s, st1, now1).Some? && CurrentWindow(s, st2, now2).Some?
    ensures CurrentWindow(s, st1, now1).value.start <= CurrentWindow(s, st2, now2).value.start
    ensures CurrentWindow(s, st1, now1).value.end <= CurrentWindow(s, st2, now2).value.end
  {
    SearchMonotone(s.cron.cron, now1, now2);
  }

  /** Between firings the window stays put, as long as its firing is within the lookback. */
  lemma WindowsStable(s: ScheduleSpec, st1: Status, st2: Status, now1: Now, now2: Now)
    requires s.cron.Every? && now1 <= now2
    requires SearchBack(s.cron.cron, now1) != ZERO
    requires Lookback(s.cron.cron, now2) < SearchBack(s.cron.cron, now1)
    requires forall x: Time | now1 < x <= now2 :: !s.cron.cron.fires(x)
    requires CurrentWindow(s, st1, now1).Some?
    ensures CurrentWindow(s, st2, now2) == CurrentWindow(s, st1, now1)
  {
    var c := s.cron.cron;
    var p := SearchBack(c, now1);
    var latest := LatestFiring(c, Lookback(c, now2), now2);
    assert c.fires(p);
    assert latest == Some(p);
  }

  /**
   * A window that applies now ends no earlier than `f + duration`, for every past firing `f`
   * whatever the lookback: the search and the recorded-activation fallback both stay ahead of it.
   */
  lemma WindowEndsAfterFiring(s: ScheduleSpec, st: Status, now: Now, f: Time)
    requires s.cron.Every? && s.cron.cron.fires(f) && f <= now
    requires CurrentWindow(s, st, now).Some?
    requires SearchBack(s.cron.cron, now) == ZERO ==> st.nextAt.Some? && f <= st.nextAt.value
    ensures f + s.duration <= CurrentWindow(s, st, now).value.end
  {
  }
}
