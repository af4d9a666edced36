/** Instants, cron schedules and the searches over their firings. */
module Schedules {
  import opened Options

  /** Whole seconds since Go's zero time. */
  type Time = nat

  /** Go's zero time: "not set" for a field, "no firing" as a result of `Next`. */
  const ZERO: Time := 0

  const MIN_REQUEUE := 30
  const HOUR := 3600
  const DAY := 24 * HOUR

  /** The age beyond which both backward searches give up. */
  const SEARCH_CAP := 370 * DAY

  /** The largest `time.Duration`: 63 bits of nanoseconds, a little over 292 years. */
  const MAX_DURATION := 9223372036

  type Duration = d: int | -MAX_DURATION <= d <= MAX_DURATION

  /** A clock reading: any instant after year 293, so that no duration reaches it from the zero time. */
  type Now = t: nat | MAX_DURATION < t witness MAX_DURATION + 1

  /** How far `AddDate(-1, 0, 0)` goes back: a year, whatever the calendar and zone make of it. */
  type Year = d: nat | 0 < d < SEARCH_CAP witness 1

  /** How far ahead `Next` looks. The cron library looks years ahead. */
  type Horizon = d: nat | SEARCH_CAP <= d witness SEARCH_CAP

  /** A parsed five-field schedule: its firings, the library's horizon and the calendar's year. */
  datatype Cron = Cron(fires: Time -> bool, horizon: Time -> Horizon, year: Time -> Year)

  /** The first firing among the `n` instants starting at `from`. */
  function FirstFiring(c: Cron, from: Time, n: nat): (r: Time)
    requires 0 < from
    ensures r != ZERO ==> from <= r < from + n && c.fires(r) && forall x: Time | from <= x < r :: !c.fires(x)
    ensures r == ZERO ==> forall x: Time | from <= x < from + n :: !c.fires(x)
    decreases n
  {
    if n == 0 then ZERO
    else if c.fires(from) then from
    else FirstFiring(c, from + 1, n - 1)
  }

  /** `Schedule.Next`: the least firing after `t`, or the zero time if there is none within the horizon. */
  function NextFiring(c: Cron, t: Time): (r: Time)
    ensures r != ZERO ==> t < r && c.fires(r) && forall x: Time | t < x < r :: !c.fires(x)
    ensures r == ZERO ==> forall x: Time | t < x <= t + c.horizon(t) :: !c.fires(x)
  {
    FirstFiring(c, t + 1, c.horizon(t))
  }

  /** The first firing after an instant. */
  ghost predicate FirstAfter(c: Cron, now: Time, next: Time) {
    now < next && c.fires(next) && forall x: Time | now < x < next :: !c.fires(x)
  }

  /** The schedule always has a next firing. */
  ghost predicate Perpetual(c: Cron) {
    forall t: Time :: NextFiring(c, t) != ZERO
  }

  /** Reference definition: the greatest firing in (lo, hi], if any. */
  function LatestFiring(c: Cron, lo: Time, hi: Time): (r: Option<Time>)
    ensures r.Some? ==> lo < r.value <= hi && c.fires(r.value) && forall x: Time | r.value < x <= hi :: !c.fires(x)
    ensures r.None? ==> forall x: Time | lo < x <= hi :: !c.fires(x)
    decreases hi
  {
    if hi <= lo then None
    else if c.fires(hi) then Some(hi)
    else LatestFiring(c, lo, hi - 1)
  }

  /** Where a backward search starts. */
  function Lookback(c: Cron, now: Now): Time {
    now - c.year(now)
  }

  /**
   * What both backward searches find: the latest firing of the past year, unless the
   * schedule ends there, in which case the zero time that `Next` returns overwrites it.
   */
  function SearchBack(c: Cron, now: Now): Time {
    match LatestFiring(c, Lookback(c, now), now)
    case None => ZERO
    case Some(p) => if NextFiring(c, p) == ZERO then ZERO else p
  }

  /** The search as the recurring manager runs it. */
  method FindPrevActivation(c: Cron, now: Now) returns (r: Option<Time>)
    ensures (if r.None? then ZERO else r.value) == SearchBack(c, now)
    ensures r.None? ==> LatestFiring(c, Lookback(c, now), now).None?
    ensures r == Some(ZERO) <==>
            NextFiring(c, match LatestFiring(c, Lookback(c, now), now) case Some(p) => p case None => Lookback(c, now)) == ZERO
  {
    var lookback := Lookback(c, now);
    var prev := lookback;
    var t := NextFiring(c, lookback);
    ghost var seen := lookback;
    while t <= now
      invariant lookback <= seen <= now && t == NextFiring(c, seen)
      invariant prev == seen
      invariant seen == lookback || c.fires(seen)
      decreases if t == ZERO then 0 else now - t + 1
    {
      prev := t;
      if now - prev > SEARCH_CAP {
        break;
      }
      t := NextFiring(c, t);
      seen := prev;
    }
    if prev == lookback {
      return None;
    }
    return Some(prev);
  }

  /** The search as the window calculation runs it: the zero time stands for "none". */
  method FindPreviousActivation(c: Cron, now: Now) returns (r: Time)
    ensures r == SearchBack(c, now)
  {
    var lookback := Lookback(c, now);
    var prev := lookback;
    var t := NextFiring(c, lookback);
    ghost var seen := lookback;
    while t <= now
      invariant lookback <= seen <= now && t == NextFiring(c, seen)
      invariant prev == seen
      invariant seen == lookback || c.fires(seen)
      decreases if t == ZERO then 0 else now - t + 1
    {
      prev := t;
      if now - prev > SEARCH_CAP {
        break;
      }
      t := NextFiring(c, t);
      seen := prev;
    }
    if prev == lookback {
      return ZERO;
    }
    return prev;
  }

  /**
   * A search meets its promise exactly when the schedule does not end at the firing it should
   * return; a schedule whose only firing is a second old shows that it can fail.
   */
  lemma SearchFindsLatest(c: Cron, now: Now)
    ensures var latest := LatestFiring(c, Lookback(c, now), now);
            SearchBack(c, now) == (if latest.None? then ZERO else latest.value)
            <==> (latest.Some? ==> NextFiring(c, latest.value) != ZERO)
    ensures exists once: Cron, t: Now ::
              LatestFiring(once, Lookback(once, t), t) == Some(t - 1) && SearchBack(once, t) == ZERO
  {
    var last: Time := MAX_DURATION;
    var t: Now := MAX_DURATION + 1;
    var once := Cron((x: Time) => x == last, (x: Time) => SEARCH_CAP, (x: Time) => 365 * DAY);
    assert once.fires(last);
    assert LatestFiring(once, Lookback(once, t), t) == Some(t - 1);
  }

  /** Going forward in time, a successful search never finds an earlier firing, whatever year lengths apply. */
  lemma SearchMonotone(c: Cron, now1: Now, now2: Now)
    requires now1 <= now2 && SearchBack(c, now1) != ZERO && SearchBack(c, now2) != ZERO
    ensures SearchBack(c, now1) <= SearchBack(c, now2)
  {
    var p1, p2 := SearchBack(c, now1), SearchBack(c, now2);
    assert c.fires(p1);
  }
}
