/** When access to a recurring window is revoked: exactly, in time, and never. */
module Revocation {
  import opened Options
  import opened Schedules
  import opened Resources
  import opened Windows
  import opened Recurring
  import opened Api
  import opened Rbac
  import opened RbacProofs
  import opened Lifecycle
  import opened Safety
  import opened Theorems
  import opened Timing

  // ----- The window of a grant -----

  /** The latest firing at or before an instant, however long ago; the zero time if there is none. */
  function LastFiring(c: Cron, t: Time): (f: Time)
    ensures f <= t && forall x: Time | f < x <= t :: !c.fires(x)
    ensures f != ZERO ==> c.fires(f)
  {
    match LatestFiring(c, ZERO, t)
    case None => ZERO
    case Some(f) => f
  }

  /** The end of the window that a firing opens, with its beginning clamped to the schedule's start. */
  function EndOf(s: ScheduleSpec, f: Time): Time
    requires s.duration > 0
  {
    (if f < s.start then s.start else f) + s.duration
  }

  /** The schedule does not fire after `g` up to `u`. */
  ghost predicate Quiet(c: Cron, g: Time, u: Time) {
    forall x: Time | g < x <= u :: !c.fires(x)
  }

  lemma QuietUntil(c: Cron, g: Time, limit: Time, u: Time)
    requires Quiet(c, g, limit) && u <= limit
    ensures Quiet(c, g, u)
  {
  }

  /**
   * Until the next firing, the window after a grant is that of the last firing before the grant
   * for as long as the lookback reaches that firing, and none at all once it does not.
   */
  lemma WindowAfterGrant(s: ScheduleSpec, st: Status, g: Time, u: Now)
    requires s.cron.Every? && Perpetual(s.cron.cron) && s.duration > 0
    requires s.start <= g <= u && Quiet(s.cron.cron, g, u)
    requires st.nextAt == Some(CalculateNext(s, s.cron.cron, g))
    ensures var f := LastFiring(s.cron.cron, g);
            CurrentWindow(s, st, u) ==
            if Lookback(s.cron.cron, u) < f then Some(Window(EndOf(s, f) - s.duration, EndOf(s, f))) else None
  {
    var c, f := s.cron.cron, LastFiring(s.cron.cron, g);
    assert NextFiring(c, g) > u;
    var latest := LatestFiring(c, Lookback(c, u), u);
    if Lookback(c, u) < f {
      assert c.fires(f) && latest == Some(f);
      assert NextFiring(c, f) != ZERO;
    }
  }

  /** The last firing's window is over, and the lookback still reaches that firing. */
  predicate PastEnd(s: ScheduleSpec, g: Time, u: Now)
    requires s.cron.Every? && s.duration > 0
  {
    var f := LastFiring(s.cron.cron, g);
    EndOf(s, f) < u && Lookback(s.cron.cron, u) < f
  }

  /**
   * The expiry check fires at `u` if and only if the window has ended and its firing is still in
   * the lookback: once the firing has left it, the check misses the end.
   */
  lemma WindowOverExactly(s: ScheduleSpec, st: Status, g: Time, u: Now)
    requires s.cron.Every? && Perpetual(s.cron.cron) && s.duration > 0
    requires s.start <= g <= u && Quiet(s.cron.cron, g, u)
    requires st.nextAt == Some(CalculateNext(s, s.cron.cron, g))
    ensures WindowOver(s, st, u) <==> PastEnd(s, g, u)
  {
    WindowAfterGrant(s, st, g, u);
  }

  /**
   * In any run, under any faults: until the next firing, a step takes held access away only when
   * the window has ended and its firing is still in the lookback, deletion apart.
   */
  lemma HeldUnlessPastEnd(worlds: seq<World>, steps: seq<Step>, i: nat)
    requires Run(worlds, steps) && i < |steps| && !worlds[i].cluster.stored.deleting
    requires CurrentCondition(worlds[i].cluster.stored.status.conditions) == RecurringActive
    requires var s := worlds[i].cluster.stored.spec.schedule;
             s.cron.Every? && s.duration > 0 && Perpetual(s.cron.cron)
    requires var s, granted := worlds[i].cluster.stored.spec.schedule, worlds[i].cluster.stored.status.grantedAt;
             granted.Some? ==> Quiet(s.cron.cron, granted.value, worlds[i].now) && !PastEnd(s, granted.value, worlds[i].now)
    ensures Access(worlds[i]) <= Access(worlds[i + 1])
  {
    hide Initial, Allowed, Move, Access, WindowOver, ObjectsHold, Perpetual, Quiet, PastEnd, InsideSomeWindow;
    var r := worlds[i].cluster.stored;
    var p := StatusOf(worlds, steps, i);
    assert p == Held;
    WindowOverExactly(r.spec.schedule, r.status, r.status.grantedAt.value, worlds[i].now);
    AccessKeptInWindow(worlds, steps, i);
  }

  // ----- Polls of held access -----

  /** Access granted at `g` to a schedule that always has a next firing, as a reconcile at `u` finds it. */
  ghost predicate HeldSince(c: Cluster, g: Now, u: Now) {
    var s := c.stored.spec.schedule;
    Serving(c, u, Held) && c.stored.status.grantedAt == Some(g) && s.cron.Every? && Perpetual(s.cron.cron)
  }

  lemma HeldFacts(c: Cluster, g: Now, u: Now)
    requires HeldSince(c, g, u)
    ensures var s, st := c.stored.spec.schedule, c.stored.status;
            && s.cron.Every? && s.duration > 0 && s.start <= g <= u
            && st.count == 1 && st.nextAt == Some(CalculateNext(s, s.cron.cron, g))
            && CurrentCondition(st.conditions) == RecurringActive
  {
    PhaseDispatch(c.stored.status, Held);
    hide ObjectsHold;
  }

  /** The delay between two polls: to the window's end while there is a window, else to the next activation if any. */
  function PollDelay(s: ScheduleSpec, g: Now, u: Now): (d: nat)
    requires s.cron.Every? && s.duration > 0
    ensures d >= MIN_REQUEUE
  {
    var c, f := s.cron.cron, LastFiring(s.cron.cron, g);
    if Lookback(c, u) < f then Clamp(EndOf(s, f) - u)
    else if s.maxActivations.Some? && s.maxActivations.value <= 1 then MIN_REQUEUE
    else Clamp(CalculateNext(s, c, g) - u)
  }

  /** The `k`-th poll, the one at `u` being number 0. */
  function PollAt(s: ScheduleSpec, g: Now, u: Now, k: nat): (t: Now)
    requires s.cron.Every? && s.duration > 0
    ensures u <= t
    decreases k
  {
    if k == 0 then u else PollAt(s, g, u + PollDelay(s, g, u), k - 1)
  }

  /** A poll that does not revoke changes nothing. */
  lemma HeldPoll(c: Cluster, g: Now, u: Now)
    requires HeldSince(c, g, u) && Quiet(c.stored.spec.schedule.cron.cron, g, u)
    requires c.stored.spec.schedule.duration > 0 && !PastEnd(c.stored.spec.schedule, g, u)
    ensures Fire(c, u) == (c, Some(PollDelay(c.stored.spec.schedule, g, u)))
    ensures HeldSince(c, g, u + PollDelay(c.stored.spec.schedule, g, u))
  {
    hide HoldsIn, CurrentWindow, Reconcile, Process, Perpetual, Quiet, LastFiring, Lookback, CalculateNext;
    var s, st := c.stored.spec.schedule, c.stored.status;
    HeldFacts(c, g, u);
    ServingDispatches(c, u, Held, NoFaults(c));
    WindowAfterGrant(s, st, g, u);
    HeldIsCounted(c, u);
    HeldMemory(s, st, u);
    HeldNext(s, st, g, u);
    ServingLater(c, u, PollDelay(s, g, u), Held);
  }

  /** What processing in memory leaves of the recorded next activation. */
  lemma HeldNext(s: ScheduleSpec, st: Status, g: Now, u: Now)
    requires s.cron.Every? && Perpetual(s.cron.cron) && s.duration > 0
    requires s.start <= g <= u && Quiet(s.cron.cron, g, u) && st.count == 1
    requires st.nextAt == Some(CalculateNext(s, s.cron.cron, g))
    ensures u < CalculateNext(s, s.cron.cron, g)
    ensures Process(s, st, u).status.nextAt ==
            if s.maxActivations.Some? && s.maxActivations.value <= 1 then None else st.nextAt
  {
    hide InsideFiring, SetCondition;
    assert NextFiring(s.cron.cron, g) > u;
  }

  /** A poll that revokes leaves no labelled object, and a state that never has any again. */
  lemma HeldRevokes(c: Cluster, g: Now, u: Now) returns (q: Phase)
    requires HeldSince(c, g, u) && Quiet(c.stored.spec.schedule.cron.cron, g, u)
    requires c.stored.spec.schedule.duration > 0 && PastEnd(c.stored.spec.schedule, g, u)
    ensures var after := Fire(c, u).0;
            && after.stored.id == c.stored.id && Own(c.stored.id, after.objects) == {}
            && GrantIsOver(q) && HoldsIn(World(after, u), q)
  {
    hide HoldsIn, CurrentWindow, Reconcile, Process, Perpetual, Quiet, LastFiring, Lookback, CalculateNext, Own, PostRevoke;
    HeldFacts(c, g, u);
    WindowOverExactly(c.stored.spec.schedule, c.stored.status, g, u);
    ServingDispatches(c, u, Held, NoFaults(c));
    ErasedIsSwept(c.stored.id, c.objects);
    RevokesAll(c, u);
    NoFaultsPossible(c);
    q := ReconcileKeeps(World(c, u), NoFaults(c), Held);
    ReconcileKeepsIdentity(c, u, NoFaults(c));
  }

  lemma RevokesAll(c: Cluster, u: Now)
    requires CurrentCondition(c.stored.status.conditions) == RecurringActive
    requires WindowOver(c.stored.spec.schedule, c.stored.status, u)
    ensures Dispatch(c, c.stored, u, NoFaults(c)).cluster.objects == Erased(c.stored.id, c.objects)
  {
    hide CurrentWindow, SetCondition;
  }

  /** No grant is made in these phases, nor in any that follow them. */
  predicate GrantIsOver(p: Phase) {
    p == Held || p == GrantAborted || p == RevokeAborted || p == Ended
  }

  /** Once there are no labelled objects and no grant to come, fault-free reconciles make none. */
  lemma {:induction false} StaysRevoked(c: Cluster, u: Now, p: Phase, n: nat)
    requires GrantIsOver(p) && HoldsIn(World(c, u), p) && Own(c.stored.id, c.objects) == {}
    ensures var after := Drive(c, u, n).0;
            after.stored.id == c.stored.id && Own(c.stored.id, after.objects) == {}
    decreases n
  {
    hide HoldsIn, Reconcile, Own;
    if n > 0 {
      NoFaultsPossible(c);
      var q := ReconcileKeeps(World(c, u), NoFaults(c), p);
      ReconcileKeepsIdentity(c, u, NoFaults(c));
      var (after, delay) := Fire(c, u);
      if n > 1 && delay.Some? {
        HoldsLater(after, u, delay.value, q);
        StaysRevoked(after, u + delay.value, q, n - 1);
      }
    }
  }

  lemma HoldsLater(c: Cluster, u: Now, d: nat, p: Phase)
    requires HoldsIn(World(c, u), p)
    ensures HoldsIn(World(c, u + d), p)
  {
    hide Clean, NoDangling, RecordsHold, InPhase, Own;
  }

  lemma {:induction false} DriveGoesOn(c: Cluster, u: Now, n: nat)
    ensures u <= Drive(c, u, n).1
    decreases n
  {
    hide Fire;
    if n > 1 {
      var (after, delay) := Fire(c, u);
      if delay.Some? {
        DriveGoesOn(after, u + delay.value, n - 1);
      }
    }
  }

  /** One of the first `n` polls from `u`, at `t` or before, finds the window over. */
  ghost predicate Caught(s: ScheduleSpec, g: Now, u: Now, n: nat, t: Now)
    requires s.cron.Every? && s.duration > 0
  {
    exists k: nat | k < n :: PollAt(s, g, u, k) <= t && PastEnd(s, g, PollAt(s, g, u, k))
  }

  lemma CaughtLater(s: ScheduleSpec, g: Now, u: Now, n: nat, t: Now)
    requires s.cron.Every? && s.duration > 0 && n > 0 && !PastEnd(s, g, u)
    ensures Caught(s, g, u, n, t) <==> Caught(s, g, u + PollDelay(s, g, u), n - 1, t)
  {
    hide PastEnd, PollDelay;
    var v := u + PollDelay(s, g, u);
    assert PollAt(s, g, u, 0) == u;
    if Caught(s, g, u, n, t) {
      var k: nat :| k < n && PollAt(s, g, u, k) <= t && PastEnd(s, g, PollAt(s, g, u, k));
      assert PollAt(s, g, u, k) == PollAt(s, g, v, k - 1);
    }
    if Caught(s, g, v, n - 1, t) {
      var k: nat :| k < n - 1 && PollAt(s, g, v, k) <= t && PastEnd(s, g, PollAt(s, g, v, k));
      assert PollAt(s, g, v, k) == PollAt(s, g, u, k + 1);
    }
  }

  /**
   * Until the next firing, held access is gone if and only if some poll came after the window's
   * end while the lookback still reached the window's firing.
   */
  lemma {:induction false} HeldRevokedExactly(c: Cluster, g: Now, u: Now, n: nat)
    requires HeldSince(c, g, u) && n > 0 && c.stored.spec.schedule.duration > 0
    requires Quiet(c.stored.spec.schedule.cron.cron, g, Drive(c, u, n).1)
    requires Own(c.stored.id, c.objects) != {}
    ensures var (after, t) := Drive(c, u, n);
            Own(c.stored.id, after.objects) == {} <==> Caught(c.stored.spec.schedule, g, u, n, t)
    decreases n
  {
    hide HeldSince, HoldsIn, Fire, Own, PastEnd, Caught, PollDelay, PollAt, Perpetual, CalculateNext, LastFiring, Quiet;
    var s := c.stored.spec.schedule;
    HeldFacts(c, g, u);
    var (after, t) := Drive(c, u, n);
    DriveGoesOn(c, u, n);
    QuietUntil(s.cron.cron, g, t, u);
    if PastEnd(s, g, u) {
      var q := HeldRevokes(c, g, u);
      CaughtAtOnce(s, g, u, n, t);
      var (next, delay) := Fire(c, u);
      if n > 1 && delay.Some? {
        HoldsLater(next, u, delay.value, q);
        StaysRevoked(next, u + delay.value, q, n - 1);
      }
    } else {
      HeldPoll(c, g, u);
      CaughtLater(s, g, u, n, t);
      if n > 1 {
        HeldRevokedExactly(c, g, u + PollDelay(s, g, u), n - 1);
      } else {
        NeverCaught(s, g, u + PollDelay(s, g, u), t);
      }
    }
  }

  lemma CaughtAtOnce(s: ScheduleSpec, g: Now, u: Now, n: nat, t: Now)
    requires s.cron.Every? && s.duration > 0 && n > 0 && u <= t && PastEnd(s, g, u)
    ensures Caught(s, g, u, n, t)
  {
    hide PastEnd, PollDelay;
    assert PollAt(s, g, u, 0) == u;
  }

  lemma NeverCaught(s: ScheduleSpec, g: Now, u: Now, t: Now)
    requires s.cron.Every? && s.duration > 0
    ensures !Caught(s, g, u, 0, t)
  {
  }

  // ----- A recurring grant, up to 30 seconds past its window -----

  /** A recurring grant is due, of a schedule that always has a next firing. */
  ghost predicate Opens(c: Cluster, now: Now) {
    var s := c.stored.spec.schedule;
    Serving(c, now, Scheduled) && DueNow(c.stored, now) && s.cron.Every? && Perpetual(s.cron.cron) && s.duration > 0
  }

  /** The window calculated at a grant. */
  function GrantWindow(r: Resource, now: Now): Option<Window> {
    CurrentWindow(r.spec.schedule, Process(r.spec.schedule, r.status, now).status, now)
  }

  /** When the granting reconcile asks to be called again. */
  function FirstPoll(r: Resource, now: Now): Now {
    var window := GrantWindow(r, now);
    if window.Some? then now + Clamp(Until(window.value.end, now)) else now
  }

  /** The first poll after the end of the last firing's window. */
  function PollPast(s: ScheduleSpec, g: Now, u: Now): (t: Now)
    requires s.cron.Every? && s.duration > 0
    ensures EndOf(s, LastFiring(s.cron.cron, g)) < t && u <= t
    decreases if u <= EndOf(s, LastFiring(s.cron.cron, g)) then EndOf(s, LastFiring(s.cron.cron, g)) - u + 1 else 0
  {
    if EndOf(s, LastFiring(s.cron.cron, g)) < u then u else PollPast(s, g, u + PollDelay(s, g, u))
  }

  /** A grant falls into the window of its last firing, which is the current one whenever the search finds a firing. */
  lemma OpensInWindow(c: Cluster, now: Now)
    requires Opens(c, now)
    ensures var s := c.stored.spec.schedule;
            var f := LastFiring(s.cron.cron, now);
            && f != ZERO && now <= EndOf(s, f)
            && GrantWindow(c.stored, now).Some?
            && (SearchBack(s.cron.cron, now) != ZERO ==> GrantWindow(c.stored, now).value.end == EndOf(s, f))
            && (Lookback(s.cron.cron, now) < f ==> SearchBack(s.cron.cron, now) != ZERO)
  {
    var s := c.stored.spec.schedule;
    DueInOpenWindow(s, c.stored.status, now);
    var next := Process(s, c.stored.status, now).status.nextAt.value;
    assert s.cron.cron.fires(next);
    hide Process, HoldsIn;
    SearchFindsLast(s.cron.cron, now);
  }

  lemma SearchFindsLast(c: Cron, now: Now)
    requires Perpetual(c)
    ensures SearchBack(c, now) == if Lookback(c, now) < LastFiring(c, now) then LastFiring(c, now) else ZERO
  {
    var f, latest := LastFiring(c, now), LatestFiring(c, Lookback(c, now), now);
    if Lookback(c, now) < f {
      assert c.fires(f) && latest == Some(f);
    }
    assert latest.Some? ==> NextFiring(c, latest.value) != ZERO;
  }

  /** The granting reconcile stores a held, complete grant and asks for its first poll. */
  lemma GrantStarts(c: Cluster, now: Now)
    requires Opens(c, now)
    ensures var (held, delay) := Fire(c, now);
            var u := FirstPoll(c.stored, now);
            && delay.Some? && u == now + delay.value
            && HeldSince(held, now, u)
            && held.stored.spec == c.stored.spec && held.stored.id == c.stored.id
            && Complete(c.stored.id, c.stored.spec, held.objects)
  {
    OpensInWindow(c, now);
    GrantSucceeds(c, now);
    hide Process, Fire, CurrentWindow, HoldsIn, Complete, Perpetual, DueNow, LastFiring, SearchBack;
    var (held, delay) := Fire(c, now);
    ServingLater(held, now, delay.value, Held);
  }

  /** After the first `n` reconciles, the last no later than `limit`, there is no labelled object. */
  ghost predicate RevokedBy(c: Cluster, now: Now, n: nat, limit: Time) {
    n > 0 && var (after, t) := Drive(c, now, n); t <= limit && Own(c.stored.id, after.objects) == {}
  }

  /** No series of reconciles leads to a revoke by then. */
  ghost predicate KeptThrough(c: Cluster, now: Now, limit: Time) {
    forall n: nat :: !RevokedBy(c, now, n, limit)
  }

  /** If the poll past the end still finds the firing, it revokes. */
  lemma {:induction false} RevokedAtPollPast(c: Cluster, g: Now, u: Now) returns (n: nat)
    requires HeldSince(c, g, u) && c.stored.spec.schedule.duration > 0
    requires var s := c.stored.spec.schedule;
             Quiet(s.cron.cron, g, PollPast(s, g, u)) && PastEnd(s, g, PollPast(s, g, u))
    ensures n > 0
    ensures var (after, t) := Drive(c, u, n);
            t == PollPast(c.stored.spec.schedule, g, u) && Own(c.stored.id, after.objects) == {}
    decreases var s := c.stored.spec.schedule; var end := EndOf(s, LastFiring(s.cron.cron, g)); if u <= end then end - u + 1 else 0
  {
    hide HeldSince, HoldsIn, Fire, Own, PollDelay, Lookback, Perpetual, CalculateNext, LastFiring, Quiet;
    var s := c.stored.spec.schedule;
    HeldFacts(c, g, u);
    QuietUntil(s.cron.cron, g, PollPast(s, g, u), u);
    if EndOf(s, LastFiring(s.cron.cron, g)) < u {
      var q := HeldRevokes(c, g, u);
      n := 1;
    } else {
      HeldPoll(c, g, u);
      n := RevokedAtPollPast(c, g, u + PollDelay(s, g, u));
      n := n + 1;
    }
  }

  /** Only one poll can come in the 30 seconds after the end: the first one past it. */
  lemma {:induction false} OnePollPast(s: ScheduleSpec, g: Now, u: Now, k: nat)
    requires s.cron.Every? && s.duration > 0
    requires var end := EndOf(s, LastFiring(s.cron.cron, g)); end < PollAt(s, g, u, k) <= end + MIN_REQUEUE
    ensures PollAt(s, g, u, k) == PollPast(s, g, u)
    decreases k
  {
    if k > 0 {
        if u <= EndOf(s, LastFiring(s.cron.cron, g)) {
        OnePollPast(s, g, u + PollDelay(s, g, u), k - 1);
      }
    }
  }

  /**
   * Access granted in a recurring window that ends more than 30 seconds before the next firing is
   * revoked by then if and only if the first poll past the end comes by then, and finds the
   * window's firing still in the lookback.
   */
  lemma RecurringRevokedExactly(c: Cluster, now: Now)
    requires Opens(c, now) && (c.stored.spec.clusterRoles != [] || c.stored.spec.policy != [])
    requires var s := c.stored.spec.schedule;
             Quiet(s.cron.cron, now, EndOf(s, LastFiring(s.cron.cron, now)) + MIN_REQUEUE)
    ensures var s := c.stored.spec.schedule;
            var f := LastFiring(s.cron.cron, now);
            var limit: Time := EndOf(s, f) + MIN_REQUEUE;
            var poll := PollPast(s, now, FirstPoll(c.stored, now));
            (exists n: nat :: RevokedBy(c, now, n, limit)) <==> poll <= limit && Lookback(s.cron.cron, poll) < f
  {
    hide Opens, HeldSince, Fire, FirstPoll, GrantWindow, Complete, Lookback, LastFiring, Own, Quiet, Drive;
    OpensEvery(c, now);
    var s := c.stored.spec.schedule;
    var limit: Time := EndOf(s, LastFiring(s.cron.cron, now)) + MIN_REQUEUE;
    GrantStarts(c, now);
    var u, held := FirstPoll(c.stored, now), Fire(c, now).0;
    var poll := PollPast(s, now, u);
    if poll <= limit && Lookback(s.cron.cron, poll) < LastFiring(s.cron.cron, now) {
      QuietUntil(s.cron.cron, now, limit, poll);
      var n := RevokedAtPollPast(held, now, u);
      RevokedLater(c, now, held, u, n, limit);
    }
    if n: nat :| RevokedBy(c, now, n, limit) {
      SomethingGranted(c.stored.id, c.stored.spec, held.objects);
      RevokedLater(c, now, held, u, n - 1, limit);
      QuietUntil(s.cron.cron, now, limit, Drive(held, u, n - 1).1);
      HeldRevokedExactly(held, now, u, n - 1);
      CaughtPast(s, now, u, n - 1, Drive(held, u, n - 1).1);
    }
  }

  lemma OpensEvery(c: Cluster, now: Now)
    requires Opens(c, now)
    ensures c.stored.spec.schedule.cron.Every? && c.stored.spec.schedule.duration > 0
  {
  }

  /** The reconciles after the granting one. */
  lemma RevokedLater(c: Cluster, now: Now, held: Cluster, u: Now, n: nat, limit: Time)
    requires now <= u && Fire(c, now) == (held, Some(u - now)) && held.stored.id == c.stored.id
    ensures n == 0 ==> (RevokedBy(c, now, 1, limit) <==> now <= limit && Own(c.stored.id, held.objects) == {})
    ensures n > 0 ==> (RevokedBy(c, now, n + 1, limit) <==>
                         Drive(held, u, n).1 <= limit && Own(c.stored.id, Drive(held, u, n).0.objects) == {})
  {
    hide Fire, Own;
  }

  lemma CaughtPast(s: ScheduleSpec, g: Now, u: Now, n: nat, t: Now)
    requires s.cron.Every? && s.duration > 0
    requires Caught(s, g, u, n, t) && t <= EndOf(s, LastFiring(s.cron.cron, g)) + MIN_REQUEUE
    ensures PollPast(s, g, u) <= t && PastEnd(s, g, PollPast(s, g, u))
  {
    hide LastFiring, Lookback, PollDelay;
    var k: nat :| k < n && PollAt(s, g, u, k) <= t && PastEnd(s, g, PollAt(s, g, u, k));
    OnePollPast(s, g, u, k);
  }

  /** A complete grant of something leaves labelled objects. */
  lemma SomethingGranted(id: Identity, spec: Spec, objects: Objects)
    requires Complete(id, spec, objects) && (spec.clusterRoles != [] || spec.policy != [])
    ensures Own(id, objects) != {}
  {
    var key := if spec.clusterRoles != [] then ClusterRoleItem(id, spec, spec.clusterRoles[0]).key
               else RoleItem(id, spec.policy[0], 0).key;
    assert Wanted(id, spec, key).Some?;
    assert key in Own(id, objects);
  }

  // ----- Windows whose firing stays in the lookback -----

  /** The window of a grant stands: until 30 seconds past its end nothing fires, and the lookback reaches its firing. */
  ghost predicate Stands(s: ScheduleSpec, now: Now)
    requires s.cron.Every? && s.duration > 0
  {
    var c, f := s.cron.cron, LastFiring(s.cron.cron, now);
    && Quiet(c, now, EndOf(s, f) + MIN_REQUEUE)
    && (forall u: Now | now <= u <= EndOf(s, f) + MIN_REQUEUE :: Lookback(c, u) < f)
  }

  /** A window stands if it and 30 seconds, and what the start clamp adds, are shorter than any year back. */
  lemma ShortWindowStands(s: ScheduleSpec, now: Now)
    requires s.cron.Every? && s.duration > 0
    requires var c, f := s.cron.cron, LastFiring(s.cron.cron, now);
             && f != ZERO && Quiet(c, now, EndOf(s, f) + MIN_REQUEUE)
             && forall u: Now :: (if f < s.start then s.start - f else 0) + s.duration + MIN_REQUEUE < c.year(u)
    ensures Stands(s, now)
  {
  }

  lemma StandingEnds(c: Cluster, g: Now, u: Now)
    requires HeldSince(c, g, u) && c.stored.spec.schedule.duration > 0 && Stands(c.stored.spec.schedule, g)
    requires u <= EndOf(c.stored.spec.schedule, LastFiring(c.stored.spec.schedule.cron.cron, g)) + MIN_REQUEUE
    ensures EndsAt(c, u, EndOf(c.stored.spec.schedule, LastFiring(c.stored.spec.schedule.cron.cron, g)))
  {
    hide HeldSince, CurrentWindow, LastFiring, Quiet, Perpetual, CalculateNext, Lookback;
    HeldFacts(c, g, u);
    HeldIsPerpetual(c, g, u);
    var s, st := c.stored.spec.schedule, c.stored.status;
    var end := EndOf(s, LastFiring(s.cron.cron, g));
    forall v: Now | u <= v && (v <= end + MIN_REQUEUE || v == u)
      ensures CurrentWindow(s, st, v).Some? && CurrentWindow(s, st, v).value.end == end
    {
      QuietUntil(s.cron.cron, g, end + MIN_REQUEUE, v);
      WindowAfterGrant(s, st, g, v);
    }
  }

  lemma HeldIsPerpetual(c: Cluster, g: Now, u: Now)
    requires HeldSince(c, g, u)
    ensures c.stored.spec.schedule.cron.Every? && Perpetual(c.stored.spec.schedule.cron.cron)
    ensures Serving(c, u, Held)
  {
  }

  /** The reconciles from a grant to its revoke, the granting one not counted. */
  function RecurringRuns(now: Now, end: Time): nat {
    HeldRuns(end - (now + Clamp(Until(end, now))))
  }

  lemma RecurringRunsBound(now: Now, end: Time)
    requires now <= end
    ensures 0 < RecurringRuns(now, end) <= (end - now) / HOUR + 2
  {
    var left := end - now;
    if left > HOUR {
      HeldRunsBound(left - HOUR);
    } else if left >= MIN_REQUEUE {
      assert HeldRuns(0) == 2;
    }
  }

  /**
   * Access granted at `now` in a recurring window that stands is complete at once, and revoked in
   * the 30 seconds after the window's end, after at most (end - now) div 1h + 2 more fault-free
   * reconciles.
   */
  lemma RecurringRevokedInTime(c: Cluster, now: Now)
    requires Opens(c, now) && Stands(c.stored.spec.schedule, now)
    ensures var s := c.stored.spec.schedule;
            var end := EndOf(s, LastFiring(s.cron.cron, now));
            var runs := RecurringRuns(now, end);
            var (after, t) := Drive(c, now, 1 + runs);
            && GrantWindow(c.stored, now).Some? && GrantWindow(c.stored, now).value.end == end
            && Complete(c.stored.id, c.stored.spec, Drive(c, now, 1).0.objects)
            && now <= end && runs <= (end - now) / HOUR + 2
            && end < t <= end + MIN_REQUEUE
            && Own(c.stored.id, after.objects) == {}
  {
    hide Opens, Fire, HeldSince, GrantWindow, Complete, Own, EndsAt, LastFiring, Lookback, CurrentWindow, Quiet, Process,
      WindowOver, HandleRecurringActive;
    OpensEvery(c, now);
    OpensInWindow(c, now);
    GrantStarts(c, now);
    var s := c.stored.spec.schedule;
    var end := EndOf(s, LastFiring(s.cron.cron, now));
    var held, u := Fire(c, now).0, FirstPoll(c.stored, now);
    assert GrantWindow(c.stored, now).value.end == end;
    assert u == now + Clamp(Until(end, now));
    StandingEnds(held, now, u);
    HeldIsPerpetual(held, now, u);
    RecurringRunsBound(now, end);
    HeldDrive(held, u, end);
    ErasedIsSwept(held.stored.id, held.objects);
    assert Drive(c, now, 1 + RecurringRuns(now, end)) == Drive(held, u, RecurringRuns(now, end));
  }

  // ----- Windows that outlive the lookback -----

  /** As long as nothing fires and no poll can find the window over, access stays. */
  lemma KeptUntil(c: Cluster, now: Now, limit: Time)
    requires Opens(c, now) && (c.stored.spec.clusterRoles != [] || c.stored.spec.policy != [])
    requires Quiet(c.stored.spec.schedule.cron.cron, now, limit)
    requires forall u: Now | now <= u <= limit :: !PastEnd(c.stored.spec.schedule, now, u)
    ensures KeptThrough(c, now, limit)
  {
    hide Opens, HeldSince, Fire, FirstPoll, GrantWindow, Complete, Lookback, LastFiring, Own, Quiet, Drive, PastEnd;
    OpensEvery(c, now);
    var s := c.stored.spec.schedule;
    GrantStarts(c, now);
    var u, held := FirstPoll(c.stored, now), Fire(c, now).0;
    SomethingGranted(c.stored.id, c.stored.spec, held.objects);
    if n: nat :| RevokedBy(c, now, n, limit) {
      RevokedLater(c, now, held, u, n - 1, limit);
      QuietUntil(s.cron.cron, now, limit, Drive(held, u, n - 1).1);
      HeldRevokedExactly(held, now, u, n - 1);
      assert false;
    }
  }

  /** A schedule that fires every 800 days, and a calendar of 365-day years. */
  const EVERY_800_DAYS: Cron := Cron((x: Time) => x % (800 * DAY) == 0, (x: Time) => 800 * DAY, (x: Time) => 365 * DAY)

  lemma Every800DaysIsPerpetual()
    ensures Perpetual(EVERY_800_DAYS)
  {
    forall t: Time
      ensures NextFiring(EVERY_800_DAYS, t) != ZERO
    {
      var x: Time := t - t % (800 * DAY) + 800 * DAY;
      assert EVERY_800_DAYS.fires(x) && t < x <= t + EVERY_800_DAYS.horizon(t);
    }
  }

  /**
   * A 400-day window every 800 days: access granted ten seconds into it is not revoked at its end,
   * nor at any time before the next firing, 400 days late.
   */
  lemma LongWindowIsMissed(c: Cluster, now: Now)
    requires Serving(c, now, Scheduled) && c.stored.status.nextAt.None?
    requires c.stored.spec.clusterRoles != [] || c.stored.spec.policy != []
    requires var s := c.stored.spec.schedule;
             && s.cron == Every(EVERY_800_DAYS) && s.duration == 400 * DAY && s.maxActivations.None?
             && s.start <= now - 10 && now % (800 * DAY) == 10
    ensures Opens(c, now)
    ensures GrantWindow(c.stored, now).Some? && GrantWindow(c.stored, now).value.end == now - 10 + 400 * DAY
    ensures KeptThrough(c, now, now - 10 + 800 * DAY - 1)
  {
    hide HoldsIn, Process, KeptThrough, CurrentWindow;
    var s, limit := c.stored.spec.schedule, now - 10 + 800 * DAY - 1;
    Every800DaysIsPerpetual();
    LastOf800Days(now);
    SearchFindsLast(EVERY_800_DAYS, now);
    FreshlyDueExactly(s, c.stored.status, now);
    OnlyBadFails(s, c.stored.status, now);
    OpensInWindow(c, now);
    KeptUntil(c, now, limit);
  }

  lemma LastOf800Days(now: Now)
    requires now % (800 * DAY) == 10
    ensures LastFiring(EVERY_800_DAYS, now) == now - 10
    ensures Quiet(EVERY_800_DAYS, now, now - 10 + 800 * DAY - 1)
  {
    assert EVERY_800_DAYS.fires(now - 10);
    forall x: Time | now - 10 < x <= now - 10 + 800 * DAY - 1
      ensures !EVERY_800_DAYS.fires(x)
    {
    }
  }

  // ----- Windows that overlap -----

  /** Every window reaches the next firing. */
  ghost predicate Overlapping(s: ScheduleSpec, c: Cron) {
    forall x: Time {:trigger NextFiring(c, x)} | c.fires(x) :: NextFiring(c, x) <= x + s.duration
  }

  /** Firings are never further apart than a year back reaches. */
  ghost predicate FiresYearly(c: Cron) {
    forall x: Time, u: Now {:trigger NextFiring(c, x), c.year(u)} | c.fires(x) :: NextFiring(c, x) <= x + c.year(u)
  }

  /** With overlapping windows no window is ever over, as long as the search finds a firing. */
  lemma OverlapIsNeverOver(s: ScheduleSpec, st: Status, now: Now)
    requires s.cron.Every? && s.duration > 0 && Perpetual(s.cron.cron) && Overlapping(s, s.cron.cron)
    requires SearchBack(s.cron.cron, now) != ZERO
    ensures !WindowOver(s, st, now)
  {
    hide Overlapping, Perpetual, NextFiring;
    ReachesNext(s, s.cron.cron, now);
  }

  lemma ReachesNext(s: ScheduleSpec, c: Cron, now: Now)
    requires Perpetual(c) && Overlapping(s, c) && SearchBack(c, now) != ZERO
    ensures now < SearchBack(c, now) + s.duration
  {
    hide Overlapping;
    var f := SearchBack(c, now);
    assert c.fires(f) && NextFiring(c, f) > now;
    OverlapAt(s, c, f);
  }

  lemma OverlapAt(s: ScheduleSpec, c: Cron, x: Time)
    requires Overlapping(s, c) && c.fires(x)
    ensures NextFiring(c, x) <= x + s.duration
  {
    hide NextFiring;
  }

  /** Where firings are never a year apart, the search finds one as soon as there has been one. */
  lemma YearlyIsFound(c: Cron, now: Now, x: Time)
    requires Perpetual(c) && FiresYearly(c) && c.fires(x) && 0 < x <= now
    ensures SearchBack(c, now) != ZERO
  {
    SearchFindsLast(c, now);
    var f := LastFiring(c, now);
    assert c.fires(f) && NextFiring(c, f) > now;
    assert NextFiring(c, f) <= f + c.year(now);
  }

  /** With overlapping windows no step takes access away while the search finds a firing, deletion apart. */
  lemma OverlapKeepsAccess(worlds: seq<World>, steps: seq<Step>, i: nat)
    requires Run(worlds, steps) && i < |steps| && !worlds[i].cluster.stored.deleting
    requires var s := worlds[i].cluster.stored.spec.schedule;
             && s.cron.Every? && s.duration > 0 && Perpetual(s.cron.cron) && Overlapping(s, s.cron.cron)
             && SearchBack(s.cron.cron, worlds[i].now) != ZERO
    ensures Access(worlds[i]) <= Access(worlds[i + 1])
  {
    hide Initial, Allowed, Move, Access, WindowOver, Perpetual, SearchBack, Overlapping;
    var r := worlds[i].cluster.stored;
    OverlapIsNeverOver(r.spec.schedule, r.status, worlds[i].now);
    AccessKeptInWindow(worlds, steps, i);
  }

  /** Held access follows a firing. */
  lemma HeldAfterFiring(w: World, p: Phase)
    requires HoldsIn(w, p) && p == Held
    requires var s := w.cluster.stored.spec.schedule; s.cron.Every? && s.duration > 0 && Perpetual(s.cron.cron)
    ensures exists x: Time :: w.cluster.stored.spec.schedule.cron.cron.fires(x) && 0 < x <= w.now
  {
    hide ObjectsHold;
    var s, g := w.cluster.stored.spec.schedule, w.cluster.stored.status.grantedAt.value;
    var x: Time :| s.cron.cron.fires(x) && 0 < x <= g <= x + s.duration;
  }

  /**
   * A schedule that fires at least yearly, with windows that reach the next firing, never loses
   * access once it has it: in any run, only a deletion takes it away.
   */
  lemma {:induction false} OverlapIsNeverRevoked(worlds: seq<World>, steps: seq<Step>, i: nat, j: nat)
    requires Run(worlds, steps) && i <= j < |worlds|
    requires var s := worlds[i].cluster.stored.spec.schedule;
             && s.cron.Every? && s.duration > 0 && Perpetual(s.cron.cron)
             && Overlapping(s, s.cron.cron) && FiresYearly(s.cron.cron)
    requires forall k | i <= k < j :: !worlds[k].cluster.stored.deleting
    ensures Access(worlds[i]) <= Access(worlds[j])
    ensures SameFirings(worlds[i], worlds[j])
  {
    hide Initial, Allowed, Move, Access, WindowOver, Perpetual, SearchBack, HoldsIn, Overlapping, FiresYearly;
    if i < j {
      OverlapIsNeverRevoked(worlds, steps, i, j - 1);
      FiringsKept(worlds, steps, j - 1);
      var w := worlds[j - 1];
      var r := w.cluster.stored;
      var p := StatusOf(worlds, steps, j - 1);
      if p == Held {
        HeldAfterFiring(w, p);
        var x: Time :| r.spec.schedule.cron.cron.fires(x) && 0 < x <= w.now;
        YearlyIsFound(r.spec.schedule.cron.cron, w.now, x);
        SameOverlap(worlds[i].cluster.stored.spec.schedule, r.spec.schedule);
        OverlapIsNeverOver(r.spec.schedule, r.status, w.now);
      }
      AccessKeptInWindow(worlds, steps, j - 1);
    }
  }

  lemma SameOverlap(s: ScheduleSpec, t: ScheduleSpec)
    requires s.cron.Every? && s.cron == t.cron && s.duration == t.duration && Overlapping(s, s.cron.cron)
    ensures Overlapping(t, t.cron.cron)
  {
  }

  ghost predicate SameFirings(v: World, w: World) {
    var s, t := v.cluster.stored.spec.schedule, w.cluster.stored.spec.schedule;
    s.cron == t.cron && s.duration == t.duration
  }

  /** Only the start of a schedule is ever written, and only its default. */
  lemma FiringsKept(worlds: seq<World>, steps: seq<Step>, i: nat)
    requires Run(worlds, steps) && i < |steps|
    ensures SameFirings(worlds[i], worlds[i + 1])
  {
    hide Dispatch, Initial, Possible, Clean;
    assert Allowed(worlds[i], steps[i]) && worlds[i + 1] == Move(worlds[i], steps[i]);
    if steps[i].Reconciled? {
      var c, now, ch := worlds[i].cluster, worlds[i].now, steps[i].ch;
      var bg := c.stored.(spec := Defaulted(c.stored.spec, now));
      var f := ReconcileFinalizers(c, bg, ch);
      if f.Go? {
        HandlersKeepFinalizer(f.cluster, bg.(finalizer := f.cluster.stored.finalizer), now, ch);
      }
    }
  }
}
