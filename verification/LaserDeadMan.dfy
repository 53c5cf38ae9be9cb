/** The dead-man bound: left alone, a unit that fires without lasing stops in bounded time. */
module LaserDeadMan {
  import opened LaserStates
  import opened LaserSafety

  /** Ticks still to come, each of one period. */
  function Left(u: Unit, t: Timer): nat
  {
    match t
    case StandbyTimer(ticks, _) => if ticks < u.StandbyLimit() then STANDBY_PERIOD * (u.StandbyLimit() - ticks) else 0
    case PauseTimer(ticks, secs, _) => if secs < u.PauseLimit() then 10 * (u.PauseLimit() - secs) - ticks % 10 else 0
    case WarmupTimer(secs, _) => if secs < u.WarmupLimit() then WARMUP_PERIOD * (u.WarmupLimit() - secs) else 0
  }

  /** An upper bound on the tenths of a second until the timer expires. */
  function Remaining(u: Unit, t: Timer): nat { t.wait + Left(u, t) }

  function StandbySpan(u: Unit): nat { STANDBY_PERIOD * u.StandbyLimit() }

  /** A status that a timer brings to an end. */
  predicate Armed(u: Unit) { u.status == Warmup || u.status == Pause || u.status == Standby }

  /** Timer `t` is the one that ends the status, and it leads to a stop within `d` tenths of a second. */
  predicate Ends(u: Unit, t: Timer, d: nat)
  {
    match u.status
    case Warmup => t.WarmupTimer? && Remaining(u, t) + StandbySpan(u) <= d
    case Pause => t.PauseTimer? && Remaining(u, t) + StandbySpan(u) <= d
    case Standby => t.StandbyTimer? && Remaining(u, t) <= d
    case _ => false
  }

  predicate Due(u: Unit, d: nat)
  {
    exists i :: 0 <= i < |u.timers| && Ends(u, u.timers[i], d)
  }

  predicate AllAsleep(u: Unit) { forall i :: 0 <= i < |u.timers| ==> u.timers[i].wait > 0 }

  /** Timers run when they are due, and time waits for them; nobody gives a command. */
  predicate Prompt(u: Unit, e: Event)
  {
    match e
    case Do(_, _) => false
    case Wake(i, _) => i < |u.timers| && u.timers[i].wait == 0
    case Tenth => AllAsleep(u)
  }

  lemma TickKeepsRemaining(u: Unit, t: Timer)
    requires t.wait == 0 && !Expired(u, t)
    ensures Remaining(u, Ticked(t)) <= Remaining(u, t)
  {
    if t.PauseTimer? {
      TicksOfASecond(t.ticks);
    }
  }

  /** Ten ticks make a second, or fewer where the counter wraps. */
  lemma TicksOfASecond(ticks: Word)
    ensures var n := (ticks + 1) % WORD; if n % 10 == 0 then true else n % 10 == ticks % 10 + 1
  {
  }

  lemma EnteringStandbyIsDue(u: Unit, d: nat)
    requires u.status != Standby && StandbySpan(u) <= d
    ensures Due(Enter(u, Standby), d)
  {
    var v := Enter(u, Standby);
    assert v.timers[|u.timers|] == StandbyTimer(0, 0);
    assert Ends(v, v.timers[|u.timers|], d);
  }

  lemma DueWithout(u: Unit, i: nat, d: nat)
    requires Due(u, d) && i < |u.timers| && !Ends(u, u.timers[i], d)
    ensures Due(u.(timers := Removed(u.timers, i)), d)
  {
    var j :| 0 <= j < |u.timers| && Ends(u, u.timers[j], d);
    RemovedKeepsOthers(u.timers, i, j);
    var k :| 0 <= k < |u.timers| - 1 && Removed(u.timers, i)[k] == u.timers[j];
    var v := u.(timers := Removed(u.timers, i));
    assert Ends(v, v.timers[k], d);
  }

  lemma TickKeepsDue(u: Unit, i: nat, d: nat)
    requires Due(u, d) && i < |u.timers| && u.timers[i].wait == 0 && !Expired(u, u.timers[i])
    ensures Due(u.(timers := u.timers[i := Ticked(u.timers[i])]), d)
  {
    var j :| 0 <= j < |u.timers| && Ends(u, u.timers[j], d);
    var v := u.(timers := u.timers[i := Ticked(u.timers[i])]);
    TickKeepsRemaining(u, u.timers[i]);
    assert Ends(v, v.timers[j], d);
  }

  /** A timer that gives up did not end the status, or was not the one counted on. */
  lemma CancelledEndsNothing(u: Unit, t: Timer, d: nat)
    requires Inv(u) && Cancelled(u, t)
    ensures !Ends(u, t, d)
  {
  }

  lemma ExpiryKeepsDue(u: Unit, i: nat, link: Link, d: nat)
    requires Inv(u) && Armed(u) && Due(u, d) && i < |u.timers| && u.timers[i].wait == 0 && Expired(u, u.timers[i])
    ensures var v := RunTimer(u, i, link); v.status == Ready || (Armed(v) && Due(v, d))
  {
    var t, v := u.timers[i], u.(timers := Removed(u.timers, i));
    var j :| 0 <= j < |u.timers| && Ends(u, u.timers[j], d);
    if t.WarmupTimer? && u.status == Warmup {
      EnteringStandbyIsDue(v, d);
    } else if t.PauseTimer? && u.status == Pause {
      EnteringStandbyIsDue(CloseLaser(v.(qswitch := false), link.close).(extClosed := true), d);
    } else if !t.StandbyTimer? {
      DueWithout(u, i, d);
    }
  }

  lemma ElapseBringsNearer(u: Unit, d: nat)
    requires Due(u, d) && AllAsleep(u)
    ensures d >= 1 && Due(Elapse(u), d - 1)
  {
    var j :| 0 <= j < |u.timers| && Ends(u, u.timers[j], d);
    var v := Elapse(u);
    assert v.timers[j] == Sooner(u.timers[j]);
    assert Ends(v, v.timers[j], d - 1);
  }

  /** One step without a command: the unit is stopped, or the end is as near as before and a tenth of a
      second nearer if time passed. */
  lemma DeadManStep(u: Unit, e: Event, d: nat)
    requires Inv(u) && Armed(u) && Due(u, d) && Prompt(u, e)
    ensures Enabled(u, e)
    ensures e == Tenth ==> d >= 1
    ensures var v := After(u, e);
            v.status == Ready || (Armed(v) && Due(v, if e == Tenth then d - 1 else d))
  {
    match e
    case Do(_, _) =>
    case Wake(i, link) =>
      if Expired(u, u.timers[i]) {
        ExpiryKeepsDue(u, i, link, d);
      } else if Cancelled(u, u.timers[i]) {
        CancelledEndsNothing(u, u.timers[i], d);
        DueWithout(u, i, d);
      } else {
        TickKeepsDue(u, i, d);
      }
    case Tenth => ElapseBringsNearer(u, d);
  }

  /** A run without commands, the timers prompt. */
  predicate LeftAlone(u: Unit, es: seq<Event>)
    decreases |es|
  {
    es != [] ==> Prompt(u, es[0]) && Enabled(u, es[0]) && LeftAlone(After(u, es[0]), es[1..])
  }

  lemma LeftAloneIsPossible(u: Unit, es: seq<Event>)
    requires LeftAlone(u, es)
    ensures Possible(u, es)
    decreases |es|
  {
    if es != [] {
      LeftAloneIsPossible(After(u, es[0]), es[1..]);
    }
  }

  /** Tenths of a second that pass. */
  function Time(es: seq<Event>): nat
  {
    if es == [] then 0 else (if es[0] == Tenth then 1 else 0) + Time(es[1..])
  }

  /** The unit is ready, the laser not firing, at some moment of the run before `d` tenths have passed. */
  predicate StopsWithin(u: Unit, es: seq<Event>, d: int)
    requires Possible(u, es)
    decreases |es|
  {
    d >= 0
    && ((u.status == Ready && !u.fire)
        || (es != [] && StopsWithin(After(u, es[0]), es[1..], if es[0] == Tenth then d - 1 else d)))
  }

  /** A unit left alone longer than its timers have to run has stopped in the meantime. */
  lemma {:induction false} DeadMan(u: Unit, es: seq<Event>, d: nat)
    requires Inv(u) && Armed(u) && Due(u, d) && LeftAlone(u, es) && Time(es) > d
    ensures Possible(u, es) && StopsWithin(u, es, d)
    decreases |es|
  {
    LeftAloneIsPossible(u, es);
    DeadManStep(u, es[0], d);
    var v, rest, left := After(u, es[0]), es[1..], if es[0] == Tenth then d - 1 else d;
    EventKeepsInv(u, es[0]);
    if v.status == Ready {
      assert StopsWithin(v, rest, left);
    } else {
      DeadMan(v, rest, left);
    }
  }

  // ----- time is never stuck -----

  function Weight(t: Timer): nat
  {
    if t.wait > 0 then 0 else if t.StandbyTimer? then 1 else 2
  }

  function Weights(ts: seq<Timer>): nat
  {
    if ts == [] then 0 else Weights(ts[..|ts| - 1]) + Weight(ts[|ts| - 1])
  }

  lemma {:induction false} WeightsOfReplaced(ts: seq<Timer>, i: nat, t: Timer)
    requires i < |ts|
    ensures Weights(ts[i := t]) == Weights(ts) - Weight(ts[i]) + Weight(t)
  {
    var n := |ts| - 1;
    if i < n {
      WeightsOfReplaced(ts[..n], i, t);
      assert ts[i := t][..n] == ts[..n][i := t];
    } else {
      assert ts[i := t][..n] == ts[..n];
    }
  }

  lemma {:induction false} WeightsOfRemoved(ts: seq<Timer>, i: nat)
    requires i < |ts|
    ensures Weights(Removed(ts, i)) == Weights(ts) - Weight(ts[i])
  {
    var n, r := |ts| - 1, Removed(ts, i);
    if i < n {
      WeightsOfRemoved(ts[..n], i);
      assert r[..n - 1] == Removed(ts[..n], i) && r[n - 1] == ts[n];
    } else {
      assert r == ts[..n];
    }
  }

  lemma WeightsOfEntered(u: Unit, s: Status)
    ensures Weights(Enter(u, s).timers) <= Weights(u.timers) + 2
    ensures s == Standby || s == Ready ==> Weights(Enter(u, s).timers) <= Weights(u.timers) + 1
  {
    var ts := Enter(u, s).timers;
    assert ts == u.timers || ts[..|u.timers|] == u.timers;
  }

  /** Only finitely many timers run before the next tenth of a second passes. */
  lemma WakingWearsOff(u: Unit, i: nat, link: Link)
    requires Inv(u) && Armed(u) && i < |u.timers| && u.timers[i].wait == 0
    ensures RunTimer(u, i, link).status == Ready || Weights(RunTimer(u, i, link).timers) < Weights(u.timers)
  {
    var t, v := u.timers[i], u.(timers := Removed(u.timers, i));
    WeightsOfRemoved(u.timers, i);
    if !Expired(u, t) {
      WeightsOfReplaced(u.timers, i, Ticked(t));
    } else if t.PauseTimer? {
      WeightsOfEntered(CloseLaser(v.(qswitch := false), link.close).(extClosed := true), Standby);
    } else {
      WeightsOfEntered(v, Standby);
    }
  }

  // ----- the bound in terms of the timeouts -----

  function Max(a: nat, b: nat): nat { if a < b then b else a }

  /** Warmup or pause time plus standby time, in tenths of a second, with the 32-bit arithmetic of the timers. */
  function Bound(u: Unit): nat
  {
    match u.status
    case Warmup => Max(10, 10 * (60 * u.warmupMin % 4294967296)) + 5 * (120 * u.standbyMin % 4294967296)
    case Pause => Max(1, 10 * (60 * u.pauseMin % 4294967296)) + 5 * (120 * u.standbyMin % 4294967296)
    case _ => Max(5, 5 * (120 * u.standbyMin % 4294967296))
  }

  /** The same without that arithmetic: 600 tenths of a second a minute. */
  function TimeAllowed(u: Unit): nat
  {
    match u.status
    case Warmup => Max(10, 600 * u.warmupMin) + 600 * u.standbyMin
    case Pause => Max(1, 600 * u.pauseMin) + 600 * u.standbyMin
    case _ => Max(5, 600 * u.standbyMin)
  }

  lemma WrappedTimesAreShorter(minutes: nat)
    ensures 60 * minutes % 4294967296 <= 60 * minutes && 120 * minutes % 4294967296 <= 120 * minutes
  {
  }

  lemma ArmedIsDue(u: Unit)
    requires Inv(u) && Armed(u)
    ensures Due(u, Bound(u))
  {
    match u.status
    case Warmup =>
      var i :| 0 <= i < |u.timers| && u.timers[i].WarmupTimer?;
      assert SleepOk(u.timers[i]) && Ends(u, u.timers[i], Bound(u));
    case Pause =>
      var i :| 0 <= i < |u.timers| && u.timers[i].PauseTimer?;
      assert SleepOk(u.timers[i]) && Ends(u, u.timers[i], Bound(u));
    case Standby =>
      var i :| 0 <= i < |u.timers| && u.timers[i].StandbyTimer?;
      assert SleepOk(u.timers[i]) && Ends(u, u.timers[i], Bound(u));
    case _ =>
  }

  /** After any run whatsoever: a unit that fires without lasing and is then left alone has stopped
      within the warmup or pause time and the standby time, even if every serial call fails. */
  lemma FiringUnattendedStops(past: seq<Event>, es: seq<Event>)
    requires Possible(INITIAL, past)
    requires var u := Final(INITIAL, past);
             u.fire && u.status != Lasing && LeftAlone(u, es) && Time(es) > Bound(u)
    ensures var u := Final(INITIAL, past); Possible(u, es) && StopsWithin(u, es, Bound(u))
  {
    RunKeepsInv(INITIAL, past);
    var u := Final(INITIAL, past);
    ArmedIsDue(u);
    DeadMan(u, es, Bound(u));
  }

  lemma DueLater(u: Unit, d: nat, later: nat)
    requires Due(u, d) && d <= later
    ensures Due(u, later)
  {
    var i :| 0 <= i < |u.timers| && Ends(u, u.timers[i], d);
    assert Ends(u, u.timers[i], later);
  }

  /** In minutes, whatever the timeouts are: none of them can make it any longer than they say. */
  lemma FiringUnattendedStopsInTime(past: seq<Event>, es: seq<Event>)
    requires Possible(INITIAL, past)
    requires var u := Final(INITIAL, past);
             u.fire && u.status != Lasing && LeftAlone(u, es) && Time(es) > TimeAllowed(u)
    ensures var u := Final(INITIAL, past); Possible(u, es) && StopsWithin(u, es, TimeAllowed(u))
  {
    RunKeepsInv(INITIAL, past);
    var u := Final(INITIAL, past);
    ArmedIsDue(u);
    WrappedTimesAreShorter(u.standbyMin);
    WrappedTimesAreShorter(u.pauseMin);
    WrappedTimesAreShorter(u.warmupMin);
    DueLater(u, Bound(u), TimeAllowed(u));
    DeadMan(u, es, TimeAllowed(u));
  }
}
