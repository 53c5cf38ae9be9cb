/** How long a status lasts that a timer brings to an end. */
module LaserTimes {
  import opened LaserStates
  import opened LaserSafety
  import opened LaserDeadMan
  import opened LaserTables

  /** The timer brings status `s` to an end. */
  predicate Of(s: Status, t: Timer)
  {
    match s
    case Warmup => t.WarmupTimer?
    case Pause => t.PauseTimer?
    case Standby => t.StandbyTimer?
    case _ => false
  }

  // ----- how long a timer sleeps -----

  /** Tenths of a second it will sleep, from the next time it wakes up on. */
  function Sleeps(u: Unit, t: Timer): nat
    decreases Left(u, t)
  {
    if Expired(u, t) then 0
    else
      assert Left(u, Ticked(t)) < Left(u, t) by {
        TickLowersLeft(u, t);
      }
      Ticked(t).wait + Sleeps(u, Ticked(t))
  }

  /** Tenths of a second until it has expired, if it is never late. */
  function ToGo(u: Unit, t: Timer): nat { t.wait + Sleeps(u, t) }

  lemma TickLowersLeft(u: Unit, t: Timer)
    requires !Expired(u, t)
    ensures Left(u, Ticked(t)) < Left(u, t)
  {
    if t.PauseTimer? {
      TicksOfASecond(t.ticks);
    }
  }

  lemma {:induction false} RegularSleep(u: Unit, t: Timer)
    requires !t.PauseTimer?
    ensures Sleeps(u, t) == Left(u, t)
    decreases Left(u, t)
  {
    if !Expired(u, t) {
      TickLowersLeft(u, t);
      RegularSleep(u, Ticked(t));
    }
  }

  /** One tick of a pause timer is one tenth less to go, or five where the tick counter wraps. */
  lemma PauseTick(u: Unit, t: Timer)
    requires t.PauseTimer? && !Expired(u, t)
    ensures Ticked(t).PauseTimer? && Ticked(t).wait == 1
    ensures t.ticks < 4294967295 ==> Ticked(t).ticks == t.ticks + 1 && Left(u, Ticked(t)) == Left(u, t) - 1
    ensures t.ticks == 4294967295 ==> Left(u, Ticked(t)) == Left(u, t) - 5
    ensures Expired(u, Ticked(t)) <==> Left(u, Ticked(t)) == 0
  {
    TicksOfASecond(t.ticks);
  }

  /** A second of a pause timer has ten ticks, but for those in which the tick counter wraps: they are shorter. */
  lemma {:induction false} PauseSleep(u: Unit, t: Timer)
    requires t.PauseTimer?
    ensures Sleeps(u, t) <= Left(u, t)
    ensures Sleeps(u, t) == Left(u, t) <==> Expired(u, t) || t.ticks + Left(u, t) < 4294967296
    decreases Left(u, t)
  {
    if !Expired(u, t) {
      TickLowersLeft(u, t);
      PauseTick(u, t);
      PauseSleep(u, Ticked(t));
      NextSleep(u, t, Ticked(t), t.ticks, Left(u, t));
    }
  }

  lemma NextSleep(u: Unit, t: Timer, next: Timer, ticks: nat, left: nat)
    requires t.PauseTimer? && next.PauseTimer? && !Expired(u, t) && next == Ticked(t) && next.wait == 1
    requires ticks == t.ticks && left == Left(u, t)
    ensures Sleeps(u, t) == 1 + Sleeps(u, next)
  {
  }

  // ----- the new timer of a status -----

  /** The timer a status starts with. */
  function Fresh(s: Status): Timer
  {
    match s
    case Pause => PauseTimer(0, 0, 0)
    case Standby => StandbyTimer(0, 0)
    case _ => WarmupTimer(0, 0)
  }

  /** The time the status is set to last, in tenths of a second. */
  function FullTime(u: Unit, s: Status): nat
  {
    match s
    case Warmup => 600 * u.warmupMin
    case Pause => 600 * u.pauseMin
    case Standby => 600 * u.standbyMin
    case _ => 0
  }

  /** The 32-bit arithmetic of the timer can express that time: ticks of half a second in standby, of a tenth in
      pause, and seconds in warmup. */
  predicate TimeFits(u: Unit, s: Status)
  {
    match s
    case Warmup => 60 * u.warmupMin < 4294967296
    case Pause => 600 * u.pauseMin < 4294967296
    case Standby => 120 * u.standbyMin < 4294967296
    case _ => true
  }

  predicate IsArmed(s: Status) { s == Warmup || s == Pause || s == Standby }

  lemma SixtySeconds(minutes: nat)
    ensures minutes * 60 % 4294967296 <= minutes * 60
    ensures minutes * 60 % 4294967296 == minutes * 60 <==> minutes * 60 < 4294967296
  {
  }

  /** A new timer sleeps for the full time exactly when it can express it, and never for longer. */
  lemma FreshTimerSleeps(u: Unit, s: Status)
    requires IsArmed(s)
    ensures Of(s, Fresh(s)) && ToGo(u, Fresh(s)) <= FullTime(u, s)
    ensures ToGo(u, Fresh(s)) == FullTime(u, s) <==> TimeFits(u, s)
  {
    if s == Pause {
      PauseSleep(u, PauseTimer(0, 0, 0));
      SixtySeconds(u.pauseMin);
    } else if s == Standby {
      RegularSleep(u, StandbyTimer(0, 0));
      SixtySeconds(2 * u.standbyMin);
    } else {
      RegularSleep(u, WarmupTimer(0, 0));
      SixtySeconds(u.warmupMin);
    }
  }

  // ----- runs to the natural end of a status -----

  /** No timer runs early, and nobody rewrites the time of a warmup under way. */
  predicate Timely(u: Unit, e: Event)
  {
    && Enabled(u, e)
    && (e.Wake? ==> u.timers[e.i].wait == 0)
    && (e.Do? && e.c.WritingWarmup? ==> u.status != Warmup)
  }

  /** A timer of the status finds that its time is up. */
  predicate TimesOut(u: Unit, e: Event)
  {
    e.Wake? && e.i < |u.timers| && Of(u.status, u.timers[e.i]) && Expired(u, u.timers[e.i])
  }

  /** A run through status `s` to its natural end. */
  predicate RunsOut(s: Status, u: Unit, es: seq<Event>)
    decreases |es|
  {
    && es != [] && u.status == s && Timely(u, es[0])
    && if TimesOut(u, es[0]) then |es| == 1 else RunsOut(s, After(u, es[0]), es[1..])
  }

  /** No timer of status `s` expires within `d` tenths of a second. */
  predicate NoneAhead(u: Unit, s: Status, d: int)
  {
    forall i :: 0 <= i < |u.timers| && Of(s, u.timers[i]) ==> ToGo(u, u.timers[i]) >= d
  }

  predicate SameTimes(u: Unit, v: Unit)
  {
    u.pauseMin == v.pauseMin && u.standbyMin == v.standbyMin && u.warmupMin == v.warmupMin
  }

  lemma {:induction false} SameSleep(u: Unit, v: Unit, t: Timer)
    requires (t.StandbyTimer? ==> u.standbyMin == v.standbyMin) && (t.PauseTimer? ==> u.pauseMin == v.pauseMin)
    requires t.WarmupTimer? ==> u.warmupMin == v.warmupMin
    ensures Sleeps(u, t) == Sleeps(v, t)
    decreases Left(u, t)
  {
    if !Expired(u, t) {
      TickLowersLeft(u, t);
      SameSleep(u, v, Ticked(t));
    }
  }

  predicate SameTimeOf(s: Status, u: Unit, v: Unit)
  {
    match s
    case Warmup => u.warmupMin == v.warmupMin
    case Pause => u.pauseMin == v.pauseMin
    case Standby => u.standbyMin == v.standbyMin
    case _ => true
  }

  lemma SameTimersSameAhead(u: Unit, v: Unit, s: Status, d: int)
    requires SameTimeOf(s, u, v) && forall t :: t in v.timers && Of(s, t) ==> t in u.timers
    requires NoneAhead(u, s, d)
    ensures NoneAhead(v, s, d)
  {
    forall i | 0 <= i < |v.timers| && Of(s, v.timers[i]) ensures ToGo(v, v.timers[i]) >= d {
      assert v.timers[i] in v.timers;
      SameSleep(u, v, v.timers[i]);
    }
  }

  /** A command that does not end the status leaves its timers and its time alone. */
  lemma CommandKeepsTimers(u: Unit, c: Command, link: Link)
    requires PartsOk(u) && IsArmed(u.status) && Apply(u, c, link).status == u.status
    requires c.WritingWarmup? ==> u.status != Warmup
    ensures Apply(u, c, link).timers == u.timers && SameTimeOf(u.status, u, Apply(u, c, link))
  {
    CommandTable(u, c, link);
  }

  lemma WakeKeepsTimers(u: Unit, i: nat, link: Link)
    requires Inv(u) && IsArmed(u.status) && i < |u.timers| && RunTimer(u, i, link).status == u.status
    requires !TimesOut(u, Wake(i, link))
    ensures SameTimes(u, RunTimer(u, i, link))
    ensures RunTimer(u, i, link).timers == Removed(u.timers, i)
         || (!Expired(u, u.timers[i]) && RunTimer(u, i, link).timers == u.timers[i := Ticked(u.timers[i])])
  {
    TimerTable(u, i, link);
    assert Removed(u.timers, i) == u.timers[..i] + u.timers[i + 1..];
    assert Removed(u.timers, i) + [] == Removed(u.timers, i);
  }

  lemma WakeKeepsBack(u: Unit, i: nat, link: Link, d: int)
    requires Inv(u) && IsArmed(u.status) && i < |u.timers| && RunTimer(u, i, link).status == u.status
    requires !TimesOut(u, Wake(i, link)) && u.timers[i].wait == 0 && NoneAhead(u, u.status, d)
    ensures NoneAhead(RunTimer(u, i, link), u.status, d)
  {
    var v := RunTimer(u, i, link);
    WakeKeepsTimers(u, i, link);
    if v.timers == Removed(u.timers, i) {
      SameTimersSameAhead(u, v, u.status, d);
    } else {
      forall j | 0 <= j < |v.timers| && Of(u.status, v.timers[j]) ensures ToGo(v, v.timers[j]) >= d {
        SameSleep(u, v, v.timers[j]);
        assert ToGo(u, u.timers[j]) >= d;
      }
    }
  }

  lemma StepKeepsBack(u: Unit, e: Event, d: int)
    requires Inv(u) && IsArmed(u.status) && Timely(u, e) && !TimesOut(u, e) && After(u, e).status == u.status
    requires NoneAhead(u, u.status, d)
    ensures NoneAhead(After(u, e), u.status, if e == Tenth then d - 1 else d)
  {
    match e
    case Do(c, link) =>
      CommandKeepsTimers(u, c, link);
      SameTimersSameAhead(u, After(u, e), u.status, d);
    case Wake(i, link) =>
      WakeKeepsBack(u, i, link, d);
    case Tenth =>
      forall i | 0 <= i < |u.timers| && Of(u.status, Elapse(u).timers[i])
        ensures ToGo(Elapse(u), Elapse(u).timers[i]) >= d - 1
      {
        assert Elapse(u).timers[i] == Sooner(u.timers[i]);
        assert ToGo(u, u.timers[i]) >= d;
        SameSleep(u, Elapse(u), u.timers[i]);
      }
  }

  /** A status that runs out has lasted as long as the first of its timers had to run. */
  lemma {:induction false} LastsAsLong(s: Status, u: Unit, es: seq<Event>, d: int)
    requires Inv(u) && IsArmed(s) && RunsOut(s, u, es) && NoneAhead(u, s, d)
    ensures Time(es) >= d
    decreases |es|
  {
    if !TimesOut(u, es[0]) {
      EventKeepsInv(u, es[0]);
      StepKeepsBack(u, es[0], d);
      LastsAsLong(s, After(u, es[0]), es[1..], if es[0] == Tenth then d - 1 else d);
    } else {
      assert ToGo(u, u.timers[es[0].i]) == 0;
    }
  }

  lemma TickGoesOn(u: Unit, i: nat, answer: Link, v: Unit)
    requires Inv(u) && IsArmed(u.status) && i < |u.timers| && Of(u.status, u.timers[i]) && u.timers[i].wait == 0
    requires !Expired(u, u.timers[i]) && v == RunTimer(u, i, answer)
    ensures Inv(v) && v.status == u.status && |v.timers| == |u.timers| && Of(v.status, v.timers[i])
    ensures ToGo(v, v.timers[i]) == ToGo(u, u.timers[i]) && Weights(v.timers) < Weights(u.timers)
  {
    var t := u.timers[i];
    RunTimerKeepsInv(u, i, answer);
    WeightsOfReplaced(u.timers, i, Ticked(t));
    SameSleep(u, v, Ticked(t));
  }

  lemma ElapseGoesOn(u: Unit, i: nat, v: Unit)
    requires Inv(u) && i < |u.timers| && u.timers[i].wait > 0 && v == Elapse(u)
    ensures Inv(v) && v.status == u.status && |v.timers| == |u.timers|
    ensures Of(v.status, v.timers[i]) == Of(u.status, u.timers[i])
    ensures ToGo(v, v.timers[i]) == ToGo(u, u.timers[i]) - 1
  {
    ElapseKeepsInv(u);
    assert v.timers[i] == Sooner(u.timers[i]);
    SameSleep(u, v, u.timers[i]);
  }

  lemma OneMoreToRun(u: Unit, e: Event, rest: seq<Event>)
    requires Timely(u, e) && !TimesOut(u, e) && RunsOut(u.status, After(u, e), rest)
    ensures RunsOut(u.status, u, [e] + rest) && Time([e] + rest) == Time(rest) + if e == Tenth then 1 else 0
  {
    assert ([e] + rest)[1..] == rest;
  }

  /** It may run out as early as any of its timers expires. */
  lemma {:induction false} RunsOutWithin(u: Unit, i: nat, d: nat) returns (es: seq<Event>)
    requires Inv(u) && IsArmed(u.status) && i < |u.timers| && Of(u.status, u.timers[i])
    requires ToGo(u, u.timers[i]) <= d
    ensures RunsOut(u.status, u, es) && Time(es) <= d
    decreases d, Weights(u.timers)
  {
    var answer := Link(true, true, true, true);
    if u.timers[i].wait > 0 {
      ElapseGoesOn(u, i, Elapse(u));
      var rest := RunsOutWithin(Elapse(u), i, d - 1);
      OneMoreToRun(u, Tenth, rest);
      es := [Tenth] + rest;
    } else if Expired(u, u.timers[i]) {
      es := [Wake(i, answer)];
    } else {
      var v := RunTimer(u, i, answer);
      TickGoesOn(u, i, answer, v);
      var rest := RunsOutWithin(v, i, d);
      OneMoreToRun(u, Wake(i, answer), rest);
      es := [Wake(i, answer)] + rest;
    }
  }

  lemma RunsOutNoEarlierExactly(u: Unit, d: nat)
    requires Inv(u) && IsArmed(u.status)
    ensures (forall es :: RunsOut(u.status, u, es) ==> Time(es) >= d) <==> NoneAhead(u, u.status, d)
  {
    if NoneAhead(u, u.status, d) {
      forall es | RunsOut(u.status, u, es) ensures Time(es) >= d {
        LastsAsLong(u.status, u, es, d);
      }
    } else {
      var i :| 0 <= i < |u.timers| && Of(u.status, u.timers[i]) && ToGo(u, u.timers[i]) < d;
      var es := RunsOutWithin(u, i, ToGo(u, u.timers[i]));
    }
  }

  // ----- from the beginning of a status -----

  /** Entering the status has started its timer, and no other timer of that kind came or went. */
  ghost predicate Begun(u: Unit, v: Unit)
  {
    && v.timers != [] && v.timers[|v.timers| - 1] == Fresh(v.status) && SameTimes(u, v)
    && (forall t :: Of(v.status, t) ==> (t in u.timers <==> t in v.timers[..|v.timers| - 1]))
  }

  lemma CommandBegins(u: Unit, c: Command, link: Link, v: Unit)
    requires PartsOk(u) && v == Apply(u, c, link) && IsArmed(v.status) && v.status != u.status
    ensures Begun(u, v)
  {
    CommandStartsTimer(u, c, link, v);
    assert v.timers[..|v.timers| - 1] == u.timers;
  }

  /** The status is one that a timer ends, it is new, and its timer has been started. */
  predicate StartsTimer(u: Unit, v: Unit)
  {
    IsArmed(v.status) && v.status != u.status ==> SameTimes(u, v) && v.timers == u.timers + [Fresh(v.status)]
  }

  lemma ShuttersStartTimer(u: Unit, close: bool, link: Link, v: Unit)
    ensures LaserShutterMoved(u, close, link, v) ==> StartsTimer(u, v)
    ensures ExtShutterMoved(u, close, v) ==> StartsTimer(u, v)
  {
  }

  lemma PausesStartTimer(u: Unit, closes: bool, link: Link, v: Unit)
    ensures Paused(u, link, v) ==> StartsTimer(u, v)
    ensures PutToStandby(u, closes, v) ==> StartsTimer(u, v)
    ensures Resumed(u, link, v) ==> StartsTimer(u, v)
  {
  }

  lemma StartsStartTimer(u: Unit, closes: bool, link: Link, v: Unit)
    ensures WasStarted(u, link, v) ==> StartsTimer(u, v)
    ensures Stopped(u, closes, v) ==> StartsTimer(u, v)
    ensures Terminated(u, link, v) ==> StartsTimer(u, v)
  {
  }

  lemma CommandStartsTimer(u: Unit, c: Command, link: Link, v: Unit)
    requires PartsOk(u) && v == Apply(u, c, link)
    ensures StartsTimer(u, v)
  {
    CommandTable(u, c, link);
    PausesStartTimer(u, link.close, link, v);
    StartsStartTimer(u, link.close, link, v);
    match c
    case SwitchingLaser(close) => ShuttersStartTimer(u, close, link, v);
    case ForcingExt(close) => ShuttersStartTimer(u, close, link, v);
    case _ =>
  }

  lemma TimerBegins(u: Unit, i: nat, link: Link, v: Unit)
    requires Inv(u) && i < |u.timers| && v == RunTimer(u, i, link) && IsArmed(v.status) && v.status != u.status
    ensures Begun(u, v)
  {
    TimerTable(u, i, link);
    var others := u.timers[..i] + u.timers[i + 1..];
    assert v.timers == others + [Fresh(v.status)];
    assert u.timers == u.timers[..i] + [u.timers[i]] + u.timers[i + 1..];
  }

  lemma AheadOfNew(u: Unit, v: Unit, d: int)
    requires Begun(u, v) && IsArmed(v.status)
    ensures NoneAhead(v, v.status, d) <==> NoneAhead(u, v.status, d) && ToGo(v, Fresh(v.status)) >= d
  {
    var s, n := v.status, |v.timers| - 1;
    var old' := v.(timers := v.timers[..n]);
    if NoneAhead(u, s, d) {
      SameTimersSameAhead(u, old', s, d);
    }
    if NoneAhead(v, s, d) {
      SameTimersSameAhead(v, old', s, d);
      SameTimersSameAhead(old', u, s, d);
    }
    forall i | 0 <= i < n ensures v.timers[i] == old'.timers[i] && ToGo(v, v.timers[i]) == ToGo(old', v.timers[i]) {
      SameSleep(v, old', v.timers[i]);
    }
  }

  /** However a warmup, a pause or a standby was entered: every run through it to its natural end lasts for the full
      time, exactly when its timer can express that time and no older timer of its kind is ahead. */
  lemma FullTimeExactlyWhenNoneAhead(u: Unit, e: Event)
    requires Inv(u) && Enabled(u, e) && IsArmed(After(u, e).status) && After(u, e).status != u.status
    ensures var v := After(u, e);
            (forall es :: RunsOut(v.status, v, es) ==> Time(es) >= FullTime(v, v.status))
            <==> TimeFits(v, v.status) && NoneAhead(u, v.status, FullTime(v, v.status))
  {
    var v := After(u, e);
    EventKeepsInv(u, e);
    match e {
      case Do(c, link) => CommandBegins(u, c, link, v);
      case Wake(i, link) => TimerBegins(u, i, link, v);
      case Tenth =>
    }
    RunsOutNoEarlierExactly(v, FullTime(v, v.status));
    FreshTimerSleeps(v, v.status);
    AheadOfNew(u, v, FullTime(v, v.status));
  }
}
