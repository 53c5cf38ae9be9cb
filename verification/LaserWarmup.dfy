/** Warmup: which commands keep to it, and when it lasts as long as it is set to. */
module LaserWarmup {
  import opened LaserStates
  import opened LaserSafety
  import opened LaserDeadMan
  import opened LaserTimes

  // ----- no lasing before the warmup is over -----

  /** The commands that respect the warmup: all but those that move one shutter by hand. */
  predicate Respectful(e: Event)
  {
    e.Do? ==> !e.c.SwitchingLaser? && !e.c.ForcingExt?
  }

  predicate Expires(u: Unit, e: Event)
  {
    e.Wake? && e.i < |u.timers| && u.timers[e.i].WarmupTimer? && Expired(u, u.timers[e.i])
  }

  /** Since the laser was last started, a warmup timer has run to its end. */
  function WarmedBy(warmed: bool, u: Unit, e: Event): bool
    requires Enabled(u, e)
  {
    if u.status == Ready && After(u, e).status == Warmup then false
    else if u.status == Warmup && Expires(u, e) then true
    else
      warmed
  }

  function WarmedAfter(warmed: bool, u: Unit, es: seq<Event>): bool
    requires Possible(u, es)
    decreases |es|
  {
    if es == [] then warmed else WarmedAfter(WarmedBy(warmed, u, es[0]), After(u, es[0]), es[1..])
  }

  predicate FiresOnlyWarm(warmed: bool, u: Unit) { u.fire ==> u.status == Warmup || warmed }

  /** The commands that end a warmup. The last two do not even stop the laser. */
  predicate EndsWarmup(c: Command) { c.Stopping? || c.Terminating? || c.SwitchingLaser? || c == ForcingExt(false) }

  /** Any other command, `pause`, `standby` and `resume` among them, does nothing at all, except that
      the warmup time may be rewritten. */
  lemma LeavingWarmup(u: Unit, c: Command, link: Link)
    requires Inv(u) && u.status == Warmup
    ensures EndsWarmup(c) ==> Apply(u, c, link).status != Warmup
    ensures !EndsWarmup(c) ==> Apply(u, c, link) == if c.WritingWarmup? then u.(warmupMin := c.minutes) else u
    ensures c.Stopping? || c.Terminating? ==> !Apply(u, c, link).fire
  {
  }

  lemma HandsStartNoFire(u: Unit, closes: bool, close: bool)
    ensures StandBy(u, closes).fire == u.fire && ForceExtShutter(u, close).fire == u.fire
  {
  }

  lemma StopStartsNoFire(u: Unit, closes: bool)
    ensures Stop(u, closes).fire ==> u.fire
  {
    if u.mapped {
      HandsStartNoFire(CloseLaser(ForceExtShutter(u, true).(qswitch := false, fire := false), closes), closes, false);
    }
  }

  lemma ResumeStartsNoFire(u: Unit, link: Link)
    ensures Resume(u, link).fire == u.fire
  {
    HandsStartNoFire(u, link.close, true);
  }

  lemma StartStartsFireInWarmup(u: Unit, link: Link)
    ensures StartCib(u, link).fire ==> u.fire || StartCib(u, link).status == Warmup
  {
    StopStartsNoFire(CloseLaser(u.(qswitch := false), true), link.closeAgain);
  }

  lemma ConfigStartsNoFire(u: Unit, outcome: Outcome, p: nat, s: nat, w: nat, link: Link)
    ensures Config(u, outcome, p, s, w, link).fire ==> u.fire
    ensures Terminate(u, link).fire ==> u.fire
  {
  }

  /** Only start_cib makes the laser fire, and it enters the warmup. */
  lemma FireIsStarted(u: Unit, c: Command, link: Link)
    ensures Apply(u, c, link).fire ==> u.fire || Apply(u, c, link).status == Warmup
  {
    match c
    case Configure(outcome, p, s, w) => ConfigStartsNoFire(u, outcome, p, s, w, link);
    case Terminating => ConfigStartsNoFire(u, Rejected, 0, 0, 0, link);
    case Stopping => StopStartsNoFire(u, link.close);
    case Starting => StartStartsFireInWarmup(u, link);
    case Pausing =>
    case StandingBy => HandsStartNoFire(u, link.close, true);
    case Resuming => ResumeStartsNoFire(u, link);
    case Shooting =>
      ResumeStartsNoFire(u, link);
      HandsStartNoFire(Resume(u, link), link.closeAgain, true);
    case SwitchingLaser(close) =>
    case ForcingExt(close) => HandsStartNoFire(u, true, close);
    case WritingWarmup(w) =>
  }

  lemma ExpiryStartsNoFire(u: Unit, v: Unit, i: nat, link: Link)
    requires i < |u.timers| && Expired(u, u.timers[i]) && v == u.(timers := Removed(u.timers, i))
    requires RunTimer(u, i, link).fire
    ensures u.fire
    ensures u.status != Warmup || RunTimer(u, i, link).status == Warmup || !u.mapped || Expires(u, Wake(i, link))
  {
    match u.timers[i]
    case StandbyTimer(_, _) =>
      StopStartsNoFire(v, link.close);
      if v.mapped {
        var dark := ForceExtShutter(v, true).(qswitch := false, fire := false);
        HandsStartNoFire(CloseLaser(dark, link.close), true, false);
      }
    case PauseTimer(_, _, _) => HandsStartNoFire(v, link.close, true);
    case WarmupTimer(_, _) =>
  }

  lemma TimersStartNoFire(u: Unit, i: nat, link: Link)
    requires i < |u.timers| && RunTimer(u, i, link).fire
    ensures u.fire
    ensures u.status != Warmup || RunTimer(u, i, link).status == Warmup || !u.mapped || Expires(u, Wake(i, link))
  {
    if Expired(u, u.timers[i]) {
      ExpiryStartsNoFire(u, u.(timers := Removed(u.timers, i)), i, link);
    }
  }

  lemma RespectfulKeepsWarm(warmed: bool, u: Unit, e: Event)
    requires Inv(u) && Enabled(u, e) && Respectful(e) && FiresOnlyWarm(warmed, u)
    ensures FiresOnlyWarm(WarmedBy(warmed, u, e), After(u, e))
  {
    if After(u, e).fire {
      match e
      case Do(c, link) =>
        FireIsStarted(u, c, link);
        if u.status == Warmup {
          LeavingWarmup(u, c, link);
        }
      case Wake(i, link) => TimersStartNoFire(u, i, link);
      case Tenth =>
    }
  }

  lemma {:induction false} RespectfulRunsStayWarm(warmed: bool, u: Unit, es: seq<Event>)
    requires Inv(u) && Possible(u, es) && FiresOnlyWarm(warmed, u)
    requires forall k :: 0 <= k < |es| ==> Respectful(es[k])
    ensures FiresOnlyWarm(WarmedAfter(warmed, u, es), Final(u, es))
    decreases |es|
  {
    if es != [] {
      RespectfulKeepsWarm(warmed, u, es[0]);
      EventKeepsInv(u, es[0]);
      RespectfulRunsStayWarm(WarmedBy(warmed, u, es[0]), After(u, es[0]), es[1..]);
    }
  }

  /** Without commands that move one shutter by hand, nothing lases before a warmup timer has run out. */
  lemma NoLasingBeforeWarmup(es: seq<Event>)
    requires Possible(INITIAL, es) && forall k :: 0 <= k < |es| ==> Respectful(es[k])
    ensures Final(INITIAL, es).status == Lasing ==> WarmedAfter(false, INITIAL, es)
  {
    RespectfulRunsStayWarm(false, INITIAL, es);
    RunKeepsInv(INITIAL, es);
  }

  /** Opening the external shutter by hand and resuming lases in the middle of a warmup. */
  lemma WarmupCanBeSkipped(u: Unit, link: Link)
    requires Inv(u) && u.status == Warmup && link.open
    ensures Resume(ForceExtShutter(u, false), link).status == Lasing
  {
  }

  // ----- how long a warmup lasts -----

  /** Rewriting the time during a warmup is not inconsequential: once a timer has counted more than the
      new time, its next round ends the warmup. */
  lemma RewrittenTimeEndsWarmup(u: Unit, minutes: nat, i: nat, link: Link)
    requires Inv(u) && u.status == Warmup && i < |u.timers| && u.timers[i].WarmupTimer?
    ensures var v := WriteWarmup(u, minutes);
            RunTimer(v, i, link).status == Standby <==> u.timers[i].secs >= minutes * 60 % WORD
  {
  }

  /** After start_cib every warmup that runs out lasts for the full time, exactly when 32 bits can express it in
      seconds and no timer of an earlier warmup is still alive and ahead, whatever other timers are alive. */
  lemma FullWarmupExactlyWhenNoneAhead(u: Unit, link: Link)
    requires Inv(u) && MayStart(u) && link.close && link.start
    ensures (forall es :: RunsOut(Warmup, StartCib(u, link), es) ==> Time(es) >= 600 * u.warmupMin)
       <==> 60 * u.warmupMin < 4294967296 && NoneAhead(u, Warmup, 600 * u.warmupMin)
  {
    FullTimeExactlyWhenNoneAhead(u, Do(Starting, link));
  }

  /** A pause of more than 7158278 minutes is shorter than configured: its timer counts tenths of a second in 32
      bits, and a second in which the count wraps has six of them. */
  lemma LongPauseIsShort(u: Unit, link: Link)
    requires Inv(u) && u.laser && (u.status == Standby || u.status == Lasing) && u.fire && link.open
    requires u.pauseMin > 7158278
    ensures exists es :: RunsOut(Pause, PauseLaser(u, link), es) && Time(es) < 600 * u.pauseMin
  {
    FullTimeExactlyWhenNoneAhead(u, Do(Pausing, link));
  }

  /** Stopped a tenth of a second into a warmup: the timer it leaves behind is ahead of the next one. */
  lemma SecondWarmupIsShort(link: Link)
    requires link == Link(true, true, true, true)
    ensures var es := [Do(Configure(Done, 10, 60, 20), link), Do(Starting, link), Wake(0, link), Tenth,
                       Do(Stopping, link)];
            && Possible(INITIAL, es) && MayStart(Final(INITIAL, es))
            && !NoneAhead(Final(INITIAL, es), Warmup, 600 * Final(INITIAL, es).warmupMin)
  {
    var es := [Do(Configure(Done, 10, 60, 20), link), Do(Starting, link), Wake(0, link), Tenth, Do(Stopping, link)];
    var u0 := Unit(Ready, true, true, false, true, false, false, 10, 60, 20, []);
    var u1 := Unit(Warmup, true, true, true, true, false, true, 10, 60, 20, [WarmupTimer(0, 0)]);
    var u2 := u1.(timers := [WarmupTimer(1, 10)]);
    var u3 := u1.(timers := [WarmupTimer(1, 9)]);
    var u4 := u0.(timers := [WarmupTimer(1, 9)]);
    assert After(INITIAL, es[0]).timers == u0.timers;
    assert After(u0, es[1]).timers == u1.timers;
    assert After(u1, es[2]).timers == u2.timers;
    assert After(u2, es[3]).timers == u3.timers;
    assert After(u3, es[4]).timers == u4.timers;
    OneMoreEvent(u3, es[4..], u4);
    OneMoreEvent(u2, es[3..], u4);
    OneMoreEvent(u1, es[2..], u4);
    OneMoreEvent(u0, es[1..], u4);
    OneMoreEvent(INITIAL, es, u4);
    RegularSleep(u4, u4.timers[0]);
  }

  lemma OneMoreEvent(u: Unit, es: seq<Event>, end: Unit)
    requires es != [] && Enabled(u, es[0])
    requires Possible(After(u, es[0]), es[1..]) && Final(After(u, es[0]), es[1..]) == end
    ensures Possible(u, es) && Final(u, es) == end
  {
  }
}
