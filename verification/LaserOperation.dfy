/** What the commands are for: the way to the beam, and when the beam stays off. */
module LaserOperation {
  import opened LaserStates
  import opened LaserSafety
  import opened LaserDeadMan
  import opened LaserTimes
  import opened LaserWarmup

  /** Only the q-switch decides whether a resumed laser emits: resume opens both shutters, and leaves the
      q-switch as it was. */
  lemma ResumedBeamsExactlyWithQSwitch(u: Unit, link: Link)
    requires Inv(u) && MayResume(u)
    ensures link.open ==> Resume(u, link).status == Lasing && (Resume(u, link).Beam() <==> u.qswitch)
    ensures !link.open ==> Resume(u, link).status == Standby && !Resume(u, link).Beam()
  {
  }

  // ----- the beam can always be reached -----

  const OBEYED := Link(true, true, true, true)

  lemma {:induction false} InSequence(u: Unit, a: seq<Event>, b: seq<Event>)
    requires Possible(u, a) && Possible(Final(u, a), b)
    ensures Possible(u, a + b) && Final(u, a + b) == Final(Final(u, a), b)
    decreases |a|
  {
    if a == [] {
      assert a + b == b;
    } else {
      assert (a + b)[1..] == a[1..] + b;
      InSequence(After(u, a[0]), a[1..], b);
    }
  }

  lemma TwoCommands(u: Unit, c: Command, d: Command)
    ensures var es := [Do(c, OBEYED), Do(d, OBEYED)];
            Possible(u, es) && Final(u, es) == Apply(Apply(u, c, OBEYED), d, OBEYED)
  {
    var es := [Do(c, OBEYED), Do(d, OBEYED)];
    assert es[1..] == [Do(d, OBEYED)] && es[1..][1..] == [];
    OneMoreEvent(After(u, es[0]), es[1..], Apply(Apply(u, c, OBEYED), d, OBEYED));
    OneMoreEvent(u, es, Apply(Apply(u, c, OBEYED), d, OBEYED));
  }

  /** A warmup that runs out ends in standby, with the laser firing. */
  lemma {:induction false} RunsOutIntoStandby(u: Unit, es: seq<Event>)
    requires Inv(u) && RunsOut(Warmup, u, es)
    ensures Possible(u, es) && Inv(Final(u, es)) && Final(u, es).status == Standby && Final(u, es).fire
    decreases |es|
  {
    EventKeepsInv(u, es[0]);
    if TimesOut(u, es[0]) {
      assert es[1..] == [];
    } else {
      RunsOutIntoStandby(After(u, es[0]), es[1..]);
    }
  }

  /** From ready: start, let the warmup run out, pause, resume. */
  lemma ReadyReachesBeam(u: Unit) returns (es: seq<Event>)
    requires Inv(u) && MayStart(u)
    ensures Possible(u, es) && Final(u, es).Beam()
  {
    var v := StartCib(u, OBEYED);
    StartKeepsInv(u, OBEYED);
    var i := |u.timers|;
    assert v.timers[i] == WarmupTimer(0, 0);
    var warming := RunsOutWithin(v, i, ToGo(v, v.timers[i]));
    RunsOutIntoStandby(v, warming);
    var warm := Final(v, warming);
    TwoCommands(warm, Pausing, Resuming);
    InSequence(v, warming, [Do(Pausing, OBEYED), Do(Resuming, OBEYED)]);
    var rest := warming + [Do(Pausing, OBEYED), Do(Resuming, OBEYED)];
    es := [Do(Starting, OBEYED)] + rest;
    assert es[1..] == rest;
    OneMoreEvent(u, es, Final(v, rest));
  }

  /** Whatever has happened to the unit, it can be brought to emit again: terminated, configured, started,
      paused once the warmup has run out, and resumed. */
  lemma BeamCanAlwaysBeReached(past: seq<Event>) returns (es: seq<Event>)
    requires Possible(INITIAL, past)
    ensures Possible(Final(INITIAL, past), es) && Final(Final(INITIAL, past), es).Beam()
  {
    RunKeepsInv(INITIAL, past);
    var u := Final(INITIAL, past);
    var setup := Configure(Done, 10, 60, 20);
    CommandKeepsInv(u, Terminating, OBEYED);
    CommandKeepsInv(Terminate(u, OBEYED), setup, OBEYED);
    TwoCommands(u, Terminating, setup);
    var v := Apply(Terminate(u, OBEYED), setup, OBEYED);
    var rest := ReadyReachesBeam(v);
    es := [Do(Terminating, OBEYED), Do(setup, OBEYED)] + rest;
    InSequence(u, [Do(Terminating, OBEYED), Do(setup, OBEYED)], rest);
  }

  // ----- the q-switch in runs without commands that move one shutter by hand -----

  /** The q-switch is on in pause and lasing only, and standby is a standby of a firing laser. */
  predicate SwitchedInTime(u: Unit)
  {
    (u.qswitch ==> u.status == Pause || u.status == Lasing) && (u.status == Standby ==> u.fire)
  }

  lemma StopSwitchesOff(u: Unit, closes: bool)
    requires u.mapped
    ensures !Stop(u, closes).qswitch && Stop(u, closes).status == Ready
  {
  }

  lemma StandByKeepsSwitch(u: Unit, closes: bool)
    requires SwitchedInTime(u)
    ensures SwitchedInTime(StandBy(u, closes))
  {
  }

  lemma CommandKeepsSwitch(u: Unit, c: Command, link: Link)
    requires Inv(u) && SwitchedInTime(u) && !c.SwitchingLaser? && !c.ForcingExt?
    ensures SwitchedInTime(Apply(u, c, link))
  {
    match c
    case Configure(_, _, _, _) =>
    case Terminating =>
    case Stopping => SwitchStop(u, link.close);
    case Starting => StartKeepsSwitch(u, link);
    case Pausing =>
    case StandingBy => StandByKeepsSwitch(u, link.close);
    case Resuming => StandByKeepsSwitch(u, link.close);
    case Shooting => ShotsKeepSwitch(u, link);
    case WritingWarmup(_) =>
    case _ =>
  }

  lemma StartKeepsSwitch(u: Unit, link: Link)
    requires Inv(u) && SwitchedInTime(u)
    ensures SwitchedInTime(StartCib(u, link))
  {
    if MayStart(u) {
      StopSwitchesOff(CloseLaser(u.(qswitch := false), true), link.closeAgain);
    }
  }

  lemma ShotsKeepSwitch(u: Unit, link: Link)
    requires Inv(u) && SwitchedInTime(u)
    ensures SwitchedInTime(Apply(u, Shooting, link))
  {
    StandByKeepsSwitch(u, link.close);
    StandByKeepsSwitch(Resume(u, link), link.closeAgain);
  }

  lemma SwitchStop(u: Unit, closes: bool)
    requires SwitchedInTime(u)
    ensures SwitchedInTime(Stop(u, closes))
  {
    if u.mapped {
      StopSwitchesOff(u, closes);
    }
  }

  lemma TimerKeepsSwitch(u: Unit, i: nat, link: Link)
    requires Inv(u) && SwitchedInTime(u) && i < |u.timers|
    ensures SwitchedInTime(RunTimer(u, i, link))
  {
    var v := u.(timers := Removed(u.timers, i));
    if Expired(u, u.timers[i]) {
      match u.timers[i]
      case StandbyTimer(_, _) => SwitchStop(v, link.close);
      case PauseTimer(_, _, _) => StandByKeepsSwitch(v, link.close);
      case WarmupTimer(_, _) =>
    }
  }

  lemma {:induction false} RunKeepsSwitch(u: Unit, es: seq<Event>)
    requires Inv(u) && SwitchedInTime(u) && Possible(u, es) && forall k :: 0 <= k < |es| ==> Respectful(es[k])
    ensures SwitchedInTime(Final(u, es))
    decreases |es|
  {
    if es != [] {
      EventKeepsInv(u, es[0]);
      match es[0] {
        case Do(c, link) => CommandKeepsSwitch(u, c, link);
        case Wake(i, link) => TimerKeepsSwitch(u, i, link);
        case Tenth =>
      }
      RunKeepsSwitch(After(u, es[0]), es[1..]);
    }
  }

  /** Resuming, or firing discrete shots, straight from standby enters lasing without the beam: only a
      pause switches the q-switch on again. */
  lemma StandbyResumesDark(es: seq<Event>, link: Link)
    requires Possible(INITIAL, es) && forall k :: 0 <= k < |es| ==> Respectful(es[k])
    requires Final(INITIAL, es).status == Standby && link.open
    ensures var u := Final(INITIAL, es);
            && Resume(u, link).status == Lasing && !Resume(u, link).Beam()
            && BeginShots(u, link).status == Lasing && !BeginShots(u, link).Beam()
  {
    RunKeepsInv(INITIAL, es);
    RunKeepsSwitch(INITIAL, es);
    ResumedBeamsExactlyWithQSwitch(Final(INITIAL, es), link);
  }
}
