/** What every run of the laser unit keeps, and how long it may fire without lasing. */
module LaserSafety {
  import opened LaserStates

  predicate Timed(u: Unit)
  {
    match u.status
    case Warmup => exists i :: 0 <= i < |u.timers| && u.timers[i].WarmupTimer?
    case Pause => exists i :: 0 <= i < |u.timers| && u.timers[i].PauseTimer?
    case Standby => exists i :: 0 <= i < |u.timers| && u.timers[i].StandbyTimer?
    case _ => true
  }

  /** What the status says about the parts. */
  predicate PartsOk(u: Unit)
  {
    && (u.fire ==> u.laser)
    && (u.status != Offline ==> u.mapped)
    && match u.status
       case Offline => !u.fire
       case Ready => !u.fire
       case Warmup => u.fire && u.extClosed && u.ishClosed && !u.qswitch
       case Pause => u.fire && u.extClosed
       case Standby => !u.Beam()
       case Lasing => u.fire
  }

  predicate Inv(u: Unit) { PartsOk(u) && Timed(u) }

  lemma EnterStartsTimer(u: Unit, s: Status)
    ensures Enter(u, s).status == s
    ensures u.status != s || Timed(u) ==> Timed(Enter(u, s))
    ensures u.timers <= Enter(u, s).timers
  {
    if u.status != s && (s == Pause || s == Standby || s == Warmup) {
      var ts := Enter(u, s).timers;
      assert ts[|u.timers|] == ts[|ts| - 1];
    }
  }

  lemma StopMakesReady(u: Unit, closes: bool)
    requires PartsOk(u) && u.mapped
    ensures Inv(Stop(u, closes)) && Stop(u, closes).status == Ready && !Stop(u, closes).fire
  {
  }

  lemma StopKeepsInv(u: Unit, closes: bool)
    requires Inv(u)
    ensures Inv(Stop(u, closes))
  {
    if u.mapped {
      StopMakesReady(u, closes);
    }
  }

  lemma StandByKeepsInv(u: Unit, closes: bool)
    requires Inv(u)
    ensures Inv(StandBy(u, closes))
  {
    if u.laser && (u.status == Lasing || u.status == Pause) {
      EnterStartsTimer(CloseLaser(u.(qswitch := false), closes).(extClosed := true), if u.fire then Standby else Ready);
    }
  }

  lemma ForceExtKeepsInv(u: Unit, close: bool)
    requires Inv(u)
    ensures Inv(ForceExtShutter(u, close))
  {
    if u.mapped && close != u.extClosed {
      EnterStartsTimer(u.(extClosed := close),
                       if !u.fire then Ready else if close then Pause else if u.ishClosed then Standby else Lasing);
    }
  }

  lemma SwitchLaserKeepsInv(u: Unit, close: bool, link: Link)
    requires Inv(u)
    ensures Inv(SwitchLaserShutter(u, close, link))
  {
    if u.status != Offline && u.laser {
      if close {
        EnterStartsTimer(CloseLaser(u.(qswitch := false), link.close), Standby);
        var v := Enter(CloseLaser(u.(qswitch := false), link.close), Standby);
        assert v.(extClosed := false).timers == v.timers;
      } else {
        EnterStartsTimer(OpenLaser(u, link.open).(qswitch := true),
                         if !u.fire then Ready else if u.extClosed then Pause else Lasing);
      }
    }
  }

  lemma StartKeepsInv(u: Unit, link: Link)
    requires Inv(u)
    ensures Inv(StartCib(u, link))
  {
    if MayStart(u) && link.close {
      var dark := CloseLaser(u.(qswitch := false), true);
      StopKeepsInv(dark, link.closeAgain);
      EnterStartsTimer(dark.(extClosed := true, fire := true), Warmup);
    }
  }

  lemma PauseKeepsInv(u: Unit, link: Link)
    requires Inv(u)
    ensures Inv(PauseLaser(u, link))
  {
    var v := OpenLaser(u.(extClosed := true), true);
    EnterStartsTimer(v.(qswitch := true), Pause);
    EnterStartsTimer(v, Ready);
    assert u.(extClosed := true).timers == u.timers;
  }

  lemma ResumeKeepsInv(u: Unit, link: Link)
    requires Inv(u)
    ensures Inv(Resume(u, link))
  {
    StandByKeepsInv(u, link.close);
  }

  lemma ConfigKeepsInv(u: Unit, outcome: Outcome, p: nat, s: nat, w: nat, link: Link)
    requires Inv(u)
    ensures Inv(Config(u, outcome, p, s, w, link))
  {
  }

  lemma CommandKeepsInv(u: Unit, c: Command, link: Link)
    requires Inv(u)
    ensures Inv(Apply(u, c, link))
  {
    match c
    case Configure(outcome, p, s, w) => ConfigKeepsInv(u, outcome, p, s, w, link);
    case Terminating =>
    case Stopping => StopKeepsInv(u, link.close);
    case Starting => StartKeepsInv(u, link);
    case Pausing => PauseKeepsInv(u, link);
    case StandingBy => StandByKeepsInv(u, link.close);
    case Resuming => ResumeKeepsInv(u, link);
    case Shooting =>
      ResumeKeepsInv(u, link);
      StandByKeepsInv(Resume(u, link), link.closeAgain);
    case SwitchingLaser(close) => SwitchLaserKeepsInv(u, close, link);
    case ForcingExt(close) => ForceExtKeepsInv(u, close);
    case WritingWarmup(w) => assert WriteWarmup(u, w).timers == u.timers;
  }

  // ----- timers -----

  lemma RemovedKeepsOthers(ts: seq<Timer>, i: nat, j: nat)
    requires i < |ts| && j < |ts| && j != i
    ensures exists k :: 0 <= k < |ts| - 1 && Removed(ts, i)[k] == ts[j]
  {
    assert Removed(ts, i)[if j < i then j else j - 1] == ts[j];
  }

  /** Timer `i` may go: it is not the one the status relies on, or not the only one. */
  lemma TimedWithout(u: Unit, i: nat)
    requires Timed(u) && i < |u.timers|
    requires u.status == Warmup ==> !u.timers[i].WarmupTimer?
    requires u.status == Pause ==> !u.timers[i].PauseTimer?
    requires u.status == Standby ==> !u.timers[i].StandbyTimer?
    ensures Timed(u.(timers := Removed(u.timers, i)))
  {
    forall j | 0 <= j < |u.timers| && j != i
      ensures exists k :: 0 <= k < |u.timers| - 1 && Removed(u.timers, i)[k] == u.timers[j]
    {
      RemovedKeepsOthers(u.timers, i, j);
    }
  }

  lemma ExpiryKeepsInv(u: Unit, i: nat, link: Link)
    requires Inv(u) && i < |u.timers| && Expired(u, u.timers[i])
    ensures Inv(Expire(u.(timers := Removed(u.timers, i)), u.timers[i], link))
  {
    var t, v := u.timers[i], u.(timers := Removed(u.timers, i));
    match t
    case WarmupTimer(_, _) =>
      if u.status == Warmup {
        EnterStartsTimer(v, Standby);
      } else {
        TimedWithout(u, i);
      }
    case PauseTimer(_, _, _) =>
      if u.status == Pause {
        EnterStartsTimer(CloseLaser(v.(qswitch := false), link.close).(extClosed := true), Standby);
      } else {
        TimedWithout(u, i);
        StandByKeepsInv(v, link.close);
      }
    case StandbyTimer(_, _) =>
      if u.mapped {
        StopMakesReady(v, link.close);
      } else {
        TimedWithout(u, i);
      }
  }

  lemma TickKeepsInv(u: Unit, i: nat)
    requires Inv(u) && i < |u.timers| && !Expired(u, u.timers[i])
    ensures Inv(u.(timers := u.timers[i := Ticked(u.timers[i])]))
  {
    var v := u.(timers := u.timers[i := Ticked(u.timers[i])]);
    forall j | 0 <= j < |u.timers|
      ensures v.timers[j].WarmupTimer? == u.timers[j].WarmupTimer? && v.timers[j].PauseTimer? == u.timers[j].PauseTimer?
    {
    }
  }

  lemma RunTimerKeepsInv(u: Unit, i: nat, link: Link)
    requires Inv(u) && i < |u.timers|
    ensures Inv(RunTimer(u, i, link))
  {
    if Expired(u, u.timers[i]) {
      ExpiryKeepsInv(u, i, link);
    } else if Cancelled(u, u.timers[i]) {
      TimedWithout(u, i);
    } else {
      TickKeepsInv(u, i);
    }
  }

  lemma ElapseKeepsInv(u: Unit)
    requires Inv(u)
    ensures Inv(Elapse(u))
  {
    forall i | 0 <= i < |u.timers|
      ensures Elapse(u).timers[i].WarmupTimer? == u.timers[i].WarmupTimer?
      ensures Elapse(u).timers[i].PauseTimer? == u.timers[i].PauseTimer?
    {
      assert Elapse(u).timers[i] == Sooner(u.timers[i]);
    }
  }

  // ----- runs -----

  datatype Event = Do(c: Command, link: Link) | Wake(i: nat, answer: Link) | Tenth

  predicate Enabled(u: Unit, e: Event)
  {
    match e
    case Do(_, _) => true
    case Wake(i, _) => i < |u.timers|
    case Tenth => true
  }

  function After(u: Unit, e: Event): Unit
    requires Enabled(u, e)
  {
    match e
    case Do(c, link) => Apply(u, c, link)
    case Wake(i, link) => RunTimer(u, i, link)
    case Tenth => Elapse(u)
  }

  predicate Possible(u: Unit, es: seq<Event>)
    decreases |es|
  {
    es != [] ==> Enabled(u, es[0]) && Possible(After(u, es[0]), es[1..])
  }

  function Final(u: Unit, es: seq<Event>): Unit
    requires Possible(u, es)
    decreases |es|
  {
    if es == [] then u else Final(After(u, es[0]), es[1..])
  }

  lemma EventKeepsInv(u: Unit, e: Event)
    requires Inv(u) && Enabled(u, e)
    ensures Inv(After(u, e))
  {
    match e
    case Do(c, link) => CommandKeepsInv(u, c, link);
    case Wake(i, link) => RunTimerKeepsInv(u, i, link);
    case Tenth => ElapseKeepsInv(u);
  }

  lemma {:induction false} RunKeepsInv(u: Unit, es: seq<Event>)
    requires Inv(u) && Possible(u, es)
    ensures Inv(Final(u, es))
    decreases |es|
  {
    if es != [] {
      EventKeepsInv(u, es[0]);
      RunKeepsInv(After(u, es[0]), es[1..]);
    }
  }

  /** Whatever is commanded, whichever serial calls fail, and whenever the timers happen to run: the
      beam is on in status Lasing only. */
  lemma NoBeamUnlessLasing(es: seq<Event>)
    requires Possible(INITIAL, es)
    ensures Inv(Final(INITIAL, es))
    ensures Final(INITIAL, es).Beam() ==> Final(INITIAL, es).status == Lasing
  {
    RunKeepsInv(INITIAL, es);
  }
}
