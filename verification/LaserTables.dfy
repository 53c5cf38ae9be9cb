/** What each command and each timer round leaves of every part, written out. */
module LaserTables {
  import opened LaserStates
  import opened LaserSafety
  import opened LaserDeadMan

  function OneIf(condition: bool, t: Timer): seq<Timer> { if condition then [t] else [] }

  // ----- the commands -----

  /** The laser shutter closes if there is a laser and it obeys. A pause is entered on the way where the laser
      fires through an open external shutter, and its timer stays. */
  predicate Stopped(u: Unit, closes: bool, v: Unit)
  {
    v == if !u.mapped then u
         else
           u.(status := Ready, fire := false, qswitch := false, extClosed := false,
              ishClosed := u.ishClosed || (u.laser && closes),
              timers := u.timers + OneIf(u.fire && !u.extClosed && u.status != Pause, PauseTimer(0, 0, 0)))
  }

  predicate Terminated(u: Unit, link: Link, v: Unit)
  {
    v == if u.status == Offline then u.(laser := false)
         else
           u.(status := Offline, laser := false, fire := false, qswitch := false, extClosed := false,
              ishClosed := u.ishClosed || (u.laser && link.close))
  }

  predicate WasStarted(u: Unit, link: Link, v: Unit)
  {
    v == if !u.laser || u.status != Ready then u
         else if !link.close then u.(qswitch := false)
         else if !link.start then u.(qswitch := false, extClosed := false, ishClosed := true)
         else
           u.(status := Warmup, fire := true, qswitch := false, extClosed := true, ishClosed := true,
              timers := u.timers + [WarmupTimer(0, 0)])
  }

  predicate Paused(u: Unit, link: Link, v: Unit)
  {
    v == if !u.laser || (u.status != Standby && u.status != Lasing) then u
         else if !link.open then u.(extClosed := true)
         else if !u.fire then u.(status := Ready, extClosed := true, ishClosed := false)
         else
           u.(status := Pause, extClosed := true, ishClosed := false, qswitch := true,
              timers := u.timers + [PauseTimer(0, 0, 0)])
  }

  predicate PutToStandby(u: Unit, closes: bool, v: Unit)
  {
    v == if !u.laser || (u.status != Lasing && u.status != Pause) then u
         else
           u.(status := if u.fire then Standby else Ready, qswitch := false, extClosed := true,
              ishClosed := u.ishClosed || closes, timers := u.timers + OneIf(u.fire, StandbyTimer(0, 0)))
  }

  /** What `resume` leaves, and discrete shots before the first of them. From pause, a laser shutter that does not
      open means standby; from standby it means nothing. */
  predicate Resumed(u: Unit, link: Link, v: Unit)
  {
    v == if !u.laser || !u.fire || (u.status != Pause && u.status != Standby) then u
         else if link.open then u.(status := Lasing, extClosed := false, ishClosed := false)
         else if u.status == Standby then u
         else
           u.(status := Standby, qswitch := false, extClosed := true, ishClosed := u.ishClosed || link.close,
              timers := u.timers + [StandbyTimer(0, 0)])
  }

  predicate LaserShutterMoved(u: Unit, close: bool, link: Link, v: Unit)
  {
    v == if u.status == Offline || !u.laser then u
         else if close then
           u.(status := Standby, qswitch := false, extClosed := false, ishClosed := u.ishClosed || link.close,
              timers := u.timers + OneIf(u.status != Standby, StandbyTimer(0, 0)))
         else
           u.(status := if !u.fire then Ready else if u.extClosed then Pause else Lasing, qswitch := true,
              ishClosed := u.ishClosed && !link.open,
              timers := u.timers + OneIf(u.fire && u.extClosed && u.status != Pause, PauseTimer(0, 0, 0)))
  }

  predicate ExtShutterMoved(u: Unit, close: bool, v: Unit)
  {
    v == if !u.mapped || close == u.extClosed then u
         else if close then
           u.(status := if u.fire then Pause else Ready, extClosed := true,
              timers := u.timers + OneIf(u.fire && u.status != Pause, PauseTimer(0, 0, 0)))
         else
           u.(status := if !u.fire then Ready else if u.ishClosed then Standby else Lasing, extClosed := false,
              timers := u.timers + OneIf(u.fire && u.ishClosed && u.status != Standby, StandbyTimer(0, 0)))
  }

  predicate Configured(u: Unit, outcome: Outcome, p: nat, s: nat, w: nat, link: Link, v: Unit)
  {
    v == if u.status != Offline || u.laser || outcome == Rejected then u
         else if outcome == NoMapping then u.(laser := true, mapped := false)
         else if outcome == LaterFailure then
           u.(mapped := true, pauseMin := p, standbyMin := s, warmupMin := w, fire := false, qswitch := false,
              extClosed := false, ishClosed := u.ishClosed || link.close)
         else
           u.(status := Ready, laser := true, mapped := true, pauseMin := p, standbyMin := s, warmupMin := w)
  }

  predicate Commanded(u: Unit, c: Command, link: Link, v: Unit)
  {
    match c
    case Configure(outcome, p, s, w) => Configured(u, outcome, p, s, w, link, v)
    case Terminating => Terminated(u, link, v)
    case Stopping => Stopped(u, link.close, v)
    case Starting => WasStarted(u, link, v)
    case Pausing => Paused(u, link, v)
    case StandingBy => PutToStandby(u, link.close, v)
    case Resuming => Resumed(u, link, v)
    case Shooting => Resumed(u, link, v)
    case SwitchingLaser(close) => LaserShutterMoved(u, close, link, v)
    case ForcingExt(close) => ExtShutterMoved(u, close, v)
    case WritingWarmup(w) => v == if u.status == Offline then u else u.(warmupMin := w)
  }

  lemma TimersStay(u: Unit)
    ensures u.timers + [] == u.timers
  {
  }

  lemma StopTable(u: Unit, closes: bool)
    ensures Stopped(u, closes, Stop(u, closes))
  {
    TimersStay(u);
  }

  lemma TerminateTable(u: Unit, link: Link)
    ensures Terminated(u, link, Terminate(u, link))
  {
    TimersStay(u);
  }

  lemma StartTable(u: Unit, link: Link)
    requires PartsOk(u)
    ensures WasStarted(u, link, StartCib(u, link))
  {
    StopTable(CloseLaser(u.(qswitch := false), true), link.closeAgain);
    TimersStay(u);
  }

  lemma PauseTable(u: Unit, link: Link)
    ensures Paused(u, link, PauseLaser(u, link))
  {
    TimersStay(u);
  }

  lemma StandByTable(u: Unit, closes: bool)
    ensures PutToStandby(u, closes, StandBy(u, closes))
  {
    TimersStay(u);
  }

  lemma ResumeTable(u: Unit, link: Link)
    ensures Resumed(u, link, Resume(u, link))
  {
    StandByTable(u, link.close);
    TimersStay(u);
  }

  lemma ShotsTable(u: Unit, link: Link)
    ensures Resumed(u, link, BeginShots(u, link))
  {
    ResumeTable(u, link);
    StandByTable(Resume(u, link), link.closeAgain);
  }

  lemma SwitchLaserTable(u: Unit, close: bool, link: Link)
    ensures LaserShutterMoved(u, close, link, SwitchLaserShutter(u, close, link))
  {
    TimersStay(u);
  }

  lemma ForceExtTable(u: Unit, close: bool)
    ensures ExtShutterMoved(u, close, ForceExtShutter(u, close))
  {
    TimersStay(u);
  }

  lemma ConfigTable(u: Unit, outcome: Outcome, p: nat, s: nat, w: nat, link: Link)
    ensures Configured(u, outcome, p, s, w, link, Config(u, outcome, p, s, w, link))
  {
    var ready := Enter(u.(laser := true), Ready).(mapped := true, pauseMin := p, standbyMin := s, warmupMin := w);
    TerminateTable(ready, link);
    TimersStay(u);
  }

  /** Every command, in every state the unit gets to. */
  lemma CommandTable(u: Unit, c: Command, link: Link)
    requires PartsOk(u)
    ensures Commanded(u, c, link, Apply(u, c, link))
  {
    match c
    case Configure(outcome, p, s, w) => ConfigTable(u, outcome, p, s, w, link);
    case Terminating => TerminateTable(u, link);
    case Stopping => StopTable(u, link.close);
    case Starting => StartTable(u, link);
    case Pausing => PauseTable(u, link);
    case StandingBy => StandByTable(u, link.close);
    case Resuming => ResumeTable(u, link);
    case Shooting => ShotsTable(u, link);
    case SwitchingLaser(close) => SwitchLaserTable(u, close, link);
    case ForcingExt(close) => ForceExtTable(u, close);
    case WritingWarmup(w) =>
  }

  lemma CommandTableAfterRun(past: seq<Event>, c: Command, link: Link)
    requires Possible(INITIAL, past)
    ensures Commanded(Final(INITIAL, past), c, link, Apply(Final(INITIAL, past), c, link))
  {
    RunKeepsInv(INITIAL, past);
    CommandTable(Final(INITIAL, past), c, link);
  }

  // ----- the timers -----

  /** Timer `i` goes once round its loop: it stops the laser, puts it to standby or ends the warmup where its time is
      up, gives up where its condition is gone, and sleeps for half a second, a tenth or a second otherwise. */
  predicate TimerRan(u: Unit, i: nat, link: Link, v: Unit)
    requires i < |u.timers|
  {
    var others := u.timers[..i] + u.timers[i + 1..];
    match u.timers[i]
    case StandbyTimer(ticks, _) =>
      if ticks >= u.standbyMin * 120 % 4294967296 then Stopped(u.(timers := others), link.close, v)
      else if u.status != Standby then v == u.(timers := others)
      else v == u.(timers := u.timers[i := StandbyTimer(ticks + 1, 5)])
    case PauseTimer(ticks, secs, _) =>
      if secs >= u.pauseMin * 60 % 4294967296 then PutToStandby(u.(timers := others), link.close, v)
      else if !u.extClosed then v == u.(timers := others)
      else
        var n := if ticks == 4294967295 then 0 else ticks + 1;
        v == u.(timers := u.timers[i := PauseTimer(n, if n % 10 == 0 then secs + 1 else secs, 1)])
    case WarmupTimer(secs, _) =>
      if secs >= u.warmupMin * 60 % 4294967296 then
        v == if u.status == Warmup then u.(status := Standby, timers := others + [StandbyTimer(0, 0)])
             else u.(timers := others)
      else if u.status != Warmup then v == u.(timers := others)
      else v == u.(timers := u.timers[i := WarmupTimer(secs + 1, 10)])
  }

  lemma TimerTable(u: Unit, i: nat, link: Link)
    requires i < |u.timers|
    ensures TimerRan(u, i, link, RunTimer(u, i, link))
  {
    var t, v := u.timers[i], RunTimer(u, i, link);
    match t
    case StandbyTimer(_, _) => StandbyTimerTable(u, i, link, t, v);
    case PauseTimer(_, _, _) => PauseTimerTable(u, i, link, t, v);
    case WarmupTimer(_, _) =>
  }

  lemma StandbyTimerTable(u: Unit, i: nat, link: Link, t: Timer, v: Unit)
    requires i < |u.timers| && t == u.timers[i] && v == RunTimer(u, i, link) && t.StandbyTimer?
    ensures TimerRan(u, i, link, v)
  {
    if Expired(u, t) {
      StopTable(u.(timers := Removed(u.timers, i)), link.close);
    }
  }

  lemma PauseTimerTable(u: Unit, i: nat, link: Link, t: Timer, v: Unit)
    requires i < |u.timers| && t == u.timers[i] && v == RunTimer(u, i, link) && t.PauseTimer?
    ensures TimerRan(u, i, link, v)
  {
    if Expired(u, t) {
      StandByTable(u.(timers := Removed(u.timers, i)), link.close);
    }
  }
}
