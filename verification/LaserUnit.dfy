/** The laser unit itself. Every command is proved to take the step of the state machine, and so keeps
    the invariant of module LaserSafety. */
module LaserUnit {
  import S = LaserStates
  import opened LaserStates
  import opened LaserSafety
  import opened LaserTables
  import opened ShotCount

  class DIoLLaserUnit {
    var status: Status
    var laser: bool
    var mapped: bool
    var extClosed: bool
    var ishClosed: bool
    var qswitch: bool
    var fire: bool
    var pauseMin: nat
    var standbyMin: nat
    var warmupMin: nat
    var timers: seq<Timer>     // the detached threads that are still alive

    constructor ()
      ensures State() == INITIAL && Inv(State())
      ensures status == Offline && !laser && !fire && !qswitch && !extClosed && ishClosed
      ensures pauseMin == 10 && standbyMin == 60 && warmupMin == 20 && timers == []
    {
      status, laser, mapped := Offline, false, false;
      extClosed, ishClosed, qswitch, fire := false, true, false, false;
      pauseMin, standbyMin, warmupMin, timers := 10, 60, 20, [];
    }

    function State(): Unit
      reads this
    {
      Unit(status, laser, mapped, extClosed, ishClosed, qswitch, fire, pauseMin, standbyMin, warmupMin, timers)
    }

    method UpdateStatus(s: Status)
      modifies this`status, this`timers
      ensures State() == Enter(old(State()), s)
      ensures status == s && timers == if old(status) == s then old(timers) else old(timers) + TimerOf(s)
    {
      if status == s {
        return;
      }
      status := s;
      if s == S.Pause {
        timers := timers + [PauseTimer(0, 0, 0)];
      }
      if s == S.Standby {
        timers := timers + [StandbyTimer(0, 0)];
      }
      if s == S.Warmup {
        timers := timers + [WarmupTimer(0, 0)];
      }
      assert timers == old(timers) + TimerOf(s);
    }

    /** `obeys` says whether the serial call succeeds. */
    method CloseLaserShutter(obeys: bool) returns (good: bool)
      modifies this`ishClosed
      ensures State() == CloseLaser(old(State()), obeys) && good == (laser && obeys)
    {
      good := laser && obeys;
      if good {
        ishClosed := true;
      }
    }

    method OpenLaserShutter(obeys: bool) returns (good: bool)
      modifies this`ishClosed
      ensures State() == OpenLaser(old(State()), obeys) && good == (laser && obeys)
    {
      good := laser && obeys;
      if good {
        ishClosed := false;
      }
    }

    method ForceExtShutter(close: bool)
      modifies this
      ensures State() == S.ForceExtShutter(old(State()), close)
    {
      if !mapped {
        return;    // looking a register up throws, and nothing was done yet
      }
      if close && !extClosed {
        extClosed := true;
        if fire {
          UpdateStatus(S.Pause);
        } else {
          UpdateStatus(Ready);
        }
      } else if !close && extClosed {
        var newStatus;
        if fire {
          newStatus := if ishClosed then S.Standby else Lasing;
        } else {
          newStatus := Ready;
        }
        extClosed := false;
        UpdateStatus(newStatus);
      }
    }

    method SwitchLaserShutter(close: bool, link: Link)
      modifies this
      ensures State() == S.SwitchLaserShutter(old(State()), close, link)
    {
      if status == Offline || !laser {
        return;
      }
      if close {
        CloseByHand(link);
      } else {
        OpenByHand(link);
      }
    }

    method CloseByHand(link: Link)
      requires status != Offline && laser
      modifies this
      ensures State() == S.SwitchLaserShutter(old(State()), true, link)
    {
      qswitch := false;
      var _ := CloseLaserShutter(link.close);
      if status != S.Standby {
        UpdateStatus(S.Standby);
      }
      if extClosed {
        extClosed := false;
      }
    }

    method OpenByHand(link: Link)
      requires status != Offline && laser
      modifies this
      ensures State() == S.SwitchLaserShutter(old(State()), false, link)
    {
      var newStatus := Ready;
      if fire {
        newStatus := if extClosed then S.Pause else Lasing;
      }
      var _ := OpenLaserShutter(link.open);
      qswitch := true;
      UpdateStatus(newStatus);
    }

    method Stop(closes: bool)
      modifies this
      ensures State() == S.Stop(old(State()), closes)
    {
      if !mapped {
        return;    // looking a register up throws, and nothing was done yet
      }
      ForceExtShutter(true);
      qswitch := false;
      fire := false;
      if laser {
        var _ := CloseLaserShutter(closes);
      }
      ForceExtShutter(false);
      UpdateStatus(Ready);
    }

    method Terminate(link: Link)
      modifies this
      ensures State() == S.Terminate(old(State()), link)
    {
      if status == Offline {
        laser := false;
        return;
      }
      qswitch := false;
      fire := false;
      extClosed := false;
      var _ := CloseLaserShutter(link.close);
      UpdateStatus(Offline);
      laser := false;
    }

    method StartCib(link: Link) returns (good: bool)
      modifies this
      ensures State() == S.StartCib(old(State()), link)
      ensures good == (old(laser && status == Ready) && link.close && link.start)
    {
      good := laser && status == Ready;
      if !good {
        return;
      }
      qswitch := false;
      good := CloseLaserShutter(link.close);
      if !good {
        return;
      }
      if !link.start {
        Stop(link.closeAgain);
        return false;
      }
      if !extClosed {
        extClosed := true;
      }
      fire := true;
      UpdateStatus(Warmup);
    }

    method Pause(link: Link) returns (good: bool)
      modifies this
      ensures State() == PauseLaser(old(State()), link)
      ensures good == old(status == S.Pause || (laser && (status == S.Standby || status == Lasing) && link.open))
    {
      if status == S.Pause {
        return true;
      }
      if !laser || (status != S.Standby && status != Lasing) {
        return false;
      }
      extClosed := true;
      good := OpenLaserShutter(link.open);
      if !good {
        return;
      }
      if !fire {
        UpdateStatus(Ready);
      } else {
        qswitch := true;
        UpdateStatus(S.Pause);
      }
    }

    method Standby(closes: bool) returns (good: bool)
      modifies this
      ensures State() == StandBy(old(State()), closes)
      ensures good == old(status == Warmup || status == S.Standby || (laser && (status == Lasing || status == S.Pause)))
    {
      if status == Warmup || status == S.Standby {
        return true;
      }
      if !laser || (status != Lasing && status != S.Pause) {
        return false;
      }
      qswitch := false;
      var _ := CloseLaserShutter(closes);
      extClosed := true;
      if fire {
        UpdateStatus(S.Standby);
      } else {
        UpdateStatus(Ready);
      }
      good := true;
    }

    method Resume(link: Link) returns (good: bool)
      modifies this
      ensures State() == S.Resume(old(State()), link)
      ensures good == old(status == Lasing
                          || (laser && fire && (status == S.Pause || status == S.Standby) && link.open))
    {
      if status == Lasing {
        return true;
      }
      if !laser || (status != S.Pause && status != S.Standby) || !fire {
        return false;
      }
      good := OpenLaserShutter(link.open);
      if good {
        extClosed := false;
      } else {
        var _ := Standby(link.close);
      }
      if !good {
        return;
      }
      UpdateStatus(Lasing);
    }

    /** fire_discrete_shots up to its shot loop. */
    method BeginShooting(link: Link) returns (good: bool)
      modifies this
      ensures State() == BeginShots(old(State()), link)
      ensures good == (laser && fire && ResumeSucceeds(old(State()), link))
      ensures good ==> status == Lasing
    {
      ShotsTable(State(), link);
      good := laser && fire;
      if good {
        good := Resume(link);
        if !good {
          var _ := Standby(link.closeAgain);
        }
      }
    }

    /** fire_discrete_shots: resume, let `num` shots through, pause. `totals` are the numbers of shots
        fired when the counter is polled; what happens to the unit meanwhile is not part of this method. */
    method FireDiscreteShots(num: nat, totals: seq<nat>, link: Link, last: Link) returns (good: bool, ghost polls: nat)
      requires totals != []
      modifies this
      ensures good ==> status == S.Pause && extClosed && qswitch && !ishClosed
      ensures var u := old(State());
              if u.laser && u.fire && ResumeSucceeds(u, link)
              then State() == PauseLaser(BeginShots(u, link), last) && 0 < polls <= |totals|
                   && good == last.open && (polls < |totals| ==> Counted(totals, polls) >= num)
                   && forall j :: 0 < j < polls ==> Counted(totals, j) < num
              else State() == BeginShots(u, link) && !good
    {
      polls := 0;
      good := BeginShooting(link);
      if !good {
        return;
      }
      polls := CountShots(totals, num);
      good := Pause(last);
    }

    method WriteWarmupTarget(minutes: nat) returns (good: bool)
      modifies this`warmupMin
      ensures State() == WriteWarmup(old(State()), minutes) && good == (status != Offline)
      ensures warmupMin == if status == Offline then old(warmupMin) else minutes
    {
      if status == Offline {
        return false;
      }
      warmupMin := minutes;
      good := true;
    }

    /** `outcome` says how far the configuration gets, and the timeouts are those set by then. */
    method Config(outcome: Outcome, p: nat, s: nat, w: nat, link: Link) returns (good: bool)
      modifies this
      ensures State() == S.Config(old(State()), outcome, p, s, w, link)
      ensures good == (old(status == Offline && !laser) && outcome == Done)
    {
      if status != Offline || laser || outcome == Rejected {
        return false;
      }
      laser := true;
      UpdateStatus(Ready);
      good := MapRegisters(outcome, p, s, w, link);
    }

    /** What config does once there is a laser instance. */
    method MapRegisters(outcome: Outcome, p: nat, s: nat, w: nat, link: Link) returns (good: bool)
      requires outcome != Rejected
      modifies this
      ensures good == (outcome == Done)
      ensures outcome == NoMapping ==> State() == S.Enter(old(State()), Offline).(mapped := false)
      ensures outcome == LaterFailure ==>
                var ready := old(State()).(mapped := true, pauseMin := p, standbyMin := s, warmupMin := w);
                State() == S.Terminate(ready, link)
      ensures good ==> State() == old(State()).(mapped := true, pauseMin := p, standbyMin := s, warmupMin := w)
    {
      if outcome == NoMapping {
        mapped := false;
        UpdateStatus(Offline);
        return false;
      }
      Configure(p, s, w);
      good := outcome == Done;
      if !good {
        Terminate(link);
      }
    }

    /** The settings, once the registers are mapped. */
    method Configure(p: nat, s: nat, w: nat)
      modifies this
      ensures State() == old(State()).(mapped := true, pauseMin := p, standbyMin := s, warmupMin := w)
    {
      mapped, pauseMin, standbyMin, warmupMin := true, p, s, w;
    }

    /** Timer thread `i` goes once round its loop. */
    method WakeTimer(i: nat, link: Link)
      requires i < |timers|
      modifies this
      ensures State() == RunTimer(old(State()), i, link)
    {
      var t := timers[i];
      var over := match t
                  case StandbyTimer(ticks, _) => ticks >= standbyMin * 60 * 2 % WORD
                  case PauseTimer(_, secs, _) => secs >= pauseMin * 60 % WORD
                  case WarmupTimer(secs, _) => secs >= warmupMin * 60 % WORD;
      if over {
        timers := Removed(timers, i);
        TimeIsUp(t, link);
      } else {
        var stop := match t
                    case StandbyTimer(_, _) => status != S.Standby
                    case PauseTimer(_, _, _) => !extClosed
                    case WarmupTimer(_, _) => status != Warmup;
        timers := if stop then Removed(timers, i) else timers[i := Ticked(t)];
      }
    }

    /** What a timer thread does after its loop. */
    method TimeIsUp(t: Timer, link: Link)
      modifies this
      ensures State() == Expire(old(State()), t, link)
    {
      match t
      case StandbyTimer(_, _) => Stop(link.close);
      case PauseTimer(_, _, _) => var _ := Standby(link.close);
      case WarmupTimer(_, _) =>
        if status == Warmup {
          UpdateStatus(S.Standby);
        }
    }

    /** Any one round of a timer: the step of the state machine, and the invariant stays. */
    method ExecuteTimer(i: nat, link: Link)
      requires Inv(State()) && i < |timers|
      modifies this
      ensures State() == RunTimer(old(State()), i, link) && Inv(State()) && TimerRan(old(State()), i, link, State())
    {
      RunTimerKeepsInv(State(), i, link);
      TimerTable(State(), i, link);
      WakeTimer(i, link);
    }

    /** Any one command: the step of the state machine, and the invariant stays. */
    method Execute(c: Command, link: Link)
      requires Inv(State())
      modifies this
      ensures State() == Apply(old(State()), c, link) && Inv(State()) && Commanded(old(State()), c, link, State())
      ensures State().Beam() ==> status == Lasing
    {
      CommandKeepsInv(State(), c, link);
      CommandTable(State(), c, link);
      match c
      case Configure(outcome, p, s, w) => var _ := Config(outcome, p, s, w, link);
      case Terminating => Terminate(link);
      case Stopping => Stop(link.close);
      case Starting => var _ := StartCib(link);
      case Pausing => var _ := Pause(link);
      case StandingBy => var _ := Standby(link.close);
      case Resuming => var _ := Resume(link);
      case Shooting => var _ := BeginShooting(link);
      case SwitchingLaser(close) => SwitchLaserShutter(close, link);
      case ForcingExt(close) => ForceExtShutter(close);
      case WritingWarmup(w) => var _ := WriteWarmupTarget(w);
    }
  }
}
