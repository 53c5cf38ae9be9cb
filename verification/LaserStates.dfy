/** The laser unit as a state machine: the cached part bits, the status, and the detached timers. */
module LaserStates {
  datatype Status = Offline | Ready | Warmup | Lasing | Pause | Standby

  const WORD := 0x1_0000_0000

  /** A 32-bit counter. */
  type Word = n: nat | n < WORD

  /** One timer thread: what it has counted, and the tenths of a second until it wakes up again. */
  datatype TimerState =
    | StandbyTimer(ticks: Word, wait: nat)
    | PauseTimer(ticks: Word, secs: nat, wait: nat)
    | WarmupTimer(secs: nat, wait: nat)

  /** Sleeping times of the three timers, in tenths of a second. */
  const STANDBY_PERIOD := 5
  const PAUSE_PERIOD := 1
  const WARMUP_PERIOD := 10

  /** A timer thread sleeps for one period at most, and not before it has counted a tick. */
  predicate SleepOk(t: TimerState)
  {
    match t
    case StandbyTimer(ticks, wait) => wait <= STANDBY_PERIOD && (ticks == 0 ==> wait == 0)
    case PauseTimer(ticks, secs, wait) => wait <= PAUSE_PERIOD && (ticks % 10 == 0 && secs == 0 ==> wait == 0)
    case WarmupTimer(secs, wait) => wait <= WARMUP_PERIOD && (secs == 0 ==> wait == 0)
  }

  type Timer = t: TimerState | SleepOk(t) witness WarmupTimer(0, 0)

  datatype Unit = Unit(
    status: Status,
    laser: bool,         // there is a laser instance
    mapped: bool,        // the CIB registers are mapped
    extClosed: bool,
    ishClosed: bool,     // the shutter inside the laser
    qswitch: bool,
    fire: bool,
    pauseMin: nat,
    standbyMin: nat,
    warmupMin: nat,
    timers: seq<Timer>)
  {
    /** Light leaves the unit. */
    predicate Beam() { fire && qswitch && !extClosed && !ishClosed }

    /** The limits the timer loops compare with, in 32-bit arithmetic. */
    function StandbyLimit(): nat { standbyMin * 60 * 2 % WORD }
    function PauseLimit(): nat { pauseMin * 60 % WORD }
    function WarmupLimit(): nat { warmupMin * 60 % WORD }
  }

  /** Which calls to the serial link succeed: opening the laser shutter, closing it (the first and the
      second time one command tries), starting to fire. */
  datatype Link = Link(open: bool, close: bool, closeAgain: bool, start: bool)

  const INITIAL := Unit(Offline, false, false, false, true, false, false, 10, 60, 20, [])

  // ----- the parts -----

  /** The timer that entering a status starts. */
  function TimerOf(s: Status): seq<Timer>
  {
    match s
    case Pause => [PauseTimer(0, 0, 0)]
    case Standby => [StandbyTimer(0, 0)]
    case Warmup => [WarmupTimer(0, 0)]
    case _ => []
  }

  /** update_status: entering a status starts its timer. */
  function Enter(u: Unit, s: Status): Unit
  {
    if u.status == s then u else u.(status := s, timers := u.timers + TimerOf(s))
  }

  function CloseLaser(u: Unit, ok: bool): Unit { if u.laser && ok then u.(ishClosed := true) else u }

  function OpenLaser(u: Unit, ok: bool): Unit { if u.laser && ok then u.(ishClosed := false) else u }

  // ----- the commands -----

  function ForceExtShutter(u: Unit, close: bool): Unit
  {
    if !u.mapped || close == u.extClosed then u
    else if close then Enter(u.(extClosed := true), if u.fire then Pause else Ready)
    else
      Enter(u.(extClosed := false),
            if !u.fire then Ready else if u.ishClosed then Standby else Lasing)
  }

  function SwitchLaserShutter(u: Unit, close: bool, link: Link): Unit
  {
    if u.status == Offline || !u.laser then u
    else if close then Enter(CloseLaser(u.(qswitch := false), link.close), Standby).(extClosed := false)
    else
      Enter(OpenLaser(u, link.open).(qswitch := true),
            if !u.fire then Ready else if u.extClosed then Pause else Lasing)
  }

  /** `closes` says whether the laser shutter obeys. */
  function Stop(u: Unit, closes: bool): Unit
  {
    if !u.mapped then u
    else
      var dark := ForceExtShutter(u, true).(qswitch := false, fire := false);
      Enter(ForceExtShutter(CloseLaser(dark, closes), false), Ready)
  }

  function Terminate(u: Unit, link: Link): Unit
  {
    if u.status == Offline then u.(laser := false)
    else
      var dark := u.(qswitch := false, fire := false, extClosed := false);
      Enter(CloseLaser(dark, link.close), Offline).(laser := false)
  }

  predicate MayStart(u: Unit) { u.laser && u.status == Ready }

  function StartCib(u: Unit, link: Link): Unit
  {
    if !MayStart(u) then u
    else
      var dark := u.(qswitch := false);
      if !link.close then dark
      else if !link.start then Stop(CloseLaser(dark, true), link.closeAgain)
      else
        Enter(CloseLaser(dark, true).(extClosed := true, fire := true), Warmup)
  }

  function PauseLaser(u: Unit, link: Link): Unit
  {
    if !u.laser || (u.status != Standby && u.status != Lasing) then u
    else if !link.open then u.(extClosed := true)
    else
      var v := OpenLaser(u.(extClosed := true), true);
      if u.fire then Enter(v.(qswitch := true), Pause) else Enter(v, Ready)
  }

  /** `closes` says whether the laser shutter obeys. */
  function StandBy(u: Unit, closes: bool): Unit
  {
    if !u.laser || (u.status != Lasing && u.status != Pause) then u
    else
      Enter(CloseLaser(u.(qswitch := false), closes).(extClosed := true), if u.fire then Standby else Ready)
  }

  predicate MayResume(u: Unit) { u.laser && (u.status == Pause || u.status == Standby) && u.fire }

  predicate ResumeSucceeds(u: Unit, link: Link) { u.status == Lasing || (MayResume(u) && link.open) }

  function Resume(u: Unit, link: Link): Unit
  {
    if u.status == Lasing || !MayResume(u) then u
    else if link.open then Enter(OpenLaser(u, true).(extClosed := false), Lasing)
    else
      StandBy(u, link.close)
  }

  /** fire_discrete_shots up to its shot loop; once the shots are counted, it pauses. */
  function BeginShots(u: Unit, link: Link): Unit
  {
    if !u.laser || !u.fire then u
    else if ResumeSucceeds(u, link) then Resume(u, link)
    else
      StandBy(Resume(u, link), link.closeAgain)
  }

  /** How far a configuration gets. */
  datatype Outcome = Rejected | NoMapping | LaterFailure | Done

  /** `p`, `s` and `w` are the timeouts in minutes once it ends, whichever of them it got to set. */
  function Config(u: Unit, outcome: Outcome, p: nat, s: nat, w: nat, link: Link): Unit
  {
    if u.status != Offline || u.laser || outcome == Rejected then u
    else
      match outcome
      case NoMapping => Enter(Enter(u.(laser := true), Ready), Offline).(mapped := false)
      case LaterFailure =>
        var ready := Enter(u.(laser := true), Ready).(mapped := true, pauseMin := p, standbyMin := s, warmupMin := w);
        Terminate(ready, link)
      case _ => Enter(u.(laser := true), Ready).(mapped := true, pauseMin := p, standbyMin := s, warmupMin := w)
  }

  /** writeWarmup_target_min: the timer loop compares with the new time from its next round on. */
  function WriteWarmup(u: Unit, w: nat): Unit { if u.status == Offline then u else u.(warmupMin := w) }

  datatype Command =
    | Configure(outcome: Outcome, pauseMin: nat, standbyMin: nat, warmupMin: nat)
    | Terminating
    | Stopping
    | Starting
    | Pausing
    | StandingBy
    | Resuming
    | Shooting
    | SwitchingLaser(close: bool)
    | ForcingExt(close: bool)
    | WritingWarmup(minutes: nat)

  function Apply(u: Unit, c: Command, link: Link): Unit
  {
    match c
    case Configure(outcome, p, s, w) => Config(u, outcome, p, s, w, link)
    case Terminating => Terminate(u, link)
    case Stopping => Stop(u, link.close)
    case Starting => StartCib(u, link)
    case Pausing => PauseLaser(u, link)
    case StandingBy => StandBy(u, link.close)
    case Resuming => Resume(u, link)
    case Shooting => BeginShots(u, link)
    case SwitchingLaser(close) => SwitchLaserShutter(u, close, link)
    case ForcingExt(close) => ForceExtShutter(u, close)
    case WritingWarmup(w) => WriteWarmup(u, w)
  }

  // ----- the timers -----

  function Removed(ts: seq<Timer>, i: nat): (r: seq<Timer>)
    requires i < |ts|
    ensures |r| == |ts| - 1
    ensures forall j :: 0 <= j < |r| ==> r[j] == ts[if j < i then j else j + 1]
  {
    ts[..i] + ts[i + 1..]
  }

  predicate Expired(u: Unit, t: Timer)
  {
    match t
    case StandbyTimer(ticks, _) => ticks >= u.StandbyLimit()
    case PauseTimer(_, secs, _) => secs >= u.PauseLimit()
    case WarmupTimer(secs, _) => secs >= u.WarmupLimit()
  }

  /** A timer that has not expired gives up when it finds its condition gone. */
  predicate Cancelled(u: Unit, t: Timer)
  {
    match t
    case StandbyTimer(_, _) => u.status != Standby
    case PauseTimer(_, _, _) => !u.extClosed
    case WarmupTimer(_, _) => u.status != Warmup
  }

  /** Back to sleep, the next tick counted. */
  function Ticked(t: Timer): Timer
    requires t.StandbyTimer? ==> t.ticks + 1 < WORD
  {
    match t
    case StandbyTimer(ticks, _) => StandbyTimer(ticks + 1, STANDBY_PERIOD)
    case PauseTimer(ticks, secs, _) =>
      var n := (ticks + 1) % WORD;
      PauseTimer(n, if n % 10 == 0 then secs + 1 else secs, PAUSE_PERIOD)
    case WarmupTimer(secs, _) => WarmupTimer(secs + 1, WARMUP_PERIOD)
  }

  /** What an expired timer does. */
  function Expire(u: Unit, t: Timer, link: Link): Unit
  {
    match t
    case StandbyTimer(_, _) => Stop(u, link.close)
    case PauseTimer(_, _, _) => StandBy(u, link.close)
    case WarmupTimer(_, _) => if u.status == Warmup then Enter(u, Standby) else u
  }

  /** Timer `i` wakes up and goes once round its loop. */
  function RunTimer(u: Unit, i: nat, link: Link): Unit
    requires i < |u.timers|
  {
    var t := u.timers[i];
    if Expired(u, t) then Expire(u.(timers := Removed(u.timers, i)), t, link)
    else if Cancelled(u, t) then u.(timers := Removed(u.timers, i))
    else
      u.(timers := u.timers[i := Ticked(t)])
  }

  /** A tenth of a second passes; a timer whose time has come may be late. */
  function Elapse(u: Unit): Unit
  {
    u.(timers := seq(|u.timers|, i requires 0 <= i < |u.timers| => Sooner(u.timers[i])))
  }

  function Sooner(t: Timer): Timer { if t.wait > 0 then t.(wait := t.wait - 1) else t }
}
