/** The bounded thread pool: workers, threads adding jobs, and the destructor, as interleaved steps. */
module ThreadPool {
  type Job = nat

  /** Where a worker stands in work(). */
  datatype Worker =
    | Checking            // about to test m_quit
    | Entering            // past the test, about to lock
    | Inside              // holds the lock
    | Running(job: Job)   // executes a job, the lock released
    | Sleeping            // waits for the condition variable
    | Woken               // notified, about to lock again
    | Exited

  /** Where a thread stands in addJob(). */
  datatype Adder =
    | Away                // not in addJob
    | Calling(job: Job)   // about to lock
    | Holding(job: Job)   // holds the lock
    | Notifying           // has pushed and unlocked, about to notify one worker

  datatype Phase = Working | Quitting | Notified | Joined

  datatype Pool = Pool(
    workers: seq<Worker>,
    adders: seq<Adder>,
    maxJobs: nat,
    pending: seq<Job>,
    quit: bool,
    phase: Phase,                // of the destructor
    accepted: seq<Job>,          // history: jobs pushed, in order
    popped: seq<Job>,            // history: jobs taken by workers, in order
    executed: multiset<Job>,     // history: jobs executed and deleted
    discarded: seq<Job>)         // history: jobs deleted by the destructor
  {
    predicate LockFree()
    {
      && (forall w :: 0 <= w < |workers| ==> !workers[w].Inside?)
      && (forall a :: 0 <= a < |adders| ==> !adders[a].Holding?)
    }
  }

  datatype Step =
    | Work(w: nat)
    | Spurious(w: nat)
    | Call(a: nat, job: Job)
    | Add(a: nat, notified: nat)   // `notified` is the worker notify_one picks, if one sleeps
    | SetQuit
    | NotifyAll
    | Join
    | Discard

  function Fresh(n: nat, m: nat, maxJobs: nat): Pool
  {
    Pool(seq(n, _ => Checking), seq(m, _ => Away), maxJobs, [], false, Working, [], [], multiset{}, [])
  }

  predicate AnySleeping(p: Pool) { exists w :: 0 <= w < |p.workers| && p.workers[w].Sleeping? }

  predicate AllExited(p: Pool) { forall w :: 0 <= w < |p.workers| ==> p.workers[w].Exited? }

  predicate Enabled(p: Pool, s: Step)
  {
    match s
    case Work(w) =>
      && w < |p.workers| && !p.workers[w].Sleeping? && !p.workers[w].Exited?
      && (p.workers[w].Entering? || p.workers[w].Woken? ==> p.LockFree())
    case Spurious(w) => w < |p.workers| && p.workers[w].Sleeping?
    case Call(a, _) => a < |p.adders| && p.adders[a].Away? && p.phase != Joined
    case Add(a, notified) =>
      && a < |p.adders| && !p.adders[a].Away? && p.phase != Joined
      && (p.adders[a].Calling? ==> p.LockFree())
      && (p.adders[a].Notifying? && AnySleeping(p) ==> notified < |p.workers| && p.workers[notified].Sleeping?)
    case SetQuit => p.phase == Working
    case NotifyAll => p.phase == Quitting
    case Join => p.phase == Notified && AllExited(p)
    case Discard => p.phase == Joined && p.pending != []
  }

  function Worked(p: Pool, w: nat): Pool
    requires Enabled(p, Work(w))
  {
    match p.workers[w]
    case Checking => p.(workers := p.workers[w := if p.quit then Exited else Entering])
    case Entering => p.(workers := p.workers[w := Inside])
    case Inside =>
      if p.pending == [] then p.(workers := p.workers[w := Sleeping])
      else
        var job := p.pending[0];
        p.(workers := p.workers[w := Running(job)], pending := p.pending[1..], popped := p.popped + [job])
    case Running(job) => p.(workers := p.workers[w := Checking], executed := p.executed + multiset{job})
    case Woken => p.(workers := p.workers[w := Checking])
    case _ => p
  }

  function Added(p: Pool, a: nat, notified: nat): Pool
    requires Enabled(p, Add(a, notified))
  {
    match p.adders[a]
    case Calling(job) => p.(adders := p.adders[a := Holding(job)])
    case Holding(job) =>
      if |p.pending| >= p.maxJobs then p.(adders := p.adders[a := Away])   // OpcUa_BadResourceUnavailable
      else
        p.(adders := p.adders[a := Notifying], pending := p.pending + [job], accepted := p.accepted + [job])
    case Notifying =>
      p.(adders := p.adders[a := Away], workers := if AnySleeping(p) then p.workers[notified := Woken] else p.workers)
    case Away => p
  }

  function WakeUp(w: Worker): Worker { if w.Sleeping? then Woken else w }

  function Do(p: Pool, s: Step): Pool
    requires Enabled(p, s)
  {
    match s
    case Work(w) => Worked(p, w)
    case Spurious(w) => p.(workers := p.workers[w := Woken])
    case Call(a, job) => p.(adders := p.adders[a := Calling(job)])
    case Add(a, notified) => Added(p, a, notified)
    case SetQuit => p.(quit := true, phase := Quitting)
    case NotifyAll =>
      p.(workers := seq(|p.workers|, w requires 0 <= w < |p.workers| => WakeUp(p.workers[w])), phase := Notified)
    case Join => p.(phase := Joined)
    case Discard => p.(pending := p.pending[1..], discarded := p.discarded + [p.pending[0]])
  }

  predicate Possible(p: Pool, ss: seq<Step>)
    decreases |ss|
  {
    ss != [] ==> Enabled(p, ss[0]) && Possible(Do(p, ss[0]), ss[1..])
  }

  function Final(p: Pool, ss: seq<Step>): Pool
    requires Possible(p, ss)
    decreases |ss|
  {
    if ss == [] then p else Final(Do(p, ss[0]), ss[1..])
  }

  // ----- counting -----

  function Count<T>(f: T -> bool, s: seq<T>): (r: nat)
    ensures r <= |s|
  {
    if s == [] then 0 else Count(f, s[..|s| - 1]) + (if f(s[|s| - 1]) then 1 else 0)
  }

  lemma {:induction false} CountUpdated<T>(f: T -> bool, s: seq<T>, i: nat, x: T)
    requires i < |s|
    ensures Count(f, s[i := x]) == Count(f, s) - (if f(s[i]) then 1 else 0) + (if f(x) then 1 else 0)
  {
    var n := |s| - 1;
    if i < n {
      CountUpdated(f, s[..n], i, x);
      assert s[i := x][..n] == s[..n][i := x];
    } else {
      assert s[i := x][..n] == s[..n];
    }
  }

  lemma {:induction false} CountZero<T>(f: T -> bool, s: seq<T>)
    ensures Count(f, s) == 0 <==> forall i :: 0 <= i < |s| ==> !f(s[i])
  {
    if s != [] {
      var n := |s| - 1;
      CountZero(f, s[..n]);
      assert forall i :: 0 <= i < n ==> s[..n][i] == s[i];
    }
  }

  /** A worker that will look at the queue before it sleeps again. */
  const HEADING := (w: Worker) => w.Checking? || w.Entering? || w.Inside? || w.Woken?

  const ABOUT_TO_NOTIFY := (a: Adder) => a.Notifying?

  // ----- no job waits for nobody -----

  /** Where a worker sleeps, every pending job has somebody on the way to it. */
  predicate Attended(p: Pool)
  {
    !p.quit && AnySleeping(p) ==> |p.pending| <= Count(HEADING, p.workers) + Count(ABOUT_TO_NOTIFY, p.adders)
  }

  lemma WorkKeepsAttended(p: Pool, w: nat)
    requires Attended(p) && Enabled(p, Work(w))
    ensures Attended(Worked(p, w))
  {
    var q := Worked(p, w);
    CountUpdated(HEADING, p.workers, w, q.workers[w]);
    if AnySleeping(q) && !q.quit && !(p.workers[w].Inside? && p.pending == []) {
      var v :| 0 <= v < |q.workers| && q.workers[v].Sleeping?;
      assert p.workers[v].Sleeping?;
    }
  }

  lemma AddKeepsAttended(p: Pool, a: nat, notified: nat)
    requires Attended(p) && Enabled(p, Add(a, notified))
    ensures Attended(Added(p, a, notified))
  {
    var q := Added(p, a, notified);
    CountUpdated(ABOUT_TO_NOTIFY, p.adders, a, q.adders[a]);
    if AnySleeping(q) {
      var v :| 0 <= v < |q.workers| && q.workers[v].Sleeping?;
      assert p.workers[v].Sleeping?;
      if p.adders[a].Notifying? {
        CountUpdated(HEADING, p.workers, notified, Woken);
      }
    }
  }

  lemma StepKeepsAttended(p: Pool, s: Step)
    requires Attended(p) && Enabled(p, s)
    ensures Attended(Do(p, s))
  {
    match s
    case Work(w) => WorkKeepsAttended(p, w);
    case Spurious(w) => CountUpdated(HEADING, p.workers, w, Woken);
    case Call(a, job) =>
      CountUpdated(ABOUT_TO_NOTIFY, p.adders, a, Calling(job));
      assert AnySleeping(Do(p, s)) == AnySleeping(p);
    case Add(a, notified) => AddKeepsAttended(p, a, notified);
    case SetQuit =>
    case NotifyAll => assert !AnySleeping(Do(p, s));
    case Join =>
    case Discard => assert AnySleeping(Do(p, s)) == AnySleeping(p);
  }

  // ----- conservation of jobs, and the lock -----

  const HAS_LOCK := (w: Worker) => w.Inside?

  const ADDER_HAS_LOCK := (a: Adder) => a.Holding?

  function Doing(j: Job): Worker -> bool { w => w == Running(j) }

  /** How many workers are executing job `j`. */
  function InFlight(p: Pool, j: Job): nat { Count(Doing(j), p.workers) }

  /** At most one thread holds the lock. */
  predicate LockOk(p: Pool) { Count(HAS_LOCK, p.workers) + Count(ADDER_HAS_LOCK, p.adders) <= 1 }

  predicate JobsOk(p: Pool)
  {
    && |p.pending| <= p.maxJobs
    && p.accepted == p.popped + p.discarded + p.pending
    && (p.discarded != [] ==> p.phase == Joined)
    && (p.phase == Joined ==> AllExited(p))
    && (p.quit <==> p.phase != Working)
  }

  /** A job that was taken is being executed or was executed. */
  predicate Balanced(p: Pool, j: Job) { multiset(p.popped)[j] == p.executed[j] + InFlight(p, j) }

  predicate Inv(p: Pool) { Attended(p) && LockOk(p) && JobsOk(p) }

  lemma AddKeepsLock(p: Pool, a: nat, notified: nat)
    requires LockOk(p) && Enabled(p, Add(a, notified))
    ensures LockOk(Added(p, a, notified))
  {
    CountZero(HAS_LOCK, p.workers);
    CountZero(ADDER_HAS_LOCK, p.adders);
    CountUpdated(ADDER_HAS_LOCK, p.adders, a, Added(p, a, notified).adders[a]);
    if p.adders[a].Notifying? && AnySleeping(p) {
      CountUpdated(HAS_LOCK, p.workers, notified, Woken);
    }
  }

  lemma StepKeepsLock(p: Pool, s: Step)
    requires LockOk(p) && Enabled(p, s)
    ensures LockOk(Do(p, s))
  {
    var q := Do(p, s);
    CountZero(HAS_LOCK, p.workers);
    CountZero(ADDER_HAS_LOCK, p.adders);
    match s
    case Work(w) =>
      CountUpdated(HAS_LOCK, p.workers, w, q.workers[w]);
      assert q.adders == p.adders;
    case Spurious(w) => CountUpdated(HAS_LOCK, p.workers, w, Woken);
    case Call(a, job) => CountUpdated(ADDER_HAS_LOCK, p.adders, a, Calling(job));
    case Add(a, notified) => AddKeepsLock(p, a, notified);
    case NotifyAll => SameCount(HAS_LOCK, p.workers, q.workers);
    case _ =>
  }

  lemma {:induction false} SameCount<T>(f: T -> bool, s: seq<T>, r: seq<T>)
    requires |s| == |r| && forall i :: 0 <= i < |s| ==> f(s[i]) == f(r[i])
    ensures Count(f, s) == Count(f, r)
  {
    if s != [] {
      var n := |s| - 1;
      assert forall i :: 0 <= i < n ==> s[..n][i] == s[i] && r[..n][i] == r[i];
      SameCount(f, s[..n], r[..n]);
    }
  }

  lemma FrontMoves(popped: seq<Job>, pending: seq<Job>)
    requires pending != []
    ensures popped + [pending[0]] + pending[1..] == popped + pending
  {
  }

  lemma WorkKeepsJobs(p: Pool, w: nat)
    requires JobsOk(p) && Enabled(p, Work(w))
    ensures JobsOk(Worked(p, w))
  {
    if p.workers[w].Inside? && p.pending != [] {
      assert p.phase != Joined && p.discarded == [];
      FrontMoves(p.popped, p.pending);
    }
  }

  lemma StepKeepsJobs(p: Pool, s: Step)
    requires JobsOk(p) && Enabled(p, s)
    ensures JobsOk(Do(p, s))
  {
    match s
    case Work(w) => WorkKeepsJobs(p, w);
    case Discard => FrontMoves(p.popped + p.discarded, p.pending);
    case _ =>
  }

  lemma WorkKeepsBalance(p: Pool, w: nat, j: Job)
    requires Balanced(p, j) && Enabled(p, Work(w))
    ensures Balanced(Worked(p, w), j)
  {
    CountUpdated(Doing(j), p.workers, w, Worked(p, w).workers[w]);
    if p.workers[w].Inside? && p.pending != [] {
      PoppedOnce(p.popped, p.pending[0], j);
    }
  }

  lemma PoppedOnce(popped: seq<Job>, job: Job, j: Job)
    ensures multiset(popped + [job])[j] == multiset(popped)[j] + (if j == job then 1 else 0)
  {
  }

  lemma StepKeepsBalance(p: Pool, s: Step, j: Job)
    requires Balanced(p, j) && Enabled(p, s)
    ensures Balanced(Do(p, s), j)
  {
    var q := Do(p, s);
    match s
    case Work(w) => WorkKeepsBalance(p, w, j);
    case Spurious(w) => CountUpdated(Doing(j), p.workers, w, Woken);
    case Add(a, notified) =>
      if p.adders[a].Notifying? && AnySleeping(p) {
        CountUpdated(Doing(j), p.workers, notified, Woken);
      }
    case NotifyAll => SameCount(Doing(j), p.workers, q.workers);
    case _ =>
  }

  lemma {:induction false} RunKeepsInv(p: Pool, ss: seq<Step>)
    requires Inv(p) && Possible(p, ss)
    ensures Inv(Final(p, ss))
    decreases |ss|
  {
    if ss != [] {
      StepKeepsAttended(p, ss[0]);
      StepKeepsLock(p, ss[0]);
      StepKeepsJobs(p, ss[0]);
      RunKeepsInv(Do(p, ss[0]), ss[1..]);
    }
  }

  lemma {:induction false} RunKeepsBalance(p: Pool, ss: seq<Step>, j: Job)
    requires Balanced(p, j) && Possible(p, ss)
    ensures Balanced(Final(p, ss), j)
    decreases |ss|
  {
    if ss != [] {
      StepKeepsBalance(p, ss[0], j);
      RunKeepsBalance(Do(p, ss[0]), ss[1..], j);
    }
  }

  lemma FreshIsOk(n: nat, m: nat, maxJobs: nat)
    ensures Inv(Fresh(n, m, maxJobs))
  {
    var p := Fresh(n, m, maxJobs);
    CountZero(HAS_LOCK, p.workers);
    CountZero(ADDER_HAS_LOCK, p.adders);
  }

  /** Jobs leave in the order they were accepted, and the queue never exceeds its limit. */
  lemma JobsLeaveInOrder(n: nat, m: nat, maxJobs: nat, ss: seq<Step>)
    requires Possible(Fresh(n, m, maxJobs), ss)
    ensures var p := Final(Fresh(n, m, maxJobs), ss);
            |p.pending| <= p.maxJobs && p.accepted == p.popped + p.discarded + p.pending
  {
    FreshIsOk(n, m, maxJobs);
    RunKeepsInv(Fresh(n, m, maxJobs), ss);
  }

  /** Every acceptance of a job is accounted for: the job is pending, in flight, executed or discarded.
      Once the destructor is through, it is executed or discarded. */
  lemma JobsAreConserved(n: nat, m: nat, maxJobs: nat, ss: seq<Step>, j: Job)
    requires Possible(Fresh(n, m, maxJobs), ss)
    ensures var p := Final(Fresh(n, m, maxJobs), ss);
            && multiset(p.accepted)[j]
               == multiset(p.pending)[j] + InFlight(p, j) + p.executed[j] + multiset(p.discarded)[j]
            && (p.phase == Joined && p.pending == [] ==>
                  multiset(p.accepted)[j] == p.executed[j] + multiset(p.discarded)[j])
  {
    var start := Fresh(n, m, maxJobs);
    FreshIsOk(n, m, maxJobs);
    CountZero(Doing(j), start.workers);
    RunKeepsInv(start, ss);
    RunKeepsBalance(start, ss, j);
    var p := Final(start, ss);
    CountZero(Doing(j), p.workers);
  }

  /** Before the destructor starts: where jobs are pending and there is a worker, a worker is awake or a
      thread is between its push and its notify_one. */
  lemma NoLostWakeup(n: nat, m: nat, maxJobs: nat, ss: seq<Step>)
    requires n > 0 && Possible(Fresh(n, m, maxJobs), ss)
    ensures var p := Final(Fresh(n, m, maxJobs), ss);
            !p.quit && p.pending != [] ==>
              || (exists w :: 0 <= w < |p.workers| && !p.workers[w].Sleeping? && !p.workers[w].Exited?)
              || (exists a :: 0 <= a < |p.adders| && p.adders[a].Notifying?)
  {
    FreshIsOk(n, m, maxJobs);
    RunKeepsInv(Fresh(n, m, maxJobs), ss);
    var p := Final(Fresh(n, m, maxJobs), ss);
    NobodyExits(Fresh(n, m, maxJobs), ss);
    if !p.quit && p.pending != [] && forall w :: 0 <= w < |p.workers| ==> p.workers[w].Sleeping? {
      assert p.workers[0].Sleeping?;
      CountZero(HEADING, p.workers);
      CountZero(ABOUT_TO_NOTIFY, p.adders);
    }
  }

  lemma {:induction false} NobodyExits(p: Pool, ss: seq<Step>)
    requires Possible(p, ss) && (!p.quit ==> forall w :: 0 <= w < |p.workers| ==> !p.workers[w].Exited?)
    ensures |Final(p, ss).workers| == |p.workers|
    ensures !Final(p, ss).quit ==> forall w :: 0 <= w < |p.workers| ==> !Final(p, ss).workers[w].Exited?
    decreases |ss|
  {
    if ss != [] {
      NobodyExits(Do(p, ss[0]), ss[1..]);
    }
  }

  /** The pool never blocks: as long as jobs are pending before the destructor starts, a worker or an
      adding thread can take a step, and no spurious wakeup is needed for it. */
  lemma NeverBlocked(n: nat, m: nat, maxJobs: nat, ss: seq<Step>)
    requires n > 0 && Possible(Fresh(n, m, maxJobs), ss)
    ensures var p := Final(Fresh(n, m, maxJobs), ss);
            !p.quit && p.pending != [] ==>
              (exists w :: Enabled(p, Work(w))) || (exists a, v :: Enabled(p, Add(a, v)))
  {
    NoLostWakeup(n, m, maxJobs, ss);
    FreshIsOk(n, m, maxJobs);
    RunKeepsInv(Fresh(n, m, maxJobs), ss);
    var p := Final(Fresh(n, m, maxJobs), ss);
    if !p.quit && p.pending != [] {
      if p.LockFree() {
        if w :| 0 <= w < |p.workers| && !p.workers[w].Sleeping? && !p.workers[w].Exited? {
          assert Enabled(p, Work(w));
        } else {
          var a :| 0 <= a < |p.adders| && p.adders[a].Notifying?;
          assert Enabled(p, Add(a, if AnySleeping(p) then Sleeper(p) else 0));
        }
      } else if w :| 0 <= w < |p.workers| && p.workers[w].Inside? {
        assert Enabled(p, Work(w));
      } else {
        var a :| 0 <= a < |p.adders| && p.adders[a].Holding?;
        assert Enabled(p, Add(a, 0));
      }
    }
  }

  ghost function Sleeper(p: Pool): nat
    requires AnySleeping(p)
  {
    var w :| 0 <= w < |p.workers| && p.workers[w].Sleeping?; w
  }

  // ----- jobs are accepted where there is room, and executed in order -----

  /** A thread that calls addJob with job `j` and has no answer yet. */
  function Asking(j: Job): Adder -> bool { a => a == Calling(j) || a == Holding(j) }

  predicate Asks(s: Step, j: Job) { s.Call? && s.job == j }

  /** The step in which a call of addJob with job `j` returns the error. */
  predicate Refuses(p: Pool, s: Step, j: Job)
    requires Enabled(p, s)
  {
    s.Add? && p.adders[s.a] == Holding(j) && Do(p, s).adders[s.a] == Away
  }

  function Asked(ss: seq<Step>, j: Job): nat
  {
    if ss == [] then 0 else (if Asks(ss[0], j) then 1 else 0) + Asked(ss[1..], j)
  }

  function Refused(p: Pool, ss: seq<Step>, j: Job): nat
    requires Possible(p, ss)
    decreases |ss|
  {
    if ss == [] then 0 else (if Refuses(p, ss[0], j) then 1 else 0) + Refused(Do(p, ss[0]), ss[1..], j)
  }

  /** How often job `j` was accepted or is still being asked for. */
  function Taken(p: Pool, j: Job): nat { multiset(p.accepted)[j] + Count(Asking(j), p.adders) }

  lemma AddAnswers(p: Pool, a: nat, notified: nat, j: Job)
    requires Enabled(p, Add(a, notified))
    ensures Taken(Added(p, a, notified), j) + (if Refuses(p, Add(a, notified), j) then 1 else 0) == Taken(p, j)
  {
    CountUpdated(Asking(j), p.adders, a, Added(p, a, notified).adders[a]);
    if p.adders[a].Holding? && |p.pending| < p.maxJobs {
      PoppedOnce(p.accepted, p.adders[a].job, j);
    }
  }

  lemma StepAnswers(p: Pool, s: Step, j: Job)
    requires Enabled(p, s)
    ensures Taken(Do(p, s), j) + (if Refuses(p, s, j) then 1 else 0) == Taken(p, j) + (if Asks(s, j) then 1 else 0)
  {
    match s
    case Call(a, job) => CountUpdated(Asking(j), p.adders, a, Calling(job));
    case Add(a, notified) => AddAnswers(p, a, notified, j);
    case _ =>
  }

  lemma {:induction false} RunAnswers(p: Pool, ss: seq<Step>, j: Job)
    requires Possible(p, ss)
    ensures Taken(Final(p, ss), j) + Refused(p, ss, j) == Taken(p, j) + Asked(ss, j)
    decreases |ss|
  {
    if ss != [] {
      StepAnswers(p, ss[0], j);
      RunAnswers(Do(p, ss[0]), ss[1..], j);
    }
  }

  /** In every run each call of addJob is accepted, refused, or still without an answer. */
  lemma EveryCallIsAnswered(n: nat, m: nat, maxJobs: nat, ss: seq<Step>, j: Job)
    requires Possible(Fresh(n, m, maxJobs), ss)
    ensures var p := Final(Fresh(n, m, maxJobs), ss);
            Asked(ss, j) == multiset(p.accepted)[j] + Refused(Fresh(n, m, maxJobs), ss, j) + Count(Asking(j), p.adders)
  {
    CountZero(Asking(j), Fresh(n, m, maxJobs).adders);
    RunAnswers(Fresh(n, m, maxJobs), ss, j);
  }

  /** And it is refused exactly when the queue holds as many jobs as it may at that moment. */
  lemma RefusedExactlyWhenFull(n: nat, m: nat, maxJobs: nat, ss: seq<Step>, s: Step, j: Job)
    requires Possible(Fresh(n, m, maxJobs), ss) && Enabled(Final(Fresh(n, m, maxJobs), ss), s)
    requires s.Add? && Final(Fresh(n, m, maxJobs), ss).adders[s.a] == Holding(j)
    ensures var p := Final(Fresh(n, m, maxJobs), ss);
            Refuses(p, s, j) <==> |p.pending| == maxJobs
  {
    FreshIsOk(n, m, maxJobs);
    RunKeepsInv(Fresh(n, m, maxJobs), ss);
    SameLimit(Fresh(n, m, maxJobs), ss);
  }

  lemma {:induction false} SameLimit(p: Pool, ss: seq<Step>)
    requires Possible(p, ss)
    ensures Final(p, ss).maxJobs == p.maxJobs
    decreases |ss|
  {
    if ss != [] {
      SameLimit(Do(p, ss[0]), ss[1..]);
    }
  }

  /** Nobody but worker `w` holds the lock. */
  predicate OthersOutside(p: Pool, w: nat)
  {
    && (forall v :: 0 <= v < |p.workers| && v != w ==> !p.workers[v].Inside?)
    && (forall a :: 0 <= a < |p.adders| ==> !p.adders[a].Holding?)
  }

  function Stage(w: Worker): nat
  {
    match w case Running(_) => 3 case Checking => 2 case Entering => 1 case _ => 0
  }

  predicate Draining(p: Pool, w: nat)
  {
    && !p.quit && w < |p.workers| && OthersOutside(p, w)
    && (p.workers[w].Running? || p.workers[w].Checking?
        || (p.pending != [] && (p.workers[w].Entering? || p.workers[w].Inside?)))
  }

  /** In `q` the worker has executed what it was executing in `p`, and all that was pending, in order. */
  predicate Drained(p: Pool, w: nat, q: Pool)
    requires w < |p.workers|
  {
    && q.pending == [] && q.popped == p.popped + p.pending && q.accepted == p.accepted
    && q.executed == p.executed + JobsOf(p.workers[w]) + multiset(p.pending)
  }

  lemma DrainStep(p: Pool, w: nat)
    requires Draining(p, w) && (p.pending != [] || !p.workers[w].Checking?)
    ensures Enabled(p, Work(w)) && Draining(Worked(p, w), w)
    ensures |Worked(p, w).pending| < |p.pending|
         || (Worked(p, w).pending == p.pending && Stage(Worked(p, w).workers[w]) < Stage(p.workers[w]))
  {
    forall v | 0 <= v < |p.workers| && v != w ensures Worked(p, w).workers[v] == p.workers[v] {}
  }

  lemma DrainedOneEarlier(p: Pool, w: nat, q: Pool)
    requires Draining(p, w) && (p.pending != [] || !p.workers[w].Checking?) && Enabled(p, Work(w))
    requires Drained(Worked(p, w), w, q)
    ensures Drained(p, w, q)
  {
    if p.workers[w].Inside? {
      assert p.pending == [p.pending[0]] + p.pending[1..];
      assert p.popped + [p.pending[0]] + p.pending[1..] == p.popped + p.pending;
      assert multiset(p.pending) == multiset{p.pending[0]} + multiset(p.pending[1..]);
    }
  }

  /** A single worker, left alone before the destructor starts, executes the whole queue in order. */
  lemma {:induction false} OneWorkerDrains(p: Pool, w: nat) returns (ss: seq<Step>)
    requires Draining(p, w)
    ensures Possible(p, ss) && forall k :: 0 <= k < |ss| ==> ss[k] == Work(w)
    ensures Drained(p, w, Final(p, ss))
    decreases |p.pending|, Stage(p.workers[w])
  {
    ss := [];
    if !p.workers[w].Checking? || p.pending != [] {
      DrainStep(p, w);
      var rest := OneWorkerDrains(Worked(p, w), w);
      ss := [Work(w)] + rest;
      assert ss[1..] == rest;
      OneMoreStep(p, ss, Final(Worked(p, w), rest));
      DrainedOneEarlier(p, w, Final(p, ss));
    }
  }

  function JobsOf(w: Worker): multiset<Job> { if w.Running? then multiset{w.job} else multiset{} }

  // ----- the destructor's notify_all -----

  /** A worker past its test of m_quit that has not looked at the queue yet. */
  const BETWEEN := (w: Worker) => w.Entering? || w.Inside?

  const ASLEEP := (w: Worker) => w.Sleeping?

  /** A thread in addJob that has not looked at the queue yet. */
  const ASKING := (a: Adder) => a.Calling? || a.Holding?

  /** The destructor has notified, and waits for the workers. */
  predicate Ending(p: Pool) { p.quit && p.phase == Notified && LockOk(p) && |p.pending| <= p.maxJobs }

  predicate JustNotified(p: Pool) { Ending(p) && !AnySleeping(p) }

  /** Only the workers and the threads already in addJob move, and without spurious wakeups. */
  predicate NoNewCalls(ss: seq<Step>) { forall k :: 0 <= k < |ss| ==> ss[k].Work? || ss[k].Add? }

  lemma StepKeepsEnding(p: Pool, s: Step)
    requires Ending(p) && Enabled(p, s) && (s.Work? || s.Add?)
    ensures Ending(Do(p, s)) && |Do(p, s).workers| == |p.workers| && Do(p, s).maxJobs == p.maxJobs
  {
    StepKeepsLock(p, s);
  }

  // ----- everything comes to rest -----

  /** How many steps a worker may still take once m_quit is set, if nobody wakes it. */
  function StepsLeft(w: Worker): nat
  {
    match w
    case Entering => 4
    case Inside => 3
    case Running(_) => 2
    case Woken => 2
    case Checking => 1
    case _ => 0
  }

  /** The same for a thread in addJob, the steps of the worker it wakes included. */
  function StepsToCome(a: Adder): nat
  {
    match a
    case Calling(_) => 5
    case Holding(_) => 4
    case Notifying => 3
    case Away => 0
  }

  function Sum<T>(f: T -> nat, s: seq<T>): nat { if s == [] then 0 else Sum(f, s[..|s| - 1]) + f(s[|s| - 1]) }

  lemma {:induction false} SumUpdated<T>(f: T -> nat, s: seq<T>, i: nat, x: T)
    requires i < |s|
    ensures Sum(f, s[i := x]) == Sum(f, s) - f(s[i]) + f(x)
  {
    var n := |s| - 1;
    if i < n {
      SumUpdated(f, s[..n], i, x);
      assert s[i := x][..n] == s[..n][i := x];
    } else {
      assert s[i := x][..n] == s[..n];
    }
  }

  function AllSteps(p: Pool): nat { Sum(StepsLeft, p.workers) + Sum(StepsToCome, p.adders) }

  lemma StepsRunOut(p: Pool, s: Step)
    requires p.quit && Enabled(p, s) && (s.Work? || s.Add?)
    ensures AllSteps(Do(p, s)) < AllSteps(p)
  {
    match s
    case Work(w) => SumUpdated(StepsLeft, p.workers, w, Worked(p, w).workers[w]);
    case Add(a, notified) =>
      SumUpdated(StepsToCome, p.adders, a, Added(p, a, notified).adders[a]);
      if p.adders[a].Notifying? && AnySleeping(p) {
        SumUpdated(StepsLeft, p.workers, notified, Woken);
      }
  }

  /** Once m_quit is set and nobody calls addJob any more, the pool comes to rest, however its threads interleave. */
  lemma {:induction false} PoolComesToRest(p: Pool, ss: seq<Step>)
    requires p.quit && Possible(p, ss) && NoNewCalls(ss)
    ensures |ss| <= AllSteps(p)
    decreases |ss|
  {
    if ss != [] {
      StepsRunOut(p, ss[0]);
      assert forall k :: 0 <= k < |ss[1..]| ==> ss[1..][k] == ss[k + 1];
      PoolComesToRest(Do(p, ss[0]), ss[1..]);
    }
  }

  /** No worker and no thread in addJob can move. */
  ghost predicate AtRest(p: Pool)
  {
    && (forall w :: 0 <= w < |p.workers| ==> !Enabled(p, Work(w)))
    && (forall a, v: nat :: 0 <= a < |p.adders| ==> !Enabled(p, Add(a, v)))
  }

  lemma AtRestNobodyIsActive(p: Pool)
    requires AtRest(p) && p.phase != Joined
    ensures forall w :: 0 <= w < |p.workers| ==> p.workers[w].Sleeping? || p.workers[w].Exited?
    ensures forall a :: 0 <= a < |p.adders| ==> p.adders[a].Away?
    ensures Count(BETWEEN, p.workers) == 0 && Count(ASKING, p.adders) == 0 && Count(ABOUT_TO_NOTIFY, p.adders) == 0
  {
    var v: nat := if AnySleeping(p) then Sleeper(p) else 0;
    forall a | 0 <= a < |p.adders| ensures !p.adders[a].Notifying? && !p.adders[a].Holding? {
      assert !Enabled(p, Add(a, v));
    }
    forall w | 0 <= w < |p.workers| ensures !p.workers[w].Inside? {
      assert !Enabled(p, Work(w));
    }
    assert p.LockFree();
    forall w | 0 <= w < |p.workers| ensures p.workers[w].Sleeping? || p.workers[w].Exited? {
      assert !Enabled(p, Work(w));
    }
    forall a | 0 <= a < |p.adders| ensures p.adders[a].Away? {
      assert !Enabled(p, Add(a, v));
    }
    CountZero(BETWEEN, p.workers);
    CountZero(ASKING, p.adders);
    CountZero(ABOUT_TO_NOTIFY, p.adders);
  }

  // ----- who is left asleep -----

  function Excess(a: nat, b: nat): nat { if a > b then a - b else 0 }

  function Least(a: nat, b: nat): nat { if a < b then a else b }

  /** Jobs that still fit into the queue; one more where a worker is about to take one out. */
  function Room(p: Pool): nat
    requires |p.pending| <= p.maxJobs
  {
    p.maxJobs - |p.pending| + if Count(HAS_LOCK, p.workers) > 0 && p.pending != [] then 1 else 0
  }

  /** Sleepers that no notification under way will wake, and workers that will find no job. */
  function Need(p: Pool): nat
  {
    Excess(Count(ASLEEP, p.workers), Count(ABOUT_TO_NOTIFY, p.adders)) + Excess(Count(BETWEEN, p.workers), |p.pending|)
  }

  /** Calls of addJob that will find room. */
  function Help(p: Pool): nat
    requires |p.pending| <= p.maxJobs
  {
    Least(Count(ASKING, p.adders), Room(p))
  }

  /** Counting with one more or one less. */
  function Moved(n: int, was: bool, now: bool): int { n - (if was then 1 else 0) + (if now then 1 else 0) }

  lemma WorkerCounts(p: Pool, w: nat, x: Worker)
    requires w < |p.workers|
    ensures var ws, before := p.workers[w := x], p.workers[w];
            && Count(BETWEEN, ws) == Moved(Count(BETWEEN, p.workers), BETWEEN(before), BETWEEN(x))
            && Count(ASLEEP, ws) == Moved(Count(ASLEEP, p.workers), ASLEEP(before), ASLEEP(x))
            && Count(HAS_LOCK, ws) == Moved(Count(HAS_LOCK, p.workers), HAS_LOCK(before), HAS_LOCK(x))
  {
    CountUpdated(BETWEEN, p.workers, w, x);
    CountUpdated(ASLEEP, p.workers, w, x);
    CountUpdated(HAS_LOCK, p.workers, w, x);
  }

  lemma AdderCounts(p: Pool, a: nat, x: Adder)
    requires a < |p.adders|
    ensures var us, before := p.adders[a := x], p.adders[a];
            && Count(ASKING, us) == Moved(Count(ASKING, p.adders), ASKING(before), ASKING(x))
            && Count(ABOUT_TO_NOTIFY, us) == Moved(Count(ABOUT_TO_NOTIFY, p.adders), before.Notifying?, x.Notifying?)
            && Count(ADDER_HAS_LOCK, us) == Moved(Count(ADDER_HAS_LOCK, p.adders), before.Holding?, x.Holding?)
  {
    CountUpdated(ASKING, p.adders, a, x);
    CountUpdated(ABOUT_TO_NOTIFY, p.adders, a, x);
    CountUpdated(ADDER_HAS_LOCK, p.adders, a, x);
  }

  lemma SleepersCounted(p: Pool)
    ensures AnySleeping(p) <==> Count(ASLEEP, p.workers) > 0
  {
    CountZero(ASLEEP, p.workers);
  }

  lemma LookKeepsEnough(p: Pool, w: nat)
    requires Ending(p) && Enabled(p, Work(w)) && p.workers[w].Inside? && Need(p) <= Help(p)
    ensures |Worked(p, w).pending| <= p.maxJobs && Need(Worked(p, w)) <= Help(Worked(p, w))
  {
    WorkerCounts(p, w, Worked(p, w).workers[w]);
  }

  lemma EnterKeepsEnough(p: Pool, w: nat)
    requires Ending(p) && Enabled(p, Work(w)) && p.workers[w].Entering? && Need(p) <= Help(p)
    ensures Need(Worked(p, w)) <= Help(Worked(p, w))
  {
    WorkerCounts(p, w, Inside);
    CountZero(HAS_LOCK, p.workers);
  }

  lemma ReturnChangesNothing(p: Pool, w: nat)
    requires Ending(p) && Enabled(p, Work(w)) && !BETWEEN(p.workers[w])
    ensures var q := Worked(p, w);
            && q.pending == p.pending && q.adders == p.adders && q.maxJobs == p.maxJobs
            && Count(ASLEEP, q.workers) == Count(ASLEEP, p.workers)
            && Count(BETWEEN, q.workers) == Count(BETWEEN, p.workers)
            && Count(HAS_LOCK, q.workers) == Count(HAS_LOCK, p.workers)
  {
    WorkerCounts(p, w, Worked(p, w).workers[w]);
  }

  lemma WorkKeepsEnough(p: Pool, w: nat)
    requires Ending(p) && Enabled(p, Work(w)) && Need(p) <= Help(p)
    ensures |Worked(p, w).pending| <= p.maxJobs && Need(Worked(p, w)) <= Help(Worked(p, w))
  {
    if p.workers[w].Inside? {
      LookKeepsEnough(p, w);
    } else if p.workers[w].Entering? {
      EnterKeepsEnough(p, w);
    } else {
      ReturnChangesNothing(p, w);
    }
  }

  lemma NotifyCounts(p: Pool, a: nat, notified: nat)
    requires Ending(p) && Enabled(p, Add(a, notified)) && p.adders[a].Notifying?
    ensures var q := Added(p, a, notified);
            && q.pending == p.pending && q.maxJobs == p.maxJobs && Count(ASKING, q.adders) == Count(ASKING, p.adders)
            && Count(ABOUT_TO_NOTIFY, q.adders) == Count(ABOUT_TO_NOTIFY, p.adders) - 1
            && Count(ADDER_HAS_LOCK, q.adders) == Count(ADDER_HAS_LOCK, p.adders)
            && Count(BETWEEN, q.workers) == Count(BETWEEN, p.workers)
            && Count(HAS_LOCK, q.workers) == Count(HAS_LOCK, p.workers)
            && Count(ASLEEP, q.workers) == Excess(Count(ASLEEP, p.workers), 1)
  {
    AdderCounts(p, a, Away);
    SleepersCounted(p);
    if AnySleeping(p) {
      WorkerCounts(p, notified, Woken);
    }
  }

  lemma NotifyKeepsEnough(p: Pool, a: nat, notified: nat)
    requires Ending(p) && Enabled(p, Add(a, notified)) && p.adders[a].Notifying? && Need(p) <= Help(p)
    ensures Need(Added(p, a, notified)) <= Help(Added(p, a, notified))
  {
    NotifyCounts(p, a, notified);
  }

  lemma AddKeepsEnough(p: Pool, a: nat, notified: nat)
    requires Ending(p) && Enabled(p, Add(a, notified)) && Need(p) <= Help(p)
    ensures |Added(p, a, notified).pending| <= p.maxJobs && Need(Added(p, a, notified)) <= Help(Added(p, a, notified))
  {
    if p.adders[a].Notifying? {
      NotifyKeepsEnough(p, a, notified);
    } else {
      AdderCounts(p, a, Added(p, a, notified).adders[a]);
      CountZero(ADDER_HAS_LOCK, p.adders);
    }
  }

  lemma {:induction false} EnoughWakeAll(p: Pool, ss: seq<Step>)
    requires Ending(p) && Need(p) <= Help(p) && Possible(p, ss) && NoNewCalls(ss) && AtRest(Final(p, ss))
    ensures Enabled(Final(p, ss), Join)
    decreases |ss|
  {
    if ss == [] {
      AtRestNobodyIsActive(p);
      SleepersCounted(p);
    } else {
      StepKeepsEnding(p, ss[0]);
      match ss[0] {
        case Work(w) => WorkKeepsEnough(p, w);
        case Add(a, notified) => AddKeepsEnough(p, a, notified);
      }
      assert forall k :: 0 <= k < |ss[1..]| ==> ss[1..][k] == ss[k + 1];
      EnoughWakeAll(Do(p, ss[0]), ss[1..]);
    }
  }

  /** Somebody will be left asleep if the threads move in an unfortunate order: while workers are still on
      the way to the queue, nobody adds a job once one of them sleeps. */
  predicate Lost(p: Pool)
  {
    && Ending(p) && Need(p) > Help(p)
    && (Count(ASLEEP, p.workers) == 0 || Count(BETWEEN, p.workers) == 0
        || (p.pending == [] && Count(ADDER_HAS_LOCK, p.adders) == 0))
  }

  lemma NotifyKeepsLost(p: Pool, a: nat, notified: nat)
    requires Lost(p) && Enabled(p, Add(a, notified)) && p.adders[a].Notifying?
    ensures Lost(Added(p, a, notified))
  {
    StepKeepsEnding(p, Add(a, notified));
    NotifyCounts(p, a, notified);
  }

  /** What the answer to a call does to the numbers. */
  lemma AnswerCounts(p: Pool, a: nat)
    requires Ending(p) && Enabled(p, Add(a, 0)) && p.adders[a].Holding?
    ensures var q := Added(p, a, 0);
            && q.workers == p.workers && q.maxJobs == p.maxJobs && Count(HAS_LOCK, p.workers) == 0
            && Count(ASKING, q.adders) == Count(ASKING, p.adders) - 1
            && var more := if |p.pending| < p.maxJobs then 1 else 0;
               && |q.pending| == |p.pending| + more
               && Count(ABOUT_TO_NOTIFY, q.adders) == Count(ABOUT_TO_NOTIFY, p.adders) + more
  {
    AdderCounts(p, a, Added(p, a, 0).adders[a]);
    CountZero(ADDER_HAS_LOCK, p.adders);
  }

  lemma AnswerKeepsLost(p: Pool, a: nat)
    requires Lost(p) && Enabled(p, Add(a, 0)) && p.adders[a].Holding?
    ensures Lost(Added(p, a, 0))
  {
    StepKeepsEnding(p, Add(a, 0));
    CountZero(ADDER_HAS_LOCK, p.adders);
    AnswerCounts(p, a);
  }

  lemma LookKeepsLost(p: Pool, w: nat)
    requires Lost(p) && Enabled(p, Work(w)) && p.workers[w].Inside?
    requires Count(ABOUT_TO_NOTIFY, p.adders) == 0
    ensures Lost(Worked(p, w))
  {
    StepKeepsEnding(p, Work(w));
    WorkerCounts(p, w, Worked(p, w).workers[w]);
    CountZero(HAS_LOCK, p.workers);
  }

  lemma ReturnKeepsLost(p: Pool, w: nat)
    requires Lost(p) && Enabled(p, Work(w)) && !BETWEEN(p.workers[w])
    ensures Lost(Worked(p, w))
  {
    StepKeepsEnding(p, Work(w));
    ReturnChangesNothing(p, w);
  }

  lemma CallKeepsLost(p: Pool, a: nat)
    requires Lost(p) && Enabled(p, Add(a, 0)) && p.adders[a].Calling?
    requires Count(ASLEEP, p.workers) == 0 || Count(BETWEEN, p.workers) == 0
    ensures Lost(Added(p, a, 0))
  {
    StepKeepsEnding(p, Add(a, 0));
    AdderCounts(p, a, Added(p, a, 0).adders[a]);
  }

  lemma EnterKeepsLost(p: Pool, w: nat)
    requires Lost(p) && Enabled(p, Work(w)) && p.workers[w].Entering?
    requires Count(ASKING, p.adders) == 0 || Count(ASLEEP, p.workers) > 0
    ensures Lost(Worked(p, w))
  {
    StepKeepsEnding(p, Work(w));
    WorkerCounts(p, w, Inside);
    CountZero(HAS_LOCK, p.workers);
    CountZero(BETWEEN, p.workers);
  }

  /** An unfortunate order of the threads can always be continued. */
  lemma LostStep(p: Pool) returns (s: Step)
    requires Lost(p) && !AtRest(p)
    ensures Enabled(p, s) && (s.Work? || s.Add?) && Lost(Do(p, s))
  {
    CountZero(ABOUT_TO_NOTIFY, p.adders);
    if a: nat :| a < |p.adders| && p.adders[a].Notifying? {
      s := Add(a, if AnySleeping(p) then Sleeper(p) else 0);
      NotifyKeepsLost(p, a, s.notified);
    } else if a: nat :| a < |p.adders| && p.adders[a].Holding? {
      s := Add(a, 0);
      AnswerKeepsLost(p, a);
    } else if w: nat :| w < |p.workers| && p.workers[w].Inside? {
      s := Work(w);
      LookKeepsLost(p, w);
    } else if w: nat :| w < |p.workers| && Enabled(p, Work(w)) && !p.workers[w].Entering? {
      s := Work(w);
      ReturnKeepsLost(p, w);
    } else {
      s := LostWithoutLock(p);
    }
  }

  lemma LostWithoutLock(p: Pool) returns (s: Step)
    requires Lost(p) && !AtRest(p) && p.LockFree()
    requires forall a :: 0 <= a < |p.adders| ==> !p.adders[a].Notifying?
    requires forall w :: 0 <= w < |p.workers| && Enabled(p, Work(w)) ==> p.workers[w].Entering?
    ensures Enabled(p, s) && (s.Work? || s.Add?) && Lost(Do(p, s))
  {
    CountZero(ASKING, p.adders);
    CountZero(BETWEEN, p.workers);
    if a: nat :| a < |p.adders| && p.adders[a].Calling?
                 && (Count(ASLEEP, p.workers) == 0 || Count(BETWEEN, p.workers) == 0) {
      s := Add(a, 0);
      CallKeepsLost(p, a);
    } else {
      var w: nat :| w < |p.workers| && p.workers[w].Entering?;
      s := Work(w);
      EnterKeepsLost(p, w);
    }
  }

  lemma {:induction false} LostRun(p: Pool) returns (ss: seq<Step>)
    requires Lost(p)
    ensures Possible(p, ss) && NoNewCalls(ss) && AtRest(Final(p, ss)) && !Enabled(Final(p, ss), Join)
    decreases AllSteps(p)
  {
    ss := [];
    if AtRest(p) {
      AtRestNobodyIsActive(p);
      SleepersCounted(p);
    } else {
      var s := LostStep(p);
      StepsRunOut(p, s);
      var rest := LostRun(Do(p, s));
      ss := [s] + rest;
      assert ss[1..] == rest;
      OneMoreStep(p, ss, Final(Do(p, s), rest));
    }
  }

  /** However the threads go on from here, the destructor can join the workers when all have come to rest. */
  ghost predicate AlwaysJoined(p: Pool)
  {
    forall ss :: Possible(p, ss) && NoNewCalls(ss) && AtRest(Final(p, ss)) ==> Enabled(Final(p, ss), Join)
  }

  /** Setting m_quit without the lock: after notify_all the workers always leave and can be joined, exactly
      when no more of them are between their test of m_quit and the queue than there are jobs in it and calls
      of addJob under way that will find room. */
  lemma DestructorJoinsExactlyWhen(p: Pool)
    requires JustNotified(p)
    ensures AlwaysJoined(p) <==> Count(BETWEEN, p.workers) <= |p.pending| + Help(p)
  {
    SleepersCounted(p);
    if Count(BETWEEN, p.workers) <= |p.pending| + Help(p) {
      forall ss | Possible(p, ss) && NoNewCalls(ss) && AtRest(Final(p, ss)) ensures Enabled(Final(p, ss), Join) {
        EnoughWakeAll(p, ss);
      }
    } else {
      var ss := LostRun(p);
    }
  }

  /** A worker that sleeps after the notification keeps the destructor from ever joining it. */
  lemma {:induction false} SleeperIsNeverJoined(p: Pool, w: nat, ss: seq<Step>)
    requires p.phase == Notified && w < |p.workers| && p.workers[w].Sleeping? && Possible(p, ss)
    requires forall k :: 0 <= k < |ss| ==> !ss[k].Spurious? && !ss[k].Call? && !ss[k].Add?
    ensures Final(p, ss).phase == Notified
    decreases |ss|
  {
    if ss != [] {
      assert ss[0] == Join ==> !AllExited(p);
      var q := Do(p, ss[0]);
      assert q.workers[w].Sleeping? && q.phase == Notified;
      assert forall k :: 0 <= k < |ss[1..]| ==> ss[1..][k] == ss[k + 1];
      SleeperIsNeverJoined(q, w, ss[1..]);
    }
  }

  /** One worker and no job are enough: the destructor runs between the test of m_quit and the wait. */
  lemma DestructorMayHang(m: nat, maxJobs: nat)
    ensures var ss := [Work(0), SetQuit, NotifyAll, Work(0), Work(0)];
            && Possible(Fresh(1, m, maxJobs), ss)
            && Final(Fresh(1, m, maxJobs), ss).phase == Notified
            && Final(Fresh(1, m, maxJobs), ss).workers == [Sleeping]
  {
    var ss := [Work(0), SetQuit, NotifyAll, Work(0), Work(0)];
    var p0 := Fresh(1, m, maxJobs);
    var p1 := Do(p0, ss[0]);
    var p2 := Do(p1, ss[1]);
    var p3 := Do(p2, ss[2]);
    var p4 := Do(p3, ss[3]);
    var p5 := Do(p4, ss[4]);
    assert p5.workers == [Sleeping] && p5.phase == Notified;
    assert ss[4..][1..] == [] && ss[3..][1..] == ss[4..] && ss[2..][1..] == ss[3..] && ss[1..][1..] == ss[2..];
    OneMoreStep(p4, ss[4..], p5);
    OneMoreStep(p3, ss[3..], p5);
    OneMoreStep(p2, ss[2..], p5);
    OneMoreStep(p1, ss[1..], p5);
    OneMoreStep(p0, ss, p5);
  }

  lemma OneMoreStep(p: Pool, ss: seq<Step>, end: Pool)
    requires ss != [] && Enabled(p, ss[0]) && Possible(Do(p, ss[0]), ss[1..]) && Final(Do(p, ss[0]), ss[1..]) == end
    ensures Possible(p, ss) && Final(p, ss) == end
  {
  }
}
