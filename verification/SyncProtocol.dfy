/** Threads writing sources at the same time. Every push takes the recursive mutex of the parser
    variable it sets, runs the notify loop, and lets go of it on return. */
module SyncProtocol {
  import opened DataValues
  import opened CalcGraph
  import opened CalcEngine
  import opened SyncDomains

  /** Where ParserVariable::setValue stands: before the lock, between two updates, inside an update
      before it publishes, inside an update with the nested setValue running or done. */
  datatype Phase = Waiting | Looping | Updating | Nested

  datatype Frame = Frame(pv: nat, k: nat, phase: Phase)

  /** The nested setValue calls of one thread, the outermost first; empty when the thread is idle. */
  type Stack = seq<Frame>

  /** A source, or computed from something that a write of a source reaches. */
  ghost predicate Driven(g: Graph, p: nat)
    requires Wf(g)
    decreases p
  {
    p < g.Size() && (g.owner[p].None? || exists r: nat :: r < p && Feeds(g, r, p) && Driven(g, r))
  }

  /** Setting `r` updates the calculated variable that `p` listens to. */
  ghost predicate Feeds(g: Graph, r: nat, p: nat)
  {
    p < |g.owner| && g.owner[p].Some? && Edge(g, g.owner[p].value, r, p)
  }

  ghost predicate FrameOk(g: Graph, f: Frame)
    requires Wf(g)
  {
    && Driven(g, f.pv) && f.k <= |g.notify[f.pv]|
    && (f.phase == Waiting ==> f.k == 0)
    && (f.phase == Updating || f.phase == Nested ==> f.k < |g.notify[f.pv]|)
    && (f.phase == Nested ==> g.notify[f.pv][f.k] < |g.calcs| && g.calcs[g.notify[f.pv][f.k]].out.Some?)
  }

  ghost predicate StackOk(g: Graph, s: Stack)
    requires Wf(g)
  {
    && (forall i :: 0 <= i < |s| ==> FrameOk(g, s[i]))
    && (forall i :: 0 <= i < |s| - 1 ==> s[i].phase == Nested && Follows(g, s[i], s[i + 1]))
  }

  /** The frame `next` sets the output of the variable that `f` is updating. */
  ghost predicate Follows(g: Graph, f: Frame, next: Frame)
  {
    && f.pv < |g.notify| && f.k < |g.notify[f.pv]| && g.notify[f.pv][f.k] < |g.calcs|
    && g.calcs[g.notify[f.pv][f.k]].out == Some(next.pv)
  }

  function Top(s: Stack): Frame
    requires s != []
  {
    s[|s| - 1]
  }

  function Below(s: Stack): Stack
    requires s != []
  {
    s[..|s| - 1]
  }

  /** What a thread in the middle of a push does next. */
  ghost function Next(g: Graph, s: Stack): (r: Stack)
    requires Wf(g) && s != [] && StackOk(g, s)
  {
    var f := Top(s);
    assert FrameOk(g, f) && ParserOk(g, f.pv);
    match f.phase
    case Waiting => Below(s) + [f.(phase := Looping)]
    case Looping =>
      if f.k == |g.notify[f.pv]| then Below(s) else Below(s) + [f.(phase := Updating)]
    case Updating =>
      (match g.calcs[g.notify[f.pv][f.k]].out
       case None => Below(s) + [Frame(f.pv, f.k + 1, Looping)]
       case Some(q) => Below(s) + [f.(phase := Nested), Frame(q, 0, Waiting)])
    case Nested => Below(s) + [Frame(f.pv, f.k + 1, Looping)]
  }

  // ----- threads and mutexes -----

  ghost predicate Holds(a: Labels, s: Stack, m: Synchronizer)
  {
    exists i :: 0 <= i < |s| && HeldBy(a, s[i], m)
  }

  ghost predicate HeldBy(a: Labels, f: Frame, m: Synchronizer)
  {
    f.phase != Waiting && f.pv < |a| && a[f.pv] == m
  }

  /** No thread but `t` holds `m`; a recursive mutex asks for no more. */
  ghost predicate FreeFor(a: Labels, ts: seq<Stack>, t: nat, m: Synchronizer)
  {
    forall u :: 0 <= u < |ts| && u != t ==> !Holds(a, ts[u], m)
  }

  ghost predicate Blocked(a: Labels, ts: seq<Stack>, t: nat)
    requires t < |ts|
  {
    && ts[t] != [] && Top(ts[t]).phase == Waiting && Top(ts[t]).pv < |a| && a[Top(ts[t]).pv] != null
    && !FreeFor(a, ts, t, a[Top(ts[t]).pv])
  }

  ghost predicate Starts(g: Graph, s: Stack)
  {
    |s| == 1 && s[0].k == 0 && s[0].phase == Waiting && s[0].pv < g.Size() && g.owner[s[0].pv].None?
  }

  /** Thread `t` takes a step: an idle one begins to set a source, any other goes on unless blocked. */
  ghost predicate Step(g: Graph, a: Labels, ts: seq<Stack>, t: nat, us: seq<Stack>)
    requires Wf(g)
  {
    && t < |ts| == |us| && StackOk(g, ts[t]) && us == ts[t := us[t]]
    && if ts[t] == [] then Starts(g, us[t]) else !Blocked(a, ts, t) && us[t] == Next(g, ts[t])
  }

  ghost predicate Moves(g: Graph, a: Labels, ts: seq<Stack>, us: seq<Stack>)
    requires Wf(g)
  {
    exists t: nat :: Step(g, a, ts, t, us)
  }

  ghost predicate MovesAt(g: Graph, a: Labels, run: seq<seq<Stack>>, i: int)
    requires Wf(g)
  {
    0 <= i < |run| - 1 && Moves(g, a, run[i], run[i + 1])
  }

  /** One state leads to the next, from the first of `run` to the last. */
  ghost predicate IsRun(g: Graph, a: Labels, run: seq<seq<Stack>>)
    requires Wf(g)
  {
    run != [] && forall i :: 0 <= i < |run| - 1 ==> MovesAt(g, a, run, i)
  }

  ghost predicate Leads(g: Graph, a: Labels, ts: seq<Stack>, us: seq<Stack>)
    requires Wf(g)
  {
    exists run :: IsRun(g, a, run) && run[0] == ts && run[|run| - 1] == us
  }

  function Idle(n: nat): (r: seq<Stack>)
    ensures |r| == n && forall t :: 0 <= t < n ==> r[t] == []
  {
    seq(n, _ => [])
  }

  ghost predicate Reachable(g: Graph, a: Labels, ts: seq<Stack>)
    requires Wf(g)
  {
    Leads(g, a, Idle(|ts|), ts)
  }

  /** The labels are what the setup of the synchronization domains leaves. */
  ghost predicate Domains(g: Graph, a: Labels)
  {
    |a| == g.Size() && OnePerPart(g, a, PartsFrom(g, 0))
  }

  // ----- every stack stays inside one domain -----

  lemma DrivenIsMoving(g: Graph, p: nat)
    requires Wf(g) && Driven(g, p)
    ensures Moving(g, p)
  {
    if g.owner[p].Some? {
      var r: nat :| r < p && Feeds(g, r, p) && Driven(g, r);
    }
  }

  lemma NextDriven(g: Graph, p: nat, k: nat, q: nat)
    requires Wf(g) && Driven(g, p) && k < |g.notify[p]|
    requires g.notify[p][k] < |g.calcs| && g.calcs[g.notify[p][k]].out == Some(q)
    ensures p < q && Driven(g, q) && Adjacent(g, p, q)
  {
    var c := g.notify[p][k];
    assert ParserOk(g, p) && CalcOk(g, c);
    assert Edge(g, c, p, q) && Feeds(g, p, q);
  }

  lemma NotifyingIsLabelled(g: Graph, a: Labels, p: nat)
    requires Wf(g) && Domains(g, a) && Driven(g, p) && g.notify[p] != []
    ensures a[p] != null
  {
    assert ParserOk(g, p) && CalcOk(g, g.notify[p][0]);
    DrivenIsMoving(g, p);
    ConnectedToItself(g, p);
    var j :| 0 <= j < |g.listed| && g.listed[j] == p;
    assert Live(g, g.listed[j]) && Part(g, p) in PartsFrom(g, 0) && p in Part(g, p);
  }

  lemma SameDomainBelow(g: Graph, a: Labels, p: nat, k: nat, q: nat)
    requires Wf(g) && Domains(g, a) && Driven(g, p) && k < |g.notify[p]|
    requires g.notify[p][k] < |g.calcs| && g.calcs[g.notify[p][k]].out == Some(q)
    ensures p < q && Driven(g, q) && a[q] == a[p] && a[p] != null
  {
    NextDriven(g, p, k, q);
    DrivenIsMoving(g, q);
    NotifyingIsLabelled(g, a, p);
  }

  /** However deep a push is nested, it needs one mutex only. */
  lemma {:induction false} OneMutex(g: Graph, a: Labels, s: Stack, i: nat)
    requires Wf(g) && Domains(g, a) && StackOk(g, s) && i < |s|
    ensures s[0].pv < |a| && s[i].pv < |a| && a[s[i].pv] == a[s[0].pv]
  {
    assert FrameOk(g, s[i]);
    if i > 0 {
      OneMutex(g, a, s, i - 1);
      assert FrameOk(g, s[i - 1]) && Follows(g, s[i - 1], s[i]);
      SameDomainBelow(g, a, s[i - 1].pv, s[i - 1].k, s[i].pv);
    }
  }

  // ----- what every step keeps -----

  ghost predicate NotShared(a: Labels, f: Frame, h: Frame)
  {
    f.phase != Waiting && h.phase != Waiting && f.pv < |a| && h.pv < |a| && a[f.pv] == a[h.pv] ==> a[f.pv] == null
  }

  /** The two threads hold no mutex in common. */
  ghost predicate Apart(a: Labels, s: Stack, r: Stack)
  {
    forall i, j {:trigger s[i], r[j]} :: 0 <= i < |s| && 0 <= j < |r| ==> NotShared(a, s[i], r[j])
  }

  ghost predicate Inv(g: Graph, a: Labels, ts: seq<Stack>)
    requires Wf(g)
  {
    && (forall t :: 0 <= t < |ts| ==> StackOk(g, ts[t]))
    && (forall t, u :: 0 <= t < |ts| && 0 <= u < |ts| && t != u ==> Apart(a, ts[t], ts[u]))
  }

  lemma NextIsOk(g: Graph, s: Stack)
    requires Wf(g) && s != [] && StackOk(g, s)
    ensures StackOk(g, Next(g, s))
  {
    var f, r := Top(s), Next(g, s);
    assert FrameOk(g, f) && ParserOk(g, f.pv);
    forall i | 0 <= i < |r| ensures FrameOk(g, r[i]) {
      if i < |s| - 1 {
        assert r[i] == s[i];
      } else if i == |s| {
        NextDriven(g, f.pv, f.k, r[i].pv);
      }
    }
    forall i | 0 <= i < |r| - 1 ensures r[i].phase == Nested && Follows(g, r[i], r[i + 1]) {
      if i < |s| - 1 {
        assert r[i] == s[i] && s[i].phase == Nested && Follows(g, s[i], s[i + 1]);
      }
    }
  }

  /** A step takes at most the mutex the thread was waiting for. */
  lemma HeldAfter(g: Graph, s: Stack, j: nat)
    requires Wf(g) && s != [] && StackOk(g, s) && j < |Next(g, s)| && Next(g, s)[j].phase != Waiting
    ensures j < |s| && s[j].pv == Next(g, s)[j].pv
    ensures s[j].phase != Waiting || j == |s| - 1
  {
    assert FrameOk(g, Top(s));
  }

  lemma StepKeepsInv(g: Graph, a: Labels, ts: seq<Stack>, t: nat, us: seq<Stack>)
    requires Wf(g) && |a| == g.Size() && Inv(g, a, ts) && Step(g, a, ts, t, us)
    ensures Inv(g, a, us)
  {
    if ts[t] != [] {
      NextIsOk(g, ts[t]);
      forall u | 0 <= u < |ts| && u != t ensures Apart(a, us[t], us[u]) && Apart(a, us[u], us[t]) {
        StaysApart(g, a, ts, t, u);
      }
    }
  }

  lemma StaysApart(g: Graph, a: Labels, ts: seq<Stack>, t: nat, u: nat)
    requires Wf(g) && |a| == g.Size() && Inv(g, a, ts) && t < |ts| && u < |ts| && t != u
    requires ts[t] != [] && !Blocked(a, ts, t)
    ensures Apart(a, Next(g, ts[t]), ts[u])
  {
    var s, r := Next(g, ts[t]), ts[u];
    forall i, j | 0 <= i < |s| && 0 <= j < |r| ensures NotShared(a, s[i], r[j]) {
      assert Apart(a, ts[t], ts[u]);
      if s[i].phase != Waiting {
        HeldAfter(g, ts[t], i);
        assert NotShared(a, ts[t][i], r[j]);
        if ts[t][i].phase == Waiting && a[s[i].pv] != null {
          assert !Holds(a, r, a[s[i].pv]) && !HeldBy(a, r[j], a[s[i].pv]);
        }
      }
    }
  }

  lemma PrefixIsRun(g: Graph, a: Labels, run: seq<seq<Stack>>)
    requires Wf(g) && IsRun(g, a, run) && |run| > 1
    ensures IsRun(g, a, run[..|run| - 1]) && Moves(g, a, run[|run| - 2], run[|run| - 1])
  {
    var n := |run| - 1;
    forall i | 0 <= i < n - 1 ensures MovesAt(g, a, run[..n], i) {
      assert MovesAt(g, a, run, i);
    }
    assert MovesAt(g, a, run, n - 1);
  }

  lemma MoveKeepsInv(g: Graph, a: Labels, ts: seq<Stack>, us: seq<Stack>)
    requires Wf(g) && |a| == g.Size() && Inv(g, a, ts) && Moves(g, a, ts, us)
    ensures |us| == |ts| && Inv(g, a, us)
  {
    var t: nat :| Step(g, a, ts, t, us);
    StepKeepsInv(g, a, ts, t, us);
  }

  lemma {:induction false} RunKeepsInv(g: Graph, a: Labels, run: seq<seq<Stack>>)
    requires Wf(g) && |a| == g.Size() && IsRun(g, a, run) && Inv(g, a, run[0])
    ensures |run[|run| - 1]| == |run[0]| && Inv(g, a, run[|run| - 1])
    decreases |run|
  {
    if |run| > 1 {
      PrefixIsRun(g, a, run);
      RunKeepsInv(g, a, run[..|run| - 1]);
      MoveKeepsInv(g, a, run[|run| - 2], run[|run| - 1]);
    }
  }

  lemma ReachableKeepsInv(g: Graph, a: Labels, ts: seq<Stack>)
    requires Wf(g) && |a| == g.Size() && Reachable(g, a, ts)
    ensures Inv(g, a, ts)
  {
    var run :| IsRun(g, a, run) && run[0] == Idle(|ts|) && run[|run| - 1] == ts;
    RunKeepsInv(g, a, run);
  }

  // ----- no deadlock -----

  lemma SoleHolder(g: Graph, a: Labels, ts: seq<Stack>, u: nat, m: Synchronizer)
    requires Wf(g) && Inv(g, a, ts) && u < |ts| && Holds(a, ts[u], m)
    ensures FreeFor(a, ts, u, m)
  {
    var i :| 0 <= i < |ts[u]| && HeldBy(a, ts[u][i], m);
    forall v | 0 <= v < |ts| && v != u ensures !Holds(a, ts[v], m) {
      assert Apart(a, ts[u], ts[v]);
      forall j | 0 <= j < |ts[v]| ensures !HeldBy(a, ts[v][j], m) {
        assert NotShared(a, ts[u][i], ts[v][j]);
      }
    }
  }

  ghost predicate OneLabel(a: Labels, s: Stack)
  {
    s != [] ==> Top(s).pv < |a| && forall i :: 0 <= i < |s| ==> s[i].pv < |a| && a[s[i].pv] == a[Top(s).pv]
  }

  lemma StackHasOneLabel(g: Graph, a: Labels, s: Stack)
    requires Wf(g) && Domains(g, a) && StackOk(g, s)
    ensures OneLabel(a, s)
  {
    forall i | 0 <= i < |s| ensures s[i].pv < |a| && Top(s).pv < |a| && a[s[i].pv] == a[Top(s).pv] {
      OneMutex(g, a, s, i);
      OneMutex(g, a, s, |s| - 1);
    }
  }

  lemma HolderIsNotBlocked(g: Graph, a: Labels, ts: seq<Stack>, u: nat, m: Synchronizer)
    requires Wf(g) && Domains(g, a) && Inv(g, a, ts) && u < |ts| && Holds(a, ts[u], m)
    ensures !Blocked(a, ts, u)
  {
    StackHasOneLabel(g, a, ts[u]);
    SoleHolder(g, a, ts, u, m);
  }

  /** Whoever holds the mutex a thread waits for is able to go on: there is no chain of waiting. */
  lemma HolderCanMove(g: Graph, a: Labels, ts: seq<Stack>, t: nat) returns (u: nat)
    requires Wf(g) && Domains(g, a) && Reachable(g, a, ts) && t < |ts| && Blocked(a, ts, t)
    ensures u < |ts| && u != t && Holds(a, ts[u], a[Top(ts[t]).pv]) && !Blocked(a, ts, u)
  {
    ReachableKeepsInv(g, a, ts);
    u :| 0 <= u < |ts| && u != t && Holds(a, ts[u], a[Top(ts[t]).pv]);
    HolderIsNotBlocked(g, a, ts, u, a[Top(ts[t]).pv]);
  }

  /** As long as a push is under way, some push can go on. */
  lemma NoDeadlock(g: Graph, a: Labels, ts: seq<Stack>, t: nat)
    requires Wf(g) && Domains(g, a) && Reachable(g, a, ts) && t < |ts| && ts[t] != []
    ensures exists u :: 0 <= u < |ts| && ts[u] != [] && !Blocked(a, ts, u)
  {
    if Blocked(a, ts, t) {
      var u := HolderCanMove(g, a, ts, t);
    }
  }

  // ----- every push ends -----

  /** An upper bound on the steps left in the notify loop of `p` from position k on. */
  ghost function LoopCost(g: Graph, p: nat, k: nat): (r: nat)
    requires Wf(g) && p < g.Size() && k <= |g.notify[p]|
    decreases g.Size() - p, |g.notify[p]| - k
  {
    if k == |g.notify[p]| then 1
    else
      assert ParserOk(g, p) && CalcOk(g, g.notify[p][k]);
      UpdateCost(g, g.notify[p][k]) + LoopCost(g, p, k + 1)
  }

  ghost function UpdateCost(g: Graph, c: nat): (r: nat)
    requires Wf(g) && c < |g.calcs|
    ensures r >= 2
    decreases Height(g, c), Width(g, c) + 1
  {
    assert CalcOk(g, c);
    match g.calcs[c].out
    case None => 2
    case Some(q) => LoopCost(g, q, 0) + 4
  }

  ghost function FrameCost(g: Graph, f: Frame): nat
    requires Wf(g) && FrameOk(g, f)
  {
    match f.phase
    case Waiting => LoopCost(g, f.pv, 0) + 1
    case Looping => LoopCost(g, f.pv, f.k)
    case Updating => LoopCost(g, f.pv, f.k) - 1
    case Nested => LoopCost(g, f.pv, f.k + 1) + 1
  }

  ghost function Cost(g: Graph, s: Stack): nat
    requires Wf(g) && StackOk(g, s)
  {
    if s == [] then 0 else FrameCost(g, Top(s)) + Cost(g, Below(s))
  }

  lemma CostOfOneMore(g: Graph, s: Stack, f: Frame)
    requires Wf(g) && StackOk(g, s + [f])
    ensures StackOk(g, s) && FrameOk(g, f) && Cost(g, s + [f]) == Cost(g, s) + FrameCost(g, f)
  {
    assert Below(s + [f]) == s && Top(s + [f]) == f;
    forall i | 0 <= i < |s|
      ensures FrameOk(g, s[i]) && (i < |s| - 1 ==> s[i].phase == Nested && Follows(g, s[i], s[i + 1]))
    {
      assert (s + [f])[i] == s[i];
    }
  }

  lemma DescendingCosts(g: Graph, f: Frame, q: nat)
    requires Wf(g) && FrameOk(g, f) && f.phase == Updating && f.k < |g.notify[f.pv]|
    requires g.notify[f.pv][f.k] < |g.calcs| && g.calcs[g.notify[f.pv][f.k]].out == Some(q)
    ensures FrameOk(g, f.(phase := Nested)) && FrameOk(g, Frame(q, 0, Waiting))
    ensures FrameCost(g, f.(phase := Nested)) + FrameCost(g, Frame(q, 0, Waiting)) < FrameCost(g, f)
  {
    NextDriven(g, f.pv, f.k, q);
    assert CalcOk(g, g.notify[f.pv][f.k]);
    assert UpdateCost(g, g.notify[f.pv][f.k]) == LoopCost(g, q, 0) + 4;
  }

  /** A step inside one activation. */
  lemma StayingCosts(g: Graph, f: Frame, h: Frame)
    requires Wf(g) && StackOk(g, [f]) && FrameOk(g, f) && Next(g, [f]) == [h]
    ensures FrameOk(g, h) && FrameCost(g, h) < FrameCost(g, f)
  {
    NextIsOk(g, [f]);
    assert FrameOk(g, [h][0]) && ParserOk(g, f.pv);
    if f.phase == Updating {
      assert CalcOk(g, g.notify[f.pv][f.k]);
    }
  }

  lemma NextOnTop(g: Graph, s: Stack, f: Frame)
    requires Wf(g) && StackOk(g, s + [f])
    ensures FrameOk(g, f) && StackOk(g, [f]) && Next(g, s + [f]) == s + Next(g, [f])
  {
    assert Below(s + [f]) == s && Top(s + [f]) == f && FrameOk(g, (s + [f])[|s|]);
    assert Below([f]) == [] && Top([f]) == f;
  }

  lemma NestingCosts(g: Graph, s: Stack, f: Frame, q: nat)
    requires Wf(g) && StackOk(g, s) && FrameOk(g, f) && f.phase == Updating && f.k < |g.notify[f.pv]|
    requires g.notify[f.pv][f.k] < |g.calcs| && g.calcs[g.notify[f.pv][f.k]].out == Some(q)
    requires StackOk(g, s + [f.(phase := Nested)] + [Frame(q, 0, Waiting)])
    ensures Cost(g, s + [f.(phase := Nested)] + [Frame(q, 0, Waiting)]) < Cost(g, s) + FrameCost(g, f)
  {
    DescendingCosts(g, f, q);
    CostOfOneMore(g, s + [f.(phase := Nested)], Frame(q, 0, Waiting));
    CostOfOneMore(g, s, f.(phase := Nested));
  }

  lemma StayingStepCounts(g: Graph, s: Stack, f: Frame, h: Frame)
    requires Wf(g) && StackOk(g, s + [f]) && StackOk(g, [f]) && Next(g, [f]) == [h] && StackOk(g, s + [h])
    ensures Cost(g, s + [h]) < Cost(g, s + [f])
  {
    CostOfOneMore(g, s, f);
    CostOfOneMore(g, s, h);
    StayingCosts(g, f, h);
  }

  lemma NestingStepCounts(g: Graph, s: Stack, f: Frame)
    requires Wf(g) && StackOk(g, s + [f]) && StackOk(g, [f]) && |Next(g, [f])| == 2 && StackOk(g, s + Next(g, [f]))
    ensures Cost(g, s + Next(g, [f])) < Cost(g, s + [f])
  {
    CostOfOneMore(g, s, f);
    var q := NextNests(g, f);
    NestingCosts(g, s, f, q);
  }

  lemma NextNests(g: Graph, f: Frame) returns (q: nat)
    requires Wf(g) && StackOk(g, [f]) && |Next(g, [f])| == 2
    ensures FrameOk(g, f) && f.phase == Updating && f.k < |g.notify[f.pv]|
    ensures g.notify[f.pv][f.k] < |g.calcs| && g.calcs[g.notify[f.pv][f.k]].out == Some(q)
    ensures Next(g, [f]) == [f.(phase := Nested)] + [Frame(q, 0, Waiting)]
    ensures forall s: Stack :: s + Next(g, [f]) == s + [f.(phase := Nested)] + [Frame(q, 0, Waiting)]
  {
    assert FrameOk(g, [f][0]) && ParserOk(g, f.pv) && Top([f]) == f && Below([f]) == [];
    q := Next(g, [f])[1].pv;
    assert [f.(phase := Nested), Frame(q, 0, Waiting)] == [f.(phase := Nested)] + [Frame(q, 0, Waiting)];
  }

  /** Every step of a push brings it nearer to its end; with HolderCanMove, every push ends. */
  lemma EveryStepCounts(g: Graph, s: Stack)
    requires Wf(g) && s != [] && StackOk(g, s)
    ensures StackOk(g, Next(g, s)) && Cost(g, Next(g, s)) < Cost(g, s)
  {
    var f, below := Top(s), Below(s);
    assert s == below + [f];
    NextIsOk(g, s);
    NextOnTop(g, below, f);
    var top := Next(g, [f]);
    if |top| == 1 {
      assert top == [top[0]];
      StayingStepCounts(g, below, f, top[0]);
    } else if |top| == 2 {
      NestingStepCounts(g, below, f);
    } else {
      CostOfOneMore(g, below, f);
      assert below + [] == below && top == [];
    }
  }

  // ----- mutual exclusion inside update() -----

  ghost predicate Updates(g: Graph, f: Frame, c: nat)
  {
    && (f.phase == Updating || f.phase == Nested)
    && f.pv < |g.notify| && f.k < |g.notify[f.pv]| && g.notify[f.pv][f.k] == c
  }

  /** The thread is inside update() of calculated variable `c`. */
  ghost predicate Inside(g: Graph, s: Stack, c: nat)
  {
    exists i :: 0 <= i < |s| && Updates(g, s[i], c)
  }

  ghost predicate Exclusive(g: Graph, a: Labels, c: nat, n: nat)
    requires Wf(g)
  {
    forall ts, t, u :: |ts| == n && Reachable(g, a, ts) && 0 <= t < n && 0 <= u < n && t != u
      ==> !(Inside(g, ts[t], c) && Inside(g, ts[u], c))
  }

  /** The inputs of `c` that writes of sources reach all have the same mutex. */
  ghost predicate OneDomain(g: Graph, a: Labels, c: nat)
    requires Wf(g) && |a| == g.Size() && c < |g.calcs|
  {
    forall p: nat, q: nat :: g.calcs[c].Reads(p) && g.calcs[c].Reads(q) && Driven(g, p) && Driven(g, q) ==> a[p] == a[q]
  }

  lemma InsideHolds(g: Graph, a: Labels, s: Stack, c: nat) returns (p: nat)
    requires Wf(g) && Domains(g, a) && StackOk(g, s) && Inside(g, s, c)
    ensures c < |g.calcs| && g.calcs[c].Reads(p) && Driven(g, p)
    ensures a[p] != null && Holds(a, s, a[p])
  {
    var i :| 0 <= i < |s| && Updates(g, s[i], c);
    p := s[i].pv;
    assert FrameOk(g, s[i]) && ParserOk(g, p);
    NotifyingIsLabelled(g, a, p);
    assert HeldBy(a, s[i], a[p]);
  }

  lemma OneDomainExcludes(g: Graph, a: Labels, c: nat, ts: seq<Stack>, t: nat, u: nat)
    requires Wf(g) && Domains(g, a) && c < |g.calcs| && OneDomain(g, a, c)
    requires Reachable(g, a, ts) && t < |ts| && u < |ts| && t != u
    ensures !(Inside(g, ts[t], c) && Inside(g, ts[u], c))
  {
    ReachableKeepsInv(g, a, ts);
    if Inside(g, ts[t], c) && Inside(g, ts[u], c) {
      var p := InsideHolds(g, a, ts[t], c);
      var q := InsideHolds(g, a, ts[u], c);
      SoleHolder(g, a, ts, t, a[p]);
    }
  }

  /** A variable that had its own parser variable when the domains were set up is in one domain. */
  lemma OwnParserVariableJoins(g: Graph, a: Labels, c: nat)
    requires Wf(g) && Domains(g, a) && c < |g.calcs| && g.calcs[c].out.Some?
    ensures OneDomain(g, a, c)
  {
    forall p: nat | g.calcs[c].Reads(p) && Driven(g, p)
      ensures g.calcs[c].out.value < |a| && a[p] == a[g.calcs[c].out.value]
    {
      assert CalcOk(g, c);
      var k :| 0 <= k < |g.notify[p]| && g.notify[p][k] == c;
      SameDomainBelow(g, a, p, k, g.calcs[c].out.value);
    }
  }

  // ----- runs of one thread, the others standing still -----

  /** Thread `t` gets from stack `x` to stack `y` while the others stay as they are in `ts`. */
  ghost predicate Alone(g: Graph, a: Labels, ts: seq<Stack>, t: nat, x: Stack, y: Stack)
    requires Wf(g) && t < |ts|
  {
    Leads(g, a, ts[t := x], ts[t := y])
  }

  lemma Stay(g: Graph, a: Labels, ts: seq<Stack>)
    requires Wf(g)
    ensures Leads(g, a, ts, ts)
  {
    assert IsRun(g, a, [ts]);
  }

  lemma JoinedIsRun(g: Graph, a: Labels, r: seq<seq<Stack>>, q: seq<seq<Stack>>)
    requires Wf(g) && IsRun(g, a, r) && IsRun(g, a, q) && r[|r| - 1] == q[0]
    ensures IsRun(g, a, r + q[1..])
  {
    var run := r + q[1..];
    forall i | 0 <= i < |run| - 1 ensures MovesAt(g, a, run, i) {
      if i < |r| - 1 {
        assert MovesAt(g, a, r, i);
      } else {
        assert MovesAt(g, a, q, i - |r| + 1);
      }
    }
  }

  lemma Then(g: Graph, a: Labels, ts: seq<Stack>, us: seq<Stack>, vs: seq<Stack>)
    requires Wf(g) && Leads(g, a, ts, us) && Leads(g, a, us, vs)
    ensures Leads(g, a, ts, vs)
  {
    var r :| IsRun(g, a, r) && r[0] == ts && r[|r| - 1] == us;
    var q :| IsRun(g, a, q) && q[0] == us && q[|q| - 1] == vs;
    JoinedIsRun(g, a, r, q);
    var run := r + q[1..];
    assert run[0] == ts && run[|run| - 1] == vs;
  }

  lemma ThenAlone(g: Graph, a: Labels, ts: seq<Stack>, t: nat, x: Stack, y: Stack, z: Stack)
    requires Wf(g) && t < |ts| && Alone(g, a, ts, t, x, y) && Alone(g, a, ts, t, y, z)
    ensures Alone(g, a, ts, t, x, z)
  {
    Then(g, a, ts[t := x], ts[t := y], ts[t := z]);
  }

  lemma OneMove(g: Graph, a: Labels, ts: seq<Stack>, t: nat, us: seq<Stack>)
    requires Wf(g) && Step(g, a, ts, t, us)
    ensures Leads(g, a, ts, us)
  {
    assert Moves(g, a, ts, us);
    assert MovesAt(g, a, [ts, us], 0);
    assert IsRun(g, a, [ts, us]);
  }

  /** No other thread is in the way of one that sets `p`. */
  ghost predicate ClearFor(a: Labels, ts: seq<Stack>, t: nat, p: nat)
  {
    p < |a| && (a[p] != null ==> FreeFor(a, ts, t, a[p]))
  }

  lemma Advance(g: Graph, a: Labels, ts: seq<Stack>, t: nat, s: Stack, f: Frame)
    requires Wf(g) && t < |ts| && StackOk(g, s + [f]) && ClearFor(a, ts, t, f.pv)
    ensures StackOk(g, Next(g, s + [f])) && Alone(g, a, ts, t, s + [f], Next(g, s + [f]))
    ensures Below(s + [f]) == s && Top(s + [f]) == f && FrameOk(g, f)
  {
    var x := s + [f];
    NextIsOk(g, x);
    assert Below(x) == s && Top(x) == f;
    assert FrameOk(g, x[|s|]);
    var y := Next(g, x);
    assert ts[t := y] == ts[t := x][t := y];
    OneMove(g, a, ts[t := x], t, ts[t := y]);
  }

  /** Left alone, a push that is about to begin runs to its end. */
  lemma {:induction false} Finish(g: Graph, a: Labels, ts: seq<Stack>, t: nat, s: Stack, p: nat)
    requires Wf(g) && Domains(g, a) && t < |ts| && p < g.Size()
    requires StackOk(g, s + [Frame(p, 0, Waiting)]) && ClearFor(a, ts, t, p)
    ensures StackOk(g, s) && Alone(g, a, ts, t, s + [Frame(p, 0, Waiting)], s)
    decreases g.Size() - p, |g.notify[p]| + 2
  {
    var n := |g.notify[p]|;
    Advance(g, a, ts, t, s, Frame(p, 0, Waiting));
    Loop(g, a, ts, t, s, p, n);
    Advance(g, a, ts, t, s, Frame(p, n, Looping));
    ThenAlone(g, a, ts, t, s + [Frame(p, 0, Waiting)], s + [Frame(p, 0, Looping)], s + [Frame(p, n, Looping)]);
    ThenAlone(g, a, ts, t, s + [Frame(p, 0, Waiting)], s + [Frame(p, n, Looping)], s);
  }

  /** Left alone, the notify loop gets to any position. */
  lemma {:induction false} Loop(g: Graph, a: Labels, ts: seq<Stack>, t: nat, s: Stack, p: nat, k: nat)
    requires Wf(g) && Domains(g, a) && t < |ts| && p < g.Size() && k <= |g.notify[p]|
    requires StackOk(g, s + [Frame(p, 0, Looping)]) && ClearFor(a, ts, t, p)
    ensures StackOk(g, s + [Frame(p, k, Looping)])
    ensures Alone(g, a, ts, t, s + [Frame(p, 0, Looping)], s + [Frame(p, k, Looping)])
    decreases g.Size() - p, k + 1
  {
    if k == 0 {
      Stay(g, a, ts[t := s + [Frame(p, 0, Looping)]]);
    } else {
      Loop(g, a, ts, t, s, p, k - 1);
      OneMoreIteration(g, a, ts, t, s, p, k - 1, s + [Frame(p, 0, Looping)]);
    }
  }

  lemma {:induction false} OneMoreIteration(g: Graph, a: Labels, ts: seq<Stack>, t: nat, s: Stack, p: nat, k: nat,
                                            x: Stack)
    requires Wf(g) && Domains(g, a) && t < |ts| && p < g.Size() && k < |g.notify[p]|
    requires StackOk(g, s + [Frame(p, k, Looping)]) && ClearFor(a, ts, t, p)
    requires Alone(g, a, ts, t, x, s + [Frame(p, k, Looping)])
    ensures StackOk(g, s + [Frame(p, k + 1, Looping)])
    ensures Alone(g, a, ts, t, x, s + [Frame(p, k + 1, Looping)])
    decreases g.Size() - p, 0, 3
  {
    Iterate(g, a, ts, t, s, p, k);
    ThenAlone(g, a, ts, t, x, s + [Frame(p, k, Looping)], s + [Frame(p, k + 1, Looping)]);
  }

  lemma {:induction false} Iterate(g: Graph, a: Labels, ts: seq<Stack>, t: nat, s: Stack, p: nat, k: nat)
    requires Wf(g) && Domains(g, a) && t < |ts| && p < g.Size() && k < |g.notify[p]|
    requires StackOk(g, s + [Frame(p, k, Looping)]) && ClearFor(a, ts, t, p)
    ensures StackOk(g, s + [Frame(p, k + 1, Looping)])
    ensures Alone(g, a, ts, t, s + [Frame(p, k, Looping)], s + [Frame(p, k + 1, Looping)])
    decreases g.Size() - p, 0, 2
  {
    assert FrameOk(g, (s + [Frame(p, k, Looping)])[|s|]) && ParserOk(g, p);
    if g.calcs[g.notify[p][k]].out.None? {
      PassOver(g, a, ts, t, s, p, k);
    } else {
      PassThrough(g, a, ts, t, s, p, k, g.calcs[g.notify[p][k]].out.value);
    }
  }

  /** An update whose result is pushed on. */
  lemma {:induction false} PassThrough(g: Graph, a: Labels, ts: seq<Stack>, t: nat, s: Stack, p: nat, k: nat, q: nat)
    requires Wf(g) && Domains(g, a) && t < |ts| && p < g.Size() && k < |g.notify[p]| && Driven(g, p)
    requires g.notify[p][k] < |g.calcs| && g.calcs[g.notify[p][k]].out == Some(q)
    requires StackOk(g, s + [Frame(p, k, Looping)]) && ClearFor(a, ts, t, p)
    ensures StackOk(g, s + [Frame(p, k + 1, Looping)])
    ensures Alone(g, a, ts, t, s + [Frame(p, k, Looping)], s + [Frame(p, k + 1, Looping)])
    decreases g.Size() - p, 0, 1
  {
    NestAndReturn(g, a, ts, t, s, p, k, q, s + [Frame(p, k, Nested)]);
    Advance(g, a, ts, t, s, Frame(p, k, Nested));
    ThenAlone(g, a, ts, t, s + [Frame(p, k, Looping)], s + [Frame(p, k, Nested)], s + [Frame(p, k + 1, Looping)]);
  }

  lemma {:induction false} NestAndReturn(g: Graph, a: Labels, ts: seq<Stack>, t: nat, s: Stack, p: nat, k: nat, q: nat,
                                         nested: Stack)
    requires Wf(g) && Domains(g, a) && t < |ts| && p < g.Size() && k < |g.notify[p]| && Driven(g, p)
    requires g.notify[p][k] < |g.calcs| && g.calcs[g.notify[p][k]].out == Some(q)
    requires StackOk(g, s + [Frame(p, k, Looping)]) && ClearFor(a, ts, t, p) && nested == s + [Frame(p, k, Nested)]
    ensures StackOk(g, nested) && Alone(g, a, ts, t, s + [Frame(p, k, Looping)], nested)
    decreases g.Size() - p, 0, 0
  {
    SameDomainBelow(g, a, p, k, q);
    Nest(g, a, ts, t, s, p, k, q);
    Finish(g, a, ts, t, nested, q);
    ThenAlone(g, a, ts, t, s + [Frame(p, k, Looping)], nested + [Frame(q, 0, Waiting)], nested);
  }

  /** An update whose result feeds nothing. */
  lemma PassOver(g: Graph, a: Labels, ts: seq<Stack>, t: nat, s: Stack, p: nat, k: nat)
    requires Wf(g) && t < |ts| && p < g.Size() && k < |g.notify[p]|
    requires g.notify[p][k] < |g.calcs| && g.calcs[g.notify[p][k]].out == None
    requires StackOk(g, s + [Frame(p, k, Looping)]) && ClearFor(a, ts, t, p)
    ensures StackOk(g, s + [Frame(p, k + 1, Looping)])
    ensures Alone(g, a, ts, t, s + [Frame(p, k, Looping)], s + [Frame(p, k + 1, Looping)])
  {
    Advance(g, a, ts, t, s, Frame(p, k, Looping));
    Advance(g, a, ts, t, s, Frame(p, k, Updating));
    var x, y := s + [Frame(p, k, Looping)], s + [Frame(p, k, Updating)];
    var z := s + [Frame(p, k + 1, Looping)];
    assert Next(g, y) == z;
    ThenAlone(g, a, ts, t, x, y, z);
  }

  /** From the notify loop into the nested push. */
  lemma Nest(g: Graph, a: Labels, ts: seq<Stack>, t: nat, s: Stack, p: nat, k: nat, q: nat)
    requires Wf(g) && Domains(g, a) && t < |ts| && p < g.Size() && k < |g.notify[p]|
    requires g.notify[p][k] < |g.calcs| && g.calcs[g.notify[p][k]].out == Some(q)
    requires StackOk(g, s + [Frame(p, k, Looping)]) && ClearFor(a, ts, t, p)
    ensures StackOk(g, s + [Frame(p, k, Nested)] + [Frame(q, 0, Waiting)])
    ensures Alone(g, a, ts, t, s + [Frame(p, k, Looping)], s + [Frame(p, k, Nested)] + [Frame(q, 0, Waiting)])
  {
    Advance(g, a, ts, t, s, Frame(p, k, Looping));
    Advance(g, a, ts, t, s, Frame(p, k, Updating));
    var x, y := s + [Frame(p, k, Looping)], s + [Frame(p, k, Updating)];
    var z := s + [Frame(p, k, Nested)] + [Frame(q, 0, Waiting)];
    assert Next(g, y) == z;
    ThenAlone(g, a, ts, t, x, y, z);
  }

  /** Left alone, an idle thread gets to the notify loop of any driven parser variable. */
  lemma {:induction false} Arrive(g: Graph, a: Labels, ts: seq<Stack>, t: nat, p: nat) returns (s: Stack)
    requires Wf(g) && Domains(g, a) && t < |ts| && Driven(g, p) && ClearFor(a, ts, t, p)
    ensures StackOk(g, s + [Frame(p, 0, Looping)]) && Alone(g, a, ts, t, [], s + [Frame(p, 0, Looping)])
    decreases p
  {
    if g.owner[p].None? {
      s := [];
      assert s + [Frame(p, 0, Waiting)] == [Frame(p, 0, Waiting)];
      OneMove(g, a, ts[t := []], t, ts[t := [Frame(p, 0, Waiting)]]);
    } else {
      var r: nat :| r < p && Feeds(g, r, p) && Driven(g, r);
      assert CalcOk(g, g.owner[p].value);
      var k :| 0 <= k < |g.notify[r]| && g.notify[r][k] == g.owner[p].value;
      SameDomainBelow(g, a, r, k, p);
      var below := Arrive(g, a, ts, t, r);
      Loop(g, a, ts, t, below, r, k);
      Nest(g, a, ts, t, below, r, k, p);
      s := below + [Frame(r, k, Nested)];
      ThenAlone(g, a, ts, t, [], below + [Frame(r, 0, Looping)], below + [Frame(r, k, Looping)]);
      ThenAlone(g, a, ts, t, [], below + [Frame(r, k, Looping)], s + [Frame(p, 0, Waiting)]);
    }
    Advance(g, a, ts, t, s, Frame(p, 0, Waiting));
    ThenAlone(g, a, ts, t, [], s + [Frame(p, 0, Waiting)], s + [Frame(p, 0, Looping)]);
  }

  /** Left alone, an idle thread gets into update() of `c` by way of any driven input. */
  lemma GetInside(g: Graph, a: Labels, ts: seq<Stack>, t: nat, p: nat, c: nat) returns (s: Stack)
    requires Wf(g) && Domains(g, a) && t < |ts| && ClearFor(a, ts, t, p)
    requires c < |g.calcs| && g.calcs[c].Reads(p) && Driven(g, p)
    ensures StackOk(g, s) && Alone(g, a, ts, t, [], s) && Inside(g, s, c)
    ensures forall i :: 0 <= i < |s| ==> s[i].pv < |a| && a[s[i].pv] == a[p]
  {
    assert CalcOk(g, c);
    var k :| 0 <= k < |g.notify[p]| && g.notify[p][k] == c;
    var below := Arrive(g, a, ts, t, p);
    Loop(g, a, ts, t, below, p, k);
    ThenAlone(g, a, ts, t, [], below + [Frame(p, 0, Looping)], below + [Frame(p, k, Looping)]);
    Advance(g, a, ts, t, below, Frame(p, k, Looping));
    s := below + [Frame(p, k, Updating)];
    ThenAlone(g, a, ts, t, [], below + [Frame(p, k, Looping)], s);
    assert Updates(g, s[|below|], c);
    OneMutex(g, a, s, |s| - 1);
    forall i | 0 <= i < |s| ensures s[i].pv < |a| && a[s[i].pv] == a[p] {
      OneMutex(g, a, s, i);
    }
  }

  /** With two threads there is a run that gets both inside update() of a variable whose inputs lie in
      different domains. */
  lemma TwoDomainsCollide(g: Graph, a: Labels, c: nat, n: nat, p: nat, q: nat)
    requires Wf(g) && Domains(g, a) && c < |g.calcs| && n >= 2
    requires g.calcs[c].Reads(p) && Driven(g, p) && g.calcs[c].Reads(q) && Driven(g, q) && a[p] != a[q]
    ensures !Exclusive(g, a, c, n)
  {
    var ts := Idle(n);
    assert ts[0 := []] == ts;
    var s := GetInside(g, a, ts, 0, p, c);
    var us := ts[0 := s];
    assert us[1 := []] == us;
    var r := GetInside(g, a, us, 1, q, c);
    var vs := us[1 := r];
    Then(g, a, ts, us, vs);
    assert Reachable(g, a, vs);
    assert Inside(g, vs[0], c) && Inside(g, vs[1], c);
  }

  /** update() of `c` is mutually exclusive, whatever the threads do, exactly when its driven inputs
      share one mutex. */
  lemma ExclusiveExactlyWhenOneDomain(g: Graph, a: Labels, c: nat, n: nat)
    requires Wf(g) && Domains(g, a) && c < |g.calcs| && n >= 2
    ensures Exclusive(g, a, c, n) <==> OneDomain(g, a, c)
  {
    if OneDomain(g, a, c) {
      forall ts, t, u | |ts| == n && Reachable(g, a, ts) && 0 <= t < n && 0 <= u < n && t != u
        ensures !(Inside(g, ts[t], c) && Inside(g, ts[u], c))
      {
        OneDomainExcludes(g, a, c, ts, t, u);
      }
    } else {
      var p: nat, q: nat :| g.calcs[c].Reads(p) && g.calcs[c].Reads(q) && Driven(g, p) && Driven(g, q) && a[p] != a[q];
      TwoDomainsCollide(g, a, c, n, p, q);
    }
  }
}
