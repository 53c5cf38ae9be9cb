/** How fresh a published value is. update() evaluates its formulas at one moment and publishes at a later one;
    values play no part here, only the moments at which cells are set, formulas evaluated, results published. */
module Publications {
  import opened DataValues
  import opened CalcGraph
  import opened CalcEngine
  import opened UpdatePaths
  import opened SyncDomains
  import opened SyncProtocol

  datatype Moment = Moment(
    ts: seq<Stack>,
    evaluated: seq<Option<nat>>,   // per thread: when the update it is in evaluated its formulas, if it has
    clock: nat,
    changed: seq<nat>,             // per parser variable: when it was set last
    basis: seq<nat>)               // per calculated variable: when what it publishes was evaluated

  predicate FrameUpdates(g: Graph, f: Frame, c: nat)
  {
    f.phase == Updating && f.pv < |g.notify| && f.k < |g.notify[f.pv]| && g.notify[f.pv][f.k] == c
  }

  /** The thread is about to evaluate the formulas of `c`, or to publish what they yielded. */
  predicate UpdatesOnTop(g: Graph, s: Stack, c: nat) { s != [] && FrameUpdates(g, Top(s), c) }

  ghost predicate MomentOk(g: Graph, m: Moment)
    requires Wf(g)
  {
    && |m.evaluated| == |m.ts| && |m.changed| == g.Size() && |m.basis| == |g.calcs|
    && (forall t :: 0 <= t < |m.ts| ==> StackOk(g, m.ts[t]))
    && (forall t :: 0 <= t < |m.ts| && m.evaluated[t].Some? ==> m.ts[t] != [] && Top(m.ts[t]).phase == Updating)
    && (forall p :: 0 <= p < g.Size() ==> m.changed[p] < m.clock)
  }

  function Start(g: Graph, n: nat): Moment
  {
    Moment(Idle(n), seq(n, _ => None), 1, seq(g.Size(), _ => 0), seq(|g.calcs|, _ => 0))
  }

  /** The next step of thread `t`, in the middle of a push. */
  ghost function After(g: Graph, m: Moment, t: nat): Moment
    requires Wf(g) && MomentOk(g, m) && t < |m.ts| && m.ts[t] != []
  {
    var f := Top(m.ts[t]);
    assert FrameOk(g, f) && ParserOk(g, f.pv);
    if f.phase == Updating && m.evaluated[t].None? then
      m.(evaluated := m.evaluated[t := Some(m.clock)], clock := m.clock + 1)
    else
      var v := m.(ts := m.ts[t := Next(g, m.ts[t])]);
      match f.phase
      case Waiting => v.(changed := m.changed[f.pv := m.clock], clock := m.clock + 1)
      case Updating =>
        v.(evaluated := m.evaluated[t := None], basis := m.basis[g.notify[f.pv][f.k] := m.evaluated[t].value])
      case _ => v
  }

  /** Thread `t` begins to set a source, or goes on. */
  ghost predicate Goes(g: Graph, a: Labels, m: Moment, t: nat, v: Moment)
    requires Wf(g) && MomentOk(g, m)
  {
    && t < |m.ts| == |v.ts|
    && if m.ts[t] == [] then Starts(g, v.ts[t]) && v == m.(ts := m.ts[t := v.ts[t]])
       else !Blocked(a, m.ts, t) && v == After(g, m, t)
  }

  lemma AfterIsOk(g: Graph, m: Moment, t: nat)
    requires Wf(g) && MomentOk(g, m) && t < |m.ts| && m.ts[t] != []
    ensures MomentOk(g, After(g, m, t)) && |After(g, m, t).ts| == |m.ts| && After(g, m, t).clock >= m.clock
  {
    NextIsOk(g, m.ts[t]);
    var f, v := Top(m.ts[t]), After(g, m, t);
    assert FrameOk(g, f) && ParserOk(g, f.pv);
    forall u | 0 <= u < |v.ts| && v.evaluated[u].Some? ensures v.ts[u] != [] && Top(v.ts[u]).phase == Updating {
      assert u != t ==> v.ts[u] == m.ts[u] && v.evaluated[u] == m.evaluated[u];
    }
  }

  lemma GoesKeepsOk(g: Graph, a: Labels, m: Moment, t: nat, v: Moment)
    requires Wf(g) && MomentOk(g, m) && Goes(g, a, m, t, v)
    ensures MomentOk(g, v) && |v.ts| == |m.ts| && v.clock >= m.clock
  {
    if m.ts[t] != [] {
      AfterIsOk(g, m, t);
    } else {
      StartIsOk(g, v.ts[t]);
    }
  }

  lemma StartIsOk(g: Graph, s: Stack)
    requires Wf(g) && Starts(g, s)
    ensures StackOk(g, s)
  {
    assert FrameOk(g, s[0]);
  }

  ghost predicate Moves(g: Graph, a: Labels, m: Moment, x: Moment)
    requires Wf(g)
  {
    MomentOk(g, m) && exists t: nat :: Goes(g, a, m, t, x)
  }

  ghost predicate MovesAt(g: Graph, a: Labels, run: seq<Moment>, i: int)
    requires Wf(g)
  {
    0 <= i < |run| - 1 && Moves(g, a, run[i], run[i + 1])
  }

  ghost predicate IsRun(g: Graph, a: Labels, run: seq<Moment>)
    requires Wf(g)
  {
    run != [] && forall i :: 0 <= i < |run| - 1 ==> MovesAt(g, a, run, i)
  }

  ghost predicate Leads(g: Graph, a: Labels, m: Moment, v: Moment)
    requires Wf(g)
  {
    exists run :: IsRun(g, a, run) && run[0] == m && run[|run| - 1] == v
  }

  lemma JoinedIsRun(g: Graph, a: Labels, r: seq<Moment>, q: seq<Moment>)
    requires Wf(g) && IsRun(g, a, r) && IsRun(g, a, q) && r[|r| - 1] == q[0]
    ensures IsRun(g, a, r + q[1..])
  {
    var run := r + q[1..];
    forall i | 0 <= i < |run| - 1 ensures MovesAt(g, a, run, i) {
      if i < |r| - 1 {
        assert MovesAt(g, a, r, i);
      } else {
        assert MovesAt(g, a, q, i - |r| + 1);
      }
    }
  }

  lemma Then(g: Graph, a: Labels, m: Moment, x: Moment, v: Moment)
    requires Wf(g) && Leads(g, a, m, x) && Leads(g, a, x, v)
    ensures Leads(g, a, m, v)
  {
    var r :| IsRun(g, a, r) && r[0] == m && r[|r| - 1] == x;
    var q :| IsRun(g, a, q) && q[0] == x && q[|q| - 1] == v;
    JoinedIsRun(g, a, r, q);
    var run := r + q[1..];
    assert run[0] == m && run[|run| - 1] == v;
  }

  lemma OneStep(g: Graph, a: Labels, m: Moment, t: nat, v: Moment)
    requires Wf(g) && MomentOk(g, m) && Goes(g, a, m, t, v)
    ensures Leads(g, a, m, v)
  {
    assert Moves(g, a, m, v);
    assert MovesAt(g, a, [m, v], 0);
    assert IsRun(g, a, [m, v]);
  }

  lemma Stays(g: Graph, a: Labels, m: Moment)
    requires Wf(g)
    ensures Leads(g, a, m, m)
  {
    assert IsRun(g, a, [m]);
  }

  predicate AllIdle(ts: seq<Stack>) { forall t :: 0 <= t < |ts| ==> ts[t] == [] }

  /** What `c` publishes was evaluated after each of its inputs was set last. */
  ghost predicate UpToDate(g: Graph, m: Moment, c: nat)
    requires c < |g.calcs|
  {
    c < |m.basis| && forall p: nat :: g.calcs[c].Reads(p) ==> p < |m.changed| && m.changed[p] <= m.basis[c]
  }

  /** Whatever `n` threads do: once all of them are idle, `c` is up to date. */
  ghost predicate AlwaysUpToDate(g: Graph, a: Labels, c: nat, n: nat)
    requires Wf(g) && c < |g.calcs|
  {
    forall m :: Leads(g, a, Start(g, n), m) && AllIdle(m.ts) ==> UpToDate(g, m, c)
  }

  // ----- inputs with one mutex: somebody still owes the update, or it has been made -----

  /** The notify loop has yet to publish `c`. */
  ghost predicate FrameOwes(g: Graph, f: Frame, c: nat)
  {
    && f.phase != Waiting && f.pv < |g.notify|
    && exists j :: (if f.phase == Nested then f.k + 1 else f.k) <= j < |g.notify[f.pv]| && g.notify[f.pv][j] == c
  }

  ghost predicate Owes(g: Graph, s: Stack, c: nat) { exists i :: 0 <= i < |s| && FrameOwes(g, s[i], c) }

  ghost predicate SomebodyOwes(g: Graph, ts: seq<Stack>, c: nat) { exists t :: 0 <= t < |ts| && Owes(g, ts[t], c) }

  /** Nothing that `c` reads was set since moment `n`. */
  ghost predicate UnchangedSince(g: Graph, m: Moment, c: nat, n: nat)
    requires c < |g.calcs|
  {
    forall p: nat :: g.calcs[c].Reads(p) ==> p < |m.changed| && m.changed[p] <= n
  }

  /** Whoever has evaluated the formulas of `c` has seen what its inputs hold. */
  ghost predicate SeenAll(g: Graph, m: Moment, c: nat)
    requires c < |g.calcs|
  {
    forall t :: 0 <= t < |m.ts| && t < |m.evaluated| && m.evaluated[t].Some? && UpdatesOnTop(g, m.ts[t], c) ==>
      UnchangedSince(g, m, c, m.evaluated[t].value)
  }

  ghost predicate Followed(g: Graph, m: Moment, c: nat)
    requires Wf(g) && c < |g.calcs|
  {
    MomentOk(g, m) && SeenAll(g, m, c) && (UpToDate(g, m, c) || SomebodyOwes(g, m.ts, c))
  }

  lemma OwedElsewhere(g: Graph, ts: seq<Stack>, t: nat, s: Stack, c: nat)
    requires t < |ts| && SomebodyOwes(g, ts, c) && (Owes(g, ts[t], c) ==> Owes(g, s, c))
    ensures SomebodyOwes(g, ts[t := s], c)
  {
    var u :| 0 <= u < |ts| && Owes(g, ts[u], c);
    assert Owes(g, ts[t := s][u], c);
  }

  lemma OwesOnTop(g: Graph, below: Stack, f: Frame, c: nat)
    ensures Owes(g, below + [f], c) <==> Owes(g, below, c) || FrameOwes(g, f, c)
  {
    var s := below + [f];
    if i :| 0 <= i < |below| && FrameOwes(g, below[i], c) {
      assert FrameOwes(g, s[i], c);
    }
    if FrameOwes(g, f, c) {
      assert FrameOwes(g, s[|below|], c);
    }
  }

  lemma NothingOwedBefore(g: Graph, below: Stack, q: nat, c: nat)
    ensures Owes(g, below + [Frame(q, 0, Waiting)], c) <==> Owes(g, below, c)
  {
    OwesOnTop(g, below, Frame(q, 0, Waiting), c);
  }

  /** The next step of a thread, phase by phase. */
  ghost predicate NextIs(g: Graph, below: Stack, f: Frame, s: Stack)
  {
    f.pv < |g.notify| &&
    match f.phase
    case Waiting => s == below + [f.(phase := Looping)]
    case Looping => s == if f.k == |g.notify[f.pv]| then below else below + [f.(phase := Updating)]
    case Updating =>
      && f.k < |g.notify[f.pv]| && g.notify[f.pv][f.k] < |g.calcs|
      && s == (match g.calcs[g.notify[f.pv][f.k]].out
               case None => below + [Frame(f.pv, f.k + 1, Looping)]
               case Some(q) => below + [f.(phase := Nested)] + [Frame(q, 0, Waiting)])
    case Nested => s == below + [Frame(f.pv, f.k + 1, Looping)]
  }

  lemma NextPhase(g: Graph, below: Stack, f: Frame)
    requires Wf(g) && StackOk(g, below + [f])
    ensures FrameOk(g, f) && NextIs(g, below, f, Next(g, below + [f]))
  {
    var s := below + [f];
    assert Below(s) == below && Top(s) == f && FrameOk(g, f) && ParserOk(g, f.pv);
  }

  /** Only publishing `c` takes it off what a thread owes. */
  lemma NextOwes(g: Graph, s: Stack, c: nat)
    requires Wf(g) && s != [] && StackOk(g, s) && Owes(g, s, c) && !UpdatesOnTop(g, s, c)
    ensures Owes(g, Next(g, s), c)
  {
    assert s == Below(s) + [Top(s)];
    NextPhase(g, Below(s), Top(s));
    OwesOnTop(g, Below(s), Top(s), c);
    StillOwes(g, Below(s), Top(s), Next(g, s), c);
  }

  lemma StillOwes(g: Graph, below: Stack, f: Frame, s: Stack, c: nat)
    requires NextIs(g, below, f, s) && !FrameUpdates(g, f, c) && (Owes(g, below, c) || FrameOwes(g, f, c))
    ensures Owes(g, s, c)
  {
    match f.phase
    case Waiting => OwesOnTop(g, below, f.(phase := Looping), c);
    case Looping => OwesOnTop(g, below, f.(phase := Updating), c);
    case Nested => OwesOnTop(g, below, Frame(f.pv, f.k + 1, Looping), c);
    case Updating =>
      OwesOnTop(g, below, Frame(f.pv, f.k + 1, Looping), c);
      OwesOnTop(g, below, f.(phase := Nested), c);
      if g.calcs[g.notify[f.pv][f.k]].out.Some? {
        NothingOwedBefore(g, below + [f.(phase := Nested)], g.calcs[g.notify[f.pv][f.k]].out.value, c);
      }
  }

  /** Whoever sets an input of `c` owes it from then on. */
  lemma SettingOwes(g: Graph, s: Stack, c: nat)
    requires Wf(g) && s != [] && StackOk(g, s) && Top(s).phase == Waiting && c < |g.calcs|
    requires g.calcs[c].Reads(Top(s).pv)
    ensures Owes(g, Next(g, s), c)
  {
    var f, below := Top(s), Below(s);
    assert FrameOk(g, f) && CalcOk(g, c);
    var h := f.(phase := Looping);
    var j :| 0 <= j < |g.notify[f.pv]| && g.notify[f.pv][j] == c;
    assert FrameOwes(g, h, c);
    OwesOnTop(g, below, h, c);
  }

  /** While a thread is inside update() of `c`, whoever wants to set one of its inputs has to wait. */
  lemma SettersAreBlocked(g: Graph, a: Labels, m: Moment, t: nat, u: nat, c: nat)
    requires Wf(g) && Domains(g, a) && MomentOk(g, m) && c < |g.calcs| && OneDomain(g, a, c)
    requires t < |m.ts| && u < |m.ts| && m.ts[t] != [] && Top(m.ts[t]).phase == Waiting
    requires UpdatesOnTop(g, m.ts[u], c) && g.calcs[c].Reads(Top(m.ts[t]).pv)
    ensures Blocked(a, m.ts, t)
  {
    var p, f := Top(m.ts[t]).pv, Top(m.ts[u]);
    assert FrameOk(g, Top(m.ts[t])) && FrameOk(g, f) && ParserOk(g, f.pv) && CalcOk(g, c);
    NotifyingIsLabelled(g, a, p);
    assert a[f.pv] == a[p] && HeldBy(a, m.ts[u][|m.ts[u]| - 1], a[p]) && Holds(a, m.ts[u], a[p]);
  }

  lemma EvaluatingIsFollowed(g: Graph, m: Moment, t: nat, c: nat)
    requires Wf(g) && c < |g.calcs| && Followed(g, m, c) && t < |m.ts| && m.ts[t] != []
    requires Top(m.ts[t]).phase == Updating && m.evaluated[t].None?
    ensures SeenAll(g, After(g, m, t), c) && (UpToDate(g, After(g, m, t), c) || SomebodyOwes(g, After(g, m, t).ts, c))
  {
    assert CalcOk(g, c);
  }

  lemma SettingIsFollowed(g: Graph, a: Labels, m: Moment, t: nat, c: nat)
    requires Wf(g) && Domains(g, a) && c < |g.calcs| && OneDomain(g, a, c) && Followed(g, m, c)
    requires t < |m.ts| && m.ts[t] != [] && !Blocked(a, m.ts, t) && Top(m.ts[t]).phase == Waiting
    ensures SeenAll(g, After(g, m, t), c) && (UpToDate(g, After(g, m, t), c) || SomebodyOwes(g, After(g, m, t).ts, c))
  {
    var v, f := After(g, m, t), Top(m.ts[t]);
    assert FrameOk(g, f);
    forall u | 0 <= u < |v.ts| && v.evaluated[u].Some? && UpdatesOnTop(g, v.ts[u], c)
      ensures UnchangedSince(g, v, c, v.evaluated[u].value)
    {
      assert u != t && UnchangedSince(g, m, c, m.evaluated[u].value);
      if g.calcs[c].Reads(f.pv) {
        SettersAreBlocked(g, a, m, t, u, c);
      }
    }
    if g.calcs[c].Reads(f.pv) {
      SettingOwes(g, m.ts[t], c);
      assert Owes(g, v.ts[t], c);
    } else if !UpToDate(g, m, c) {
      StillOwed(g, m.ts, t, c);
    }
  }

  lemma StillOwed(g: Graph, ts: seq<Stack>, t: nat, c: nat)
    requires Wf(g) && t < |ts| && ts[t] != [] && StackOk(g, ts[t]) && SomebodyOwes(g, ts, c)
    requires !UpdatesOnTop(g, ts[t], c)
    ensures SomebodyOwes(g, ts[t := Next(g, ts[t])], c)
  {
    if Owes(g, ts[t], c) {
      NextOwes(g, ts[t], c);
    }
    OwedElsewhere(g, ts, t, Next(g, ts[t]), c);
  }

  lemma OtherStepsAreFollowed(g: Graph, m: Moment, t: nat, c: nat)
    requires Wf(g) && c < |g.calcs| && Followed(g, m, c) && t < |m.ts| && m.ts[t] != [] && Top(m.ts[t]).phase != Waiting
    requires Top(m.ts[t]).phase == Updating ==> m.evaluated[t].Some?
    ensures SeenAll(g, After(g, m, t), c) && (UpToDate(g, After(g, m, t), c) || SomebodyOwes(g, After(g, m, t).ts, c))
  {
    var v, f := After(g, m, t), Top(m.ts[t]);
    assert FrameOk(g, f) && ParserOk(g, f.pv);
    assert v.changed == m.changed && v.evaluated[t].None?;
    forall u | 0 <= u < |v.ts| && v.evaluated[u].Some? && UpdatesOnTop(g, v.ts[u], c)
      ensures UnchangedSince(g, v, c, v.evaluated[u].value)
    {
      assert u != t && UnchangedSince(g, m, c, m.evaluated[u].value);
    }
    if UpdatesOnTop(g, m.ts[t], c) {
      assert UnchangedSince(g, m, c, m.evaluated[t].value);
    } else if !UpToDate(g, m, c) {
      StillOwed(g, m.ts, t, c);
    }
  }

  lemma GoesIsFollowed(g: Graph, a: Labels, m: Moment, t: nat, v: Moment, c: nat)
    requires Wf(g) && Domains(g, a) && c < |g.calcs| && OneDomain(g, a, c) && Followed(g, m, c) && Goes(g, a, m, t, v)
    ensures Followed(g, v, c)
  {
    GoesKeepsOk(g, a, m, t, v);
    if m.ts[t] == [] {
      if SomebodyOwes(g, m.ts, c) {
        OwedElsewhere(g, m.ts, t, v.ts[t], c);
      }
    } else if Top(m.ts[t]).phase == Waiting {
      SettingIsFollowed(g, a, m, t, c);
    } else if Top(m.ts[t]).phase == Updating && m.evaluated[t].None? {
      EvaluatingIsFollowed(g, m, t, c);
    } else {
      OtherStepsAreFollowed(g, m, t, c);
    }
  }

  lemma MoveIsFollowed(g: Graph, a: Labels, m: Moment, x: Moment, c: nat)
    requires Wf(g) && Domains(g, a) && c < |g.calcs| && OneDomain(g, a, c) && Followed(g, m, c) && Moves(g, a, m, x)
    ensures Followed(g, x, c)
  {
    var t: nat :| Goes(g, a, m, t, x);
    GoesIsFollowed(g, a, m, t, x, c);
  }

  lemma NextIsFollowed(g: Graph, a: Labels, run: seq<Moment>, n: nat, c: nat)
    requires Wf(g) && Domains(g, a) && c < |g.calcs| && OneDomain(g, a, c)
    requires IsRun(g, a, run) && n + 1 < |run| && Followed(g, run[n], c)
    ensures Followed(g, run[n + 1], c)
  {
    assert MovesAt(g, a, run, n);
    MoveIsFollowed(g, a, run[n], run[n + 1], c);
  }

  lemma {:induction false} RunIsFollowed(g: Graph, a: Labels, run: seq<Moment>, start: Moment, n: nat, c: nat)
    requires Wf(g) && Domains(g, a) && c < |g.calcs| && OneDomain(g, a, c)
    requires IsRun(g, a, run) && n < |run| && start == run[0] && Followed(g, start, c)
    ensures Followed(g, run[n], c)
    decreases n
  {
    if n > 0 {
      RunIsFollowed(g, a, run, start, n - 1, c);
      NextIsFollowed(g, a, run, n - 1, c);
    }
  }

  lemma StartIsFollowed(g: Graph, n: nat, c: nat)
    requires Wf(g) && c < |g.calcs|
    ensures Followed(g, Start(g, n), c)
  {
    assert CalcOk(g, c);
  }

  lemma IdleOweNothing(g: Graph, m: Moment, c: nat)
    requires Wf(g) && c < |g.calcs| && Followed(g, m, c) && AllIdle(m.ts)
    ensures UpToDate(g, m, c)
  {
  }

  lemma UpToDateAtEnd(g: Graph, a: Labels, run: seq<Moment>, c: nat, n: nat)
    requires Wf(g) && Domains(g, a) && c < |g.calcs| && OneDomain(g, a, c)
    requires IsRun(g, a, run) && run[0] == Start(g, n) && AllIdle(run[|run| - 1].ts)
    ensures UpToDate(g, run[|run| - 1], c)
  {
    StartIsFollowed(g, n, c);
    RunIsFollowed(g, a, run, Start(g, n), |run| - 1, c);
    IdleOweNothing(g, run[|run| - 1], c);
  }

  lemma OneDomainIsUpToDate(g: Graph, a: Labels, c: nat, n: nat)
    requires Wf(g) && Domains(g, a) && c < |g.calcs| && OneDomain(g, a, c)
    ensures AlwaysUpToDate(g, a, c, n)
  {
    forall m | Leads(g, a, Start(g, n), m) && AllIdle(m.ts) ensures UpToDate(g, m, c) {
      var run :| IsRun(g, a, run) && run[0] == Start(g, n) && run[|run| - 1] == m;
      UpToDateAtEnd(g, a, run, c, n);
    }
  }

  // ----- what a thread has still to update -----

  ghost function Rest(g: Graph, f: Frame): seq<nat>
    requires Wf(g) && FrameOk(g, f)
  {
    assert ParserOk(g, f.pv);
    match f.phase
    case Waiting => UpdatePaths.Updates(g, f.pv)
    case Nested => UpdatesFrom(g, f.pv, f.k + 1)
    case _ => UpdatesFrom(g, f.pv, f.k)
  }

  ghost function ToDo(g: Graph, s: Stack): seq<nat>
    requires Wf(g) && StackOk(g, s)
  {
    if s == [] then []
    else
      BelowIsOk(g, s);
      Rest(g, Top(s)) + ToDo(g, Below(s))
  }

  lemma BelowIsOk(g: Graph, s: Stack)
    requires Wf(g) && s != [] && StackOk(g, s)
    ensures FrameOk(g, Top(s)) && StackOk(g, Below(s))
  {
    forall i | 0 <= i < |s| - 1 ensures FrameOk(g, Below(s)[i]) {
      assert FrameOk(g, s[i]);
    }
    forall i | 0 <= i < |s| - 2 ensures Below(s)[i].phase == Nested && Follows(g, Below(s)[i], Below(s)[i + 1]) {
      assert Follows(g, s[i], s[i + 1]);
    }
  }

  lemma ToDoOnTop(g: Graph, below: Stack, f: Frame)
    requires Wf(g) && StackOk(g, below + [f])
    ensures StackOk(g, below) && FrameOk(g, f) && ToDo(g, below + [f]) == Rest(g, f) + ToDo(g, below)
  {
    var s := below + [f];
    BelowIsOk(g, s);
    assert Below(s) == below && Top(s) == f;
  }

  /** Publishing takes the first off the list, no other step changes the list. */
  lemma ToDoNext(g: Graph, s: Stack)
    requires Wf(g) && s != [] && StackOk(g, s)
    ensures StackOk(g, Next(g, s))
    ensures var f := Top(s);
            ToDo(g, s) == (if f.phase == Updating then [g.notify[f.pv][f.k]] else []) + ToDo(g, Next(g, s))
  {
    var f, below := Top(s), Below(s);
    assert s == below + [f];
    NextIsOk(g, s);
    NextPhase(g, below, f);
    ToDoOnTop(g, below, f);
    if f.phase == Updating {
      ToDoPublished(g, below, f, g.notify[f.pv][f.k], Next(g, s));
    } else {
      ToDoKept(g, below, f, Next(g, s));
    }
  }

  lemma ToDoKept(g: Graph, below: Stack, f: Frame, s: Stack)
    requires Wf(g) && StackOk(g, below) && FrameOk(g, f) && StackOk(g, s) && NextIs(g, below, f, s)
    requires f.phase != Updating
    ensures ToDo(g, s) == Rest(g, f) + ToDo(g, below)
  {
    if s == below {
      assert Rest(g, f) + ToDo(g, below) == ToDo(g, below);
    } else {
      var h := s[|below|];
      ToDoOnTop(g, below, h);
      SameRest(g, below, f, s, h);
    }
  }

  lemma SameRest(g: Graph, below: Stack, f: Frame, s: Stack, h: Frame)
    requires Wf(g) && FrameOk(g, f) && FrameOk(g, h) && NextIs(g, below, f, s) && f.phase != Updating
    requires s == below + [h]
    ensures Rest(g, h) == Rest(g, f)
  {
    assert s[|below|] == h;
  }

  lemma UpdatesOneByOne(g: Graph, p: nat, k: nat, c: nat)
    requires Wf(g) && p < g.Size() && k < |g.notify[p]| && c == g.notify[p][k] && c < |g.calcs|
    ensures UpdatesFrom(g, p, k) == UpdatesOf(g, c) + UpdatesFrom(g, p, k + 1)
  {
    assert ParserOk(g, p) && CalcOk(g, c);
  }

  lemma ToDoPublished(g: Graph, below: Stack, f: Frame, c: nat, s: Stack)
    requires Wf(g) && StackOk(g, below) && FrameOk(g, f) && StackOk(g, s) && NextIs(g, below, f, s)
    requires f.phase == Updating && c == g.notify[f.pv][f.k]
    ensures Rest(g, f) + ToDo(g, below) == [c] + ToDo(g, s)
  {
    UpdatesOneByOne(g, f.pv, f.k, c);
    assert CalcOk(g, c);
    if g.calcs[c].out.None? {
      ToDoLeaf(g, below, f, c);
    } else {
      ToDoNested(g, below, f, c, g.calcs[c].out.value, below + [f.(phase := Nested)]);
    }
  }

  lemma LeafUpdates(g: Graph, c: nat)
    requires Wf(g) && c < |g.calcs| && g.calcs[c].out == None
    ensures UpdatesOf(g, c) == [c]
  {
    assert [c] + [] == [c];
  }

  lemma ToDoLeaf(g: Graph, below: Stack, f: Frame, c: nat)
    requires Wf(g) && c < |g.calcs| && g.calcs[c].out == None && f.pv < g.Size() && f.k < |g.notify[f.pv]|
    requires StackOk(g, below + [Frame(f.pv, f.k + 1, Looping)])
    ensures StackOk(g, below)
    ensures (UpdatesOf(g, c) + UpdatesFrom(g, f.pv, f.k + 1)) + ToDo(g, below)
         == [c] + ToDo(g, below + [Frame(f.pv, f.k + 1, Looping)])
  {
    var h := Frame(f.pv, f.k + 1, Looping);
    ToDoOnTop(g, below, h);
    LeafUpdates(g, c);
    Associative([c], Rest(g, h), ToDo(g, below));
  }

  lemma Regrouped(a: seq<nat>, b: seq<nat>, c: seq<nat>, d: seq<nat>)
    ensures ((a + b) + c) + d == a + (b + (c + d))
  {
  }

  lemma ToDoNested(g: Graph, below: Stack, f: Frame, c: nat, q: nat, nested: Stack)
    requires Wf(g) && c < |g.calcs| && g.calcs[c].out == Some(q) && q < g.Size()
    requires f.pv < g.Size() && f.k < |g.notify[f.pv]| && nested == below + [f.(phase := Nested)]
    requires StackOk(g, nested + [Frame(q, 0, Waiting)])
    ensures StackOk(g, below)
    ensures (UpdatesOf(g, c) + UpdatesFrom(g, f.pv, f.k + 1)) + ToDo(g, below)
         == [c] + ToDo(g, nested + [Frame(q, 0, Waiting)])
  {
    ToDoOnTop(g, nested, Frame(q, 0, Waiting));
    ToDoOnTop(g, below, f.(phase := Nested));
    Regrouped([c], UpdatePaths.Updates(g, q), UpdatesFrom(g, f.pv, f.k + 1), ToDo(g, below));
  }

  // ----- one thread alone -----

  /** No other thread is in the way of the push thread `t` is in. */
  ghost predicate Undisturbed(a: Labels, ts: seq<Stack>, t: nat)
    requires t < |ts|
  {
    ts[t] != [] && ts[t][0].pv < |a| && (a[ts[t][0].pv] != null ==> FreeFor(a, ts, t, a[ts[t][0].pv]))
  }

  /** Where thread `t` goes alone, nothing else moves. */
  ghost predicate Alone(g: Graph, m: Moment, t: nat, v: Moment)
  {
    && |v.ts| == |m.ts| && |v.evaluated| == |m.evaluated| && |v.changed| == |m.changed| && |v.basis| == |m.basis|
    && m.clock <= v.clock
    && (forall u :: 0 <= u < |m.ts| && u != t ==> v.ts[u] == m.ts[u])
    && (forall u :: 0 <= u < |m.evaluated| && u != t ==> v.evaluated[u] == m.evaluated[u])
    && (forall p :: 0 <= p < |m.changed| ==> m.changed[p] <= v.changed[p])
  }

  lemma AloneTwice(g: Graph, m: Moment, t: nat, x: Moment, v: Moment)
    requires Alone(g, m, t, x) && Alone(g, x, t, v)
    ensures Alone(g, m, t, v)
  {
  }

  lemma BottomStays(g: Graph, s: Stack)
    requires Wf(g) && s != [] && StackOk(g, s) && Next(g, s) != []
    ensures Next(g, s)[0].pv == s[0].pv
  {
    assert FrameOk(g, Top(s));
  }

  /** The next step of thread `t` goes through. */
  lemma StepAlone(g: Graph, a: Labels, m: Moment, t: nat)
    requires Wf(g) && Domains(g, a) && MomentOk(g, m) && t < |m.ts| && m.ts[t] != [] && Undisturbed(a, m.ts, t)
    ensures var v := After(g, m, t);
            && MomentOk(g, v) && Leads(g, a, m, v) && Alone(g, m, t, v)
            && (v.ts[t] != [] ==> Undisturbed(a, v.ts, t) && v.ts[t][0].pv == m.ts[t][0].pv)
  {
    var v := After(g, m, t);
    AfterIsOk(g, m, t);
    StackHasOneLabel(g, a, m.ts[t]);
    assert FrameOk(g, Top(m.ts[t])) && !Blocked(a, m.ts, t);
    OneStep(g, a, m, t, v);
    if v.ts[t] != [] && v.ts[t] != m.ts[t] {
      BottomStays(g, m.ts[t]);
    }
    if v.ts[t] != [] && a[v.ts[t][0].pv] != null {
      forall u | 0 <= u < |v.ts| && u != t ensures !Holds(a, v.ts[u], a[v.ts[t][0].pv]) {
        assert v.ts[u] == m.ts[u];
      }
    }
  }

  /** The cells the thread has set in this push, it has set at moment `n` or later. */
  ghost predicate SetSince(g: Graph, m: Moment, t: nat, n: nat)
  {
    && t < |m.ts| && n <= m.clock
    && forall i :: 0 <= i < |m.ts[t]| && m.ts[t][i].phase != Waiting ==>
         m.ts[t][i].pv < |m.changed| && m.changed[m.ts[t][i].pv] >= n
  }

  lemma StepSetsSince(g: Graph, m: Moment, t: nat, n: nat)
    requires Wf(g) && MomentOk(g, m) && t < |m.ts| && m.ts[t] != [] && SetSince(g, m, t, n)
    ensures SetSince(g, After(g, m, t), t, n)
  {
    var s, v := m.ts[t], After(g, m, t);
    assert FrameOk(g, Top(s));
    forall i | 0 <= i < |v.ts[t]| && v.ts[t][i].phase != Waiting
      ensures v.ts[t][i].pv < |v.changed| && v.changed[v.ts[t][i].pv] >= n
    {
      if v.ts[t] != s {
        HeldAfter(g, s, i);
      }
    }
  }

  ghost predicate SomeInputSince(g: Graph, m: Moment, c: nat, n: nat)
    requires c < |g.calcs|
  {
    exists p: nat :: g.calcs[c].Reads(p) && p < |m.changed| && m.changed[p] >= n
  }

  lemma InputSinceStays(g: Graph, m: Moment, t: nat, v: Moment, c: nat, n: nat)
    requires c < |g.calcs| && Alone(g, m, t, v) && SomeInputSince(g, m, c, n)
    ensures SomeInputSince(g, v, c, n)
  {
    var p: nat :| g.calcs[c].Reads(p) && p < |m.changed| && m.changed[p] >= n;
    assert v.changed[p] >= n;
  }

  lemma AtUpdate(g: Graph, m: Moment, t: nat, c: nat, n: nat)
    requires Wf(g) && MomentOk(g, m) && t < |m.ts| && SetSince(g, m, t, n) && c < |g.calcs|
    requires UpdatesOnTop(g, m.ts[t], c)
    ensures SomeInputSince(g, m, c, n)
  {
    var f := m.ts[t][|m.ts[t]| - 1];
    assert FrameOk(g, f) && ParserOk(g, f.pv) && g.calcs[c].Reads(f.pv);
  }

  lemma CostGoesDown(g: Graph, m: Moment, t: nat)
    requires Wf(g) && MomentOk(g, m) && t < |m.ts| && m.ts[t] != []
    ensures var v := After(g, m, t);
            StackOk(g, v.ts[t]) && Todo2(g, v, t) < Todo2(g, m, t)
  {
    EveryStepCounts(g, m.ts[t]);
  }

  /** Twice the cost of the push, one less once the formulas are evaluated. */
  ghost function Todo2(g: Graph, m: Moment, t: nat): nat
    requires Wf(g) && t < |m.ts| && StackOk(g, m.ts[t])
  {
    var n := 2 * Cost(g, m.ts[t]) + 1;
    if t < |m.evaluated| && m.evaluated[t].Some? then n - 1 else n
  }

  /** What thread `t` leaves when it has run alone to the end of its push. */
  ghost predicate Finished(g: Graph, a: Labels, m: Moment, t: nat, v: Moment)
    requires Wf(g)
  {
    MomentOk(g, v) && Leads(g, a, m, v) && Alone(g, m, t, v) && t < |v.ts| && v.ts[t] == []
  }

  lemma FinishedBefore(g: Graph, a: Labels, m: Moment, t: nat, x: Moment, v: Moment)
    requires Wf(g) && Leads(g, a, m, x) && Alone(g, m, t, x) && Finished(g, a, x, t, v)
    ensures Finished(g, a, m, t, v)
  {
    Then(g, a, m, x, v);
    AloneTwice(g, m, t, x, v);
  }

  /** What the next step of the thread does to its list. */
  lemma ListAfter(g: Graph, m: Moment, t: nat)
    requires Wf(g) && MomentOk(g, m) && t < |m.ts| && m.ts[t] != []
    ensures MomentOk(g, After(g, m, t)) && StackOk(g, After(g, m, t).ts[t]) && StackOk(g, Next(g, m.ts[t]))
    ensures ToDo(g, After(g, m, t).ts[t]) == ToDo(g, if Evaluating(m, t) then m.ts[t] else Next(g, m.ts[t]))
  {
    AfterIsOk(g, m, t);
    NextIsOk(g, m.ts[t]);
  }

  predicate Evaluating(m: Moment, t: nat)
  {
    t < |m.ts| && t < |m.evaluated| && m.ts[t] != [] && Top(m.ts[t]).phase == Updating && m.evaluated[t].None?
  }

  lemma BasisStays(g: Graph, m: Moment, t: nat, c: nat)
    requires Wf(g) && MomentOk(g, m) && t < |m.ts| && m.ts[t] != [] && c < |g.calcs|
    requires Evaluating(m, t) || !UpdatesOnTop(g, m.ts[t], c)
    ensures c < |After(g, m, t).basis| && After(g, m, t).basis[c] == m.basis[c]
  {
    assert FrameOk(g, Top(m.ts[t])) && ParserOk(g, Top(m.ts[t]).pv);
  }

  lemma NotOnList(g: Graph, m: Moment, t: nat, c: nat)
    requires Wf(g) && MomentOk(g, m) && t < |m.ts| && m.ts[t] != [] && c < |g.calcs| && c !in ToDo(g, m.ts[t])
    ensures MomentOk(g, After(g, m, t)) && StackOk(g, After(g, m, t).ts[t]) && c !in ToDo(g, After(g, m, t).ts[t])
    ensures After(g, m, t).basis[c] == m.basis[c]
  {
    ListAfter(g, m, t);
    if !Evaluating(m, t) {
      ShorterList(g, m.ts[t], c);
    }
    BasisStays(g, m, t, c);
  }

  lemma ShorterList(g: Graph, s: Stack, c: nat)
    requires Wf(g) && s != [] && StackOk(g, s) && c !in ToDo(g, s)
    ensures StackOk(g, Next(g, s)) && c !in ToDo(g, Next(g, s)) && !UpdatesOnTop(g, s, c)
  {
    ToDoNext(g, s);
    assert FrameOk(g, Top(s));
  }

  lemma OnList(g: Graph, m: Moment, t: nat, c: nat)
    requires Wf(g) && MomentOk(g, m) && t < |m.ts| && m.ts[t] != [] && c in ToDo(g, m.ts[t])
    ensures MomentOk(g, After(g, m, t)) && StackOk(g, After(g, m, t).ts[t])
    ensures c in ToDo(g, After(g, m, t).ts[t]) || UpdatesOnTop(g, m.ts[t], c)
  {
    ListAfter(g, m, t);
    ToDoNext(g, m.ts[t]);
    assert FrameOk(g, Top(m.ts[t]));
  }

  lemma {:induction false} RunToEnd(g: Graph, a: Labels, m: Moment, t: nat, c: nat, n: nat) returns (v: Moment)
    requires Wf(g) && Domains(g, a) && MomentOk(g, m) && t < |m.ts| && c < |g.calcs|
    requires m.ts[t] != [] ==> Undisturbed(a, m.ts, t)
    ensures Finished(g, a, m, t, v)
    ensures c !in ToDo(g, m.ts[t]) ==> v.basis[c] == m.basis[c]
    ensures c in ToDo(g, m.ts[t]) && SetSince(g, m, t, n) ==> SomeInputSince(g, v, c, n)
    decreases Todo2(g, m, t)
  {
    if m.ts[t] == [] {
      Stays(g, a, m);
      v := m;
    } else {
      StepAlone(g, a, m, t);
      CostGoesDown(g, m, t);
      v := RunToEnd(g, a, After(g, m, t), t, c, n);
      FinishedBefore(g, a, m, t, After(g, m, t), v);
      if c !in ToDo(g, m.ts[t]) {
        NotOnList(g, m, t, c);
      } else if SetSince(g, m, t, n) {
        OnList(g, m, t, c);
        StepSetsSince(g, m, t, n);
        if UpdatesOnTop(g, m.ts[t], c) {
          AtUpdate(g, m, t, c, n);
          InputSinceStays(g, m, t, v, c, n);
        }
      }
    }
  }

  /** Thread `t` is about to evaluate the formulas of `c`, for the last time in this push. */
  ghost predicate AtLastUpdate(g: Graph, m: Moment, t: nat, c: nat)
    requires Wf(g)
  {
    && MomentOk(g, m) && t < |m.ts| && UpdatesOnTop(g, m.ts[t], c) && m.evaluated[t].None?
    && ToDo(g, m.ts[t]) != [] && c !in ToDo(g, m.ts[t])[1..]
  }

  /** A thread with `c` on its list gets, alone, to the last time it updates `c`. */
  lemma {:induction false} LastUpdate(g: Graph, a: Labels, m: Moment, t: nat, c: nat) returns (v: Moment)
    requires Wf(g) && Domains(g, a) && MomentOk(g, m) && t < |m.ts| && m.ts[t] != [] && Undisturbed(a, m.ts, t)
    requires c in ToDo(g, m.ts[t]) && (m.evaluated[t].Some? ==> c in ToDo(g, m.ts[t])[1..])
    ensures AtLastUpdate(g, v, t, c) && Leads(g, a, m, v) && Alone(g, m, t, v) && Undisturbed(a, v.ts, t)
    ensures v.ts[t][0].pv == m.ts[t][0].pv
    decreases Todo2(g, m, t)
  {
    ToDoNext(g, m.ts[t]);
    if UpdatesOnTop(g, m.ts[t], c) && c !in ToDo(g, m.ts[t])[1..] {
      Stays(g, a, m);
      v := m;
    } else {
      var x := After(g, m, t);
      StepAlone(g, a, m, t);
      CostGoesDown(g, m, t);
      StillToDo(g, m, t, c);
      v := LastUpdate(g, a, x, t, c);
      Then(g, a, m, x, v);
      AloneTwice(g, m, t, x, v);
    }
  }

  lemma StillToDo(g: Graph, m: Moment, t: nat, c: nat)
    requires Wf(g) && MomentOk(g, m) && t < |m.ts| && m.ts[t] != []
    requires c in ToDo(g, m.ts[t]) && (m.evaluated[t].Some? ==> c in ToDo(g, m.ts[t])[1..])
    requires !(UpdatesOnTop(g, m.ts[t], c) && c !in ToDo(g, m.ts[t])[1..])
    ensures MomentOk(g, After(g, m, t)) && |After(g, m, t).ts| == |m.ts|
    ensures var v := After(g, m, t);
            && v.ts[t] != [] && StackOk(g, v.ts[t]) && c in ToDo(g, v.ts[t])
            && (v.evaluated[t].Some? ==> c in ToDo(g, v.ts[t])[1..])
  {
    AfterIsOk(g, m, t);
    ListAfter(g, m, t);
    if Evaluating(m, t) {
      OtherFirst(g, m.ts[t], c);
    } else {
      LaterOnList(g, m.ts[t], c);
    }
  }

  lemma OtherFirst(g: Graph, s: Stack, c: nat)
    requires Wf(g) && s != [] && StackOk(g, s) && Top(s).phase == Updating && c in ToDo(g, s)
    requires !(UpdatesOnTop(g, s, c) && c !in ToDo(g, s)[1..])
    ensures c in ToDo(g, s)[1..]
  {
    ToDoNext(g, s);
    assert FrameOk(g, Top(s)) && ParserOk(g, Top(s).pv);
  }

  lemma LaterOnList(g: Graph, s: Stack, c: nat)
    requires Wf(g) && s != [] && StackOk(g, s) && c in ToDo(g, s)
    requires !(UpdatesOnTop(g, s, c) && c !in ToDo(g, s)[1..])
    ensures StackOk(g, Next(g, s)) && Next(g, s) != [] && c in ToDo(g, Next(g, s))
  {
    ToDoNext(g, s);
    assert FrameOk(g, Top(s)) && ParserOk(g, Top(s).pv);
    if Top(s).phase == Updating {
      OtherFirst(g, s, c);
      assert ToDo(g, s)[1..] == ToDo(g, Next(g, s));
    }
  }

  lemma {:induction false} InUpdates(g: Graph, p: nat, k: nat, j: nat, c: nat)
    requires Wf(g) && p < g.Size() && k <= j < |g.notify[p]| && g.notify[p][j] < |g.calcs|
    requires c in UpdatesOf(g, g.notify[p][j])
    ensures c in UpdatesFrom(g, p, k)
    decreases j - k
  {
    assert ParserOk(g, p) && CalcOk(g, g.notify[p][k]);
    if k < j {
      InUpdates(g, p, k + 1, j, c);
    }
  }

  /** Some source in the domain of `p` has every update on its list that setting `p` makes. */
  lemma {:induction false} SourceOf(g: Graph, a: Labels, p: nat, c: nat) returns (src: nat)
    requires Wf(g) && Domains(g, a) && Driven(g, p) && c in UpdatePaths.Updates(g, p)
    ensures src < g.Size() && g.owner[src].None? && a[src] == a[p] && c in UpdatePaths.Updates(g, src)
    decreases p
  {
    if g.owner[p].None? {
      src := p;
    } else {
      var r: nat :| r < p && Feeds(g, r, p) && Driven(g, r);
      var d := g.owner[p].value;
      assert CalcOk(g, d);
      var j :| 0 <= j < |g.notify[r]| && g.notify[r][j] == d;
      SameDomainBelow(g, a, r, j, p);
      assert c in UpdatesOf(g, d);
      InUpdates(g, r, 0, j, c);
      src := SourceOf(g, a, r, c);
    }
  }

  lemma NewPush(g: Graph, p: nat)
    requires Wf(g) && p < g.Size() && g.owner[p].None?
    ensures StackOk(g, [Frame(p, 0, Waiting)]) && ToDo(g, [Frame(p, 0, Waiting)]) == UpdatePaths.Updates(g, p)
  {
    var f := Frame(p, 0, Waiting);
    StartIsOk(g, [f]);
    assert [] + [f] == [f];
    ToDoOnTop(g, [], f);
  }

  lemma ElsewhereFree(a: Labels, ts: seq<Stack>, t: nat, s: Stack, m: Synchronizer)
    requires t < |ts| && FreeFor(a, ts, t, m)
    ensures FreeFor(a, ts[t := s], t, m)
  {
  }

  /** An idle thread begins a write of source `p` that nobody is in the way of. */
  lemma Begin(g: Graph, a: Labels, m: Moment, t: nat, p: nat) returns (v: Moment)
    requires Wf(g) && Domains(g, a) && MomentOk(g, m) && t < |m.ts| && m.ts[t] == [] && p < g.Size() && g.owner[p].None?
    requires a[p] != null ==> FreeFor(a, m.ts, t, a[p])
    ensures v == m.(ts := m.ts[t := [Frame(p, 0, Waiting)]])
    ensures MomentOk(g, v) && Leads(g, a, m, v) && Alone(g, m, t, v) && Undisturbed(a, v.ts, t)
  {
    v := m.(ts := m.ts[t := [Frame(p, 0, Waiting)]]);
    GoesKeepsOk(g, a, m, t, v);
    OneStep(g, a, m, t, v);
    if a[p] != null {
      ElsewhereFree(a, m.ts, t, [Frame(p, 0, Waiting)], a[p]);
    }
  }

  /** Every thread but `t` is idle. */
  predicate OthersIdle(ts: seq<Stack>, t: nat) { forall u :: 0 <= u < |ts| && u != t ==> ts[u] == [] }

  lemma IdleHoldNothing(a: Labels, ts: seq<Stack>, t: nat, m: Synchronizer)
    requires OthersIdle(ts, t)
    ensures FreeFor(a, ts, t, m)
  {
  }

  /** The thread has evaluated the formulas of `c` for the last time, and not yet published. */
  ghost predicate Holding(g: Graph, m: Moment, t: nat, c: nat)
    requires Wf(g)
  {
    && MomentOk(g, m) && t < |m.ts| && UpdatesOnTop(g, m.ts[t], c)
    && m.evaluated[t].Some? && m.evaluated[t].value < m.clock
    && ToDo(g, m.ts[t]) != [] && c !in ToDo(g, m.ts[t])[1..]
  }

  lemma Evaluate(g: Graph, a: Labels, m: Moment, t: nat, c: nat) returns (v: Moment)
    requires Wf(g) && Domains(g, a) && AtLastUpdate(g, m, t, c) && Undisturbed(a, m.ts, t)
    ensures Holding(g, v, t, c) && Leads(g, a, m, v) && Alone(g, m, t, v) && v.ts == m.ts
  {
    v := After(g, m, t);
    StepAlone(g, a, m, t);
  }

  lemma EvaluateAndWait(g: Graph, a: Labels, c: nat, n: nat, src: nat) returns (m: Moment)
    requires Wf(g) && Domains(g, a) && n >= 1 && c < |g.calcs|
    requires src < g.Size() && g.owner[src].None? && c in UpdatePaths.Updates(g, src)
    ensures Holding(g, m, 0, c) && |m.ts| == n && Leads(g, a, Start(g, n), m) && OthersIdle(m.ts, 0)
    ensures m.ts[0][0].pv == src
  {
    var m0 := Start(g, n);
    if a[src] != null {
      IdleHoldNothing(a, m0.ts, 0, a[src]);
    }
    var m1 := Begin(g, a, m0, 0, src);
    NewPush(g, src);
    var m2 := LastUpdate(g, a, m1, 0, c);
    m := Evaluate(g, a, m2, 0, c);
    Then(g, a, m0, m1, m2);
    Then(g, a, m0, m2, m);
    AloneTwice(g, m0, 0, m1, m2);
    AloneTwice(g, m0, 0, m2, m);
    StillIdle(g, m0, 0, m);
  }

  lemma StillIdle(g: Graph, m: Moment, t: nat, v: Moment)
    requires OthersIdle(m.ts, t) && Alone(g, m, t, v)
    ensures OthersIdle(v.ts, t)
  {
  }

  /** A whole write of `src` by thread 1, while thread 0 holds a mutex of another domain. */
  lemma WriteMeanwhile(g: Graph, a: Labels, m: Moment, c: nat, src: nat) returns (v: Moment)
    requires Wf(g) && Domains(g, a) && MomentOk(g, m) && |m.ts| >= 2 && c < |g.calcs| && OthersIdle(m.ts, 0)
    requires src < g.Size() && g.owner[src].None? && c in UpdatePaths.Updates(g, src)
    requires m.ts[0] != [] && m.ts[0][0].pv < |a| && a[m.ts[0][0].pv] != a[src]
    ensures Finished(g, a, m, 1, v) && SomeInputSince(g, v, c, m.clock)
  {
    if a[src] != null {
      OtherMutex(g, a, m.ts, a[src]);
    }
    var x := Begin(g, a, m, 1, src);
    NewPush(g, src);
    v := RunToEnd(g, a, x, 1, c, m.clock);
    Then(g, a, m, x, v);
    AloneTwice(g, m, 1, x, v);
  }

  lemma OtherMutex(g: Graph, a: Labels, ts: seq<Stack>, m: Synchronizer)
    requires Wf(g) && Domains(g, a) && |ts| >= 2 && StackOk(g, ts[0]) && OthersIdle(ts, 0)
    requires ts[0] != [] && ts[0][0].pv < |a| && a[ts[0][0].pv] != m
    ensures FreeFor(a, ts, 1, m)
  {
    forall i | 0 <= i < |ts[0]| ensures !HeldBy(a, ts[0][i], m) {
      OneMutex(g, a, ts[0], i);
    }
  }

  /** Publishing what was evaluated before, and going on to the end. */
  lemma PublishAndEnd(g: Graph, a: Labels, m: Moment, t: nat, c: nat) returns (v: Moment)
    requires Wf(g) && Domains(g, a) && c < |g.calcs| && Holding(g, m, t, c) && Undisturbed(a, m.ts, t)
    ensures Finished(g, a, m, t, v) && v.basis[c] == m.evaluated[t].value
  {
    var x := After(g, m, t);
    StepAlone(g, a, m, t);
    ToDoNext(g, m.ts[t]);
    assert FrameOk(g, Top(m.ts[t]));
    assert ToDo(g, m.ts[t])[1..] == ToDo(g, x.ts[t]);
    v := RunToEnd(g, a, x, t, c, 0);
    Then(g, a, m, x, v);
    AloneTwice(g, m, t, x, v);
  }

  lemma SourceOfInput(g: Graph, a: Labels, p: nat, c: nat) returns (src: nat)
    requires Wf(g) && Domains(g, a) && c < |g.calcs| && g.calcs[c].Reads(p) && Driven(g, p)
    ensures src < g.Size() && g.owner[src].None? && a[src] == a[p] && c in UpdatePaths.Updates(g, src)
  {
    assert CalcOk(g, c);
    var j :| 0 <= j < |g.notify[p]| && g.notify[p][j] == c;
    assert c in UpdatesOf(g, c);
    InUpdates(g, p, 0, j, c);
    src := SourceOf(g, a, p, c);
  }

  lemma FreeAgain(g: Graph, a: Labels, ts: seq<Stack>)
    requires Wf(g) && |a| == g.Size() && |ts| >= 2 && StackOk(g, ts[0]) && ts[0] != [] && OthersIdle(ts, 0)
    ensures Undisturbed(a, ts, 0)
  {
    assert FrameOk(g, ts[0][0]);
  }

  lemma IdleAfter(g: Graph, a: Labels, x: Moment, y: Moment)
    requires Wf(g) && |x.ts| >= 2 && OthersIdle(x.ts, 0) && Finished(g, a, x, 1, y)
    ensures |y.ts| == |x.ts| && OthersIdle(y.ts, 0) && y.ts[0] == x.ts[0]
  {
  }

  lemma NotUpToDate(g: Graph, m: Moment, c: nat, n: nat)
    requires c < |g.calcs| && c < |m.basis| && m.basis[c] < n && SomeInputSince(g, m, c, n)
    ensures !UpToDate(g, m, c)
  {
  }

  /** Two inputs with different mutexes: what was evaluated before the second was set may be published
      last, and stay. */
  lemma StaleForever(g: Graph, a: Labels, c: nat, n: nat, p: nat, q: nat) returns (m: Moment)
    requires Wf(g) && Domains(g, a) && n >= 2 && c < |g.calcs|
    requires g.calcs[c].Reads(p) && g.calcs[c].Reads(q) && Driven(g, p) && Driven(g, q) && a[p] != a[q]
    ensures Leads(g, a, Start(g, n), m) && AllIdle(m.ts) && !UpToDate(g, m, c)
  {
    var src := SourceOfInput(g, a, p, c);
    var other := SourceOfInput(g, a, q, c);
    var x := EvaluateAndWait(g, a, c, n, src);
    var y := WriteMeanwhile(g, a, x, c, other);
    IdleAfter(g, a, x, y);
    assert y.evaluated[0] == x.evaluated[0];
    FreeAgain(g, a, y.ts);
    m := PublishAndEnd(g, a, y, 0, c);
    Then(g, a, Start(g, n), x, y);
    Then(g, a, Start(g, n), y, m);
    InputSinceStays(g, y, 0, m, c, x.clock);
    NotUpToDate(g, m, c, x.clock);
  }

  /** At rest every calculated variable publishes what was evaluated after its inputs were set last, whatever
      the threads have done before, exactly when the inputs that writes reach share one mutex. */
  lemma UpToDateExactlyWhenOneDomain(g: Graph, a: Labels, c: nat, n: nat)
    requires Wf(g) && Domains(g, a) && c < |g.calcs| && n >= 2
    ensures AlwaysUpToDate(g, a, c, n) <==> OneDomain(g, a, c)
  {
    if OneDomain(g, a, c) {
      OneDomainIsUpToDate(g, a, c, n);
    } else {
      var p: nat, q: nat :| g.calcs[c].Reads(p) && g.calcs[c].Reads(q) && Driven(g, p) && Driven(g, q) && a[p] != a[q];
      var m := StaleForever(g, a, c, n, p, q);
    }
  }
}
