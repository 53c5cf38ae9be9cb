/** Concurrent writes with their values: what they leave is what the same writes leave one after the
    other, in the order in which they took their mutexes. */
module ConcurrentWrites {
  import opened DataValues
  import opened CalcGraph
  import opened CalcEngine
  import opened PushTheorems
  import opened SyncDomains
  import opened SyncProtocol

  // ----- domains of the store -----

  /** What one write may touch: the variables of one mutex, or a single variable that has none. */
  datatype Domain = Locked(m: Synchronizer) | Lone(p: nat)

  ghost function DomainOf(a: Labels, p: nat): Domain
    requires p < |a|
  {
    if a[p] == null then Lone(p) else Locked(a[p])
  }

  ghost predicate SetUp(g: Graph, a: Labels) { Wf(g) && Domains(g, a) }

  /** Equal but for what calculated variables publish that stand between two domains. No other calculated
      variable reads that. */
  ghost predicate Same(g: Graph, a: Labels, x: Store, y: Store)
    requires Wf(g) && |a| == g.Size() && Fits(g, x) && Fits(g, y)
  {
    && x.cells == y.cells
    && forall c: nat :: c < |g.calcs| && OneDomain(g, a, c) ==> x.pubs[c] == y.pubs[c]
  }

  /** Where every calculated variable has its own parser variable there is nothing of that kind. */
  lemma OwnParserVariablesJoin(g: Graph, a: Labels, x: Store, y: Store)
    requires SetUp(g, a) && Fits(g, x) && Fits(g, y)
    requires forall c :: 0 <= c < |g.calcs| ==> g.calcs[c].out.Some?
    ensures Same(g, a, x, y) <==> x == y
  {
    forall c: nat | c < |g.calcs| ensures OneDomain(g, a, c) {
      OwnParserVariableJoins(g, a, c);
    }
    if Same(g, a, x, y) {
      assert x.pubs == y.pubs;
    }
  }

  ghost predicate CellIn(g: Graph, a: Labels, d: Domain, p: nat)
    requires Wf(g) && |a| == g.Size()
  {
    Driven(g, p) && DomainOf(a, p) == d
  }

  ghost predicate CalcIn(g: Graph, a: Labels, d: Domain, c: nat)
    requires Wf(g) && |a| == g.Size() && c < |g.calcs|
  {
    OneDomain(g, a, c) && exists p: nat :: g.calcs[c].Reads(p) && CellIn(g, a, d, p)
  }

  /** Equal in what a write in domain `d` may read. */
  ghost predicate AgreeIn(g: Graph, a: Labels, d: Domain, x: Store, y: Store)
    requires Wf(g) && |a| == g.Size() && Fits(g, x) && Fits(g, y)
  {
    && (forall p: nat :: p < g.Size() && (CellIn(g, a, d, p) || !Driven(g, p)) ==> x.cells[p] == y.cells[p])
    && (forall c: nat :: c < |g.calcs| && CalcIn(g, a, d, c) ==> x.pubs[c] == y.pubs[c])
  }

  /** Equal but for what a write in domain `d` may change. */
  ghost predicate SameOutside(g: Graph, a: Labels, d: Domain, x: Store, y: Store)
    requires Wf(g) && |a| == g.Size() && Fits(g, x) && Fits(g, y)
  {
    && (forall p: nat :: p < g.Size() && !CellIn(g, a, d, p) ==> x.cells[p] == y.cells[p])
    && (forall c: nat :: c < |g.calcs| && OneDomain(g, a, c) && !CalcIn(g, a, d, c) ==> x.pubs[c] == y.pubs[c])
  }

  lemma NotifiedIsIn(g: Graph, a: Labels, d: Domain, p: nat, k: nat)
    requires SetUp(g, a) && CellIn(g, a, d, p) && k < |g.notify[p]|
    ensures g.notify[p][k] < |g.calcs| && (OneDomain(g, a, g.notify[p][k]) ==> CalcIn(g, a, d, g.notify[p][k]))
  {
    assert ParserOk(g, p);
  }

  lemma InputsOfNotified(g: Graph, a: Labels, d: Domain, c: nat, q: nat)
    requires SetUp(g, a) && c < |g.calcs| && CalcIn(g, a, d, c) && g.calcs[c].Reads(q)
    ensures CellIn(g, a, d, q) || !Driven(g, q)
  {
    var p: nat :| g.calcs[c].Reads(p) && CellIn(g, a, d, p);
    InputIsLabelled(g, a, c, p);
    assert OneDomain(g, a, c);
  }

  lemma InputIsLabelled(g: Graph, a: Labels, c: nat, p: nat)
    requires SetUp(g, a) && c < |g.calcs| && g.calcs[c].Reads(p) && Driven(g, p)
    ensures a[p] != null
  {
    assert CalcOk(g, c);
    NotifyingIsLabelled(g, a, p);
  }

  lemma OutputIsIn(g: Graph, a: Labels, d: Domain, c: nat, q: nat)
    requires SetUp(g, a) && c < |g.calcs| && CalcIn(g, a, d, c) && g.calcs[c].out == Some(q)
    ensures q < g.Size() && CellIn(g, a, d, q)
  {
    var p: nat :| g.calcs[c].Reads(p) && CellIn(g, a, d, p);
    assert CalcOk(g, c);
    var k :| 0 <= k < |g.notify[p]| && g.notify[p][k] == c;
    SameDomainBelow(g, a, p, k, q);
  }

  /** Two domains have nothing in common. */
  lemma DomainsAreApart(g: Graph, a: Labels, d: Domain, e: Domain, c: nat)
    requires SetUp(g, a) && c < |g.calcs| && CalcIn(g, a, d, c) && CalcIn(g, a, e, c)
    ensures d == e
  {
    var p: nat :| g.calcs[c].Reads(p) && CellIn(g, a, e, p);
    InputsOfNotified(g, a, d, c, p);
  }

  // ----- a push stays in its domain -----

  lemma ComputeIn(g: Graph, a: Labels, d: Domain, x: Store, y: Store, c: nat)
    requires SetUp(g, a) && Fits(g, x) && Fits(g, y) && AgreeIn(g, a, d, x, y)
    requires c < |g.calcs| && CalcIn(g, a, d, c)
    ensures CalcOk(g, c) && Compute(g.calcs[c], x.cells) == Compute(g.calcs[c], y.cells)
  {
    assert CalcOk(g, c);
    var cv := g.calcs[c];
    forall q: nat | cv.Reads(q) ensures q < g.Size() && x.cells[q] == y.cells[q] {
      InputsOfNotified(g, a, d, c, q);
    }
    assert forall k :: 0 <= k < |cv.valueIn| ==> cv.Reads(cv.valueIn[k]);
    assert forall k :: 0 <= k < |cv.statusIn| ==> cv.Reads(cv.statusIn[k]);
    ComputeReadsInputsOnly(cv, x.cells, y.cells);
  }

  /** What a step in domain `d` does to two stores it cannot tell apart. */
  ghost predicate Confined(g: Graph, a: Labels, d: Domain, x: Store, y: Store, x1: Store, y1: Store)
    requires Wf(g) && |a| == g.Size()
  {
    && Fits(g, x) && Fits(g, y) && Fits(g, x1) && Fits(g, y1)
    && SameOutside(g, a, d, x, x1) && SameOutside(g, a, d, y, y1) && AgreeIn(g, a, d, x1, y1)
  }

  lemma ConfinedTwice(g: Graph, a: Labels, d: Domain, x: Store, y: Store, x1: Store, y1: Store, x2: Store, y2: Store)
    requires Wf(g) && |a| == g.Size()
    requires Confined(g, a, d, x, y, x1, y1) && Confined(g, a, d, x1, y1, x2, y2)
    ensures Confined(g, a, d, x, y, x2, y2)
  {
  }

  lemma {:induction false} PushIsConfined(g: Graph, a: Labels, d: Domain, x: Store, y: Store, p: nat, cell: Cell)
    requires SetUp(g, a) && Fits(g, x) && Fits(g, y) && AgreeIn(g, a, d, x, y)
    requires p < g.Size() && CellIn(g, a, d, p)
    ensures Confined(g, a, d, x, y, Push(g, x, p, cell), Push(g, y, p, cell))
    decreases g.Size() - p, |g.notify[p]| + 1
  {
    var x1, y1 := SetCell(x, p, cell), SetCell(y, p, cell);
    assert Confined(g, a, d, x, y, x1, y1);
    PushRestIsConfined(g, a, d, x1, y1, p, 0);
    ConfinedTwice(g, a, d, x, y, x1, y1, PushRest(g, x1, p, 0), PushRest(g, y1, p, 0));
  }

  lemma {:induction false} PushRestIsConfined(g: Graph, a: Labels, d: Domain, x: Store, y: Store, p: nat, k: nat)
    requires SetUp(g, a) && Fits(g, x) && Fits(g, y) && AgreeIn(g, a, d, x, y)
    requires p < g.Size() && CellIn(g, a, d, p) && k <= |g.notify[p]|
    ensures Confined(g, a, d, x, y, PushRest(g, x, p, k), PushRest(g, y, p, k))
    decreases g.Size() - p, |g.notify[p]| - k
  {
    if k < |g.notify[p]| {
      var c := g.notify[p][k];
      assert ParserOk(g, p) && CalcOk(g, c);
      NotifiedIsIn(g, a, d, p, k);
      var x1, y1 := Update(g, x, c), Update(g, y, c);
      if OneDomain(g, a, c) {
        UpdateIsConfined(g, a, d, x, y, c);
      } else {
        BetweenIsConfined(g, a, d, x, y, c, Compute(g.calcs[c], x.cells), Compute(g.calcs[c], y.cells));
      }
      PushRestIsConfined(g, a, d, x1, y1, p, k + 1);
      ConfinedTwice(g, a, d, x, y, x1, y1, PushRest(g, x1, p, k + 1), PushRest(g, y1, p, k + 1));
    }
  }

  lemma {:induction false} UpdateIsConfined(g: Graph, a: Labels, d: Domain, x: Store, y: Store, c: nat)
    requires SetUp(g, a) && Fits(g, x) && Fits(g, y) && AgreeIn(g, a, d, x, y)
    requires c < |g.calcs| && CalcIn(g, a, d, c)
    ensures Confined(g, a, d, x, y, Update(g, x, c), Update(g, y, c))
    decreases Height(g, c), Width(g, c) + 3
  {
    ComputeIn(g, a, d, x, y, c);
    PublishIsConfined(g, a, d, x, y, c, Compute(g.calcs[c], x.cells));
  }

  lemma {:induction false} PublishIsConfined(g: Graph, a: Labels, d: Domain, x: Store, y: Store, c: nat, dv: DataValue)
    requires SetUp(g, a) && Fits(g, x) && Fits(g, y) && AgreeIn(g, a, d, x, y)
    requires c < |g.calcs| && CalcIn(g, a, d, c)
    ensures Confined(g, a, d, x, y, Publish(g, x, c, dv), Publish(g, y, c, dv))
    decreases Height(g, c), Width(g, c) + 2
  {
    assert CalcOk(g, c);
    var x1, y1 := x.(pubs := x.pubs[c := dv]), y.(pubs := y.pubs[c := dv]);
    assert Confined(g, a, d, x, y, x1, y1);
    if g.calcs[c].out.Some? {
      var q := g.calcs[c].out.value;
      OutputIsIn(g, a, d, c, q);
      PushIsConfined(g, a, d, x1, y1, q, Mirror(dv));
      ConfinedTwice(g, a, d, x, y, x1, y1, Push(g, x1, q, Mirror(dv)), Push(g, y1, q, Mirror(dv)));
    }
  }

  /** A variable between two domains has no parser variable: whatever is published, it ends there. */
  lemma BetweenIsConfined(g: Graph, a: Labels, d: Domain, x: Store, y: Store, c: nat, dx: DataValue, dy: DataValue)
    requires SetUp(g, a) && Fits(g, x) && Fits(g, y) && AgreeIn(g, a, d, x, y)
    requires c < |g.calcs| && !OneDomain(g, a, c)
    ensures Confined(g, a, d, x, y, Publish(g, x, c, dx), Publish(g, y, c, dy))
  {
    assert CalcOk(g, c);
    if g.calcs[c].out.Some? {
      OwnParserVariableJoins(g, a, c);
    }
  }

  // ----- threads with their values -----

  /** One activation of setValue, with the cell it sets. Inside an update, `result` is what the formulas have
      yielded, None before they are evaluated. */
  datatype Call = Call(frame: Frame, cell: Cell, result: Option<DataValue>)

  type Calls = seq<Call>

  function Frames(s: Calls): (r: Stack)
    ensures |r| == |s| && forall i :: 0 <= i < |s| ==> r[i] == s[i].frame
  {
    seq(|s|, i requires 0 <= i < |s| => s[i].frame)
  }

  function TopCall(s: Calls): Call
    requires s != []
  {
    s[|s| - 1]
  }

  function CallsBelow(s: Calls): Calls
    requires s != []
  {
    s[..|s| - 1]
  }

  ghost predicate CallOk(g: Graph, call: Call)
    requires Wf(g)
  {
    FrameOk(g, call.frame)
    && (call.frame.k < |g.notify[call.frame.pv]| ==> g.notify[call.frame.pv][call.frame.k] < |g.calcs|)
  }

  lemma CallsAreOk(g: Graph, s: Calls)
    requires Wf(g) && s != [] && StackOk(g, Frames(s))
    ensures CallOk(g, TopCall(s)) && StackOk(g, Frames(CallsBelow(s)))
  {
    assert FrameOk(g, Frames(s)[|s| - 1]) && ParserOk(g, TopCall(s).frame.pv);
    forall i | 0 <= i < |s| - 1
      ensures FrameOk(g, s[i].frame)
      ensures i < |s| - 2 ==> s[i].frame.phase == Nested && Follows(g, s[i].frame, s[i + 1].frame)
    {
      assert FrameOk(g, Frames(s)[i]);
    }
  }

  /** What an activation comes to with one step. */
  datatype Outcome = Returned | Stays(call: Call) | Nests(call: Call, callee: Call)

  /** One step of the activation on top, and what it does to the store. */
  ghost function StepCall(g: Graph, st: Store, call: Call): (r: (Outcome, Store))
    requires Wf(g) && Fits(g, st) && CallOk(g, call)
    ensures Fits(g, r.1)
  {
    var f := call.frame;
    match f.phase
    case Waiting => (Stays(call.(frame := f.(phase := Looping))), SetCell(st, f.pv, call.cell))
    case Looping =>
      if f.k == |g.notify[f.pv]| then (Returned, st)
      else (Stays(call.(frame := f.(phase := Updating), result := None)), st)
    case Updating =>
      var c := g.notify[f.pv][f.k];
      assert CalcOk(g, c);
      if call.result.None? then (Stays(call.(result := Some(Compute(g.calcs[c], st.cells)))), st)
      else
        var dv := call.result.value;
        var st1 := st.(pubs := st.pubs[c := dv]);
        (match g.calcs[c].out
         case None => (Stays(call.(frame := Frame(f.pv, f.k + 1, Looping))), st1)
         case Some(q) =>
           (Nests(call.(frame := f.(phase := Nested)), Call(Frame(q, 0, Waiting), Mirror(dv), None)), st1))
    case Nested => (Stays(call.(frame := Frame(f.pv, f.k + 1, Looping))), st)
  }

  function Placed(below: Calls, o: Outcome): Calls
  {
    match o
    case Returned => below
    case Stays(call) => below + [call]
    case Nests(call, callee) => below + [call] + [callee]
  }

  ghost function NextCalls(g: Graph, st: Store, s: Calls): (r: (Calls, Store))
    requires Wf(g) && Fits(g, st) && s != [] && CallOk(g, TopCall(s))
    ensures Fits(g, r.1)
  {
    var (o, st1) := StepCall(g, st, TopCall(s));
    (Placed(CallsBelow(s), o), st1)
  }

  /** The formulas are evaluated, and nothing else happens. */
  predicate Evaluates(call: Call) { call.frame.phase == Updating && call.result.None? }

  function OutcomeFrames(o: Outcome): Stack
  {
    match o
    case Returned => []
    case Stays(call) => [call.frame]
    case Nests(call, callee) => [call.frame, callee.frame]
  }

  lemma PlacedFrames(below: Calls, o: Outcome)
    ensures Frames(Placed(below, o)) == Frames(below) + OutcomeFrames(o)
  {
  }

  lemma StepFrames(g: Graph, st: Store, call: Call)
    requires Wf(g) && Fits(g, st) && CallOk(g, call) && StackOk(g, [call.frame])
    ensures OutcomeFrames(StepCall(g, st, call).0) == if Evaluates(call) then [call.frame] else Next(g, [call.frame])
  {
    assert Top([call.frame]) == call.frame && Below([call.frame]) == [];
  }

  /** The steps are those of the protocol, or evaluate the formulas. */
  lemma NextFrames(g: Graph, st: Store, s: Calls)
    requires Wf(g) && Fits(g, st) && s != [] && StackOk(g, Frames(s))
    ensures CallOk(g, TopCall(s))
    ensures Frames(NextCalls(g, st, s).0) == if Evaluates(TopCall(s)) then Frames(s) else Next(g, Frames(s))
  {
    CallsAreOk(g, s);
    var call, below := TopCall(s), Frames(CallsBelow(s));
    assert Frames(s) == below + [call.frame];
    NextOnTop(g, below, call.frame);
    StepFrames(g, st, call);
    PlacedFrames(CallsBelow(s), StepCall(g, st, call).0);
  }

  /** What the activation publishes for `c`, evaluated before or now. */
  ghost function ResultOf(g: Graph, st: Store, call: Call, c: nat): DataValue
    requires Wf(g) && Fits(g, st) && c < |g.calcs| && CalcOk(g, c)
  {
    if call.result.None? then Compute(g.calcs[c], st.cells) else call.result.value
  }

  /** The rest of one activation, run without interruption. */
  ghost function FinishCall(g: Graph, st: Store, call: Call): (r: Store)
    requires Wf(g) && Fits(g, st) && CallOk(g, call)
    ensures Fits(g, r)
  {
    var f := call.frame;
    match f.phase
    case Waiting => Push(g, st, f.pv, call.cell)
    case Looping => PushRest(g, st, f.pv, f.k)
    case Updating =>
      var c := g.notify[f.pv][f.k];
      assert CalcOk(g, c);
      PushRest(g, Publish(g, st, c, ResultOf(g, st, call, c)), f.pv, f.k + 1)
    case Nested => PushRest(g, st, f.pv, f.k + 1)
  }

  /** The rest of all activations of a thread, run without interruption. */
  ghost function Finish(g: Graph, st: Store, s: Calls): (r: Store)
    requires Wf(g) && Fits(g, st) && StackOk(g, Frames(s))
    ensures Fits(g, r)
    decreases |s|
  {
    if s == [] then st
    else
      CallsAreOk(g, s);
      Finish(g, FinishCall(g, st, TopCall(s)), CallsBelow(s))
  }

  lemma FinishOnTop(g: Graph, st: Store, s: Calls, call: Call)
    requires Wf(g) && Fits(g, st) && StackOk(g, Frames(s + [call]))
    ensures StackOk(g, Frames(s)) && CallOk(g, call)
    ensures Finish(g, st, s + [call]) == Finish(g, FinishCall(g, st, call), s)
  {
    CallsAreOk(g, s + [call]);
    assert CallsBelow(s + [call]) == s;
  }

  ghost predicate KeepsFinish(g: Graph, st: Store, call: Call, o: Outcome, st1: Store)
    requires Wf(g) && Fits(g, st) && CallOk(g, call) && Fits(g, st1)
  {
    match o
    case Returned => FinishCall(g, st, call) == st1
    case Stays(next) => CallOk(g, next) && FinishCall(g, st, call) == FinishCall(g, st1, next)
    case Nests(next, callee) =>
      && CallOk(g, next) && CallOk(g, callee)
      && FinishCall(g, st, call) == FinishCall(g, FinishCall(g, st1, callee), next)
  }

  lemma UpdatingKeepsFinish(g: Graph, st: Store, call: Call, c: nat)
    requires Wf(g) && Fits(g, st) && CallOk(g, call) && call.frame.phase == Updating
    requires c == g.notify[call.frame.pv][call.frame.k]
    ensures var (o, st1) := StepCall(g, st, call); KeepsFinish(g, st, call, o, st1)
  {
    assert ParserOk(g, call.frame.pv) && CalcOk(g, c);
    if g.calcs[c].out.Some? {
      NextDriven(g, call.frame.pv, call.frame.k, g.calcs[c].out.value);
      assert ParserOk(g, g.calcs[c].out.value);
    }
  }

  lemma StepKeepsFinishCall(g: Graph, st: Store, call: Call)
    requires Wf(g) && Fits(g, st) && CallOk(g, call)
    ensures var (o, st1) := StepCall(g, st, call); KeepsFinish(g, st, call, o, st1)
  {
    assert ParserOk(g, call.frame.pv);
    if call.frame.phase == Updating {
      UpdatingKeepsFinish(g, st, call, g.notify[call.frame.pv][call.frame.k]);
    } else if call.frame.phase == Looping && call.frame.k < |g.notify[call.frame.pv]| {
      var c := g.notify[call.frame.pv][call.frame.k];
      assert CalcOk(g, c) && Update(g, st, c) == Publish(g, st, c, Compute(g.calcs[c], st.cells));
    }
  }

  lemma PlacedKeepsFinish(g: Graph, st: Store, below: Calls, call: Call, o: Outcome, st1: Store)
    requires Wf(g) && Fits(g, st) && Fits(g, st1) && CallOk(g, call) && KeepsFinish(g, st, call, o, st1)
    requires StackOk(g, Frames(below + [call])) && StackOk(g, Frames(Placed(below, o)))
    ensures Finish(g, st1, Placed(below, o)) == Finish(g, st, below + [call])
  {
    FinishOnTop(g, st, below, call);
    match o
    case Returned =>
    case Stays(next) => FinishOnTop(g, st1, below, next);
    case Nests(next, callee) =>
      FinishOnTop(g, st1, below + [next], callee);
      FinishOnTop(g, FinishCall(g, st1, callee), below, next);
  }

  /** A thread's own step changes the store, but not what its writes will have left in the end. */
  lemma StepKeepsFinish(g: Graph, st: Store, s: Calls)
    requires Wf(g) && Fits(g, st) && s != [] && StackOk(g, Frames(s))
    ensures CallOk(g, TopCall(s))
    ensures var (r, st1) := NextCalls(g, st, s); StackOk(g, Frames(r)) && Finish(g, st1, r) == Finish(g, st, s)
  {
    NextCallsAreOk(g, st, s);
    var call, below := TopCall(s), CallsBelow(s);
    assert s == below + [call];
    StepKeepsFinishCall(g, st, call);
    PlacedKeepsFinish(g, st, below, call, StepCall(g, st, call).0, StepCall(g, st, call).1);
  }

  lemma NextCallsAreOk(g: Graph, st: Store, s: Calls)
    requires Wf(g) && Fits(g, st) && s != [] && StackOk(g, Frames(s))
    ensures CallOk(g, TopCall(s)) && StackOk(g, Frames(NextCalls(g, st, s).0))
  {
    NextFrames(g, st, s);
    NextIsOk(g, Frames(s));
  }

  // ----- threads in different domains do not disturb each other -----

  ghost predicate CallsIn(g: Graph, a: Labels, d: Domain, s: Calls)
    requires Wf(g) && |a| == g.Size()
  {
    StackOk(g, Frames(s)) && forall i :: 0 <= i < |s| ==> CellIn(g, a, d, s[i].frame.pv)
  }

  lemma CallsAreIn(g: Graph, a: Labels, s: Calls)
    requires SetUp(g, a) && s != [] && StackOk(g, Frames(s))
    ensures s[0].frame.pv < |a| && CallsIn(g, a, DomainOf(a, s[0].frame.pv), s)
  {
    assert FrameOk(g, Frames(s)[0]);
    forall i | 0 <= i < |s| ensures CellIn(g, a, DomainOf(a, s[0].frame.pv), s[i].frame.pv) {
      assert FrameOk(g, Frames(s)[i]);
      OneMutex(g, a, Frames(s), i);
      if i > 0 {
        assert Frames(s)[0].phase == Nested;
        NotifyingIsLabelled(g, a, s[0].frame.pv);
      }
    }
  }

  lemma PublishedIsConfined(g: Graph, a: Labels, d: Domain, x: Store, y: Store, p: nat, k: nat, c: nat,
                            dx: DataValue, dy: DataValue)
    requires SetUp(g, a) && Fits(g, x) && Fits(g, y) && AgreeIn(g, a, d, x, y)
    requires p < g.Size() && CellIn(g, a, d, p) && k < |g.notify[p]| && c == g.notify[p][k] && c < |g.calcs|
    requires OneDomain(g, a, c) ==> dx == dy
    ensures Confined(g, a, d, x, y,
                     PushRest(g, Publish(g, x, c, dx), p, k + 1), PushRest(g, Publish(g, y, c, dy), p, k + 1))
  {
    var x1, y1 := Publish(g, x, c, dx), Publish(g, y, c, dy);
    NotifiedIsIn(g, a, d, p, k);
    if OneDomain(g, a, c) {
      PublishIsConfined(g, a, d, x, y, c, dx);
    } else {
      BetweenIsConfined(g, a, d, x, y, c, dx, dy);
    }
    PushRestIsConfined(g, a, d, x1, y1, p, k + 1);
    ConfinedTwice(g, a, d, x, y, x1, y1, PushRest(g, x1, p, k + 1), PushRest(g, y1, p, k + 1));
  }

  lemma UpdatingIsConfined(g: Graph, a: Labels, d: Domain, x: Store, y: Store, call: Call, c: nat)
    requires SetUp(g, a) && Fits(g, x) && Fits(g, y) && AgreeIn(g, a, d, x, y)
    requires CallOk(g, call) && CellIn(g, a, d, call.frame.pv) && call.frame.phase == Updating
    requires c == g.notify[call.frame.pv][call.frame.k]
    ensures Confined(g, a, d, x, y, FinishCall(g, x, call), FinishCall(g, y, call))
  {
    SameResult(g, a, d, x, y, call, c);
    var f, dx, dy := call.frame, ResultOf(g, x, call, c), ResultOf(g, y, call, c);
    PublishedIsConfined(g, a, d, x, y, f.pv, f.k, c, dx, dy);
  }

  /** Both stores yield the same, unless the variable stands between two domains. */
  lemma SameResult(g: Graph, a: Labels, d: Domain, x: Store, y: Store, call: Call, c: nat)
    requires SetUp(g, a) && Fits(g, x) && Fits(g, y) && AgreeIn(g, a, d, x, y)
    requires CallOk(g, call) && CellIn(g, a, d, call.frame.pv) && call.frame.phase == Updating
    requires c == g.notify[call.frame.pv][call.frame.k]
    ensures CalcOk(g, c) && (OneDomain(g, a, c) ==> ResultOf(g, x, call, c) == ResultOf(g, y, call, c))
  {
    NotifiedIsIn(g, a, d, call.frame.pv, call.frame.k);
    assert CalcOk(g, c);
    if OneDomain(g, a, c) {
      ComputeIn(g, a, d, x, y, c);
    }
  }

  lemma FinishCallIsConfined(g: Graph, a: Labels, d: Domain, x: Store, y: Store, call: Call)
    requires SetUp(g, a) && Fits(g, x) && Fits(g, y) && AgreeIn(g, a, d, x, y)
    requires CallOk(g, call) && CellIn(g, a, d, call.frame.pv)
    ensures Confined(g, a, d, x, y, FinishCall(g, x, call), FinishCall(g, y, call))
  {
    var f := call.frame;
    match f.phase
    case Waiting => PushIsConfined(g, a, d, x, y, f.pv, call.cell);
    case Looping => PushRestIsConfined(g, a, d, x, y, f.pv, f.k);
    case Updating => UpdatingIsConfined(g, a, d, x, y, call, g.notify[f.pv][f.k]);
    case Nested => PushRestIsConfined(g, a, d, x, y, f.pv, f.k + 1);
  }

  lemma {:induction false} FinishIsConfined(g: Graph, a: Labels, d: Domain, x: Store, y: Store, s: Calls)
    requires SetUp(g, a) && Fits(g, x) && Fits(g, y) && AgreeIn(g, a, d, x, y) && CallsIn(g, a, d, s)
    ensures Confined(g, a, d, x, y, Finish(g, x, s), Finish(g, y, s))
    decreases |s|
  {
    if s != [] {
      CallsAreOk(g, s);
      var x1, y1 := FinishCall(g, x, TopCall(s)), FinishCall(g, y, TopCall(s));
      FinishCallIsConfined(g, a, d, x, y, TopCall(s));
      FinishIsConfined(g, a, d, x1, y1, CallsBelow(s));
      ConfinedTwice(g, a, d, x, y, x1, y1, Finish(g, x1, CallsBelow(s)), Finish(g, y1, CallsBelow(s)));
    }
  }

  lemma OutsideAgrees(g: Graph, a: Labels, d: Domain, e: Domain, x: Store, y: Store)
    requires SetUp(g, a) && Fits(g, x) && Fits(g, y) && d != e && SameOutside(g, a, e, x, y)
    ensures AgreeIn(g, a, d, x, y)
  {
    forall c: nat | c < |g.calcs| && CalcIn(g, a, d, c) ensures !CalcIn(g, a, e, c) {
      if CalcIn(g, a, e, c) {
        DomainsAreApart(g, a, d, e, c);
      }
    }
  }

  // ----- stores that are the same but for what stands between domains -----

  lemma SameTwice(g: Graph, a: Labels, x: Store, y: Store, z: Store)
    requires Wf(g) && |a| == g.Size() && Fits(g, x) && Fits(g, y) && Fits(g, z)
    requires Same(g, a, x, y) && Same(g, a, y, z)
    ensures Same(g, a, x, z)
  {
  }

  /** What is done to two such stores in one domain leaves them such. */
  lemma ConfinedKeepsSame(g: Graph, a: Labels, d: Domain, x: Store, y: Store, x1: Store, y1: Store)
    requires SetUp(g, a) && Confined(g, a, d, x, y, x1, y1) && Same(g, a, x, y)
    ensures Same(g, a, x1, y1)
  {
    forall p: nat | p < g.Size() ensures x1.cells[p] == y1.cells[p] {
      assert CellIn(g, a, d, p) || x.cells[p] == x1.cells[p];
    }
    assert x1.cells == y1.cells;
    forall c: nat | c < |g.calcs| && OneDomain(g, a, c) ensures x1.pubs[c] == y1.pubs[c] {
      assert CalcIn(g, a, d, c) || x.pubs[c] == x1.pubs[c];
    }
  }

  lemma FinishKeepsSame(g: Graph, a: Labels, x: Store, y: Store, s: Calls)
    requires SetUp(g, a) && Fits(g, x) && Fits(g, y) && Same(g, a, x, y) && s != [] && StackOk(g, Frames(s))
    ensures Same(g, a, Finish(g, x, s), Finish(g, y, s))
  {
    CallsAreIn(g, a, s);
    var d := DomainOf(a, s[0].frame.pv);
    FinishIsConfined(g, a, d, x, y, s);
    ConfinedKeepsSame(g, a, d, x, y, Finish(g, x, s), Finish(g, y, s));
  }

  lemma PushKeepsSame(g: Graph, a: Labels, x: Store, y: Store, p: nat, cell: Cell)
    requires SetUp(g, a) && Fits(g, x) && Fits(g, y) && Same(g, a, x, y) && p < g.Size() && Driven(g, p)
    ensures Same(g, a, Push(g, x, p, cell), Push(g, y, p, cell))
  {
    PushIsConfined(g, a, DomainOf(a, p), x, y, p, cell);
    ConfinedKeepsSame(g, a, DomainOf(a, p), x, y, Push(g, x, p, cell), Push(g, y, p, cell));
  }

  /** The writes of two threads in different domains commute. */
  lemma Commute(g: Graph, a: Labels, d: Domain, e: Domain, st: Store, s: Calls, r: Calls)
    requires SetUp(g, a) && Fits(g, st) && CallsIn(g, a, d, s) && CallsIn(g, a, e, r) && d != e
    ensures Same(g, a, Finish(g, Finish(g, st, s), r), Finish(g, Finish(g, st, r), s))
  {
    var x, y := Finish(g, st, s), Finish(g, st, r);
    FinishIsConfined(g, a, d, st, st, s);
    FinishIsConfined(g, a, e, st, st, r);
    OutsideAgrees(g, a, d, e, st, y);
    OutsideAgrees(g, a, e, d, st, x);
    FinishIsConfined(g, a, d, st, y, s);
    FinishIsConfined(g, a, e, st, x, r);
    SameStores(g, a, d, e, st, x, y, Finish(g, x, r), Finish(g, y, s));
  }

  lemma SameStores(g: Graph, a: Labels, d: Domain, e: Domain, st: Store, x: Store, y: Store, xr: Store, ys: Store)
    requires SetUp(g, a) && d != e
    requires Confined(g, a, d, st, y, x, ys) && Confined(g, a, e, st, x, y, xr)
    ensures Same(g, a, xr, ys)
  {
    forall p: nat | p < g.Size() ensures xr.cells[p] == ys.cells[p] {
      assert !CellIn(g, a, d, p) || !CellIn(g, a, e, p);
    }
    assert xr.cells == ys.cells;
    forall c: nat | c < |g.calcs| && OneDomain(g, a, c) ensures xr.pubs[c] == ys.pubs[c] {
      if CalcIn(g, a, d, c) && CalcIn(g, a, e, c) {
        DomainsAreApart(g, a, d, e, c);
      }
    }
  }

  // ----- everything under way, run to its end -----

  /** The thread holds a mutex. */
  ghost predicate Active(a: Labels, s: Calls)
  {
    s != [] && (|s| > 1 || s[0].frame.phase != Waiting) && s[0].frame.pv < |a| && a[s[0].frame.pv] != null
  }

  ghost predicate AllOk(g: Graph, ts: seq<Calls>)
    requires Wf(g)
  {
    forall t :: 0 <= t < |ts| ==> StackOk(g, Frames(ts[t]))
  }

  /** The thread finishes if it holds a mutex. */
  ghost function Settle(g: Graph, a: Labels, st: Store, s: Calls): (r: Store)
    requires Wf(g) && Fits(g, st) && StackOk(g, Frames(s))
    ensures Fits(g, r)
  {
    if Active(a, s) then Finish(g, st, s) else st
  }

  /** The store once the first `n` threads that hold a mutex have finished, one after the other. */
  ghost function Committed(g: Graph, a: Labels, st: Store, ts: seq<Calls>, n: nat): (r: Store)
    requires Wf(g) && Fits(g, st) && AllOk(g, ts) && n <= |ts|
    ensures Fits(g, r)
  {
    if n == 0 then st
    else Settle(g, a, Committed(g, a, st, ts, n - 1), ts[n - 1])
  }

  lemma LastCommitted(g: Graph, a: Labels, st: Store, ts: seq<Calls>, n: nat) returns (before: Store)
    requires Wf(g) && Fits(g, st) && AllOk(g, ts) && 0 < n <= |ts|
    ensures Fits(g, before) && before == Committed(g, a, st, ts, n - 1)
    ensures StackOk(g, Frames(ts[n - 1])) && Committed(g, a, st, ts, n) == Settle(g, a, before, ts[n - 1])
  {
    before := Committed(g, a, st, ts, n - 1);
  }

  /** No active thread is in domain `d`. */
  ghost predicate NobodyIn(a: Labels, ts: seq<Calls>, d: Domain)
  {
    forall t :: 0 <= t < |ts| && Active(a, ts[t]) ==> DomainOf(a, ts[t][0].frame.pv) != d
  }

  lemma CommutePastOne(g: Graph, a: Labels, d: Domain, x: Store, y: Store, r: Calls, s: Calls, xr: Store, yr: Store)
    requires SetUp(g, a) && Fits(g, x) && Fits(g, y) && CallsIn(g, a, d, s) && Same(g, a, Finish(g, x, s), y)
    requires Active(a, r) && StackOk(g, Frames(r)) && DomainOf(a, r[0].frame.pv) != d
    requires xr == Finish(g, x, r) && yr == Finish(g, y, r)
    ensures Same(g, a, Finish(g, xr, s), yr)
  {
    CallsAreIn(g, a, r);
    Commute(g, a, DomainOf(a, r[0].frame.pv), d, x, r, s);
    FinishKeepsSame(g, a, Finish(g, x, s), y, r);
    SameTwice(g, a, Finish(g, xr, s), Finish(g, Finish(g, x, s), r), yr);
  }

  lemma CommutePastNext(g: Graph, a: Labels, d: Domain, x: Store, y: Store, r: Calls, s: Calls)
    requires SetUp(g, a) && Fits(g, x) && Fits(g, y) && CallsIn(g, a, d, s) && Same(g, a, Finish(g, x, s), y)
    requires StackOk(g, Frames(r)) && (Active(a, r) ==> DomainOf(a, r[0].frame.pv) != d)
    ensures Same(g, a, Finish(g, Settle(g, a, x, r), s), Settle(g, a, y, r))
  {
    if Active(a, r) {
      CommutePastOne(g, a, d, x, y, r, s, Finish(g, x, r), Finish(g, y, r));
    }
  }

  lemma {:induction false} CommutePast(g: Graph, a: Labels, d: Domain, st: Store, y: Store, ts: seq<Calls>, n: nat,
                                       s: Calls)
    requires SetUp(g, a) && Fits(g, st) && AllOk(g, ts) && n <= |ts| && CallsIn(g, a, d, s) && NobodyIn(a, ts, d)
    requires y == Finish(g, st, s)
    ensures Same(g, a, Finish(g, Committed(g, a, st, ts, n), s), Committed(g, a, y, ts, n))
  {
    if n > 0 {
      CommutePast(g, a, d, st, y, ts, n - 1, s);
      var x0 := LastCommitted(g, a, st, ts, n);
      var y0 := LastCommitted(g, a, y, ts, n);
      CommutePastNext(g, a, d, x0, y0, ts[n - 1], s);
    }
  }

  lemma {:induction false} SameCommitted(g: Graph, a: Labels, st: Store, ts: seq<Calls>, us: seq<Calls>, n: nat)
    requires Wf(g) && Fits(g, st) && AllOk(g, ts) && AllOk(g, us) && n <= |ts| && n <= |us|
    requires forall t :: 0 <= t < n ==> ts[t] == us[t] || (!Active(a, ts[t]) && !Active(a, us[t]))
    ensures Committed(g, a, st, ts, n) == Committed(g, a, st, us, n)
  {
    if n > 0 {
      SameCommitted(g, a, st, ts, us, n - 1);
    }
  }

  /** `us` are the threads `ts` without number `t`. */
  ghost predicate Others(ts: seq<Calls>, us: seq<Calls>, t: nat)
  {
    t < |ts| == |us| && us[t] == [] && forall i :: 0 <= i < |ts| && i != t ==> us[i] == ts[i]
  }

  lemma LastFinishesFirst(g: Graph, a: Labels, d: Domain, st: Store, ts: seq<Calls>, us: seq<Calls>, t: nat)
    requires SetUp(g, a) && Fits(g, st) && AllOk(g, ts) && AllOk(g, us) && Others(ts, us, t)
    requires Active(a, ts[t]) && CallsIn(g, a, d, ts[t]) && NobodyIn(a, us, d)
    ensures Same(g, a, Committed(g, a, st, ts, t + 1), Committed(g, a, Finish(g, st, ts[t]), us, t + 1))
  {
    SameCommitted(g, a, st, ts, us, t);
    CommutePast(g, a, d, st, Finish(g, st, ts[t]), us, t, ts[t]);
  }

  lemma SettleKeepsSame(g: Graph, a: Labels, x: Store, y: Store, s: Calls)
    requires SetUp(g, a) && Fits(g, x) && Fits(g, y) && Same(g, a, x, y) && StackOk(g, Frames(s))
    ensures Same(g, a, Settle(g, a, x, s), Settle(g, a, y, s))
  {
    if Active(a, s) {
      FinishKeepsSame(g, a, x, y, s);
    }
  }

  lemma {:induction false} SameTail(g: Graph, a: Labels, x: Store, y: Store, ts: seq<Calls>, us: seq<Calls>, t: nat,
                                    n: nat)
    requires SetUp(g, a) && Fits(g, x) && Fits(g, y) && AllOk(g, ts) && AllOk(g, us) && Others(ts, us, t)
    requires t < n <= |ts|
    requires Same(g, a, Committed(g, a, x, ts, t + 1), Committed(g, a, y, us, t + 1))
    ensures Same(g, a, Committed(g, a, x, ts, n), Committed(g, a, y, us, n))
    decreases n - t
  {
    if n > t + 1 {
      SameTail(g, a, x, y, ts, us, t, n - 1);
      assert us[n - 1] == ts[n - 1];
      var x0 := LastCommitted(g, a, x, ts, n);
      var y0 := LastCommitted(g, a, y, us, n);
      SettleKeepsSame(g, a, x0, y0, ts[n - 1]);
    }
  }

  /** It does not matter which of the threads finishes first. */
  lemma FinishFirst(g: Graph, a: Labels, d: Domain, st: Store, y: Store, ts: seq<Calls>, us: seq<Calls>, t: nat)
    requires SetUp(g, a) && Fits(g, st) && AllOk(g, ts) && AllOk(g, us) && Others(ts, us, t)
    requires Active(a, ts[t]) && CallsIn(g, a, d, ts[t]) && NobodyIn(a, us, d) && y == Finish(g, st, ts[t])
    ensures Same(g, a, Committed(g, a, st, ts, |ts|), Committed(g, a, y, us, |ts|))
  {
    LastFinishesFirst(g, a, d, st, ts, us, t);
    SameTail(g, a, st, y, ts, us, t, |ts|);
  }

  // ----- runs -----

  /** A write that has taken its mutex: the parser variable and the cell it is set to. */
  datatype Taken = Taken(pv: nat, cell: Cell)

  datatype World = World(ts: seq<Calls>, st: Store, history: seq<Taken>)

  function AllFrames(ts: seq<Calls>): (r: seq<Stack>)
    ensures |r| == |ts| && forall t :: 0 <= t < |ts| ==> r[t] == Frames(ts[t])
  {
    seq(|ts|, t requires 0 <= t < |ts| => Frames(ts[t]))
  }

  ghost predicate WorldOk(g: Graph, a: Labels, w: World)
    requires Wf(g)
  {
    Fits(g, w.st) && Inv(g, a, AllFrames(w.ts)) && AllOk(g, w.ts)
  }

  predicate Outermost(s: Calls) { |s| == 1 && s[0].frame.phase == Waiting }

  /** Thread `t` begins a write, or takes its next step. */
  ghost predicate Goes(g: Graph, a: Labels, w: World, t: nat, v: World)
    requires Wf(g) && WorldOk(g, a, w)
  {
    && t < |w.ts| == |v.ts|
    && if w.ts[t] == [] then
         && v.st == w.st && v.history == w.history && v.ts == w.ts[t := v.ts[t]]
         && |v.ts[t]| == 1 && Starts(g, Frames(v.ts[t]))
       else
         && CallOk(g, TopCall(w.ts[t])) && !Blocked(a, AllFrames(w.ts), t)
         && v.ts == w.ts[t := NextCalls(g, w.st, w.ts[t]).0] && v.st == NextCalls(g, w.st, w.ts[t]).1
         && v.history == if Outermost(w.ts[t])
                         then w.history + [Taken(w.ts[t][0].frame.pv, w.ts[t][0].cell)] else w.history
  }

  lemma GoesIsStep(g: Graph, a: Labels, w: World, t: nat, v: World)
    requires SetUp(g, a) && WorldOk(g, a, w) && Goes(g, a, w, t, v)
    ensures Step(g, a, AllFrames(w.ts), t, AllFrames(v.ts)) || AllFrames(v.ts) == AllFrames(w.ts)
  {
    if w.ts[t] != [] {
      NextFrames(g, w.st, w.ts[t]);
    }
    assert AllFrames(v.ts) == AllFrames(w.ts)[t := Frames(v.ts[t])];
  }

  lemma StepKeepsWorld(g: Graph, a: Labels, w: World, t: nat, v: World)
    requires SetUp(g, a) && WorldOk(g, a, w) && Goes(g, a, w, t, v)
    ensures WorldOk(g, a, v)
  {
    GoesIsStep(g, a, w, t, v);
    if Step(g, a, AllFrames(w.ts), t, AllFrames(v.ts)) {
      StepKeepsInv(g, a, AllFrames(w.ts), t, AllFrames(v.ts));
    }
    forall u | 0 <= u < |v.ts| ensures StackOk(g, Frames(v.ts[u])) {
      assert AllFrames(v.ts)[u] == Frames(v.ts[u]);
    }
  }

  /** The writes of a history, one after the other. */
  ghost function Replay(g: Graph, st: Store, history: seq<Taken>): (r: Store)
    requires Wf(g) && Fits(g, st) && forall k :: 0 <= k < |history| ==> history[k].pv < g.Size()
    ensures Fits(g, r)
  {
    if history == [] then st
    else
      var n := |history| - 1;
      Push(g, Replay(g, st, history[..n]), history[n].pv, history[n].cell)
  }

  /** Two threads that hold mutexes hold different ones. */
  lemma ActiveAreApart(g: Graph, a: Labels, ts: seq<Calls>, t: nat, u: nat)
    requires SetUp(g, a) && Inv(g, a, AllFrames(ts)) && t < |ts| && u < |ts| && t != u
    requires Active(a, ts[t]) && Active(a, ts[u])
    ensures DomainOf(a, ts[t][0].frame.pv) != DomainOf(a, ts[u][0].frame.pv)
  {
    assert Apart(a, Frames(ts[t]), Frames(ts[u]));
    BottomIsHeld(g, ts, t, a);
    BottomIsHeld(g, ts, u, a);
    assert NotShared(a, Frames(ts[t])[0], Frames(ts[u])[0]);
  }

  lemma BottomIsHeld(g: Graph, ts: seq<Calls>, t: nat, a: Labels)
    requires Wf(g) && Inv(g, a, AllFrames(ts)) && t < |ts| && Active(a, ts[t])
    ensures ts[t][0].frame.phase != Waiting
  {
    assert StackOk(g, AllFrames(ts)[t]);
    if |ts[t]| > 1 {
      assert Frames(ts[t])[0].phase == Nested;
    }
  }

  /** A thread that may take its mutex finds nobody in its domain. */
  lemma FreeDomain(g: Graph, a: Labels, ts: seq<Calls>, t: nat)
    requires SetUp(g, a) && Inv(g, a, AllFrames(ts)) && t < |ts| && Outermost(ts[t]) && !Blocked(a, AllFrames(ts), t)
    requires ts[t][0].frame.pv < |a|
    ensures NobodyIn(a, ts, DomainOf(a, ts[t][0].frame.pv))
  {
    var p := ts[t][0].frame.pv;
    forall u | 0 <= u < |ts| && Active(a, ts[u]) ensures DomainOf(a, ts[u][0].frame.pv) != DomainOf(a, p) {
      BottomIsHeld(g, ts, u, a);
      if a[p] != null {
        assert u != t && Top(Frames(ts[t])) == ts[t][0].frame;
        assert !Holds(a, Frames(ts[u]), a[p]) && !HeldBy(a, Frames(ts[u])[0], a[p]);
      }
    }
  }

  ghost function Total(g: Graph, a: Labels, w: World): Store
    requires Wf(g) && WorldOk(g, a, w)
  {
    Committed(g, a, w.st, w.ts, |w.ts|)
  }

  lemma BottomStays(g: Graph, st: Store, s: Calls)
    requires Wf(g) && Fits(g, st) && s != [] && StackOk(g, Frames(s)) && CallOk(g, TopCall(s)) && !Outermost(s)
    ensures var r := NextCalls(g, st, s).0;
            r != [] ==> r[0].frame.pv == s[0].frame.pv && (|r| > 1 || r[0].frame.phase != Waiting)
  {
    assert |s| > 1 ==> Frames(s)[0].phase == Nested;
  }

  lemma OthersElsewhere(g: Graph, a: Labels, ts: seq<Calls>, t: nat)
    requires SetUp(g, a) && Inv(g, a, AllFrames(ts)) && t < |ts| && Active(a, ts[t])
    ensures NobodyIn(a, ts[t := []], DomainOf(a, ts[t][0].frame.pv))
  {
    var us := ts[t := []];
    forall u | 0 <= u < |us| && Active(a, us[u])
      ensures DomainOf(a, us[u][0].frame.pv) != DomainOf(a, ts[t][0].frame.pv)
    {
      ActiveAreApart(g, a, ts, t, u);
    }
  }

  /** A thread that holds a mutex may as well have finished already. */
  lemma TotalWithout(g: Graph, a: Labels, w: World, t: nat, us: seq<Calls>, y: Store)
    requires SetUp(g, a) && WorldOk(g, a, w) && t < |w.ts| && Active(a, w.ts[t])
    requires us == w.ts[t := []] && y == Finish(g, w.st, w.ts[t])
    ensures AllOk(g, us) && Same(g, a, Total(g, a, w), Committed(g, a, y, us, |us|))
  {
    CallsAreIn(g, a, w.ts[t]);
    OthersElsewhere(g, a, w.ts, t);
    assert AllOk(g, us);
    FinishFirst(g, a, DomainOf(a, w.ts[t][0].frame.pv), w.st, y, w.ts, us, t);
  }

  lemma Overwritten(ts: seq<Calls>, us: seq<Calls>, t: nat, s: Calls)
    requires t < |ts| == |us| && us == ts[t := us[t]]
    ensures us[t := s] == ts[t := s] && (us[t] == s ==> us == ts[t := s])
  {
  }

  lemma ActiveStays(g: Graph, a: Labels, w: World, t: nat, v: World)
    requires SetUp(g, a) && WorldOk(g, a, w) && Goes(g, a, w, t, v) && Active(a, w.ts[t])
    ensures v.ts[t] == [] || Active(a, v.ts[t])
  {
    BottomIsHeld(g, w.ts, t, a);
    CallsAreOk(g, w.ts[t]);
    BottomStays(g, w.st, w.ts[t]);
  }

  /** A step of a thread that holds a mutex changes nothing of what there will be in the end. */
  lemma ActiveStep(g: Graph, a: Labels, w: World, t: nat, v: World)
    requires SetUp(g, a) && WorldOk(g, a, w) && WorldOk(g, a, v) && Goes(g, a, w, t, v) && Active(a, w.ts[t])
    ensures Same(g, a, Total(g, a, v), Total(g, a, w))
  {
    var us, y := w.ts[t := []], Finish(g, w.st, w.ts[t]);
    StepKeepsFinish(g, w.st, w.ts[t]);
    TotalWithout(g, a, w, t, us, y);
    ActiveStays(g, a, w, t, v);
    Overwritten(w.ts, v.ts, t, []);
    if v.ts[t] != [] {
      TotalWithout(g, a, v, t, us, y);
    }
  }

  /** Taking the outermost mutex: the write counts from now on. */
  lemma OutermostStep(g: Graph, a: Labels, w: World, t: nat, v: World)
    requires SetUp(g, a) && WorldOk(g, a, w) && WorldOk(g, a, v) && Goes(g, a, w, t, v) && Outermost(w.ts[t])
    ensures w.ts[t][0].frame.pv < g.Size()
    ensures Same(g, a, Total(g, a, v), Push(g, Total(g, a, w), w.ts[t][0].frame.pv, w.ts[t][0].cell))
  {
    var s, r := w.ts[t], v.ts[t];
    var p := s[0].frame.pv;
    CallsAreIn(g, a, s);
    FreeDomain(g, a, w.ts, t);
    var d := DomainOf(a, p);
    CommutePast(g, a, d, w.st, Finish(g, w.st, s), w.ts, |w.ts|, s);
    StepKeepsFinish(g, w.st, s);
    OneCall(g, Total(g, a, w), s);
    assert r == [s[0].(frame := s[0].frame.(phase := Looping))];
    if a[p] == null {
      NoMutexNoNotification(g, a, p);
      OneCall(g, w.st, s);
      SameCommitted(g, a, v.st, v.ts, w.ts, |w.ts|);
    } else {
      CallsAreIn(g, a, r);
      OthersElsewhere(g, a, v.ts, t);
      var us := v.ts[t := []];
      assert AllOk(g, us);
      FinishFirst(g, a, d, v.st, Finish(g, v.st, r), v.ts, us, t);
      SameCommitted(g, a, Finish(g, w.st, s), us, w.ts, |w.ts|);
    }
  }

  lemma OneCall(g: Graph, st: Store, s: Calls)
    requires Wf(g) && Fits(g, st) && Outermost(s) && StackOk(g, Frames(s))
    ensures s[0].frame.pv < g.Size() && Finish(g, st, s) == Push(g, st, s[0].frame.pv, s[0].cell)
  {
    CallsAreOk(g, s);
    assert CallsBelow(s) == [];
  }

  lemma NoMutexNoNotification(g: Graph, a: Labels, p: nat)
    requires SetUp(g, a) && Driven(g, p) && a[p] == null
    ensures g.notify[p] == []
  {
    if g.notify[p] != [] {
      NotifyingIsLabelled(g, a, p);
    }
  }

  lemma NothingNested(g: Graph, s: Calls)
    requires Wf(g) && s != [] && StackOk(g, Frames(s)) && s[0].frame.pv < |g.notify| && g.notify[s[0].frame.pv] == []
    ensures |s| == 1 && (s[0].frame.phase == Waiting || s[0].frame.phase == Looping)
  {
    assert FrameOk(g, Frames(s)[0]);
  }

  /** Every other step: a thread begins, or returns from a variable that has no mutex. */
  lemma QuietStep(g: Graph, a: Labels, w: World, t: nat, v: World)
    requires SetUp(g, a) && WorldOk(g, a, w) && WorldOk(g, a, v) && Goes(g, a, w, t, v)
    requires !Outermost(w.ts[t]) && !Active(a, w.ts[t])
    ensures Same(g, a, Total(g, a, v), Total(g, a, w))
  {
    var s := w.ts[t];
    if s != [] {
      CallsAreIn(g, a, s);
      NoMutexNoNotification(g, a, s[0].frame.pv);
      NothingNested(g, s);
      assert v.ts[t] == [] && v.st == w.st;
    } else {
      assert v.ts[t][0].frame == Frames(v.ts[t])[0];
    }
    SameCommitted(g, a, w.st, w.ts, v.ts, |w.ts|);
  }

  ghost predicate LeadsTo(g: Graph, a: Labels, w: World, v: World)
    requires Wf(g)
  {
    WorldOk(g, a, w) && exists t: nat :: Goes(g, a, w, t, v)
  }

  ghost predicate LeadsToAt(g: Graph, a: Labels, run: seq<World>, i: int)
    requires Wf(g)
  {
    0 <= i < |run| - 1 && LeadsTo(g, a, run[i], run[i + 1])
  }

  predicate AllIdle(ts: seq<Calls>) { forall t :: 0 <= t < |ts| ==> ts[t] == [] }

  /** A run from a state in which all threads are idle. */
  ghost predicate Runs(g: Graph, a: Labels, run: seq<World>)
    requires Wf(g)
  {
    && run != [] && Fits(g, run[0].st) && run[0].history == []
    && AllIdle(run[0].ts) && AllLead(g, a, run)
  }

  ghost predicate OfSources(g: Graph, history: seq<Taken>)
  {
    forall k :: 0 <= k < |history| ==> history[k].pv < g.Size() && g.owner[history[k].pv].None?
  }

  /** The bottom activation of every thread sets a source. */
  ghost predicate FromSources(g: Graph, ts: seq<Calls>)
  {
    forall t :: 0 <= t < |ts| && ts[t] != [] ==> ts[t][0].frame.pv < g.Size() && g.owner[ts[t][0].frame.pv].None?
  }

  /** What holds of every state of a run that began in `start`. */
  ghost predicate Serial(g: Graph, a: Labels, start: Store, w: World)
    requires SetUp(g, a) && Fits(g, start)
  {
    && WorldOk(g, a, w) && FromSources(g, w.ts) && OfSources(g, w.history)
    && Same(g, a, Total(g, a, w), Replay(g, start, w.history))
  }

  lemma IdleIsSerial(g: Graph, a: Labels, w: World)
    requires SetUp(g, a) && Fits(g, w.st) && w.history == [] && AllIdle(w.ts)
    ensures Serial(g, a, w.st, w)
  {
    IdleTotal(g, a, w.st, w.ts, |w.ts|);
  }

  lemma {:induction false} IdleTotal(g: Graph, a: Labels, st: Store, ts: seq<Calls>, n: nat)
    requires Wf(g) && Fits(g, st) && n <= |ts| && AllIdle(ts)
    ensures AllOk(g, ts) && Committed(g, a, st, ts, n) == st
  {
    if n > 0 {
      IdleTotal(g, a, st, ts, n - 1);
    }
  }

  lemma ReplayedOneMore(g: Graph, st: Store, history: seq<Taken>, x: Taken)
    requires Wf(g) && Fits(g, st) && OfSources(g, history) && OfSources(g, [x])
    ensures OfSources(g, history + [x])
    ensures Replay(g, st, history + [x]) == Push(g, Replay(g, st, history), x.pv, x.cell)
  {
    assert (history + [x])[..|history|] == history;
    assert x == [x][0];
  }

  lemma PushedToo(g: Graph, a: Labels, x: Store, y: Store, p: nat, cell: Cell, x1: Store)
    requires SetUp(g, a) && Fits(g, x) && Fits(g, y) && Same(g, a, x, y) && p < g.Size() && Driven(g, p)
    requires Fits(g, x1) && Same(g, a, x1, Push(g, x, p, cell))
    ensures Same(g, a, x1, Push(g, y, p, cell))
  {
    PushKeepsSame(g, a, x, y, p, cell);
    SameTwice(g, a, x1, Push(g, x, p, cell), Push(g, y, p, cell));
  }

  lemma OutermostKeepsSerial(g: Graph, a: Labels, start: Store, w: World, t: nat, v: World)
    requires SetUp(g, a) && Fits(g, start) && Serial(g, a, start, w) && Goes(g, a, w, t, v) && WorldOk(g, a, v)
    requires Outermost(w.ts[t])
    ensures OfSources(g, v.history) && Same(g, a, Total(g, a, v), Replay(g, start, v.history))
  {
    var x := Taken(w.ts[t][0].frame.pv, w.ts[t][0].cell);
    OutermostStep(g, a, w, t, v);
    assert OfSources(g, [x]) && Driven(g, x.pv);
    ReplayedOneMore(g, start, w.history, x);
    assert v.history == w.history + [x];
    PushedToo(g, a, Total(g, a, w), Replay(g, start, w.history), x.pv, x.cell, Total(g, a, v));
  }

  lemma StepKeepsSerial(g: Graph, a: Labels, start: Store, w: World, v: World)
    requires SetUp(g, a) && Fits(g, start) && Serial(g, a, start, w) && LeadsTo(g, a, w, v)
    ensures Serial(g, a, start, v)
  {
    var t: nat :| Goes(g, a, w, t, v);
    StepKeepsWorld(g, a, w, t, v);
    SourcesStay(g, w, t, v, a);
    if Outermost(w.ts[t]) {
      OutermostKeepsSerial(g, a, start, w, t, v);
    } else {
      if Active(a, w.ts[t]) {
        ActiveStep(g, a, w, t, v);
      } else {
        QuietStep(g, a, w, t, v);
      }
      SameTwice(g, a, Total(g, a, v), Total(g, a, w), Replay(g, start, w.history));
    }
  }

  lemma SourcesStay(g: Graph, w: World, t: nat, v: World, a: Labels)
    requires SetUp(g, a) && WorldOk(g, a, w) && FromSources(g, w.ts) && Goes(g, a, w, t, v)
    ensures FromSources(g, v.ts)
  {
    if w.ts[t] == [] {
      assert v.ts[t][0].frame == Frames(v.ts[t])[0];
    } else if !Outermost(w.ts[t]) {
      BottomStays(g, w.st, w.ts[t]);
    }
  }

  ghost predicate AllLead(g: Graph, a: Labels, run: seq<World>)
    requires Wf(g)
  {
    forall i :: 0 <= i < |run| - 1 ==> LeadsToAt(g, a, run, i)
  }

  lemma SerialNext(g: Graph, a: Labels, run: seq<World>, start: Store, n: nat)
    requires SetUp(g, a) && Fits(g, start) && AllLead(g, a, run) && n + 1 < |run| && Serial(g, a, start, run[n])
    ensures Serial(g, a, start, run[n + 1])
  {
    assert LeadsToAt(g, a, run, n);
    StepKeepsSerial(g, a, start, run[n], run[n + 1]);
  }

  lemma {:induction false} SerialUpTo(g: Graph, a: Labels, run: seq<World>, start: Store, n: nat)
    requires SetUp(g, a) && Fits(g, start) && AllLead(g, a, run) && n < |run| && Serial(g, a, start, run[0])
    ensures Serial(g, a, start, run[n])
    decreases n
  {
    if n > 0 {
      SerialUpTo(g, a, run, start, n - 1);
      SerialNext(g, a, run, start, n - 1);
    }
  }

  /** Concurrent writes are serializable: at any moment, once the writes under way have finished, the
      store is what the writes of the history leave one after the other. */
  lemma WritesAreSerializable(g: Graph, a: Labels, run: seq<World>)
    requires SetUp(g, a) && Runs(g, a, run)
    ensures Serial(g, a, run[0].st, run[|run| - 1])
  {
    IdleIsSerial(g, a, run[0]);
    SerialUpTo(g, a, run, run[0].st, |run| - 1);
  }

  /** When all threads are idle again nothing of the concurrency is left to see. */
  lemma IdleStoreIsReplay(g: Graph, a: Labels, run: seq<World>)
    requires SetUp(g, a) && Runs(g, a, run)
    requires AllIdle(run[|run| - 1].ts)
    ensures var w := run[|run| - 1];
            OfSources(g, w.history) && Fits(g, w.st) && Same(g, a, w.st, Replay(g, run[0].st, w.history))
  {
    WritesAreSerializable(g, a, run);
    var w := run[|run| - 1];
    IdleTotal(g, a, w.st, w.ts, |w.ts|);
  }

  lemma {:induction false} ReplaySettles(g: Graph, st: Store, history: seq<Taken>, exempt: set<nat>)
    requires Wf(g) && Fits(g, st) && OfSources(g, history) && AllSettled(g, st, exempt)
    ensures AllSettled(g, Replay(g, st, history), exempt)
    decreases |history|
  {
    if history != [] {
      var n := |history| - 1;
      assert forall k :: 0 <= k < n ==> history[..n][k] == history[k];
      ReplaySettles(g, st, history[..n], exempt);
      PushSettlesAll(g, Replay(g, st, history[..n]), history[n].pv, history[n].cell, exempt);
    }
  }

  /** With all threads idle, every calculated variable whose inputs share a mutex is settled. */
  lemma IdleMeansSettled(g: Graph, a: Labels, run: seq<World>, exempt: set<nat>, c: nat)
    requires SetUp(g, a) && Runs(g, a, run) && AllSettled(g, run[0].st, exempt) && AllIdle(run[|run| - 1].ts)
    requires c < |g.calcs| && c !in exempt && OneDomain(g, a, c)
    ensures Fits(g, run[|run| - 1].st) && Settled(g, run[|run| - 1].st, c)
  {
    var w := run[|run| - 1];
    IdleStoreIsReplay(g, a, run);
    ReplaySettles(g, run[0].st, w.history, exempt);
    assert Settled(g, Replay(g, run[0].st, w.history), c);
  }

  lemma FinishLeavesAlone(g: Graph, a: Labels, d: Domain, st: Store, s: Calls)
    requires SetUp(g, a) && Fits(g, st) && s != [] && StackOk(g, Frames(s))
    requires s[0].frame.pv < |a| && DomainOf(a, s[0].frame.pv) != d
    ensures AgreeIn(g, a, d, st, Finish(g, st, s))
  {
    var e := DomainOf(a, s[0].frame.pv);
    CallsAreIn(g, a, s);
    FinishIsConfined(g, a, e, st, st, s);
    OutsideAgrees(g, a, d, e, st, Finish(g, st, s));
  }

  lemma {:induction false} OthersLeaveAlone(g: Graph, a: Labels, d: Domain, st: Store, ts: seq<Calls>, n: nat, r: Store)
    requires SetUp(g, a) && Fits(g, st) && AllOk(g, ts) && n <= |ts| && NobodyIn(a, ts, d)
    requires r == Committed(g, a, st, ts, n)
    ensures AgreeIn(g, a, d, st, r)
  {
    if n > 0 {
      var before := LastCommitted(g, a, st, ts, n);
      OthersLeaveAlone(g, a, d, st, ts, n - 1, before);
      NotInDomain(a, ts, d, n - 1);
      OneMoreLeavesAlone(g, a, d, st, before, ts[n - 1]);
    }
  }

  lemma NotInDomain(a: Labels, ts: seq<Calls>, d: Domain, t: nat)
    requires NobodyIn(a, ts, d) && t < |ts|
    ensures Active(a, ts[t]) ==> DomainOf(a, ts[t][0].frame.pv) != d
  {
  }

  lemma OneMoreLeavesAlone(g: Graph, a: Labels, d: Domain, st: Store, before: Store, s: Calls)
    requires SetUp(g, a) && Fits(g, st) && Fits(g, before) && AgreeIn(g, a, d, st, before)
    requires StackOk(g, Frames(s)) && (Active(a, s) ==> DomainOf(a, s[0].frame.pv) != d)
    ensures AgreeIn(g, a, d, st, Settle(g, a, before, s))
  {
    if Active(a, s) {
      FinishLeavesAlone(g, a, d, before, s);
      AgreeTwice(g, a, d, st, before, Finish(g, before, s));
    }
  }

  lemma AgreeTwice(g: Graph, a: Labels, d: Domain, x: Store, y: Store, z: Store)
    requires Wf(g) && |a| == g.Size() && Fits(g, x) && Fits(g, y) && Fits(g, z)
    requires AgreeIn(g, a, d, x, y) && AgreeIn(g, a, d, y, z)
    ensures AgreeIn(g, a, d, x, z)
  {
  }

  /** At any moment of any run: where nobody holds the mutex of its inputs, a calculated variable
      publishes what its formulas yield, and its parser variable mirrors that. */
  lemma FreeMutexMeansSettled(g: Graph, a: Labels, run: seq<World>, exempt: set<nat>, c: nat, p: nat)
    requires SetUp(g, a) && Runs(g, a, run) && AllSettled(g, run[0].st, exempt)
    requires c < |g.calcs| && c !in exempt && OneDomain(g, a, c) && g.calcs[c].Reads(p) && Driven(g, p)
    requires NobodyIn(a, run[|run| - 1].ts, DomainOf(a, p))
    ensures Fits(g, run[|run| - 1].st) && Settled(g, run[|run| - 1].st, c)
  {
    var w, d := run[|run| - 1], DomainOf(a, p);
    WritesAreSerializable(g, a, run);
    ReplaySettles(g, run[0].st, w.history, exempt);
    OthersLeaveAlone(g, a, d, w.st, w.ts, |w.ts|, Total(g, a, w));
    assert CellIn(g, a, d, p);
    SettledWhereAgreed(g, a, d, w.st, Total(g, a, w), c);
  }

  lemma SettledWhereAgreed(g: Graph, a: Labels, d: Domain, x: Store, y: Store, c: nat)
    requires SetUp(g, a) && Fits(g, x) && Fits(g, y) && AgreeIn(g, a, d, x, y)
    requires c < |g.calcs| && CalcIn(g, a, d, c) && Settled(g, y, c)
    ensures Settled(g, x, c)
  {
    ComputeIn(g, a, d, x, y, c);
    if g.calcs[c].out.Some? {
      OutputIsIn(g, a, d, c, g.calcs[c].out.value);
    }
  }
}
