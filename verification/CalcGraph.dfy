/** The graph of parser variables and calculated variables, and the depth-first push of a new
    value through it. Both kinds of variable are numbered in order of creation. */
module CalcGraph {
  import opened DataValues

  datatype Graph = Graph(
    owner: seq<Option<nat>>,     // per parser variable: the calculated variable it mirrors, None for a source
    notify: seq<seq<nat>>,       // per parser variable: the calculated variables to update, in list order
    calcs: seq<Calc>,
    listed: seq<nat>)            // the parser variables still in the engine's list
  {
    function Size(): nat { |owner| }
  }

  /** Cells of all parser variables and last published values of all calculated variables. */
  datatype Store = Store(cells: seq<Cell>, pubs: seq<DataValue>)

  ghost predicate CalcOk(g: Graph, c: nat)
    requires c < |g.calcs| && |g.notify| == g.Size()
  {
    var cv := g.calcs[c];
    && Within(cv.valueIn, g.Size()) && Within(cv.statusIn, g.Size())
    && (forall p: nat :: cv.Reads(p) ==> p < g.Size() && c in g.notify[p] && p in g.listed)
    && (forall p: nat :: cv.Reads(p) && g.owner[p].Some? ==> g.owner[p].value < c)
    && (cv.out.Some? ==> cv.out.value < g.Size() && g.owner[cv.out.value] == Some(c) && cv.out.value in g.listed)
    && (forall p: nat :: cv.Reads(p) && cv.out.Some? ==> p < cv.out.value)
  }

  ghost predicate ParserOk(g: Graph, p: nat)
    requires p < g.Size() && |g.notify| == g.Size()
  {
    && (forall k :: 0 <= k < |g.notify[p]| ==> g.notify[p][k] < |g.calcs| && g.calcs[g.notify[p][k]].Reads(p))
    && (g.owner[p].Some? ==> g.owner[p].value < |g.calcs|)
    && (g.owner[p].Some? && p in g.listed ==> g.calcs[g.owner[p].value].out == Some(p))
  }

  /** What registration and instantiation keep: references resolve, notify lists and input lists say
      the same thing, and a calculated variable reads only what was registered before it. */
  ghost predicate Wf(g: Graph)
  {
    && |g.notify| == g.Size()
    && (forall c :: 0 <= c < |g.calcs| ==> CalcOk(g, c))
    && (forall p :: 0 <= p < g.Size() ==> ParserOk(g, p))
    && (forall k :: 0 <= k < |g.listed| ==> g.listed[k] < g.Size())
    && (forall j, k :: 0 <= j < k < |g.listed| ==> g.listed[j] < g.listed[k])
  }

  /** Parser variables of calculated variables that read nothing. */
  ghost predicate Constant(g: Graph, p: nat)
  {
    p < g.Size() && g.owner[p].Some? && g.owner[p].value < |g.calcs|
    && g.calcs[g.owner[p].value].valueIn == [] && g.calcs[g.owner[p].value].statusIn == []
  }

  ghost predicate Fits(g: Graph, st: Store)
  {
    |st.cells| == g.Size() && |st.pubs| == |g.calcs|
  }

  function SetCell(st: Store, p: nat, cell: Cell): Store
    requires p < |st.cells|
  {
    st.(cells := st.cells[p := cell])
  }

  // ----- the push, as nested calls -----

  ghost function Height(g: Graph, c: nat): nat
    requires Wf(g) && c < |g.calcs|
  {
    match g.calcs[c].out case None => 0 case Some(q) => assert CalcOk(g, c); g.Size() - q
  }

  ghost function Width(g: Graph, c: nat): nat
    requires Wf(g) && c < |g.calcs|
  {
    match g.calcs[c].out case None => 0 case Some(q) => assert CalcOk(g, c); |g.notify[q]|
  }

  /** ParserVariable::setValue: store the cell, then update every variable on the notify list. */
  ghost function Push(g: Graph, st: Store, p: nat, cell: Cell): (r: Store)
    requires Wf(g) && Fits(g, st) && p < g.Size()
    ensures Fits(g, r)
    decreases g.Size() - p, |g.notify[p]| + 1
  {
    PushRest(g, SetCell(st, p, cell), p, 0)
  }

  /** The notify loop of `p` from position `k` on. */
  ghost function PushRest(g: Graph, st: Store, p: nat, k: nat): (r: Store)
    requires Wf(g) && Fits(g, st) && p < g.Size() && k <= |g.notify[p]|
    ensures Fits(g, r)
    decreases g.Size() - p, |g.notify[p]| - k
  {
    if k == |g.notify[p]| then st
    else
      assert ParserOk(g, p) && CalcOk(g, g.notify[p][k]);
      PushRest(g, Update(g, st, g.notify[p][k]), p, k + 1)
  }

  /** CalculatedVariable::update: publish the recomputed value; the listener pushes it on. */
  ghost function Update(g: Graph, st: Store, c: nat): (r: Store)
    requires Wf(g) && Fits(g, st) && c < |g.calcs|
    ensures Fits(g, r)
    decreases Height(g, c), Width(g, c) + 3
  {
    assert CalcOk(g, c);
    Publish(g, st, c, Compute(g.calcs[c], st.cells))
  }

  ghost function Publish(g: Graph, st: Store, c: nat, dv: DataValue): (r: Store)
    requires Wf(g) && Fits(g, st) && c < |g.calcs|
    ensures Fits(g, r)
    decreases Height(g, c), Width(g, c) + 2
  {
    assert CalcOk(g, c);
    var st1 := st.(pubs := st.pubs[c := dv]);
    match g.calcs[c].out
    case None => st1
    case Some(q) => Push(g, st1, q, Mirror(dv))
  }

  /** The listeners of one source variable, called one after the other. */
  ghost function PushAll(g: Graph, st: Store, ps: seq<nat>, cell: Cell): (r: Store)
    requires Wf(g) && Fits(g, st) && Within(ps, g.Size())
    ensures Fits(g, r)
    decreases |ps|
  {
    if ps == [] then st else PushAll(g, Push(g, st, ps[0], cell), ps[1..], cell)
  }

  // ----- recomputation of everything, in creation order -----

  /** Calculated variable `c` publishes what its formulas yield, and its parser variable mirrors that. */
  ghost predicate Settled(g: Graph, st: Store, c: nat)
    requires Wf(g) && Fits(g, st) && c < |g.calcs|
  {
    assert CalcOk(g, c);
    && st.pubs[c] == Compute(g.calcs[c], st.cells)
    && (g.calcs[c].out.Some? ==> st.cells[g.calcs[c].out.value] == Mirror(st.pubs[c]))
  }

  /** Everything but the variables of `exempt`, which still hold a configured initial value. */
  ghost predicate AllSettled(g: Graph, st: Store, exempt: set<nat>)
    requires Wf(g) && Fits(g, st)
  {
    forall c :: 0 <= c < |g.calcs| && c !in exempt ==> Settled(g, st, c)
  }

  ghost function RecomputeOne(g: Graph, st: Store, c: nat): (r: Store)
    requires Wf(g) && Fits(g, st) && c < |g.calcs|
    ensures Fits(g, r)
  {
    assert CalcOk(g, c);
    var dv := Compute(g.calcs[c], st.cells);
    var st1 := st.(pubs := st.pubs[c := dv]);
    match g.calcs[c].out
    case None => st1
    case Some(q) => SetCell(st1, q, Mirror(dv))
  }

  /** The plain recomputation: variables c, c+1, ... one after the other, the exempt ones skipped. */
  ghost function Recompute(g: Graph, st: Store, c: nat, exempt: set<nat>): (r: Store)
    requires Wf(g) && Fits(g, st) && c <= |g.calcs|
    ensures Fits(g, r)
    decreases |g.calcs| - c
  {
    if c == |g.calcs| then st
    else Recompute(g, if c in exempt then st else RecomputeOne(g, st, c), c + 1, exempt)
  }

  // ----- which variables a push reaches -----

  ghost predicate Reaches(g: Graph, p: nat, c: nat)
    requires Wf(g) && p < g.Size()
    decreases g.Size() - p, 1
  {
    exists k :: 0 <= k < |g.notify[p]| && ReachesVia(g, p, k, c)
  }

  ghost predicate ReachesVia(g: Graph, p: nat, k: nat, c: nat)
    requires Wf(g) && p < g.Size() && k < |g.notify[p]|
    decreases g.Size() - p, 0
  {
    assert ParserOk(g, p) && CalcOk(g, g.notify[p][k]);
    UpdateReaches(g, g.notify[p][k], c)
  }

  /** Updating `d` ends up updating `c`. */
  ghost predicate UpdateReaches(g: Graph, d: nat, c: nat)
    requires Wf(g) && d < |g.calcs|
    decreases Height(g, d), 2
  {
    assert CalcOk(g, d);
    c == d || (g.calcs[d].out.Some? && Reaches(g, g.calcs[d].out.value, c))
  }
}
