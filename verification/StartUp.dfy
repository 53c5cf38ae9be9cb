/** The whole way from an empty engine to running threads, for the smallest configuration in which removing an
    unused parser variable matters: one calculated variable that reads two sources and that nothing reads. */
module StartUp {
  import opened DataValues
  import opened CalcGraph
  import opened GraphGrowth
  import opened CalcEngine
  import opened Registration
  import opened SyncDomains
  import opened SyncProtocol
  import E = Escaping
  import O = Optimization
  import P = Publications

  // ----- the graph it leads to -----

  /** A leaf that reads two sources, its own parser variable no longer listed. */
  ghost predicate LoneSum(g: Graph)
  {
    Wf(g) && g.owner == [None, None, Some(0)] && g.notify == [[0], [0], []] && |g.calcs| == 1 && 2 !in g.listed
  }

  lemma LoneSumIsLeaf(g: Graph)
    requires LoneSum(g)
    ensures g.calcs[0].out == None && g.calcs[0].Reads(0) && g.calcs[0].Reads(1)
  {
    assert CalcOk(g, 0) && ParserOk(g, 0) && ParserOk(g, 1);
    assert g.notify[0][0] == 0 && g.notify[1][0] == 0;
  }

  lemma NothingIsAdjacent(g: Graph, p: nat, q: nat)
    requires LoneSum(g)
    ensures !Adjacent(g, p, q)
  {
    LoneSumIsLeaf(g);
  }

  lemma SourcesAreApart(g: Graph)
    requires LoneSum(g)
    ensures !Connected(g, 0, 1)
  {
    if Connected(g, 0, 1) {
      var w :| Joins(g, w, 0, 1);
      NoHop(g, w);
    }
  }

  lemma NoHop(g: Graph, w: seq<nat>)
    requires LoneSum(g) && |w| > 1
    ensures !Hop(g, w, 1)
  {
    NothingIsAdjacent(g, w[0], w[1]);
  }

  /** Its two inputs are in different domains. So two threads may be inside its update() at once, and may leave
      it publishing what has long changed. */
  lemma LoneSumIsNotExclusive(g: Graph, a: Labels, n: nat)
    requires LoneSum(g) && Domains(g, a) && n >= 2
    ensures a[0] != a[1] && !Exclusive(g, a, 0, n) && !P.AlwaysUpToDate(g, a, 0, n)
  {
    LoneSumIsLeaf(g);
    SourcesAreApart(g);
    NotifyingIsLabelled(g, a, 0);
    ExclusiveExactlyWhenOneDomain(g, a, 0, n);
    P.UpToDateExactlyWhenOneDomain(g, a, 0, n);
  }

  // ----- the way there -----

  function NoGraph(): Graph { Graph([], [], [], []) }

  function TwoSources(): Graph { AddSource(AddSource(NoGraph())) }

  ghost predicate Unsynchronized(e: Engine)
    reads e`all, e.all`synchronizer
  {
    forall i :: 0 <= i < |e.all| ==> e.all[i].synchronizer == null
  }

  method NewEngine() returns (e: Engine)
    ensures fresh(e) && Consistent(e, {}) && e.g == NoGraph()
    ensures e.pvs == [] && e.all == [] && e.cvs == [] && e.sources == {}
  {
    e := new Engine();
    assert e.st.cells == [] && e.g.listed == [];
  }

  /** All variables are in order and settled, in no domain yet, and formulas find them by `ids`. */
  ghost predicate Registered(e: Engine, ids: seq<string>)
    reads e, e.all, e.cvs, e.sources
  {
    Consistent(e, {}) && RegisteredFor(e.pvs, ids) && Unsynchronized(e)
  }

  /** One more source. */
  method RegisterNew(e: Engine, ghost ids: seq<string>, id: string, ghost more: seq<string>)
    requires Registered(e, ids) && E.Clean(id) && id !in ids && more == ids + [id]
    modifies e`pvs, e`all, e`sources, e`g, e`st
    ensures Registered(e, more) && e.g == AddSource(old(e.g)) && e.cvs == old(e.cvs)
    ensures |e.all| == |old(e.all)| + 1 && e.all[..|old(e.all)|] == old(e.all) && fresh(e.all[|old(e.all)|])
    ensures fresh(e.sources - old(e.sources))
  {
    var v := new SourceVariable();
    var p := RegisterSource(e, v, id, {});
  }

  method RegisterTwo(x: string, y: string) returns (e: Engine)
    requires x != y && E.Clean(x) && E.Clean(y)
    ensures fresh(e) && fresh(e.sources) && e.cvs == [] && |e.all| == 2 && fresh(e.all[0]) && fresh(e.all[1])
    ensures Registered(e, [x, y]) && e.g == TwoSources()
  {
    e := NewEngine();
    RegisterNew(e, [], x, [x]);
    RegisterNew(e, [x], y, [x, y]);
  }

  /** A formula's spelling of a node identifier. */
  function Symbol(id: string): string { E.EscapedFormula(E.Backslashed(id)) }

  function SumOf(id: string, x: string, y: string, f: seq<real> -> real): CalcConfig
  {
    CalcConfig(id, [Symbol(x), Symbol(y)], [], false, false, f, f, None)
  }

  lemma SumResolves(ps: seq<ParserVariable>, config: CalcConfig, x: string, y: string)
    requires RegisteredFor(ps, [x, y]) && '\\' !in x && '\\' !in y && Numbers(ps) == [0, 1]
    requires config.valueSymbols == [Symbol(x), Symbol(y)] && config.StatusSymbols() == []
    ensures config.Resolves(ps) && Resolved(ps, config.valueSymbols) == [0, 1]
    ensures Resolved(ps, config.StatusSymbols()) == []
  {
    FormulaNamesItsNode(ps, [x, y], 0);
    FormulaNamesItsNode(ps, [x, y], 1);
    assert Numbers(ps)[0] == ps[0].id && Numbers(ps)[1] == ps[1].id;
  }

  /** The graph of one calculated variable over two sources. */
  ghost predicate Sum(g: Graph)
  {
    g.owner == [None, None, Some(0)] && g.notify == [[0], [0], []] && |g.calcs| == 1
  }

  lemma OneMoreRequest(g: Graph, ps: seq<nat>, p: nat)
    requires |g.calcs| == 1 && Within(ps, |g.notify|) && p < |g.notify|
    ensures Within(ps + [p], |g.notify|)
    ensures AddRequests(g, 0, ps + [p], true) == AddRequest(AddRequests(g, 0, ps, true), 0, p, true)
  {
    assert (ps + [p])[..|ps|] == ps;
  }

  lemma TwoRequests(g: Graph)
    requires g.notify == [[], []] && |g.calcs| == 1
    ensures AddRequests(g, 0, [0, 1], true).notify == [[0], [0]]
  {
    OneMoreRequest(g, [], 0);
    OneMoreRequest(g, [0], 1);
    assert [] + [0] == [0] && [0] + [1] == [0, 1];
    assert AddRequest(g, 0, 0, true).notify == [[0], []];
  }

  lemma TwoSourcesAre()
    ensures TwoSources().owner == [None, None] && TwoSources().notify == [[], []] && TwoSources().calcs == []
    ensures TwoSources().listed == [0, 1]
  {
    var g := AddSource(NoGraph());
    assert NoGraph().Size() == 0 && g.listed == [] + [0];
    assert g.owner == [None];
    assert g.notify == [[]];
  }

  lemma SumGraph(cv: Calc)
    ensures Within([0, 1], |TwoSources().notify|) && Sum(Instantiated(TwoSources(), cv, [0, 1], []))
  {
    TwoSourcesAre();
    TwoRequests(BeginCalc(TwoSources(), cv));
  }

  /** A calculated variable without configured value, whose symbols all name something. */
  method AddCalculated(e: Engine, config: CalcConfig)
    requires Consistent(e, {}) && Unsynchronized(e) && config.Resolves(e.pvs) && config.initialValue.None?
    modifies e`pvs, e`all, e`cvs, e`g, e`st, e.all`notified, e.all`value, e.all`state, e.cvs`stored
    ensures Consistent(e, {}) && Unsynchronized(e) && Instantiates(old(e.g), old(e.pvs), config, e.g)
    ensures |e.all| == |old(e.all)| + 1 && e.all[..|old(e.all)|] == old(e.all) && fresh(e.all[|old(e.all)|])
    ensures |e.cvs| == |old(e.cvs)| + 1 && e.cvs[..|old(e.cvs)|] == old(e.cvs) && fresh(e.cvs[|old(e.cvs)|])
    ensures e.sources == old(e.sources)
  {
    ghost var all := e.all;
    var ok, pv := Instantiate(e, config, {});
    OneMoreUnsynchronized(e, all, pv);
  }

  /** The calculated variable that reads both sources. */
  method AddSum(e: Engine, id: string, x: string, y: string, f: seq<real> -> real)
    requires Registered(e, [x, y]) && '\\' !in x && '\\' !in y && e.g == TwoSources() && e.cvs == []
    modifies e`pvs, e`all, e`cvs, e`g, e`st, e.all`notified, e.all`value, e.all`state
    ensures Consistent(e, {}) && Unsynchronized(e) && Sum(e.g) && e.sources == old(e.sources)
    ensures |e.all| == |old(e.all)| + 1 && e.all[..|old(e.all)|] == old(e.all) && fresh(e.all[|old(e.all)|])
    ensures |e.cvs| == 1 && fresh(e.cvs[0])
  {
    var config := SumOf(id, x, y, f);
    ghost var ps := e.pvs;
    TwoSourcesAre();
    SumResolves(ps, config, x, y);
    AddCalculated(e, config);
    BecomesSum(ps, config, e.g);
  }

  lemma OneMoreUnsynchronized(e: Engine, all: seq<ParserVariable>, pv: ParserVariable)
    requires e.all == all + [pv] && pv.synchronizer == null
    requires forall i :: 0 <= i < |all| ==> all[i].synchronizer == null
    ensures Unsynchronized(e)
  {
  }

  lemma BecomesSum(ps: seq<ParserVariable>, config: CalcConfig, g: Graph)
    requires Instantiates(TwoSources(), ps, config, g)
    requires Resolved(ps, config.valueSymbols) == [0, 1] && Resolved(ps, config.StatusSymbols()) == []
    ensures Sum(g)
  {
    SumGraph(config.Blank());
  }

  lemma {:induction false} DropAllKeepsOwner(g: Graph, ps: seq<nat>)
    ensures DropAll(g, ps).owner == g.owner
  {
    if ps != [] {
      DropAllKeepsOwner(g, ps[..|ps| - 1]);
    }
  }

  /** The optimisation removes the parser variable that nothing reads. */
  method OptimizeSum(e: Engine)
    requires Consistent(e, {}) && Unsynchronized(e) && Sum(e.g)
    modifies e`pvs, e`g, e.sources`listeners, e.cvs`listeners, e.cvs`notifiedVariable
    ensures e.Valid() && Unsynchronized(e) && LoneSum(e.g) && e.all == old(e.all)
  {
    ghost var g := e.g;
    ghost var dropped := O.Optimize(e, {});
    DropAllKeepsOwner(g, dropped);
    if k: nat :| k < |e.g.listed| && e.g.listed[k] == 2 {
      SumIsUnused(e, k);
    }
  }

  lemma SumIsUnused(e: Engine, k: nat)
    requires e.Valid() && Sum(e.g) && k < |e.pvs| && e.g.listed[k] == 2
    ensures O.Unused(e.pvs[k])
  {
    assert e.pvs[k].id == 2 && e.ParserTied(e.all[2]) && e.CalcTied(e.cvs[0]);
  }

  /** Start-up on the objects. When the domains are set up, the removed parser variable no longer joins the two
      sources: update() of the sum is not exclusive, and it may be left with a value that was evaluated too early. */
  method StartSum(id: string, x: string, y: string, f: seq<real> -> real, ghost n: nat)
    returns (e: Engine, ghost a: Labels)
    requires x != y && E.Clean(x) && E.Clean(y) && '\\' !in x && '\\' !in y && n >= 2
    ensures e.Valid() && Shows(e, a) && LoneSum(e.g) && Domains(e.g, a)
    ensures !Exclusive(e.g, a, 0, n) && !P.AlwaysUpToDate(e.g, a, 0, n)
  {
    e := RegisterTwo(x, y);
    ghost var all := e.all;
    AddSum(e, id, x, y, f);
    assert forall i :: 0 <= i < |e.cvs| ==> e.cvs[i] == e.cvs[0];
    assert forall i :: 0 <= i < |all| ==> e.all[i] == e.all[..|all|][i] && fresh(all[i]);
    OptimizeSum(e);
    a := Setup(e);
    LoneSumIsNotExclusive(e.g, a, n);
  }
}
