/** Synchronization domains: the depth-first search that hands out one recursive mutex to every
    connected part of the graph. */
module SyncDomains {
  import opened DataValues
  import opened CalcGraph
  import opened CalcEngine

  // ----- the undirected graph of parser variables -----

  /** Calculated variable `c` reads `p` and feeds `q`. */
  ghost predicate Edge(g: Graph, c: nat, p: nat, q: nat)
  {
    c < |g.calcs| && g.calcs[c].Reads(p) && g.calcs[c].out == Some(q)
  }

  /** `p` and `q` stand on the two sides of one calculated variable. */
  ghost predicate Adjacent(g: Graph, p: nat, q: nat)
  {
    exists c: nat :: Edge(g, c, p, q) || Edge(g, c, q, p)
  }

  ghost predicate Moving(g: Graph, p: nat) { p < g.Size() && !Constant(g, p) }

  /** A walk through variables that are not constant. */
  ghost predicate IsWalk(g: Graph, w: seq<nat>)
  {
    && w != []
    && (forall k :: 0 <= k < |w| ==> Moving(g, w[k]))
    && (forall k {:trigger Hop(g, w, k)} :: Hop(g, w, k))
  }

  /** The k-th step of a walk. */
  ghost predicate Hop(g: Graph, w: seq<nat>, k: int) { 0 < k < |w| ==> Adjacent(g, w[k - 1], w[k]) }

  ghost predicate Joins(g: Graph, w: seq<nat>, p: nat, q: nat)
  {
    IsWalk(g, w) && w[0] == p && w[|w| - 1] == q
  }

  ghost predicate Connected(g: Graph, p: nat, q: nat)
  {
    exists w :: Joins(g, w, p, q)
  }

  lemma AdjacentBothWays(g: Graph, u: nat, v: nat)
    requires Adjacent(g, u, v)
    ensures Adjacent(g, v, u)
  {
    var c: nat :| Edge(g, c, u, v) || Edge(g, c, v, u);
    assert Edge(g, c, v, u) || Edge(g, c, u, v);
  }

  lemma ConnectedToItself(g: Graph, p: nat)
    requires Moving(g, p)
    ensures Connected(g, p, p)
  {
    assert Joins(g, [p], p, p);
  }

  lemma ConnectedToNeighbour(g: Graph, p: nat, q: nat)
    requires Moving(g, p) && Moving(g, q) && Adjacent(g, p, q)
    ensures Connected(g, p, q)
  {
    assert Joins(g, [p, q], p, q);
  }

  lemma ConnectedBothWays(g: Graph, p: nat, q: nat)
    requires Connected(g, p, q)
    ensures Connected(g, q, p)
  {
    var w :| Joins(g, w, p, q);
    var v := seq(|w|, k requires 0 <= k < |w| => w[|w| - 1 - k]);
    forall k ensures Hop(g, v, k) {
      if 0 < k < |v| {
        assert Hop(g, w, |w| - k);
        AdjacentBothWays(g, v[k], v[k - 1]);
      }
    }
    assert Joins(g, v, q, p);
  }

  lemma ConnectedThrough(g: Graph, p: nat, q: nat, r: nat)
    requires Connected(g, p, q) && Connected(g, q, r)
    ensures Connected(g, p, r)
  {
    var v :| Joins(g, v, p, q);
    var w :| Joins(g, w, q, r);
    var u := v + w[1..];
    forall k ensures Hop(g, u, k) {
      assert Hop(g, v, k) && Hop(g, w, k - |v| + 1);
    }
    assert Joins(g, u, p, r);
  }

  lemma ConnectedAreMoving(g: Graph, p: nat, q: nat)
    requires Connected(g, p, q)
    ensures Moving(g, p) && Moving(g, q)
  {
    var w :| Joins(g, w, p, q);
  }

  // ----- labelling -----

  type Labels = seq<Synchronizer?>

  /** From `a` to `b`, nothing but the label `s` was given, and only to variables connected to `p`. */
  ghost predicate Grew(g: Graph, a: Labels, b: Labels, p: nat, s: Synchronizer)
  {
    && |a| == |b| == g.Size()
    && forall u :: 0 <= u < |a| ==> b[u] == a[u] || (a[u] == null && b[u] == s && Connected(g, p, u))
  }

  /** Every moving neighbour of a variable labelled on the way from `a` to `b` is labelled in `b`. */
  ghost predicate Shut(g: Graph, a: Labels, b: Labels, but: int)
    requires |a| == |b| == g.Size()
  {
    forall u: nat, v: nat {:trigger Adjacent(g, u, v)} ::
      u < |a| && u != but && a[u] == null && b[u] != null && Adjacent(g, u, v) && Moving(g, v) ==> b[v] != null
  }

  /** The search from `p` has got from `a` to `b`, the neighbours of `p` itself not all looked at yet. */
  ghost predicate Progress(g: Graph, a: Labels, b: Labels, p: nat, s: Synchronizer)
  {
    Moving(g, p) && Grew(g, a, b, p, s) && b[p] == s && Shut(g, a, b, p)
  }

  lemma ProgressStarts(g: Graph, a: Labels, p: nat, s: Synchronizer)
    requires |a| == g.Size() && Moving(g, p) && (a[p] == null || a[p] == s)
    ensures Progress(g, a, a[p := s], p, s)
  {
    ConnectedToItself(g, p);
  }

  /** `v` needs no visit any more. */
  ghost predicate Done(g: Graph, b: Labels, v: nat) { Moving(g, v) ==> v < |b| && b[v] != null }

  ghost predicate Keeps(a: Labels, b: Labels)
  {
    |a| == |b| && forall u :: 0 <= u < |a| && a[u] != null ==> b[u] == a[u]
  }

  /** The neighbours of `p` are the inputs of the variable it mirrors and the outputs of those it notifies. */
  ghost predicate NeighboursLabelled(g: Graph, b: Labels, p: nat)
    requires |b| == g.Size()
  {
    forall v: nat {:trigger Adjacent(g, p, v)} :: Adjacent(g, p, v) && Moving(g, v) ==> b[v] != null
  }

  /** The whole of one search: like `Progress`, with the neighbours of `p` labelled as well. */
  ghost predicate Searched(g: Graph, a: Labels, b: Labels, p: nat, s: Synchronizer)
  {
    Progress(g, a, b, p, s) && NeighboursLabelled(g, b, p)
  }

  lemma SearchedNeighbour(g: Graph, a: Labels, b: Labels, c: Labels, p: nat, q: nat, s: Synchronizer)
    requires Progress(g, a, b, p, s) && Searched(g, b, c, q, s) && Adjacent(g, p, q) && b[q] == null
    ensures Progress(g, a, c, p, s)
  {
    ConnectedToNeighbour(g, p, q);
    forall u | 0 <= u < |a| ensures c[u] == a[u] || (a[u] == null && c[u] == s && Connected(g, p, u)) {
      if c[u] != b[u] {
        ConnectedThrough(g, p, q, u);
      }
    }
    forall u: nat, v: nat | u < |a| && u != p && a[u] == null && c[u] != null && Adjacent(g, u, v) && Moving(g, v)
      ensures c[v] != null
    {
      if u == q {
        assert c[v] != null;
      }
    }
  }

  // ----- the search itself -----

  ghost predicate Shows(e: Engine, a: Labels)
    reads e`all, e.all`synchronizer
  {
    |a| == |e.all| && forall i :: 0 <= i < |a| ==> e.all[i].synchronizer == a[i]
  }

  ghost function Unlabelled(a: Labels, p: nat): set<nat>
  {
    set q: nat | q < |a| && q != p && a[q] == null
  }

  ghost predicate AllDone(g: Graph, b: Labels, vs: seq<ParserVariable>)
  {
    forall k :: 0 <= k < |vs| ==> Done(g, b, vs[k].id)
  }

  ghost predicate OutputsDone(g: Graph, b: Labels, cs: seq<CalculatedVariable>)
    reads cs`notifiedVariable
  {
    forall k :: 0 <= k < |cs| && cs[k].notifiedVariable != null ==> Done(g, b, cs[k].notifiedVariable.id)
  }

  lemma DoneIsKept(g: Graph, b: Labels, c: Labels, vs: seq<ParserVariable>)
    requires AllDone(g, b, vs) && Keeps(b, c)
    ensures AllDone(g, c, vs)
  {
    forall j | 0 <= j < |vs| ensures Done(g, c, vs[j].id) {
      assert Done(g, b, vs[j].id);
    }
  }

  lemma OneMoreDone(g: Graph, b: Labels, c: Labels, vs: seq<ParserVariable>, k: nat)
    requires k < |vs| && AllDone(g, b, vs[..k]) && Keeps(b, c) && Done(g, c, vs[k].id)
    ensures AllDone(g, c, vs[..k + 1])
  {
    forall j | 0 <= j < k ensures Done(g, c, vs[j].id) {
      assert Done(g, b, vs[..k][j].id);
    }
  }

  lemma OneMoreOutput(g: Graph, b: Labels, c: Labels, cs: seq<CalculatedVariable>, k: nat)
    requires k < |cs| && OutputsDone(g, b, cs[..k]) && Keeps(b, c)
    requires cs[k].notifiedVariable != null ==> Done(g, c, cs[k].notifiedVariable.id)
    ensures OutputsDone(g, c, cs[..k + 1])
  {
    forall j | 0 <= j < k && cs[j].notifiedVariable != null ensures Done(g, c, cs[j].notifiedVariable.id) {
      assert Done(g, b, cs[..k][j].notifiedVariable.id);
    }
  }

  lemma KeepsShrinks(b: Labels, c: Labels, p: nat)
    requires Keeps(b, c)
    ensures Unlabelled(c, p) <= Unlabelled(b, p)
  {
  }

  method Assign(e: Engine, pv: ParserVariable, s: Synchronizer, ghost a: Labels)
    requires e.Valid() && Shows(e, a) && e.Has(pv)
    modifies pv`synchronizer
    ensures e.Valid() && Shows(e, a[pv.id := s])
  {
    pv.synchronizer := s;
  }

  /** dfsAndSetSynchronizer. */
  method Search(e: Engine, pv: ParserVariable, s: Synchronizer, ghost a: Labels) returns (ghost b: Labels)
    requires e.Valid() && Shows(e, a) && e.Has(pv) && pv.id in e.g.listed
    requires Moving(e.g, pv.id) && (pv.synchronizer == null || pv.synchronizer == s)
    modifies e.all`synchronizer
    ensures e.Valid() && Shows(e, b) && Searched(e.g, a, b, pv.id, s)
    decreases Unlabelled(a, pv.id), 5
  {
    Assign(e, pv, s, a);
    ProgressStarts(e.g, a, pv.id, s);
    b := a[pv.id := s];
    b := VisitNeighbours(e, pv, s, a, b);
  }

  method VisitNeighbours(e: Engine, pv: ParserVariable, s: Synchronizer, ghost a: Labels, ghost b: Labels)
    returns (ghost c: Labels)
    requires e.Valid() && Shows(e, b) && e.Has(pv) && pv.id in e.g.listed && Progress(e.g, a, b, pv.id, s)
    modifies e.all`synchronizer
    ensures e.Valid() && Shows(e, c) && Progress(e.g, a, c, pv.id, s) && Keeps(b, c)
    ensures NeighboursLabelled(e.g, c, pv.id)
    decreases Unlabelled(b, pv.id), 4
  {
    ghost var d := b;
    if pv.notifying.Calculated? {
      d := VisitInputs(e, pv, pv.notifying.cv, s, a, b);
      KeepsShrinks(b, d, pv.id);
    }
    c := VisitOutputs(e, pv, s, a, d);
    InputsStayDone(e, pv, d, c);
    AllNeighbours(e, pv, c);
  }

  method VisitInputs(e: Engine, pv: ParserVariable, cv: CalculatedVariable, s: Synchronizer, ghost a: Labels,
                     ghost b: Labels)
    returns (ghost c: Labels)
    requires e.Valid() && Shows(e, b) && e.Has(pv) && pv.id in e.g.listed && pv.notifying == Calculated(cv)
    requires Progress(e.g, a, b, pv.id, s)
    modifies e.all`synchronizer
    ensures e.Valid() && Shows(e, c) && Progress(e.g, a, c, pv.id, s) && Keeps(b, c)
    ensures AllDone(e.g, c, cv.valueVars) && AllDone(e.g, c, cv.statusVars)
    decreases Unlabelled(b, pv.id), 3
  {
    OwnInputsAreAdjacent(e, pv, cv);
    ghost var d := VisitAll(e, pv, cv.valueVars, s, a, b);
    KeepsShrinks(b, d, pv.id);
    c := VisitAll(e, pv, cv.statusVars, s, a, d);
    DoneIsKept(e.g, d, c, cv.valueVars);
  }

  method Visit(e: Engine, pv: ParserVariable, v: ParserVariable, s: Synchronizer, ghost a: Labels, ghost b: Labels)
    returns (ghost c: Labels)
    requires e.Valid() && Shows(e, b) && e.Has(pv) && e.Has(v) && v.id in e.g.listed
    requires Progress(e.g, a, b, pv.id, s) && Adjacent(e.g, pv.id, v.id)
    modifies e.all`synchronizer
    ensures e.Valid() && Shows(e, c) && Progress(e.g, a, c, pv.id, s) && Keeps(b, c) && Done(e.g, c, v.id)
    decreases Unlabelled(b, pv.id), 0
  {
    assert e.ParserTied(e.all[v.id]);
    c := b;
    if v.synchronizer == null && !v.isConstant {
      assert v.id in Unlabelled(b, pv.id) && v.id !in Unlabelled(b, v.id);
      c := Search(e, v, s, b);
      SearchedNeighbour(e.g, a, b, c, pv.id, v.id, s);
    }
  }

  method VisitNext(e: Engine, pv: ParserVariable, vs: seq<ParserVariable>, k: nat, s: Synchronizer, ghost a: Labels,
                   ghost b: Labels)
    returns (ghost c: Labels)
    requires e.Valid() && Shows(e, b) && e.Has(pv) && Progress(e.g, a, b, pv.id, s)
    requires k < |vs| && e.Has(vs[k]) && vs[k].id in e.g.listed && Adjacent(e.g, pv.id, vs[k].id)
    requires AllDone(e.g, b, vs[..k])
    modifies e.all`synchronizer
    ensures e.Valid() && Shows(e, c) && Progress(e.g, a, c, pv.id, s) && Keeps(b, c)
    ensures AllDone(e.g, c, vs[..k + 1])
    decreases Unlabelled(b, pv.id), 1
  {
    c := Visit(e, pv, vs[k], s, a, b);
    OneMoreDone(e.g, b, c, vs, k);
  }

  method VisitAll(e: Engine, pv: ParserVariable, vs: seq<ParserVariable>, s: Synchronizer, ghost a: Labels,
                  ghost b: Labels)
    returns (ghost c: Labels)
    requires e.Valid() && Shows(e, b) && e.Has(pv) && Progress(e.g, a, b, pv.id, s)
    requires forall k :: 0 <= k < |vs| ==> e.Has(vs[k]) && vs[k].id in e.g.listed && Adjacent(e.g, pv.id, vs[k].id)
    modifies e.all`synchronizer
    ensures e.Valid() && Shows(e, c) && Progress(e.g, a, c, pv.id, s) && Keeps(b, c)
    ensures AllDone(e.g, c, vs)
    decreases Unlabelled(b, pv.id), 2
  {
    c := b;
    for k := 0 to |vs|
      invariant e.Valid() && Shows(e, c) && Progress(e.g, a, c, pv.id, s) && Keeps(b, c)
      invariant AllDone(e.g, c, vs[..k])
    {
      KeepsShrinks(b, c, pv.id);
      c := VisitNext(e, pv, vs, k, s, a, c);
    }
    assert vs[..|vs|] == vs;
  }

  method VisitOutputs(e: Engine, pv: ParserVariable, s: Synchronizer, ghost a: Labels, ghost b: Labels)
    returns (ghost c: Labels)
    requires e.Valid() && Shows(e, b) && e.Has(pv) && Progress(e.g, a, b, pv.id, s)
    modifies e.all`synchronizer
    ensures e.Valid() && Shows(e, c) && Progress(e.g, a, c, pv.id, s) && Keeps(b, c)
    ensures OutputsDone(e.g, c, pv.notified)
    decreases Unlabelled(b, pv.id), 2
  {
    c := b;
    for k := 0 to |pv.notified|
      invariant e.Valid() && Shows(e, c) && Progress(e.g, a, c, pv.id, s) && Keeps(b, c)
      invariant OutputsDone(e.g, c, pv.notified[..k])
    {
      KeepsShrinks(b, c, pv.id);
      c := VisitOutput(e, pv, k, s, a, c);
    }
    assert pv.notified[..|pv.notified|] == pv.notified;
  }

  method VisitOutput(e: Engine, pv: ParserVariable, k: nat, s: Synchronizer, ghost a: Labels, ghost b: Labels)
    returns (ghost c: Labels)
    requires e.Valid() && Shows(e, b) && e.Has(pv) && Progress(e.g, a, b, pv.id, s)
    requires k < |pv.notified| && OutputsDone(e.g, b, pv.notified[..k])
    modifies e.all`synchronizer
    ensures e.Valid() && Shows(e, c) && Progress(e.g, a, c, pv.id, s) && Keeps(b, c)
    ensures OutputsDone(e.g, c, pv.notified[..k + 1])
    decreases Unlabelled(b, pv.id), 1
  {
    c := b;
    if pv.notified[k].notifiedVariable != null {
      OutputIsAdjacent(e, pv, k);
      c := Visit(e, pv, pv.notified[k].notifiedVariable, s, a, b);
    }
    OneMoreOutput(e.g, b, c, pv.notified, k);
  }

  lemma OwnInputsAreAdjacent(e: Engine, pv: ParserVariable, cv: CalculatedVariable)
    requires e.Valid() && e.Has(pv) && pv.id in e.g.listed && pv.notifying == Calculated(cv)
    ensures e.Knows(cv) && cv.id < |e.g.calcs| && e.g.calcs[cv.id] == CalcOf(cv) && e.g.calcs[cv.id].out == Some(pv.id)
    ensures forall k :: 0 <= k < |cv.valueVars| ==>
              e.Has(cv.valueVars[k]) && cv.valueVars[k].id in e.g.listed && Adjacent(e.g, pv.id, cv.valueVars[k].id)
    ensures forall k :: 0 <= k < |cv.statusVars| ==>
              e.Has(cv.statusVars[k]) && cv.statusVars[k].id in e.g.listed && Adjacent(e.g, pv.id, cv.statusVars[k].id)
  {
    assert e.ParserTied(e.all[pv.id]) && e.CalcTied(e.cvs[cv.id]);
    assert ParserOk(e.g, pv.id) && CalcOk(e.g, cv.id);
    forall k | 0 <= k < |cv.valueVars| ensures Edge(e.g, cv.id, cv.valueVars[k].id, pv.id) {
      assert Numbers(cv.valueVars)[k] == cv.valueVars[k].id;
    }
    forall k | 0 <= k < |cv.statusVars| ensures Edge(e.g, cv.id, cv.statusVars[k].id, pv.id) {
      assert Numbers(cv.statusVars)[k] == cv.statusVars[k].id;
    }
  }

  lemma OutputIsAdjacent(e: Engine, pv: ParserVariable, k: nat)
    requires e.Valid() && e.Has(pv) && k < |pv.notified| && pv.notified[k].notifiedVariable != null
    ensures var q := pv.notified[k].notifiedVariable;
            e.Has(q) && q.id in e.g.listed && Adjacent(e.g, pv.id, q.id)
  {
    e.KnowsNotified(pv, k);
    assert e.CalcTied(e.cvs[pv.notified[k].id]);
    assert Edge(e.g, pv.notified[k].id, pv.id, pv.notified[k].notifiedVariable.id);
  }

  lemma InputsStayDone(e: Engine, pv: ParserVariable, b: Labels, c: Labels)
    requires Keeps(b, c)
    requires pv.notifying.Calculated? ==>
               AllDone(e.g, b, pv.notifying.cv.valueVars) && AllDone(e.g, b, pv.notifying.cv.statusVars)
    ensures pv.notifying.Calculated? ==>
              AllDone(e.g, c, pv.notifying.cv.valueVars) && AllDone(e.g, c, pv.notifying.cv.statusVars)
  {
    if pv.notifying.Calculated? {
      DoneIsKept(e.g, b, c, pv.notifying.cv.valueVars);
      DoneIsKept(e.g, b, c, pv.notifying.cv.statusVars);
    }
  }

  lemma AllNeighbours(e: Engine, pv: ParserVariable, b: Labels)
    requires e.Valid() && |b| == e.g.Size() && e.Has(pv) && pv.id in e.g.listed
    requires pv.notifying.Calculated? ==>
               AllDone(e.g, b, pv.notifying.cv.valueVars) && AllDone(e.g, b, pv.notifying.cv.statusVars)
    requires OutputsDone(e.g, b, pv.notified)
    ensures NeighboursLabelled(e.g, b, pv.id)
  {
    forall v: nat | Adjacent(e.g, pv.id, v) && Moving(e.g, v) ensures b[v] != null {
      var c: nat :| Edge(e.g, c, pv.id, v) || Edge(e.g, c, v, pv.id);
      assert CalcOk(e.g, c) && e.CalcTied(e.cvs[c]) && e.ParserTied(e.all[pv.id]);
      if Edge(e.g, c, pv.id, v) {
        var k :| 0 <= k < |e.g.notify[pv.id]| && e.g.notify[pv.id][k] == c;
        assert pv.notified[k].id == c && pv.notified[k] == e.cvs[c];
      } else {
        assert pv.notifying == Calculated(e.cvs[c]);
        var cv := e.cvs[c];
        if v in Numbers(cv.valueVars) {
          var k :| 0 <= k < |cv.valueVars| && Numbers(cv.valueVars)[k] == v;
        } else {
          var k :| 0 <= k < |cv.statusVars| && Numbers(cv.statusVars)[k] == v;
        }
      }
    }
  }

  // ----- one mutex per connected part -----

  ghost predicate Live(g: Graph, p: nat)
  {
    p in g.listed && Moving(g, p) && p < |g.notify| && g.notify[p] != []
  }

  /** Everything connected to `p`. */
  ghost function Part(g: Graph, p: nat): set<nat> { set q: nat | q < g.Size() && Connected(g, p, q) }

  ghost predicate Closed(g: Graph, a: Labels)
  {
    && |a| == g.Size()
    && forall u: nat, v: nat {:trigger Adjacent(g, u, v)} ::
         u < |a| && a[u] != null && Adjacent(g, u, v) && Moving(g, v) ==> a[v] == a[u]
  }

  /** Exactly the variables in the parts `made` are labelled, with one label for each part. */
  ghost predicate OnePerPart(g: Graph, a: Labels, made: set<set<nat>>)
  {
    && Closed(g, a)
    && (forall u :: 0 <= u < |a| && a[u] != null ==> Moving(g, u) && Part(g, u) in made)
    && (forall m, u :: m in made && u in m ==> u < |a| && a[u] != null)
    && (forall u, v :: 0 <= u < |a| && 0 <= v < |a| && a[u] != null && a[u] == a[v] ==> Connected(g, u, v))
  }

  lemma ClosedAlong(g: Graph, a: Labels, w: seq<nat>)
    requires Closed(g, a) && IsWalk(g, w) && a[w[0]] != null
    ensures a[w[|w| - 1]] == a[w[0]]
    decreases |w|
  {
    if |w| > 1 {
      var v := w[..|w| - 1];
      forall k ensures Hop(g, v, k) {
        assert Hop(g, w, k);
      }
      ClosedAlong(g, a, v);
      assert Hop(g, w, |w| - 1);
    }
  }

  lemma SameLabelAcross(g: Graph, a: Labels, p: nat, q: nat)
    requires Closed(g, a) && Connected(g, p, q) && a[p] != null
    ensures q < |a| && a[q] == a[p]
  {
    var w :| Joins(g, w, p, q);
    ClosedAlong(g, a, w);
  }

  lemma SamePart(g: Graph, p: nat, q: nat)
    requires Connected(g, p, q)
    ensures Part(g, p) == Part(g, q)
  {
    ConnectedBothWays(g, p, q);
    forall r | 0 <= r < g.Size() ensures r in Part(g, p) <==> r in Part(g, q) {
      if r in Part(g, p) {
        ConnectedThrough(g, q, p, r);
      }
      if r in Part(g, q) {
        ConnectedThrough(g, p, q, r);
      }
    }
  }

  lemma StillClosed(g: Graph, a: Labels, b: Labels, p: nat, s: Synchronizer)
    requires Closed(g, a) && s !in a && p < |a| && a[p] == null
    requires Searched(g, a[p := s], b, p, s)
    ensures Closed(g, b)
  {
    ConnectedToItself(g, p);
    forall u: nat, v: nat | u < |b| && b[u] != null && Adjacent(g, u, v) && Moving(g, v) ensures b[v] == b[u] {
      if a[u] == null {
        assert Connected(g, p, u);
        ConnectedAreMoving(g, p, u);
        OldOnesAreApart(g, a, u, v);
      }
    }
  }

  lemma OldOnesAreApart(g: Graph, a: Labels, u: nat, v: nat)
    requires Closed(g, a) && u < |a| && a[u] == null && Moving(g, u) && v < |a| && Adjacent(g, u, v)
    ensures a[v] == null
  {
    AdjacentBothWays(g, u, v);
  }

  /** A search from an unlabelled variable labels its part, which was not labelled before. */
  lemma SearchMakesAPart(g: Graph, a: Labels, b: Labels, p: nat, s: Synchronizer, made: set<set<nat>>)
    requires OnePerPart(g, a, made) && s !in a && p < |a| && a[p] == null
    requires Searched(g, a[p := s], b, p, s)
    ensures Part(g, p) !in made && OnePerPart(g, b, made + {Part(g, p)})
  {
    ConnectedToItself(g, p);
    assert p in Part(g, p);
    StillClosed(g, a, b, p, s);
    forall u | 0 <= u < |b| && a[u] == null && b[u] != null
      ensures b[u] == s && Connected(g, p, u) && Part(g, u) == Part(g, p)
    {
      assert Connected(g, p, u);
      SamePart(g, p, u);
    }
    forall u | u in Part(g, p) ensures b[u] != null {
      SameLabelAcross(g, b, p, u);
    }
    forall u, v | 0 <= u < |b| && 0 <= v < |b| && b[u] != null && b[u] == b[v] ensures Connected(g, u, v) {
      if b[u] == s {
        ConnectedBothWays(g, p, u);
        ConnectedThrough(g, u, p, v);
      }
    }
    forall u | 0 <= u < |b| && b[u] != null ensures Moving(g, u) {
      if a[u] == null {
        ConnectedAreMoving(g, p, u);
      }
    }
  }

  /** The parts of the live variables among the last entries of the list. */
  ghost function PartsFrom(g: Graph, k: nat): set<set<nat>>
  {
    set j | k <= j < |g.listed| && Live(g, g.listed[j]) :: Part(g, g.listed[j])
  }

  /** The parts that hold something from position `k` of the list on have one mutex each, and they are
      the mutexes counted since the counter was at `start`. */
  ghost predicate SetUpFrom(e: Engine, a: Labels, k: nat, start: nat)
    reads e`g, e`numSynchronizers
  {
    OnePerPart(e.g, a, PartsFrom(e.g, k)) && e.numSynchronizers == start + |PartsFrom(e.g, k)|
  }

  lemma NothingSetUp(e: Engine) returns (a: Labels)
    requires e.Valid() && forall i :: 0 <= i < |e.all| ==> e.all[i].synchronizer == null
    ensures Shows(e, a) && SetUpFrom(e, a, |e.pvs|, e.numSynchronizers)
  {
    a := seq(|e.all|, _ => null);
    assert PartsFrom(e.g, |e.pvs|) == {};
  }

  /** The inputs of a calculated variable and its own parser variable have the same mutex, constants aside. */
  ghost predicate InputsShare(c: CalculatedVariable)
    reads c`valueVars, c`statusVars, c`notifiedVariable, c.valueVars, c.statusVars
    reads if c.notifiedVariable == null then {} else {c.notifiedVariable}
  {
    c.notifiedVariable != null && !c.notifiedVariable.isConstant ==>
      forall p :: p in c.valueVars + c.statusVars && !p.isConstant ==> p.synchronizer == c.notifiedVariable.synchronizer
  }

  lemma InputSharesMutex(e: Engine, a: Labels, c: CalculatedVariable, p: ParserVariable)
    requires e.Valid() && Shows(e, a) && Closed(e.g, a)
    requires c in e.cvs && c.notifiedVariable != null && (p in c.valueVars || p in c.statusVars)
    requires !p.isConstant && !c.notifiedVariable.isConstant
    ensures p.synchronizer == c.notifiedVariable.synchronizer
  {
    var q := c.notifiedVariable;
    assert e.CalcTied(e.cvs[c.id]) && CalcOk(e.g, c.id) && e.Has(p) && e.Has(q);
    assert e.ParserTied(e.all[p.id]) && e.ParserTied(e.all[q.id]);
    IsInput(c, p);
    assert Edge(e.g, c.id, p.id, q.id);
    assert Adjacent(e.g, p.id, q.id);
    AdjacentBothWays(e.g, p.id, q.id);
  }

  lemma IsInput(c: CalculatedVariable, p: ParserVariable)
    requires p in c.valueVars || p in c.statusVars
    ensures CalcOf(c).Reads(p.id)
  {
    if p in c.valueVars {
      var k :| 0 <= k < |c.valueVars| && c.valueVars[k] == p;
      assert Numbers(c.valueVars)[k] == p.id;
    } else {
      var k :| 0 <= k < |c.statusVars| && c.statusVars[k] == p;
      assert Numbers(c.statusVars)[k] == p.id;
    }
  }

  lemma SetUpIsSynchronised(e: Engine, a: Labels, start: nat)
    requires e.Valid() && Shows(e, a) && SetUpFrom(e, a, 0, start)
    ensures forall p :: p in e.pvs && p.notified != [] && !p.isConstant ==> p.synchronizer != null
    ensures forall p :: p in e.all && p.isConstant ==> p.synchronizer == null
    ensures forall c :: c in e.cvs ==> InputsShare(c)
  {
    forall p | p in e.all && p.isConstant ensures p.synchronizer == null {
      assert e.ParserTied(e.all[p.id]);
    }
    forall p | p in e.pvs && p.notified != [] && !p.isConstant ensures p.synchronizer != null {
      var j :| 0 <= j < |e.pvs| && e.pvs[j] == p;
      LiveHasMutex(e, a, j, p);
    }
    forall c | c in e.cvs ensures InputsShare(c) {
      if c.notifiedVariable != null && !c.notifiedVariable.isConstant {
        forall p | p in c.valueVars + c.statusVars && !p.isConstant
          ensures p.synchronizer == c.notifiedVariable.synchronizer
        {
          InputSharesMutex(e, a, c, p);
        }
      }
    }
  }

  lemma LiveHasMutex(e: Engine, a: Labels, j: nat, p: ParserVariable)
    requires e.Valid() && Shows(e, a) && OnePerPart(e.g, a, PartsFrom(e.g, 0))
    requires j < |e.pvs| && e.pvs[j] == p && p.notified != [] && !p.isConstant
    ensures p.synchronizer != null
  {
    assert e.ParserTied(e.all[p.id]) && e.g.listed[j] == p.id;
    ConnectedToItself(e.g, p.id);
    assert Live(e.g, e.g.listed[j]) && p.id in Part(e.g, p.id) && Part(e.g, p.id) in PartsFrom(e.g, 0);
  }

  /** setupSynchronization: one new mutex per part that holds a live variable. What notifies something and is not
      constant has a mutex, and constants have none. */
  method Setup(e: Engine) returns (ghost a: Labels)
    requires e.Valid() && forall i :: 0 <= i < |e.all| ==> e.all[i].synchronizer == null
    modifies e`numSynchronizers, e.all`synchronizer
    ensures e.Valid() && Shows(e, a) && SetUpFrom(e, a, 0, old(e.numSynchronizers))
    ensures forall p :: p in e.pvs && p.notified != [] && !p.isConstant ==> p.synchronizer != null
    ensures forall p :: p in e.all && p.isConstant ==> p.synchronizer == null
    ensures forall c :: c in e.cvs ==> InputsShare(c)
  {
    ghost var start := e.numSynchronizers;
    a := NothingSetUp(e);
    for k := |e.pvs| downto 0
      invariant e.Valid() && Shows(e, a) && SetUpFrom(e, a, k, start)
    {
      a := SetupOne(e, k, a, start);
    }
    SetUpIsSynchronised(e, a, start);
  }

  method SetupOne(e: Engine, k: nat, ghost a: Labels, ghost start: nat) returns (ghost b: Labels)
    requires e.Valid() && Shows(e, a) && k < |e.pvs| && SetUpFrom(e, a, k + 1, start)
    modifies e`numSynchronizers, e.all`synchronizer
    ensures e.Valid() && Shows(e, b) && SetUpFrom(e, b, k, start)
  {
    var pv := e.pvs[k];
    b := a;
    assert e.ParserTied(e.all[pv.id]) && e.g.listed[k] == pv.id;
    OneMorePart(e.g, a, k);
    if |pv.notified| < 1 || pv.synchronizer != null || pv.isConstant {
      return;
    }
    b := NewDomain(e, pv, a, PartsFrom(e.g, k + 1));
  }

  method NewDomain(e: Engine, pv: ParserVariable, ghost a: Labels, ghost made: set<set<nat>>) returns (ghost b: Labels)
    requires e.Valid() && Shows(e, a) && OnePerPart(e.g, a, made)
    requires e.Has(pv) && pv.id in e.g.listed && Moving(e.g, pv.id) && pv.synchronizer == null
    modifies e`numSynchronizers, e.all`synchronizer
    ensures e.Valid() && Shows(e, b) && Part(e.g, pv.id) !in made && OnePerPart(e.g, b, made + {Part(e.g, pv.id)})
    ensures e.numSynchronizers == old(e.numSynchronizers) + 1
  {
    var s := new Synchronizer();
    e.numSynchronizers := e.numSynchronizers + 1;
    assert s !in a by {
      assert forall i :: 0 <= i < |a| ==> a[i] == e.all[i].synchronizer != s;
    }
    Assign(e, pv, s, a);
    b := Search(e, pv, s, a[pv.id := s]);
    SearchMakesAPart(e.g, a, b, pv.id, s, made);
  }

  lemma OneMorePart(g: Graph, a: Labels, k: nat)
    requires OnePerPart(g, a, PartsFrom(g, k + 1)) && k < |g.listed| && g.listed[k] < |a|
    ensures !Live(g, g.listed[k]) ==> PartsFrom(g, k) == PartsFrom(g, k + 1)
    ensures Live(g, g.listed[k]) ==> PartsFrom(g, k) == PartsFrom(g, k + 1) + {Part(g, g.listed[k])}
    ensures a[g.listed[k]] != null ==> PartsFrom(g, k) == PartsFrom(g, k + 1)
  {
  }

  /** What the setup amounts to: two variables share a mutex exactly when they are connected through
      variables that are not constant, and the parts without a live variable get none. */
  lemma DomainsAreConnectedParts(g: Graph, a: Labels)
    requires |a| == g.Size() && OnePerPart(g, a, PartsFrom(g, 0))
    ensures forall p, q :: 0 <= p < |a| && 0 <= q < |a| && a[p] != null ==> (a[p] == a[q] <==> Connected(g, p, q))
    ensures forall p :: 0 <= p < |a| ==> (a[p] != null <==> exists q :: Live(g, q) && Connected(g, p, q))
  {
    forall p, q | 0 <= p < |a| && 0 <= q < |a| && a[p] != null ensures a[p] == a[q] <==> Connected(g, p, q) {
      if Connected(g, p, q) {
        SameLabelAcross(g, a, p, q);
      }
    }
    forall p | 0 <= p < |a| ensures a[p] != null <==> exists q :: Live(g, q) && Connected(g, p, q) {
      if a[p] != null {
        var j :| 0 <= j < |g.listed| && Live(g, g.listed[j]) && Part(g, p) == Part(g, g.listed[j]);
        ConnectedToItself(g, g.listed[j]);
        assert g.listed[j] in Part(g, p);
      }
      if q :| Live(g, q) && Connected(g, p, q) {
        var j :| 0 <= j < |g.listed| && g.listed[j] == q;
        ConnectedBothWays(g, p, q);
        assert p in Part(g, q);
      }
    }
  }
}
