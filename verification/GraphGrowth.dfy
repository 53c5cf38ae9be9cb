/** How registration extends the graph and optimisation shrinks it. */
module GraphGrowth {
  import opened DataValues
  import opened CalcGraph
  import opened PushTheorems

  /** A parser variable with the given owner goes to the end of the list. */
  function AppendOwned(g: Graph, owner: Option<nat>): Graph
  {
    g.(owner := g.owner + [owner], notify := g.notify + [[]], listed := g.listed + [g.Size()])
  }

  /** A source variable gets a parser variable. */
  function AddSource(g: Graph): Graph { AppendOwned(g, None) }

  /** A calculated variable is constructed: no input resolved yet, no parser variable of its own. */
  function BeginCalc(g: Graph, cv: Calc): Graph
  {
    g.(calcs := g.calcs + [cv.(valueIn := [], statusIn := [], out := None)])
  }

  /** `ps` with `p` at the end, unless it is there already. */
  function AddOnce(ps: seq<nat>, p: nat): (r: seq<nat>)
    ensures forall q :: q in r <==> q in ps || q == p
  {
    if p in ps then ps else ps + [p]
  }

  /** A formula of `c` asks for parser variable `p`. */
  function AddRequest(g: Graph, c: nat, p: nat, forValue: bool): Graph
    requires c < |g.calcs| && p < |g.notify|
  {
    var cv := g.calcs[c];
    g.(notify := g.notify[p := g.notify[p] + [c]],
       calcs := g.calcs[c := if forValue then cv.(valueIn := AddOnce(cv.valueIn, p))
                             else cv.(statusIn := AddOnce(cv.statusIn, p))])
  }

  /** `c` gets its parser variable, at the end of the list. */
  function FinishCalc(g: Graph, c: nat): Graph
    requires c < |g.calcs|
  {
    AppendOwned(g, Some(c)).(calcs := g.calcs[c := g.calcs[c].(out := Some(g.Size()))])
  }

  /** All requests of one formula of `c`, one after the other. */
  function AddRequests(g: Graph, c: nat, ps: seq<nat>, forValue: bool): (r: Graph)
    requires c < |g.calcs| && Within(ps, |g.notify|)
    ensures |r.notify| == |g.notify| && |r.calcs| == |g.calcs| && r.owner == g.owner && r.listed == g.listed
    ensures r.calcs[c].out == g.calcs[c].out
    ensures forall d :: 0 <= d < |g.calcs| && d != c ==> r.calcs[d] == g.calcs[d]
  {
    if ps == [] then g else AddRequest(AddRequests(g, c, ps[..|ps| - 1], forValue), c, ps[|ps| - 1], forValue)
  }

  function InputsOf(cv: Calc, forValue: bool): seq<nat> { if forValue then cv.valueIn else cv.statusIn }

  lemma FrontOrLast(ps: seq<nat>)
    requires ps != []
    ensures forall p :: p in ps <==> p in ps[..|ps| - 1] || p == ps[|ps| - 1]
  {
    assert ps == ps[..|ps| - 1] + [ps[|ps| - 1]];
  }

  lemma RequestIsInput(g: Graph, c: nat, p: nat, forValue: bool)
    requires c < |g.calcs| && p < |g.notify|
    ensures var r := AddRequest(g, c, p, forValue);
            && (forall q :: q in InputsOf(r.calcs[c], forValue) <==> q in InputsOf(g.calcs[c], forValue) || q == p)
            && InputsOf(r.calcs[c], !forValue) == InputsOf(g.calcs[c], !forValue)
  {
  }

  /** A formula's inputs are the parser variables it asked for, and the other formula keeps its own. */
  lemma {:induction false} RequestsAreInputs(g: Graph, c: nat, ps: seq<nat>, forValue: bool)
    requires c < |g.calcs| && Within(ps, |g.notify|)
    ensures var r := AddRequests(g, c, ps, forValue);
            && (forall p :: p in InputsOf(r.calcs[c], forValue) <==> p in InputsOf(g.calcs[c], forValue) || p in ps)
            && InputsOf(r.calcs[c], !forValue) == InputsOf(g.calcs[c], !forValue)
  {
    if ps != [] {
      var n := |ps| - 1;
      RequestsAreInputs(g, c, ps[..n], forValue);
      RequestIsInput(AddRequests(g, c, ps[..n], forValue), c, ps[n], forValue);
      FrontOrLast(ps);
    }
  }

  /** Position of `p` where it is first mentioned. */
  function FirstMention(ps: seq<nat>, p: nat): (r: nat)
    requires p in ps
    ensures r < |ps| && ps[r] == p && p !in ps[..r]
  {
    if ps[0] == p then 0 else
      var r := FirstMention(ps[1..], p);
      assert ps[..r + 1] == [ps[0]] + ps[1..][..r];
      r + 1
  }

  /** `ins` holds what `ps` mentions, each once, in the order of the first mention. */
  ghost predicate InOrderOfMention(ins: seq<nat>, ps: seq<nat>)
  {
    && (forall p :: p in ins <==> p in ps)
    && (forall j, k :: 0 <= j < k < |ins| ==> FirstMention(ps, ins[j]) < FirstMention(ps, ins[k]))
  }

  lemma FirstMentionIs(ps: seq<nat>, p: nat, k: nat)
    requires k < |ps| && ps[k] == p && p !in ps[..k]
    ensures FirstMention(ps, p) == k
  {
    if k > 0 {
      assert ps[..k][0] == ps[0] && ps[1..][..k - 1] == ps[..k][1..];
      FirstMentionIs(ps[1..], p, k - 1);
    }
  }

  lemma MentionedBefore(ps: seq<nat>, p: nat, x: nat)
    requires p in ps
    ensures FirstMention(ps + [x], p) == FirstMention(ps, p)
  {
    var k := FirstMention(ps, p);
    assert (ps + [x])[..k] == ps[..k];
    FirstMentionIs(ps + [x], p, k);
  }

  lemma OneMoreMention(ins: seq<nat>, ps: seq<nat>, x: nat)
    requires InOrderOfMention(ins, ps)
    ensures InOrderOfMention(AddOnce(ins, x), ps + [x])
  {
    var more, qs := AddOnce(ins, x), ps + [x];
    forall j | 0 <= j < |ins| ensures FirstMention(qs, ins[j]) == FirstMention(ps, ins[j]) < |ps| {
      MentionedBefore(ps, ins[j], x);
    }
    if x !in ins {
      assert qs[..|ps|] == ps;
      FirstMentionIs(qs, x, |ps|);
    }
  }

  lemma RequestInOrder(g: Graph, c: nat, ps: seq<nat>, x: nat, forValue: bool, h: Graph, qs: seq<nat>)
    requires c < |g.calcs| && x < |g.notify| && InOrderOfMention(InputsOf(g.calcs[c], forValue), ps)
    requires h == AddRequest(g, c, x, forValue) && qs == ps + [x]
    ensures InOrderOfMention(InputsOf(h.calcs[c], forValue), qs)
  {
    var ins := InputsOf(g.calcs[c], forValue);
    OneMoreMention(ins, ps, x);
    assert InputsOf(h.calcs[c], forValue) == AddOnce(ins, x);
  }

  /** The inputs of a formula are listed once each, in the order in which it first mentions them. */
  lemma {:induction false} InputsInOrder(g: Graph, c: nat, ps: seq<nat>, forValue: bool)
    requires c < |g.calcs| && Within(ps, |g.notify|) && InputsOf(g.calcs[c], forValue) == []
    ensures InOrderOfMention(InputsOf(AddRequests(g, c, ps, forValue).calcs[c], forValue), ps)
  {
    if ps != [] {
      var n := |ps| - 1;
      InputsInOrder(g, c, ps[..n], forValue);
      LastRequest(g, c, ps, forValue, ps[..n], ps[n]);
    }
  }

  lemma LastRequest(g: Graph, c: nat, ps: seq<nat>, forValue: bool, front: seq<nat>, x: nat)
    requires c < |g.calcs| && Within(ps, |g.notify|) && ps != [] && front == ps[..|ps| - 1] && x == ps[|ps| - 1]
    requires InOrderOfMention(InputsOf(AddRequests(g, c, front, forValue).calcs[c], forValue), front)
    ensures InOrderOfMention(InputsOf(AddRequests(g, c, ps, forValue).calcs[c], forValue), ps)
  {
    var before, after := AddRequests(g, c, front, forValue), AddRequests(g, c, ps, forValue);
    FrontPlusLast(ps, front, x);
    RequestInOrder(before, c, front, x, forValue, after, ps);
  }

  lemma FrontPlusLast(ps: seq<nat>, front: seq<nat>, x: nat)
    requires ps != [] && front == ps[..|ps| - 1] && x == ps[|ps| - 1]
    ensures ps == front + [x]
  {
  }

  lemma OneMoreTimes(s: seq<nat>, x: nat, y: nat)
    ensures multiset(s + [x])[y] == multiset(s)[y] + (if x == y then 1 else 0)
  {
  }

  lemma FrontAndLast(s: seq<nat>, y: nat)
    requires s != []
    ensures multiset(s)[y] == multiset(s[..|s| - 1])[y] + (if s[|s| - 1] == y then 1 else 0)
  {
    assert s == s[..|s| - 1] + [s[|s| - 1]];
    OneMoreTimes(s[..|s| - 1], s[|s| - 1], y);
  }

  lemma RequestIsNotified(g: Graph, c: nat, q: nat, forValue: bool, p: nat)
    requires c < |g.calcs| && q < |g.notify| && p < |g.notify|
    ensures multiset(AddRequest(g, c, q, forValue).notify[p])[c] == multiset(g.notify[p])[c] + (if q == p then 1 else 0)
  {
    OneMoreTimes(g.notify[p], c, c);
  }

  /** A parser variable notifies `c` once per request, after everything it notified before. */
  lemma {:induction false} RequestsAreNotified(g: Graph, c: nat, ps: seq<nat>, forValue: bool, p: nat)
    requires c < |g.calcs| && Within(ps, |g.notify|) && p < |g.notify|
    ensures multiset(AddRequests(g, c, ps, forValue).notify[p])[c] == multiset(g.notify[p])[c] + multiset(ps)[p]
    ensures g.notify[p] <= AddRequests(g, c, ps, forValue).notify[p]
    ensures |AddRequests(g, c, ps, forValue).notify[p]| == |g.notify[p]| + multiset(ps)[p]
  {
    if ps != [] {
      var n := |ps| - 1;
      RequestsAreNotified(g, c, ps[..n], forValue, p);
      RequestIsNotified(AddRequests(g, c, ps[..n], forValue), c, ps[n], forValue, p);
      FrontAndLast(ps, p);
    }
  }

  lemma {:induction false} AddRequestsKeepsWf(g: Graph, ps: seq<nat>, forValue: bool)
    requires Wf(g) && g.calcs != [] && g.calcs[|g.calcs| - 1].out.None?
    requires forall k :: 0 <= k < |ps| ==> ps[k] in g.listed
    ensures Within(ps, g.Size()) && Wf(AddRequests(g, |g.calcs| - 1, ps, forValue))
  {
    if ps != [] {
      var n := |ps| - 1;
      AddRequestsKeepsWf(g, ps[..n], forValue);
      var h := AddRequests(g, |g.calcs| - 1, ps[..n], forValue);
      AddRequestKeepsWf(h, ps[n], forValue);
      forall k | 0 <= k < |ps| ensures ps[k] < g.Size() {
        assert k < n ==> ps[k] == ps[..n][k];
        assert ps[n] in h.listed;
      }
    }
  }

  /** The store after `k` more parser variables and `m` more calculated variables appeared. */
  function Grown(st: Store, k: nat, m: nat): (r: Store)
    ensures |r.cells| == |st.cells| + k && |r.pubs| == |st.pubs| + m
  {
    Store(st.cells + seq(k, _ => Cell(0.0, WaitingInitialData)), st.pubs + seq(m, _ => NO_DATA))
  }

  lemma AddSourceKeepsWf(g: Graph)
    requires Wf(g)
    ensures Wf(AddSource(g))
  {
    var h := AddSource(g);
    forall c | 0 <= c < |h.calcs| ensures CalcOk(h, c) {
      assert CalcOk(g, c);
    }
    forall p | 0 <= p < h.Size() ensures ParserOk(h, p) {
      if p < g.Size() {
        assert ParserOk(g, p);
      }
    }
  }

  lemma BeginCalcKeepsWf(g: Graph, cv: Calc)
    requires Wf(g)
    ensures Wf(BeginCalc(g, cv))
  {
    var h := BeginCalc(g, cv);
    forall c | 0 <= c < |h.calcs| ensures CalcOk(h, c) {
      assert c < |g.calcs| ==> CalcOk(g, c);
    }
    forall p | 0 <= p < h.Size() ensures ParserOk(h, p) {
      assert ParserOk(g, p);
    }
  }

  /** A formula is resolved before its own variable has a parser variable, and only against the ones
      registered before: so no cycle can arise. */
  lemma AddRequestKeepsWf(g: Graph, p: nat, forValue: bool)
    requires Wf(g) && g.calcs != [] && g.calcs[|g.calcs| - 1].out.None?
    requires p in g.listed
    ensures p < g.Size() && Wf(AddRequest(g, |g.calcs| - 1, p, forValue))
  {
    var last := |g.calcs| - 1;
    assert ParserOk(g, p);
    var h := AddRequest(g, last, p, forValue);
    forall c | 0 <= c < |h.calcs| ensures CalcOk(h, c) {
      RequestKeepsCalcOk(g, p, forValue, c);
    }
    forall q | 0 <= q < h.Size() ensures ParserOk(h, q) {
      assert ParserOk(g, q);
    }
  }

  lemma RequestKeepsCalcOk(g: Graph, p: nat, forValue: bool, c: nat)
    requires Wf(g) && g.calcs != [] && g.calcs[|g.calcs| - 1].out.None?
    requires p in g.listed && p < g.Size() && c < |g.calcs|
    ensures CalcOk(AddRequest(g, |g.calcs| - 1, p, forValue), c)
  {
    var h := AddRequest(g, |g.calcs| - 1, p, forValue);
    assert CalcOk(g, c) && ParserOk(g, p);
    forall q: nat | h.calcs[c].Reads(q) ensures q < g.Size() && c in h.notify[q] && q in h.listed {
      RequestNotifies(g, p, forValue, q, c);
    }
  }

  lemma RequestNotifies(g: Graph, p: nat, forValue: bool, q: nat, c: nat)
    requires Wf(g) && g.calcs != [] && c < |g.calcs| && p in g.listed && p < g.Size()
    requires AddRequest(g, |g.calcs| - 1, p, forValue).calcs[c].Reads(q)
    ensures q < g.Size() && q in g.listed && c in AddRequest(g, |g.calcs| - 1, p, forValue).notify[q]
  {
    assert CalcOk(g, c);
    if g.calcs[c].Reads(q) {
      var j :| 0 <= j < |g.notify[q]| && g.notify[q][j] == c;
      assert AddRequest(g, |g.calcs| - 1, p, forValue).notify[q][j] == c;
    } else {
      assert AddRequest(g, |g.calcs| - 1, p, forValue).notify[p][|g.notify[p]|] == c;
    }
  }

  lemma FinishCalcKeepsWf(g: Graph)
    requires Wf(g) && g.calcs != [] && g.calcs[|g.calcs| - 1].out.None?
    ensures Wf(FinishCalc(g, |g.calcs| - 1))
  {
    var h := FinishCalc(g, |g.calcs| - 1);
    assert h.listed[|g.listed|] == g.Size();
    forall c | 0 <= c < |h.calcs| ensures CalcOk(h, c) {
      assert CalcOk(g, c);
    }
    forall p | 0 <= p < h.Size() ensures ParserOk(h, p) {
      assert p < g.Size() ==> ParserOk(g, p);
    }
  }

  // ----- settled variables stay settled while the graph grows -----

  /** `h` and `b` extend `g` and `a` without touching calculated variable `c`. */
  ghost predicate Extends(g: Graph, a: Store, h: Graph, b: Store, c: nat)
    requires Wf(g) && Fits(g, a) && Wf(h) && Fits(h, b)
  {
    && c < |g.calcs| <= |h.calcs| && g.Size() <= h.Size() && h.calcs[c] == g.calcs[c]
    && b.pubs[c] == a.pubs[c] && b.cells[..g.Size()] == a.cells
  }

  lemma ExtensionKeepsSettled(g: Graph, a: Store, h: Graph, b: Store, c: nat)
    requires Wf(g) && Fits(g, a) && Wf(h) && Fits(h, b) && Extends(g, a, h, b, c)
    ensures Settled(h, b, c) == Settled(g, a, c)
  {
    assert CalcOk(g, c) && CalcOk(h, c);
    forall q | 0 <= q < g.Size() ensures b.cells[q] == a.cells[q] {
      assert b.cells[..g.Size()][q] == b.cells[q];
    }
    ComputeReadsInputsOnly(g.calcs[c], a.cells, b.cells);
  }

  lemma GrowthKeepsSettled(g: Graph, a: Store, h: Graph, b: Store, exempt: set<nat>, also: set<nat>)
    requires Wf(g) && Fits(g, a) && Wf(h) && Fits(h, b) && AllSettled(g, a, exempt)
    requires forall c :: 0 <= c < |h.calcs| && c !in also ==> Extends(g, a, h, b, c)
    ensures AllSettled(h, b, exempt + also)
  {
    forall c | 0 <= c < |h.calcs| && c !in exempt + also ensures Settled(h, b, c) {
      ExtensionKeepsSettled(g, a, h, b, c);
    }
  }

  /** Publishing a value by hand leaves every other variable settled. */
  lemma PublishKeepsSettled(g: Graph, st: Store, c: nat, dv: DataValue, exempt: set<nat>)
    requires Wf(g) && Fits(g, st) && c < |g.calcs| && AllSettled(g, st, exempt)
    ensures AllSettled(g, Publish(g, st, c, dv), exempt + {c})
  {
    var st1 := st.(pubs := st.pubs[c := dv]);
    forall d | 0 <= d < |g.calcs| && d !in exempt + {c} ensures Settled(g, Publish(g, st, c, dv), d) {
      assert CalcOk(g, c) && CalcOk(g, d);
      SettledReadsItsNeighbours(g, st, st1, d);
      if g.calcs[c].out.Some? {
        PushSettles(g, st1, g.calcs[c].out.value, Mirror(dv), d);
      }
    }
  }

  /** A first update settles the variable, so nothing of it stays exempt. */
  lemma UpdateKeepsSettled(g: Graph, st: Store, c: nat, exempt: set<nat>)
    requires Wf(g) && Fits(g, st) && c < |g.calcs| && AllSettled(g, st, exempt)
    ensures AllSettled(g, Update(g, st, c), exempt - {c})
  {
    forall d | 0 <= d < |g.calcs| && d !in exempt - {c} ensures Settled(g, Update(g, st, c), d) {
      assert UpdateReaches(g, c, c);
      UpdateSettles(g, st, c, d);
    }
  }

  // ----- optimisation -----

  /** `ps` without `p`. */
  function Without(ps: seq<nat>, p: nat): (r: seq<nat>)
    ensures forall q :: q in r <==> q in ps && q != p
  {
    if ps == [] then [] else (if ps[0] == p then [] else [ps[0]]) + Without(ps[1..], p)
  }

  ghost predicate Increasing(ps: seq<nat>) { forall j, k :: 0 <= j < k < |ps| ==> ps[j] < ps[k] }

  lemma WithoutIncreasing(ps: seq<nat>, p: nat)
    requires Increasing(ps)
    ensures Increasing(Without(ps, p))
  {
    if ps != [] {
      WithoutIncreasing(ps[1..], p);
      forall q | q in ps[1..] ensures ps[0] < q {}
      assert forall k :: 0 <= k < |Without(ps[1..], p)| ==> Without(ps[1..], p)[k] in ps[1..];
    }
  }

  /** The parser variable `p` leaves the list; the variable it mirrored no longer feeds it. */
  function Drop(g: Graph, p: nat): (r: Graph)
    ensures r.Size() == g.Size() && |r.calcs| == |g.calcs|
  {
    g.(calcs := seq(|g.calcs|, c requires 0 <= c < |g.calcs| =>
                      if g.calcs[c].out == Some(p) then g.calcs[c].(out := None) else g.calcs[c]),
       listed := Without(g.listed, p))
  }

  lemma DropKeepsWf(g: Graph, p: nat)
    requires Wf(g) && p < g.Size() && g.notify[p] == []
    ensures Wf(Drop(g, p))
  {
    var h := Drop(g, p);
    WithoutIncreasing(g.listed, p);
    forall k | 0 <= k < |h.listed| ensures h.listed[k] < h.Size() {
      assert h.listed[k] in g.listed;
    }
    forall c | 0 <= c < |h.calcs| ensures CalcOk(h, c) {
      assert CalcOk(g, c);
      assert !g.calcs[c].Reads(p);
      assert forall q: nat :: h.calcs[c].Reads(q) == g.calcs[c].Reads(q);
    }
    forall q | 0 <= q < h.Size() ensures ParserOk(h, q) {
      assert ParserOk(g, q);
      if h.owner[q].Some? && q in h.listed {
        assert g.calcs[g.owner[q].value].out == Some(q);
      }
    }
  }

  /** Equal up to the cell of `p`. */
  ghost predicate SameBut(p: nat, a: Store, b: Store)
  {
    && a.pubs == b.pubs && |a.cells| == |b.cells|
    && forall q :: 0 <= q < |a.cells| && q != p ==> a.cells[q] == b.cells[q]
  }

  lemma {:induction false} PushWithout(g: Graph, p: nat, a: Store, b: Store, q: nat, cell: Cell)
    requires Wf(g) && p < g.Size() && g.notify[p] == [] && Wf(Drop(g, p))
    requires Fits(g, a) && Fits(g, b) && SameBut(p, a, b) && q < g.Size() && q != p
    ensures SameBut(p, Push(g, a, q, cell), Push(Drop(g, p), b, q, cell))
    decreases g.Size() - q, |g.notify[q]| + 1
  {
    PushRestWithout(g, p, SetCell(a, q, cell), SetCell(b, q, cell), q, 0);
  }

  lemma {:induction false} PushRestWithout(g: Graph, p: nat, a: Store, b: Store, q: nat, k: nat)
    requires Wf(g) && p < g.Size() && g.notify[p] == [] && Wf(Drop(g, p))
    requires Fits(g, a) && Fits(g, b) && SameBut(p, a, b) && q < g.Size() && q != p && k <= |g.notify[q]|
    ensures SameBut(p, PushRest(g, a, q, k), PushRest(Drop(g, p), b, q, k))
    decreases g.Size() - q, |g.notify[q]| - k
  {
    if k < |g.notify[q]| {
      var c := g.notify[q][k];
      assert ParserOk(g, q) && CalcOk(g, c);
      UpdateWithout(g, p, a, b, c);
      PushRestWithout(g, p, Update(g, a, c), Update(Drop(g, p), b, c), q, k + 1);
    }
  }

  lemma {:induction false} UpdateWithout(g: Graph, p: nat, a: Store, b: Store, c: nat)
    requires Wf(g) && p < g.Size() && g.notify[p] == [] && Wf(Drop(g, p))
    requires Fits(g, a) && Fits(g, b) && SameBut(p, a, b) && c < |g.calcs|
    ensures SameBut(p, Update(g, a, c), Update(Drop(g, p), b, c))
    decreases Height(g, c), Width(g, c) + 3
  {
    var h := Drop(g, p);
    assert CalcOk(g, c) && CalcOk(h, c);
    ComputeWithout(g, p, a, b, c);
    var dv := Compute(g.calcs[c], a.cells);
    var a1, b1 := a.(pubs := a.pubs[c := dv]), b.(pubs := b.pubs[c := dv]);
    assert Update(g, a, c) == Publish(g, a, c, dv) && Update(h, b, c) == Publish(h, b, c, dv);
    match g.calcs[c].out
    case None =>
    case Some(q) =>
      if q == p {
        assert Push(g, a1, p, Mirror(dv)) == SetCell(a1, p, Mirror(dv));
      } else {
        PushWithout(g, p, a1, b1, q, Mirror(dv));
      }
  }

  lemma ComputeWithout(g: Graph, p: nat, a: Store, b: Store, c: nat)
    requires Wf(g) && p < g.Size() && g.notify[p] == []
    requires Fits(g, a) && Fits(g, b) && SameBut(p, a, b) && c < |g.calcs|
    ensures CalcOk(g, c) && Compute(g.calcs[c], a.cells) == Compute(Drop(g, p).calcs[c], b.cells)
  {
    assert CalcOk(g, c);
    var cv := g.calcs[c];
    assert !cv.Reads(p);
    assert forall k :: 0 <= k < |cv.valueIn| ==> cv.Reads(cv.valueIn[k]);
    assert forall k :: 0 <= k < |cv.statusIn| ==> cv.Reads(cv.statusIn[k]);
    ComputeReadsInputsOnly(cv, a.cells, b.cells);
    assert Evaluate(cv, b.cells) == Evaluate(Drop(g, p).calcs[c], b.cells);
  }

  lemma PushAllWithout(g: Graph, p: nat, a: Store, b: Store, ps: seq<nat>, cell: Cell)
    requires Wf(g) && p < g.Size() && g.notify[p] == [] && Wf(Drop(g, p))
    requires Fits(g, a) && Fits(g, b) && SameBut(p, a, b) && Within(ps, g.Size())
    ensures Within(Without(ps, p), g.Size())
    ensures SameBut(p, PushAll(g, a, ps, cell), PushAll(Drop(g, p), b, Without(ps, p), cell))
    decreases |ps|
  {
    if ps != [] {
      var a1 := Push(g, a, ps[0], cell);
      if ps[0] == p {
        assert a1 == PushRest(g, SetCell(a, p, cell), p, 0) == SetCell(a, p, cell);
        assert Without(ps, p) == Without(ps[1..], p);
        PushAllWithout(g, p, a1, b, ps[1..], cell);
      } else {
        PushWithout(g, p, a, b, ps[0], cell);
        PushAllWithout(g, p, a1, Push(Drop(g, p), b, ps[0], cell), ps[1..], cell);
        assert Without(ps, p) == [ps[0]] + Without(ps[1..], p);
      }
    }
  }

  /** A write of a source variable: the parser variables listening to it, and the cell they get. */
  datatype Write = Write(listeners: seq<nat>, cell: Cell)

  ghost predicate WritesOk(g: Graph, ws: seq<Write>) { forall k :: 0 <= k < |ws| ==> Within(ws[k].listeners, g.Size()) }

  ghost function Run(g: Graph, st: Store, ws: seq<Write>): (r: Store)
    requires Wf(g) && Fits(g, st) && WritesOk(g, ws)
    ensures Fits(g, r)
  {
    if ws == [] then st
    else PushAll(g, Run(g, st, ws[..|ws| - 1]), ws[|ws| - 1].listeners, ws[|ws| - 1].cell)
  }

  function KeptWrites(ws: seq<Write>, p: nat): (r: seq<Write>)
    ensures |r| == |ws| && forall k :: 0 <= k < |r| ==> r[k] == Write(Without(ws[k].listeners, p), ws[k].cell)
  {
    seq(|ws|, k requires 0 <= k < |ws| => Write(Without(ws[k].listeners, p), ws[k].cell))
  }

  /** Removing a parser variable that no formula uses changes nothing any calculated variable ever
      publishes, whatever is written afterwards. */
  lemma {:induction false} DropPreservesRuns(g: Graph, p: nat, a: Store, b: Store, ws: seq<Write>)
    requires Wf(g) && p < g.Size() && g.notify[p] == []
    requires Fits(g, a) && Fits(g, b) && SameBut(p, a, b) && WritesOk(g, ws)
    ensures Wf(Drop(g, p)) && WritesOk(g, KeptWrites(ws, p))
    ensures SameBut(p, Run(g, a, ws), Run(Drop(g, p), b, KeptWrites(ws, p)))
  {
    DropKeepsWf(g, p);
    forall k | 0 <= k < |ws| ensures Within(Without(ws[k].listeners, p), g.Size()) {
      PushAllWithout(g, p, a, b, ws[k].listeners, ws[k].cell);
    }
    if ws != [] {
      var n := |ws| - 1;
      assert WritesOk(g, ws[..n]);
      DropPreservesRuns(g, p, a, b, ws[..n]);
      assert KeptWrites(ws, p)[..n] == KeptWrites(ws[..n], p);
      PushAllWithout(g, p, Run(g, a, ws[..n]), Run(Drop(g, p), b, KeptWrites(ws[..n], p)), ws[n].listeners, ws[n].cell);
    }
  }

  function DropAll(g: Graph, ps: seq<nat>): (r: Graph)
    ensures r.Size() == g.Size() && |r.calcs| == |g.calcs| && r.notify == g.notify
  {
    if ps == [] then g else Drop(DropAll(g, ps[..|ps| - 1]), ps[|ps| - 1])
  }

  function WritesWithout(ws: seq<Write>, ps: seq<nat>): (r: seq<Write>)
    ensures |r| == |ws|
  {
    if ps == [] then ws else KeptWrites(WritesWithout(ws, ps[..|ps| - 1]), ps[|ps| - 1])
  }

  /** The optimised engine and the original one publish the same values in every later run. */
  lemma {:induction false} OptimisationPreservesRuns(g: Graph, ps: seq<nat>, st: Store, ws: seq<Write>)
    requires Wf(g) && Fits(g, st) && WritesOk(g, ws)
    requires forall k :: 0 <= k < |ps| ==> ps[k] < g.Size() && g.notify[ps[k]] == []
    ensures Wf(DropAll(g, ps)) && WritesOk(g, WritesWithout(ws, ps))
    ensures Run(DropAll(g, ps), st, WritesWithout(ws, ps)).pubs == Run(g, st, ws).pubs
  {
    if ps != [] {
      var n := |ps| - 1;
      OptimisationPreservesRuns(g, ps[..n], st, ws);
      OneDropPreservesRuns(DropAll(g, ps[..n]), ps[n], st, WritesWithout(ws, ps[..n]), DropAll(g, ps),
                           WritesWithout(ws, ps));
    }
  }

  lemma OneDropPreservesRuns(g: Graph, p: nat, st: Store, ws: seq<Write>, h: Graph, vs: seq<Write>)
    requires Wf(g) && Fits(g, st) && WritesOk(g, ws) && p < g.Size() && g.notify[p] == []
    requires h == Drop(g, p) && vs == KeptWrites(ws, p)
    ensures Wf(h) && WritesOk(g, vs) && WritesOk(h, vs) && Fits(h, st)
    ensures Run(h, st, vs).pubs == Run(g, st, ws).pubs
  {
    DropPreservesRuns(g, p, st, st, ws);
  }

  lemma DropKeepsSettled(g: Graph, p: nat, st: Store, exempt: set<nat>)
    requires Wf(g) && p < g.Size() && g.notify[p] == [] && Fits(g, st) && AllSettled(g, st, exempt)
    ensures Wf(Drop(g, p)) && AllSettled(Drop(g, p), st, exempt)
  {
    DropKeepsWf(g, p);
    forall c | 0 <= c < |g.calcs| && c !in exempt ensures Settled(Drop(g, p), st, c) {
      assert Settled(g, st, c) && CalcOk(Drop(g, p), c);
      ComputeWithout(g, p, st, st, c);
    }
  }
}
