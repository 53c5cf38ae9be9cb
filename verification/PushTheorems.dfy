/** A depth-first push leaves the same store as recomputing every variable in creation order. */
module PushTheorems {
  import opened DataValues
  import opened CalcGraph

  // ----- what a push leaves alone -----

  /** `r` differs from `st` at most in variables that `reached` holds of, and in cell `p`. */
  ghost predicate Untouched(g: Graph, st: Store, r: Store, reached: nat -> bool, low: int)
    requires Wf(g) && Fits(g, st) && Fits(g, r)
  {
    && (forall c :: 0 <= c < |g.calcs| && !reached(c) ==> r.pubs[c] == st.pubs[c])
    && (forall q :: 0 <= q < g.Size() && r.cells[q] != st.cells[q] ==>
          assert ParserOk(g, q);
          && low < q && g.owner[q].Some?
          && g.calcs[g.owner[q].value].out == Some(q) && reached(g.owner[q].value))
  }

  ghost function ReachedFrom(g: Graph, p: nat): nat -> bool
    requires Wf(g) && p < g.Size()
  {
    (c: nat) => c < |g.calcs| && Reaches(g, p, c)
  }

  lemma {:induction false} PushFrame(g: Graph, st: Store, p: nat, cell: Cell)
    requires Wf(g) && Fits(g, st) && p < g.Size()
    ensures Untouched(g, SetCell(st, p, cell), Push(g, st, p, cell), ReachedFrom(g, p), p)
    decreases g.Size() - p, |g.notify[p]| + 1
  {
    PushRestFrame(g, SetCell(st, p, cell), p, 0);
  }

  lemma {:induction false} PushRestFrame(g: Graph, st: Store, p: nat, k: nat)
    requires Wf(g) && Fits(g, st) && p < g.Size() && k <= |g.notify[p]|
    ensures Untouched(g, st, PushRest(g, st, p, k), ReachedFrom(g, p), p)
    decreases g.Size() - p, |g.notify[p]| - k
  {
    if k < |g.notify[p]| {
      var d := g.notify[p][k];
      assert ParserOk(g, p) && CalcOk(g, d);
      UpdateFrame(g, st, d);
      forall c: nat | c < |g.calcs| && UpdateReaches(g, d, c) ensures Reaches(g, p, c) {
        assert ReachesVia(g, p, k, c);
      }
      PushRestFrame(g, Update(g, st, d), p, k + 1);
    }
  }

  lemma {:induction false} UpdateFrame(g: Graph, st: Store, d: nat)
    requires Wf(g) && Fits(g, st) && d < |g.calcs|
    ensures Untouched(g, st, Update(g, st, d), (c: nat) => c < |g.calcs| && UpdateReaches(g, d, c),
                      if g.calcs[d].out.Some? then g.calcs[d].out.value - 1 else g.Size())
    decreases Height(g, d), Width(g, d) + 3
  {
    assert CalcOk(g, d) && UpdateReaches(g, d, d);
    var dv := Compute(g.calcs[d], st.cells);
    var st1 := st.(pubs := st.pubs[d := dv]);
    assert Update(g, st, d) == Publish(g, st, d, dv);
    if g.calcs[d].out.Some? {
      var q := g.calcs[d].out.value;
      assert ParserOk(g, q);
      PushFrame(g, st1, q, Mirror(dv));
    }
  }

  // ----- what a push settles -----

  lemma SettledReadsItsNeighbours(g: Graph, a: Store, b: Store, c: nat)
    requires Wf(g) && Fits(g, a) && Fits(g, b) && c < |g.calcs|
    requires a.pubs[c] == b.pubs[c]
    requires forall p: nat :: g.calcs[c].Reads(p) && p < g.Size() ==> a.cells[p] == b.cells[p]
    requires forall q: nat :: g.calcs[c].out == Some(q) && q < g.Size() ==> a.cells[q] == b.cells[q]
    ensures Settled(g, a, c) == Settled(g, b, c)
  {
    assert CalcOk(g, c);
    assert forall k :: 0 <= k < |g.calcs[c].valueIn| ==> g.calcs[c].Reads(g.calcs[c].valueIn[k]);
    assert forall k :: 0 <= k < |g.calcs[c].statusIn| ==> g.calcs[c].Reads(g.calcs[c].statusIn[k]);
    ComputeReadsInputsOnly(g.calcs[c], a.cells, b.cells);
  }

  lemma FirstHop(g: Graph, p: nat, c: nat) returns (k: nat)
    requires Wf(g) && p < g.Size() && Reaches(g, p, c)
    ensures k < |g.notify[p]| && ReachesVia(g, p, k, c)
  {
    k :| 0 <= k < |g.notify[p]| && ReachesVia(g, p, k, c);
  }

  /** After a push from `p` every variable it reaches is settled, and whatever was settled still is. */
  lemma {:induction false} PushSettles(g: Graph, st: Store, p: nat, cell: Cell, d: nat)
    requires Wf(g) && Fits(g, st) && p < g.Size() && d < |g.calcs| && g.owner[p] != Some(d)
    requires Reaches(g, p, d) || Settled(g, st, d)
    ensures Settled(g, Push(g, st, p, cell), d)
    decreases g.Size() - p, |g.notify[p]| + 1
  {
    var st0 := SetCell(st, p, cell);
    assert CalcOk(g, d) && ParserOk(g, p);
    if Reaches(g, p, d) {
      var j := FirstHop(g, p, d);
      assert exists j :: 0 <= j < |g.notify[p]| && ReachesVia(g, p, j, d);
    } else {
      assert Settled(g, st, d);
      assert !g.calcs[d].Reads(p) by {
        if g.calcs[d].Reads(p) {
          var j :| 0 <= j < |g.notify[p]| && g.notify[p][j] == d;
          assert UpdateReaches(g, d, d);
          assert ReachesVia(g, p, j, d);
        }
      }
      SettledReadsItsNeighbours(g, st, st0, d);
    }
    PushRestSettles(g, st0, p, 0, d);
  }

  lemma {:induction false} PushRestSettles(g: Graph, st: Store, p: nat, k: nat, d: nat)
    requires Wf(g) && Fits(g, st) && p < g.Size() && k <= |g.notify[p]| && d < |g.calcs|
    requires Settled(g, st, d) || exists j :: k <= j < |g.notify[p]| && ReachesVia(g, p, j, d)
    ensures Settled(g, PushRest(g, st, p, k), d)
    decreases g.Size() - p, |g.notify[p]| - k
  {
    if k < |g.notify[p]| {
      var c := g.notify[p][k];
      assert ParserOk(g, p) && CalcOk(g, c);
      if Settled(g, st, d) || UpdateReaches(g, c, d) {
        UpdateSettles(g, st, c, d);
      } else {
        var j :| k <= j < |g.notify[p]| && ReachesVia(g, p, j, d);
        assert j != k;
      }
      PushRestSettles(g, Update(g, st, c), p, k + 1, d);
    }
  }

  lemma {:induction false} UpdateSettles(g: Graph, st: Store, c: nat, d: nat)
    requires Wf(g) && Fits(g, st) && c < |g.calcs| && d < |g.calcs|
    requires Settled(g, st, d) || UpdateReaches(g, c, d)
    ensures Settled(g, Update(g, st, c), d)
    decreases Height(g, c), Width(g, c) + 3
  {
    assert CalcOk(g, c) && CalcOk(g, d);
    var dv := Compute(g.calcs[c], st.cells);
    var st1 := st.(pubs := st.pubs[c := dv]);
    assert Update(g, st, c) == Publish(g, st, c, dv);
    if d != c && Settled(g, st, d) {
      SettledReadsItsNeighbours(g, st, st1, d);
    }
    if g.calcs[c].out.Some? {
      var q := g.calcs[c].out.value;
      assert ParserOk(g, q);
      if d == c {
        OutNotReached(g, c);
        PushFrame(g, st1, q, Mirror(dv));
        var r := Push(g, st1, q, Mirror(dv));
        assert forall p: nat :: g.calcs[c].Reads(p) && p < g.Size() ==> r.cells[p] == st.cells[p];
        SettledReadsItsNeighbours(g, SetCell(st1, q, Mirror(dv)), r, c);
        SettledAfterPublishing(g, st, c);
      } else {
        PushSettles(g, st1, q, Mirror(dv), d);
      }
    } else if d == c {
      SettledAfterPublishing(g, st, c);
    }
  }

  lemma SettledAfterPublishing(g: Graph, st: Store, c: nat)
    requires Wf(g) && Fits(g, st) && c < |g.calcs|
    ensures Settled(g, RecomputeOne(g, st, c), c)
  {
    assert CalcOk(g, c);
    var r := RecomputeOne(g, st, c);
    assert forall k :: 0 <= k < |g.calcs[c].valueIn| ==> g.calcs[c].Reads(g.calcs[c].valueIn[k]);
    assert forall k :: 0 <= k < |g.calcs[c].statusIn| ==> g.calcs[c].Reads(g.calcs[c].statusIn[k]);
    ComputeReadsInputsOnly(g.calcs[c], st.cells, r.cells);
  }

  /** The dependency graph has no cycle: nothing downstream of a variable leads back to it. */
  lemma {:induction false} OutNotReached(g: Graph, c: nat)
    requires Wf(g) && c < |g.calcs| && g.calcs[c].out.Some?
    ensures CalcOk(g, c) && !Reaches(g, g.calcs[c].out.value, c)
  {
    assert CalcOk(g, c);
    if Reaches(g, g.calcs[c].out.value, c) {
      ReachedIsLater(g, g.calcs[c].out.value, c);
    }
  }

  /** A push leaves the cell it starts from as it set it. */
  lemma PushStays(g: Graph, st: Store, p: nat, cell: Cell)
    requires Wf(g) && Fits(g, st) && p < g.Size()
    ensures Push(g, st, p, cell).cells[p] == cell
  {
    PushFrame(g, st, p, cell);
  }

  /** What is published by hand stays published, and the variable's own parser variable keeps what arrives. */
  lemma PublishStays(g: Graph, st: Store, c: nat, dv: DataValue)
    requires Wf(g) && Fits(g, st) && c < |g.calcs|
    ensures CalcOk(g, c) && Publish(g, st, c, dv).pubs[c] == dv
    ensures g.calcs[c].out.Some? ==> Arrived(dv, Publish(g, st, c, dv).cells[g.calcs[c].out.value])
  {
    assert CalcOk(g, c);
    WhatArrives(dv);
    if g.calcs[c].out.Some? {
      var q := g.calcs[c].out.value;
      OutNotReached(g, c);
      PushFrame(g, st.(pubs := st.pubs[c := dv]), q, Mirror(dv));
    }
  }

  /** Whatever a push from `p` reaches was created after `p`, and after the variable `p` mirrors. */
  lemma {:induction false} ReachedIsLater(g: Graph, p: nat, c: nat)
    requires Wf(g) && p < g.Size() && c < |g.calcs| && Reaches(g, p, c)
    ensures g.owner[p].Some? ==> g.owner[p].value < c
    ensures forall q :: g.calcs[c].out == Some(q) ==> p < q
    decreases g.Size() - p
  {
    var k := FirstHop(g, p, c);
    var d := g.notify[p][k];
    assert ParserOk(g, p) && CalcOk(g, d) && CalcOk(g, c);
    assert UpdateReaches(g, d, c);
    if c != d {
      ReachedIsLater(g, g.calcs[d].out.value, c);
    }
  }

  // ----- the recomputation, and why it is the only settled store -----

  /** Cells no calculated variable writes: those of sources, and of parser variables no longer mirrored. */
  ghost predicate Free(g: Graph, q: nat)
    requires Wf(g) && q < g.Size()
  {
    assert ParserOk(g, q);
    g.owner[q].None? || g.calcs[g.owner[q].value].out != Some(q)
  }

  ghost predicate SameInputs(g: Graph, a: Store, b: Store, exempt: set<nat>)
    requires Wf(g) && Fits(g, a) && Fits(g, b)
  {
    && (forall q :: 0 <= q < g.Size() && Free(g, q) ==> a.cells[q] == b.cells[q])
    && (forall c :: 0 <= c < |g.calcs| && c in exempt ==> SameOutput(g, a, b, c))
  }

  ghost predicate SameOutput(g: Graph, a: Store, b: Store, c: nat)
    requires Wf(g) && Fits(g, a) && Fits(g, b) && c < |g.calcs|
  {
    assert CalcOk(g, c);
    a.pubs[c] == b.pubs[c] && (g.calcs[c].out.Some? ==> a.cells[g.calcs[c].out.value] == b.cells[g.calcs[c].out.value])
  }

  /** Sources and exempt variables determine every other value of a settled store. */
  lemma {:induction false} SettledIsUnique(g: Graph, a: Store, b: Store, exempt: set<nat>)
    requires Wf(g) && Fits(g, a) && Fits(g, b) && SameInputs(g, a, b, exempt)
    requires AllSettled(g, a, exempt) && AllSettled(g, b, exempt)
    ensures a == b
  {
    forall c | 0 <= c < |g.calcs| ensures SameOutput(g, a, b, c) {
      SettledIsUniqueUpTo(g, a, b, exempt, c);
    }
    forall q | 0 <= q < g.Size() ensures a.cells[q] == b.cells[q] {
      assert ParserOk(g, q);
      if !Free(g, q) {
        assert SameOutput(g, a, b, g.owner[q].value);
      }
    }
    assert a.cells == b.cells;
    forall c | 0 <= c < |g.calcs| ensures a.pubs[c] == b.pubs[c] {
      assert SameOutput(g, a, b, c);
    }
  }

  lemma {:induction false} SettledIsUniqueUpTo(g: Graph, a: Store, b: Store, exempt: set<nat>, c: nat)
    requires Wf(g) && Fits(g, a) && Fits(g, b) && SameInputs(g, a, b, exempt)
    requires AllSettled(g, a, exempt) && AllSettled(g, b, exempt)
    requires c < |g.calcs|
    ensures SameOutput(g, a, b, c)
  {
    if c !in exempt {
      assert CalcOk(g, c);
      var cv := g.calcs[c];
      forall p: nat | cv.Reads(p) ensures p < g.Size() && a.cells[p] == b.cells[p] {
        assert ParserOk(g, p);
        if !Free(g, p) {
          SettledIsUniqueUpTo(g, a, b, exempt, g.owner[p].value);
        }
      }
      assert forall k :: 0 <= k < |cv.valueIn| ==> cv.Reads(cv.valueIn[k]);
      assert forall k :: 0 <= k < |cv.statusIn| ==> cv.Reads(cv.statusIn[k]);
      ComputeReadsInputsOnly(cv, a.cells, b.cells);
      assert Settled(g, a, c) && Settled(g, b, c);
    }
  }

  /** The recomputation changes neither sources nor exempt variables, and settles the rest. */
  lemma {:induction false} RecomputeSettles(g: Graph, st: Store, c: nat, exempt: set<nat>)
    requires Wf(g) && Fits(g, st) && c <= |g.calcs|
    requires forall d :: 0 <= d < c && d !in exempt ==> Settled(g, st, d)
    ensures SameInputs(g, st, Recompute(g, st, c, exempt), exempt)
    ensures AllSettled(g, Recompute(g, st, c, exempt), exempt)
    decreases |g.calcs| - c
  {
    if c < |g.calcs| {
      if c in exempt {
        RecomputeSettles(g, st, c + 1, exempt);
      } else {
        var st1 := RecomputeOne(g, st, c);
        RecomputeOneFrame(g, st, c, exempt);
        RecomputeSettles(g, st1, c + 1, exempt);
        var r := Recompute(g, st, c, exempt);
        forall d | 0 <= d < |g.calcs| && d in exempt ensures SameOutput(g, st, r, d) {
          assert SameOutput(g, st, st1, d) && SameOutput(g, st1, r, d);
        }
      }
    }
  }

  lemma RecomputeOneFrame(g: Graph, st: Store, c: nat, exempt: set<nat>)
    requires Wf(g) && Fits(g, st) && c < |g.calcs| && c !in exempt
    ensures SameInputs(g, st, RecomputeOne(g, st, c), exempt)
    ensures Settled(g, RecomputeOne(g, st, c), c)
    ensures forall d :: 0 <= d < c && Settled(g, st, d) ==> Settled(g, RecomputeOne(g, st, c), d)
  {
    var r := RecomputeOne(g, st, c);
    assert CalcOk(g, c);
    SettledAfterPublishing(g, st, c);
    forall d | 0 <= d < |g.calcs| && d in exempt ensures SameOutput(g, st, r, d) {
      assert CalcOk(g, d);
    }
    forall d | 0 <= d < c && Settled(g, st, d) ensures Settled(g, r, d) {
      assert CalcOk(g, d);
      SettledReadsItsNeighbours(g, st, r, d);
    }
  }

  // ----- the main result -----

  /** Variables of `exempt` that a push from `p` does not reach; they keep their initial value. */
  ghost function StillExempt(g: Graph, p: nat, exempt: set<nat>): (r: set<nat>)
    requires Wf(g) && p < g.Size()
  {
    set c | c in exempt && !(c < |g.calcs| && Reaches(g, p, c))
  }

  lemma SameInputsTransitive(g: Graph, a: Store, b: Store, c: Store, exempt: set<nat>)
    requires Wf(g) && Fits(g, a) && Fits(g, b) && Fits(g, c)
    requires SameInputs(g, a, b, exempt) && SameInputs(g, b, c, exempt)
    ensures SameInputs(g, a, c, exempt) && SameInputs(g, b, a, exempt)
  {
    forall d | 0 <= d < |g.calcs| && d in exempt ensures SameOutput(g, a, c, d) && SameOutput(g, b, a, d) {
      assert SameOutput(g, a, b, d) && SameOutput(g, b, c, d);
    }
  }

  /** A settled store is what the recomputation makes of the sources and exempt variables in it. */
  lemma SettledIsRecompute(g: Graph, a: Store, base: Store, exempt: set<nat>)
    requires Wf(g) && Fits(g, a) && Fits(g, base)
    requires AllSettled(g, a, exempt) && SameInputs(g, a, base, exempt)
    ensures a == Recompute(g, base, 0, exempt)
  {
    var b := Recompute(g, base, 0, exempt);
    RecomputeSettles(g, base, 0, exempt);
    SameInputsTransitive(g, a, base, b, exempt);
    SettledIsUnique(g, a, b, exempt);
  }

  lemma PushSettlesAll(g: Graph, st: Store, p: nat, cell: Cell, exempt: set<nat>)
    requires Wf(g) && Fits(g, st) && p < g.Size() && g.owner[p].None?
    requires AllSettled(g, st, exempt)
    ensures AllSettled(g, Push(g, st, p, cell), StillExempt(g, p, exempt))
    ensures SameInputs(g, Push(g, st, p, cell), SetCell(st, p, cell), StillExempt(g, p, exempt))
  {
    var st0, a := SetCell(st, p, cell), Push(g, st, p, cell);
    var kept := StillExempt(g, p, exempt);
    PushFrame(g, st, p, cell);
    forall c | 0 <= c < |g.calcs| && c !in kept ensures Settled(g, a, c) {
      PushSettles(g, st, p, cell, c);
    }
    forall c | 0 <= c < |g.calcs| && c in kept ensures SameOutput(g, a, st0, c) {
      assert CalcOk(g, c);
    }
  }

  /** Pushing a new cell into a source settles the whole graph: the result is the one the plain
      recomputation gives, for every shape of graph and every order of the notify lists. A variable
      that still holds a configured initial value keeps it until a push reaches it. */
  lemma PushIsRecompute(g: Graph, st: Store, p: nat, cell: Cell, exempt: set<nat>)
    requires Wf(g) && Fits(g, st) && p < g.Size() && g.owner[p].None?
    requires AllSettled(g, st, exempt)
    ensures Push(g, st, p, cell) == Recompute(g, SetCell(st, p, cell), 0, StillExempt(g, p, exempt))
  {
    PushSettlesAll(g, st, p, cell, exempt);
    SettledIsRecompute(g, Push(g, st, p, cell), SetCell(st, p, cell), StillExempt(g, p, exempt));
  }

  // ----- a source variable with any number of listeners -----

  ghost predicate AreSources(g: Graph,
                             ps: seq<nat>) { forall k :: 0 <= k < |ps| ==> ps[k] < g.Size() && g.owner[ps[k]].None? }

  function SetCells(st: Store, ps: seq<nat>, cell: Cell): (r: Store)
    requires Within(ps, |st.cells|)
    ensures |r.cells| == |st.cells| && r.pubs == st.pubs
    ensures forall q :: 0 <= q < |r.cells| ==> r.cells[q] == if q in ps then cell else st.cells[q]
  {
    st.(cells := seq(|st.cells|, q requires 0 <= q < |st.cells| => if q in ps then cell else st.cells[q]))
  }

  ghost function StillExemptAll(g: Graph, ps: seq<nat>, exempt: set<nat>): (r: set<nat>)
    requires Wf(g) && AreSources(g, ps)
    decreases |ps|
  {
    if ps == [] then exempt else StillExemptAll(g, ps[1..], StillExempt(g, ps[0], exempt))
  }

  lemma {:induction false} PushAllSettles(g: Graph, st: Store, ps: seq<nat>, cell: Cell, exempt: set<nat>)
    requires Wf(g) && Fits(g, st) && AreSources(g, ps) && Within(ps, g.Size())
    requires AllSettled(g, st, exempt)
    ensures AllSettled(g, PushAll(g, st, ps, cell), StillExemptAll(g, ps, exempt))
    ensures SameInputs(g, PushAll(g, st, ps, cell), SetCells(st, ps, cell), StillExemptAll(g, ps, exempt))
    ensures StillExemptAll(g, ps, exempt) <= exempt
    decreases |ps|
  {
    if ps == [] {
      assert SetCells(st, ps, cell).cells == st.cells;
      assert forall c :: 0 <= c < |g.calcs| && c in exempt ==> SameOutput(g, st, SetCells(st, ps, cell), c);
    } else {
      var st1, rest := Push(g, st, ps[0], cell), ps[1..];
      var kept := StillExemptAll(g, ps, exempt);
      PushSettlesAll(g, st, ps[0], cell, exempt);
      PushAllSettles(g, st1, rest, cell, StillExempt(g, ps[0], exempt));
      var mid, base := SetCells(st1, rest, cell), SetCells(st, ps, cell);
      assert ps == [ps[0]] + rest;
      forall c | 0 <= c < |g.calcs| && c in kept ensures SameOutput(g, mid, base, c) {
        OutIsNoSource(g, c, ps);
        assert SameOutput(g, st1, SetCell(st, ps[0], cell), c);
      }
      assert SameInputs(g, mid, base, kept);
      SameInputsTransitive(g, PushAll(g, st, ps, cell), mid, base, kept);
    }
  }

  lemma OutIsNoSource(g: Graph, c: nat, ps: seq<nat>)
    requires Wf(g) && c < |g.calcs| && AreSources(g, ps)
    ensures CalcOk(g, c) && (g.calcs[c].out.Some? ==> g.calcs[c].out.value !in ps)
  {
    assert CalcOk(g, c);
  }

  /** The same for a write of a source variable, which every parser variable listening to it receives. */
  lemma WriteIsRecompute(g: Graph, st: Store, ps: seq<nat>, cell: Cell, exempt: set<nat>)
    requires Wf(g) && Fits(g, st) && AreSources(g, ps) && Within(ps, g.Size())
    requires AllSettled(g, st, exempt)
    ensures PushAll(g, st, ps, cell) == Recompute(g, SetCells(st, ps, cell), 0, StillExemptAll(g, ps, exempt))
  {
    PushAllSettles(g, st, ps, cell, exempt);
    SettledIsRecompute(g, PushAll(g, st, ps, cell), SetCells(st, ps, cell), StillExemptAll(g, ps, exempt));
  }
}
