/** Writing a source variable, and removing the parser variables that no formula uses. */
module Optimization {
  import opened DataValues
  import opened CalcGraph
  import opened PushTheorems
  import opened GraphGrowth
  import opened CalcEngine
  import opened Registration
  import opened PublishedValues

  // ----- writing a source -----

  lemma ListenersAreSources(e: Engine, v: SourceVariable)
    requires e.Valid() && v in e.sources
    ensures AreSources(e.g, Numbers(v.listeners)) && Within(Numbers(v.listeners), e.g.Size())
  {
    assert e.SourceTied(v);
    forall k | 0 <= k < |v.listeners| ensures e.g.owner[v.listeners[k].id].None? {
      assert e.ParserTied(e.all[v.listeners[k].id]);
    }
  }

  /** Every listener holds what was written. */
  lemma ListenersReceive(e: Engine, v: SourceVariable, before: Store, exempt: set<nat>, dv: DataValue)
    requires e.Valid() && v in e.sources && Fits(e.g, before)
    requires AreSources(e.g, Numbers(v.listeners)) && Within(Numbers(v.listeners), e.g.Size())
    requires e.st == Recompute(e.g, SetCells(before, Numbers(v.listeners), Mirror(dv)), 0, exempt)
    ensures forall p :: p in v.listeners ==> Received(p, dv)
  {
    assert e.SourceTied(v);
    WhatArrives(dv);
    var written := SetCells(before, Numbers(v.listeners), Mirror(dv));
    RecomputeSettles(e.g, written, 0, exempt);
    forall p | p in v.listeners ensures Received(p, dv) {
      var k :| 0 <= k < |v.listeners| && v.listeners[k] == p;
      assert Numbers(v.listeners)[k] == p.id && e.st.cells[p.id] == written.cells[p.id];
    }
  }

  /** A write of a source leaves every calculated variable as a recomputation of all of them, in the
      order of their creation, would. The ones with a configured value join in once they are reached.
      Every listener holds what was written, and every other variable publishes what its inputs say. */
  method Write(e: Engine, v: SourceVariable, dv: DataValue, ghost exempt: set<nat>) returns (ghost still: set<nat>)
    requires Consistent(e, exempt) && v in e.sources
    modifies v`stored, e`st, e.all`value, e.all`state, e.cvs`stored
    ensures AreSources(e.g, Numbers(v.listeners)) && still == StillExemptAll(e.g, Numbers(v.listeners), exempt)
    ensures Consistent(e, still) && v.stored == dv
    ensures Fits(e.g, old(e.st)) && Within(Numbers(v.listeners), e.g.Size())
    ensures e.st == Recompute(e.g, SetCells(old(e.st), Numbers(v.listeners), Mirror(dv)), 0, still)
    ensures forall p :: p in v.listeners ==> Received(p, dv)
    ensures forall cv :: cv in e.cvs && cv.id !in still ==> UpToDate(cv)
    ensures dv.status != OpcUaBadWaitingForInitialData ==>
              forall p, cv :: p in v.listeners && cv in e.cvs && cv.id !in still && ReadsJust(cv, p) ==> Follows(cv, dv)
  {
    ghost var before := e.st;
    ListenersAreSources(e, v);
    still := StillExemptAll(e.g, Numbers(v.listeners), exempt);
    WriteIsRecompute(e.g, e.st, Numbers(v.listeners), Mirror(dv), exempt);
    PushAllSettles(e.g, e.st, Numbers(v.listeners), Mirror(dv), exempt);
    v.SetValue(e, dv);
    ListenersReceive(e, v, before, still, dv);
    ConsistentIsUpToDate(e, still);
    forall p, cv | p in v.listeners && cv in e.cvs && cv.id !in still && ReadsJust(cv, p)
      ensures dv.status != OpcUaBadWaitingForInitialData ==> Follows(cv, dv)
    {
      NextPublication(p, dv, cv);
    }
  }

  // ----- removing one parser variable -----

  lemma WithoutAbsent(ps: seq<nat>, p: nat)
    requires p !in ps
    ensures Without(ps, p) == ps
  {
  }

  lemma FirstStays(ps: seq<nat>, k: nat)
    requires 0 < k < |ps|
    ensures [ps[0]] + (ps[1..][..k - 1] + ps[1..][k..]) == ps[..k] + ps[k + 1..]
  {
  }

  lemma {:induction false} WithoutAt(ps: seq<nat>, k: nat, p: nat)
    requires Increasing(ps) && k < |ps| && ps[k] == p
    ensures Without(ps, p) == ps[..k] + ps[k + 1..]
  {
    if k == 0 {
      WithoutAbsent(ps[1..], p);
    } else {
      assert ps[0] != p;
      WithoutAt(ps[1..], k - 1, p);
      FirstStays(ps, k);
    }
  }

  lemma DropOfSource(g: Graph, p: nat)
    requires Wf(g) && p < g.Size() && g.owner[p].None?
    ensures Drop(g, p) == g.(listed := Without(g.listed, p))
  {
    forall c | 0 <= c < |g.calcs| ensures g.calcs[c].out != Some(p) {
      assert CalcOk(g, c);
    }
    assert Drop(g, p).calcs == g.calcs;
  }

  lemma DropOfCalculated(g: Graph, p: nat, c: nat)
    requires Wf(g) && p < g.Size() && g.owner[p] == Some(c) && p in g.listed
    ensures c < |g.calcs| && g.calcs[c].out == Some(p)
    ensures Drop(g, p) == g.(calcs := g.calcs[c := g.calcs[c].(out := None)], listed := Without(g.listed, p))
  {
    assert ParserOk(g, p);
    forall d | 0 <= d < |g.calcs| && d != c ensures g.calcs[d].out != Some(p) {
      assert CalcOk(g, d);
    }
    assert Drop(g, p).calcs == g.calcs[c := g.calcs[c].(out := None)];
  }

  function Erased<T>(s: seq<T>, k: nat): (r: seq<T>)
    requires k < |s|
    ensures |r| == |s| - 1
    ensures forall j :: 0 <= j < |r| ==> r[j] == s[if j < k then j else j + 1]
  {
    s[..k] + s[k + 1..]
  }

  lemma ErasedNumbers(ps: seq<ParserVariable>, k: nat)
    requires k < |ps| && Increasing(Numbers(ps))
    ensures Numbers(Erased(ps, k)) == Without(Numbers(ps), ps[k].id)
  {
    WithoutAt(Numbers(ps), k, ps[k].id);
  }

  /** removeAllChangeListeners on a source. */
  method ClearListeners(e: Engine, v: SourceVariable)
    requires e.Tied()
    modifies v`listeners
    ensures e.Tied() && v.listeners == []
  {
    v.listeners := [];
    forall w | w in e.sources ensures e.SourceTied(w) {
      assert old(e.SourceTied(w));
    }
  }

  /** removeAllChangeListeners on a calculated variable, and setNotifiedVariable(nullptr). */
  method Unlink(e: Engine, cv: CalculatedVariable)
    requires e.Tied() && e.Knows(cv)
    modifies e`g, cv`listeners, cv`notifiedVariable
    ensures e.Tied() && old(cv.id < |e.g.calcs|)
    ensures e.g == old(e.g.(calcs := e.g.calcs[cv.id := e.g.calcs[cv.id].(out := None)]))
  {
    assert e.CalcTied(e.cvs[cv.id]);
    ghost var g := e.g.(calcs := e.g.calcs[cv.id := e.g.calcs[cv.id].(out := None)]);
    cv.listeners := [];
    cv.notifiedVariable := null;
    e.g := g;
    ParsersStayTied(e);
    forall i | 0 <= i < |e.cvs| ensures e.CalcTied(e.cvs[i]) {
      assert old(e.CalcTied(e.cvs[i]));
    }
  }

  method Erase(e: Engine, k: nat)
    requires e.Tied() && Increasing(e.g.listed) && k < |e.pvs|
    modifies e`pvs, e`g
    ensures e.Tied() && e.pvs == Erased(old(e.pvs), k)
    ensures e.g == old(e.g.(listed := Without(e.g.listed, e.pvs[k].id)))
  {
    ErasedNumbers(e.pvs, k);
    ghost var g := e.g.(listed := Without(e.g.listed, e.pvs[k].id));
    e.pvs := Erased(e.pvs, k);
    e.g := g;
    ParsersStayTied(e);
    CalcsStayTied(e);
    SourcesStayTied(e);
  }

  method ForgetSource(e: Engine, k: nat, v: SourceVariable)
    requires e.Tied() && Wf(e.g) && k < |e.pvs| && e.pvs[k].notifying == Source(v)
    modifies e`pvs, e`g, v`listeners
    ensures e.Tied() && v.listeners == [] && e.pvs == Erased(old(e.pvs), k)
    ensures e.g == Drop(old(e.g), old(e.pvs)[k].id)
  {
    assert e.ParserTied(e.all[e.pvs[k].id]);
    DropOfSource(e.g, e.pvs[k].id);
    ClearListeners(e, v);
    Erase(e, k);
  }

  method ForgetCalculated(e: Engine, k: nat, cv: CalculatedVariable)
    requires e.Tied() && Wf(e.g) && k < |e.pvs| && e.pvs[k].notifying == Calculated(cv) && e.Knows(cv)
    modifies e`pvs, e`g, cv`listeners, cv`notifiedVariable
    ensures e.Tied() && e.pvs == Erased(old(e.pvs), k)
    ensures e.g == Drop(old(e.g), old(e.pvs)[k].id)
  {
    assert e.ParserTied(e.all[e.pvs[k].id]) && e.g.listed[k] == e.pvs[k].id;
    DropOfCalculated(e.g, e.pvs[k].id, cv.id);
    Unlink(e, cv);
    Erase(e, k);
  }

  // ----- the optimisation -----

  function ListenerCount(p: ParserVariable): nat
    reads if p.notifying.Source? then {p.notifying.variable} else {}
    reads if p.notifying.Calculated? then {p.notifying.cv} else {}
  {
    match p.notifying
    case Source(v) => |v.listeners|
    case Calculated(cv) => |cv.listeners|
  }

  /** Nobody but the parser variable at position k listens to a source with one listener. */
  lemma OnlyListener(e: Engine, k: nat, v: SourceVariable)
    requires e.Valid() && Listening(e) && k < |e.pvs| && e.pvs[k].notifying == Source(v) && |v.listeners| <= 1
    ensures v in e.sources && v.listeners == [e.pvs[k]]
    ensures forall j :: 0 <= j < |e.pvs| && j != k ==> e.pvs[j].notifying != Source(v)
  {
    forall j | 0 <= j < |e.pvs| && j != k ensures e.pvs[j].notifying != Source(v) {
      assert e.g.listed[j] == e.pvs[j].id && e.g.listed[k] == e.pvs[k].id;
    }
  }

  /** A parser variable listens to its own source only. */
  lemma OthersKeepListeners(e: Engine, p: ParserVariable)
    requires e.Valid() && e.Has(p)
    ensures forall w :: w in e.sources && p.notifying != Source(w) ==>
              Without(Numbers(w.listeners), p.id) == Numbers(w.listeners)
  {
    forall w | w in e.sources && p.notifying != Source(w)
      ensures Without(Numbers(w.listeners), p.id) == Numbers(w.listeners)
    {
      assert e.SourceTied(w);
      assert forall k :: 0 <= k < |w.listeners| ==> InList(e.all, w.listeners[k]);
      WithoutAbsent(Numbers(w.listeners), p.id);
    }
  }

  /** What `ps` comes to when every number of `dropped` has been taken out. */
  function WithoutAll(ps: seq<nat>, dropped: seq<nat>): seq<nat>
  {
    if dropped == [] then ps
    else Without(WithoutAll(ps, dropped[..|dropped| - 1]), dropped[|dropped| - 1])
  }

  lemma {:induction false} WritesWithoutEach(ws: seq<Write>, dropped: seq<nat>, k: nat)
    requires k < |ws|
    ensures WritesWithout(ws, dropped)[k] == GraphGrowth.Write(WithoutAll(ws[k].listeners, dropped), ws[k].cell)
  {
    if dropped != [] {
      WritesWithoutEach(ws, dropped[..|dropped| - 1], k);
    }
  }

  /** No formula uses it, and its variable has no other listener. */
  predicate Unused(p: ParserVariable)
    reads p`notified
    reads if p.notifying.Source? then {p.notifying.variable} else {}
    reads if p.notifying.Calculated? then {p.notifying.cv} else {}
  {
    p.notified == [] && ListenerCount(p) <= 1
  }

  method DropListening(e: Engine, k: nat, v: SourceVariable, ghost exempt: set<nat>)
    requires Consistent(e, exempt) && k < |e.pvs| && Unused(e.pvs[k]) && e.pvs[k].notifying == Source(v)
    requires e.pvs[k].id < e.g.Size() && e.g.notify[e.pvs[k].id] == []
    modifies e`pvs, e`g, e.sources`listeners, e.cvs`listeners, e.cvs`notifiedVariable
    ensures Consistent(e, exempt) && e.pvs == Erased(old(e.pvs), k)
    ensures e.g == Drop(old(e.g), old(e.pvs)[k].id)
    ensures forall w :: w in e.sources ==> Numbers(w.listeners) == Without(old(Numbers(w.listeners)), old(e.pvs)[k].id)
    ensures forall q :: q in e.pvs && !old(Unused(q)) ==> !Unused(q)
  {
    DropKeepsSettled(e.g, e.pvs[k].id, e.st, exempt);
    OthersKeepListeners(e, e.pvs[k]);
    OnlyListener(e, k, v);
    ForgetSource(e, k, v);
  }

  method DropMirroring(e: Engine, k: nat, cv: CalculatedVariable, ghost exempt: set<nat>)
    requires Consistent(e, exempt) && k < |e.pvs| && Unused(e.pvs[k]) && e.pvs[k].notifying == Calculated(cv)
    requires e.Knows(cv)
    requires e.pvs[k].id < e.g.Size() && e.g.notify[e.pvs[k].id] == []
    modifies e`pvs, e`g, e.sources`listeners, e.cvs`listeners, e.cvs`notifiedVariable
    ensures Consistent(e, exempt) && e.pvs == Erased(old(e.pvs), k)
    ensures e.g == Drop(old(e.g), old(e.pvs)[k].id)
    ensures forall v :: v in e.sources ==> Numbers(v.listeners) == Without(old(Numbers(v.listeners)), old(e.pvs)[k].id)
    ensures forall q :: q in e.pvs && !old(Unused(q)) ==> !Unused(q)
  {
    DropKeepsSettled(e.g, e.pvs[k].id, e.st, exempt);
    OthersKeepListeners(e, e.pvs[k]);
    ForgetCalculated(e, k, cv);
  }

  method Forget(e: Engine, k: nat, ghost exempt: set<nat>)
    requires Consistent(e, exempt) && k < |e.pvs| && Unused(e.pvs[k])
    modifies e`pvs, e`g, e.sources`listeners, e.cvs`listeners, e.cvs`notifiedVariable
    ensures Consistent(e, exempt) && e.pvs == Erased(old(e.pvs), k)
    ensures e.g == Drop(old(e.g), old(e.pvs)[k].id)
    ensures forall v :: v in e.sources ==> Numbers(v.listeners) == Without(old(Numbers(v.listeners)), old(e.pvs)[k].id)
    ensures forall q :: q in e.pvs && !old(Unused(q)) ==> !Unused(q)
  {
    NotifiesNothing(e, e.pvs[k]);
    match e.pvs[k].notifying
    case Source(v) => DropListening(e, k, v, exempt);
    case Calculated(cv) =>
      assert e.ParserTied(e.all[e.pvs[k].id]);
      DropMirroring(e, k, cv, exempt);
  }

  /** `h` is `g` without the parser variables `dropped`, none of which notified anything. */
  ghost predicate Optimised(g: Graph, dropped: seq<nat>, h: Graph)
  {
    && h == DropAll(g, dropped) && |g.notify| == g.Size()
    && forall k :: 0 <= k < |dropped| ==> dropped[k] < g.Size() && g.notify[dropped[k]] == []
  }

  lemma OneMoreDropped(g: Graph, dropped: seq<nat>, h: Graph, p: nat)
    requires Optimised(g, dropped, h) && p < h.Size() == |h.notify| && h.notify[p] == []
    ensures Optimised(g, dropped + [p], Drop(h, p))
  {
    assert (dropped + [p])[..|dropped|] == dropped;
  }

  /** What each source's listeners were before any of `dropped` went. */
  ghost predicate ListenersWithout(sources: set<SourceVariable>, before: map<SourceVariable, seq<nat>>,
                                   dropped: seq<nat>)
    reads sources`listeners
  {
    forall v :: v in sources ==> v in before && Numbers(v.listeners) == WithoutAll(before[v], dropped)
  }

  ghost function Listeners(sources: set<SourceVariable>): (r: map<SourceVariable, seq<nat>>)
    reads sources`listeners
    ensures forall v :: v in sources ==> v in r && r[v] == Numbers(v.listeners)
    ensures ListenersWithout(sources, r, [])
  {
    map v | v in sources :: Numbers(v.listeners)
  }

  lemma MoreWithout(sources: set<SourceVariable>, before: map<SourceVariable, seq<nat>>, dropped: seq<nat>, p: nat)
    requires forall v :: v in sources ==>
               v in before && Numbers(v.listeners) == Without(WithoutAll(before[v], dropped), p)
    ensures ListenersWithout(sources, before, dropped + [p])
  {
    assert (dropped + [p])[..|dropped|] == dropped;
  }

  method ForgetNext(e: Engine, k: nat, ghost exempt: set<nat>, ghost g: Graph,
                    ghost before: map<SourceVariable, seq<nat>>,
                    ghost dropped: seq<nat>) returns (ghost more: seq<nat>)
    requires Consistent(e, exempt) && k < |e.pvs| && Unused(e.pvs[k])
    requires Optimised(g, dropped, e.g) && ListenersWithout(e.sources, before, dropped)
    modifies e`pvs, e`g, e.sources`listeners, e.cvs`listeners, e.cvs`notifiedVariable
    ensures Consistent(e, exempt) && Optimised(g, more, e.g) && ListenersWithout(e.sources, before, more)
    ensures e.pvs == Erased(old(e.pvs), k) && forall q :: q in e.pvs && !old(Unused(q)) ==> !Unused(q)
  {
    ghost var p := e.pvs[k].id;
    NotifiesNothing(e, e.pvs[k]);
    OneMoreDropped(g, dropped, e.g, p);
    Forget(e, k, exempt);
    MoreWithout(e.sources, before, dropped, p);
    more := dropped + [p];
  }

  /** What no formula uses and still remains shares its source with another parser variable. */
  ghost predicate Needed(p: ParserVariable)
    reads p`notified
    reads if p.notifying.Source? then {p.notifying.variable} else {}
  {
    p.notified != [] || (p.notifying.Source? && |p.notifying.variable.listeners| >= 2)
  }

  lemma RemainingAreNeeded(e: Engine)
    requires e.Valid() && forall q :: q in e.pvs ==> !Unused(q)
    ensures forall q :: q in e.pvs ==> Needed(q)
  {
    forall q | q in e.pvs ensures Needed(q) {
      assert e.ParserTied(e.all[q.id]);
      if q.notifying.Calculated? {
        assert e.CalcTied(e.cvs[q.notifying.cv.id]);
      }
    }
  }

  /** Engine::optimize. */
  method Optimize(e: Engine, ghost exempt: set<nat>) returns (ghost dropped: seq<nat>)
    requires Consistent(e, exempt)
    modifies e`pvs, e`g, e.sources`listeners, e.cvs`listeners, e.cvs`notifiedVariable
    ensures Consistent(e, exempt)
    ensures Optimised(old(e.g), dropped, e.g)
    ensures forall v :: v in e.sources ==> Numbers(v.listeners) == WithoutAll(old(Numbers(v.listeners)), dropped)
    ensures forall q :: q in e.pvs ==> !Unused(q) && Needed(q)
  {
    dropped := [];
    ghost var g, before := e.g, Listeners(e.sources);
    var k := 0;
    while k < |e.pvs|
      invariant Consistent(e, exempt) && Optimised(g, dropped, e.g) && ListenersWithout(e.sources, before, dropped)
      invariant k <= |e.pvs| && forall j :: 0 <= j < k ==> !Unused(e.pvs[j])
      decreases |e.pvs| - k
    {
      if Unused(e.pvs[k]) {
        dropped := ForgetNext(e, k, exempt, g, before, dropped);
      } else {
        k := k + 1;
      }
    }
    RemainingAreNeeded(e);
  }

  // ----- a history of writes, with the optimisation and without -----

  /** The parser variables that listen to each of `vs`. */
  ghost function ListenersOf(vs: seq<SourceVariable>): (r: seq<seq<nat>>)
    reads vs`listeners
    ensures |r| == |vs| && forall k :: 0 <= k < |vs| ==> r[k] == Numbers(vs[k].listeners)
  {
    if vs == [] then [] else [Numbers(vs[0].listeners)] + ListenersOf(vs[1..])
  }

  /** The writes of `dvs` to sources with these listeners, one after the other. */
  function History(listeners: seq<seq<nat>>, dvs: seq<DataValue>): (r: seq<GraphGrowth.Write>)
    requires |listeners| == |dvs|
  {
    seq(|dvs|, k requires 0 <= k < |dvs| => GraphGrowth.Write(listeners[k], Mirror(dvs[k])))
  }

  predicate AllIn(vs: seq<SourceVariable>, sources: set<SourceVariable>)
  {
    forall k :: 0 <= k < |vs| ==> vs[k] in sources
  }

  lemma HistoryIsOk(e: Engine, vs: seq<SourceVariable>, dvs: seq<DataValue>)
    requires e.Valid() && |vs| == |dvs| && AllIn(vs, e.sources)
    ensures WritesOk(e.g, History(ListenersOf(vs), dvs))
  {
    forall k | 0 <= k < |vs| ensures Within(Numbers(vs[k].listeners), e.g.Size()) {
      ListenersAreSources(e, vs[k]);
    }
  }

  lemma OneMoreWrite(g: Graph, st: Store, ws: seq<GraphGrowth.Write>, k: nat)
    requires Wf(g) && Fits(g, st) && WritesOk(g, ws) && k < |ws|
    ensures WritesOk(g, ws[..k]) && WritesOk(g, ws[..k + 1]) && Within(ws[k].listeners, g.Size())
    ensures Run(g, st, ws[..k + 1]) == PushAll(g, Run(g, st, ws[..k]), ws[k].listeners, ws[k].cell)
  {
    assert ws[..k + 1][..k] == ws[..k];
  }

  /** The engine holds what `ws` leave of `st`. */
  ghost predicate Written(e: Engine, g: Graph, st: Store, ws: seq<GraphGrowth.Write>)
    reads e`g, e`st
  {
    e.g == g && Wf(g) && Fits(g, st) && WritesOk(g, ws) && e.st == Run(g, st, ws)
  }

  method WriteNext(e: Engine, v: SourceVariable, dv: DataValue, ghost g: Graph, ghost st: Store,
                   ghost ws: seq<GraphGrowth.Write>, ghost k: nat)
    requires e.Valid() && v in e.sources && WritesOk(g, ws) && k < |ws| && Written(e, g, st, ws[..k])
    requires ws[k] == GraphGrowth.Write(Numbers(v.listeners), Mirror(dv))
    modifies v`stored, e`st, e.all`value, e.all`state, e.cvs`stored
    ensures e.Valid() && Written(e, g, st, ws[..k + 1])
  {
    OneMoreWrite(g, st, ws, k);
    v.SetValue(e, dv);
  }

  /** A history of writes on the objects. */
  method WriteAll(e: Engine, vs: seq<SourceVariable>, dvs: seq<DataValue>, ghost g: Graph, ghost st: Store,
                  ghost ws: seq<GraphGrowth.Write>)
    requires e.Valid() && |vs| == |dvs| && AllIn(vs, e.sources) && g == e.g && st == e.st
    requires ws == History(ListenersOf(vs), dvs)
    modifies e.sources`stored, e`st, e.all`value, e.all`state, e.cvs`stored
    ensures e.Valid() && Written(e, g, st, ws)
  {
    HistoryIsOk(e, vs, dvs);
    for k := 0 to |vs|
      invariant e.Valid() && Written(e, g, st, ws[..k])
    {
      WriteNext(e, vs[k], dvs[k], g, st, ws, k);
    }
    assert ws[..|vs|] == ws;
  }

  lemma HistoryWithout(ls: seq<seq<nat>>, ms: seq<seq<nat>>, dropped: seq<nat>, dvs: seq<DataValue>)
    requires |ls| == |ms| == |dvs| && forall k :: 0 <= k < |ls| ==> ms[k] == WithoutAll(ls[k], dropped)
    ensures History(ms, dvs) == WritesWithout(History(ls, dvs), dropped)
  {
    forall k | 0 <= k < |dvs| ensures History(ms, dvs)[k] == WritesWithout(History(ls, dvs), dropped)[k] {
      WritesWithoutEach(History(ls, dvs), dropped, k);
    }
  }

  lemma OptimizedRun(g: Graph, dropped: seq<nat>, h: Graph, st: Store, ls: seq<seq<nat>>, ms: seq<seq<nat>>,
                     dvs: seq<DataValue>)
    requires |ls| == |ms| == |dvs| && forall k :: 0 <= k < |ls| ==> ms[k] == WithoutAll(ls[k], dropped)
    requires Wf(g) && Fits(g, st) && WritesOk(g, History(ls, dvs)) && Optimised(g, dropped, h)
    ensures Wf(h) && Fits(h, st) && WritesOk(h, History(ms, dvs))
    ensures Run(h, st, History(ms, dvs)).pubs == Run(g, st, History(ls, dvs)).pubs
  {
    HistoryWithout(ls, ms, dropped, dvs);
    OptimisationPreservesRuns(g, dropped, st, History(ls, dvs));
  }

  method OptimizeListeners(e: Engine, vs: seq<SourceVariable>, ghost exempt: set<nat>, ghost g: Graph,
                           ghost ls: seq<seq<nat>>)
    returns (ghost dropped: seq<nat>)
    requires Consistent(e, exempt) && AllIn(vs, e.sources) && g == e.g && ls == ListenersOf(vs)
    modifies e`pvs, e`g, e.sources`listeners, e.cvs`listeners, e.cvs`notifiedVariable
    ensures e.Valid() && Optimised(g, dropped, e.g)
    ensures |ls| == |vs| && forall k :: 0 <= k < |vs| ==> Numbers(vs[k].listeners) == WithoutAll(ls[k], dropped)
  {
    dropped := Optimize(e, exempt);
  }

  /** On the objects: whatever is written after the optimisation, every calculated variable publishes what
      it would have published without it. */
  method OptimizeThenWriteAll(e: Engine, vs: seq<SourceVariable>, dvs: seq<DataValue>, ghost exempt: set<nat>,
                              ghost g: Graph, ghost st: Store, ghost ls: seq<seq<nat>>)
    requires Consistent(e, exempt) && |vs| == |dvs| && AllIn(vs, e.sources)
    requires g == e.g && st == e.st && ls == ListenersOf(vs)
    modifies e`pvs, e`g, e`st, e.all`value, e.all`state
    modifies e.sources`listeners, e.sources`stored, e.cvs`listeners, e.cvs`notifiedVariable, e.cvs`stored
    ensures e.Valid() && Wf(g) && Fits(g, st) && |ls| == |dvs| && WritesOk(g, History(ls, dvs))
    ensures e.st.pubs == Run(g, st, History(ls, dvs)).pubs
  {
    HistoryIsOk(e, vs, dvs);
    ghost var dropped := OptimizeListeners(e, vs, exempt, g, ls);
    OptimizedRun(g, dropped, e.g, st, ls, ListenersOf(vs), dvs);
    WriteAll(e, vs, dvs, e.g, st, History(ListenersOf(vs), dvs));
  }

  lemma NotifiesNothing(e: Engine, p: ParserVariable)
    requires e.Tied() && e.Has(p) && p.notified == []
    ensures p.id < e.g.Size() == |e.g.notify| && e.g.notify[p.id] == []
  {
    assert e.ParserTied(e.all[p.id]);
  }

  /** No reference dangles: every input and every variable an output feeds is still listed. */
  lemma NoDanglingReference(e: Engine, c: CalculatedVariable)
    requires e.Valid() && c in e.cvs
    ensures forall p :: p in c.valueVars || p in c.statusVars ==> p in e.pvs
    ensures c.notifiedVariable != null ==> c.notifiedVariable in e.pvs
  {
    assert e.CalcTied(e.cvs[c.id]) && CalcOk(e.g, c.id);
    forall p | p in c.valueVars || p in c.statusVars ensures p in e.pvs {
      assert CalcOf(c).Reads(p.id) by {
        if p in c.valueVars {
          var k :| 0 <= k < |c.valueVars| && c.valueVars[k] == p;
          assert Numbers(c.valueVars)[k] == p.id;
        } else {
          var k :| 0 <= k < |c.statusVars| && c.statusVars[k] == p;
          assert Numbers(c.statusVars)[k] == p.id;
        }
      }
      ListedIsInList(e, p);
    }
    if c.notifiedVariable != null {
      ListedIsInList(e, c.notifiedVariable);
    }
  }

  lemma ListedIsInList(e: Engine, p: ParserVariable)
    requires e.Tied() && e.Has(p) && p.id in e.g.listed
    ensures p in e.pvs
  {
    var k :| 0 <= k < |e.g.listed| && e.g.listed[k] == p.id;
    assert e.Has(e.pvs[k]);
  }
}
