/** Building the engine's objects: registering sources, instantiating calculated variables, optimising.
    Each small step keeps the objects tied to the graph; the methods at the end keep the graph well
    formed and every calculated variable settled. */
module Registration {
  import opened DataValues
  import opened CalcGraph
  import opened PushTheorems
  import opened GraphGrowth
  import opened CalcEngine
  import E = Escaping

  // ----- what a step leaves tied -----

  twostate lemma ParsersStayTied(e: Engine)
    requires old(e.Tied()) && old(e.all) <= e.all && old(e.cvs) <= e.cvs && old(e.sources) <= e.sources
    requires unchanged(old(e.all)`notified, old(e.all)`isConstant)
    requires old(e.g).owner <= e.g.owner && old(e.g).notify <= e.g.notify
    requires forall i {:trigger Constant(e.g, i)} :: 0 <= i < |old(e.all)| ==> Constant(e.g, i) == Constant(old(e.g), i)
    ensures forall i {:trigger e.ParserTied(e.all[i])} :: 0 <= i < |old(e.all)| ==> e.ParserTied(e.all[i])
  {
    forall i | 0 <= i < |old(e.all)| ensures e.ParserTied(e.all[i]) {
      assert old(e.ParserTied(e.all[i]));
    }
  }

  twostate lemma CalcsStayTied(e: Engine)
    requires old(e.Tied()) && old(e.all) <= e.all && old(e.cvs) <= e.cvs && old(e.g).calcs <= e.g.calcs
    requires unchanged(old(e.cvs)`valueVars, old(e.cvs)`statusVars, old(e.cvs)`notifiedVariable, old(e.cvs)`listeners)
    ensures forall i {:trigger e.CalcTied(e.cvs[i])} :: 0 <= i < |old(e.cvs)| ==> e.CalcTied(e.cvs[i])
  {
    forall i | 0 <= i < |old(e.cvs)| ensures e.CalcTied(e.cvs[i]) {
      assert old(e.CalcTied(e.cvs[i]));
    }
  }

  twostate lemma SourcesStayTied(e: Engine)
    requires old(e.Tied()) && old(e.all) <= e.all
    requires unchanged(old(e.sources)`listeners)
    ensures forall v {:trigger e.SourceTied(v)} :: v in old(e.sources) ==> e.SourceTied(v)
  {
    forall v | v in old(e.sources) ensures e.SourceTied(v) {
      assert old(e.SourceTied(v));
    }
  }

  // ----- the steps -----

  ghost predicate Blank(p: ParserVariable, id: nat)
    reads p
  {
    p.id == id && p.notified == [] && p.value == 0.0 && p.state == WaitingInitialData
  }

  /** Every listed parser variable of a source listens to it. */
  ghost predicate Listening(e: Engine)
    reads e`pvs, e`sources, e.sources`listeners
  {
    forall k :: 0 <= k < |e.pvs| && e.pvs[k].notifying.Source? ==>
      e.pvs[k].notifying.variable in e.sources && e.pvs[k] in e.pvs[k].notifying.variable.listeners
  }

  /** A parser variable goes to the end of the list. */
  method AppendParser(e: Engine, pv: ParserVariable)
    requires e.Tied() && Blank(pv, |e.all|)
    requires ParserFits(AppendOwned(e.g, OwnerOf(pv.notifying)), e.cvs, e.sources, |e.all|, pv.notifying, [],
                        pv.isConstant)
    modifies e`pvs, e`all, e`g
    ensures e.Tied()
    ensures e.pvs == old(e.pvs) + [pv] && e.all == old(e.all) + [pv]
    ensures e.g == AppendOwned(old(e.g), OwnerOf(pv.notifying))
  {
    e.pvs := e.pvs + [pv];
    e.all := e.all + [pv];
    e.g := AppendOwned(e.g, OwnerOf(pv.notifying));
    ParsersStayTied(e);
    CalcsStayTied(e);
    SourcesStayTied(e);
  }

  /** The same, with the value it starts from. */
  method AppendWaiting(e: Engine, pv: ParserVariable)
    requires e.Tied() && e.Mirrored() && Blank(pv, |e.all|)
    requires ParserFits(AppendOwned(e.g, OwnerOf(pv.notifying)), e.cvs, e.sources, |e.all|, pv.notifying, [],
                        pv.isConstant)
    modifies e`pvs, e`all, e`g, e`st
    ensures e.Tied() && e.Mirrored()
    ensures e.pvs == old(e.pvs) + [pv] && e.all == old(e.all) + [pv]
    ensures e.g == AppendOwned(old(e.g), OwnerOf(pv.notifying)) && e.st == Grown(old(e.st), 1, 0)
    ensures old(Listening(e)) && pv.notifying.Calculated? ==> Listening(e)
  {
    AppendParser(e, pv);
    e.st := Grown(e.st, 1, 0);
  }

  method AdmitSource(e: Engine, v: SourceVariable)
    requires e.Tied() && (v in e.sources || v.listeners == [])
    modifies e`sources
    ensures e.Tied() && e.sources == old(e.sources) + {v}
  {
    ghost var sources := e.sources + {v};
    e.sources := sources;
    ParsersStayTied(e);
    CalcsStayTied(e);
    SourcesStayTied(e);
  }

  method AddChangeListener(e: Engine, v: SourceVariable, pv: ParserVariable)
    requires e.Tied() && v in e.sources && e.Has(pv) && pv.notifying == Source(v)
    modifies v`listeners
    ensures e.Tied() && v.listeners == old(v.listeners) + [pv]
  {
    assert e.SourceTied(v);
    v.listeners := v.listeners + [pv];
    forall w | w in e.sources ensures e.SourceTied(w) {
      assert old(e.SourceTied(w));
    }
  }

  ghost predicate Unresolved(c: CalculatedVariable, id: nat)
    reads c
  {
    c.id == id && c.valueVars == [] && c.statusVars == [] && c.notifiedVariable == null && c.listeners == []
  }

  method AdmitCalc(e: Engine, cv: CalculatedVariable)
    requires e.Tied() && Unresolved(cv, |e.cvs|)
    modifies e`cvs, e`g
    ensures e.Tied() && e.cvs == old(e.cvs) + [cv]
    ensures e.g == BeginCalc(old(e.g), CalcOf(cv))
  {
    ghost var cvs, g := e.cvs + [cv], BeginCalc(e.g, CalcOf(cv));
    forall i | 0 <= i < |e.all| ensures Constant(g, i) == Constant(e.g, i) {
      assert e.ParserTied(e.all[i]);
    }
    e.cvs, e.g := cvs, g;
    ParsersStayTied(e);
    CalcsStayTied(e);
    SourcesStayTied(e);
  }

  ghost predicate Unowned(g: Graph, c: nat) { forall p :: 0 <= p < g.Size() ==> g.owner[p] != Some(c) }

  function Appended<T(==)>(vars: seq<T>, p: T): seq<T> { if p in vars then vars else vars + [p] }

  /** addDependentVariableForValue and addDependentVariableForStatus. */
  method AddDependent(cv: CalculatedVariable, p: ParserVariable, forValue: bool)
    modifies cv`valueVars, cv`statusVars
    ensures cv.valueVars == old(if forValue then Appended(cv.valueVars, p) else cv.valueVars)
    ensures cv.statusVars == old(if forValue then cv.statusVars else Appended(cv.statusVars, p))
  {
    if forValue {
      if p !in cv.valueVars {
        cv.valueVars := cv.valueVars + [p];
      }
    } else {
      if p !in cv.statusVars {
        cv.statusVars := cv.statusVars + [p];
      }
    }
  }

  lemma ParserFitsAfterRequest(g: Graph, cvs: seq<CalculatedVariable>, sources: set<SourceVariable>, p: ParserVariable,
                               notified: seq<CalculatedVariable>, isConstant: bool, cv: CalculatedVariable,
                               forValue: bool)
    requires |g.owner| == |g.notify| && cv.id < |g.calcs| && cv.id < |cvs| && cvs[cv.id] == cv && Unowned(g, cv.id)
    requires ParserFits(g, cvs, sources, p.id, p.notifying, notified, isConstant)
    ensures ParserFits(AddRequest(g, cv.id, p.id, forValue), cvs, sources, p.id, p.notifying, notified + [cv],
                       isConstant)
  {
    assert CalcNumbers(notified + [cv]) == CalcNumbers(notified) + [cv.id];
  }

  lemma CalcFitsAfterRequest(g: Graph, all: seq<ParserVariable>, id: nat, c: Calc,
                             valueVars: seq<ParserVariable>, statusVars: seq<ParserVariable>,
                             notified: ParserVariable?, listeners: seq<ParserVariable>, p: ParserVariable,
                             forValue: bool)
    requires CalcFits(g, all, id, c, valueVars, statusVars, notified, listeners)
    requires c.valueIn == Numbers(valueVars) && c.statusIn == Numbers(statusVars)
    requires InList(all, p) && p.id < |g.notify|
    ensures var values := if forValue then Appended(valueVars, p) else valueVars;
            var statuses := if forValue then statusVars else Appended(statusVars, p);
            CalcFits(AddRequest(g, id, p.id, forValue), all, id,
                     c.(valueIn := Numbers(values), statusIn := Numbers(statuses)), values, statuses,
                     notified, listeners)
  {
    SameMembers(all, valueVars, p);
    SameMembers(all, statusVars, p);
    assert Numbers(valueVars + [p]) == Numbers(valueVars) + [p.id];
    assert Numbers(statusVars + [p]) == Numbers(statusVars) + [p.id];
  }

  /** parserVariableRequestHandler, once the name is found: `cv` depends on `p`, `p` notifies `cv`. */
  method Link(e: Engine, cv: CalculatedVariable, p: ParserVariable, forValue: bool)
    requires e.Tied() && e.Knows(cv) && e.Has(p) && Unowned(e.g, cv.id)
    modifies e`g, p`notified, cv`valueVars, cv`statusVars
    ensures e.ParserTied(p) && e.CalcTied(cv) && old(cv.id < |e.g.calcs| && p.id < |e.g.notify|)
    ensures e.g == AddRequest(old(e.g), cv.id, p.id, forValue)
  {
    assert e.CalcTied(e.cvs[cv.id]) && e.ParserTied(e.all[p.id]);
    ParserFitsAfterRequest(e.g, e.cvs, e.sources, p, p.notified, p.isConstant, cv, forValue);
    CalcFitsAfterRequest(e.g, e.all, cv.id, CalcOf(cv), cv.valueVars, cv.statusVars,
                         cv.notifiedVariable, cv.listeners, p, forValue);
    e.g := AddRequest(e.g, cv.id, p.id, forValue);
    AddDependent(cv, p, forValue);
    p.notified := p.notified + [cv];
  }

  method Request(e: Engine, cv: CalculatedVariable, p: ParserVariable, forValue: bool)
    requires e.Tied() && e.Knows(cv) && e.Has(p) && Unowned(e.g, cv.id)
    modifies e`g, p`notified, cv`valueVars, cv`statusVars
    ensures e.Tied() && old(cv.id < |e.g.calcs| && p.id < |e.g.notify|)
    ensures e.g == AddRequest(old(e.g), cv.id, p.id, forValue)
  {
    Link(e, cv, p, forValue);
    OthersStayTied(RequestStep(e, cv.id, p.id, forValue));
    SourcesStayTied(e);
  }

  lemma SameMembers(all: seq<ParserVariable>, vars: seq<ParserVariable>, p: ParserVariable)
    requires InList(all, p) && forall k :: 0 <= k < |vars| ==> InList(all, vars[k])
    ensures p in vars <==> p.id in Numbers(vars)
  {
    if p in vars {
      var k :| 0 <= k < |vars| && vars[k] == p;
      assert Numbers(vars)[k] == p.id;
    }
    if p.id in Numbers(vars) {
      var k :| 0 <= k < |vars| && Numbers(vars)[k] == p.id;
      assert vars[k] == p;
    }
  }

  datatype RequestStep = RequestStep(e: Engine, c: nat, p: nat, forValue: bool)

  /** A request touches one parser variable and one calculated variable. */
  twostate predicate IsRequest(step: RequestStep)
    reads step.e, step.e.all, step.e.cvs
  {
    var e, c, p := step.e, step.c, step.p;
    && unchanged(e`all, e`cvs, e`pvs, e`sources)
    && c < |e.cvs| == |old(e.g).calcs| && p < |e.all| == |old(e.g).owner| == |old(e.g).notify|
    && e.g == AddRequest(old(e.g), c, p, step.forValue)
    && unchanged(e.all`isConstant, e.cvs`notifiedVariable, e.cvs`listeners)
    && (forall i :: 0 <= i < |e.all| && i != p ==> e.all[i].notified == old(e.all[i].notified))
    && (forall i :: 0 <= i < |e.cvs| && i != c ==> e.cvs[i].valueVars == old(e.cvs[i].valueVars))
    && (forall i :: 0 <= i < |e.cvs| && i != c ==> e.cvs[i].statusVars == old(e.cvs[i].statusVars))
  }

  twostate lemma OthersStayTied(step: RequestStep)
    requires old(step.e.Tied()) && old(Unowned(step.e.g, step.c)) && IsRequest(step)
    ensures forall i {:trigger step.e.ParserTied(step.e.all[i])} ::
              0 <= i < |step.e.all| && i != step.p ==> step.e.ParserTied(step.e.all[i])
    ensures forall i {:trigger step.e.CalcTied(step.e.cvs[i])} ::
              0 <= i < |step.e.cvs| && i != step.c ==> step.e.CalcTied(step.e.cvs[i])
    ensures forall i {:trigger Constant(step.e.g, i)} ::
              0 <= i < |step.e.all| ==> Constant(step.e.g, i) == Constant(old(step.e.g), i)
  {
    var e := step.e;
    forall i | 0 <= i < |e.all| ensures Constant(e.g, i) == Constant(old(e.g), i) {
      assert old(e.g).owner[i] != Some(step.c);
    }
    forall i | 0 <= i < |e.all| && i != step.p ensures e.ParserTied(e.all[i]) {
      assert old(e.ParserTied(e.all[i]));
    }
    forall i | 0 <= i < |e.cvs| && i != step.c ensures e.CalcTied(e.cvs[i]) {
      assert old(e.CalcTied(e.cvs[i]));
    }
  }

  /** The parser variable of `cv` starts listening to it, and `cv` remembers it. */
  method SetNotified(e: Engine, cv: CalculatedVariable, pv: ParserVariable)
    requires e.Tied() && e.Knows(cv) && e.Has(pv) && cv.notifiedVariable == null
    modifies e`g, cv`notifiedVariable, cv`listeners
    ensures e.Tied() && cv.notifiedVariable == pv && old(cv.id < |e.g.calcs|)
    ensures e.g == old(e.g.(calcs := e.g.calcs[cv.id := e.g.calcs[cv.id].(out := Some(pv.id))]))
  {
    assert e.CalcTied(e.cvs[cv.id]);
    ghost var g := e.g.(calcs := e.g.calcs[cv.id := e.g.calcs[cv.id].(out := Some(pv.id))]);
    cv.listeners := cv.listeners + [pv];
    cv.notifiedVariable := pv;
    e.g := g;
    ParsersStayTied(e);
    forall i | 0 <= i < |e.cvs| ensures e.CalcTied(e.cvs[i]) {
      assert old(e.CalcTied(e.cvs[i]));
    }
  }

  // ----- the operations -----

  /** The engine's objects are in order and every calculated variable is settled, except those of
      `exempt`, which still hold a configured initial value. */
  ghost predicate Consistent(e: Engine, exempt: set<nat>)
    reads e, e.all, e.cvs, e.sources
  {
    e.Valid() && AllSettled(e.g, e.st, exempt) && Listening(e)
  }

  method EnterSource(e: Engine, v: SourceVariable, id: string) returns (pv: ParserVariable)
    requires e.Tied() && e.Mirrored() && (v in e.sources || v.listeners == [])
    modifies e`pvs, e`all, e`sources, e`g, e`st, v`listeners
    ensures e.Tied() && e.Mirrored()
    ensures fresh(pv) && pv.name == E.EscapedName(id) && pv.notifying == Source(v) && pv.synchronizer == null
    ensures e.pvs == old(e.pvs) + [pv] && e.all == old(e.all) + [pv] && e.sources == old(e.sources) + {v}
    ensures v.listeners == old(v.listeners) + [pv] && pv.id == |old(e.all)|
    ensures e.g == AddSource(old(e.g)) && e.st == Grown(old(e.st), 1, 0)
  {
    var name := E.EscapeSpecialCharactersInParserVariableName(id);
    AdmitSource(e, v);
    pv := NewInput(e, v, name);
    AddChangeListener(e, v, pv);
  }

  /** A parser variable for `v`, at the end of the list. */
  method NewInput(e: Engine, v: SourceVariable, name: string) returns (pv: ParserVariable)
    requires e.Tied() && e.Mirrored() && v in e.sources
    modifies e`pvs, e`all, e`g, e`st
    ensures e.Tied() && e.Mirrored()
    ensures fresh(pv) && pv.name == name && pv.notifying == Source(v) && pv.synchronizer == null
    ensures pv.id == |old(e.all)|
    ensures e.pvs == old(e.pvs) + [pv] && e.all == old(e.all) + [pv]
    ensures e.g == AddSource(old(e.g)) && e.st == Grown(old(e.st), 1, 0)
  {
    pv := new ParserVariable(Source(v), name, |e.all|);
    AppendWaiting(e, pv);
  }

  /** registerVariableForCalculatedVariables for a source with this node identifier. */
  method RegisterSource(e: Engine, v: SourceVariable, id: string, ghost exempt: set<nat>) returns (pv: ParserVariable)
    requires Consistent(e, exempt) && (v in e.sources || v.listeners == [])
    modifies e`pvs, e`all, e`sources, e`g, e`st, v`listeners
    ensures Consistent(e, exempt)
    ensures fresh(pv) && pv.name == E.EscapedName(id) && pv.notifying == Source(v) && pv.synchronizer == null
    ensures e.pvs == old(e.pvs) + [pv] && e.all == old(e.all) + [pv] && e.sources == old(e.sources) + {v}
    ensures v.listeners == old(v.listeners) + [pv]
    ensures e.g == AddSource(old(e.g)) && e.st == Grown(old(e.st), 1, 0)
    ensures pv.value == 0.0 && pv.state == WaitingInitialData
  {
    AddSourceKeepsWf(e.g);
    GrowthKeepsSettled(e.g, e.st, AddSource(e.g), Grown(e.st, 1, 0), exempt, {});
    assert exempt + {} == exempt;
    pv := EnterSource(e, v, id);
    assert e.all[pv.id] == pv;
  }

  /** Position of the first parser variable called `name`. */
  function FirstNamed(ps: seq<ParserVariable>, name: string): (r: Option<nat>)
    ensures r == None <==> forall j :: 0 <= j < |ps| ==> ps[j].name != name
    ensures r.Some? ==> r.value < |ps| && ps[r.value].name == name
                        && forall j :: 0 <= j < r.value ==> ps[j].name != name
  {
    if ps == [] then None
    else if ps[0].name == name then Some(0)
    else match FirstNamed(ps[1..], name)
         case None => None
         case Some(k) => Some(k + 1)
  }

  method Find(ps: seq<ParserVariable>, name: string) returns (k: nat)
    ensures k <= |ps| && FirstNamed(ps, name) == if k < |ps| then Some(k) else None
  {
    k := 0;
    while k < |ps| && ps[k].name != name
      invariant k <= |ps| && forall j :: 0 <= j < k ==> ps[j].name != name
    {
      k := k + 1;
    }
  }

  /** The parser variables are registered for nodes with these identifiers, which are all different. */
  ghost predicate RegisteredFor(ps: seq<ParserVariable>, ids: seq<string>)
  {
    && |ps| == |ids|
    && (forall k :: 0 <= k < |ps| ==> ps[k].name == E.EscapedName(ids[k]) && E.Clean(ids[k]))
    && (forall j, k :: 0 <= j < k < |ids| ==> ids[j] != ids[k])
  }

  /** The identifier of a node, written in a formula with a backslash before each operator, names the parser
      variable of that node and no other. */
  lemma FormulaNamesItsNode(ps: seq<ParserVariable>, ids: seq<string>, k: nat)
    requires RegisteredFor(ps, ids) && k < |ids| && '\\' !in ids[k]
    ensures FirstNamed(ps, E.EscapedFormula(E.Backslashed(ids[k]))) == Some(k)
  {
    E.FormulaFindsVariable(ids[k]);
    forall j | 0 <= j < k ensures ps[j].name != E.EscapedName(ids[k]) {
      if ps[j].name == E.EscapedName(ids[k]) {
        E.EscapeIsInjective(ids[j], ids[k]);
      }
    }
  }

  ghost predicate AllNamed(ps: seq<ParserVariable>, names: seq<string>)
  {
    forall k :: 0 <= k < |names| ==> FirstNamed(ps, names[k]).Some?
  }

  /** The numbers of the parser variables a formula with these symbols refers to. */
  ghost function Resolved(ps: seq<ParserVariable>, names: seq<string>): (r: seq<nat>)
    requires AllNamed(ps, names)
    ensures |r| == |names|
  {
    seq(|names|, k requires 0 <= k < |names| => ps[FirstNamed(ps, names[k]).value].id)
  }

  lemma ResolvedAreListed(e: Engine, names: seq<string>)
    requires e.Tied() && AllNamed(e.pvs, names)
    ensures forall k :: 0 <= k < |names| ==> Resolved(e.pvs, names)[k] in e.g.listed
  {
    forall k | 0 <= k < |names| ensures Resolved(e.pvs, names)[k] in e.g.listed {
      assert e.g.listed[FirstNamed(e.pvs, names[k]).value] == Resolved(e.pvs, names)[k];
    }
  }

  lemma OneMoreResolved(ps: seq<ParserVariable>, names: seq<string>, k: nat)
    requires k < |names| && AllNamed(ps, names[..k]) && FirstNamed(ps, names[k]).Some?
    ensures AllNamed(ps, names[..k + 1])
    ensures Resolved(ps, names[..k + 1]) == Resolved(ps, names[..k]) + [ps[FirstNamed(ps, names[k]).value].id]
  {
    assert names[..k + 1] == names[..k] + [names[k]];
    assert forall j :: 0 <= j < k ==> names[..k + 1][j] == names[..k][j];
  }

  /** parserVariableRequestHandler: look the name up, and link the variable found. */
  method RequestNamed(e: Engine, cv: CalculatedVariable, name: string, forValue: bool) returns (ok: bool)
    requires e.Tied() && e.Knows(cv) && Unowned(e.g, cv.id)
    modifies e`g, e.all`notified, cv`valueVars, cv`statusVars
    ensures ok == FirstNamed(e.pvs, name).Some? && e.Tied()
    ensures !ok ==> e.g == old(e.g)
    ensures ok ==> var p := e.pvs[FirstNamed(e.pvs, name).value].id;
                   && old(cv.id < |e.g.calcs|) && p < |old(e.g).notify|
                   && e.g == AddRequest(old(e.g), cv.id, p, forValue)
  {
    var j := Find(e.pvs, name);
    ok := j < |e.pvs|;
    if ok {
      Request(e, cv, e.pvs[j], forValue);
    }
  }

  /** Requests for all of `names` make `h` of `g`. */
  ghost predicate Requested(g: Graph, c: nat, ps: seq<ParserVariable>, names: seq<string>, forValue: bool, h: Graph)
  {
    && c < |g.calcs| && AllNamed(ps, names) && Within(Resolved(ps, names), |g.notify|)
    && h == AddRequests(g, c, Resolved(ps, names), forValue)
  }

  lemma OneMoreRequested(g: Graph, c: nat, ps: seq<ParserVariable>, names: seq<string>, k: nat, forValue: bool,
                         h: Graph, i: Graph)
    requires k < |names| && Requested(g, c, ps, names[..k], forValue, h) && FirstNamed(ps, names[k]).Some?
    requires var p := ps[FirstNamed(ps, names[k]).value].id; p < |h.notify| && i == AddRequest(h, c, p, forValue)
    ensures Requested(g, c, ps, names[..k + 1], forValue, i)
  {
    OneMoreResolved(ps, names, k);
    var p := ps[FirstNamed(ps, names[k]).value].id;
    var rs := Resolved(ps, names[..k]);
    assert (rs + [p])[..|rs|] == rs;
  }

  /** A formula of `cv` is parsed: every symbol that is not a constant asks for a parser variable. */
  method RequestAll(e: Engine, cv: CalculatedVariable, names: seq<string>, forValue: bool) returns (ok: bool)
    requires e.Tied() && e.Knows(cv) && cv.id < |e.g.calcs| && Unowned(e.g, cv.id)
    modifies e`g, e.all`notified, cv`valueVars, cv`statusVars
    ensures ok == AllNamed(e.pvs, names) && e.Tied()
    ensures ok ==> Within(Resolved(e.pvs, names), |old(e.g).notify|)
                   && e.g == AddRequests(old(e.g), cv.id, Resolved(e.pvs, names), forValue)
  {
    ghost var g := e.g;
    for k := 0 to |names|
      invariant e.Tied() && Requested(g, cv.id, e.pvs, names[..k], forValue, e.g)
    {
      ghost var before := e.g;
      ok := RequestNamed(e, cv, names[k], forValue);
      if !ok {
        return;
      }
      OneMoreRequested(g, cv.id, e.pvs, names, k, forValue, before, e.g);
    }
    assert names[..|names|] == names;
    ok := true;
  }

  /** The graph after a calculated variable with these inputs was instantiated. */
  function Instantiated(g: Graph, cv: Calc, forValue: seq<nat>, forStatus: seq<nat>): Graph
    requires Within(forValue, |g.notify|) && Within(forStatus, |g.notify|)
  {
    var c := |g.calcs|;
    FinishCalc(AddRequests(AddRequests(BeginCalc(g, cv), c, forValue, true), c, forStatus, false), c)
  }

  /** An instantiated variable reads exactly what its formulas name, in the order in which they first name it,
      all of it registered before it. */
  lemma InstantiatedReads(g: Graph, cv: Calc, forValue: seq<nat>, forStatus: seq<nat>)
    requires Wf(g)
    requires forall k :: 0 <= k < |forValue| ==> forValue[k] in g.listed
    requires forall k :: 0 <= k < |forStatus| ==> forStatus[k] in g.listed
    ensures Within(forValue, |g.notify|) && Within(forStatus, |g.notify|)
    ensures var h := Instantiated(g, cv, forValue, forStatus);
            && Wf(h) && h.calcs[|g.calcs|].out == Some(g.Size())
            && InOrderOfMention(h.calcs[|g.calcs|].valueIn, forValue)
            && InOrderOfMention(h.calcs[|g.calcs|].statusIn, forStatus)
            && (forall d :: 0 <= d < |g.calcs| ==> h.calcs[d] == g.calcs[d])
  {
    var c := |g.calcs|;
    var g0 := BeginCalc(g, cv);
    BeginCalcKeepsWf(g, cv);
    AddRequestsKeepsWf(g0, forValue, true);
    RequestsAreInputs(g0, c, forValue, true);
    InputsInOrder(g0, c, forValue, true);
    var g1 := AddRequests(g0, c, forValue, true);
    AddRequestsKeepsWf(g1, forStatus, false);
    RequestsAreInputs(g1, c, forStatus, false);
    InputsInOrder(g1, c, forStatus, false);
    FinishCalcKeepsWf(AddRequests(g1, c, forStatus, false));
  }

  /** Constructing and registering a variable leaves the older ones settled. */
  lemma InstantiationKeepsSettled(g: Graph, st: Store, cv: Calc, forValue: seq<nat>, forStatus: seq<nat>,
                                  exempt: set<nat>)
    requires Wf(g) && Fits(g, st) && AllSettled(g, st, exempt)
    requires Within(forValue, |g.notify|) && Within(forStatus, |g.notify|)
    requires Wf(Instantiated(g, cv, forValue, forStatus))
    ensures AllSettled(Instantiated(g, cv, forValue, forStatus), Grown(st, 1, 1), exempt + {|g.calcs|})
  {
    var h, st' := Instantiated(g, cv, forValue, forStatus), Grown(st, 1, 1);
    forall c | 0 <= c < |h.calcs| && c !in {|g.calcs|} ensures Extends(g, st, h, st', c) {
      assert st'.cells[..g.Size()] == st.cells;
    }
    GrowthKeepsSettled(g, st, h, st', exempt, {|g.calcs|});
  }

  method EnterCalc(e: Engine, cv: CalculatedVariable)
    requires e.Tied() && e.Mirrored() && Unresolved(cv, |e.cvs|) && cv.stored == NO_DATA
    modifies e`cvs, e`g, e`st
    ensures e.Tied() && e.Mirrored() && e.cvs == old(e.cvs) + [cv]
    ensures e.g == BeginCalc(old(e.g), CalcOf(cv)) && e.st == Grown(old(e.st), 0, 1)
  {
    AdmitCalc(e, cv);
    e.st := Grown(e.st, 0, 1);
  }

  /** registerVariableForCalculatedVariables for `cv`, and setNotifiedVariable. */
  method EnterOutput(e: Engine, cv: CalculatedVariable, id: string) returns (pv: ParserVariable)
    requires e.Tied() && e.Mirrored() && e.Knows(cv) && cv.notifiedVariable == null
    modifies e`pvs, e`all, e`g, e`st, cv`notifiedVariable, cv`listeners
    ensures e.Tied() && e.Mirrored() && old(cv.id < |e.g.calcs|) && (old(Listening(e)) ==> Listening(e))
    ensures fresh(pv) && pv.name == E.EscapedName(id) && pv.synchronizer == null && pv.id == |old(e.all)|
    ensures e.pvs == old(e.pvs) + [pv] && e.all == old(e.all) + [pv] && cv.notifiedVariable == pv
    ensures e.g == FinishCalc(old(e.g), cv.id) && e.st == Grown(old(e.st), 1, 0)
  {
    var name := E.EscapeSpecialCharactersInParserVariableName(id);
    pv := NewOutput(e, cv, name);
    SetNotified(e, cv, pv);
  }

  /** A parser variable for `cv`, at the end of the list. */
  method NewOutput(e: Engine, cv: CalculatedVariable, name: string) returns (pv: ParserVariable)
    requires e.Tied() && e.Mirrored() && e.Knows(cv)
    modifies e`pvs, e`all, e`g, e`st
    ensures e.Tied() && e.Mirrored() && (old(Listening(e)) ==> Listening(e))
    ensures fresh(pv) && pv.name == name && pv.synchronizer == null && pv.id == |old(e.all)|
    ensures e.pvs == old(e.pvs) + [pv] && e.all == old(e.all) + [pv]
    ensures e.g == AppendOwned(old(e.g), Some(cv.id)) && e.st == Grown(old(e.st), 1, 0)
  {
    assert e.CalcTied(e.cvs[cv.id]);
    pv := new ParserVariable(Calculated(cv), name, |e.all|);
    pv.isConstant := |cv.valueVars| + |cv.statusVars| == 0;
    AppendWaiting(e, pv);
  }

  /** What the configuration says of one calculated variable, after its formulas were elaborated, and its
      node identifier. */
  datatype CalcConfig = CalcConfig(id: string, valueSymbols: seq<string>, statusSymbols: seq<string>,
                                   isBoolean: bool, hasStatusFormula: bool,
                                   valueFormula: seq<real> -> real, statusFormula: seq<real> -> real,
                                   initialValue: Option<real>)
  {
    function StatusSymbols(): seq<string> { if hasStatusFormula then statusSymbols else [] }

    ghost function Blank(): Calc { Calc([], [], isBoolean, hasStatusFormula, valueFormula, statusFormula, None) }

    ghost predicate Resolves(ps: seq<ParserVariable>) { AllNamed(ps, valueSymbols) && AllNamed(ps, StatusSymbols()) }
  }

  ghost function GraphWith(g: Graph, ps: seq<ParserVariable>, config: CalcConfig): Graph
    requires config.Resolves(ps)
    requires Within(Resolved(ps, config.valueSymbols), |g.notify|)
    requires Within(Resolved(ps, config.StatusSymbols()), |g.notify|)
  {
    Instantiated(g, config.Blank(), Resolved(ps, config.valueSymbols), Resolved(ps, config.StatusSymbols()))
  }

  lemma GrownTwice(st: Store)
    ensures Grown(Grown(st, 0, 1), 1, 0) == Grown(st, 1, 1)
  {
    assert Grown(Grown(st, 0, 1), 1, 0).cells == Grown(st, 1, 1).cells;
    assert Grown(Grown(st, 0, 1), 1, 0).pubs == Grown(st, 1, 1).pubs;
  }

  /** Both formulas of variable `c` find all their parser variables, and `h` records that. */
  ghost predicate Linked(g: Graph, c: nat, ps: seq<ParserVariable>, config: CalcConfig, h: Graph)
  {
    && c < |g.calcs| && config.Resolves(ps)
    && Within(Resolved(ps, config.valueSymbols), |g.notify|)
    && Within(Resolved(ps, config.StatusSymbols()), |g.notify|)
    && h == AddRequests(AddRequests(g, c, Resolved(ps, config.valueSymbols), true),
                        c, Resolved(ps, config.StatusSymbols()), false)
  }

  method ResolveFormulas(e: Engine, cv: CalculatedVariable, config: CalcConfig) returns (ok: bool)
    requires e.Tied() && e.Knows(cv) && cv.id < |e.g.calcs| && Unowned(e.g, cv.id)
    modifies e`g, e.all`notified, cv`valueVars, cv`statusVars
    ensures ok == config.Resolves(e.pvs) && e.Tied()
    ensures ok ==> Linked(old(e.g), cv.id, e.pvs, config, e.g)
  {
    ok := RequestAll(e, cv, config.valueSymbols, true);
    if ok {
      ok := RequestAll(e, cv, config.StatusSymbols(), false);
    }
  }

  /** A new calculated variable, with the inputs its formulas name. */
  method Parse(e: Engine, config: CalcConfig) returns (ok: bool, cv: CalculatedVariable)
    requires e.Tied() && e.Mirrored() && Unowned(e.g, |e.cvs|)
    modifies e`cvs, e`g, e`st, e.all`notified
    ensures ok == config.Resolves(e.pvs) && fresh(cv)
    ensures e.Tied() && e.Mirrored() && e.cvs == old(e.cvs) + [cv] && cv.id == |old(e.cvs)|
    ensures cv.notifiedVariable == null
    ensures e.st == Grown(old(e.st), 0, 1)
    ensures ok ==> Linked(BeginCalc(old(e.g), config.Blank()), cv.id, e.pvs, config, e.g)
  {
    cv := new CalculatedVariable(config.isBoolean, config.hasStatusFormula,
                                 config.valueFormula, config.statusFormula, |e.cvs|);
    EnterCalc(e, cv);
    ok := ResolveFormulas(e, cv, config);
  }

  /** `h` is `g` with the configured variable instantiated. */
  ghost predicate Instantiates(g: Graph, ps: seq<ParserVariable>, config: CalcConfig, h: Graph)
  {
    && config.Resolves(ps)
    && Within(Resolved(ps, config.valueSymbols), |g.notify|)
    && Within(Resolved(ps, config.StatusSymbols()), |g.notify|)
    && h == GraphWith(g, ps, config)
  }

  /** `pv` goes by the name that formulas know the configured variable by, has no mutex, and counts as constant
      exactly when no formula names anything. */
  ghost predicate Announces(pv: ParserVariable, config: CalcConfig)
    reads pv`synchronizer, pv`isConstant
  {
    && pv.name == E.EscapedName(config.id) && pv.synchronizer == null
    && (pv.isConstant <==> config.valueSymbols == [] && config.StatusSymbols() == [])
  }

  lemma ReadsNothing(ins: seq<nat>, ps: seq<nat>)
    requires forall p :: p in ins <==> p in ps
    ensures ins == [] <==> ps == []
  {
    assert ins != [] ==> ins[0] in ps;
    assert ps != [] ==> ps[0] in ins;
  }

  lemma ConstantExactlyWhenNothingNamed(g: Graph, ps: seq<ParserVariable>, config: CalcConfig, h: Graph)
    requires Instantiates(g, ps, config, h)
    ensures Constant(h, g.Size()) <==> config.valueSymbols == [] && config.StatusSymbols() == []
  {
    var c, values, statuses := |g.calcs|, Resolved(ps, config.valueSymbols), Resolved(ps, config.StatusSymbols());
    var g0 := BeginCalc(g, config.Blank());
    var g1 := AddRequests(g0, c, values, true);
    RequestsAreInputs(g0, c, values, true);
    RequestsAreInputs(g1, c, statuses, false);
    var g2 := AddRequests(g1, c, statuses, false);
    ReadsNothing(g2.calcs[c].valueIn, values);
    ReadsNothing(g2.calcs[c].statusIn, statuses);
    ConstantOnceFinished(g2, c, h, g.Size());
  }

  lemma ConstantOnceFinished(g: Graph, c: nat, h: Graph, p: nat)
    requires c < |g.calcs| && h == FinishCalc(g, c) && p == g.Size()
    ensures Constant(h, p) <==> g.calcs[c].valueIn == [] && g.calcs[c].statusIn == []
  {
  }

  lemma AnnouncesNew(e: Engine, pv: ParserVariable, g: Graph, ps: seq<ParserVariable>, config: CalcConfig)
    requires e.Tied() && e.Has(pv) && pv.id == g.Size() && Instantiates(g, ps, config, e.g)
    requires pv.name == E.EscapedName(config.id) && pv.synchronizer == null
    ensures Announces(pv, config)
  {
    assert e.ParserTied(e.all[pv.id]);
    ConstantExactlyWhenNothingNamed(g, ps, config, e.g);
  }


  /** The registration of a calculated variable whose formulas have been parsed. */
  method Announce(e: Engine, cv: CalculatedVariable, config: CalcConfig, ghost g: Graph)
    returns (pv: ParserVariable)
    requires e.Tied() && e.Mirrored() && e.Knows(cv) && cv.notifiedVariable == null && cv.id == |g.calcs|
    requires Linked(BeginCalc(g, config.Blank()), cv.id, e.pvs, config, e.g)
    modifies e`pvs, e`all, e`g, e`st, cv`notifiedVariable, cv`listeners
    ensures e.Tied() && e.Mirrored() && (old(Listening(e)) ==> Listening(e))
    ensures fresh(pv) && Announces(pv, config)
    ensures e.pvs == old(e.pvs) + [pv] && e.all == old(e.all) + [pv] && cv.notifiedVariable == pv
    ensures Instantiates(g, old(e.pvs), config, e.g) && e.st == Grown(old(e.st), 1, 0)
  {
    ghost var ps := e.pvs;
    pv := EnterOutput(e, cv, config.id);
    AnnouncesNew(e, pv, g, ps, config);
  }

  /** The constructor of a calculated variable, and its registration. Fails where a symbol names nothing. */
  method Construct(e: Engine, config: CalcConfig) returns (ok: bool, cv: CalculatedVariable)
    requires e.Tied() && e.Mirrored() && Unowned(e.g, |e.cvs|) && Listening(e)
    modifies e`pvs, e`all, e`cvs, e`g, e`st, e.all`notified
    ensures ok == config.Resolves(old(e.pvs)) && fresh(cv)
    ensures ok ==> e.Tied() && e.Mirrored() && Listening(e) && e.cvs == old(e.cvs) + [cv] && cv.id == |old(e.cvs)|
    ensures ok ==> Instantiates(old(e.g), old(e.pvs), config, e.g) && e.st == Grown(old(e.st), 1, 1)
    ensures ok ==> cv.notifiedVariable != null && fresh(cv.notifiedVariable)
                   && Announces(cv.notifiedVariable, config)
                   && e.pvs == old(e.pvs) + [cv.notifiedVariable] && e.all == old(e.all) + [cv.notifiedVariable]
  {
    ghost var g := e.g;
    GrownTwice(e.st);
    ok, cv := Parse(e, config);
    if ok {
      var _ := Announce(e, cv, config, g);
    }
  }

  lemma NewIsUnowned(e: Engine)
    requires e.Valid()
    ensures Unowned(e.g, |e.cvs|)
  {
    forall p | 0 <= p < e.g.Size() ensures e.g.owner[p] != Some(|e.cvs|) {
      assert ParserOk(e.g, p);
    }
  }

  /** `after` is `st` with the first value of variable `c` published. */
  ghost predicate Started(g: Graph, st: Store, c: nat, initial: Option<real>, after: Store)
  {
    && Wf(g) && Fits(g, st) && c < |g.calcs|
    && after == match initial
                case Some(x) => Publish(g, st, c, DataValue(Some(Double(x)), OpcUaGood))
                case None => CalcGraph.Update(g, st, c)
  }

  /** What the configuration says is published with status Good, and the variable's own parser variable holds it. */
  lemma ConfiguredValueIsShown(e: Engine, cv: CalculatedVariable, before: Store, x: real)
    requires e.Valid() && e.Knows(cv) && Started(e.g, before, cv.id, Some(x), e.st)
    ensures ShowsConfigured(cv, x)
  {
    assert e.CalcTied(e.cvs[cv.id]);
    PublishStays(e.g, before, cv.id, DataValue(Some(Double(x)), OpcUaGood));
  }

  ghost predicate ShowsConfigured(cv: CalculatedVariable, x: real)
    reads cv`stored, cv`notifiedVariable
    reads if cv.notifiedVariable == null then {} else {cv.notifiedVariable}
  {
    && cv.stored.value == Some(Double(x)) && cv.stored.status == OpcUaGood
    && (cv.notifiedVariable != null ==> cv.notifiedVariable.value == x && cv.notifiedVariable.state == Good)
  }

  /** The first value: the configured one if there is one, otherwise the computed one. */
  method FirstValue(e: Engine, cv: CalculatedVariable, initial: Option<real>, ghost exempt: set<nat>)
    requires Consistent(e, exempt + {cv.id}) && e.Knows(cv)
    modifies e`st, e.all`value, e.all`state, e.cvs`stored
    ensures Consistent(e, if initial.Some? then exempt + {cv.id} else exempt)
    ensures Started(e.g, old(e.st), cv.id, initial, e.st)
    ensures initial.Some? ==> ShowsConfigured(cv, initial.value)
  {
    ghost var before := e.st;
    match initial
    case Some(x) =>
      var dv := DataValue(Some(Double(x)), OpcUaGood);
      PublishKeepsSettled(e.g, e.st, cv.id, dv, exempt + {cv.id});
      assert exempt + {cv.id} + {cv.id} == exempt + {cv.id};
      var _ := cv.SetValue(e, dv);
      ConfiguredValueIsShown(e, cv, before, x);
    case None =>
      UpdateKeepsSettled(e.g, e.st, cv.id, exempt + {cv.id});
      var _ := cv.Update(e);
  }

  /** instantiateCalculatedVariable. A new variable is computed at once and so settled, unless the
      configuration gives it an initial value, which it then publishes instead. */
  method Instantiate(e: Engine, config: CalcConfig, ghost exempt: set<nat>)
    returns (ok: bool, ghost pv: ParserVariable?)
    requires Consistent(e, exempt)
    modifies e`pvs, e`all, e`cvs, e`g, e`st, e.all`notified, e.all`value, e.all`state, e.cvs`stored
    ensures ok == config.Resolves(old(e.pvs))
    ensures ok ==> Consistent(e, if config.initialValue.Some? then exempt + {|old(e.cvs)|} else exempt)
    ensures ok ==> Instantiates(old(e.g), old(e.pvs), config, e.g)
    ensures ok ==> Started(e.g, Grown(old(e.st), 1, 1), |old(e.cvs)|, config.initialValue, e.st)
    ensures ok ==> |e.cvs| == |old(e.cvs)| + 1 && e.cvs[..|old(e.cvs)|] == old(e.cvs) && fresh(e.cvs[|old(e.cvs)|])
    ensures ok ==> pv != null && fresh(pv) && Announces(pv, config)
                   && e.pvs == old(e.pvs) + [pv] && e.all == old(e.all) + [pv]
    ensures ok && config.initialValue.Some? ==> ShowsConfigured(e.cvs[|old(e.cvs)|], config.initialValue.value)
  {
    Prepare(e, config, exempt);
    var cv: CalculatedVariable;
    ok, cv := Construct(e, config);
    if ok {
      pv := cv.notifiedVariable;
      FirstValue(e, cv, config.initialValue, exempt);
    } else {
      pv := null;
    }
  }

  /** Everything about an instantiation that is decided before it starts. */
  lemma Prepare(e: Engine, config: CalcConfig, exempt: set<nat>)
    requires Consistent(e, exempt)
    ensures Unowned(e.g, |e.cvs|)
    ensures forall h {:trigger Instantiates(e.g, e.pvs, config, h)} :: Instantiates(e.g, e.pvs, config, h) ==>
              Wf(h) && Fits(h, Grown(e.st, 1, 1)) && AllSettled(h, Grown(e.st, 1, 1), exempt + {|e.cvs|})
  {
    NewIsUnowned(e);
    if config.Resolves(e.pvs) {
      var values, statuses := Resolved(e.pvs, config.valueSymbols), Resolved(e.pvs, config.StatusSymbols());
      ResolvedAreListed(e, config.valueSymbols);
      ResolvedAreListed(e, config.StatusSymbols());
      InstantiatedReads(e.g, config.Blank(), values, statuses);
      InstantiationKeepsSettled(e.g, e.st, config.Blank(), values, statuses, exempt);
    }
  }
}
