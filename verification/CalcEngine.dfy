/** The engine's objects, and the notification methods that run through them when a value changes. */
module CalcEngine {
  import opened DataValues
  import opened CalcGraph
  import opened PushTheorems
  import opened UpdatePaths

  /** A recursive mutex. What taking it means is the subject of module SyncProtocol. */
  class Synchronizer {
    constructor () {}
  }

  /** The address-space variable behind a parser variable. */
  datatype Notifier = Source(variable: SourceVariable) | Calculated(cv: CalculatedVariable)

  class SourceVariable {
    var stored: DataValue
    var listeners: seq<ParserVariable>

    constructor ()
      ensures stored == NO_DATA && listeners == []
    {
      stored, listeners := NO_DATA, [];
    }

    /** ChangeNotifyingVariable::setValue on a variable the device writes. */
    method SetValue(ghost e: Engine, dv: DataValue)
      requires e.Valid() && this in e.sources
      modifies this`stored, e`st, e.all`value, e.all`state, e.cvs`stored
      ensures e.Valid()
      ensures stored == dv
      ensures Within(Numbers(listeners), e.g.Size()) && e.st == PushAll(e.g, old(e.st), Numbers(listeners), Mirror(dv))
    {
      ghost var g, st := e.g, e.st;
      assert e.SourceTied(this);
      stored := dv;
      for k := 0 to |listeners|
        invariant e.Valid() && stored == dv
        invariant PushAll(g, st, Numbers(listeners), Mirror(dv))
               == PushAll(g, e.st, Numbers(listeners)[k..], Mirror(dv))
      {
        var _ := listeners[k].Changed(e, dv);
      }
    }
  }

  class ParserVariable {
    ghost const id: nat
    const name: string
    const notifying: Notifier
    var value: real
    var state: State
    var notified: seq<CalculatedVariable>
    var synchronizer: Synchronizer?
    var isConstant: bool

    constructor (notifying: Notifier, name: string, ghost id: nat)
      ensures this.id == id && this.name == name && this.notifying == notifying
      ensures value == 0.0 && state == WaitingInitialData && notified == []
      ensures synchronizer == null && !isConstant
    {
      this.id, this.name, this.notifying := id, name, notifying;
      value, state, notified, synchronizer, isConstant := 0.0, WaitingInitialData, [], null, false;
    }

    method Keep(ghost e: Engine, v: real, s: State)
      requires e.Valid() && e.Has(this)
      modifies e`st, this`value, this`state
      ensures e.Valid() && old(id < |e.st.cells|) && e.st == old(SetCell(e.st, id, Cell(v, s)))
    {
      value, state, e.st := v, s, SetCell(e.st, id, Cell(v, s));
    }

    /** Returns the log of the update() calls it makes. */
    method SetValue(ghost e: Engine, v: real, s: State) returns (ghost log: seq<nat>)
      requires e.Valid() && e.Has(this)
      modifies e`st, e.all`value, e.all`state, e.cvs`stored
      ensures e.Valid()
      ensures e.st == Push(e.g, old(e.st), id, Cell(v, s))
      ensures log == Updates(e.g, id)
      decreases |e.all| - id, 2
    {
      Keep(e, v, s);
      log := NotifyAll(e);
    }

    /** The notify loop. */
    method NotifyAll(ghost e: Engine) returns (ghost log: seq<nat>)
      requires e.Valid() && e.Has(this)
      modifies e`st, e.all`value, e.all`state, e.cvs`stored
      ensures e.Valid()
      ensures e.st == PushRest(e.g, old(e.st), id, 0)
      ensures log == UpdatesFrom(e.g, id, 0)
      decreases |e.all| - id, 1
    {
      ghost var g, goal, all := e.g, PushRest(e.g, e.st, id, 0), UpdatesFrom(e.g, id, 0);
      log := [];
      e.NotifiesAll(this);
      for k := 0 to |notified|
        invariant e.Valid()
        invariant Remaining(g, e.st, id, k, log, goal, all)
      {
        log := NotifyAt(e, k, log, goal, all);
      }
    }

    /** One round of the notify loop. */
    method NotifyAt(ghost e: Engine, k: nat, ghost before: seq<nat>, ghost goal: Store, ghost all: seq<nat>)
      returns (ghost log: seq<nat>)
      requires e.Valid() && e.Has(this) && k < |notified| && Remaining(e.g, e.st, id, k, before, goal, all)
      modifies e`st, e.all`value, e.all`state, e.cvs`stored
      ensures e.Valid() && Remaining(e.g, e.st, id, k + 1, log, goal, all)
      decreases |e.all| - id, 0
    {
      e.KnowsNotified(this, k);
      ghost var st := e.st;
      OneNotification(e.g, st, id, k);
      ghost var more := notified[k].Update(e);
      AfterNotification(e.g, st, id, k, before, more, goal, all);
      log := before + more;
    }

    /** The change listener bound to this parser variable. */
    method Changed(ghost e: Engine, dv: DataValue) returns (ghost log: seq<nat>)
      requires e.Valid() && e.Has(this)
      modifies e`st, e.all`value, e.all`state, e.cvs`stored
      ensures e.Valid()
      ensures e.st == Push(e.g, old(e.st), id, Mirror(dv))
      ensures Arrived(dv, Cell(value, state))
      ensures log == Updates(e.g, id)
      decreases |e.all| - id, 3
    {
      PushStays(e.g, e.st, id, Mirror(dv));
      if dv.status == OpcUaBadWaitingForInitialData {
        log := SetValue(e, 0.0, WaitingInitialData);
      } else {
        match dv.value
        case Some(Boolean(b)) => log := SetValue(e, if b then 1.0 else 0.0, Good);
        case Some(Double(d)) => log := SetValue(e, d, Good);
        case Some(Empty) => log := SetValue(e, 0.0, Bad);
        case Some(Unconvertible) => log := SetValue(e, 0.0, Bad);
        case None => log := SetValue(e, 0.0, Bad);
      }
    }
  }

  class CalculatedVariable {
    ghost const id: nat
    const isBoolean: bool
    const hasStatusFormula: bool
    const valueFormula: seq<real> -> real
    const statusFormula: seq<real> -> real
    var valueVars: seq<ParserVariable>
    var statusVars: seq<ParserVariable>
    var notifiedVariable: ParserVariable?
    var stored: DataValue
    var listeners: seq<ParserVariable>

    constructor (isBoolean: bool, hasStatusFormula: bool,
                 valueFormula: seq<real> -> real, statusFormula: seq<real> -> real, ghost id: nat)
      ensures this.id == id && this.isBoolean == isBoolean && this.hasStatusFormula == hasStatusFormula
      ensures this.valueFormula == valueFormula && this.statusFormula == statusFormula
      ensures valueVars == [] && statusVars == [] && notifiedVariable == null && listeners == [] && stored == NO_DATA
    {
      this.id, this.isBoolean, this.hasStatusFormula := id, isBoolean, hasStatusFormula;
      this.valueFormula, this.statusFormula := valueFormula, statusFormula;
      valueVars, statusVars, notifiedVariable, listeners, stored := [], [], null, [], NO_DATA;
    }

    /** The values the inputs `vars` hold, taken in list order up to the first that is not Good. */
    static method Collect(vars: seq<ParserVariable>, stopAtNotGood: bool, ghost cells: seq<Cell>)
      returns (values: seq<real>, notGood: Option<State>)
      requires Hold(vars, cells)
      ensures stopAtNotGood ==> notGood == FirstNotGood(Numbers(vars), cells)
      ensures notGood == None ==> values == Values(Numbers(vars), cells)
      ensures !stopAtNotGood ==> notGood == None
    {
      ghost var ins := Numbers(vars);
      values, notGood := [], None;
      for k := 0 to |vars|
        invariant stopAtNotGood ==> FirstNotGood(ins, cells) == FirstNotGood(ins[k..], cells)
        invariant |values| == k && forall j :: 0 <= j < k ==> values[j] == cells[ins[j]].value
      {
        if stopAtNotGood && vars[k].state != Good {
          return values, Some(vars[k].state);
        }
        values := values + [vars[k].value];
      }
    }

    /** The body of update(): decide what to publish. */
    method Result(ghost cells: seq<Cell>) returns (dv: DataValue)
      requires Hold(valueVars, cells) && Hold(statusVars, cells)
      ensures dv == Compute(CalcOf(this), cells)
    {
      var values, notGood := Collect(valueVars, true, cells);
      if notGood != None {
        return Withheld(notGood.value);
      }
      var status := OpcUaGood;
      if hasStatusFormula {
        var statusValues, _ := Collect(statusVars, false, cells);
        status := if statusFormula(statusValues) != 0.0 then OpcUaGood else OpcUaBad;
      }
      var v := valueFormula(values);
      dv := DataValue(Some(if isBoolean then Boolean(v != 0.0) else Double(v)), status);
    }

    method Update(ghost e: Engine) returns (ghost log: seq<nat>)
      requires e.Valid() && e.Knows(this)
      modifies e`st, e.all`value, e.all`state, e.cvs`stored
      ensures e.Valid()
      ensures e.st == CalcGraph.Update(e.g, old(e.st), id)
      ensures log == UpdatesOf(e.g, id)
      decreases Height(e.g, id), 5
    {
      e.HoldsInputs(this);
      var dv := Result(e.st.cells);
      UpdateIsPublish(e.g, e.st, id, dv);
      log := SetValue(e, dv);
      log := [id] + log;
    }

    method Keep(ghost e: Engine, dv: DataValue)
      requires e.Valid() && e.Knows(this)
      modifies e`st, this`stored
      ensures e.Valid() && old(id < |e.st.pubs|) && e.st == old(e.st.(pubs := e.st.pubs[id := dv]))
    {
      stored, e.st := dv, e.st.(pubs := e.st.pubs[id := dv]);
    }

    /** ChangeNotifyingVariable::setValue on a calculated variable. */
    method SetValue(ghost e: Engine, dv: DataValue) returns (ghost log: seq<nat>)
      requires e.Valid() && e.Knows(this)
      modifies e`st, e.all`value, e.all`state, e.cvs`stored
      ensures e.Valid()
      ensures e.st == Publish(e.g, old(e.st), id, dv)
      ensures log == UpdatesOf(e.g, id)[1..]
      decreases Height(e.g, id), 4
    {
      ghost var g, st := e.g, e.st;
      log := [];
      e.HoldsInputs(this);
      Keep(e, dv);
      ghost var kept := e.st;
      for k := 0 to |listeners|
        invariant e.Valid()
        invariant k == 0 ==> e.st == kept && log == []
        invariant k == 1 ==> e.st == Publish(g, st, id, dv) && log == UpdatesOf(g, id)[1..]
      {
        log := listeners[k].Changed(e, dv);
      }
    }
  }

  ghost predicate InList(all: seq<ParserVariable>, p: ParserVariable) { p.id < |all| && all[p.id] == p }

  /** The fields of a parser variable say what `g` says of it. */
  ghost predicate ParserFits(g: Graph, cvs: seq<CalculatedVariable>, sources: set<SourceVariable>, id: nat,
                             notifying: Notifier, notified: seq<CalculatedVariable>, isConstant: bool)
  {
    && id < |g.owner| && id < |g.notify| && isConstant == Constant(g, id)
    && g.notify[id] == CalcNumbers(notified)
    && (forall k :: 0 <= k < |notified| ==> notified[k].id < |cvs| && cvs[notified[k].id] == notified[k])
    && match notifying
       case Source(v) => v in sources && g.owner[id] == None
       case Calculated(cv) => cv.id < |cvs| && cvs[cv.id] == cv && g.owner[id] == Some(cv.id)
  }

  /** The fields of a calculated variable say what `g` says of it. */
  ghost predicate CalcFits(g: Graph, all: seq<ParserVariable>, id: nat, cv: Calc,
                           valueVars: seq<ParserVariable>, statusVars: seq<ParserVariable>,
                           notifiedVariable: ParserVariable?, listeners: seq<ParserVariable>)
  {
    && id < |g.calcs| && g.calcs[id] == cv
    && (forall k :: 0 <= k < |valueVars| ==> InList(all, valueVars[k]))
    && (forall k :: 0 <= k < |statusVars| ==> InList(all, statusVars[k]))
    && (notifiedVariable != null ==> InList(all, notifiedVariable))
    && listeners == (if notifiedVariable == null then [] else [notifiedVariable])
  }

  ghost predicate SourceFits(all: seq<ParserVariable>, v: SourceVariable, listeners: seq<ParserVariable>)
  {
    forall k :: 0 <= k < |listeners| ==> InList(all, listeners[k]) && listeners[k].notifying == Source(v)
  }

  class Engine {
    var pvs: seq<ParserVariable>            // the list of parser variables
    var numSynchronizers: nat
    ghost var all: seq<ParserVariable>      // every parser variable ever registered
    ghost var cvs: seq<CalculatedVariable>
    ghost var sources: set<SourceVariable>
    ghost var g: Graph                      // what the objects' references amount to
    ghost var st: Store                     // what the objects' values amount to

    constructor ()
      ensures Valid() && pvs == [] && all == [] && cvs == [] && sources == {} && numSynchronizers == 0
    {
      pvs, numSynchronizers, all, cvs, sources := [], 0, [], [], {};
      g, st := Graph([], [], [], []), Store([], []);
    }

    ghost predicate Has(p: ParserVariable)
      reads this`all
    {
      InList(all, p)
    }

    ghost predicate Knows(c: CalculatedVariable)
      reads this`cvs
    {
      c.id < |cvs| && cvs[c.id] == c
    }

    ghost predicate ParserTied(p: ParserVariable)
      reads this`cvs, this`sources, this`g, p`notified, p`isConstant
    {
      ParserFits(g, cvs, sources, p.id, p.notifying, p.notified, p.isConstant)
    }

    ghost predicate CalcTied(c: CalculatedVariable)
      reads this`all, this`g, c`valueVars, c`statusVars, c`notifiedVariable, c`listeners
    {
      CalcFits(g, all, c.id, CalcOf(c), c.valueVars, c.statusVars, c.notifiedVariable, c.listeners)
    }

    ghost predicate SourceTied(v: SourceVariable)
      reads this`all, v`listeners
    {
      SourceFits(all, v, v.listeners)
    }

    /** Every reference between the objects resolves, and `g` says where it leads. */
    ghost predicate Tied()
      reads this`pvs, this`all, this`cvs, this`sources, this`g
      reads all`notified, all`isConstant, cvs`valueVars, cvs`statusVars, cvs`notifiedVariable
      reads cvs`listeners, sources`listeners
    {
      && |g.owner| == |g.notify| == |all| && |g.calcs| == |cvs|
      && (forall i :: 0 <= i < |all| ==> all[i].id == i)
      && (forall i :: 0 <= i < |cvs| ==> cvs[i].id == i)
      && (forall i {:trigger ParserTied(all[i])} :: 0 <= i < |all| ==> ParserTied(all[i]))
      && (forall i {:trigger CalcTied(cvs[i])} :: 0 <= i < |cvs| ==> CalcTied(cvs[i]))
      && (forall k :: 0 <= k < |pvs| ==> Has(pvs[k]))
      && g.listed == Numbers(pvs)
      && (forall v {:trigger SourceTied(v)} :: v in sources ==> SourceTied(v))
    }

    ghost predicate Mirrored()
      reads this`all, this`cvs, this`st, all`value, all`state, cvs`stored
    {
      && |st.cells| == |all| && |st.pubs| == |cvs|
      && (forall i :: 0 <= i < |all| ==> st.cells[i] == Cell(all[i].value, all[i].state))
      && (forall i :: 0 <= i < |cvs| ==> st.pubs[i] == cvs[i].stored)
    }

    lemma NotifiesAll(p: ParserVariable)
      requires Valid() && Has(p)
      ensures |g.notify[p.id]| == |p.notified|
    {
      assert ParserTied(all[p.id]);
    }

    lemma KnowsNotified(p: ParserVariable, k: nat)
      requires Valid() && Has(p) && k < |p.notified|
      ensures Knows(p.notified[k]) && |g.notify[p.id]| == |p.notified| && g.notify[p.id][k] == p.notified[k].id
      ensures ParserOk(g, p.id) && CalcOk(g, p.notified[k].id)
    {
      assert ParserTied(all[p.id]);
    }

    lemma HoldsInputs(c: CalculatedVariable)
      requires Valid() && Knows(c)
      ensures Hold(c.valueVars, st.cells) && Hold(c.statusVars, st.cells)
      ensures CalcOk(g, c.id) && g.calcs[c.id] == CalcOf(c) && CalcTied(c)
    {
      assert CalcTied(cvs[c.id]);
    }

    ghost predicate Valid()
      reads this`pvs, this`all, this`cvs, this`sources, this`g, this`st
      reads all`notified, all`isConstant, cvs`valueVars, cvs`statusVars, cvs`notifiedVariable
      reads cvs`listeners, sources`listeners
      reads all`value, all`state, cvs`stored
    {
      Tied() && Wf(g) && Mirrored()
    }
  }

  lemma Associative<T>(a: seq<T>, b: seq<T>, c: seq<T>)
    ensures (a + b) + c == a + (b + c)
  {
  }

  lemma OneNotification(g: Graph, st: Store, p: nat, k: nat)
    requires Wf(g) && Fits(g, st) && p < g.Size() && k < |g.notify[p]|
    ensures ParserOk(g, p) && CalcOk(g, g.notify[p][k]) && Height(g, g.notify[p][k]) < g.Size() - p
    ensures PushRest(g, st, p, k) == PushRest(g, CalcGraph.Update(g, st, g.notify[p][k]), p, k + 1)
    ensures UpdatesFrom(g, p, k) == UpdatesOf(g, g.notify[p][k]) + UpdatesFrom(g, p, k + 1)
  {
    assert ParserOk(g, p) && CalcOk(g, g.notify[p][k]);
  }

  /** With `log` done, what is left of the notify loop from position `k` on leads to `goal` and `all`. */
  ghost predicate Remaining(g: Graph, st: Store, p: nat, k: nat, log: seq<nat>, goal: Store, all: seq<nat>)
  {
    && Wf(g) && Fits(g, st) && p < g.Size() && k <= |g.notify[p]|
    && goal == PushRest(g, st, p, k) && all == log + UpdatesFrom(g, p, k)
  }

  lemma AfterNotification(g: Graph, st: Store, p: nat, k: nat, log: seq<nat>, more: seq<nat>, goal: Store,
                          all: seq<nat>)
    requires Remaining(g, st, p, k, log, goal, all) && k < |g.notify[p]| && g.notify[p][k] < |g.calcs|
    requires more == UpdatesOf(g, g.notify[p][k])
    ensures Remaining(g, CalcGraph.Update(g, st, g.notify[p][k]), p, k + 1, log + more, goal, all)
  {
    OneNotification(g, st, p, k);
    Associative(log, more, UpdatesFrom(g, p, k + 1));
  }

  lemma UpdateIsPublish(g: Graph, st: Store, c: nat, dv: DataValue)
    requires Wf(g) && Fits(g, st) && c < |g.calcs|
    requires CalcOk(g, c) && dv == Compute(g.calcs[c], st.cells)
    ensures CalcGraph.Update(g, st, c) == Publish(g, st, c, dv)
    ensures UpdatesOf(g, c) == [c] + UpdatesOf(g, c)[1..]
  {
  }

  /** The parser variables of `vars` hold what `cells` says of them. */
  ghost predicate Hold(vars: seq<ParserVariable>, cells: seq<Cell>)
    reads vars`value, vars`state
  {
    forall k :: 0 <= k < |vars| ==> vars[k].id < |cells| && cells[vars[k].id] == Cell(vars[k].value, vars[k].state)
  }

  ghost function OwnerOf(n: Notifier): Option<nat>
  {
    match n case Source(_) => None case Calculated(cv) => Some(cv.id)
  }

  ghost function Numbers(ps: seq<ParserVariable>): (r: seq<nat>)
    ensures |r| == |ps| && forall k :: 0 <= k < |ps| ==> r[k] == ps[k].id
  {
    seq(|ps|, k requires 0 <= k < |ps| => ps[k].id)
  }

  ghost function CalcNumbers(cs: seq<CalculatedVariable>): (r: seq<nat>)
    ensures |r| == |cs| && forall k :: 0 <= k < |cs| ==> r[k] == cs[k].id
  {
    seq(|cs|, k requires 0 <= k < |cs| => cs[k].id)
  }

  ghost function CalcOf(c: CalculatedVariable): Calc
    reads c`valueVars, c`statusVars, c`notifiedVariable
  {
    Calc(Numbers(c.valueVars), Numbers(c.statusVars), c.isBoolean, c.hasStatusFormula,
         c.valueFormula, c.statusFormula,
         if c.notifiedVariable == null then None else Some(c.notifiedVariable.id))
  }
}
