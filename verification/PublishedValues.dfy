/** What published values mean, in the fields of the objects. */
module PublishedValues {
  import opened DataValues
  import opened CalcGraph
  import opened CalcEngine
  import opened Registration

  /** `p` holds what arrives with `dv`. */
  ghost predicate Received(p: ParserVariable, dv: DataValue)
    reads p`value, p`state
  {
    Arrived(dv, Cell(p.value, p.state))
  }

  ghost predicate AllGood(ps: seq<ParserVariable>)
    reads ps`state
  {
    forall k :: 0 <= k < |ps| ==> ps[k].state == Good
  }

  ghost function ValuesOf(ps: seq<ParserVariable>): (r: seq<real>)
    reads ps`value
    ensures |r| == |ps| && forall k :: 0 <= k < |ps| ==> r[k] == ps[k].value
  {
    if ps == [] then [] else [ps[0].value] + ValuesOf(ps[1..])
  }

  /** With every value input Good, `cv` publishes the result of its value formula, as a Boolean if it is one,
      and the verdict of its status formula. */
  ghost predicate PublishesResult(cv: CalculatedVariable)
    reads cv`valueVars, cv`statusVars, cv`stored, cv.valueVars`value, cv.statusVars`value
  {
    var v := cv.valueFormula(ValuesOf(cv.valueVars));
    var verdict := !cv.hasStatusFormula || cv.statusFormula(ValuesOf(cv.statusVars)) != 0.0;
    && cv.stored.value == Some(if cv.isBoolean then Boolean(v != 0.0) else Double(v))
    && cv.stored.status == if verdict then OpcUaGood else OpcUaBad
  }

  /** Value input `k` is the first that is not Good, and `cv` publishes no value but what that says of it. */
  ghost predicate Withholds(cv: CalculatedVariable, k: nat)
    requires k < |cv.valueVars|
    reads cv`valueVars, cv`stored, cv.valueVars`state
  {
    && cv.stored.value == Some(Empty)
    && match cv.valueVars[k].state
       case WaitingInitialData => cv.stored.status == OpcUaBadWaitingForInitialData
       case Bad => cv.stored.status == OpcUaBad
       case Good => false
  }

  /** `cv` publishes what its inputs say, and its own parser variable holds that. */
  ghost predicate UpToDate(cv: CalculatedVariable)
    reads cv`valueVars, cv`statusVars, cv`notifiedVariable, cv`stored
    reads cv.valueVars`value, cv.valueVars`state, cv.statusVars`value
    reads if cv.notifiedVariable == null then {} else {cv.notifiedVariable}
  {
    && (AllGood(cv.valueVars) ==> PublishesResult(cv))
    && (forall k :: 0 <= k < |cv.valueVars| && cv.valueVars[k].state != Good && AllGood(cv.valueVars[..k])
                    ==> Withholds(cv, k))
    && (cv.notifiedVariable != null ==> Received(cv.notifiedVariable, cv.stored))
  }

  lemma ResultOfInputs(cv: CalculatedVariable, cells: seq<Cell>)
    requires Hold(cv.valueVars, cells) && Hold(cv.statusVars, cells) && AllGood(cv.valueVars)
    requires cv.stored == Compute(CalcOf(cv), cells)
    ensures PublishesResult(cv)
  {
    PublishedWhenGood(CalcOf(cv), cells, ValuesOf(cv.valueVars), ValuesOf(cv.statusVars));
  }

  lemma WithheldByInput(cv: CalculatedVariable, cells: seq<Cell>, k: nat)
    requires Hold(cv.valueVars, cells) && Hold(cv.statusVars, cells)
    requires k < |cv.valueVars| && cv.valueVars[k].state != Good && AllGood(cv.valueVars[..k])
    requires cv.stored == Compute(CalcOf(cv), cells)
    ensures Withholds(cv, k)
  {
    assert forall j :: 0 <= j < k ==> cv.valueVars[j] == cv.valueVars[..k][j];
    PublishedWhenNotGood(CalcOf(cv), cells, k);
  }

  lemma SettledIsUpToDate(e: Engine, cv: CalculatedVariable)
    requires e.Valid() && e.Knows(cv) && Settled(e.g, e.st, cv.id)
    ensures UpToDate(cv)
  {
    e.HoldsInputs(cv);
    if AllGood(cv.valueVars) {
      ResultOfInputs(cv, e.st.cells);
    }
    forall k | 0 <= k < |cv.valueVars| && cv.valueVars[k].state != Good && AllGood(cv.valueVars[..k])
      ensures Withholds(cv, k)
    {
      WithheldByInput(cv, e.st.cells, k);
    }
    if cv.notifiedVariable != null {
      WhatArrives(cv.stored);
    }
  }

  /** In an engine in order every calculated variable publishes what its inputs say, but for those that still
      hold a configured value. */
  lemma ConsistentIsUpToDate(e: Engine, exempt: set<nat>)
    requires Consistent(e, exempt)
    ensures forall cv :: cv in e.cvs && cv.id !in exempt ==> UpToDate(cv)
  {
    forall cv | cv in e.cvs && cv.id !in exempt ensures UpToDate(cv) {
      SettledIsUpToDate(e, cv);
    }
  }

  /** What a variable without status formula that reads one number publishes where that number is `x`. */
  function Of(cv: CalculatedVariable, x: real): DataValue
  {
    var v := cv.valueFormula([x]);
    DataValue(Some(if cv.isBoolean then Boolean(v != 0.0) else Double(v)), OpcUaGood)
  }

  ghost predicate ReadsJust(cv: CalculatedVariable, p: ParserVariable)
    reads cv`valueVars
  {
    cv.valueVars == [p] && !cv.hasStatusFormula
  }

  /** `cv` publishes what its formula makes of `dv`. */
  ghost predicate Follows(cv: CalculatedVariable, dv: DataValue)
    reads cv`stored
  {
    match dv.value
    case Some(Double(d)) => cv.stored == Of(cv, d)
    case Some(Boolean(b)) => cv.stored == Of(cv, if b then 1.0 else 0.0)
    case _ => cv.stored == DataValue(Some(Empty), OpcUaBad)
  }

  /** From one published value to the next, over a parser variable that holds the one and is the only input of
      the other. */
  lemma NextPublication(p: ParserVariable, dv: DataValue, cv: CalculatedVariable)
    requires Received(p, dv) && UpToDate(cv) && ReadsJust(cv, p)
    ensures dv.status != OpcUaBadWaitingForInitialData ==> Follows(cv, dv)
    ensures dv.status == OpcUaBadWaitingForInitialData ==> cv.stored == NO_DATA
  {
    assert ValuesOf([p]) == [p.value];
    if p.state != Good {
      assert AllGood(cv.valueVars[..0]) && Withholds(cv, 0);
    }
  }

  /** A variable that reads just a Boolean one computes with 1 or 0, whatever the status formula of the Boolean
      one says. */
  lemma BooleanIsOneOrZero(e: Engine, exempt: set<nat>, a: CalculatedVariable, b: CalculatedVariable)
    requires Consistent(e, exempt) && a in e.cvs && b in e.cvs && a.id !in exempt && b.id !in exempt
    requires a.isBoolean && AllGood(a.valueVars)
    requires a.notifiedVariable != null && ReadsJust(b, a.notifiedVariable)
    ensures b.stored == Of(b, if a.valueFormula(ValuesOf(a.valueVars)) != 0.0 then 1.0 else 0.0)
  {
    ConsistentIsUpToDate(e, exempt);
    NextPublication(a.notifiedVariable, a.stored, b);
  }
}
