/** Published values of the address space and the parser-side view of them. */
module DataValues {
  datatype Option<+T> = None | Some(value: T)

  /** The state of a parser variable: only a Good one may enter a value formula. */
  datatype State = WaitingInitialData | Good | Bad

  /** The OPC UA status codes the calculated-variables engine tells apart. */
  datatype StatusCode = OpcUaGood | OpcUaBad | OpcUaBadWaitingForInitialData | OpcUaOther

  /** What a published value may hold. `Unconvertible` is anything the conversion to double refuses. */
  datatype Variant = Empty | Boolean(b: bool) | Double(d: real) | Unconvertible

  /** `value` is None where the data value carries a null variant pointer. */
  datatype DataValue = DataValue(value: Option<Variant>, status: StatusCode)

  /** Numerical value and state of one parser variable. */
  datatype Cell = Cell(value: real, state: State)

  const NO_DATA := DataValue(Some(Empty), OpcUaBadWaitingForInitialData)

  /** What a change listener stores in its parser variable when `dv` is published. */
  function Mirror(dv: DataValue): (r: Cell)
  {
    if dv.status == OpcUaBadWaitingForInitialData then Cell(0.0, WaitingInitialData)
    else match dv.value
      case None => Cell(0.0, Bad)
      case Some(Empty) => Cell(0.0, Bad)
      case Some(Unconvertible) => Cell(0.0, Bad)
      case Some(Boolean(b)) => Cell(if b then 1.0 else 0.0, Good)
      case Some(Double(d)) => Cell(d, Good)
  }

  /** One calculated variable. The formulas are arbitrary functions of the values of their inputs. */
  datatype Calc = Calc(
    valueIn: seq<nat>,
    statusIn: seq<nat>,
    isBoolean: bool,
    hasStatusFormula: bool,
    valueFormula: seq<real> -> real,
    statusFormula: seq<real> -> real,
    out: Option<nat>)
  {
    /** The parser variables either formula reads. */
    ghost predicate Reads(p: nat) { p in valueIn || p in statusIn }
  }

  /** Every number in `ins` denotes one of `n` parser variables. */
  predicate Within(ins: seq<nat>, n: nat) { forall k :: 0 <= k < |ins| ==> ins[k] < n }

  function Values(ins: seq<nat>, cells: seq<Cell>): (r: seq<real>)
    requires Within(ins, |cells|)
    ensures |r| == |ins|
    ensures forall k :: 0 <= k < |ins| ==> r[k] == cells[ins[k]].value
  {
    seq(|ins|, k requires 0 <= k < |ins| => cells[ins[k]].value)
  }

  /** The state of the first input that is not Good, in list order. */
  function FirstNotGood(ins: seq<nat>, cells: seq<Cell>): (r: Option<State>)
    requires Within(ins, |cells|)
    ensures r == None <==> forall k :: 0 <= k < |ins| ==> cells[ins[k]].state == Good
    ensures r != None ==> r.value != Good
  {
    if ins == [] then None
    else if cells[ins[0]].state != Good then Some(cells[ins[0]].state)
    else
      FirstNotGood(ins[1..], cells)
  }

  function Withheld(s: State): (r: DataValue)
  {
    DataValue(Some(Empty), if s == WaitingInitialData then OpcUaBadWaitingForInitialData else OpcUaBad)
  }

  function Evaluate(c: Calc, cells: seq<Cell>): (r: DataValue)
    requires Within(c.valueIn, |cells|)
    requires Within(c.statusIn, |cells|)
  {
    var status := if c.hasStatusFormula && c.statusFormula(Values(c.statusIn, cells)) == 0.0
                  then OpcUaBad else OpcUaGood;
    var v := c.valueFormula(Values(c.valueIn, cells));
    DataValue(Some(if c.isBoolean then Boolean(v != 0.0) else Double(v)), status)
  }

  /** What the calculated variable publishes when its inputs hold `cells`. */
  function Compute(c: Calc, cells: seq<Cell>): (r: DataValue)
    requires Within(c.valueIn, |cells|)
    requires Within(c.statusIn, |cells|)
  {
    match FirstNotGood(c.valueIn, cells)
    case Some(s) => Withheld(s)
    case None => Evaluate(c, cells)
  }

  ghost predicate Agree(ins: seq<nat>, a: seq<Cell>, b: seq<Cell>)
  {
    Within(ins, |a|) && Within(ins, |b|) && forall k :: 0 <= k < |ins| ==> a[ins[k]] == b[ins[k]]
  }

  /** A calculated variable depends on nothing but the cells of its inputs. */
  lemma ComputeReadsInputsOnly(c: Calc, a: seq<Cell>, b: seq<Cell>)
    requires Agree(c.valueIn, a, b) && Agree(c.statusIn, a, b)
    ensures Compute(c, a) == Compute(c, b)
  {
    FirstNotGoodReadsInputsOnly(c.valueIn, a, b);
    assert Values(c.valueIn, a) == Values(c.valueIn, b);
    assert Values(c.statusIn, a) == Values(c.statusIn, b);
  }

  lemma FirstNotGoodReadsInputsOnly(ins: seq<nat>, a: seq<Cell>, b: seq<Cell>)
    requires Agree(ins, a, b)
    ensures FirstNotGood(ins, a) == FirstNotGood(ins, b)
  {
    if ins != [] {
      FirstNotGoodReadsInputsOnly(ins[1..], a, b);
    }
  }

  /** The state a calculated variable shows downstream: Good exactly when every value input is Good,
      otherwise the state of the first value input that is not. The verdict of its status formula
      never reaches the variables computed from it. */
  lemma StateSeenDownstream(c: Calc, cells: seq<Cell>)
    requires Within(c.valueIn, |cells|)
    requires Within(c.statusIn, |cells|)
    ensures Mirror(Compute(c, cells)).state == Good
       <==> (forall k :: 0 <= k < |c.valueIn| ==> cells[c.valueIn[k]].state == Good)
    ensures forall k :: 0 <= k < |c.valueIn| && cells[c.valueIn[k]].state != Good
                    && (forall j :: 0 <= j < k ==> cells[c.valueIn[j]].state == Good)
                    ==> Mirror(Compute(c, cells)).state == cells[c.valueIn[k]].state
  {
    forall k | 0 <= k < |c.valueIn| && cells[c.valueIn[k]].state != Good
               && (forall j :: 0 <= j < k ==> cells[c.valueIn[j]].state == Good)
      ensures FirstNotGood(c.valueIn, cells) == Some(cells[c.valueIn[k]].state)
    {
      FirstNotGoodAt(c.valueIn, cells, k);
    }
  }

  lemma FirstNotGoodAt(ins: seq<nat>, cells: seq<Cell>, k: nat)
    requires Within(ins, |cells|)
    requires k < |ins| && cells[ins[k]].state != Good
    requires forall j :: 0 <= j < k ==> cells[ins[j]].state == Good
    ensures FirstNotGood(ins, cells) == Some(cells[ins[k]].state)
  {
    if k > 0 {
      assert cells[ins[0]].state == Good;
      FirstNotGoodAt(ins[1..], cells, k - 1);
    }
  }

  // ----- what is published, and what arrives -----

  /** With every value input Good: the value formula decides the value, the status formula the status. */
  lemma PublishedWhenGood(c: Calc, cells: seq<Cell>, values: seq<real>, statuses: seq<real>)
    requires Within(c.valueIn, |cells|) && Within(c.statusIn, |cells|)
    requires |values| == |c.valueIn| && |statuses| == |c.statusIn|
    requires forall k :: 0 <= k < |values| ==> cells[c.valueIn[k]] == Cell(values[k], Good)
    requires forall k :: 0 <= k < |statuses| ==> cells[c.statusIn[k]].value == statuses[k]
    ensures Compute(c, cells).status == OpcUaGood <==> !c.hasStatusFormula || c.statusFormula(statuses) != 0.0
    ensures Compute(c, cells).status == OpcUaBad <==> c.hasStatusFormula && c.statusFormula(statuses) == 0.0
    ensures c.isBoolean ==> Compute(c, cells).value == Some(Boolean(c.valueFormula(values) != 0.0))
    ensures !c.isBoolean ==> Compute(c, cells).value == Some(Double(c.valueFormula(values)))
  {
    assert Values(c.valueIn, cells) == values && Values(c.statusIn, cells) == statuses;
  }

  /** Otherwise nothing but a status, and the first value input that is not Good decides which. */
  lemma PublishedWhenNotGood(c: Calc, cells: seq<Cell>, k: nat)
    requires Within(c.valueIn, |cells|) && Within(c.statusIn, |cells|)
    requires k < |c.valueIn| && cells[c.valueIn[k]].state != Good
    requires forall j :: 0 <= j < k ==> cells[c.valueIn[j]].state == Good
    ensures Compute(c, cells).value == Some(Empty)
    ensures cells[c.valueIn[k]].state == WaitingInitialData
       <==> Compute(c, cells).status == OpcUaBadWaitingForInitialData
    ensures cells[c.valueIn[k]].state == Bad <==> Compute(c, cells).status == OpcUaBad
  {
    FirstNotGoodAt(c.valueIn, cells, k);
  }

  /** `x` is what arrives with `dv`: numbers as they are, Booleans as 1 or 0, and anything else as bad, unless
      the value is still to come. */
  predicate Arrived(dv: DataValue, x: Cell)
  {
    && (x.state == WaitingInitialData <==> dv.status == OpcUaBadWaitingForInitialData)
    && (dv.status != OpcUaBadWaitingForInitialData ==>
          match dv.value
          case Some(Double(d)) => x == Cell(d, Good)
          case Some(Boolean(true)) => x == Cell(1.0, Good)
          case Some(Boolean(false)) => x == Cell(0.0, Good)
          case _ => x.state == Bad)
    && (x.state != Good ==> x.value == 0.0)
  }

  lemma WhatArrives(dv: DataValue)
    ensures forall x :: Arrived(dv, x) <==> x == Mirror(dv)
  {
  }
}
