/** The dollar operators of formulas as tokens: what leftmost rewriting of them comes to, and when it ends. */
module FormulaRewriting {
  import opened DataValues
  import opened Escaping
  import opened FormulaElaboration

  // ----- tokens and what each operator is replaced with -----

  /** A formula as the search for dollar expressions sees it. */
  datatype Token = Text(text: string) | Op(name: string, argument: Option<string>)

  /** What the operators of one formula refer to: the generic formulas, and the address they stand at. */
  datatype Context = Context(generics: map<string, seq<Token>>, address: string)

  /** The operator applies a generic formula that exists. */
  predicate IsGeneric(c: Context, t: Token)
  {
    t.Op? && t.name == "applyGenericFormula" && t.argument.Some? && t.argument.value in c.generics
  }

  predicate IsDigit(ch: char) { '0' <= ch <= '9' }

  function Number(digits: string): nat
    requires forall k :: 0 <= k < |digits| ==> IsDigit(digits[k])
  {
    if digits == "" then 0
    else
      assert IsDigit(digits[|digits| - 1]);
      Number(digits[..|digits| - 1]) * 10 + (digits[|digits| - 1] as int - '0' as int)
  }

  const LEVELS := "numLevelsUp="

  function ParseLevels(argument: string): Result<nat>
  {
    if !(LEVELS <= argument) || |argument| == |LEVELS|
       || exists k :: |LEVELS| <= k < |argument| && !IsDigit(argument[k])
    then Err(BadLevels)
    else if Number(argument[|LEVELS|..]) > 0x7FFF_FFFF then Err(LevelsOutOfRange)
    else
      Ok(Number(argument[|LEVELS|..]))
  }

  /** What one operator is replaced with. */
  function Replacement(c: Context, t: Token): Result<seq<Token>>
    requires t.Op?
  {
    if t.name == "_" || t.name == "thisObjectAddress" then
      if t.argument.Some? then Err(TakesNoArgument) else Ok([Text(EscapedName(c.address))])
    else if t.name == "applyGenericFormula" then
      if t.argument.None? then Err(NeedsArgument)
      else if t.argument.value !in c.generics then Err(UnknownGeneric)
      else
        Ok(c.generics[t.argument.value])
    else if t.name == "parentObjectAddress" then
      if t.argument.None? then Err(NeedsArgument)
      else match ParseLevels(t.argument.value)
           case Err(e) => Err(e)
           case Ok(levels) =>
             (match Up(c.address, levels)
              case None => Err(NotEnoughLevels)
              case Some(above) => Ok([Text(EscapedName(above))]))
    else
      Err(InvalidOperator)
  }

  // ----- the full expansion -----

  /** What a formula expands to, or the first error; None where that is out of reach. */
  type Outcome = Option<Result<seq<Token>>>

  /** The one and then the other, unless the one fails. */
  function Both(a: Outcome, b: Outcome): Outcome
  {
    if a.None? || a.value.Err? then a
    else if b.None? || b.value.Err? then b
    else Some(Ok(a.value.value + b.value.value))
  }

  predicate Succeeds(a: Outcome) { a.Some? && a.value.Ok? }

  /** The full expansion: every operator by what it stands for, expanded in turn. Generic formulas may be
      nested in each other `d` deep; None where that is not deep enough. */
  function Expanded(c: Context, ts: seq<Token>, d: nat): Outcome
    decreases d, |ts|
  {
    if ts == [] then Some(Ok([]))
    else Both(ExpandedOne(c, ts[0], d), Expanded(c, ts[1..], d))
  }

  function ExpandedOne(c: Context, t: Token, d: nat): Outcome
    decreases d, 0
  {
    if t.Text? then Some(Ok([t]))
    else if !IsGeneric(c, t) then Some(Replacement(c, t))
    else if d == 0 then None
    else Expanded(c, c.generics[t.argument.value], d - 1)
  }

  /** No generic formula need be nested deeper than there are generic formulas. */
  function Expansion(c: Context, ts: seq<Token>): Outcome { Expanded(c, ts, |c.generics.Keys|) }

  predicate AllText(ts: seq<Token>) { forall k :: 0 <= k < |ts| ==> ts[k].Text? }

  lemma {:induction false} ExpandedIsText(c: Context, ts: seq<Token>, d: nat)
    requires Succeeds(Expanded(c, ts, d))
    ensures AllText(Expanded(c, ts, d).value.value)
    decreases d, |ts|
  {
    if ts != [] {
      assert Succeeds(ExpandedOne(c, ts[0], d));
      if IsGeneric(c, ts[0]) {
        ExpandedIsText(c, c.generics[ts[0].argument.value], d - 1);
      }
      ExpandedIsText(c, ts[1..], d);
    }
  }

  lemma {:induction false} TextStays(c: Context, ts: seq<Token>, d: nat)
    requires AllText(ts)
    ensures Expanded(c, ts, d) == Some(Ok(ts))
    decreases |ts|
  {
    if ts != [] {
      TextStays(c, ts[1..], d);
      assert [ts[0]] + ts[1..] == ts;
    }
  }

  lemma {:induction false} ExpandedInParts(c: Context, a: seq<Token>, b: seq<Token>, d: nat)
    ensures Expanded(c, a + b, d) == Both(Expanded(c, a, d), Expanded(c, b, d))
    decreases |a|
  {
    if a == [] {
      assert a + b == b;
      BothWithNothing(Expanded(c, b, d));
    } else {
      assert (a + b)[1..] == a[1..] + b && (a + b)[0] == a[0];
      ExpandedInParts(c, a[1..], b, d);
      BothInAnyOrder(ExpandedOne(c, a[0], d), Expanded(c, a[1..], d), Expanded(c, b, d));
    }
  }

  lemma BothWithNothing(x: Outcome)
    ensures Both(Some(Ok([])), x) == x
    ensures Both(x, Some(Ok([]))) == x
  {
    if Succeeds(x) {
      assert [] + x.value.value == x.value.value && x.value.value + [] == x.value.value;
    }
  }

  lemma BothInAnyOrder(x: Outcome, y: Outcome, z: Outcome)
    ensures Both(Both(x, y), z) == Both(x, Both(y, z))
  {
    if Succeeds(x) && Succeeds(y) && Succeeds(z) {
      assert x.value.value + y.value.value + z.value.value == x.value.value + (y.value.value + z.value.value);
    }
  }

  lemma ExpandedAlone(c: Context, t: Token, d: nat)
    ensures Expanded(c, [t], d) == ExpandedOne(c, t, d)
  {
    assert [t][1..] == [];
    BothWithNothing(ExpandedOne(c, t, d));
  }

  lemma SplitAround(ts: seq<Token>, k: nat)
    requires k < |ts|
    ensures ts == ts[..k] + ([ts[k]] + ts[k + 1..])
  {
  }

  lemma ExpandedAround(c: Context, ts: seq<Token>, k: nat, d: nat)
    requires k < |ts|
    ensures Expanded(c, ts, d)
         == Both(Expanded(c, ts[..k], d), Both(ExpandedOne(c, ts[k], d), Expanded(c, ts[k + 1..], d)))
  {
    SplitAround(ts, k);
    ExpandedInParts(c, ts[..k], [ts[k]] + ts[k + 1..], d);
    ExpandedInParts(c, [ts[k]], ts[k + 1..], d);
    ExpandedAlone(c, ts[k], d);
  }

  /** What is within reach stays the same if more nesting is allowed. */
  lemma {:induction false} DeepEnough(c: Context, ts: seq<Token>, d: nat, e: nat)
    requires d <= e && Expanded(c, ts, d).Some?
    ensures Expanded(c, ts, e) == Expanded(c, ts, d)
    decreases d, |ts|
  {
    if ts != [] {
      if IsGeneric(c, ts[0]) {
        DeepEnough(c, c.generics[ts[0].argument.value], d - 1, e - 1);
      }
      if Succeeds(ExpandedOne(c, ts[0], d)) {
        DeepEnough(c, ts[1..], d, e);
      }
    }
  }

  // ----- one round of the loop -----

  /** The leftmost operator, or the end. */
  function FirstOperator(ts: seq<Token>): (k: nat)
    ensures k <= |ts| && AllText(ts[..k]) && (k < |ts| ==> ts[k].Op?)
  {
    if ts == [] || ts[0].Op? then 0
    else
      var k := FirstOperator(ts[1..]);
      assert ts[..k + 1] == [ts[0]] + ts[1..][..k];
      k + 1
  }

  /** `body` in the place of token `k`. */
  function Spliced(ts: seq<Token>, k: nat, body: seq<Token>): seq<Token>
    requires k < |ts|
  {
    ts[..k] + body + ts[k + 1..]
  }

  /** One replacement; None where no operator is left or its replacement is an error. */
  function Round(c: Context, ts: seq<Token>): Option<seq<Token>>
  {
    var k := FirstOperator(ts);
    if k < |ts| && Replacement(c, ts[k]).Ok? then Some(Spliced(ts, k, Replacement(c, ts[k]).value)) else None
  }

  /** What the loop returns or throws where it makes no more rounds. */
  function Verdict(c: Context, ts: seq<Token>): Result<seq<Token>>
  {
    var k := FirstOperator(ts);
    if k < |ts| then Replacement(c, ts[k]) else Ok(ts)
  }

  /** The loop makes `n` rounds at least. */
  predicate Lasts(c: Context, ts: seq<Token>, n: nat)
    decreases n
  {
    n > 0 ==> Round(c, ts).Some? && Lasts(c, Round(c, ts).value, n - 1)
  }

  lemma AtFirstOperator(c: Context, ts: seq<Token>, d: nat)
    requires FirstOperator(ts) < |ts|
    ensures var k := FirstOperator(ts);
            Expanded(c, ts, d) == Both(Some(Ok(ts[..k])), Both(ExpandedOne(c, ts[k], d), Expanded(c, ts[k + 1..], d)))
  {
    ExpandedAround(c, ts, FirstOperator(ts), d);
    TextStays(c, ts[..FirstOperator(ts)], d);
  }

  lemma AfterRound(c: Context, ts: seq<Token>, d: nat)
    requires Round(c, ts).Some?
    ensures var k := FirstOperator(ts);
            Expanded(c, Round(c, ts).value, d)
            == Both(Some(Ok(ts[..k])), Both(Expanded(c, Replacement(c, ts[k]).value, d), Expanded(c, ts[k + 1..], d)))
  {
    var k := FirstOperator(ts);
    var body := Replacement(c, ts[k]).value;
    assert Round(c, ts).value == ts[..k] + (body + ts[k + 1..]);
    TextStays(c, ts[..k], d);
    ExpandedInParts(c, ts[..k], body + ts[k + 1..], d);
    ExpandedInParts(c, body, ts[k + 1..], d);
  }

  /** Where the loop stops, it stops with the expansion. */
  lemma LastRound(c: Context, ts: seq<Token>, d: nat)
    requires Round(c, ts).None?
    ensures Expanded(c, ts, d) == Some(Verdict(c, ts))
  {
    var k := FirstOperator(ts);
    if k < |ts| {
      AtFirstOperator(c, ts, d);
    } else {
      assert ts[..k] == ts;
      TextStays(c, ts, d);
    }
  }

  /** A round changes nothing of the expansion. */
  lemma RoundKeepsExpansion(c: Context, ts: seq<Token>, d: nat)
    requires Round(c, ts).Some? && Expanded(c, ts, d).Some?
    ensures Expanded(c, Round(c, ts).value, d) == Expanded(c, ts, d)
  {
    var k := FirstOperator(ts);
    AtFirstOperator(c, ts, d);
    AfterRound(c, ts, d);
    if IsGeneric(c, ts[k]) {
      DeepEnough(c, c.generics[ts[k].argument.value], d - 1, d);
    } else {
      TextStays(c, Replacement(c, ts[k]).value, d);
    }
  }

  /** What is within reach after a round was within reach before it, one nesting deeper. */
  lemma RoundBack(c: Context, ts: seq<Token>, d: nat)
    requires Round(c, ts).Some? && Expanded(c, Round(c, ts).value, d).Some?
    ensures Expanded(c, ts, d + 1).Some?
  {
    var k := FirstOperator(ts);
    AfterRound(c, ts, d);
    AtFirstOperator(c, ts, d + 1);
    if Expanded(c, ts[k + 1..], d).Some? {
      DeepEnough(c, ts[k + 1..], d, d + 1);
    }
  }

  // ----- how many rounds there are -----

  /** How many replacements a formula still needs. */
  function Rounds(c: Context, ts: seq<Token>, d: nat): nat
    requires Expanded(c, ts, d).Some?
    decreases d, |ts|
  {
    if ts == [] then 0
    else RoundsOfOne(c, ts[0], d) + (if ExpandedOne(c, ts[0], d).value.Ok? then Rounds(c, ts[1..], d) else 0)
  }

  function RoundsOfOne(c: Context, t: Token, d: nat): nat
    requires ExpandedOne(c, t, d).Some?
    decreases d, 0
  {
    if t.Text? then 0
    else if IsGeneric(c, t) then 1 + Rounds(c, c.generics[t.argument.value], d - 1)
    else if Replacement(c, t).Ok? then 1 else 0
  }

  lemma {:induction false} RoundsInParts(c: Context, a: seq<Token>, b: seq<Token>, d: nat)
    requires Expanded(c, a, d).Some? && Expanded(c, a + b, d).Some?
    ensures Succeeds(Expanded(c, a, d)) ==> Expanded(c, b, d).Some?
    ensures Rounds(c, a + b, d) == Rounds(c, a, d) + (if Succeeds(Expanded(c, a, d)) then Rounds(c, b, d) else 0)
    decreases |a|
  {
    ExpandedInParts(c, a, b, d);
    if a == [] {
      assert a + b == b;
    } else {
      assert (a + b)[1..] == a[1..] + b && (a + b)[0] == a[0];
      if Succeeds(ExpandedOne(c, a[0], d)) {
        ExpandedInParts(c, a[1..], b, d);
        RoundsInParts(c, a[1..], b, d);
      }
    }
  }

  lemma {:induction false} RoundsDeeper(c: Context, ts: seq<Token>, d: nat, e: nat)
    requires d <= e && Expanded(c, ts, d).Some?
    ensures Expanded(c, ts, e).Some? && Rounds(c, ts, e) == Rounds(c, ts, d)
    decreases d, |ts|
  {
    DeepEnough(c, ts, d, e);
    if ts != [] {
      if IsGeneric(c, ts[0]) {
        DeepEnough(c, c.generics[ts[0].argument.value], d - 1, e - 1);
        RoundsDeeper(c, c.generics[ts[0].argument.value], d - 1, e - 1);
      }
      if Succeeds(ExpandedOne(c, ts[0], d)) {
        RoundsDeeper(c, ts[1..], d, e);
      }
    }
  }

  lemma {:induction false} TextNeedsNone(c: Context, ts: seq<Token>, d: nat)
    requires AllText(ts) && Expanded(c, ts, d).Some?
    ensures Rounds(c, ts, d) == 0
    decreases |ts|
  {
    if ts != [] {
      TextNeedsNone(c, ts[1..], d);
    }
  }

  lemma RoundsAlone(c: Context, t: Token, d: nat)
    requires ExpandedOne(c, t, d).Some?
    ensures Expanded(c, [t], d).Some? && Rounds(c, [t], d) == RoundsOfOne(c, t, d)
  {
    ExpandedAlone(c, t, d);
    assert [t][1..] == [];
  }

  /** The operator and its replacement need as many rounds, but for the one that replaces it. */
  lemma OneReplacement(c: Context, t: Token, d: nat)
    requires t.Op? && Replacement(c, t).Ok? && ExpandedOne(c, t, d).Some?
    ensures var body := Replacement(c, t).value;
            Expanded(c, body, d) == ExpandedOne(c, t, d) && Rounds(c, body, d) + 1 == RoundsOfOne(c, t, d)
  {
    var body := Replacement(c, t).value;
    if IsGeneric(c, t) {
      DeepEnough(c, body, d - 1, d);
      RoundsDeeper(c, body, d - 1, d);
    } else {
      TextStays(c, body, d);
      TextNeedsNone(c, body, d);
    }
  }

  lemma RoundsFromFirst(c: Context, a: seq<Token>, x: seq<Token>, b: seq<Token>, d: nat)
    requires AllText(a) && Expanded(c, a + (x + b), d).Some?
    ensures Expanded(c, x, d).Some? && (Succeeds(Expanded(c, x, d)) ==> Expanded(c, b, d).Some?)
    ensures Rounds(c, a + (x + b), d) == Rounds(c, x, d) + (if Succeeds(Expanded(c, x, d)) then Rounds(c, b, d) else 0)
  {
    TextStays(c, a, d);
    TextNeedsNone(c, a, d);
    ExpandedInParts(c, a, x + b, d);
    ExpandedInParts(c, x, b, d);
    RoundsInParts(c, a, x + b, d);
    RoundsInParts(c, x, b, d);
  }

  lemma AtRound(c: Context, ts: seq<Token>) returns (a: seq<Token>, t: Token, body: seq<Token>, b: seq<Token>)
    requires Round(c, ts).Some?
    ensures AllText(a) && t.Op? && Replacement(c, t) == Ok(body)
    ensures ts == a + ([t] + b) && Round(c, ts).value == a + (body + b)
  {
    var k := FirstOperator(ts);
    a, t, body, b := ts[..k], ts[k], Replacement(c, ts[k]).value, ts[k + 1..];
    SplitAround(ts, k);
    Regrouped(a, body, b);
  }

  lemma Regrouped(a: seq<Token>, b: seq<Token>, c: seq<Token>)
    ensures a + b + c == a + (b + c)
  {
  }

  lemma RoundsAround(c: Context, a: seq<Token>, t: Token, body: seq<Token>, b: seq<Token>, d: nat)
    requires AllText(a) && t.Op? && Replacement(c, t) == Ok(body)
    requires Expanded(c, a + ([t] + b), d).Some? && Expanded(c, a + (body + b), d).Some?
    ensures Rounds(c, a + (body + b), d) + 1 == Rounds(c, a + ([t] + b), d)
  {
    RoundsFromFirst(c, a, [t], b, d);
    RoundsFromFirst(c, a, body, b, d);
    ExpandedAlone(c, t, d);
    RoundsAlone(c, t, d);
    OneReplacement(c, t, d);
  }

  /** A round leaves the expansion alone, and one round less to go. */
  lemma OneRoundOfRewriting(c: Context, ts: seq<Token>, d: nat)
    requires Round(c, ts).Some? && Expanded(c, ts, d).Some?
    ensures Expanded(c, Round(c, ts).value, d) == Expanded(c, ts, d)
    ensures Rounds(c, Round(c, ts).value, d) + 1 == Rounds(c, ts, d)
  {
    RoundKeepsExpansion(c, ts, d);
    var a, t, body, b := AtRound(c, ts);
    RoundsAround(c, a, t, body, b, d);
  }

  /** Within reach, the loop makes exactly that many rounds. */
  lemma {:induction false} LastsExactly(c: Context, ts: seq<Token>, d: nat, n: nat)
    requires Expanded(c, ts, d).Some?
    ensures Lasts(c, ts, n) <==> n <= Rounds(c, ts, d)
    decreases n
  {
    if n > 0 {
      if Round(c, ts).Some? {
        OneRoundOfRewriting(c, ts, d);
        LastsExactly(c, Round(c, ts).value, d, n - 1);
      } else {
        NoRounds(c, ts, d);
      }
    }
  }

  lemma NoRounds(c: Context, ts: seq<Token>, d: nat)
    requires Round(c, ts).None? && Expanded(c, ts, d).Some?
    ensures Rounds(c, ts, d) == 0
  {
    var k := FirstOperator(ts);
    if k < |ts| {
      assert ts == ts[..k] + ([ts[k]] + ts[k + 1..]);
      AtFirstOperator(c, ts, d);
      RoundsFromFirst(c, ts[..k], [ts[k]], ts[k + 1..], d);
      RoundsAlone(c, ts[k], d);
      ExpandedAlone(c, ts[k], d);
    } else {
      assert ts[..k] == ts;
      TextNeedsNone(c, ts, d);
    }
  }

  /** A loop of fewer than `n` rounds never nests generic formulas deeper than `n`. */
  lemma {:induction false} EndingIsInReach(c: Context, ts: seq<Token>, n: nat)
    requires !Lasts(c, ts, n)
    ensures Expanded(c, ts, n).Some?
    decreases n
  {
    if Round(c, ts).Some? {
      EndingIsInReach(c, Round(c, ts).value, n - 1);
      RoundBack(c, ts, n - 1);
    } else {
      LastRound(c, ts, n);
    }
  }

  // ----- circles of generic formulas -----

  /** The loop comes to apply generic formula `f`: everything before that expands without error. */
  ghost predicate ComesTo(c: Context, ts: seq<Token>, f: string)
  {
    && f in c.generics
    && exists k :: 0 <= k < |ts| && ts[k] == Op("applyGenericFormula", Some(f)) && Succeeds(Expansion(c, ts[..k]))
  }

  /** It comes to apply `fs[0]`, within that `fs[1]`, and so on. */
  ghost predicate Chain(c: Context, ts: seq<Token>, fs: seq<string>)
    decreases |fs|
  {
    fs != [] ==> ComesTo(c, ts, fs[0]) && Chain(c, c.generics[fs[0]], fs[1..])
  }

  predicate Repeats(fs: seq<string>) { exists i, j :: 0 <= i < j < |fs| && fs[i] == fs[j] }

  /** The loop comes to apply a generic formula within itself. */
  ghost predicate Circular(c: Context, ts: seq<Token>) { exists fs :: Chain(c, ts, fs) && Repeats(fs) }

  lemma SameWithinReach(c: Context, ts: seq<Token>, d: nat, e: nat)
    requires Expanded(c, ts, d).Some? && Expanded(c, ts, e).Some?
    ensures Expanded(c, ts, d) == Expanded(c, ts, e)
  {
    DeepEnough(c, ts, if d < e then d else e, if d < e then e else d);
  }

  lemma OneDown(c: Context, ts: seq<Token>, f: string, d: nat)
    requires ComesTo(c, ts, f) && Expanded(c, ts, d).Some?
    ensures d >= 1 && Expanded(c, c.generics[f], d - 1).Some?
  {
    var k :| 0 <= k < |ts| && ts[k] == Op("applyGenericFormula", Some(f)) && Succeeds(Expansion(c, ts[..k]));
    ExpandedAround(c, ts, k, d);
    SameWithinReach(c, ts[..k], d, |c.generics.Keys|);
  }

  lemma {:induction false} ChainGoesDown(c: Context, ts: seq<Token>, fs: seq<string>, d: nat)
    requires Chain(c, ts, fs) && fs != [] && Expanded(c, ts, d).Some?
    ensures |fs| <= d && fs[|fs| - 1] in c.generics && Expanded(c, c.generics[fs[|fs| - 1]], d - |fs|).Some?
    decreases |fs|
  {
    OneDown(c, ts, fs[0], d);
    if |fs| > 1 {
      ChainGoesDown(c, c.generics[fs[0]], fs[1..], d - 1);
    }
  }

  lemma {:induction false} ChainInParts(c: Context, ts: seq<Token>, a: seq<string>, b: seq<string>)
    requires Chain(c, ts, a + b) && a != []
    ensures Chain(c, ts, a) && a[|a| - 1] in c.generics && Chain(c, c.generics[a[|a| - 1]], b)
    decreases |a|
  {
    assert (a + b)[1..] == a[1..] + b && (a + b)[0] == a[0];
    if |a| > 1 {
      ChainInParts(c, c.generics[a[0]], a[1..], b);
    } else {
      assert a[1..] + b == b;
    }
  }

  lemma {:induction false} CircleIsOutOfReach(c: Context, f: string, circle: seq<string>, d: nat)
    requires f in c.generics && Chain(c, c.generics[f], circle) && circle != [] && circle[|circle| - 1] == f
    ensures Expanded(c, c.generics[f], d).None?
    decreases d
  {
    if Expanded(c, c.generics[f], d).Some? {
      ChainGoesDown(c, c.generics[f], circle, d);
      CircleIsOutOfReach(c, f, circle, d - |circle|);
    }
  }

  lemma ChainWithCircle(c: Context, ts: seq<Token>, lead: seq<string>, circle: seq<string>, rest: seq<string>, d: nat)
    requires Chain(c, ts, lead + (circle + rest)) && lead != [] && circle != []
    requires lead[|lead| - 1] == circle[|circle| - 1]
    ensures Expanded(c, ts, d).None?
  {
    var f := lead[|lead| - 1];
    ChainInParts(c, ts, lead, circle + rest);
    ChainInParts(c, c.generics[f], circle, rest);
    if Expanded(c, ts, d).Some? {
      ChainGoesDown(c, ts, lead, d);
      CircleIsOutOfReach(c, f, circle, d - |lead|);
    }
  }

  lemma AtRepetition(fs: seq<string>) returns (lead: seq<string>, circle: seq<string>, rest: seq<string>)
    requires Repeats(fs)
    ensures fs == lead + (circle + rest) && lead != [] && circle != [] && lead[|lead| - 1] == circle[|circle| - 1]
  {
    var i, j :| 0 <= i < j < |fs| && fs[i] == fs[j];
    lead, circle, rest := fs[..i + 1], fs[i + 1..j + 1], fs[j + 1..];
  }

  lemma CircularIsOutOfReach(c: Context, ts: seq<Token>, d: nat)
    requires Circular(c, ts)
    ensures Expanded(c, ts, d).None?
  {
    var fs :| Chain(c, ts, fs) && Repeats(fs);
    var lead, circle, rest := AtRepetition(fs);
    ChainWithCircle(c, ts, lead, circle, rest, d);
  }

  /** The first token that is out of reach. */
  lemma {:induction false} FirstOutOfReach(c: Context, ts: seq<Token>, d: nat) returns (k: nat)
    requires Expanded(c, ts, d).None?
    ensures k < |ts| && Succeeds(Expanded(c, ts[..k], d)) && ExpandedOne(c, ts[k], d).None?
    decreases |ts|
  {
    if ExpandedOne(c, ts[0], d).None? {
      k := 0;
    } else {
      var m := FirstOutOfReach(c, ts[1..], d);
      k := m + 1;
      assert ts[..k] == [ts[0]] + ts[1..][..m];
      ExpandedInParts(c, [ts[0]], ts[1..][..m], d);
      ExpandedAlone(c, ts[0], d);
    }
  }

  lemma {:induction false} OutOfReachHasChain(c: Context, ts: seq<Token>, d: nat) returns (fs: seq<string>)
    requires Expanded(c, ts, d).None? && d <= |c.generics.Keys|
    ensures Chain(c, ts, fs) && |fs| == d + 1
    decreases d
  {
    var k := FirstOutOfReach(c, ts, d);
    var f := ts[k].argument.value;
    DeepEnough(c, ts[..k], d, |c.generics.Keys|);
    assert ComesTo(c, ts, f);
    var rest := [];
    if d > 0 {
      rest := OutOfReachHasChain(c, c.generics[f], d - 1);
    }
    fs := [f] + rest;
    assert fs[1..] == rest;
  }

  lemma {:induction false} ChainIsKnown(c: Context, ts: seq<Token>, fs: seq<string>)
    requires Chain(c, ts, fs)
    ensures forall i :: 0 <= i < |fs| ==> fs[i] in c.generics.Keys
    decreases |fs|
  {
    if fs != [] {
      ChainIsKnown(c, c.generics[fs[0]], fs[1..]);
      assert forall i :: 1 <= i < |fs| ==> fs[i] == fs[1..][i - 1];
    }
  }

  lemma {:induction false} TooManyRepeat(fs: seq<string>, names: set<string>)
    requires (forall i :: 0 <= i < |fs| ==> fs[i] in names) && |fs| > |names|
    ensures Repeats(fs)
    decreases |fs|
  {
    if i :| 1 <= i < |fs| && fs[i] == fs[0] {
      assert 0 < i && fs[0] == fs[i];
    } else {
      TooManyRepeat(fs[1..], names - {fs[0]});
      var i, j :| 0 <= i < j < |fs[1..]| && fs[1..][i] == fs[1..][j];
      assert fs[i + 1] == fs[j + 1];
    }
  }

  /** The expansion is within reach exactly when no generic formula comes to be applied within itself. */
  lemma InReachExactlyWhenNotCircular(c: Context, ts: seq<Token>)
    ensures Expansion(c, ts).Some? <==> !Circular(c, ts)
  {
    if Circular(c, ts) {
      CircularIsOutOfReach(c, ts, |c.generics.Keys|);
    }
    if Expansion(c, ts).None? {
      var fs := OutOfReachHasChain(c, ts, |c.generics.Keys|);
      ChainIsKnown(c, ts, fs);
      TooManyRepeat(fs, c.generics.Keys);
    }
  }

  /** The rewriting loop ends exactly when no generic formula comes to be applied within itself; else it
      goes on forever. */
  lemma EndsExactlyWhenNotCircular(c: Context, ts: seq<Token>)
    ensures (exists n: nat :: !Lasts(c, ts, n)) <==> !Circular(c, ts)
  {
    InReachExactlyWhenNotCircular(c, ts);
    if n: nat :| !Lasts(c, ts, n) {
      EndingIsInReach(c, ts, n);
      if Circular(c, ts) {
        CircularIsOutOfReach(c, ts, n);
      }
    }
    if !Circular(c, ts) {
      LastsExactly(c, ts, |c.generics.Keys|, Rounds(c, ts, |c.generics.Keys|) + 1);
    }
  }

  /** The smallest circle: a generic formula that applies itself. */
  lemma {:induction false} SelfReferenceNeverEnds(c: Context, f: string, n: nat)
    requires f in c.generics && c.generics[f] == [Op("applyGenericFormula", Some(f))]
    ensures Lasts(c, c.generics[f], n)
    decreases n
  {
    var ts := c.generics[f];
    assert FirstOperator(ts) == 0 && Replacement(c, ts[0]) == Ok(ts);
    assert ts[..0] + ts + ts[1..] == ts;
    if n > 0 {
      SelfReferenceNeverEnds(c, f, n - 1);
    }
  }

  // ----- formulas whose operators are all sound -----

  /** No operator of the tokens is replaced by an error. */
  predicate Sound(c: Context, ts: seq<Token>)
  {
    forall k :: 0 <= k < |ts| && ts[k].Op? ==> Replacement(c, ts[k]).Ok?
  }

  predicate AllSound(c: Context) { forall f :: f in c.generics ==> Sound(c, c.generics[f]) }

  /** The tokens apply generic formula `fs[0]`, that applies `fs[1]`, and so on, at whatever place. */
  predicate Applies(c: Context, ts: seq<Token>, fs: seq<string>)
    decreases |fs|
  {
    fs != [] ==>
      && fs[0] in c.generics && Op("applyGenericFormula", Some(fs[0])) in ts
      && Applies(c, c.generics[fs[0]], fs[1..])
  }

  lemma {:induction false} SoundIsInReach(c: Context, ts: seq<Token>, d: nat)
    requires Sound(c, ts) && AllSound(c) && Expanded(c, ts, d).Some?
    ensures Succeeds(Expanded(c, ts, d))
    ensures forall k :: 0 <= k < |ts| ==> ExpandedOne(c, ts[k], d).Some?
    decreases d, |ts|
  {
    if ts != [] {
      if IsGeneric(c, ts[0]) {
        SoundIsInReach(c, c.generics[ts[0].argument.value], d - 1);
      }
      SoundIsInReach(c, ts[1..], d);
      assert forall k :: 1 <= k < |ts| ==> ts[k] == ts[1..][k - 1];
    }
  }

  /** Within reach, whatever a sound formula applies is come to. */
  lemma {:induction false} AppliedIsComeTo(c: Context, ts: seq<Token>, fs: seq<string>)
    requires Sound(c, ts) && AllSound(c) && Applies(c, ts, fs) && Expansion(c, ts).Some?
    ensures Chain(c, ts, fs)
    decreases |fs|
  {
    if fs != [] {
      FirstIsComeTo(c, ts, fs[0]);
      AppliedIsComeTo(c, c.generics[fs[0]], fs[1..]);
    }
  }

  lemma FirstIsComeTo(c: Context, ts: seq<Token>, f: string)
    requires Sound(c, ts) && AllSound(c) && Expansion(c, ts).Some?
    requires f in c.generics && Op("applyGenericFormula", Some(f)) in ts
    ensures ComesTo(c, ts, f) && Expansion(c, c.generics[f]).Some?
  {
    var n := |c.generics.Keys|;
    var k :| 0 <= k < |ts| && ts[k] == Op("applyGenericFormula", Some(f));
    SoundIsInReach(c, ts, n);
    ExpandedAround(c, ts, k, n);
    assert ExpandedOne(c, ts[k], n).Some?;
    DeepEnough(c, c.generics[f], n - 1, n);
  }

  lemma {:induction false} ChainApplies(c: Context, ts: seq<Token>, fs: seq<string>)
    requires Chain(c, ts, fs)
    ensures Applies(c, ts, fs)
    decreases |fs|
  {
    if fs != [] {
      ChainApplies(c, c.generics[fs[0]], fs[1..]);
    }
  }

  /** Where no operator errs, the order of the operators does not matter: the loop goes on forever exactly
      when the formula leads to a generic formula that leads to itself. */
  lemma SoundEndsExactlyWithoutCircle(c: Context, ts: seq<Token>)
    requires Sound(c, ts) && AllSound(c)
    ensures (forall n: nat :: Lasts(c, ts, n)) <==> exists fs :: Applies(c, ts, fs) && Repeats(fs)
  {
    EndsExactlyWhenNotCircular(c, ts);
    InReachExactlyWhenNotCircular(c, ts);
    if Circular(c, ts) {
      var fs :| Chain(c, ts, fs) && Repeats(fs);
      ChainApplies(c, ts, fs);
    } else if fs :| Applies(c, ts, fs) && Repeats(fs) {
      AppliedIsComeTo(c, ts, fs);
    }
  }
}
