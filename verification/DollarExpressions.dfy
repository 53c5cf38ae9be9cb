/** The rewriting loop on the text of a formula: a search for the first dollar expression, its
    replacement, and the search from the start again. */
module DollarExpressions {
  import opened DataValues
  import opened Escaping
  import opened FormulaElaboration
  import opened FormulaRewriting

  // ----- the search -----

  predicate IsWord(ch: char) { 'A' <= ch <= 'Z' || 'a' <= ch <= 'z' || '0' <= ch <= '9' || ch == '_' }

  /** What may stand between the parentheses of an argument. */
  predicate IsArgument(ch: char) { ch != ' ' && ch != '\r' && ch != '\n' && ch != '\t' && ch != '(' && ch != ')' }

  /** The end of the longest run of characters with property `f` from position `i` on. */
  function RunEnd(s: string, i: nat, f: char -> bool): (r: nat)
    requires i <= |s|
    ensures i <= r <= |s| && (forall k :: i <= k < r ==> f(s[k])) && (r < |s| ==> !f(s[r]))
    decreases |s| - i
  {
    if i < |s| && f(s[i]) then RunEnd(s, i + 1, f) else i
  }

  lemma {:induction false} RunEndAt(s: string, i: nat, f: char -> bool, j: nat)
    requires i <= j <= |s| && (forall k :: i <= k < j ==> f(s[k])) && (j < |s| ==> !f(s[j]))
    ensures RunEnd(s, i, f) == j
    decreases j - i
  {
    if i < j {
      RunEndAt(s, i + 1, f, j);
    }
  }

  /** A dollar expression: the operator, the argument if there is one, and the position after it. */
  datatype Found = Found(name: string, argument: Option<string>, end: nat)

  /** The match of $name or $name(argument) that begins at position `i`. */
  function MatchAt(s: string, i: nat): (r: Option<Found>)
    requires i <= |s|
    ensures r.Some? ==> i < r.value.end <= |s|
  {
    if i == |s| || s[i] != '$' then None
    else
      var j := RunEnd(s, i + 1, IsWord);
      if j == i + 1 then None
      else if j < |s| && s[j] == '(' then
        var k := RunEnd(s, j + 1, IsArgument);
        if k > j + 1 && k < |s| && s[k] == ')' then Some(Found(s[i + 1..j], Some(s[j + 1..k]), k + 1))
        else Some(Found(s[i + 1..j], None, j))
      else
        Some(Found(s[i + 1..j], None, j))
  }

  /** regex_search: the leftmost match, or the end of the text. */
  method Search(s: string) returns (pos: nat, found: Option<Found>)
    ensures Searched(s, pos, found)
  {
    pos := 0;
    while pos < |s| && MatchAt(s, pos) == None
      invariant pos <= |s| && forall i: nat :: i < pos ==> MatchAt(s, i) == None
    {
      pos := pos + 1;
    }
    found := MatchAt(s, pos);
  }

  // ----- texts and the tokens they stand for -----

  function Source(t: Token): string
  {
    match t
    case Text(text) => text
    case Op(name, argument) => "$" + name + (match argument case None => "" case Some(a) => "(" + a + ")")
  }

  function Written(ts: seq<Token>): string
  {
    if ts == [] then "" else Source(ts[0]) + Written(ts[1..])
  }

  predicate All(s: string, f: char -> bool) { forall k :: 0 <= k < |s| ==> f(s[k]) }

  predicate TokenOk(t: Token)
  {
    match t
    case Text(text) => '$' !in text
    case Op(name, argument) =>
      name != "" && All(name, IsWord) && (argument.Some? ==> argument.value != "" && All(argument.value, IsArgument))
  }

  /** Text that does not continue an operator standing before it. */
  predicate Apart(s: string) { s == "" || (!IsWord(s[0]) && s[0] != '(') }

  predicate Bare(t: Token) { t.Op? && t.argument.None? }

  lemma {:induction false} WrittenInParts(a: seq<Token>, b: seq<Token>)
    ensures Written(a + b) == Written(a) + Written(b)
  {
    if a == [] {
      assert a + b == b && "" + Written(b) == Written(b);
    } else {
      assert (a + b)[1..] == a[1..] + b;
      WrittenInParts(a[1..], b);
    }
  }

  lemma {:induction false} TextHasNoDollar(ts: seq<Token>)
    requires AllText(ts) && forall k :: 0 <= k < |ts| ==> TokenOk(ts[k])
    ensures '$' !in Written(ts)
  {
    if ts != [] {
      TextHasNoDollar(ts[1..]);
    }
  }

  lemma BareMatch(s: string, i: nat, j: nat)
    requires i + 1 < j <= |s| && s[i] == '$' && (forall k :: i + 1 <= k < j ==> IsWord(s[k]))
    requires j < |s| ==> !IsWord(s[j]) && s[j] != '('
    ensures MatchAt(s, i) == Some(Found(s[i + 1..j], None, j))
  {
    RunEndAt(s, i + 1, IsWord, j);
  }

  lemma ArgumentMatch(s: string, i: nat, j: nat, m: nat)
    requires i + 1 < j && j + 1 < m < |s| && s[i] == '$' && (forall k :: i + 1 <= k < j ==> IsWord(s[k]))
    requires s[j] == '(' && s[m] == ')' && (forall k :: j + 1 <= k < m ==> IsArgument(s[k]))
    ensures MatchAt(s, i) == Some(Found(s[i + 1..j], Some(s[j + 1..m]), m + 1))
  {
    RunEndAt(s, i + 1, IsWord, j);
    RunEndAt(s, j + 1, IsArgument, m);
  }

  /** An argument in parentheses stands between positions `j` and `m`. */
  predicate Enclosed(s: string, j: nat, m: nat)
  {
    j + 1 < m < |s| && s[j] == '(' && s[m] == ')' && forall k :: j < k < m ==> IsArgument(s[k])
  }

  /** A dollar sign at `i` and a name that ends at `j`. */
  predicate Named(s: string, i: nat, j: nat)
  {
    && i + 1 < j <= |s| && s[i] == '$' && (forall k :: i < k < j ==> IsWord(s[k]))
    && (j < |s| ==> !IsWord(s[j]))
  }

  /** A dollar sign begins an operator wherever a name follows, and the longest one counts. Parentheses that
      enclose an argument belong to it, any others do not. */
  lemma MatchSpelledOut(s: string, i: nat, j: nat)
    requires Named(s, i, j)
    ensures forall m: nat :: Enclosed(s, j, m) ==> MatchAt(s, i) == Some(Found(s[i + 1..j], Some(s[j + 1..m]), m + 1))
    ensures (forall m: nat :: !Enclosed(s, j, m)) ==> MatchAt(s, i) == Some(Found(s[i + 1..j], None, j))
  {
    RunEndAt(s, i + 1, IsWord, j);
    forall m: nat | Enclosed(s, j, m) ensures MatchAt(s, i) == Some(Found(s[i + 1..j], Some(s[j + 1..m]), m + 1)) {
      ArgumentMatch(s, i, j, m);
    }
    if forall m: nat :: !Enclosed(s, j, m) {
      assert j < |s| && s[j] == '(' ==> !Enclosed(s, j, RunEnd(s, j + 1, IsArgument));
    }
  }

  lemma MatchNeedsName(s: string, i: nat)
    requires i <= |s|
    ensures MatchAt(s, i) != None <==> exists j: nat :: Named(s, i, j)
  {
    if MatchAt(s, i) != None {
      assert Named(s, i, RunEnd(s, i + 1, IsWord));
    }
    if j: nat :| Named(s, i, j) {
      MatchSpelledOut(s, i, j);
      RunEndAt(s, i + 1, IsWord, j);
    }
  }

  lemma Middle(a: string, b: string, c: string, f: char -> bool)
    requires All(b, f)
    ensures (a + b + c)[|a|..|a| + |b|] == b && forall k :: |a| <= k < |a| + |b| ==> f((a + b + c)[k])
  {
    assert forall k :: |a| <= k < |a| + |b| ==> (a + b + c)[k] == b[k - |a|];
  }

  lemma BareOperator(before: string, name: string, after: string)
    requires name != "" && All(name, IsWord) && Apart(after)
    ensures MatchAt(before + "$" + name + after, |before|) == Some(Found(name, None, |before| + 1 + |name|))
  {
    var s := before + "$" + name + after;
    Middle(before + "$", name, after, IsWord);
    assert |before + "$" + name| < |s| ==> s[|before + "$" + name|] == after[0];
    BareMatch(s, |before|, |before| + 1 + |name|);
  }

  lemma InParentheses(a: string, after: string, rest: string)
    requires rest == "(" + a + ")" + after
    ensures |rest| >= |a| + 2 && rest[0] == '(' && rest[1..1 + |a|] == a && rest[1 + |a|] == ')'
  {
  }

  lemma AfterName(before: string, name: string, rest: string, s: string)
    requires s == before + "$" + name + rest
    ensures |s| == |before| + 1 + |name| + |rest| && s[|before|] == '$'
    ensures s[|before| + 1..|before| + 1 + |name|] == name && s[|before| + 1 + |name|..] == rest
  {
  }

  /** The operator begins at position `i`, what follows its name at `j`. */
  lemma OperatorAt(s: string, i: nat, j: nat, name: string, a: string, rest: string)
    requires name != "" && All(name, IsWord) && a != "" && All(a, IsArgument)
    requires j == i + 1 + |name| && j <= |s| && s[i] == '$' && s[i + 1..j] == name && s[j..] == rest
    requires |rest| >= |a| + 2 && rest[0] == '(' && rest[1..1 + |a|] == a && rest[1 + |a|] == ')'
    ensures MatchAt(s, i) == Some(Found(name, Some(a), j + |a| + 2))
  {
    var m := j + 1 + |a|;
    assert s[j] == rest[0] && s[m] == rest[1 + |a|] && s[j + 1..m] == rest[1..1 + |a|];
    assert forall k :: i + 1 <= k < j ==> s[k] == name[k - i - 1];
    assert forall k :: j + 1 <= k < m ==> s[k] == a[k - j - 1];
    ArgumentMatch(s, i, j, m);
  }

  lemma OperatorWithArgument(before: string, name: string, a: string, after: string, rest: string, s: string)
    requires name != "" && All(name, IsWord) && a != "" && All(a, IsArgument)
    requires rest == "(" + a + ")" + after && s == before + "$" + name + rest
    ensures MatchAt(s, |before|) == Some(Found(name, Some(a), |before| + 3 + |name| + |a|))
  {
    InParentheses(a, after, rest);
    AfterName(before, name, rest, s);
    OperatorAt(s, |before|, |before| + 1 + |name|, name, a, rest);
  }

  /** In the text of separate tokens the search finds the first operator. */
  lemma MatchesOperator(before: string, t: Token, after: string)
    requires TokenOk(t) && t.Op? && (Bare(t) ==> Apart(after))
    ensures MatchAt(before + Source(t) + after, |before|) == Some(Found(t.name, t.argument, |before + Source(t)|))
  {
    if t.argument.Some? {
      var rest := "(" + t.argument.value + ")" + after;
      OperatorWithArgument(before, t.name, t.argument.value, after, rest, before + "$" + t.name + rest);
      Regroup(before, t.name, "(" + t.argument.value + ")", after);
    } else {
      BareOperator(before, t.name, after);
      Regroup(before, t.name, "", after);
    }
  }

  lemma Regroup(before: string, name: string, a: string, after: string)
    ensures before + ("$" + name + a) + after == before + "$" + name + (a + after)
    ensures "" + after == after
  {
  }

  lemma Grouped(a: string, b: string, c: string)
    ensures a + b + c == a + (b + c)
  {
  }

  lemma SplitAtToken(ts: seq<Token>, k: nat)
    requires k < |ts|
    ensures Written(ts) == Written(ts[..k]) + (Source(ts[k]) + Written(ts[k + 1..]))
  {
    SplitAround(ts, k);
    WrittenInParts(ts[..k], [ts[k]] + ts[k + 1..]);
    assert ([ts[k]] + ts[k + 1..])[1..] == ts[k + 1..];
  }

  lemma NoMatchBefore(before: string, after: string)
    requires '$' !in before
    ensures forall i: nat :: i < |before| ==> MatchAt(before + after, i) == None
  {
    forall i: nat | i < |before| ensures MatchAt(before + after, i) == None {
      assert (before + after)[i] == before[i] && before[i] in before;
    }
  }

  /** The first operator can be told from the text around it. */
  predicate StandsOut(ts: seq<Token>)
  {
    var k := FirstOperator(ts);
    && (forall j :: 0 <= j < |ts| && j <= k ==> TokenOk(ts[j]))
    && (k < |ts| && Bare(ts[k]) ==> Apart(Written(ts[k + 1..])))
  }

  /** Where the first operator stands. */
  lemma OperatorInText(ts: seq<Token>)
    requires StandsOut(ts) && FirstOperator(ts) < |ts|
    ensures var k := FirstOperator(ts);
            && |Written(ts[..k])| <= |Written(ts)|
            && MatchAt(Written(ts), |Written(ts[..k])|)
               == Some(Found(ts[k].name, ts[k].argument, |Written(ts[..k]) + Source(ts[k])|))
            && forall i: nat :: i < |Written(ts[..k])| ==> MatchAt(Written(ts), i) == None
  {
    var k := FirstOperator(ts);
    var before, after := Written(ts[..k]), Written(ts[k + 1..]);
    SplitAtToken(ts, k);
    Grouped(before, Source(ts[k]), after);
    MatchesOperator(before, ts[k], after);
    TextHasNoDollar(ts[..k]);
    NoMatchBefore(before, Source(ts[k]) + after);
  }

  /** The search ended at `pos` with `found`. */
  ghost predicate Searched(s: string, pos: nat, found: Option<Found>)
  {
    && pos <= |s| && found == MatchAt(s, pos) && (found == None ==> pos == |s|)
    && forall i: nat :: i < pos ==> MatchAt(s, i) == None
  }

  /** What the search finds in the text is the first operator among the tokens. */
  lemma FoundIsFirst(ts: seq<Token>, pos: nat, found: Option<Found>)
    requires StandsOut(ts) && Searched(Written(ts), pos, found)
    ensures found == None <==> FirstOperator(ts) == |ts|
    ensures var k := FirstOperator(ts);
            k < |ts| ==> && pos == |Written(ts[..k])|
                         && found == Some(Found(ts[k].name, ts[k].argument, |Written(ts[..k]) + Source(ts[k])|))
  {
    var k := FirstOperator(ts);
    if k < |ts| {
      OperatorInText(ts);
    } else {
      assert ts[..k] == ts;
      TextHasNoDollar(ts);
      NoMatchBefore(Written(ts), "");
      assert Written(ts) + "" == Written(ts);
    }
  }

  // ----- what one dollar expression is replaced with -----

  /** The texts of the generic formulas and their tokens, and the address. */
  ghost predicate Describes(c: Context, generics: map<string, string>, address: string)
  {
    && c.address == address && '$' !in address && c.generics.Keys == generics.Keys
    && forall f :: f in generics ==> Written(c.generics[f]) == generics[f]
  }

  ghost predicate SameResult(r: Result<string>, ts: Result<seq<Token>>)
  {
    match ts
    case Err(e) => r == Err(e)
    case Ok(body) => r == Ok(Written(body))
  }

  lemma {:induction false} EscapedKeepsDollarOut(name: string)
    requires '$' !in name
    ensures '$' !in EscapedName(name)
  {
    EscapedIsCoded(name);
    if name != "" {
      EscapedKeepsDollarOut(name[1..]);
      EscapedIsCoded(name[1..]);
    }
  }

  lemma OneText(text: string)
    ensures Written([Text(text)]) == text
  {
    assert [Text(text)][1..] == [] && text + "" == text;
  }

  /** What the expression is replaced with, or the error. */
  method Replace(generics: map<string, string>, address: string, f: Found, ghost c: Context) returns (r: Result<string>)
    requires Describes(c, generics, address)
    ensures SameResult(r, Replacement(c, Op(f.name, f.argument)))
  {
    if f.name == "_" || f.name == "thisObjectAddress" {
      if f.argument.Some? {
        return Err(TakesNoArgument);
      }
      var escaped := EscapeSpecialCharactersInParserVariableName(address);
      OneText(escaped);
      r := Ok(escaped);
    } else if f.name == "applyGenericFormula" {
      if f.argument.None? {
        return Err(NeedsArgument);
      }
      if f.argument.value !in generics {
        return Err(UnknownGeneric);
      }
      r := Ok(generics[f.argument.value]);
    } else if f.name == "parentObjectAddress" {
      if f.argument.None? {
        return Err(NeedsArgument);
      }
      var levels := ParseLevels(f.argument.value);
      if levels.Err? {
        return Err(levels.error);
      }
      var parent := ElaborateParent(address, levels.value);
      if parent.Err? {
        return Err(parent.error);
      }
      var escaped := EscapeSpecialCharactersInParserVariableName(parent.value);
      OneText(escaped);
      r := Ok(escaped);
    } else {
      r := Err(InvalidOperator);
    }
  }

  lemma CutAtToken(ts: seq<Token>, k: nat)
    requires k < |ts|
    ensures var pos, end := |Written(ts[..k])|, |Written(ts[..k]) + Source(ts[k])|;
            && pos <= end <= |Written(ts)|
            && Written(ts)[..pos] == Written(ts[..k]) && Written(ts)[end..] == Written(ts[k + 1..])
  {
    SplitAtToken(ts, k);
    CutTwice(Written(ts), Written(ts[..k]), Source(ts[k]), Written(ts[k + 1..]));
  }

  lemma CutTwice(s: string, a: string, b: string, c: string)
    requires s == a + (b + c)
    ensures |a| <= |a + b| <= |s| && s[..|a|] == a && s[|a + b|..] == c
  {
    assert s[|a + b|..] == (b + c)[|b|..] == c;
  }

  // ----- texts whose dollar expressions can be told apart, wherever the loop gets to -----

  /** Followed by `after`, and with generic formulas nested in each other up to `d` deep: each operator the
      loop comes to can be told from what stands around it at that moment. */
  ghost predicate LegibleTo(c: Context, ts: seq<Token>, after: string, d: nat)
    decreases d, |ts|
  {
    ts != [] ==>
      && TokenOk(ts[0])
      && (Bare(ts[0]) ==> Apart(Written(ts[1..]) + after))
      && (IsGeneric(c, ts[0]) && d > 0 ==>
            LegibleTo(c, c.generics[ts[0].argument.value], Written(ts[1..]) + after, d - 1))
      && (Succeeds(ExpandedOne(c, ts[0], d)) ==> LegibleTo(c, ts[1..], after, d))
  }

  ghost predicate Legible(c: Context, ts: seq<Token>) { forall d: nat :: LegibleTo(c, ts, "", d) }

  lemma {:induction false} LegibleLessDeep(c: Context, ts: seq<Token>, after: string, d: nat, e: nat)
    requires e <= d && LegibleTo(c, ts, after, d)
    ensures LegibleTo(c, ts, after, e)
    decreases e, |ts|
  {
    if ts != [] {
      if IsGeneric(c, ts[0]) && e > 0 {
        LegibleLessDeep(c, c.generics[ts[0].argument.value], Written(ts[1..]) + after, d - 1, e - 1);
      }
      if Succeeds(ExpandedOne(c, ts[0], e)) {
        ExpandedAlone(c, ts[0], e);
        ExpandedAlone(c, ts[0], d);
        DeepEnough(c, [ts[0]], e, d);
        LegibleLessDeep(c, ts[1..], after, d, e);
      }
    }
  }

  lemma {:induction false} LegibleAfterText(c: Context, a: seq<Token>, b: seq<Token>, after: string, d: nat)
    requires AllText(a)
    ensures LegibleTo(c, a + b, after, d)
       <==> (forall k :: 0 <= k < |a| ==> TokenOk(a[k])) && LegibleTo(c, b, after, d)
    decreases |a|
  {
    if a == [] {
      assert a + b == b;
    } else {
      assert (a + b)[0] == a[0] && (a + b)[1..] == a[1..] + b;
      LegibleAfterText(c, a[1..], b, after, d);
      assert forall k :: 1 <= k < |a| ==> a[k] == a[1..][k - 1];
    }
  }

  lemma {:induction false} LegibleInSequence(c: Context, a: seq<Token>, b: seq<Token>, after: string, d: nat)
    requires LegibleTo(c, a, Written(b) + after, d)
    requires Succeeds(Expanded(c, a, d)) ==> LegibleTo(c, b, after, d)
    ensures LegibleTo(c, a + b, after, d)
    decreases |a|
  {
    if a == [] {
      assert a + b == b;
    } else {
      assert (a + b)[0] == a[0] && (a + b)[1..] == a[1..] + b;
      WrittenInParts(a[1..], b);
      Grouped(Written(a[1..]), Written(b), after);
      if Succeeds(ExpandedOne(c, a[0], d)) {
        LegibleInSequence(c, a[1..], b, after, d);
      }
    }
  }

  lemma LegibleStandsOut(c: Context, ts: seq<Token>, d: nat)
    requires LegibleTo(c, ts, "", d)
    ensures StandsOut(ts)
  {
    var k := FirstOperator(ts);
    assert ts == ts[..k] + ts[k..];
    LegibleAfterText(c, ts[..k], ts[k..], "", d);
    assert forall j :: 0 <= j < k ==> ts[j] == ts[..k][j];
    if k < |ts| {
      assert ts[k..][1..] == ts[k + 1..] && Written(ts[k + 1..]) + "" == Written(ts[k + 1..]);
    }
  }

  /** What is put in for an address is one text. */
  lemma AddressIsText(c: Context, t: Token, body: seq<Token>)
    requires '$' !in c.address && t.Op? && !IsGeneric(c, t) && Replacement(c, t) == Ok(body)
    ensures |body| == 1 && body[0].Text? && TokenOk(body[0])
  {
    EscapedKeepsDollarOut(c.address);
    if t.name == "parentObjectAddress" {
      var levels := ParseLevels(t.argument.value).value;
      LevelsAreDots(c.address, levels);
      EscapedKeepsDollarOut(Up(c.address, levels).value);
    }
  }

  lemma BodyIsLegible(c: Context, t: Token, body: seq<Token>, b: seq<Token>, d: nat)
    requires '$' !in c.address && t.Op? && Replacement(c, t) == Ok(body) && LegibleTo(c, [t] + b, "", d + 1)
    ensures LegibleTo(c, body + b, "", d)
  {
    assert ([t] + b)[0] == t && ([t] + b)[1..] == b;
    if !IsGeneric(c, t) {
      AddressIsText(c, t, body);
    }
    if Succeeds(Expanded(c, body, d)) {
      LegibleLessDeep(c, b, "", d + 1, d);
    }
    LegibleInSequence(c, body, b, "", d);
  }

  /** Text put in place never joins with what stands around it to another dollar expression. */
  lemma StaysLegible(c: Context, ts: seq<Token>)
    requires '$' !in c.address && Legible(c, ts) && Round(c, ts).Some?
    ensures Legible(c, Round(c, ts).value)
  {
    var a, t, body, b := AtRound(c, ts);
    forall d: nat ensures LegibleTo(c, Round(c, ts).value, "", d) {
      assert LegibleTo(c, ts, "", d + 1);
      LegibleAfterText(c, a, [t] + b, "", d + 1);
      BodyIsLegible(c, t, body, b, d);
      LegibleAfterText(c, a, body + b, "", d);
    }
  }

  /** A condition on each text by itself that is enough: nothing continues an operator without argument, and
      no generic formula ends in one. */
  predicate Separate(ts: seq<Token>)
  {
    ts != [] ==> TokenOk(ts[0]) && (Bare(ts[0]) ==> Apart(Written(ts[1..]))) && Separate(ts[1..])
  }

  predicate EndsInBare(ts: seq<Token>)
  {
    ts != [] && (EndsInBare(ts[1..]) || (Bare(ts[0]) && Written(ts[1..]) == ""))
  }

  predicate Closed(ts: seq<Token>) { Separate(ts) && !EndsInBare(ts) }

  lemma {:induction false} ClosedIsLegible(c: Context, ts: seq<Token>, after: string, d: nat)
    requires (forall f :: f in c.generics ==> Closed(c.generics[f])) && Separate(ts) && (after == "" || !EndsInBare(ts))
    ensures LegibleTo(c, ts, after, d)
    decreases d, |ts|
  {
    if ts != [] {
      var next := Written(ts[1..]) + after;
      assert after == "" ==> next == Written(ts[1..]);
      if IsGeneric(c, ts[0]) && d > 0 {
        ClosedIsLegible(c, c.generics[ts[0].argument.value], next, d - 1);
      }
      ClosedIsLegible(c, ts[1..], after, d);
    }
  }

  // ----- the loop -----

  /** A round of the loop on text. */
  ghost predicate TextRound(c: Context, s: string, next: string)
  {
    exists pos, found :: RoundAt(c, s, next, pos, found)
  }

  ghost predicate RoundAt(c: Context, s: string, next: string, pos: nat, found: Found)
  {
    && Searched(s, pos, Some(found)) && pos <= found.end <= |s|
    && Replacement(c, Op(found.name, found.argument)).Ok?
    && next == s[..pos] + Written(Replacement(c, Op(found.name, found.argument)).value) + s[found.end..]
  }

  /** It goes on for `n` rounds at least. */
  ghost predicate TextLasts(c: Context, s: string, n: nat)
    decreases n
  {
    n > 0 ==> exists next :: TextRound(c, s, next) && TextLasts(c, next, n - 1)
  }

  lemma WrittenAround(a: seq<Token>, body: seq<Token>, b: seq<Token>)
    ensures Written(a + body + b) == Written(a) + Written(body) + Written(b)
  {
    WrittenInParts(a, body);
    WrittenInParts(a + body, b);
  }

  lemma ReplacedInText(ts: seq<Token>, k: nat, body: seq<Token>, pos: nat, end: nat)
    requires k < |ts| && pos == |Written(ts[..k])| && end == |Written(ts[..k]) + Source(ts[k])|
    ensures pos <= end <= |Written(ts)|
    ensures Written(Spliced(ts, k, body)) == Written(ts)[..pos] + Written(body) + Written(ts)[end..]
  {
    CutAtToken(ts, k);
    WrittenAround(ts[..k], body, ts[k + 1..]);
  }

  lemma RoundOnText(c: Context, ts: seq<Token>, pos: nat, found: Found) returns (next: seq<Token>)
    requires StandsOut(ts) && Searched(Written(ts), pos, Some(found))
    requires Replacement(c, Op(found.name, found.argument)).Ok?
    ensures Round(c, ts) == Some(next) && RoundAt(c, Written(ts), Written(next), pos, found)
  {
    var k := FirstOperator(ts);
    FoundIsFirst(ts, pos, Some(found));
    assert ts[k] == Op(found.name, found.argument);
    var body := Replacement(c, ts[k]).value;
    next := Spliced(ts, k, body);
    ReplacedInText(ts, k, body, pos, found.end);
  }

  /** A round on the text is a round on the tokens, and the other way round. */
  lemma RoundsAgree(c: Context, ts: seq<Token>)
    requires StandsOut(ts)
    ensures Round(c, ts).Some? ==> TextRound(c, Written(ts), Written(Round(c, ts).value))
    ensures forall next :: TextRound(c, Written(ts), next) ==> Round(c, ts).Some? && next == Written(Round(c, ts).value)
  {
    if Round(c, ts).Some? {
      var k := FirstOperator(ts);
      OperatorInText(ts);
      var _ := RoundOnText(c, ts, |Written(ts[..k])|, MatchAt(Written(ts), |Written(ts[..k])|).value);
    }
    forall next | TextRound(c, Written(ts), next) ensures Round(c, ts).Some? && next == Written(Round(c, ts).value) {
      var pos, found :| RoundAt(c, Written(ts), next, pos, found);
      var _ := RoundOnText(c, ts, pos, found);
    }
  }

  lemma {:induction false} TextLastsAsTokens(c: Context, ts: seq<Token>, n: nat)
    requires '$' !in c.address && Legible(c, ts)
    ensures TextLasts(c, Written(ts), n) <==> Lasts(c, ts, n)
    decreases n
  {
    if n > 0 {
      assert LegibleTo(c, ts, "", 0);
      LegibleStandsOut(c, ts, 0);
      RoundsAgree(c, ts);
      if Round(c, ts).Some? {
        StaysLegible(c, ts);
        TextLastsAsTokens(c, Round(c, ts).value, n - 1);
      }
    }
  }

  /** On the text, too, the loop ends exactly when no generic formula comes to be applied within itself. */
  lemma TextEndsExactlyWhenNotCircular(c: Context, ts: seq<Token>)
    requires '$' !in c.address && Legible(c, ts)
    ensures (exists n: nat :: !TextLasts(c, Written(ts), n)) <==> !Circular(c, ts)
  {
    EndsExactlyWhenNotCircular(c, ts);
    if n: nat :| !Lasts(c, ts, n) {
      TextLastsAsTokens(c, ts, n);
    }
    if n: nat :| !TextLasts(c, Written(ts), n) {
      TextLastsAsTokens(c, ts, n);
    }
  }

  /** The rewriting of `formula` has come to `ts`, with text `work`. */
  ghost predicate Rewritten(c: Context, formula: seq<Token>, ts: seq<Token>, work: string)
  {
    work == Written(ts) && Legible(c, ts) && Expansion(c, ts).Some? && Expansion(c, ts) == Expansion(c, formula)
  }

  ghost function RoundsLeft(c: Context, ts: seq<Token>): nat
    requires Expansion(c, ts).Some?
  {
    Rounds(c, ts, |c.generics.Keys|)
  }

  lemma OneRound(c: Context, formula: seq<Token>, ts: seq<Token>, work: string, pos: nat, found: Found, next: string)
    requires '$' !in c.address && Rewritten(c, formula, ts, work) && Searched(work, pos, Some(found))
    requires Replacement(c, Op(found.name, found.argument)).Ok?
    requires pos <= found.end <= |work| ==>
               next == work[..pos] + Written(Replacement(c, Op(found.name, found.argument)).value) + work[found.end..]
    ensures pos <= found.end <= |work| && Round(c, ts).Some?
    ensures Rewritten(c, formula, Round(c, ts).value, next)
    ensures RoundsLeft(c, Round(c, ts).value) < RoundsLeft(c, ts)
  {
    assert LegibleTo(c, ts, "", 0);
    LegibleStandsOut(c, ts, 0);
    var _ := RoundOnText(c, ts, pos, found);
    StaysLegible(c, ts);
    OneRoundOfRewriting(c, ts, |c.generics.Keys|);
  }

  lemma NoFurtherRound(c: Context, formula: seq<Token>, ts: seq<Token>, work: string, pos: nat, found: Option<Found>)
    requires Rewritten(c, formula, ts, work) && Searched(work, pos, found)
    requires found.Some? ==> Replacement(c, Op(found.value.name, found.value.argument)).Err?
    ensures Expansion(c, formula)
         == Some(if found.Some? then Replacement(c, Op(found.value.name, found.value.argument)) else Ok(ts))
  {
    assert LegibleTo(c, ts, "", 0);
    LegibleStandsOut(c, ts, 0);
    FoundIsFirst(ts, pos, found);
    LastRound(c, ts, |c.generics.Keys|);
  }

  /** elaborateFormula. `formula` are the tokens of the text, which the loop itself never sees. */
  method ElaborateFormula(generics: map<string, string>, address: string, rawFormula: string,
                          ghost c: Context, ghost formula: seq<Token>)
    returns (r: Result<string>)
    requires Describes(c, generics, address) && Written(formula) == rawFormula
    requires Legible(c, formula) && !Circular(c, formula)
    ensures Expansion(c, formula).Some?
    ensures match Expansion(c, formula).value
            case Err(e) => r == Err(e)
            case Ok(ts) => AllText(ts) && r == Ok(EscapedFormula(Written(ts)))
  {
    InReachExactlyWhenNotCircular(c, formula);
    var work := rawFormula;
    ghost var ts := formula;
    var pos: nat, found := Search(work);
    while found.Some?
      invariant Rewritten(c, formula, ts, work) && Searched(work, pos, found)
      decreases RoundsLeft(c, ts)
    {
      var replacement := Replace(generics, address, found.value, c);
      if replacement.Err? {
        NoFurtherRound(c, formula, ts, work, pos, found);
        return Err(replacement.error);
      }
      assert found.value.end <= |work|;
      var next := work[..pos] + replacement.value + work[found.value.end..];
      OneRound(c, formula, ts, work, pos, found.value, next);
      ts := Round(c, ts).value;
      work := next;
      pos, found := Search(work);
    }
    NoFurtherRound(c, formula, ts, work, pos, None);
    ExpandedIsText(c, formula, |c.generics.Keys|);
    var escaped := EscapeSpecialCharactersInFormula(work);
    r := Ok(escaped);
  }
}
