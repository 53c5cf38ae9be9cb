/** Replacing text again and again from the start, and the escaping of names built on it. */
module Escaping {
  import opened DataValues

  /** `pattern` stands in `s` at position `pos`. */
  predicate At(s: string, pattern: string, pos: nat)
  {
    pos + |pattern| <= |s| && s[pos..pos + |pattern|] == pattern
  }

  predicate Occurs(s: string, pattern: string) { exists pos: nat :: pos <= |s| && At(s, pattern, pos) }

  /** No occurrence of `pattern` begins before position `n`. */
  predicate Clear(s: string, pattern: string, n: nat) { forall i: nat :: i < n ==> !At(s, pattern, i) }

  /** `pos` is the first position of `pattern`, if there is one. */
  ghost predicate First(s: string, pattern: string, pos: Option<nat>)
  {
    match pos
    case None => !Occurs(s, pattern)
    case Some(i) => At(s, pattern, i) && Clear(s, pattern, i)
  }

  /** std::string::find. */
  method Find(s: string, pattern: string) returns (pos: Option<nat>)
    ensures First(s, pattern, pos)
  {
    var i := 0;
    while i + |pattern| <= |s|
      invariant forall j: nat :: j < i ==> !At(s, pattern, j)
    {
      if s[i..i + |pattern|] == pattern {
        assert At(s, pattern, i);
        return Some(i);
      }
      i := i + 1;
    }
    pos := None;
  }

  /** One pass from left to right. */
  function Substituted(s: string, from: string, to: string): string
    requires from != ""
    decreases |s|
  {
    if s == "" then ""
    else if from <= s then to + Substituted(s[|from|..], from, to)
    else
      [s[0]] + Substituted(s[1..], from, to)
  }

  predicate Disjoint(a: string, b: string) { forall i, j :: 0 <= i < |a| && 0 <= j < |b| ==> a[i] != b[j] }

  lemma SameAfter(before: string, s: string, pattern: string, i: nat)
    ensures At(before + s, pattern, |before| + i) == At(s, pattern, i)
  {
    if i + |pattern| <= |s| {
      assert (before + s)[|before| + i..|before| + i + |pattern|] == s[i..i + |pattern|];
    }
  }

  lemma {:induction false} NothingToSubstitute(a: string, b: string, from: string, to: string)
    requires from != "" && Clear(a + b, from, |a|)
    ensures Substituted(a + b, from, to) == a + Substituted(b, from, to)
  {
    if a == "" {
      assert a + b == b;
    } else {
      assert !At(a + b, from, 0);
      assert (a + b)[1..] == a[1..] + b && a + b == [a[0]] + (a[1..] + b);
      forall i: nat | i < |a| - 1 ensures !At(a[1..] + b, from, i) {
        SameAfter([a[0]], a[1..] + b, from, i);
      }
      NothingToSubstitute(a[1..], b, from, to);
    }
  }

  /** Nothing that was put in, and nothing before it, is ever replaced. */
  lemma PutInStays(done: string, a: string, b: string, from: string, to: string, i: nat)
    requires from != "" && to != "" && Disjoint(from, to) && i < |done + a + to|
    requires Clear(done + a + from + b, from, |done + a|)
    ensures !At(done + a + to + b, from, i)
  {
    var p := done + a;
    if i + |from| <= |p| {
      assert (p + from + b)[i..i + |from|] == (p + to + b)[i..i + |from|];
      assert !At(p + from + b, from, i);
    } else if i + |from| <= |p + to + b| {
      var k := if i < |p| then |p| else i;
      assert (p + to + b)[i..i + |from|][k - i] == to[k - |p|] != from[k - i];
    }
  }

  /** `done` is final; what is left of the replacement is that of `rest`. */
  ghost predicate Halfway(input: string, from: string, to: string, replica: string, done: string, rest: string)
    requires from != ""
  {
    && replica == done + rest && Clear(replica, from, |done|)
    && Substituted(input, from, to) == done + Substituted(rest, from, to)
  }

  /** replaceAll: each round searches from the start again. */
  method ReplaceAll(input: string, from: string, to: string) returns (replica: string)
    requires from != "" && to != "" && Disjoint(from, to)
    ensures replica == Substituted(input, from, to)
  {
    replica := input;
    ghost var done, rest := "", input;
    NothingDoneYet(input, from, to);
    var pos: Option<nat> := Find(replica, from);
    while pos.Some?
      invariant Halfway(input, from, to, replica, done, rest)
      invariant First(replica, from, pos)
      decreases |rest|
    {
      done, rest := OneRound(input, from, to, replica, done, rest, pos.value);
      replica := replica[..pos.value] + to + replica[pos.value + |from|..];
      pos := Find(replica, from);
    }
    NothingLeft(input, from, to, replica, done, rest);
  }

  lemma NothingDoneYet(input: string, from: string, to: string)
    requires from != ""
    ensures Halfway(input, from, to, input, "", input)
  {
    assert input == "" + input && Substituted(input, from, to) == "" + Substituted(input, from, to);
  }

  lemma OneRound(input: string, from: string, to: string, replica: string, done: string, rest: string, pos: nat)
    returns (final: string, left: string)
    requires from != "" && to != "" && Disjoint(from, to) && Halfway(input, from, to, replica, done, rest)
    requires First(replica, from, Some(pos))
    ensures |left| < |rest|
    ensures Halfway(input, from, to, replica[..pos] + to + replica[pos + |from|..], final, left)
  {
    var a, b := SplitAt(replica, done, rest, from, pos);
    SubstitutedOnce(done, a, b, from, to);
    ClearAfter(done, a, b, from, to);
    final, left := done + a + to, b;
  }

  lemma SplitAt(replica: string, done: string, rest: string, from: string, pos: nat) returns (a: string, b: string)
    requires from != "" && replica == done + rest && Clear(replica, from, |done|) && First(replica, from, Some(pos))
    ensures replica == done + a + from + b && rest == a + (from + b) && |b| < |rest|
    ensures pos == |done + a| && replica[..pos] == done + a && replica[pos + |from|..] == b
  {
    assert |done| <= pos;
    a, b := replica[|done|..pos], replica[pos + |from|..];
    assert rest[|a|..|a| + |from|] == from;
  }

  lemma ClearAfter(done: string, a: string, b: string, from: string, to: string)
    requires from != "" && to != "" && Disjoint(from, to) && Clear(done + a + from + b, from, |done + a|)
    ensures Clear(done + a + to + b, from, |done + a + to|)
  {
    forall i: nat | i < |done + a + to| ensures !At(done + a + to + b, from, i) {
      PutInStays(done, a, b, from, to, i);
    }
  }

  lemma SubstitutesHere(rest: string, from: string, to: string)
    requires from != ""
    ensures Substituted(from + rest, from, to) == to + Substituted(rest, from, to)
  {
    assert from <= from + rest && (from + rest)[|from|..] == rest;
  }

  lemma SubstitutedOnce(done: string, a: string, b: string, from: string, to: string)
    requires from != "" && Clear(done + a + from + b, from, |done + a|)
    ensures done + Substituted(a + (from + b), from, to) == done + a + to + Substituted(b, from, to)
  {
    forall i: nat | i < |a| ensures !At(a + (from + b), from, i) {
      assert done + a + from + b == done + (a + (from + b));
      SameAfter(done, a + (from + b), from, i);
    }
    NothingToSubstitute(a, from + b, from, to);
    SubstitutesHere(b, from, to);
  }

  lemma NothingLeft(input: string, from: string, to: string, replica: string, done: string, rest: string)
    requires from != "" && Halfway(input, from, to, replica, done, rest) && First(replica, from, None)
    ensures replica == Substituted(input, from, to)
  {
    assert rest + "" == rest;
    forall i: nat | i < |rest| ensures !At(rest + "", from, i) {
      SameAfter(done, rest, from, i);
      assert !At(replica, from, |done| + i);
    }
    NothingToSubstitute(rest, "", from, to);
  }

  // ----- names of parser variables -----

  const DASH := "__dash__"
  const SLASH := "__slash__"

  function EscapedName(name: string): string { Substituted(Substituted(name, "-", DASH), "/", SLASH) }

  function EscapedFormula(formula: string): string { Substituted(Substituted(formula, "\\-", DASH), "\\/", SLASH) }

  method EscapeSpecialCharactersInParserVariableName(input: string) returns (r: string)
    ensures r == EscapedName(input)
  {
    r := ReplaceAll(input, "-", DASH);
    r := ReplaceAll(r, "/", SLASH);
  }

  method EscapeSpecialCharactersInFormula(input: string) returns (r: string)
    ensures r == EscapedFormula(input)
  {
    r := ReplaceAll(input, "\\-", DASH);
    r := ReplaceAll(r, "\\/", SLASH);
  }

  function Code(c: char): string { if c == '-' then DASH else if c == '/' then SLASH else [c] }

  /** Each character by itself. */
  function Coded(name: string): string { if name == "" then "" else Code(name[0]) + Coded(name[1..]) }

  lemma PassesOver(a: string, b: string, from: string, to: string)
    requires from != "" && forall i :: 0 <= i < |a| ==> a[i] != from[0]
    ensures Substituted(a + b, from, to) == a + Substituted(b, from, to)
  {
    forall i: nat | i < |a| ensures !At(a + b, from, i) {
      if i + |from| <= |a + b| {
        assert (a + b)[i..i + |from|][0] == a[i];
      }
    }
    NothingToSubstitute(a, b, from, to);
  }

  lemma {:induction false} EscapedIsCoded(name: string)
    ensures EscapedName(name) == Coded(name)
  {
    if name != "" {
      EscapedIsCoded(name[1..]);
      var rest := Substituted(name[1..], "-", DASH);
      if name[0] == '-' {
        assert Substituted(name, "-", DASH) == DASH + rest;
        PassesOver(DASH, rest, "/", SLASH);
      } else {
        assert !("-" <= name) && Substituted(name, "-", DASH) == [name[0]] + rest;
        assert ([name[0]] + rest)[1..] == rest;
      }
    }
  }

  /** An escaped name is free of the two operators, so a formula parser takes it for one name. */
  lemma {:induction false} EscapedHasNoOperator(name: string)
    ensures forall k :: 0 <= k < |EscapedName(name)| ==> EscapedName(name)[k] != '-' && EscapedName(name)[k] != '/'
  {
    EscapedIsCoded(name);
    if name != "" {
      EscapedHasNoOperator(name[1..]);
      EscapedIsCoded(name[1..]);
    }
  }

  function Unescaped(s: string): string
    decreases |s|
  {
    if s == "" then ""
    else if DASH <= s then "-" + Unescaped(s[|DASH|..])
    else if SLASH <= s then "/" + Unescaped(s[|SLASH|..])
    else
      [s[0]] + Unescaped(s[1..])
  }

  /** No other character of the name begins what reads like an escape code once the name is escaped. */
  predicate Clean(name: string)
  {
    name != "" ==>
      && Clean(name[1..])
      && (name[0] == '-' || name[0] == '/' || (!(DASH <= Coded(name)) && !(SLASH <= Coded(name))))
  }

  /** The escaping can be undone exactly on the names without such a character. */
  lemma {:induction false} UndoneExactlyWhenClean(name: string)
    ensures Unescaped(EscapedName(name)) == name <==> Clean(name)
  {
    EscapedIsCoded(name);
    if name != "" {
      UndoneExactlyWhenClean(name[1..]);
      EscapedIsCoded(name[1..]);
      var rest := Coded(name[1..]);
      if name[0] == '-' {
        assert Coded(name)[|DASH|..] == rest && DASH <= Coded(name);
        OneMoreCharacter('-', Unescaped(rest), name);
      } else if name[0] == '/' {
        assert Coded(name)[|SLASH|..] == rest && SLASH <= Coded(name) && Coded(name)[2] == 's';
        OneMoreCharacter('/', Unescaped(rest), name);
      } else {
        assert Coded(name)[1..] == rest && Coded(name)[0] == name[0];
        OneMoreCharacter(name[0], Unescaped(rest), name);
      }
    }
  }

  lemma OneMoreCharacter(c: char, s: string, name: string)
    requires name != "" && name[0] == c
    ensures [c] + s == name <==> s == name[1..]
  {
    assert name == [c] + name[1..];
    assert ([c] + s)[1..] == s;
  }

  lemma {:induction false} NoDoubleUnderscoreIsClean(name: string)
    requires !Occurs(name, "__")
    ensures Clean(name)
  {
    if name != "" {
      forall pos: nat | pos <= |name[1..]| ensures !At(name[1..], "__", pos) {
        assert name == [name[0]] + name[1..];
        SameAfter([name[0]], name[1..], "__", pos);
      }
      NoDoubleUnderscoreIsClean(name[1..]);
      if name[0] == '_' {
        assert !At(name, "__", 0);
        UnderscoreBeginsNoCode(name);
      } else if name[0] != '-' && name[0] != '/' {
        assert Coded(name)[0] == name[0];
      }
    }
  }

  lemma UnderscoreBeginsNoCode(name: string)
    requires name != "" && name[0] == '_' && !At(name, "__", 0)
    ensures !(DASH <= Coded(name)) && !(SLASH <= Coded(name))
  {
    if |name| > 1 {
      assert name[0..2] == [name[0], name[1]];
      SecondCharacter(name);
    }
  }

  lemma SecondCharacter(name: string)
    requires |name| > 1 && name[0] == '_' && name[1] != '_'
    ensures |Coded(name)| > 1 && (Coded(name)[1] == '_' ==> |Coded(name)| > 2 && Coded(name)[2] == '_')
  {
    var rest := name[1..];
    assert Coded(name) == "_" + Coded(rest) && rest[0] == name[1];
    assert Coded(rest) == Code(rest[0]) + Coded(rest[1..]);
  }

  /** Two such names never get the same escaped name. */
  lemma EscapeIsInjective(a: string, b: string)
    requires Clean(a) && Clean(b) && EscapedName(a) == EscapedName(b)
    ensures a == b
  {
    UndoneExactlyWhenClean(a);
    UndoneExactlyWhenClean(b);
  }

  /** Reading a text without operators as an escaped name and escaping it again gives it back. */
  lemma {:induction false} CodedUndoesUnescaped(s: string)
    requires forall k :: 0 <= k < |s| ==> s[k] != '-' && s[k] != '/'
    ensures Coded(Unescaped(s)) == s
    decreases |s|
  {
    if DASH <= s {
      CodedUndoesUnescaped(s[|DASH|..]);
      CodedCharacter('-', Unescaped(s[|DASH|..]));
      assert s == DASH + s[|DASH|..];
    } else if SLASH <= s {
      CodedUndoesUnescaped(s[|SLASH|..]);
      CodedCharacter('/', Unescaped(s[|SLASH|..]));
      assert s == SLASH + s[|SLASH|..];
    } else if s != "" {
      CodedUndoesUnescaped(s[1..]);
      CodedCharacter(s[0], Unescaped(s[1..]));
      assert s == [s[0]] + s[1..];
    }
  }

  lemma CodedCharacter(c: char, rest: string)
    ensures Coded([c] + rest) == Code(c) + Coded(rest)
  {
    assert ([c] + rest)[1..] == rest;
  }

  /** The one clean name that gets the same escaped name as `name`. */
  function CleanTwin(name: string): string { Unescaped(EscapedName(name)) }

  lemma TwinCollides(name: string)
    ensures EscapedName(CleanTwin(name)) == EscapedName(name) && Clean(CleanTwin(name))
  {
    EscapedHasNoOperator(name);
    CodedUndoesUnescaped(EscapedName(name));
    EscapedIsCoded(CleanTwin(name));
    UndoneExactlyWhenClean(CleanTwin(name));
  }

  /** Every other name shares its escaped name with a clean one: the clean names are exactly those that
      can be told from all clean names. */
  lemma CollidesExactlyWhenNotClean(name: string)
    ensures !Clean(name) <==> exists other :: other != name && Clean(other) && EscapedName(other) == EscapedName(name)
  {
    if Clean(name) {
      forall other | Clean(other) && EscapedName(other) == EscapedName(name) ensures other == name {
        EscapeIsInjective(other, name);
      }
    } else {
      TwinCollides(name);
      assert CleanTwin(name) != name && Clean(CleanTwin(name));
    }
  }

  lemma UnescapedDash()
    ensures Unescaped(DASH) == "-"
  {
    assert DASH[|DASH|..] == "" && Unescaped(DASH) == "-" + Unescaped("");
  }

  lemma {:induction false} CodedInParts(a: string, b: string)
    ensures Coded(a + b) == Coded(a) + Coded(b)
  {
    if a == "" {
      assert a + b == b;
    } else {
      assert (a + b)[1..] == a[1..] + b;
      CodedInParts(a[1..], b);
      assert Code(a[0]) + Coded(a[1..]) + Coded(b) == Code(a[0]) + (Coded(a[1..]) + Coded(b));
    }
  }

  /** What is escaped how: character by character, two of them as a word between double underscores. */
  lemma EscapesSpelledOut(a: string, b: string, c: char)
    ensures EscapedName("") == "" && EscapedName(a + b) == EscapedName(a) + EscapedName(b)
    ensures EscapedName("-") == "__dash__" && EscapedName("/") == "__slash__"
    ensures c != '-' && c != '/' ==> EscapedName([c]) == [c]
  {
    EscapedIsCoded(a + b);
    EscapedIsCoded(a);
    EscapedIsCoded(b);
    CodedInParts(a, b);
    EscapedCharacter('-');
    EscapedCharacter('/');
    EscapedCharacter(c);
  }

  lemma EscapedCharacter(c: char)
    ensures EscapedName([c]) == Code(c)
  {
    EscapedIsCoded([c]);
    assert [c][1..] == "" && Code(c) + Coded("") == Code(c);
  }

  /** For example, a dash and its own escape code. */
  lemma EscapeMayCollide()
    ensures CleanTwin("__dash__") == "-" && EscapedName("-") == EscapedName("__dash__") == "__dash__"
  {
    EscapedIsCoded(DASH);
    CodedPlain(DASH);
    UnescapedDash();
    TwinCollides(DASH);
  }

  lemma {:induction false} CodedPlain(name: string)
    requires forall k :: 0 <= k < |name| ==> name[k] != '-' && name[k] != '/'
    ensures Coded(name) == name
  {
    if name != "" {
      CodedPlain(name[1..]);
    }
  }

  /** A name as a formula writes it: with a backslash before each dash and each slash. */
  function Backslashed(name: string): string
  {
    if name == "" then ""
    else (if name[0] == '-' || name[0] == '/' then "\\" + [name[0]] else [name[0]]) + Backslashed(name[1..])
  }

  /** Dashes coded, slashes still with their backslash. */
  function HalfCoded(name: string): string
  {
    if name == "" then ""
    else (if name[0] == '-' then DASH else if name[0] == '/' then "\\/" else [name[0]]) + HalfCoded(name[1..])
  }

  lemma BackslashBeforeSlash(rest: string)
    ensures Substituted("\\/" + rest, "\\-", DASH) == "\\/" + Substituted(rest, "\\-", DASH)
  {
    assert ("\\/" + rest)[1] == '/' && ("\\/" + rest)[1..] == "/" + rest;
    PassesOver("/", rest, "\\-", DASH);
  }

  lemma {:induction false} DashesFirst(name: string)
    requires '\\' !in name
    ensures Substituted(Backslashed(name), "\\-", DASH) == HalfCoded(name)
  {
    if name != "" {
      DashesFirst(name[1..]);
      var rest := Backslashed(name[1..]);
      if name[0] == '-' {
        SubstitutesHere(rest, "\\-", DASH);
      } else if name[0] == '/' {
        BackslashBeforeSlash(rest);
      } else {
        assert Backslashed(name) == [name[0]] + rest;
        PassesOver([name[0]], rest, "\\-", DASH);
      }
    }
  }

  lemma {:induction false} SlashesNext(name: string)
    requires '\\' !in name
    ensures Substituted(HalfCoded(name), "\\/", SLASH) == Coded(name)
  {
    if name != "" {
      SlashesNext(name[1..]);
      var rest := HalfCoded(name[1..]);
      if name[0] == '-' {
        PassesOver(DASH, rest, "\\/", SLASH);
      } else if name[0] == '/' {
        SubstitutesHere(rest, "\\/", SLASH);
      } else {
        PassesOver([name[0]], rest, "\\/", SLASH);
      }
    }
  }

  /** A formula that writes a variable's name with backslashes ends up with the name under which the
      variable is registered. */
  lemma FormulaFindsVariable(name: string)
    requires '\\' !in name
    ensures EscapedFormula(Backslashed(name)) == EscapedName(name)
  {
    DashesFirst(name);
    SlashesNext(name);
    EscapedIsCoded(name);
  }
}
