/** What each dollar operator does, spelled out: its name, its argument, its errors, and what the formulas it
    stands in come to. */
module DollarOperators {
  import opened DataValues
  import opened Escaping
  import opened FormulaElaboration
  import opened FormulaRewriting
  import opened DollarExpressions

  // ----- the number of levels -----

  /** `n` in decimal, without leading zeros. */
  function Decimal(n: nat): string
  {
    if n < 10 then ["0123456789"[n]] else Decimal(n / 10) + ["0123456789"[n % 10]]
  }

  function Zeros(k: nat): string { if k == 0 then "" else Zeros(k - 1) + "0" }

  predicate AllDigits(s: string) { forall k :: 0 <= k < |s| ==> IsDigit(s[k]) }

  lemma NumberOfMore(digits: string, d: nat)
    requires AllDigits(digits) && d < 10
    ensures AllDigits(digits + ["0123456789"[d]]) && Number(digits + ["0123456789"[d]]) == Number(digits) * 10 + d
  {
    var s := digits + ["0123456789"[d]];
    assert s[..|s| - 1] == digits && s[|s| - 1] == "0123456789"[d];
  }

  lemma {:induction false} NumberOfZeros(k: nat)
    ensures AllDigits(Zeros(k)) && Number(Zeros(k)) == 0
  {
    if k > 0 {
      NumberOfZeros(k - 1);
      NumberOfMore(Zeros(k - 1), 0);
    }
  }

  lemma {:induction false} NumberOfDecimal(k: nat, n: nat)
    ensures AllDigits(Zeros(k) + Decimal(n)) && Number(Zeros(k) + Decimal(n)) == n
    decreases n
  {
    NumberOfZeros(k);
    if n < 10 {
      NumberOfMore(Zeros(k), n);
    } else {
      NumberOfDecimal(k, n / 10);
      NumberOfMore(Zeros(k) + Decimal(n / 10), n % 10);
      Grouped(Zeros(k), Decimal(n / 10), ["0123456789"[n % 10]]);
    }
  }

  lemma DigitOf(ch: char) returns (d: nat)
    requires IsDigit(ch)
    ensures d < 10 && "0123456789"[d] == ch
  {
    d := ch as int - '0' as int;
  }

  lemma DecimalStep(m: nat, d: nat)
    requires d < 10 && m > 0
    ensures Decimal(10 * m + d) == Decimal(m) + ["0123456789"[d]]
  {
    assert (10 * m + d) / 10 == m && (10 * m + d) % 10 == d;
  }

  lemma DecimalOfMore(j: nat, m: nat, d: nat)
    requires d < 10
    ensures m > 0 ==> Zeros(j) + Decimal(m) + ["0123456789"[d]] == Zeros(j) + Decimal(10 * m + d)
    ensures m == 0 ==> Zeros(j) + Decimal(m) + ["0123456789"[d]] == Zeros(j + 1) + Decimal(d)
  {
    if m > 0 {
      DecimalStep(m, d);
      Grouped(Zeros(j), Decimal(m), ["0123456789"[d]]);
    }
  }

  /** Any digits are zeros and a number in decimal. */
  lemma {:induction false} DigitsAreDecimal(digits: string) returns (k: nat, n: nat)
    requires digits != "" && AllDigits(digits)
    ensures digits == Zeros(k) + Decimal(n)
  {
    var front := digits[..|digits| - 1];
    var d := DigitOf(digits[|digits| - 1]);
    assert digits == front + ["0123456789"[d]];
    if front == "" {
      k, n := 0, d;
      assert Zeros(0) + Decimal(d) == Decimal(d);
    } else {
      var j, m := DigitsAreDecimal(front);
      DecimalOfMore(j, m, d);
      k, n := if m == 0 then j + 1 else j, if m == 0 then d else 10 * m + d;
    }
  }

  /** The argument that asks for `n` levels, with `k` leading zeros. */
  function Spelled(k: nat, n: nat): string { "numLevelsUp=" + (Zeros(k) + Decimal(n)) }

  /** It is read as `n`, as far as an int goes. */
  lemma SpelledIsRead(k: nat, n: nat)
    ensures n <= 2147483647 ==> ParseLevels(Spelled(k, n)) == Ok(n)
    ensures n > 2147483647 ==> ParseLevels(Spelled(k, n)) == Err(LevelsOutOfRange)
  {
    var digits := Zeros(k) + Decimal(n);
    NumberOfDecimal(k, n);
    assert Spelled(k, n)[|LEVELS|..] == digits;
    assert forall i :: |LEVELS| <= i < |Spelled(k, n)| ==> Spelled(k, n)[i] == digits[i - |LEVELS|];
  }

  /** And nothing else is: every other argument is refused. */
  lemma OnlySpelledIsRead(argument: string)
    ensures ParseLevels(argument) == Err(BadLevels) || exists k, n :: argument == Spelled(k, n)
  {
    if ParseLevels(argument) != Err(BadLevels) {
      var digits := argument[|LEVELS|..];
      assert forall i :: 0 <= i < |digits| ==> digits[i] == argument[|LEVELS| + i];
      var k, n := DigitsAreDecimal(digits);
      assert argument == Spelled(k, n);
    }
  }

  lemma LevelsInDecimal(n: nat)
    requires n <= 2147483647
    ensures ParseLevels("numLevelsUp=" + Decimal(n)) == Ok(n)
  {
    SpelledIsRead(0, n);
    assert Zeros(0) + Decimal(n) == Decimal(n);
  }

  // ----- which operators there are, and what each refuses -----

  ghost predicate AsksFor(argument: Option<string>, n: nat) { exists k :: argument == Some(Spelled(k, n)) }

  /** Every error of a dollar expression, and exactly when it is raised. */
  lemma OperatorErrors(c: Context, name: string, argument: Option<string>)
    ensures var r := Replacement(c, Op(name, argument));
            && (r == Err(InvalidOperator) <==>
                  name !in {"_", "thisObjectAddress", "applyGenericFormula", "parentObjectAddress"})
            && (r == Err(TakesNoArgument) <==> (name == "_" || name == "thisObjectAddress") && argument.Some?)
            && (r == Err(NeedsArgument) <==>
                  (name == "applyGenericFormula" || name == "parentObjectAddress") && argument.None?)
            && (r == Err(UnknownGeneric) <==>
                  name == "applyGenericFormula" && argument.Some? && argument.value !in c.generics)
            && (r == Err(BadLevels) <==>
                  name == "parentObjectAddress" && argument.Some? && forall n :: !AsksFor(argument, n))
            && (r == Err(LevelsOutOfRange) <==>
                  name == "parentObjectAddress" && exists n :: n > 2147483647 && AsksFor(argument, n))
            && (r == Err(NotEnoughLevels) <==>
                  && name == "parentObjectAddress"
                  && exists n :: Dots(c.address) < n <= 2147483647 && AsksFor(argument, n))
  {
    if name == "parentObjectAddress" && argument.Some? {
      ParentErrors(c, argument.value);
    }
  }

  lemma ParentErrors(c: Context, argument: string)
    ensures var r := Replacement(c, Op("parentObjectAddress", Some(argument)));
            && (r == Err(BadLevels) <==> forall n :: !AsksFor(Some(argument), n))
            && (r == Err(LevelsOutOfRange) <==> exists n :: n > 2147483647 && AsksFor(Some(argument), n))
            && (r == Err(NotEnoughLevels) <==>
                  exists n :: Dots(c.address) < n <= 2147483647 && AsksFor(Some(argument), n))
            && r != Err(InvalidOperator) && r != Err(TakesNoArgument) && r != Err(NeedsArgument)
            && r != Err(UnknownGeneric)
  {
    OnlySpelledIsRead(argument);
    forall n | AsksFor(Some(argument), n)
      ensures ParseLevels(argument) == if n <= 2147483647 then Ok(n) else Err(LevelsOutOfRange)
    {
      var k :| Some(argument) == Some(Spelled(k, n));
      SpelledIsRead(k, n);
    }
    if ParseLevels(argument) != Err(BadLevels) {
      var k, n :| argument == Spelled(k, n);
      assert AsksFor(Some(argument), n);
    }
    if ParseLevels(argument).Ok? {
      LevelsAreDots(c.address, ParseLevels(argument).value);
    }
  }

  // ----- what the operators are for -----

  lemma {:induction false} CodedHasNoBackslash(name: string)
    requires '\\' !in name
    ensures '\\' !in Coded(name)
  {
    if name != "" {
      CodedHasNoBackslash(name[1..]);
    }
  }

  lemma PlainPrefix(prefix: string, child: string)
    requires '\\' !in child && forall i :: 0 <= i < |prefix| ==> prefix[i] != '\\'
    ensures EscapedFormula(prefix + Backslashed(child)) == prefix + Coded(child)
  {
    PassesOver(prefix, Backslashed(child), "\\-", DASH);
    DashesFirst(child);
    PassesOver(prefix, HalfCoded(child), "\\/", SLASH);
    SlashesNext(child);
  }

  lemma CodedDot()
    ensures Coded(".") == "."
  {
    assert "."[1..] == "";
  }

  lemma CodedChild(address: string, child: string)
    ensures Coded(address + "." + child) == Coded(address) + "." + Coded(child)
  {
    CodedInParts(address + ".", child);
    CodedInParts(address, ".");
    CodedDot();
  }

  lemma EscapedChild(address: string, child: string)
    ensures EscapedName(address + "." + child) == Coded(address) + "." + Coded(child)
  {
    var id := address + "." + child;
    CodedChild(address, child);
    EscapedIsCoded(id);
  }

  /** The address of an object, a dot and a name written with backslashes: the formula ends up with the
      name under which that child of the object is registered. */
  lemma AddressNamesChild(address: string, child: string)
    requires '\\' !in address && '\\' !in child
    ensures EscapedFormula(EscapedName(address) + ("." + Backslashed(child))) == EscapedName(address + "." + child)
  {
    EscapedIsCoded(address);
    EscapedChild(address, child);
    CodedHasNoBackslash(address);
    PlainAddress(Coded(address), child);
  }

  lemma PlainAddress(prefix: string, child: string)
    requires '\\' !in prefix && '\\' !in child
    ensures EscapedFormula(prefix + ("." + Backslashed(child))) == prefix + "." + Coded(child)
  {
    assert forall i :: 0 <= i < |prefix| ==> prefix[i] in prefix;
    Grouped(prefix, ".", Backslashed(child));
    PlainPrefix(prefix + ".", child);
  }

  /** $_ followed by a dot and a name stands for the parser variable of that child of the object. */
  lemma ThisAddressNamesSibling(c: Context, child: string)
    requires '\\' !in c.address && '\\' !in child
    ensures NamesChild(c, [Op("_", None), Text("." + Backslashed(child))], c.address, child)
  {
    NamesChildOf(c, Op("_", None), c.address, child);
  }

  /** With $parentObjectAddress(numLevelsUp=n), n in decimal, it is a child of the object n levels up. */
  lemma ParentAddressNamesCousin(c: Context, n: nat, child: string)
    requires '\\' !in c.address && '\\' !in child
    requires n <= 2147483647 && Up(c.address, n).Some?
    ensures var levels := "numLevelsUp=" + Decimal(n);
            NamesChild(c, [Op("parentObjectAddress", Some(levels)), Text("." + Backslashed(child))],
                       Up(c.address, n).value, child)
  {
    var above := Up(c.address, n).value;
    LevelsAreDots(c.address, n);
    assert forall k :: 0 <= k < |above| ==> above[k] == c.address[k];
    LevelsInDecimal(n);
    NamesChildOf(c, Op("parentObjectAddress", Some("numLevelsUp=" + Decimal(n))), above, child);
  }

  /** The formula comes to the name under which child `child` of the object at `address` is registered. */
  predicate NamesChild(c: Context, formula: seq<Token>, address: string, child: string)
  {
    && Succeeds(Expansion(c, formula)) && AllText(Expansion(c, formula).value.value)
    && EscapedFormula(Written(Expansion(c, formula).value.value)) == EscapedName(address + "." + child)
  }

  lemma NamesChildOf(c: Context, t: Token, address: string, child: string)
    requires t.Op? && !IsGeneric(c, t) && Replacement(c, t) == Ok([Text(EscapedName(address))])
    requires '\\' !in address && '\\' !in child
    ensures NamesChild(c, [t, Text("." + Backslashed(child))], address, child)
  {
    var u := Text("." + Backslashed(child));
    var n := |c.generics.Keys|;
    assert [t, u] == [t] + [u];
    ExpandedInParts(c, [t], [u], n);
    ExpandedAlone(c, t, n);
    TextStays(c, [u], n);
    assert Expansion(c, [t, u]).value.value == [Text(EscapedName(address)), u];
    OneText(u.text);
    assert [Text(EscapedName(address)), u][1..] == [u];
    AddressNamesChild(address, child);
  }

  // ----- the same on text -----

  lemma Capitals(ch: char)
    ensures 'A' <= ch <= 'Z' <==> ch in "ABCDEFGHIJKLMNOPQRSTUVWXYZ"
  {
    var letters := "ABCDEFGHIJKLMNOPQRSTUVWXYZ";
    if 'A' <= ch <= 'Z' {
      assert letters[ch as int - 'A' as int] == ch;
    }
  }

  lemma SmallLetters(ch: char)
    ensures 'a' <= ch <= 'z' <==> ch in "abcdefghijklmnopqrstuvwxyz"
  {
    var letters := "abcdefghijklmnopqrstuvwxyz";
    if 'a' <= ch <= 'z' {
      assert letters[ch as int - 'a' as int] == ch;
    }
  }

  /** The characters an operator's name is made of, and those an argument is not. */
  lemma ExpressionCharacters(ch: char)
    ensures IsArgument(ch) <==> ch !in " \r\n\t()"
    ensures IsWord(ch) <==> ch in "ABCDEFGHIJKLMNOPQRSTUVWXYZ" || ch in "abcdefghijklmnopqrstuvwxyz"
                            || ch in "0123456789" || ch == '_'
  {
    Capitals(ch);
    SmallLetters(ch);
    assert '0' <= ch <= '9' ==> "0123456789"[ch as int - '0' as int] == ch;
  }

  /** `formula` is a formula with this text, which the loop can make out and finish. */
  ghost predicate Spells(c: Context, formula: seq<Token>, text: string)
  {
    Written(formula) == text && Legible(c, formula) && !Circular(c, formula)
  }

  lemma DollarAndText(c: Context, t: Token, text: string)
    requires TokenOk(t) && t.Op? && !IsGeneric(c, t) && '$' !in text && text != "" && text[0] == '.'
    ensures Spells(c, [t, Text(text)], Source(t) + text)
    ensures Expansion(c, [t, Text(text)]) == Both(Some(Replacement(c, t)), Some(Ok([Text(text)])))
  {
    var u := Text(text);
    assert [t, u][1..] == [u] && [u][1..] == [];
    OneText(text);
    assert Written([u]) + "" == text;
    forall d: nat ensures LegibleTo(c, [t, u], "", d) {
      assert LegibleTo(c, [u], "", d);
    }
    var n := |c.generics.Keys|;
    assert [t, u] == [t] + [u];
    ExpandedInParts(c, [t], [u], n);
    ExpandedAlone(c, t, n);
    TextStays(c, [u], n);
    InReachExactlyWhenNotCircular(c, [t, u]);
  }

  lemma {:induction false} BackslashedHasNoDollar(name: string)
    requires '$' !in name
    ensures '$' !in Backslashed(name)
  {
    if name != "" {
      BackslashedHasNoDollar(name[1..]);
    }
  }

  /** "$_." and a name. */
  lemma SiblingText(c: Context, child: string, rest: string) returns (formula: seq<Token>)
    requires '\\' !in c.address && '\\' !in child && '$' !in child && rest == "." + Backslashed(child)
    ensures Spells(c, formula, "$_" + rest) && NamesChild(c, formula, c.address, child)
  {
    BackslashedHasNoDollar(child);
    formula := [Op("_", None), Text(rest)];
    DollarAndText(c, Op("_", None), rest);
    assert Source(Op("_", None)) == "$_";
    ThisAddressNamesSibling(c, child);
  }

  lemma AllInParts(a: string, b: string, f: char -> bool)
    requires All(a, f) && All(b, f)
    ensures All(a + b, f)
  {
  }

  lemma DecimalIsAnArgument(n: nat)
    ensures All(Decimal(n), IsArgument)
  {
    NumberOfDecimal(0, n);
    assert Zeros(0) + Decimal(n) == Decimal(n);
  }

  lemma LevelsAreAnArgument(n: nat)
    ensures All("numLevelsUp=" + Decimal(n), IsArgument)
  {
    DecimalIsAnArgument(n);
    AllInParts("numLevelsUp=", Decimal(n), IsArgument);
  }

  lemma ParentToken(levels: string)
    requires levels != "" && All(levels, IsArgument)
    ensures TokenOk(Op("parentObjectAddress", Some(levels)))
    ensures Source(Op("parentObjectAddress", Some(levels))) == "$parentObjectAddress" + ("(" + levels + ")")
  {
    var name := "parentObjectAddress";
    forall k | 0 <= k < |name| ensures IsWord(name[k]) {
    }
    assert "$" + name == "$parentObjectAddress";
    Grouped("$", name, "(" + levels + ")");
    assert "$" + name + ("(" + levels + ")") == "$" + (name + ("(" + levels + ")"));
  }

  /** "$parentObjectAddress(numLevelsUp=n)." and a name. */
  lemma CousinText(c: Context, n: nat, child: string, levels: string, rest: string) returns (formula: seq<Token>)
    requires '\\' !in c.address && '\\' !in child && '$' !in child && n <= 2147483647
    requires levels == "numLevelsUp=" + Decimal(n) && rest == "." + Backslashed(child)
    ensures Spells(c, formula, "$parentObjectAddress" + ("(" + levels + ")") + rest)
    ensures Up(c.address, n).Some? ==> NamesChild(c, formula, Up(c.address, n).value, child)
    ensures Up(c.address, n).None? ==> Expansion(c, formula) == Some(Err(NotEnoughLevels))
  {
    var t := Op("parentObjectAddress", Some(levels));
    formula := [t, Text(rest)];
    BackslashedHasNoDollar(child);
    LevelsAreAnArgument(n);
    ParentToken(levels);
    DollarAndText(c, t, rest);
    if Up(c.address, n).Some? {
      ParentAddressNamesCousin(c, n, child);
    } else {
      LevelsInDecimal(n);
    }
  }

  /** So a formula may name a variable next to its own. */
  method ElaborateSibling(generics: map<string, string>, address: string, child: string, ghost c: Context)
    returns (r: Result<string>)
    requires Describes(c, generics, address) && '\\' !in address && '\\' !in child && '$' !in child
    ensures r == Ok(EscapedName(address + "." + child))
  {
    var rest := "." + Backslashed(child);
    ghost var formula := SiblingText(c, child, rest);
    r := ElaborateFormula(generics, address, "$_" + rest, c, formula);
  }

  /** Or one next to the object `n` levels up. */
  method ElaborateCousin(generics: map<string, string>, address: string, n: nat, child: string, ghost c: Context)
    returns (r: Result<string>)
    requires Describes(c, generics, address) && '\\' !in address && '\\' !in child && '$' !in child
    requires n <= 2147483647
    ensures Up(address, n).Some? ==> r == Ok(EscapedName(Up(address, n).value + "." + child))
    ensures Up(address, n).None? ==> r == Err(NotEnoughLevels)
  {
    var levels := "numLevelsUp=" + Decimal(n);
    var rest := "." + Backslashed(child);
    ghost var formula := CousinText(c, n, child, levels, rest);
    r := ElaborateFormula(generics, address, "$parentObjectAddress" + ("(" + levels + ")") + rest, c, formula);
  }
}
