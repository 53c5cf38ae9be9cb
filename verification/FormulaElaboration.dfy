/** Addresses of the nodes above and below a node. */
module FormulaElaboration {
  import opened DataValues

  datatype Error =
    | TakesNoArgument         // $_ and $thisObjectAddress
    | NeedsArgument           // the other two
    | UnknownGeneric
    | BadLevels               // the argument is not numLevelsUp=<digits>
    | LevelsOutOfRange        // more than an int holds
    | NotEnoughLevels
    | InvalidOperator

  datatype Result<+T> = Ok(value: T) | Err(error: Error)

  // ----- going up from an address -----

  function Dots(s: string): nat { if s == "" then 0 else Dots(s[..|s| - 1]) + (if s[|s| - 1] == '.' then 1 else 0) }

  /** What is before the last dot. */
  function Above(s: string): (r: Option<string>)
    ensures r.Some? ==> |r.value| < |s|
  {
    if s == "" then None
    else if s[|s| - 1] == '.' then Some(s[..|s| - 1])
    else
      Above(s[..|s| - 1])
  }

  /** `levels` times up. */
  function Up(s: string, levels: nat): Option<string>
    decreases levels
  {
    if levels == 0 then Some(s)
    else match Above(s)
         case None => None
         case Some(above) => Up(above, levels - 1)
  }

  /** rfind: the last dot at or before position `from`. */
  method LastDot(s: string, from: int) returns (pos: int)
    requires -1 <= from < |s|
    ensures pos == -1 || (0 <= pos <= from && s[pos] == '.')
    ensures forall j :: pos < j <= from ==> s[j] != '.'
  {
    pos := from;
    while pos >= 0 && s[pos] != '.'
      invariant -1 <= pos <= from
      invariant forall j :: pos < j <= from ==> s[j] != '.'
    {
      pos := pos - 1;
    }
  }

  lemma {:induction false} AboveAt(s: string, pos: nat)
    requires pos < |s| && s[pos] == '.' && forall j :: pos < j < |s| ==> s[j] != '.'
    ensures Above(s) == Some(s[..pos])
  {
    if pos < |s| - 1 {
      var r := s[..|s| - 1];
      AboveAt(r, pos);
      assert r[..pos] == s[..pos];
    }
  }

  lemma {:induction false} AboveNone(s: string)
    requires forall j :: 0 <= j < |s| ==> s[j] != '.'
    ensures Above(s) == None && Dots(s) == 0
  {
    if s != "" {
      AboveNone(s[..|s| - 1]);
    }
  }

  /** elaborateParent: the index of the dot to cut at moves left, once per level. */
  method ElaborateParent(input: string, levels: nat) returns (r: Result<string>)
    ensures r == match Up(input, levels) case None => Err(NotEnoughLevels) case Some(s) => Ok(s)
  {
    var cut, left := |input|, levels;
    assert input[..|input|] == input;
    while left > 0
      invariant 0 <= cut <= |input| && Up(input, levels) == Up(input[..cut], left)
    {
      var pos := LastDot(input, cut - 1);
      if pos == -1 {
        AboveNone(input[..cut]);
        return Err(NotEnoughLevels);
      }
      AboveAt(input[..cut], pos);
      assert input[..cut][..pos] == input[..pos];
      cut, left := pos, left - 1;
      if left > 0 && cut == 0 {
        AboveNone(input[..0]);
        return Err(NotEnoughLevels);
      }
    }
    r := Ok(input[..cut]);
  }

  lemma {:induction false} AboveTakesOneDot(s: string)
    ensures Above(s).Some? <==> Dots(s) > 0
    ensures Above(s).Some? ==> Dots(Above(s).value) == Dots(s) - 1
  {
    if s != "" && s[|s| - 1] != '.' {
      AboveTakesOneDot(s[..|s| - 1]);
    }
  }

  /** An address with n dots has exactly n levels above it. */
  lemma {:induction false} LevelsAreDots(s: string, levels: nat)
    ensures Up(s, levels).Some? <==> levels <= Dots(s)
    ensures Up(s, levels).Some? ==> Dots(Up(s, levels).value) == Dots(s) - levels && Up(s, levels).value <= s
    decreases levels
  {
    if levels > 0 && Above(s).Some? {
      AboveTakesOneDot(s);
      AboveIsPrefix(s);
      LevelsAreDots(Above(s).value, levels - 1);
    } else if levels > 0 {
      AboveTakesOneDot(s);
    }
  }

  lemma {:induction false} AboveIsPrefix(s: string)
    requires Above(s).Some?
    ensures Above(s).value <= s
  {
    if s[|s| - 1] != '.' {
      AboveIsPrefix(s[..|s| - 1]);
    }
  }

  /** The cut is at a dot: the address goes on with one there, and `levels - 1` more follow. */
  lemma CutIsAtADot(s: string, levels: nat)
    requires levels > 0 && Up(s, levels).Some?
    ensures |Up(s, levels).value| < |s| && s[|Up(s, levels).value|] == '.'
    decreases levels
  {
    LevelsAreDots(s, levels);
    AboveIsPrefix(s);
    AboveEndsAtDot(s);
    if levels > 1 {
      CutIsAtADot(Above(s).value, levels - 1);
    }
  }

  lemma {:induction false} AboveEndsAtDot(s: string)
    requires Above(s).Some?
    ensures s[|Above(s).value|] == '.'
  {
    if s[|s| - 1] != '.' {
      AboveEndsAtDot(s[..|s| - 1]);
    }
  }

  /** Up `a` levels and then `b` is up a + b levels. */
  lemma {:induction false} UpAndUp(s: string, a: nat, b: nat)
    ensures Up(s, a + b) == match Up(s, a) case None => None case Some(t) => Up(t, b)
    decreases a
  {
    if a > 0 && Above(s).Some? {
      UpAndUp(Above(s).value, a - 1, b);
    }
  }

  datatype NodeId = Numeric(ns: nat, number: nat) | Named(ns: nat, text: string) | OtherKind(ns: nat)

  /** The numeric identifier OPC UA gives to the objects folder. */
  const OBJECTS_FOLDER := 85

  /** makeChildNodeId of a node manager with namespace `own`; None where it throws. */
  function MakeChildNodeId(parent: NodeId, child: string, own: nat): Option<NodeId>
  {
    match parent
    case Numeric(ns, number) => if ns == 0 && number == OBJECTS_FOLDER then Some(Named(own, child)) else None
    case Named(ns, text) => Some(Named(ns, text + "." + child))
    case OtherKind(_) => None
  }

  /** One level up undoes makeChildNodeId exactly for names without a dot. */
  lemma UpUndoesChild(ns: nat, parent: string, child: string, own: nat)
    ensures var id := MakeChildNodeId(Named(ns, parent), child, own);
            && id.Some? && id.value.Named? && id.value.ns == ns
            && (Up(id.value.text, 1) == Some(parent) <==> '.' !in child)
  {
    var s := parent + "." + child;
    if j :| 0 <= j < |child| && child[j] == '.' && forall i :: j < i < |child| ==> child[i] != '.' {
      assert s[|parent| + 1 + j] == '.';
      AboveAt(s, |parent| + 1 + j);
    } else {
      LastOf(child);
      AboveAt(s, |parent|);
      assert s[..|parent|] == parent;
    }
    assert Up(s, 1) == match Above(s) case None => None case Some(t) => Up(t, 0);
  }

  /** A parent with a numeric identifier is refused, except for the objects folder itself, whose children go by their
      names alone. No level is above such a name, unless it has a dot. */
  lemma TopLevelIds(ns: nat, number: nat, child: string, own: nat)
    ensures var id := MakeChildNodeId(Numeric(ns, number), child, own);
            && (id.Some? <==> ns == 0 && number == 85)
            && (id.Some? ==> id.value == Named(own, child) && (Up(child, 1).None? <==> '.' !in child))
  {
    LevelsAreDots(child, 1);
    DotsAreThere(child);
  }

  lemma {:induction false} DotsAreThere(s: string)
    ensures Dots(s) > 0 <==> '.' in s
  {
    if s != "" {
      var n := |s| - 1;
      DotsAreThere(s[..n]);
      assert s == s[..n] + [s[n]];
    }
  }

  /** Children with different parents or different names get different identifiers, as long as the names
      have no dot. */
  lemma ChildIdsAreDistinct(ns: nat, a: string, x: string, b: string, y: string, own: nat)
    requires '.' !in x && '.' !in y
    requires MakeChildNodeId(Named(ns, a), x, own) == MakeChildNodeId(Named(ns, b), y, own)
    ensures a == b && x == y
  {
    UpUndoesChild(ns, a, x, own);
    UpUndoesChild(ns, b, y, own);
    assert x == (a + "." + x)[|a| + 1..] && y == (b + "." + y)[|b| + 1..];
  }

  lemma {:induction false} LastOf(s: string)
    requires !exists j :: 0 <= j < |s| && s[j] == '.' && forall i :: j < i < |s| ==> s[i] != '.'
    ensures '.' !in s
    decreases |s|
  {
    if s != "" {
      var n := |s| - 1;
      if s[n] != '.' {
        forall j | 0 <= j < n && s[..n][j] == '.' && forall i :: j < i < n ==> s[..n][i] != '.' ensures false {
          assert s[j] == '.' && forall i :: j < i < |s| ==> s[i] != '.';
        }
        LastOf(s[..n]);
        assert s == s[..n] + [s[n]];
      }
    }
  }
}
