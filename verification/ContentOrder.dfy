/** The order in which the children of a configuration element are processed: the validator, and the two
    editing helpers that must keep it satisfied. */
module ContentOrder {
  type TypeId = nat

  /** One orderingElement: the child at position `index` of the collection for type `id`. */
  datatype Entry = Entry(id: TypeId, index: nat)

  datatype Verdict = Valid | InvalidIndex(index: nat) | Unregistered(count: nat)

  /** The indices recorded for one type, in order. */
  function IndicesOf(order: seq<Entry>, id: TypeId): seq<nat>
  {
    if order == [] then []
    else
      var before, last := IndicesOf(order[..|order| - 1], id), order[|order| - 1];
      if last.id == id then before + [last.index] else before
  }

  ghost predicate Distinct(s: seq<nat>) { forall i, j :: 0 <= i < j < |s| ==> s[i] != s[j] }

  ghost predicate InRange(s: seq<nat>, n: nat) { forall i :: 0 <= i < |s| ==> s[i] < n }

  /** The indices are 0, ..., n - 1 in some order. */
  ghost predicate Permutation(s: seq<nat>, n: nat)
  {
    multiset(s) == multiset(Range(n))
  }

  function Range(n: nat): (r: set<nat>)
    ensures |r| == n && forall i: nat :: i in r <==> i < n
  {
    if n == 0 then {} else Range(n - 1) + {n - 1}
  }

  ghost function Members(s: seq<nat>): (r: set<nat>)
    ensures forall i: nat :: i in r <==> i in s
  {
    if s == [] then {} else Members(s[..|s| - 1]) + {s[|s| - 1]}
  }

  lemma {:induction false} DistinctIsASet(s: seq<nat>)
    requires Distinct(s)
    ensures multiset(s) == multiset(Members(s)) && |Members(s)| == |s|
  {
    if s != [] {
      var n := |s| - 1;
      DistinctFront(s, s[..n], s[n]);
      DistinctIsASet(s[..n]);
      SetWithOneMore(s[..n], s[n], Members(s[..n]), s, Members(s));
    }
  }

  lemma DistinctFront(s: seq<nat>, front: seq<nat>, x: nat)
    requires Distinct(s) && s != [] && front == s[..|s| - 1] && x == s[|s| - 1]
    ensures Distinct(front) && x !in front && s == front + [x]
  {
    forall k | 0 <= k < |front| ensures front[k] != x {
      assert front[k] == s[k];
    }
  }

  lemma SetWithOneMore(s: seq<nat>, x: nat, a: set<nat>, t: seq<nat>, b: set<nat>)
    requires x !in a && multiset(s) == multiset(a) && |a| == |s| && t == s + [x] && b == a + {x}
    ensures multiset(t) == multiset(b) && |b| == |t|
  {
    assert multiset(a + {x}) == multiset(a) + multiset{x};
  }

  lemma RepeatedIsTwice(s: seq<nat>, k: nat)
    requires k < |s| && s[k] in s[..k]
    ensures multiset(s)[s[k]] > 1
  {
    assert s == s[..k] + ([s[k]] + s[k + 1..]);
    assert multiset(s) == multiset(s[..k]) + multiset([s[k]]) + multiset(s[k + 1..]);
  }

  lemma SubsetSize(a: set<nat>, b: set<nat>)
    requires a <= b
    ensures |b - a| == |b| - |a|
  {
    assert b == a + (b - a);
  }

  /** The first index the validator objects to. */
  ghost predicate FirstBad(s: seq<nat>, n: nat, k: nat)
  {
    k < |s| && Distinct(s[..k]) && InRange(s[..k], n) && (s[k] >= n || s[k] in s[..k])
  }

  lemma BadIsNoPermutation(s: seq<nat>, n: nat, k: nat)
    requires FirstBad(s, n, k)
    ensures !Permutation(s, n)
  {
    if s[k] in s[..k] {
      RepeatedIsTwice(s, k);
    } else {
      assert s[k] in multiset(s);
    }
  }

  lemma DistinctIsPermutationIfFull(s: seq<nat>, n: nat)
    requires Distinct(s) && InRange(s, n)
    ensures |s| <= n && |Range(n) - Members(s)| == n - |s|
    ensures Permutation(s, n) <==> |s| == n
  {
    DistinctIsASet(s);
    SubsetSize(Members(s), Range(n));
    if |s| == n {
      assert Range(n) - Members(s) == {};
      assert Members(s) == Range(n);
    } else {
      assert |multiset(s)| != |multiset(Range(n))|;
    }
  }

  lemma IndicesOfAppended(order: seq<Entry>, entry: Entry, id: TypeId)
    ensures IndicesOf(order + [entry], id)
         == if entry.id == id then IndicesOf(order, id) + [entry.index] else IndicesOf(order, id)
  {
    assert (order + [entry])[..|order|] == order;
  }

  lemma {:induction false} IndicesOfPrefix(order: seq<Entry>, k: nat, id: TypeId)
    requires k <= |order|
    ensures IndicesOf(order[..k], id) <= IndicesOf(order, id)
    decreases |order| - k
  {
    if k < |order| {
      IndicesOfPrefix(order, k + 1, id);
      assert order[..k + 1][..k] == order[..k];
    } else {
      assert order[..k] == order;
    }
  }

  lemma BadEntry(order: seq<Entry>, k: nat, id: TypeId, n: nat)
    requires k < |order| && order[k].id == id
    requires var s := IndicesOf(order[..k], id);
             Distinct(s) && InRange(s, n) && (order[k].index >= n || order[k].index in s)
    ensures var j := |IndicesOf(order[..k], id)|;
            FirstBad(IndicesOf(order, id), n, j) && IndicesOf(order, id)[j] == order[k].index
    ensures !Permutation(IndicesOf(order, id), n)
  {
    var s := IndicesOf(order[..k], id);
    assert order[..k + 1] == order[..k] + [order[k]];
    IndicesOfAppended(order[..k], order[k], id);
    IndicesOfPrefix(order, k + 1, id);
    assert IndicesOf(order, id)[..|s|] == s;
    BadIsNoPermutation(IndicesOf(order, id), n, |s|);
  }

  lemma MembersAppended(s: seq<nat>, i: nat)
    ensures Members(s + [i]) == Members(s) + {i}
  {
    assert (s + [i])[..|s|] == s;
  }

  /** The indices `s` are fine so far, and `left` are those still to come. */
  ghost predicate Fine(s: seq<nat>, n: nat, left: set<nat>)
  {
    Distinct(s) && InRange(s, n) && left == Range(n) - Members(s)
  }

  lemma OneMoreIndex(s: seq<nat>, n: nat, left: set<nat>, i: nat)
    requires Fine(s, n, left)
    ensures i in left ==> Fine(s + [i], n, left - {i})
    ensures i !in left ==> i >= n || i in s
  {
    MembersAppended(s, i);
  }

  /** The verdict says the truth about the indices `s` of `n` children. */
  ghost predicate Judged(s: seq<nat>, n: nat, v: Verdict)
  {
    match v
    case Valid => Permutation(s, n)
    case InvalidIndex(i) => !Permutation(s, n) && exists k: nat :: FirstBad(s, n, k) && s[k] == i
    case Unregistered(m) => !Permutation(s, n) && Distinct(s) && InRange(s, n) && m == n - |s|
  }

  ghost predicate Scanned(order: seq<Entry>, k: nat, id: TypeId, n: nat, left: set<nat>)
  {
    k <= |order| && Fine(IndicesOf(order[..k], id), n, left)
  }

  lemma ScanOne(order: seq<Entry>, k: nat, id: TypeId, n: nat, left: set<nat>)
    requires k < |order| && Scanned(order, k, id, n, left)
    ensures order[k].id != id ==> Scanned(order, k + 1, id, n, left)
    ensures order[k].id == id && order[k].index in left ==> Scanned(order, k + 1, id, n, left - {order[k].index})
    ensures order[k].id == id && order[k].index !in left ==>
              Judged(IndicesOf(order, id), n, InvalidIndex(order[k].index))
  {
    assert order[..k + 1] == order[..k] + [order[k]];
    IndicesOfAppended(order[..k], order[k], id);
    OneMoreIndex(IndicesOf(order[..k], id), n, left, order[k].index);
    if order[k].id == id && order[k].index !in left {
      BadEntry(order, k, id, n);
    }
  }

  lemma ScannedAll(order: seq<Entry>, id: TypeId, n: nat, left: set<nat>)
    requires Scanned(order, |order|, id, n, left)
    ensures Judged(IndicesOf(order, id), n, if left == {} then Valid else Unregistered(|left|))
  {
    assert order[..|order|] == order;
    DistinctIsPermutationIfFull(IndicesOf(order, id), n);
  }

  /** validateContentOrder. It succeeds exactly on a permutation; otherwise it reports the first index
      that is out of range or repeated, or else how many children have no entry. */
  method ValidateContentOrder(order: seq<Entry>, children: nat, childTypeId: TypeId) returns (v: Verdict)
    ensures Judged(IndicesOf(order, childTypeId), children, v)
  {
    var validChildIndices: set<nat> := {};
    for i := 0 to children
      invariant validChildIndices == Range(i)
    {
      validChildIndices := validChildIndices + {i};
    }
    for k := 0 to |order|
      invariant Scanned(order, k, childTypeId, children, validChildIndices)
    {
      ScanOne(order, k, childTypeId, children, validChildIndices);
      if order[k].id == childTypeId {
        if order[k].index !in validChildIndices {
          return InvalidIndex(order[k].index);
        }
        validChildIndices := validChildIndices - {order[k].index};
      }
    }
    ScannedAll(order, childTypeId, children, validChildIndices);
    if validChildIndices != {} {
      return Unregistered(|validChildIndices|);
    }
    v := Valid;
  }

  // ----- editing -----

  /** An element with the number of children it has of each type. */
  datatype Parent = Parent(sizes: map<TypeId, nat>, order: seq<Entry>)
  {
    function Size(id: TypeId): nat { if id in sizes then sizes[id] else 0 }
  }

  /** The validator accepts the element for every type of children. */
  ghost predicate Accepted(p: Parent)
  {
    forall id: TypeId :: Permutation(IndicesOf(p.order, id), p.Size(id))
  }

  function Pushed(p: Parent, id: TypeId): Parent
  {
    Parent(p.sizes[id := p.Size(id) + 1], p.order + [Entry(id, p.Size(id))])
  }

  function Others(order: seq<Entry>, id: TypeId): seq<Entry>
  {
    if order == [] then []
    else
      var before, last := Others(order[..|order| - 1], id), order[|order| - 1];
      if last.id == id then before else before + [last]
  }

  function Cleared(p: Parent, id: TypeId): Parent
  {
    Parent(p.sizes[id := 0], Others(p.order, id))
  }

  /** Clearing takes out the entries of one type and leaves all others as they stand. */
  lemma {:induction false} OthersInParts(a: seq<Entry>, b: seq<Entry>, e: Entry, id: TypeId)
    ensures Others(a + b, id) == Others(a, id) + Others(b, id)
    ensures Others([e], id) == if e.id == id then [] else [e]
  {
    assert [e][..0] == [];
    if b == [] {
      assert a + b == a;
    } else {
      var n := |b| - 1;
      OthersInParts(a, b[..n], e, id);
      assert (a + b)[..|a + b| - 1] == a + b[..n];
    }
  }

  lemma PermutationAppended(s: seq<nat>, n: nat)
    requires Permutation(s, n)
    ensures Permutation(s + [n], n + 1)
  {
  }

  lemma PushKeepsAccepted(p: Parent, id: TypeId)
    requires Accepted(p)
    ensures Accepted(Pushed(p, id))
  {
    var q := Pushed(p, id);
    PermutationAppended(IndicesOf(p.order, id), p.Size(id));
    forall t: TypeId ensures Permutation(IndicesOf(q.order, t), q.Size(t)) {
      IndicesOfAppended(p.order, Entry(id, p.Size(id)), t);
      assert t != id ==> q.Size(t) == p.Size(t);
    }
  }

  lemma {:induction false} OthersAreKept(order: seq<Entry>, id: TypeId, t: TypeId)
    ensures IndicesOf(Others(order, id), t) == if t == id then [] else IndicesOf(order, t)
  {
    if order != [] {
      var n := |order| - 1;
      OthersAreKept(order[..n], id, t);
      if order[n].id != id {
        IndicesOfAppended(Others(order[..n], id), order[n], t);
      }
    }
  }

  lemma ClearKeepsAccepted(p: Parent, id: TypeId)
    requires Accepted(p)
    ensures Accepted(Cleared(p, id))
  {
    forall t: TypeId ensures Permutation(IndicesOf(Cleared(p, id).order, t), Cleared(p, id).Size(t)) {
      assert Permutation(IndicesOf(p.order, t), p.Size(t));
      OthersAreKept(p.order, id, t);
    }
  }

  datatype Edit = Push(id: TypeId) | Clear(id: TypeId)

  function Edited(p: Parent, es: seq<Edit>): Parent
  {
    if es == [] then p
    else
      var q := Edited(p, es[..|es| - 1]);
      match es[|es| - 1]
      case Push(id) => Pushed(q, id)
      case Clear(id) => Cleared(q, id)
  }

  /** Whatever is added and cleared, in any order and for any types: the validator accepts the result. */
  lemma {:induction false} EditingKeepsAccepted(es: seq<Edit>)
    ensures Accepted(Edited(Parent(map[], []), es))
  {
    if es != [] {
      EditingKeepsAccepted(es[..|es| - 1]);
      var q := Edited(Parent(map[], []), es[..|es| - 1]);
      match es[|es| - 1]
      case Push(id) => PushKeepsAccepted(q, id);
      case Clear(id) => ClearKeepsAccepted(q, id);
    } else {
      assert forall t: TypeId :: IndicesOf([], t) == [];
    }
  }

  /** 0, 1, ..., n - 1, in this order. */
  ghost predicate Counting(s: seq<nat>, n: nat) { |s| == n && forall k :: 0 <= k < n ==> s[k] == k }

  /** Children of one type are processed in the order in which they were added. */
  ghost predicate InSequence(p: Parent)
  {
    forall id: TypeId :: Counting(IndicesOf(p.order, id), p.Size(id))
  }

  lemma PushKeepsSequence(p: Parent, id: TypeId)
    requires InSequence(p)
    ensures InSequence(Pushed(p, id))
  {
    var q := Pushed(p, id);
    forall t: TypeId ensures Counting(IndicesOf(q.order, t), q.Size(t)) {
      IndicesOfAppended(p.order, Entry(id, p.Size(id)), t);
      assert Counting(IndicesOf(p.order, t), p.Size(t));
      CountsOn(IndicesOf(p.order, t), p.Size(t));
    }
  }

  lemma CountsOn(s: seq<nat>, n: nat)
    requires Counting(s, n)
    ensures Counting(s + [n], n + 1)
  {
  }

  lemma {:induction false} EditingKeepsSequence(es: seq<Edit>)
    ensures InSequence(Edited(Parent(map[], []), es))
  {
    if es != [] {
      EditingKeepsSequence(es[..|es| - 1]);
      var q := Edited(Parent(map[], []), es[..|es| - 1]);
      match es[|es| - 1]
      case Push(id) => PushKeepsSequence(q, id);
      case Clear(id) =>
        forall t: TypeId ensures Counting(IndicesOf(Cleared(q, id).order, t), Cleared(q, id).Size(t)) {
          OthersAreKept(q.order, id, t);
          assert Counting(IndicesOf(q.order, t), q.Size(t));
        }
    } else {
      assert forall t: TypeId :: IndicesOf([], t) == [];
    }
  }

  /** A configuration element; the collections of its children hold values of type `Child`. */
  class Element<Child(0)> {
    var children: map<TypeId, seq<Child>>
    var contentOrder: seq<Entry>

    constructor ()
      ensures children == map[] && contentOrder == []
      ensures Accepted(State())
    {
      children, contentOrder := map[], [];
      new;
      EditingKeepsAccepted([]);
      assert State() == Parent(map[], []);
    }

    function ChildrenOf(id: TypeId): seq<Child>
      reads this
    {
      if id in children then children[id] else []
    }

    ghost function State(): Parent
      reads this
    {
      Parent(map id | id in children :: |children[id]|, contentOrder)
    }

    method PushBack(child: Child, childTypeId: TypeId)
      requires Accepted(State())
      modifies this
      ensures State() == Pushed(old(State()), childTypeId) && Accepted(State())
      ensures ChildrenOf(childTypeId) == old(ChildrenOf(childTypeId)) + [child]
      ensures forall id :: id != childTypeId ==> ChildrenOf(id) == old(ChildrenOf(id))
    {
      PushKeepsAccepted(State(), childTypeId);
      children := children[childTypeId := ChildrenOf(childTypeId) + [child]];
      contentOrder := contentOrder + [Entry(childTypeId, |ChildrenOf(childTypeId)| - 1)];
      assert State().sizes == Pushed(old(State()), childTypeId).sizes;
    }

    method ClearChildren(childTypeId: TypeId)
      requires Accepted(State())
      modifies this
      ensures State() == Cleared(old(State()), childTypeId) && Accepted(State())
      ensures ChildrenOf(childTypeId) == []
      ensures forall id :: id != childTypeId ==> ChildrenOf(id) == old(ChildrenOf(id))
    {
      ClearKeepsAccepted(State(), childTypeId);
      children := children[childTypeId := []];
      var kept: seq<Entry> := [];
      for k := 0 to |contentOrder|
        invariant kept == Others(contentOrder[..k], childTypeId)
      {
        assert contentOrder[..k + 1][..k] == contentOrder[..k];
        if contentOrder[k].id != childTypeId {
          kept := kept + [contentOrder[k]];
        }
      }
      assert contentOrder[..|contentOrder|] == contentOrder;
      contentOrder := kept;
      assert State().sizes == Cleared(old(State()), childTypeId).sizes;
    }
  }
}
