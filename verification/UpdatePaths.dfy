/** How often a push calls update() on each calculated variable: once per directed path. */
module UpdatePaths {
  import opened DataValues
  import opened CalcGraph

  /** A directed path is the list of positions taken in the notify lists along it, so repeated
      entries of a notify list count as different paths. */
  type Path = seq<nat>

  ghost predicate IsPath(g: Graph, p: nat, path: Path)
    requires Wf(g) && p < g.Size()
    decreases |path|
  {
    && path != [] && path[0] < |g.notify[p]|
    && (assert ParserOk(g, p) && CalcOk(g, g.notify[p][path[0]]);
        |path| > 1 ==> g.calcs[g.notify[p][path[0]]].out.Some?
                       && IsPath(g, g.calcs[g.notify[p][path[0]]].out.value, path[1..]))
  }

  /** The calculated variable a path ends in. */
  ghost function End(g: Graph, p: nat, path: Path): (c: nat)
    requires Wf(g) && p < g.Size() && IsPath(g, p, path)
    ensures c < |g.calcs|
    decreases |path|
  {
    assert ParserOk(g, p) && CalcOk(g, g.notify[p][path[0]]);
    if |path| == 1 then g.notify[p][path[0]]
    else End(g, g.calcs[g.notify[p][path[0]]].out.value, path[1..])
  }

  /** The update() calls of a push from `p`, in the order they are made. */
  ghost function Updates(g: Graph, p: nat): seq<nat>
    requires Wf(g) && p < g.Size()
    decreases g.Size() - p, |g.notify[p]| + 1
  {
    UpdatesFrom(g, p, 0)
  }

  ghost function UpdatesFrom(g: Graph, p: nat, k: nat): seq<nat>
    requires Wf(g) && p < g.Size() && k <= |g.notify[p]|
    decreases g.Size() - p, |g.notify[p]| - k
  {
    if k == |g.notify[p]| then []
    else
      assert ParserOk(g, p) && CalcOk(g, g.notify[p][k]);
      UpdatesOf(g, g.notify[p][k]) + UpdatesFrom(g, p, k + 1)
  }

  /** The update() calls made by one update of `c`, itself first. */
  ghost function UpdatesOf(g: Graph, c: nat): seq<nat>
    requires Wf(g) && c < |g.calcs|
    decreases Height(g, c), Width(g, c) + 2
  {
    assert CalcOk(g, c);
    [c] + match g.calcs[c].out case None => [] case Some(q) => Updates(g, q)
  }

  function Prefixed(k: nat, paths: seq<Path>): (r: seq<Path>)
    ensures |r| == |paths|
    ensures forall i :: 0 <= i < |r| ==> r[i] == [k] + paths[i]
  {
    seq(|paths|, i requires 0 <= i < |paths| => [k] + paths[i])
  }

  /** All paths that leave `p` through entry `k` of its notify list. */
  ghost function PathsVia(g: Graph, p: nat, k: nat): seq<Path>
    requires Wf(g) && p < g.Size() && k < |g.notify[p]|
    decreases g.Size() - p, 0
  {
    assert ParserOk(g, p) && CalcOk(g, g.notify[p][k]);
    [[k]] + match g.calcs[g.notify[p][k]].out case None => [] case Some(q) => Prefixed(k, PathsFrom(g, q, 0))
  }

  ghost function PathsFrom(g: Graph, p: nat, k: nat): seq<Path>
    requires Wf(g) && p < g.Size() && k <= |g.notify[p]|
    decreases g.Size() - p, |g.notify[p]| - k + 1
  {
    if k == |g.notify[p]| then [] else PathsVia(g, p, k) + PathsFrom(g, p, k + 1)
  }

  /** Listing `ps` walks `us`: the i-th update is at the end of the i-th path, no path comes twice. */
  ghost predicate Walks(g: Graph, p: nat, ps: seq<Path>, us: seq<nat>)
    requires Wf(g) && p < g.Size()
  {
    && |ps| == |us|
    && (forall i :: 0 <= i < |ps| ==> IsPath(g, p, ps[i]) && us[i] == End(g, p, ps[i]))
    && (forall i, j :: 0 <= i < j < |ps| ==> ps[i] != ps[j])
  }

  lemma {:induction false} PathsViaWalk(g: Graph, p: nat, k: nat)
    requires Wf(g) && p < g.Size() && k < |g.notify[p]|
    ensures g.notify[p][k] < |g.calcs| && Walks(g, p, PathsVia(g, p, k), UpdatesOf(g, g.notify[p][k]))
    ensures forall i :: 0 <= i < |PathsVia(g, p, k)| ==> PathsVia(g, p, k)[i] != [] && PathsVia(g, p, k)[i][0] == k
    decreases g.Size() - p, 0
  {
    assert ParserOk(g, p) && CalcOk(g, g.notify[p][k]);
    var c := g.notify[p][k];
    if g.calcs[c].out.Some? {
      var q := g.calcs[c].out.value;
      PathsFromWalk(g, q, 0);
      assert Updates(g, q) == UpdatesFrom(g, q, 0);
      LongerWalks(g, p, k, q, PathsFrom(g, q, 0), Updates(g, q));
    }
  }

  lemma LongerWalks(g: Graph, p: nat, k: nat, q: nat, ps: seq<Path>, us: seq<nat>)
    requires Wf(g) && p < g.Size() && k < |g.notify[p]| && g.notify[p][k] < |g.calcs|
    requires g.calcs[g.notify[p][k]].out == Some(q) && q < g.Size() && Walks(g, q, ps, us)
    requires forall i :: 0 <= i < |ps| ==> ps[i] != []
    ensures Walks(g, p, [[k]] + Prefixed(k, ps), [g.notify[p][k]] + us)
  {
    assert ParserOk(g, p) && CalcOk(g, g.notify[p][k]);
    forall i | 0 <= i < |ps| ensures IsPath(g, p, [k] + ps[i]) && End(g, p, [k] + ps[i]) == us[i] {
      assert ([k] + ps[i])[1..] == ps[i];
    }
    forall i, j | 0 <= i < j < |ps| ensures [k] + ps[i] != [k] + ps[j] {
      assert ([k] + ps[i])[1..] == ps[i] && ([k] + ps[j])[1..] == ps[j];
    }
  }

  /** Paths that leave through entry `k`, and after them paths that leave through later entries. */
  lemma WalksTogether(g: Graph, p: nat, k: nat, ps: seq<Path>, us: seq<nat>, qs: seq<Path>, vs: seq<nat>)
    requires Wf(g) && p < g.Size() && Walks(g, p, ps, us) && Walks(g, p, qs, vs)
    requires forall i :: 0 <= i < |ps| ==> ps[i] != [] && ps[i][0] == k
    requires forall i :: 0 <= i < |qs| ==> qs[i] != [] && qs[i][0] > k
    ensures Walks(g, p, ps + qs, us + vs)
    ensures forall i :: 0 <= i < |ps + qs| ==> (ps + qs)[i] != [] && (ps + qs)[i][0] >= k
  {
    var rs := ps + qs;
    forall i, j | 0 <= i < j < |rs| ensures rs[i] != rs[j] {
      assert i < |ps| <= j ==> rs[i][0] < rs[j][0];
    }
  }

  lemma {:induction false} PathsFromWalk(g: Graph, p: nat, k: nat)
    requires Wf(g) && p < g.Size() && k <= |g.notify[p]|
    ensures Walks(g, p, PathsFrom(g, p, k), UpdatesFrom(g, p, k))
    ensures forall i :: 0 <= i < |PathsFrom(g, p, k)| ==> PathsFrom(g, p, k)[i] != [] && PathsFrom(g, p, k)[i][0] >= k
    decreases g.Size() - p, |g.notify[p]| - k + 1
  {
    if k < |g.notify[p]| {
      PathsViaWalk(g, p, k);
      PathsFromWalk(g, p, k + 1);
      WalksTogether(g, p, k, PathsVia(g, p, k), UpdatesOf(g, g.notify[p][k]),
                    PathsFrom(g, p, k + 1), UpdatesFrom(g, p, k + 1));
    }
  }

  lemma {:induction false} EveryPathListed(g: Graph, p: nat, k: nat, path: Path)
    requires Wf(g) && p < g.Size() && k <= |g.notify[p]|
    requires IsPath(g, p, path) && path[0] >= k
    ensures path in PathsFrom(g, p, k)
    decreases |path|, |g.notify[p]| - k
  {
    if path[0] > k {
      EveryPathListed(g, p, k + 1, path);
    } else {
      var ps := PathsVia(g, p, k);
      assert ParserOk(g, p) && CalcOk(g, g.notify[p][k]);
      if |path| == 1 {
        assert path == ps[0];
      } else {
        var q := g.calcs[g.notify[p][k]].out.value;
        EveryPathListed(g, q, 0, path[1..]);
        var i :| 0 <= i < |PathsFrom(g, q, 0)| && PathsFrom(g, q, 0)[i] == path[1..];
        assert path == [k] + path[1..] == ps[i + 1];
      }
      assert path in ps;
    }
  }

  /** Those of `ps` that lead from `p` to `c`. */
  ghost function Ending(g: Graph, p: nat, ps: seq<Path>, c: nat): set<Path>
    requires Wf(g) && p < g.Size()
  {
    set path | path in ps && IsPath(g, p, path) && End(g, p, path) == c
  }

  lemma OneLonger<T>(s: seq<T>, n: nat)
    requires 0 < n <= |s|
    ensures s[..n] == s[..n - 1] + [s[n - 1]]
  {
  }

  lemma {:induction false} CountByPath(g: Graph, p: nat, ps: seq<Path>, us: seq<nat>, c: nat, n: nat)
    requires Wf(g) && p < g.Size() && Walks(g, p, ps, us) && n <= |ps|
    ensures multiset(us[..n])[c] == |Ending(g, p, ps[..n], c)|
  {
    if n > 0 {
      CountByPath(g, p, ps, us, c, n - 1);
      OneLonger(us, n);
      OneLonger(ps, n);
      assert ps[n - 1] !in ps[..n - 1];
      EndingOfLonger(g, p, ps[..n - 1], ps[n - 1], c);
    }
  }

  lemma EndingOfLonger(g: Graph, p: nat, ps: seq<Path>, path: Path, c: nat)
    requires Wf(g) && p < g.Size() && IsPath(g, p, path) && path !in ps
    ensures |Ending(g, p, ps + [path], c)| == |Ending(g, p, ps, c)| + if End(g, p, path) == c then 1 else 0
  {
    var shorter := Ending(g, p, ps, c);
    assert path !in shorter;
    assert Ending(g, p, ps + [path], c) == if End(g, p, path) == c then shorter + {path} else shorter;
  }

  /** One write to `p` updates `c` exactly once per directed path from `p` to `c`. */
  lemma UpdatesOncePerPath(g: Graph, p: nat, c: nat, paths: set<Path>)
    requires Wf(g) && p < g.Size()
    requires forall path :: path in paths <==> IsPath(g, p, path) && End(g, p, path) == c
    ensures multiset(Updates(g, p))[c] == |paths|
  {
    PathsFromWalk(g, p, 0);
    var ps, us := PathsFrom(g, p, 0), Updates(g, p);
    CountByPath(g, p, ps, us, c, |ps|);
    assert ps[..|ps|] == ps && us[..|ps|] == us;
    forall path | IsPath(g, p, path) ensures path in PathsFrom(g, p, 0) {
      EveryPathListed(g, p, 0, path);
    }
    assert paths == Ending(g, p, PathsFrom(g, p, 0), c);
  }

  /** The paths from `p` to `c` are finitely many, so the statement above speaks of every `p` and `c`. */
  lemma PathsAreFinite(g: Graph, p: nat, c: nat) returns (paths: set<Path>)
    requires Wf(g) && p < g.Size()
    ensures forall path :: path in paths <==> IsPath(g, p, path) && End(g, p, path) == c
  {
    paths := Ending(g, p, PathsFrom(g, p, 0), c);
    forall path | IsPath(g, p, path) ensures path in PathsFrom(g, p, 0) {
      EveryPathListed(g, p, 0, path);
    }
  }
}
