/** Ordering graphs: every node with the set of nodes it must follow. Walks go
    from a node to what it depends on. */
module OrderingGraph {

  type Graph = map<string, set<string>>

  /** Every dependency is itself a node. */
  ghost predicate Closed(g: Graph) {
    forall n :: n in g ==> g[n] <= g.Keys
  }

  ghost predicate IsWalk(g: Graph, p: seq<string>) {
    && |p| >= 1
    && (forall i :: 0 <= i < |p| ==> p[i] in g)
    && (forall i :: 0 <= i < |p| - 1 ==> p[i + 1] in g[p[i]])
  }

  /** A cycle is a walk of at least one edge back to its start; `[n, n]` is a self-loop. */
  ghost predicate IsCycle(g: Graph, p: seq<string>) {
    IsWalk(g, p) && |p| >= 2 && p[0] == p[|p| - 1]
  }

  ghost predicate Cyclic(g: Graph) {
    exists p :: IsCycle(g, p)
  }

  // --- A set in which every node still waits for a member contains a cycle ---

  ghost predicate Trapped(g: Graph, s: set<string>) {
    && s <= g.Keys
    && (forall n :: n in s ==> g[n] * s != {})
  }

  lemma {:induction false} TrappedWalk(g: Graph, s: set<string>, len: nat) returns (p: seq<string>)
    requires Trapped(g, s) && s != {}
    ensures IsWalk(g, p) && |p| == len + 1
    ensures forall i :: 0 <= i < |p| ==> p[i] in s
  {
    if len == 0 {
      var n :| n in s;
      p := [n];
    } else {
      var q := TrappedWalk(g, s, len - 1);
      var last := q[|q| - 1];
      var d :| d in g[last] * s;
      p := q + [d];
    }
  }

  lemma {:induction false} RepeatWithin(p: seq<string>, s: set<string>) returns (i: nat, j: nat)
    requires |p| > |s| && forall k :: 0 <= k < |p| ==> p[k] in s
    ensures i < j < |p| && p[i] == p[j]
  {
    var last := |p| - 1;
    if k :| 0 <= k < last && p[k] == p[last] {
      return k, last;
    }
    i, j := RepeatWithin(p[..last], s - {p[last]});
  }

  lemma TrappedHasCycle(g: Graph, s: set<string>)
    requires Trapped(g, s) && s != {}
    ensures Cyclic(g)
  {
    var p := TrappedWalk(g, s, |s|);
    var i, j := RepeatWithin(p, s);
    var c := p[i..j + 1];
    assert forall k :: 0 <= k < |c| ==> c[k] == p[i + k];
    assert IsCycle(g, c);
  }

  /** A numbering that drops along every edge rules out cycles. */
  lemma {:induction false} RankDrops(g: Graph, rank: map<string, int>, p: seq<string>)
    requires IsWalk(g, p) && g.Keys <= rank.Keys
    requires forall n, d :: n in g && d in g[n] && d in g ==> rank[d] < rank[n]
    ensures rank[p[|p| - 1]] <= rank[p[0]] - (|p| - 1)
  {
    if |p| > 1 {
      var q := p[..|p| - 1];
      RankDrops(g, rank, q);
      assert p[|p| - 1] in g[q[|q| - 1]];
    }
  }

  lemma RankedIsAcyclic(g: Graph, rank: map<string, int>)
    requires g.Keys <= rank.Keys
    requires forall n, d :: n in g && d in g[n] && d in g ==> rank[d] < rank[n]
    ensures !Cyclic(g)
  {
    forall p | IsWalk(g, p) && |p| >= 2 ensures p[0] != p[|p| - 1] {
      RankDrops(g, rank, p);
    }
  }

  /** Dropping nodes and edges cannot create a cycle. */
  lemma SubgraphAcyclic(g: Graph, h: Graph)
    requires h.Keys <= g.Keys && forall n :: n in h ==> h[n] <= g[n]
    requires !Cyclic(g)
    ensures !Cyclic(h)
  {
    forall p | IsCycle(h, p) ensures IsCycle(g, p) {
      forall i | 0 <= i < |p| - 1 ensures p[i + 1] in g[p[i]] {
        assert p[i] in h && p[i + 1] in h[p[i]];
      }
    }
  }

  // --- Phases ---

  /** `f` puts every node at or above its base and strictly above its dependencies. */
  ghost predicate Respects(g: Graph, base: map<string, int>, f: map<string, int>)
    requires Closed(g) && g.Keys <= base.Keys
  {
    && f.Keys == g.Keys
    && (forall n :: n in g ==> f[n] >= base[n])
    && (forall n, d :: n in g && d in g[n] ==> f[n] >= f[d] + 1)
  }

  /** The phase assignment: the pointwise least function that respects the graph. */
  ghost predicate LeastPhases(g: Graph, base: map<string, int>, f: map<string, int>)
    requires Closed(g) && g.Keys <= base.Keys
  {
    && Respects(g, base, f)
    && (forall h, n :: Respects(g, base, h) && n in g ==> f[n] <= h[n])
  }

  /** No phase is higher than its base or some dependency forces it to be. */
  ghost predicate Forced(g: Graph, base: map<string, int>, f: map<string, int>)
    requires Closed(g) && g.Keys <= base.Keys && g.Keys <= f.Keys
  {
    forall n :: n in g ==> f[n] == base[n] || exists d :: d in g[n] && f[n] == f[d] + 1
  }

  lemma {:induction false} ForcedBelow(g: Graph, base: map<string, int>, f: map<string, int>, h: map<string, int>,
                                       n: string, low: int)
    requires Closed(g) && g.Keys <= base.Keys
    requires Respects(g, base, f) && Forced(g, base, f) && Respects(g, base, h)
    requires n in g && forall m :: m in g ==> low <= base[m]
    ensures f[n] <= h[n]
    decreases f[n] - low
  {
    if f[n] != base[n] {
      var d :| d in g[n] && f[n] == f[d] + 1;
      assert d in g;
      ForcedBelow(g, base, f, h, d, low);
    }
  }

  lemma {:induction false} LowerBound(base: map<string, int>, keys: set<string>) returns (low: int)
    requires keys <= base.Keys
    ensures forall m :: m in keys ==> low <= base[m]
  {
    if keys == {} {
      low := 0;
    } else {
      var k :| k in keys;
      low := LowerBound(base, keys - {k});
      low := if base[k] < low then base[k] else low;
    }
  }

  lemma ForcedIsLeast(g: Graph, base: map<string, int>, f: map<string, int>)
    requires Closed(g) && g.Keys <= base.Keys
    requires Respects(g, base, f) && Forced(g, base, f)
    ensures LeastPhases(g, base, f)
  {
    var low := LowerBound(base, g.Keys);
    forall h, n | Respects(g, base, h) && n in g ensures f[n] <= h[n] {
      ForcedBelow(g, base, f, h, n, low);
    }
  }

  /** The phase assignment is unique. */
  lemma LeastPhasesUnique(g: Graph, base: map<string, int>, f: map<string, int>, f': map<string, int>)
    requires Closed(g) && g.Keys <= base.Keys
    requires LeastPhases(g, base, f) && LeastPhases(g, base, f')
    ensures f == f'
  {
    forall n | n in g ensures f[n] == f'[n] {
      assert f[n] <= f'[n] && f'[n] <= f[n];
    }
  }

  // --- Starting from phase zero, phases are longest chains ---

  ghost predicate AllZero(base: map<string, int>) {
    forall n :: n in base ==> base[n] == 0
  }

  /** A least phase assignment is forced: otherwise one phase could be lowered. */
  lemma LeastIsForced(g: Graph, base: map<string, int>, f: map<string, int>)
    requires Closed(g) && g.Keys <= base.Keys && LeastPhases(g, base, f)
    ensures Forced(g, base, f)
  {
    forall n | n in g && f[n] != base[n] ensures exists d :: d in g[n] && f[n] == f[d] + 1 {
      if forall d :: d in g[n] ==> f[n] != f[d] + 1 {
        var h := f[n := f[n] - 1];
        assert h[n] < f[n];
        assert Respects(g, base, h) by { RespectsWhenLowered(g, base, f, n); }
        assert false;
      }
    }
  }

  lemma RespectsWhenLowered(g: Graph, base: map<string, int>, f: map<string, int>, n: string)
    requires Closed(g) && g.Keys <= base.Keys && Respects(g, base, f)
    requires n in g && f[n] > base[n] && forall d :: d in g[n] ==> f[n] > f[d] + 1
    ensures Respects(g, base, f[n := f[n] - 1])
  {
    var h := f[n := f[n] - 1];
    forall m, d | m in g && d in g[m] ensures h[m] >= h[d] + 1 {
      assert f[m] >= f[d] + 1;
    }
  }

  lemma WalkFrom(g: Graph, n: string, q: seq<string>)
    requires IsWalk(g, q) && n in g && q[0] in g[n]
    ensures IsWalk(g, [n] + q)
  {
    var p := [n] + q;
    assert p[1..] == q;
    forall i | 0 <= i < |p| - 1 ensures p[i + 1] in g[p[i]] {
      if i > 0 {
        assert p[i] == q[i - 1] && p[i + 1] == q[i];
      }
    }
  }

  lemma {:induction false} ChainOfLength(g: Graph, base: map<string, int>, f: map<string, int>, n: string)
      returns (p: seq<string>)
    requires Closed(g) && g.Keys <= base.Keys && AllZero(base)
    requires Respects(g, base, f) && Forced(g, base, f) && n in g
    ensures IsWalk(g, p) && p[0] == n && |p| == f[n] + 1
    decreases f[n]
  {
    if f[n] == 0 {
      p := [n];
    } else {
      var d :| d in g[n] && f[n] == f[d] + 1;
      assert d in g;
      var q := ChainOfLength(g, base, f, d);
      WalkFrom(g, n, q);
      p := [n] + q;
    }
  }

  /** Some walk from the node has so many edges and none has more. */
  ghost predicate LongestChain(g: Graph, n: string, edges: int) {
    && (exists p :: IsWalk(g, p) && p[0] == n && |p| - 1 == edges)
    && (forall p :: IsWalk(g, p) && p[0] == n ==> |p| - 1 <= edges)
  }

  /** With base zero the phase of a node is the length of its longest chain of dependencies. */
  lemma PhaseIsLongestChain(g: Graph, base: map<string, int>, f: map<string, int>, n: string)
    requires Closed(g) && g.Keys <= base.Keys && AllZero(base)
    requires LeastPhases(g, base, f) && n in g
    ensures LongestChain(g, n, f[n])
  {
    LeastIsForced(g, base, f);
    var p := ChainOfLength(g, base, f, n);
    forall q | IsWalk(g, q) && q[0] == n ensures |q| - 1 <= f[n] {
      RankDrops(g, f, q);
      assert f[q[|q| - 1]] >= 0;
    }
  }

  /** Restarting from phases that already respect the graph changes nothing, on any sub-selection. */
  lemma SubsetKeepsPhases(g: Graph, base: map<string, int>, f: map<string, int>, h: Graph, r: map<string, int>)
    requires Closed(g) && g.Keys <= base.Keys && Respects(g, base, f)
    requires Closed(h) && h.Keys <= g.Keys && forall n :: n in h ==> h[n] <= g[n]
    requires LeastPhases(h, f, r)
    ensures forall n :: n in h ==> r[n] == f[n]
  {
    var cut := map n | n in h :: f[n];
    assert Respects(h, f, cut);
    forall n | n in h ensures r[n] == f[n] {
      assert r[n] <= cut[n];
    }
  }
}
