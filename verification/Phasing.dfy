/** The two topological traversals of the planner. Both count, for every node,
    the dependency occurrences still waiting, and release a node when its count
    reaches zero; they differ in which ready node is taken next. */
module Phasing {
  import opened Order
  import opened OrderingGraph
  import opened Domain

  // --- Edges ---

  /** Services named by the dependencies that pass `keep`, with repetitions. */
  function Kept(deps: seq<Dependency>, keep: Dependency -> bool): seq<string> {
    if deps == [] then []
    else
      var last := deps[|deps| - 1];
      Kept(deps[..|deps| - 1], keep) + if keep(last) then [last.service] else []
  }

  lemma {:induction false} KeptMembers(deps: seq<Dependency>, keep: Dependency -> bool, s: string)
    ensures s in Kept(deps, keep) <==> exists d :: d in deps && keep(d) && d.service == s
  {
    if deps != [] {
      var init, last := deps[..|deps| - 1], deps[|deps| - 1];
      assert deps == init + [last];
      KeptMembers(init, keep, s);
    }
  }

  lemma KeptStep(deps: seq<Dependency>, keep: Dependency -> bool, i: nat)
    requires i < |deps|
    ensures Kept(deps[..i + 1], keep) == Kept(deps[..i], keep) + if keep(deps[i]) then [deps[i].service] else []
  {
    assert deps[..i + 1][..i] == deps[..i];
  }

  function KeptOf(definitions: map<string, seq<Dependency>>, keep: Dependency -> bool): map<string, seq<string>> {
    map n | n in definitions :: Kept(definitions[n], keep)
  }

  ghost function Edges(kept: map<string, seq<string>>): Graph {
    map n | n in kept :: set d | d in kept[n]
  }

  function Kids(children: map<string, seq<string>>, n: string): seq<string> {
    if n in children then children[n] else []
  }

  ghost predicate Distinct(s: seq<string>) {
    forall x :: multiset(s)[x] <= 1
  }

  ghost predicate Linked(kept: map<string, seq<string>>, indegree: map<string, int>,
                         children: map<string, seq<string>>) {
    && (forall n :: n in kept ==> At(indegree, n) == |kept[n]|)
    && (forall n, d :: n in kept ==> multiset(Kids(children, d))[n] == multiset(kept[n])[d])
    && (forall c, d :: c in Kids(children, d) ==> c in kept)
  }

  lemma AppendCounts(s: seq<string>, x: string)
    ensures forall y :: multiset(s + [x])[y] == multiset(s)[y] + if x == y then 1 else 0
  {
  }

  method AddEdge(name: string, dependency: string, indegree0: map<string, int>, children0: map<string, seq<string>>)
      returns (indegree: map<string, int>, children: map<string, seq<string>>)
    ensures forall n :: At(indegree, n) == At(indegree0, n) + if n == name then 1 else 0
    ensures forall d, n :: multiset(Kids(children, d))[n] ==
                           multiset(Kids(children0, d))[n] + if d == dependency && n == name then 1 else 0
  {
    AppendCounts(Kids(children0, dependency), name);
    indegree := indegree0[name := At(indegree0, name) + 1];
    children := children0[dependency := Kids(children0, dependency) + [name]];
  }

  /** One definition's dependencies, counted and turned into child lists. */
  method LinkOne(name: string, deps: seq<Dependency>, keep: Dependency -> bool, indegree0: map<string, int>,
                 children0: map<string, seq<string>>)
      returns (indegree: map<string, int>, children: map<string, seq<string>>)
    ensures forall n :: At(indegree, n) == At(indegree0, n) + if n == name then |Kept(deps, keep)| else 0
    ensures forall d, n :: multiset(Kids(children, d))[n] == multiset(Kids(children0, d))[n] +
                           if n == name then multiset(Kept(deps, keep))[d] else 0
  {
    indegree, children := indegree0, children0;
    assert Kept(deps[..0], keep) == [];
    for i := 0 to |deps|
      invariant forall n :: At(indegree, n) == At(indegree0, n) + if n == name then |Kept(deps[..i], keep)| else 0
      invariant forall d, n :: multiset(Kids(children, d))[n] == multiset(Kids(children0, d))[n] +
                               if n == name then multiset(Kept(deps[..i], keep))[d] else 0
    {
      KeptStep(deps, keep, i);
      if keep(deps[i]) {
        var d := deps[i].service;
        AppendCounts(Kept(deps[..i], keep), d);
        indegree, children := AddEdge(name, d, indegree, children);
      }
    }
    assert deps[..|deps|] == deps;
  }

  /** The edges of every node outside `todo` are linked. */
  ghost predicate LinkedOutside(kept: map<string, seq<string>>, todo: set<string>, indegree: map<string, int>,
                                children: map<string, seq<string>>) {
    && (forall n :: At(indegree, n) == if n in kept && n !in todo then |kept[n]| else 0)
    && (forall d, n :: multiset(Kids(children, d))[n] ==
                       if n in kept && n !in todo then multiset(kept[n])[d] else 0)
  }

  lemma LinkedStep(kept: map<string, seq<string>>, todo: set<string>, name: string, indegree: map<string, int>,
                   children: map<string, seq<string>>, indegree': map<string, int>, children': map<string, seq<string>>)
    requires LinkedOutside(kept, todo, indegree, children) && name in todo && name in kept
    requires forall n :: At(indegree', n) == At(indegree, n) + if n == name then |kept[name]| else 0
    requires forall d, n :: multiset(Kids(children', d))[n] == multiset(Kids(children, d))[n] +
                            if n == name then multiset(kept[name])[d] else 0
    ensures LinkedOutside(kept, todo - {name}, indegree', children')
  {
  }

  lemma LinkedAll(kept: map<string, seq<string>>, indegree: map<string, int>, children: map<string, seq<string>>)
    requires LinkedOutside(kept, {}, indegree, children)
    ensures Linked(kept, indegree, children)
  {
    forall c, d | c in Kids(children, d) ensures c in kept {
      assert multiset(Kids(children, d))[c] > 0;
    }
  }

  method Link(definitions: map<string, seq<Dependency>>, keep: Dependency -> bool)
      returns (indegree: map<string, int>, children: map<string, seq<string>>)
    ensures Linked(KeptOf(definitions, keep), indegree, children)
  {
    ghost var kept := KeptOf(definitions, keep);
    indegree, children := map[], map[];
    var todo := definitions.Keys;
    while todo != {}
      invariant todo <= definitions.Keys
      invariant LinkedOutside(kept, todo, indegree, children)
    {
      var name :| name in todo;
      var indegree', children' := LinkOne(name, definitions[name], keep, indegree, children);
      LinkedStep(kept, todo, name, indegree, children, indegree', children');
      todo, indegree, children := todo - {name}, indegree', children';
    }
    LinkedAll(kept, indegree, children);
  }

  // --- Progress of a traversal ---

  /** How many entries of `deps` are not done. */
  ghost function Waiting(deps: seq<string>, done: set<string>): nat {
    if deps == [] then 0
    else (if deps[0] in done then 0 else 1) + Waiting(deps[1..], done)
  }

  lemma {:induction false} WaitingZero(deps: seq<string>, done: set<string>)
    ensures Waiting(deps, done) == 0 <==> forall d :: d in deps ==> d in done
  {
    if deps != [] {
      assert deps == [deps[0]] + deps[1..];
      WaitingZero(deps[1..], done);
    }
  }

  lemma {:induction false} WaitingAfter(deps: seq<string>, done: set<string>, name: string)
    requires name !in done
    ensures Waiting(deps, done + {name}) == Waiting(deps, done) - multiset(deps)[name]
  {
    if deps != [] {
      assert deps == [deps[0]] + deps[1..];
      WaitingAfter(deps[1..], done, name);
    }
  }

  lemma {:induction false} WaitingForAll(deps: seq<string>)
    ensures Waiting(deps, {}) == |deps|
  {
    if deps != [] {
      WaitingForAll(deps[1..]);
    }
  }

  ghost predicate Counts(kept: map<string, seq<string>>, done: set<string>, ready: seq<string>,
                         indegree: map<string, int>) {
    && done <= kept.Keys
    && Distinct(ready)
    && (forall r :: r in ready ==> r in kept && r !in done)
    && (forall n :: n in kept ==> At(indegree, n) == Waiting(kept[n], done))
    && (forall n :: n in kept ==> (n in done || n in ready <==> Waiting(kept[n], done) == 0))
  }

  ghost predicate Phases(kept: map<string, seq<string>>, base: map<string, int>, done: set<string>,
                         phase: map<string, int>) {
    && (forall n :: n in kept ==> At(phase, n) >= At(base, n))
    && (forall n, d :: n in kept && d in kept[n] && d in done ==> At(phase, n) >= At(phase, d) + 1)
    && (forall n :: n in kept ==>
          At(phase, n) == At(base, n) ||
          exists d :: d in kept[n] && d in done && At(phase, n) == At(phase, d) + 1)
  }

  /** One child of a taken node: it moves above `level`, drops one waiting occurrence and,
      when none is left, becomes ready. `tidy` keeps the queue sorted. */
  method Settle(child: string, level: int, indegree0: map<string, int>, phase0: map<string, int>,
                ready0: seq<string>, tidy: bool)
      returns (indegree: map<string, int>, phase: map<string, int>, ready: seq<string>)
    requires Distinct(ready0) && child !in ready0
    ensures indegree == indegree0[child := At(indegree0, child) - 1]
    ensures phase == if At(phase0, child) <= level then phase0[child := level + 1] else phase0
    ensures Distinct(ready)
    ensures forall c :: c in ready <==> c in ready0 || (c == child && At(indegree0, child) == 1)
  {
    indegree, phase, ready := indegree0, phase0, ready0;
    if At(phase, child) <= level {
      phase := phase[child := level + 1];
    }
    indegree := indegree[child := At(indegree, child) - 1];
    if At(indegree, child) == 0 {
      ready := ready + [child];
      if tidy {
        ready := Sort(Less, ready);
      }
    }
  }

  /** The edges to `kids` are gone: counts are lowered, phases raised and the freed nodes ready. */
  ghost predicate Relaxed(level: int, kids: seq<string>, indegree0: map<string, int>, phase0: map<string, int>,
                          ready0: seq<string>, indegree: map<string, int>, phase: map<string, int>,
                          ready: seq<string>) {
    && (forall c :: At(indegree, c) == At(indegree0, c) - multiset(kids)[c])
    && (forall c :: At(phase, c) == if c in kids && At(phase0, c) <= level then level + 1 else At(phase0, c))
    && Distinct(ready)
    && (forall c :: c in ready <==> c in ready0 || (c in kids && At(indegree, c) == 0))
  }

  lemma RelaxedStep(level: int, kids: seq<string>, child: string, indegree0: map<string, int>,
                    phase0: map<string, int>, ready0: seq<string>, indegree: map<string, int>, phase: map<string, int>,
                    ready: seq<string>, indegree': map<string, int>, phase': map<string, int>, ready': seq<string>)
    requires Relaxed(level, kids, indegree0, phase0, ready0, indegree, phase, ready)
    requires indegree' == indegree[child := At(indegree, child) - 1]
    requires phase' == if At(phase, child) <= level then phase[child := level + 1] else phase
    requires Distinct(ready') && child !in ready && At(indegree, child) > 0
    requires forall c :: c in ready' <==> c in ready || (c == child && At(indegree, child) == 1)
    ensures Relaxed(level, kids + [child], indegree0, phase0, ready0, indegree', phase', ready')
  {
    AppendCounts(kids, child);
    assert forall c :: c in kids + [child] <==> c in kids || c == child;
  }

  /** All children of a taken node, one entry per edge. */
  method Relax(name: string, kids: seq<string>, indegree0: map<string, int>, phase0: map<string, int>,
               ready0: seq<string>, tidy: bool)
      returns (indegree: map<string, int>, phase: map<string, int>, ready: seq<string>)
    requires forall c :: c in kids ==> multiset(kids)[c] <= At(indegree0, c)
    requires name !in kids && Distinct(ready0)
    requires forall c :: c in kids ==> c !in ready0
    ensures forall c :: At(indegree, c) == At(indegree0, c) - multiset(kids)[c]
    ensures forall c :: At(phase, c) ==
              if c in kids && At(phase0, c) <= At(phase0, name) then At(phase0, name) + 1 else At(phase0, c)
    ensures Distinct(ready)
    ensures forall c :: c in ready <==> c in ready0 || (c in kids && At(indegree, c) == 0)
  {
    indegree, phase, ready := indegree0, phase0, ready0;
    var level := At(phase0, name);
    for i := 0 to |kids|
      invariant Relaxed(level, kids[..i], indegree0, phase0, ready0, indegree, phase, ready)
    {
      var child := kids[i];
      PrefixCount(kids, i);
      var indegree', phase', ready' := Settle(child, level, indegree, phase, ready, tidy);
      RelaxedStep(level, kids[..i], child, indegree0, phase0, ready0, indegree, phase, ready, indegree', phase',
                  ready');
      indegree, phase, ready := indegree', phase', ready';
    }
    assert kids[..|kids|] == kids;
  }

  lemma PrefixCount(kids: seq<string>, i: nat)
    requires i < |kids|
    ensures kids[..i + 1] == kids[..i] + [kids[i]]
    ensures multiset(kids[..i])[kids[i]] < multiset(kids)[kids[i]]
  {
    assert kids == kids[..i] + kids[i..];
    assert kids[i] in kids[i..];
  }

  lemma CountsAdvance(kept: map<string, seq<string>>, done: set<string>, ready: seq<string>, indegree: map<string, int>,
                      name: string, kids: seq<string>, rest: seq<string>, indegree': map<string, int>,
                      ready': seq<string>)
    requires Counts(kept, done, ready, indegree) && name in ready
    requires forall n :: n in kept ==> multiset(kids)[n] == multiset(kept[n])[name]
    requires forall c :: c in kids ==> c in kept
    requires forall x :: x in rest <==> x in ready && x != name
    requires forall c :: At(indegree', c) == At(indegree, c) - multiset(kids)[c]
    requires Distinct(ready') && forall c :: c in ready' <==> c in rest || (c in kids && At(indegree', c) == 0)
    ensures Counts(kept, done + {name}, ready', indegree')
  {
    forall n | n in kept
      ensures Waiting(kept[n], done + {name}) == Waiting(kept[n], done) - multiset(kids)[n]
    {
      WaitingAfter(kept[n], done, name);
    }
    forall n | n in kept
      ensures n in done + {name} || n in ready' <==> Waiting(kept[n], done + {name}) == 0
    {
      if n in kids {
        assert multiset(kids)[n] > 0;
        assert Waiting(kept[n], done) > 0;
      } else {
        assert multiset(kids)[n] == 0;
      }
    }
  }

  lemma PhasesAdvance(kept: map<string, seq<string>>, base: map<string, int>, done: set<string>,
                      phase: map<string, int>, name: string, kids: seq<string>, phase': map<string, int>)
    requires Phases(kept, base, done, phase) && name in kept && name !in done && name !in kids
    requires forall n :: n in kept ==> (n in kids <==> name in kept[n])
    requires forall c :: c in kids ==> c !in done
    requires forall c :: At(phase', c) ==
               if c in kids && At(phase, c) <= At(phase, name) then At(phase, name) + 1 else At(phase, c)
    ensures Phases(kept, base, done + {name}, phase')
  {
    forall n, d | n in kept && d in kept[n] && d in done + {name}
      ensures At(phase', n) >= At(phase', d) + 1
    {
      assert At(phase', d) == At(phase, d);
    }
    forall n | n in kept && At(phase', n) != At(base, n)
      ensures exists d :: d in kept[n] && d in done + {name} && At(phase', n) == At(phase', d) + 1
    {
      if At(phase', n) == At(phase, n) {
        var d :| d in kept[n] && d in done && At(phase, n) == At(phase, d) + 1;
        assert At(phase', d) == At(phase, d);
      } else {
        assert name in kept[n] && At(phase', name) == At(phase, name);
      }
    }
  }

  /** Children of a ready node are not done, not ready, and differ from it. */
  lemma KidsWait(kept: map<string, seq<string>>, done: set<string>, ready: seq<string>, indegree: map<string, int>,
                 name: string, kids: seq<string>)
    requires Counts(kept, done, ready, indegree) && name in ready
    requires forall n :: n in kept ==> multiset(kids)[n] == multiset(kept[n])[name]
    requires forall c :: c in kids ==> c in kept
    ensures name !in kids
    ensures forall c :: c in kids ==> c !in done && c !in ready && multiset(kids)[c] <= At(indegree, c)
    ensures forall n :: n in kept ==> (n in kids <==> name in kept[n])
  {
    forall c | c in kids
      ensures c !in done && c !in ready && multiset(kids)[c] <= At(indegree, c)
    {
      assert multiset(kids)[c] > 0;
      assert name in kept[c];
      WaitingAfter(kept[c], done, name);
    }
    forall n | n in kept ensures n in kids <==> name in kept[n] {
      assert n in kids <==> multiset(kids)[n] > 0;
    }
  }

  /** When nothing is ready any more, what is left waits on itself or on unknown names. */
  lemma StuckIsCyclic(kept: map<string, seq<string>>, done: set<string>, indegree: map<string, int>)
    requires Counts(kept, done, [], indegree) && done != kept.Keys
    ensures !Closed(Edges(kept)) || Cyclic(Edges(kept))
  {
    var g := Edges(kept);
    var left := kept.Keys - done;
    assert kept.Keys == done + left;
    if Closed(g) {
      forall n | n in left ensures g[n] * left != {} {
        WaitingZero(kept[n], done);
        var d :| d in kept[n] && d !in done;
        assert d in g[n] && d in g.Keys;
        assert d in g[n] * left;
      }
      TrappedHasCycle(g, left);
    }
  }

  ghost function Total(kept: map<string, seq<string>>, phase: map<string, int>): map<string, int> {
    map n | n in kept :: At(phase, n)
  }

  lemma FinishedRespects(kept: map<string, seq<string>>, base: map<string, int>, indegree: map<string, int>,
                         phase: map<string, int>)
    requires Counts(kept, kept.Keys, [], indegree) && Phases(kept, base, kept.Keys, phase)
    ensures Closed(Edges(kept)) && Respects(Edges(kept), Total(kept, base), Total(kept, phase))
  {
    var g := Edges(kept);
    forall n, d | n in g && d in g[n] ensures d in g {
      WaitingZero(kept[n], kept.Keys);
    }
  }

  lemma FinishedIsForced(kept: map<string, seq<string>>, base: map<string, int>, phase: map<string, int>)
    requires Closed(Edges(kept)) && Phases(kept, base, kept.Keys, phase)
    ensures Forced(Edges(kept), Total(kept, base), Total(kept, phase))
  {
    var g, b, f := Edges(kept), Total(kept, base), Total(kept, phase);
    forall n | n in g && f[n] != b[n] ensures exists d :: d in g[n] && f[n] == f[d] + 1 {
      var d :| d in kept[n] && d in kept.Keys && At(phase, n) == At(phase, d) + 1;
      assert d in g[n] && f[n] == f[d] + 1;
    }
  }

  /** Both outcomes of a traversal: the least phases, or a cycle or unknown name. */
  ghost predicate Outcome(kept: map<string, seq<string>>, base: map<string, int>, r: Option<map<string, int>>) {
    && (r.Some? <==> Closed(Edges(kept)) && !Cyclic(Edges(kept)))
    && (r.Some? ==> LeastPhases(Edges(kept), Total(kept, base), Total(kept, r.value)))
  }

  /** A traversal that took every node is right to succeed. */
  lemma FinishedIsLeast(kept: map<string, seq<string>>, base: map<string, int>, indegree: map<string, int>,
                        phase: map<string, int>)
    requires Counts(kept, kept.Keys, [], indegree) && Phases(kept, base, kept.Keys, phase)
    ensures Outcome(kept, base, Some(phase))
  {
    var g, b, f := Edges(kept), Total(kept, base), Total(kept, phase);
    FinishedRespects(kept, base, indegree, phase);
    FinishedIsForced(kept, base, phase);
    assert !Cyclic(g) by { RankedIsAcyclic(g, f); }
    ForcedIsLeast(g, b, f);
  }

  lemma Concluded(kept: map<string, seq<string>>, base: map<string, int>, done: set<string>,
                  indegree: map<string, int>, phase: map<string, int>)
    requires Counts(kept, done, [], indegree) && Phases(kept, base, done, phase)
    ensures |done| == |kept.Keys| ==> Outcome(kept, base, Some(phase))
    ensures |done| != |kept.Keys| ==> Outcome(kept, base, None)
  {
    if |done| == |kept.Keys| {
      SameSize(done, kept.Keys);
      FinishedIsLeast(kept, base, indegree, phase);
    } else {
      StuckIsCyclic(kept, done, indegree);
    }
  }

  // --- The traversals ---

  /** Nodes with no waiting dependency, in whatever order the map yields them. */
  method CollectReady(nodes: set<string>, indegree: map<string, int>) returns (ready: seq<string>)
    ensures Distinct(ready)
    ensures forall n :: n in ready <==> n in nodes && At(indegree, n) == 0
  {
    ready := [];
    var todo := nodes;
    while todo != {}
      invariant todo <= nodes && Distinct(ready)
      invariant forall n :: n in ready <==> n in nodes - todo && At(indegree, n) == 0
    {
      var name :| name in todo;
      todo := todo - {name};
      if At(indegree, name) == 0 {
        assert name !in ready;
        ready := ready + [name];
      }
    }
  }

  lemma StartCounts(kept: map<string, seq<string>>, indegree: map<string, int>, children: map<string, seq<string>>,
                    ready: seq<string>)
    requires Linked(kept, indegree, children) && Distinct(ready)
    requires forall n :: n in ready <==> n in kept && At(indegree, n) == 0
    ensures Counts(kept, {}, ready, indegree)
  {
    forall n | n in kept ensures Waiting(kept[n], {}) == |kept[n]| { WaitingForAll(kept[n]); }
  }

  /** Takes one ready node: the newest, or the first with the queue kept sorted. */
  method Take(ghost kept: map<string, seq<string>>, ghost base: map<string, int>, ghost done: set<string>,
              children: map<string, seq<string>>, indegree0: map<string, int>, phase0: map<string, int>,
              ready0: seq<string>, newest: bool)
      returns (ghost name: string, indegree: map<string, int>, phase: map<string, int>, ready: seq<string>)
    requires ready0 != []
    requires forall n, d :: n in kept ==> multiset(Kids(children, d))[n] == multiset(kept[n])[d]
    requires forall c, d :: c in Kids(children, d) ==> c in kept
    requires Counts(kept, done, ready0, indegree0) && Phases(kept, base, done, phase0)
    ensures name in kept && name !in done
    ensures Counts(kept, done + {name}, ready, indegree) && Phases(kept, base, done + {name}, phase)
  {
    var next, rest;
    if newest {
      next, rest := ready0[|ready0| - 1], ready0[..|ready0| - 1];
      assert ready0 == rest + [next];
    } else {
      next, rest := ready0[0], ready0[1..];
      assert ready0 == [next] + rest;
    }
    name := next;
    RestMembers(ready0, rest, name);
    var kids := Kids(children, next);
    if !newest {
      kids := Sort(Less, kids);
    }
    KidsWait(kept, done, ready0, indegree0, name, kids);
    indegree, phase, ready := Relax(next, kids, indegree0, phase0, rest, !newest);
    CountsAdvance(kept, done, ready0, indegree0, name, kids, rest, indegree, ready);
    PhasesAdvance(kept, base, done, phase0, name, kids, phase);
  }

  /** Takes nodes until none is ready, then compares how many were taken with how many there are. */
  method Traverse(ghost kept: map<string, seq<string>>, nodes: set<string>, ghost base: map<string, int>,
                  indegree0: map<string, int>, children: map<string, seq<string>>, phase0: map<string, int>,
                  ready0: seq<string>, newest: bool)
      returns (r: Option<map<string, int>>)
    requires nodes == kept.Keys && Linked(kept, indegree0, children)
    requires Counts(kept, {}, ready0, indegree0) && Phases(kept, base, {}, phase0)
    ensures Outcome(kept, base, r)
  {
    var indegree, phase, ready := indegree0, phase0, ready0;
    var processed := 0;
    ghost var done: set<string> := {};
    while |ready| > 0
      invariant Counts(kept, done, ready, indegree) && Phases(kept, base, done, phase)
      invariant processed == |done|
      decreases kept.Keys - done
    {
      ghost var name;
      name, indegree, phase, ready := Take(kept, base, done, children, indegree, phase, ready, newest);
      assert kept.Keys - (done + {name}) < kept.Keys - done by { assert name in kept.Keys - done; }
      processed := processed + 1;
      done := done + {name};
    }
    assert ready == [];
    Concluded(kept, base, done, indegree, phase);
    r := if processed != |nodes| then None else Some(phase);
  }

  lemma RestMembers(ready: seq<string>, rest: seq<string>, name: string)
    requires Distinct(ready) && multiset(ready) == multiset(rest) + multiset{name}
    ensures Distinct(rest) && forall x :: x in rest <==> x in ready && x != name
  {
    forall x ensures multiset(rest)[x] <= 1 {
      assert multiset(ready)[x] <= 1;
    }
    forall x ensures x in rest <==> x in ready && x != name {
      assert x in rest <==> multiset(rest)[x] > 0;
      assert x in ready <==> multiset(ready)[x] > 0;
    }
  }

  lemma SameSize(a: set<string>, b: set<string>)
    requires a <= b && |a| == |b|
    ensures a == b
  {
    assert |b - a| == |b| - |a|;
  }

  /** Every service starts at phase zero; the most recently readied service is taken first. */
  method GlobalPhases(definitions: map<string, seq<Dependency>>) returns (r: Option<map<string, int>>)
    ensures Outcome(KeptOf(definitions, Orders), map[], r)
  {
    ghost var kept := KeptOf(definitions, Orders);
    var indegree, children := Link(definitions, Orders);
    var ready := CollectReady(definitions.Keys, indegree);
    StartCounts(kept, indegree, children, ready);
    r := Traverse(kept, definitions.Keys, map[], indegree, children, map[], ready, true);
  }

  /** Only dependencies inside the selection count. */
  function Selected(names: set<string>): (keep: Dependency -> bool) {
    (d: Dependency) => Orders(d) && d.service in names
  }

  /** The selected services start at their own release phase; the alphabetically first ready service is taken. */
  method SelectedPhases(definitions: map<string, seq<Dependency>>, base: map<string, int>)
      returns (r: Option<map<string, int>>)
    ensures Outcome(KeptOf(definitions, Selected(definitions.Keys)), base, r)
    ensures Closed(Edges(KeptOf(definitions, Selected(definitions.Keys))))
  {
    var keep := Selected(definitions.Keys);
    ghost var kept := KeptOf(definitions, keep);
    SelectedIsClosed(definitions);
    var indegree, children := Link(definitions, keep);
    var ready := CollectReady(definitions.Keys, indegree);
    ready := Sort(Less, ready);
    StartCounts(kept, indegree, children, ready);
    r := Traverse(kept, definitions.Keys, base, indegree, children, base, ready, false);
  }

  lemma SelectedIsClosed(definitions: map<string, seq<Dependency>>)
    ensures Closed(Edges(KeptOf(definitions, Selected(definitions.Keys))))
  {
    var kept := KeptOf(definitions, Selected(definitions.Keys));
    forall n, d | n in kept && d in kept[n] ensures d in kept {
      KeptMembers(definitions[n], Selected(definitions.Keys), d);
    }
  }

  /** Any two traversals of the same edges from the same base agree, whatever order they take nodes in,
      however edges are repeated, and whichever of the two loops ran. */
  lemma TraversalsAgree(kept: map<string, seq<string>>, base: map<string, int>, r: Option<map<string, int>>,
                        kept': map<string, seq<string>>, base': map<string, int>, r': Option<map<string, int>>)
    requires Edges(kept) == Edges(kept') && Total(kept, base) == Total(kept', base')
    requires Outcome(kept, base, r) && Outcome(kept', base', r')
    ensures r.Some? <==> r'.Some?
    ensures r.Some? ==> Total(kept, r.value) == Total(kept', r'.value)
  {
    if r.Some? {
      LeastPhasesUnique(Edges(kept), Total(kept, base), Total(kept, r.value), Total(kept', r'.value));
    }
  }
}
