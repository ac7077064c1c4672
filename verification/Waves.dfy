/** Grouping steps into waves: repeatedly the ready steps of the lowest phase are
    taken in name order as long as the budget has room for them. */
module Waves {
  import opened Order
  import opened OrderingGraph
  import opened Domain
  import opened Budget

  datatype Wave = Wave(number: nat, steps: seq<Step>)
  datatype WaveError = InvalidLimits | IdRequired | DuplicateStep(id: string) | CycleOrUnknown | LimitsPreventAll

  function CloneStep(s: Step): Step {
    s.(failureDomains := Sort(Less, s.failureDomains), dependencies := Sort(Less, s.dependencies))
  }

  predicate ScheduleLess(a: Step, b: Step) {
    a.phase < b.phase || (a.phase == b.phase && Less(a.id, b.id))
  }

  lemma ScheduleLessIsStrict()
    ensures StrictOrder(ScheduleLess)
  {
    LessIsTotal();
  }

  // --- Loading the input ---

  /** The steps by id, or the first fault met reading them in order. */
  function Load(steps: seq<Step>): (r: Result<map<string, Step>, WaveError>)
    ensures r.Failure? ==> r.error.IdRequired? || r.error.DuplicateStep?
  {
    if steps == [] then Success(map[])
    else
      var before, last := Load(steps[..|steps| - 1]), steps[|steps| - 1];
      if before.Failure? then before
      else if last.id == "" then Failure(IdRequired)
      else if last.id in before.value then Failure(DuplicateStep(last.id))
      else Success(before.value[last.id := CloneStep(last)])
  }

  /** Ids are non-empty and distinct. */
  ghost predicate Identified(steps: seq<Step>) {
    && (forall i :: 0 <= i < |steps| ==> steps[i].id != "")
    && (forall i, j :: 0 <= i < j < |steps| ==> steps[i].id != steps[j].id)
  }

  ghost predicate ById(steps: seq<Step>, m: map<string, Step>) {
    && (forall n :: n in m <==> exists i :: 0 <= i < |steps| && steps[i].id == n)
    && (forall i :: 0 <= i < |steps| ==> m[steps[i].id] == CloneStep(steps[i]))
  }

  lemma ByIdStep(init: seq<Step>, last: Step, m: map<string, Step>)
    requires ById(init, m) && last.id !in m
    ensures ById(init + [last], m[last.id := CloneStep(last)])
  {
    var steps, m' := init + [last], m[last.id := CloneStep(last)];
    forall n ensures n in m' <==> exists i :: 0 <= i < |steps| && steps[i].id == n {
      if n == last.id {
        assert steps[|init|].id == n;
      } else if n in m {
        var i :| 0 <= i < |init| && init[i].id == n;
        assert steps[i].id == n;
      }
    }
  }

  lemma IdentifiedStep(init: seq<Step>, last: Step, m: map<string, Step>)
    requires Identified(init) && ById(init, m)
    ensures Identified(init + [last]) <==> last.id != "" && last.id !in m
  {
    var steps := init + [last];
    assert steps[|init|] == last && forall i :: 0 <= i < |init| ==> steps[i] == init[i];
    if last.id in m {
      var i :| 0 <= i < |init| && init[i].id == last.id;
      assert steps[i].id == steps[|init|].id;
    }
  }

  /** Loading succeeds exactly on identified input and then keeps every step. */
  lemma {:induction false} LoadIff(steps: seq<Step>)
    ensures Load(steps).Success? <==> Identified(steps)
    ensures Load(steps).Success? ==> ById(steps, Load(steps).value)
  {
    if steps != [] {
      var init, last := steps[..|steps| - 1], steps[|steps| - 1];
      assert steps == init + [last];
      LoadIff(init);
      if Identified(init) {
        IdentifiedStep(init, last, Load(init).value);
        if last.id !in Load(init).value {
          ByIdStep(init, last, Load(init).value);
        }
      } else {
        assert forall i :: 0 <= i < |init| ==> steps[i] == init[i];
      }
    }
  }

  lemma {:induction false} LoadFails(steps: seq<Step>, i: nat)
    requires i <= |steps| && Load(steps[..i]).Failure?
    ensures Load(steps) == Load(steps[..i])
  {
    if i == |steps| {
      assert steps[..i] == steps;
    } else {
      assert steps[..|steps| - 1][..i] == steps[..i];
      LoadFails(steps[..|steps| - 1], i);
    }
  }

  method LoadPending(steps: seq<Step>) returns (r: Result<map<string, Step>, WaveError>)
    ensures r == Load(steps)
  {
    var pending: map<string, Step> := map[];
    for i := 0 to |steps|
      invariant Load(steps[..i]) == Success(pending)
    {
      assert steps[..i + 1][..i] == steps[..i];
      if steps[i].id == "" {
        LoadFails(steps, i + 1);
        return Failure(IdRequired);
      }
      if steps[i].id in pending {
        LoadFails(steps, i + 1);
        return Failure(DuplicateStep(steps[i].id));
      }
      pending := pending[steps[i].id := CloneStep(steps[i])];
    }
    assert steps[..|steps|] == steps;
    return Success(pending);
  }

  // --- Ready steps ---

  ghost predicate Keyed(pending: map<string, Step>) {
    forall n :: n in pending ==> pending[n].id == n
  }

  predicate DependenciesComplete(s: Step, completed: set<string>) {
    forall d :: d in s.dependencies ==> d in completed
  }

  ghost predicate IsReady(pending: map<string, Step>, completed: set<string>, s: Step) {
    s.id in pending && pending[s.id] == s && DependenciesComplete(s, completed)
  }

  /** Exactly the ready steps, by phase and then by name. */
  ghost predicate ReadyList(pending: map<string, Step>, completed: set<string>, ready: seq<Step>) {
    Ascending(ScheduleLess, ready) && forall s :: s in ready <==> IsReady(pending, completed, s)
  }

  lemma ReadyListUnique(pending: map<string, Step>, completed: set<string>, a: seq<Step>, b: seq<Step>)
    requires ReadyList(pending, completed, a) && ReadyList(pending, completed, b)
    ensures a == b
  {
    ScheduleLessIsStrict();
    AscendingUnique(ScheduleLess, a, b);
  }

  method CollectReady(pending: map<string, Step>, completed: set<string>) returns (ready: seq<Step>)
    requires Keyed(pending)
    ensures ReadyList(pending, completed, ready)
  {
    ready := [];
    var todo := pending.Keys;
    while todo != {}
      invariant todo <= pending.Keys
      invariant forall s :: s in ready <==> IsReady(pending, completed, s) && s.id !in todo
      invariant forall i, j :: 0 <= i < j < |ready| ==> ready[i].id != ready[j].id
    {
      var n :| n in todo;
      assert forall i :: 0 <= i < |ready| ==> ready[i].id != n by {
        forall i | 0 <= i < |ready| ensures ready[i].id != n { assert ready[i] in ready; }
      }
      if DependenciesComplete(pending[n], completed) {
        ready := ready + [pending[n]];
      }
      todo := todo - {n};
    }
    ready := SortReady(ready);
  }

  method SortReady(found: seq<Step>) returns (ready: seq<Step>)
    requires forall i, j :: 0 <= i < j < |found| ==> found[i].id != found[j].id
    ensures Ascending(ScheduleLess, ready) && forall s :: s in ready <==> s in found
  {
    ready := Sort(ScheduleLess, found);
    ScheduleLessIsStrict();
    LessIsTotal();
    SortAscends(ScheduleLess, found);
  }

  // --- Filling a wave ---

  /** How steps are charged to the budget; the scheduler uses `KeysFor`. */
  type Keying = Step -> seq<Key>

  function Front(ready: seq<Step>, phase: int): seq<Step> {
    if ready == [] || ready[0].phase != phase then [] else [ready[0]] + Front(ready[1..], phase)
  }

  ghost function KeyLists(keys: Keying, steps: seq<Step>): (r: seq<seq<Key>>)
    ensures |r| == |steps| && forall i :: 0 <= i < |r| ==> r[i] == keys(steps[i])
  {
    seq(|steps|, i requires 0 <= i < |steps| => keys(steps[i]))
  }

  /** Each step in turn, if all of its keys still have room. */
  ghost function Fill(keys: Keying, l: Limits, held: multiset<Key>, steps: seq<Step>): seq<Step>
    decreases |steps|
  {
    if steps == [] then []
    else if Free(l, held, keys(steps[0])) then
      [steps[0]] + Fill(keys, l, held + multiset(keys(steps[0])), steps[1..])
    else Fill(keys, l, held, steps[1..])
  }

  ghost predicate Full(keys: Keying, l: Limits, wave: seq<Step>, s: Step) {
    exists k :: k in keys(s) && Sum(KeyLists(keys, wave))[k] >= LimitOf(l, k)
  }

  lemma KeyListsAppend(keys: Keying, wave: seq<Step>, s: Step)
    ensures KeyLists(keys, wave + [s]) == KeyLists(keys, wave) + [keys(s)]
    ensures Sum(KeyLists(keys, wave + [s])) == Sum(KeyLists(keys, wave)) + multiset(keys(s))
  {
    var lists := KeyLists(keys, wave) + [keys(s)];
    assert KeyLists(keys, wave + [s]) == lists;
    assert lists[..|lists| - 1] == KeyLists(keys, wave);
  }

  lemma {:induction false} SumGrows(keys: Keying, wave: seq<Step>, more: seq<Step>)
    ensures Sum(KeyLists(keys, wave)) <= Sum(KeyLists(keys, wave + more))
  {
    if more == [] {
      assert wave + more == wave;
    } else {
      var init, last := more[..|more| - 1], more[|more| - 1];
      SumGrows(keys, wave, init);
      KeyListsAppend(keys, wave + init, last);
      assert wave + more == wave + init + [last];
    }
  }

  /** Greedy filling respects every limit and leaves out only steps some key has no room for. */
  lemma {:induction false} FillIsMaximal(keys: Keying, l: Limits, wave: seq<Step>, steps: seq<Step>)
    requires WithinLimits(l, KeyLists(keys, wave))
    ensures var w := wave + Fill(keys, l, Sum(KeyLists(keys, wave)), steps);
            && WithinLimits(l, KeyLists(keys, w))
            && forall s :: s in steps ==> s in w || Full(keys, l, w, s)
    decreases |steps|
  {
    if steps == [] {
      assert wave + [] == wave;
    } else {
      var s, rest := steps[0], steps[1..];
      assert steps == [s] + rest;
      if Free(l, Sum(KeyLists(keys, wave)), keys(s)) {
        KeyListsAppend(keys, wave, s);
        AcquireKeepsLimits(l, KeyLists(keys, wave), keys(s));
        FillIsMaximal(keys, l, wave + [s], rest);
        assert wave + Fill(keys, l, Sum(KeyLists(keys, wave)), steps) ==
               wave + [s] + Fill(keys, l, Sum(KeyLists(keys, wave + [s])), rest);
      } else {
        FillIsMaximal(keys, l, wave, rest);
        var k :| k in keys(s) && Sum(KeyLists(keys, wave))[k] >= LimitOf(l, k);
        SumGrows(keys, wave, Fill(keys, l, Sum(KeyLists(keys, wave)), rest));
      }
    }
  }

  lemma {:induction false} FillAscends(keys: Keying, l: Limits, held: multiset<Key>, steps: seq<Step>)
    requires Ascending(ScheduleLess, steps)
    ensures Ascending(ScheduleLess, Fill(keys, l, held, steps))
    ensures forall s :: s in Fill(keys, l, held, steps) ==> s in steps
    decreases |steps|
  {
    if steps != [] {
      var s, rest := steps[0], steps[1..];
      assert steps == [s] + rest;
      forall t | t in rest ensures ScheduleLess(s, t) {
        var i :| 0 <= i < |rest| && rest[i] == t;
        assert steps[i + 1] == t;
      }
      if Free(l, held, keys(s)) {
        FillAscends(keys, l, held + multiset(keys(s)), rest);
      } else {
        FillAscends(keys, l, held, rest);
      }
    }
  }

  lemma {:induction false} FrontFacts(ready: seq<Step>, phase: int)
    requires Ascending(ScheduleLess, ready) && forall s :: s in ready ==> s.phase >= phase
    ensures Ascending(ScheduleLess, Front(ready, phase))
    ensures forall s :: s in Front(ready, phase) <==> s in ready && s.phase == phase
  {
    if ready != [] {
      var s, rest := ready[0], ready[1..];
      assert ready == [s] + rest;
      forall t | t in rest ensures ScheduleLess(s, t) {
        var i :| 0 <= i < |rest| && rest[i] == t;
        assert ready[i + 1] == t;
      }
      if s.phase == phase {
        FrontFacts(rest, phase);
      }
    }
  }

  // --- What a wave must satisfy ---

  ghost function Ids(wave: seq<Step>): set<string> {
    set s | s in wave :: s.id
  }

  /** A wave that may follow the completed steps: ready steps of the lowest ready phase, listed by
      name, no key held by more of them than its limit, and no room for any ready step left out. */
  ghost predicate SafeWave(keys: Keying, l: Limits, pending: map<string, Step>, completed: set<string>,
                           wave: seq<Step>) {
    && wave != []
    && Ascending(ScheduleLess, wave)
    && (forall s :: s in wave ==> IsReady(pending, completed, s) && s.phase == wave[0].phase)
    && (forall s :: IsReady(pending, completed, s) ==> s.phase >= wave[0].phase)
    && WithinLimits(l, KeyLists(keys, wave))
    && (forall s :: IsReady(pending, completed, s) && s.phase == wave[0].phase ==> s in wave || Full(keys, l, wave, s))
  }

  ghost function NextWave(keys: Keying, l: Limits, ready: seq<Step>): seq<Step>
    requires ready != []
  {
    Fill(keys, l, multiset{}, Front(ready, ready[0].phase))
  }

  lemma NextWaveIsSafe(keys: Keying, l: Limits, pending: map<string, Step>, completed: set<string>, ready: seq<Step>)
    requires ValidLimits(l) && ReadyList(pending, completed, ready) && ready != []
    ensures SafeWave(keys, l, pending, completed, NextWave(keys, l, ready))
  {
    var phase := ready[0].phase;
    var front, wave := Front(ready, phase), NextWave(keys, l, ready);
    forall s | s in ready ensures s.phase >= phase {
      var i :| 0 <= i < |ready| && ready[i] == s;
      assert i == 0 || ScheduleLess(ready[0], ready[i]);
    }
    FrontFacts(ready, phase);
    FillAscends(keys, l, multiset{}, front);
    assert KeyLists(keys, []) == [];
    forall k ensures 0 <= LimitOf(l, k) { LimitsArePositive(l, k); }
    FillIsMaximal(keys, l, [], front);
    assert [] + Fill(keys, l, multiset{}, front) == wave;
    FirstFits(keys, l, front);
  }

  /** An empty budget has room for any first step: the "limits prevent every ready step" error cannot occur. */
  lemma FirstFits(keys: Keying, l: Limits, front: seq<Step>)
    requires ValidLimits(l) && front != []
    ensures Fill(keys, l, multiset{}, front) != []
  {
    forall k | k in keys(front[0]) ensures 0 < LimitOf(l, k) { LimitsArePositive(l, k); }
  }

  // --- Whole schedules ---

  /** Everything in the waves so far. */
  ghost function Done(waves: seq<seq<Step>>): set<string> {
    if waves == [] then {} else Done(waves[..|waves| - 1]) + Ids(waves[|waves| - 1])
  }

  lemma {:induction false} DoneMembers(waves: seq<seq<Step>>, n: string)
    ensures n in Done(waves) <==> exists i :: 0 <= i < |waves| && n in Ids(waves[i])
  {
    if waves != [] {
      var init := waves[..|waves| - 1];
      assert forall i :: 0 <= i < |init| ==> init[i] == waves[i];
      DoneMembers(init, n);
    }
  }

  /** Safe waves, each given what the earlier ones completed, that leave nothing out. */
  ghost predicate SafeWaves(keys: Keying, l: Limits, pending: map<string, Step>, waves: seq<seq<Step>>) {
    && (forall i :: 0 <= i < |waves| ==>
          SafeWave(keys, l, pending - Done(waves[..i]), Done(waves[..i]), waves[i]))
    && Done(waves) == pending.Keys
  }

  ghost predicate IsNext(keys: Keying, l: Limits, pending: map<string, Step>, completed: set<string>, wave: seq<Step>) {
    exists ready :: ready != [] && ReadyList(pending, completed, ready) && wave == NextWave(keys, l, ready)
  }

  /** The schedule the builder produces, wave by wave. */
  ghost predicate GreedyWaves(keys: Keying, l: Limits, pending: map<string, Step>, waves: seq<seq<Step>>) {
    && (forall i :: 0 <= i < |waves| ==> IsNext(keys, l, pending - Done(waves[..i]), Done(waves[..i]), waves[i]))
    && Done(waves) == pending.Keys
  }

  lemma GreedyIsSafe(keys: Keying, l: Limits, pending: map<string, Step>, waves: seq<seq<Step>>)
    requires ValidLimits(l) && GreedyWaves(keys, l, pending, waves)
    ensures SafeWaves(keys, l, pending, waves)
  {
    forall i | 0 <= i < |waves|
      ensures SafeWave(keys, l, pending - Done(waves[..i]), Done(waves[..i]), waves[i])
    {
      var p, c := pending - Done(waves[..i]), Done(waves[..i]);
      assert IsNext(keys, l, p, c, waves[i]);
      var ready :| ready != [] && ReadyList(p, c, ready) && waves[i] == NextWave(keys, l, ready);
      NextWaveIsSafe(keys, l, p, c, ready);
    }
  }

  lemma IsNextUnique(keys: Keying, l: Limits, pending: map<string, Step>, completed: set<string>, a: seq<Step>,
                     b: seq<Step>)
    requires IsNext(keys, l, pending, completed, a) && IsNext(keys, l, pending, completed, b)
    ensures a == b
  {
    var r :| r != [] && ReadyList(pending, completed, r) && a == NextWave(keys, l, r);
    var r' :| r' != [] && ReadyList(pending, completed, r') && b == NextWave(keys, l, r');
    ReadyListUnique(pending, completed, r, r');
  }

  lemma NothingNext(keys: Keying, l: Limits, pending: map<string, Step>, completed: set<string>, wave: seq<Step>)
    requires IsNext(keys, l, pending, completed, wave)
    ensures pending != map[]
  {
    var r :| r != [] && ReadyList(pending, completed, r) && wave == NextWave(keys, l, r);
    assert r[0] in r;
  }

  lemma SameNext(keys: Keying, l: Limits, pending: map<string, Step>, a: seq<seq<Step>>, b: seq<seq<Step>>, i: nat)
    requires GreedyWaves(keys, l, pending, a) && GreedyWaves(keys, l, pending, b)
    requires i < |a| && i < |b| && a[..i] == b[..i]
    ensures a[i] == b[i]
  {
    IsNextUnique(keys, l, pending - Done(a[..i]), Done(a[..i]), a[i], b[i]);
  }

  /** Lists that agree at a position whenever they agree before it agree throughout. */
  lemma {:induction false} AgreeStepwise<T>(a: seq<T>, b: seq<T>, n: nat)
    requires n <= |a| && n <= |b|
    requires forall i :: 0 <= i < n && a[..i] == b[..i] ==> a[i] == b[i]
    ensures a[..n] == b[..n]
  {
    if n > 0 {
      AgreeStepwise(a, b, n - 1);
      assert a[..n] == a[..n - 1] + [a[n - 1]] && b[..n] == b[..n - 1] + [b[n - 1]];
    }
  }

  lemma GreedyPrefixes(keys: Keying, l: Limits, pending: map<string, Step>, a: seq<seq<Step>>, b: seq<seq<Step>>,
                       n: nat)
    requires GreedyWaves(keys, l, pending, a) && GreedyWaves(keys, l, pending, b)
    requires n <= |a| && n <= |b|
    ensures a[..n] == b[..n]
  {
    forall i | 0 <= i < n && a[..i] == b[..i] ensures a[i] == b[i] {
      SameNext(keys, l, pending, a, b, i);
    }
    AgreeStepwise(a, b, n);
  }

  lemma GreedyNotLonger(keys: Keying, l: Limits, pending: map<string, Step>, a: seq<seq<Step>>, b: seq<seq<Step>>)
    requires GreedyWaves(keys, l, pending, a) && GreedyWaves(keys, l, pending, b)
    ensures |b| <= |a|
  {
    if |a| < |b| {
      GreedyPrefixes(keys, l, pending, a, b, |a|);
      assert b[..|a|] == a[..|a|] == a;
      NothingNext(keys, l, pending - Done(a), Done(a), b[|a|]);
      assert false;
    }
  }

  /** The schedule is a function of the loaded steps: map iteration order does not show. */
  lemma GreedyUnique(keys: Keying, l: Limits, pending: map<string, Step>, a: seq<seq<Step>>, b: seq<seq<Step>>)
    requires GreedyWaves(keys, l, pending, a) && GreedyWaves(keys, l, pending, b)
    ensures a == b
  {
    GreedyNotLonger(keys, l, pending, a, b);
    GreedyNotLonger(keys, l, pending, b, a);
    GreedyPrefixes(keys, l, pending, a, b, |a|);
    assert a[..|a|] == a && b[..|b|] == b;
  }

  // --- Consequences for every safe schedule ---

  /** Each step is in exactly one wave. */
  lemma EachStepOnce(keys: Keying, l: Limits, pending: map<string, Step>, waves: seq<seq<Step>>, n: string)
    requires SafeWaves(keys, l, pending, waves) && Keyed(pending)
    ensures n in pending ==> exists i :: 0 <= i < |waves| && n in Ids(waves[i])
    ensures forall i, s :: 0 <= i < |waves| && s in waves[i] ==> s.id in pending && pending[s.id] == s
    ensures forall i, j :: 0 <= i < |waves| && 0 <= j < |waves| && n in Ids(waves[i]) && n in Ids(waves[j]) ==> i == j
  {
    DoneMembers(waves, n);
    forall i, s | 0 <= i < |waves| && s in waves[i] ensures s.id in pending && pending[s.id] == s {
      assert IsReady(pending - Done(waves[..i]), Done(waves[..i]), s);
    }
    forall i, j | 0 <= i < j < |waves| && n in Ids(waves[i]) ensures n !in Ids(waves[j]) {
      assert waves[..j][i] == waves[i];
      DoneMembers(waves[..j], n);
      forall s | s in waves[j] ensures s.id != n {
        assert IsReady(pending - Done(waves[..j]), Done(waves[..j]), s);
      }
    }
  }

  /** Every dependency of a step is in a strictly earlier wave. */
  lemma DependenciesInEarlierWaves(keys: Keying, l: Limits, pending: map<string, Step>, waves: seq<seq<Step>>, i: nat,
                                   s: Step, d: string)
    requires SafeWaves(keys, l, pending, waves)
    requires i < |waves| && s in waves[i] && d in s.dependencies
    ensures exists j :: 0 <= j < i && d in Ids(waves[j])
  {
    assert IsReady(pending - Done(waves[..i]), Done(waves[..i]), s);
    DoneMembers(waves[..i], d);
    var j :| 0 <= j < i && d in Ids(waves[..i][j]);
    assert waves[..i][j] == waves[j];
  }

  ghost function DependencyGraph(pending: map<string, Step>): Graph {
    map n | n in pending :: set d | d in pending[n].dependencies
  }

  ghost function WaveOf(waves: seq<seq<Step>>, n: string): int
    requires n in Done(waves)
  {
    DoneMembers(waves, n);
    var i :| 0 <= i < |waves| && n in Ids(waves[i]);
    i
  }

  lemma WaveDrops(keys: Keying, l: Limits, pending: map<string, Step>, waves: seq<seq<Step>>, n: string, d: string)
    requires SafeWaves(keys, l, pending, waves) && Keyed(pending)
    requires n in pending && d in pending[n].dependencies
    ensures d in pending && WaveOf(waves, d) < WaveOf(waves, n)
  {
    var i := WaveOf(waves, n);
    EachStepOnce(keys, l, pending, waves, n);
    EachStepOnce(keys, l, pending, waves, d);
    var s :| s in waves[i] && s.id == n;
    DependenciesInEarlierWaves(keys, l, pending, waves, i, s, d);
    var j :| 0 <= j < i && d in Ids(waves[j]);
    DoneMembers(waves, d);
  }

  /** Only inputs whose dependencies are known and acyclic have a safe schedule. */
  lemma SafeMeansOrdered(keys: Keying, l: Limits, pending: map<string, Step>, waves: seq<seq<Step>>)
    requires SafeWaves(keys, l, pending, waves) && Keyed(pending)
    ensures Closed(DependencyGraph(pending)) && !Cyclic(DependencyGraph(pending))
  {
    var rank := map n | n in pending :: WaveOf(waves, n);
    forall n, d | n in pending && d in pending[n].dependencies ensures Below(rank, d, n) {
      WaveDrops(keys, l, pending, waves, n, d);
    }
    RankedDependencies(pending, rank);
  }

  ghost predicate Below(rank: map<string, int>, d: string, n: string) {
    d in rank && n in rank && rank[d] < rank[n]
  }

  lemma RankedDependencies(pending: map<string, Step>, rank: map<string, int>)
    requires rank.Keys == pending.Keys
    requires forall n, d :: n in pending && d in pending[n].dependencies ==> Below(rank, d, n)
    ensures Closed(DependencyGraph(pending)) && !Cyclic(DependencyGraph(pending))
  {
    RankedIsAcyclic(DependencyGraph(pending), rank);
  }

  /** When nothing is ready, what is left waits on itself or on unknown names. */
  lemma StuckIsCyclic(pending: map<string, Step>, completed: set<string>)
    requires Keyed(pending) && completed <= pending.Keys && completed != pending.Keys
    requires ReadyList(pending - completed, completed, [])
    ensures !Closed(DependencyGraph(pending)) || Cyclic(DependencyGraph(pending))
  {
    var g, left := DependencyGraph(pending), pending.Keys - completed;
    assert pending.Keys == completed + left;
    if Closed(g) {
      forall n | n in left ensures g[n] * left != {} {
        assert !IsReady(pending - completed, completed, pending[n]);
        var d :| d in pending[n].dependencies && d !in completed;
        assert d in g[n] && d in g.Keys;
        assert d in g[n] * left;
      }
      TrappedHasCycle(g, left);
    }
  }

  // --- Phases ---

  /** Every dependency is pending too and has a lower phase. */
  ghost predicate PhasesRespectDependencies(pending: map<string, Step>) {
    forall n, d :: n in pending && d in pending[n].dependencies ==> LowerPhase(pending, d, n)
  }

  ghost predicate LowerPhase(pending: map<string, Step>, d: string, n: string) {
    d in pending && n in pending && pending[d].phase < pending[n].phase
  }

  lemma {:induction false} ReadyBelow(pending: map<string, Step>, completed: set<string>, n: string, low: int)
      returns (t: Step)
    requires Keyed(pending) && PhasesRespectDependencies(pending) && n in pending && n !in completed
    requires forall m :: m in pending ==> low <= pending[m].phase
    ensures IsReady(pending - completed, completed, t) && t.phase <= pending[n].phase
    decreases pending[n].phase - low
  {
    if DependenciesComplete(pending[n], completed) {
      t := pending[n];
    } else {
      var d :| d in pending[n].dependencies && d !in completed;
      assert LowerPhase(pending, d, n);
      t := ReadyBelow(pending, completed, d, low);
    }
  }

  /** When phases follow the dependencies, waves never go back to an earlier phase. */
  lemma WavePhasesAscend(keys: Keying, l: Limits, pending: map<string, Step>, waves: seq<seq<Step>>, i: nat, j: nat)
    requires SafeWaves(keys, l, pending, waves) && Keyed(pending) && PhasesRespectDependencies(pending)
    requires i < j < |waves|
    ensures waves[i] != [] && waves[j] != [] && waves[i][0].phase <= waves[j][0].phase
  {
    var low := LowerBound(map n | n in pending :: pending[n].phase, pending.Keys);
    var before := Done(waves[..i]);
    assert SafeWave(keys, l, pending - before, before, waves[i]);
    assert SafeWave(keys, l, pending - Done(waves[..j]), Done(waves[..j]), waves[j]);
    var s := waves[j][0];
    assert s in waves[j];
    DoneGrows(waves, i, j);
    var t := ReadyBelow(pending, before, s.id, low);
  }

  lemma DoneGrows(waves: seq<seq<Step>>, i: nat, j: nat)
    requires i <= j <= |waves|
    ensures Done(waves[..i]) <= Done(waves[..j])
  {
    forall n | n in Done(waves[..i]) ensures n in Done(waves[..j]) {
      DoneMembers(waves[..i], n);
      DoneMembers(waves[..j], n);
      var k :| 0 <= k < i && n in Ids(waves[..i][k]);
      assert waves[..j][k] == waves[..i][k];
    }
  }
}
