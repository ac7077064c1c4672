/** The wave builder itself, proved against the schedules of module Waves. */
module WaveBuilder {
  import opened Order
  import opened OrderingGraph
  import opened Domain
  import opened Budget
  import opened Waves

  lemma {:induction false} FrontFrom(ready: seq<Step>, i: nat, phase: int)
    requires i < |ready|
    ensures Front(ready[i..], phase) ==
            if ready[i].phase == phase then [ready[i]] + Front(ready[i + 1..], phase) else []
  {
    assert ready[i..][1..] == ready[i + 1..];
  }

  /** One step of greedy filling, for any way of charging steps. */
  lemma FillOne(keys: Keying, l: Limits, held: multiset<Key>, s: Step, rest: seq<Step>)
    ensures Fill(keys, l, held, [s] + rest) ==
            if Free(l, held, keys(s)) then [s] + Fill(keys, l, held + multiset(keys(s)), rest)
            else Fill(keys, l, held, rest)
  {
    assert ([s] + rest)[1..] == rest;
  }

  /** Names the steps at which `Charges`, and `Shuts` of the dispatcher, are used. It holds of every step. */
  ghost predicate Charged(s: Step) { true }

  /** `keys` is `KeysFor`, the charging of the budget. Methods take it as a parameter, and lemmas hold of any
      charging, so that proofs about schedules do not look into the keys; the fact is used one step at a time. */
  ghost predicate Charges(keys: Keying) {
    forall s {:trigger Charged(s)} :: Charged(s) ==> keys(s) == KeysFor(s)
  }

  method TryTake(budget: Budget, ghost keys: Keying, step: Step) returns (taken: bool, reservation: seq<Key>)
    requires budget.Valid() && Charges(keys)
    modifies budget
    ensures budget.Valid()
    ensures taken <==> Free(budget.limits, old(budget.held), keys(step))
    ensures taken ==> reservation == keys(step) && budget.held == old(budget.held) + multiset(keys(step))
    ensures !taken ==> budget.held == old(budget.held)
  {
    assert Charged(step);
    var blocked;
    reservation, blocked := budget.TryAcquire(step);
    taken := blocked == [];
  }

  /** Offers one step to the budget and adds it to the wave if there was room. */
  method Offer(budget: Budget, ghost keys: Keying, step: Step, ghost rest: seq<Step>, wave0: seq<Step>,
               reservations0: seq<seq<Key>>)
      returns (wave: seq<Step>, reservations: seq<seq<Key>>)
    requires budget.Valid() && budget.held == Sum(reservations0) && Charges(keys)
    modifies budget
    ensures budget.Valid() && budget.held == Sum(reservations)
    ensures wave0 + Fill(keys, budget.limits, old(budget.held), [step] + rest) ==
            wave + Fill(keys, budget.limits, budget.held, rest)
  {
    FillOne(keys, budget.limits, budget.held, step, rest);
    wave, reservations := wave0, reservations0;
    var taken, reservation := TryTake(budget, keys, step);
    if !taken {
      return;
    }
    SumAppend(reservations, reservation);
    wave := wave + [step];
    reservations := reservations + [reservation];
  }

  /** Fills one wave from the ready steps of the first one's phase. */
  method FillWave(budget: Budget, ghost keys: Keying, ready: seq<Step>)
      returns (wave: seq<Step>, reservations: seq<seq<Key>>)
    requires budget.Valid() && budget.held == multiset{} && ready != [] && Charges(keys)
    modifies budget
    ensures budget.Valid()
    ensures wave == NextWave(keys, budget.limits, ready)
    ensures budget.held == Sum(reservations)
  {
    var minimumPhase := ready[0].phase;
    ghost var l := budget.limits;
    wave, reservations := [], [];
    var i := 0;
    assert ready[0..] == ready;
    while i < |ready|
      invariant 0 <= i <= |ready| && budget.Valid() && budget.held == Sum(reservations)
      invariant NextWave(keys, l, ready) == wave + Fill(keys, l, budget.held, Front(ready[i..], minimumPhase))
    {
      var step := ready[i];
      FrontFrom(ready, i, minimumPhase);
      if step.phase != minimumPhase {
        break;
      }
      wave, reservations := Offer(budget, keys, step, Front(ready[i + 1..], minimumPhase), wave, reservations);
      i := i + 1;
    }
  }

  lemma SumAppend(lists: seq<seq<Key>>, more: seq<Key>)
    ensures Sum(lists + [more]) == Sum(lists) + multiset(more)
  {
    assert (lists + [more])[..|lists|] == lists;
  }

  lemma OneLess(lists: seq<seq<Key>>, i: nat)
    requires i < |lists|
    ensures Sum(lists) - Sum(lists[..i]) - multiset(lists[i]) == Sum(lists) - Sum(lists[..i + 1])
  {
    assert lists[..i + 1] == lists[..i] + [lists[i]];
    SumAppend(lists[..i], lists[i]);
  }

  /** Gives every reservation of the wave back; the budget is then empty again. */
  method ReleaseAll(budget: Budget, reservations: seq<seq<Key>>)
    requires budget.Valid() && budget.held == Sum(reservations)
    modifies budget
    ensures budget.Valid() && budget.held == multiset{}
  {
    for i := 0 to |reservations|
      invariant budget.Valid() && budget.held == Sum(reservations) - Sum(reservations[..i])
    {
      OneLess(reservations, i);
      budget.Release(reservations[i]);
    }
    assert reservations[..|reservations|] == reservations;
  }

  lemma AppendNext(keys: Keying, l: Limits, pending: map<string, Step>, waves: seq<seq<Step>>, wave: seq<Step>)
    requires forall i :: 0 <= i < |waves| ==>
               IsNext(keys, l, pending - Done(waves[..i]), Done(waves[..i]), waves[i])
    requires IsNext(keys, l, pending - Done(waves), Done(waves), wave)
    ensures var more := waves + [wave];
            && Done(more) == Done(waves) + Ids(wave)
            && forall i :: 0 <= i < |more| ==> IsNext(keys, l, pending - Done(more[..i]), Done(more[..i]), more[i])
  {
    var more := waves + [wave];
    assert more[..|waves|] == waves;
    forall i | 0 <= i < |more| ensures IsNext(keys, l, pending - Done(more[..i]), Done(more[..i]), more[i]) {
      if i < |waves| {
        assert more[..i] == waves[..i];
      }
    }
  }

  /** One round of the outer loop: the next wave, or the two ways it can fail to exist. */
  method NextRound(budget: Budget, ghost keys: Keying, pending: map<string, Step>, completed: set<string>)
      returns (r: Result<seq<Step>, WaveError>)
    requires budget.Valid() && budget.held == multiset{} && Keyed(pending) && Charges(keys)
    modifies budget
    ensures budget.Valid() && budget.held == multiset{}
    ensures r.Success? ==> IsNext(keys, budget.limits, pending, completed, r.value)
                           && SafeWave(keys, budget.limits, pending, completed, r.value)
    ensures r.Failure? ==> r.error == CycleOrUnknown && ReadyList(pending, completed, [])
  {
    var ready := CollectReady(pending, completed);
    if |ready| == 0 {
      return Failure(CycleOrUnknown);
    }
    var wave, reservations := FillWave(budget, keys, ready);
    NextWaveIsSafe(keys, budget.limits, pending, completed, ready);
    if |wave| == 0 {
      return Failure(LimitsPreventAll);
    }
    ReleaseAll(budget, reservations);
    return Success(wave);
  }

  lemma WaveShrinks(keys: Keying, l: Limits, pending: map<string, Step>, completed: set<string>, wave: seq<Step>)
    requires SafeWave(keys, l, pending, completed, wave)
    ensures Ids(wave) <= pending.Keys && Ids(wave) != {}
  {
    assert wave[0] in wave && wave[0].id in Ids(wave);
    forall n | n in Ids(wave) ensures n in pending {
      var s :| s in wave && s.id == n;
      assert IsReady(pending, completed, s);
    }
  }

  method Schedule(pending0: map<string, Step>, limits: Limits, ghost keys: Keying)
      returns (r: Result<seq<seq<Step>>, WaveError>)
    requires ValidLimits(limits) && Keyed(pending0) && Charges(keys)
    ensures r.Success? ==> GreedyWaves(keys, limits, pending0, r.value)
    ensures r.Failure? ==> r.error == CycleOrUnknown &&
                           (!Closed(DependencyGraph(pending0)) || Cyclic(DependencyGraph(pending0)))
  {
    var budget := new Budget(limits);
    var pending := pending0;
    var completed: set<string> := {};
    var waves: seq<seq<Step>> := [];
    while |pending| > 0
      invariant budget.Valid() && budget.held == multiset{} && budget.limits == limits && fresh(budget)
      invariant completed == Done(waves) && completed <= pending0.Keys && pending == pending0 - completed
      invariant forall i :: 0 <= i < |waves| ==>
                  IsNext(keys, limits, pending0 - Done(waves[..i]), Done(waves[..i]), waves[i])
      decreases |pending|
    {
      var round := NextRound(budget, keys, pending, completed);
      if round.Failure? {
        StuckIsCyclic(pending0, completed);
        return Failure(round.error);
      }
      var wave := round.value;
      AppendNext(keys, limits, pending0, waves, wave);
      WaveShrinks(keys, limits, pending, completed, wave);
      Shrinks(pending, Ids(wave));
      MinusTwice(pending0, completed, Ids(wave));
      pending := pending - (set s | s in wave :: s.id);
      completed := completed + (set s | s in wave :: s.id);
      waves := waves + [wave];
    }
    NothingLeft(pending0, completed);
    return Success(waves);
  }

  lemma MinusTwice(pending: map<string, Step>, a: set<string>, b: set<string>)
    ensures (pending - a) - b == pending - (a + b)
  {
  }

  lemma Shrinks(pending: map<string, Step>, ids: set<string>)
    requires ids <= pending.Keys && ids != {}
    ensures |pending - ids| < |pending|
  {
    var rest := pending - ids;
    assert rest.Keys == pending.Keys - ids;
    assert |rest.Keys| == |pending.Keys| - |ids|;
    assert |rest| == |rest.Keys| && |pending| == |pending.Keys|;
  }

  lemma NothingLeft(pending: map<string, Step>, completed: set<string>)
    requires completed <= pending.Keys && |pending - completed| == 0
    ensures completed == pending.Keys
  {
    var rest := pending - completed;
    assert rest.Keys == pending.Keys - completed;
    assert |rest.Keys| == 0;
    assert pending.Keys == completed + rest.Keys;
  }

  function Numbered(waves: seq<seq<Step>>): (r: seq<Wave>)
    ensures |r| == |waves| && forall i :: 0 <= i < |r| ==> r[i] == Wave(i, waves[i])
  {
    seq(|waves|, i requires 0 <= i < |waves| => Wave(i, waves[i]))
  }

  /** The input can be scheduled: positive limits, non-empty distinct ids, known and acyclic dependencies. */
  ghost predicate Schedulable(steps: seq<Step>, limits: Limits) {
    && ValidLimits(limits)
    && Identified(steps)
    && Load(steps).Success?
    && Closed(DependencyGraph(Load(steps).value))
    && !Cyclic(DependencyGraph(Load(steps).value))
  }

  lemma LoadIsKeyed(steps: seq<Step>)
    requires Load(steps).Success?
    ensures Keyed(Load(steps).value)
  {
    LoadIff(steps);
    var m := Load(steps).value;
    forall n | n in m ensures m[n].id == n {
      var i :| 0 <= i < |steps| && steps[i].id == n;
    }
  }

  lemma KeysForCharges()
    ensures Charges(KeysFor)
  {
  }

  /** The one result of a list: invalid limits first, then the first bad id, then the dependencies. */
  ghost predicate Builds(steps: seq<Step>, limits: Limits, r: Result<seq<Wave>, WaveError>) {
    if !ValidLimits(limits) then r == Failure(InvalidLimits)
    else if Load(steps).Failure? then r == Failure(Load(steps).error)
    else if Closed(DependencyGraph(Load(steps).value)) && !Cyclic(DependencyGraph(Load(steps).value)) then
      exists waves :: r == Success(Numbered(waves)) && GreedyWaves(KeysFor, limits, Load(steps).value, waves)
    else r == Failure(CycleOrUnknown)
  }

  method BuildWaves(steps: seq<Step>, limits: Limits) returns (r: Result<seq<Wave>, WaveError>)
    ensures Builds(steps, limits, r)
    ensures r.Success? <==> Schedulable(steps, limits)
    ensures r != Failure(LimitsPreventAll)
    ensures r.Success? ==> exists waves ::
              r.value == Numbered(waves) && GreedyWaves(KeysFor, limits, Load(steps).value, waves)
              && SafeWaves(KeysFor, limits, Load(steps).value, waves)
  {
    if !ValidLimits(limits) {
      return Failure(InvalidLimits);
    }
    var loaded := LoadPending(steps);
    LoadIff(steps);
    if loaded.Failure? {
      return Failure(loaded.error);
    }
    LoadIsKeyed(steps);
    KeysForCharges();
    var scheduled := Schedule(loaded.value, limits, KeysFor);
    if scheduled.Failure? {
      return Failure(scheduled.error);
    }
    GreedyIsSafe(KeysFor, limits, loaded.value, scheduled.value);
    SafeMeansOrdered(KeysFor, limits, loaded.value, scheduled.value);
    return Success(Numbered(scheduled.value));
  }

  // --- The order of the input does not show ---

  ghost function Clones(steps: seq<Step>): (r: seq<Step>)
    ensures |r| == |steps| && forall i :: 0 <= i < |r| ==> r[i] == CloneStep(steps[i])
  {
    seq(|steps|, i requires 0 <= i < |steps| => CloneStep(steps[i]))
  }

  /** Clones agree exactly when the steps do, up to the order of their two lists. */
  lemma CloneIff(a: Step, b: Step)
    ensures CloneStep(a) == CloneStep(b) <==>
            && a.(failureDomains := [], dependencies := []) == b.(failureDomains := [], dependencies := [])
            && multiset(a.failureDomains) == multiset(b.failureDomains)
            && multiset(a.dependencies) == multiset(b.dependencies)
  {
    LessIsTotal();
    SortIsNormalForm(Less, a.failureDomains, b.failureDomains);
    SortIsNormalForm(Less, a.dependencies, b.dependencies);
  }

  /** The same steps, in any order, each with its lists in any order. */
  ghost predicate SameSteps(steps: seq<Step>, steps': seq<Step>) {
    multiset(Clones(steps)) == multiset(Clones(steps'))
  }

  ghost predicate DistinctlyNamed(clones: seq<Step>) {
    && NoRepeats(clones)
    && (forall x :: x in clones ==> x.id != "")
    && (forall x, y :: x in clones && y in clones && x != y ==> x.id != y.id)
  }

  lemma IdentifiedFromClones(steps: seq<Step>)
    requires DistinctlyNamed(Clones(steps))
    ensures Identified(steps)
  {
    var c := Clones(steps);
    forall i | 0 <= i < |steps| ensures steps[i].id != "" { assert c[i] in c; }
    forall i, j | 0 <= i < j < |steps| ensures steps[i].id != steps[j].id {
      assert c[i] in c && c[j] in c && c[i] != c[j];
    }
  }

  lemma NamedApart(c: seq<Step>)
    requires forall i :: 0 <= i < |c| ==> c[i].id != ""
    requires forall i, j :: 0 <= i < j < |c| ==> c[i].id != c[j].id
    ensures DistinctlyNamed(c)
  {
    forall x, y | x in c && y in c && x != y ensures x.id != y.id {
      var i :| 0 <= i < |c| && c[i] == x;
      var j :| 0 <= j < |c| && c[j] == y;
    }
  }

  lemma ClonesFromIdentified(steps: seq<Step>)
    requires Identified(steps)
    ensures DistinctlyNamed(Clones(steps))
  {
    var c := Clones(steps);
    assert forall i :: 0 <= i < |c| ==> c[i].id == steps[i].id;
    NamedApart(c);
  }

  lemma DistinctlyNamedIgnoresOrder(c: seq<Step>, c': seq<Step>)
    requires multiset(c) == multiset(c') && DistinctlyNamed(c)
    ensures DistinctlyNamed(c')
  {
    SameMultisetSameMembers(c, c');
    NoRepeatsCount(c);
    NoRepeatsCount(c');
  }

  lemma IdentifiedIgnoresOrder(steps: seq<Step>, steps': seq<Step>)
    requires SameSteps(steps, steps') && Identified(steps)
    ensures Identified(steps')
  {
    ClonesFromIdentified(steps);
    DistinctlyNamedIgnoresOrder(Clones(steps), Clones(steps'));
    IdentifiedFromClones(steps');
  }

  lemma LoadIgnoresOrder(steps: seq<Step>, steps': seq<Step>)
    requires SameSteps(steps, steps')
    ensures Load(steps).Success? <==> Load(steps').Success?
    ensures Load(steps).Success? ==> Load(steps) == Load(steps')
  {
    LoadIff(steps);
    LoadIff(steps');
    if Identified(steps) {
      IdentifiedIgnoresOrder(steps, steps');
      LoadSame(steps, steps');
    } else if Identified(steps') {
      IdentifiedIgnoresOrder(steps', steps);
    }
  }

  lemma LoadSame(steps: seq<Step>, steps': seq<Step>)
    requires SameSteps(steps, steps') && Load(steps).Success? && Load(steps').Success?
    ensures Load(steps).value == Load(steps').value
  {
    SameMultisetSameMembers(Clones(steps), Clones(steps'));
    LoadWithin(steps, steps');
    LoadWithin(steps', steps);
  }

  lemma LoadWithin(steps: seq<Step>, steps': seq<Step>)
    requires Load(steps).Success? && Load(steps').Success? && forall x :: x in Clones(steps) ==> x in Clones(steps')
    ensures forall n :: n in Load(steps).value ==> n in Load(steps').value &&
                                                   Load(steps').value[n] == Load(steps).value[n]
  {
    LoadIff(steps);
    LoadIff(steps');
    var m, m' := Load(steps).value, Load(steps').value;
    forall n | n in m ensures n in m' && m'[n] == m[n] {
      var i :| 0 <= i < |steps| && steps[i].id == n;
      assert Clones(steps)[i] in Clones(steps');
      var j :| 0 <= j < |steps'| && Clones(steps')[j] == Clones(steps)[i];
      assert steps'[j].id == n;
    }
  }

  /** Permuting the steps, their dependencies or their failure domains changes neither
      whether a schedule exists nor the schedule. */
  lemma WavesIgnoreOrder(steps: seq<Step>, steps': seq<Step>, limits: Limits, waves: seq<seq<Step>>,
                         waves': seq<seq<Step>>)
    requires SameSteps(steps, steps')
    ensures Schedulable(steps, limits) <==> Schedulable(steps', limits)
    ensures
      (&& Schedulable(steps, limits)
       && GreedyWaves(KeysFor, limits, Load(steps).value, waves)
       && GreedyWaves(KeysFor, limits, Load(steps').value, waves')) ==> waves == waves'
  {
    LoadIgnoresOrder(steps, steps');
    LoadIff(steps);
    LoadIff(steps');
    if && Schedulable(steps, limits)
       && GreedyWaves(KeysFor, limits, Load(steps).value, waves)
       && GreedyWaves(KeysFor, limits, Load(steps').value, waves')
    {
      GreedyUnique(KeysFor, limits, Load(steps).value, waves, waves');
    }
  }
}
