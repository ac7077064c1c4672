/** Dispatching steps: capacity first, then the circuit breaker, then the budget. */
module Dispatcher {
  import opened Budget
  import opened CircuitBreaker
  import opened Waves
  import opened WaveBuilder

  datatype Capacity = Capacity(runnerAvailable: int, adapterRemaining: int, queueDepth: int, queueLimit: int)
  datatype Pressure = NoPressure | RunnerCapacity | AdapterRate | QueueDepth

  function Min(a: int, b: int): int { if a < b then a else b }

  function Available(c: Capacity): (r: (int, Pressure))
    ensures r.0 >= 0
    ensures r.0 == 0 <==> r.1 != NoPressure
    ensures r.0 > 0 ==> r.0 <= c.runnerAvailable && r.0 <= c.adapterRemaining && r.0 <= c.queueLimit - c.queueDepth
  {
    if c.runnerAvailable <= 0 then (0, RunnerCapacity)
    else if c.adapterRemaining <= 0 then (0, AdapterRate)
    else if c.queueLimit <= 0 || c.queueDepth >= c.queueLimit then (0, QueueDepth)
    else (Min(Min(c.runnerAvailable, c.adapterRemaining), c.queueLimit - c.queueDepth), NoPressure)
  }

  datatype DispatchError = NoError | Backpressure | CircuitOpen

  datatype Dispatch = Dispatch(step: Step, reservation: seq<Key>, blockedBy: seq<Blocked>, pressure: Pressure,
                               err: DispatchError)
  {
    predicate Admitted() { err == NoError && blockedBy == [] }
  }

  // --- Which steps are admitted ---

  type Shutter = Step -> bool

  /** In order, each step while capacity lasts, unless its circuit is open or a key has no room. */
  ghost function Decide(keys: Keying, l: Limits, shut: Shutter, held: multiset<Key>, available: int, steps: seq<Step>)
      : (r: seq<bool>)
    ensures |r| == |steps|
    decreases |steps|
  {
    if steps == [] then []
    else if available > 0 && !shut(steps[0]) && Free(l, held, keys(steps[0])) then
      [true] + Decide(keys, l, shut, held + multiset(keys(steps[0])), available - 1, steps[1..])
    else [false] + Decide(keys, l, shut, held, available, steps[1..])
  }

  ghost function Chosen(steps: seq<Step>, flags: seq<bool>): seq<Step>
    requires |steps| == |flags|
  {
    if steps == [] then []
    else (if flags[0] then [steps[0]] else []) + Chosen(steps[1..], flags[1..])
  }

  /** No more steps than the capacity, none with an open circuit, and no key held by more than its limit, counting
      the reservations that were already there. */
  ghost predicate Safe(keys: Keying, l: Limits, shut: Shutter, there: seq<Step>, available: int, steps: seq<Step>,
                       chosen: seq<Step>) {
    && |chosen| <= available && (forall s :: s in chosen ==> s in steps && !shut(s))
    && WithinLimits(l, KeyLists(keys, there + chosen))
  }

  lemma SafeWith(keys: Keying, l: Limits, shut: Shutter, there: seq<Step>, available: int, s: Step, rest: seq<Step>,
                 chosen: seq<Step>)
    requires !shut(s) && Safe(keys, l, shut, there + [s], available - 1, rest, chosen)
    ensures Safe(keys, l, shut, there, available, [s] + rest, [s] + chosen)
  {
    assert there + [s] + chosen == there + ([s] + chosen);
  }

  /** Admissions are safe. */
  lemma {:induction false} AdmissionsAreSafe(keys: Keying, l: Limits, shut: Shutter, there: seq<Step>, available: int,
                                             steps: seq<Step>)
    requires available >= 0 && WithinLimits(l, KeyLists(keys, there))
    ensures var chosen := Chosen(steps, Decide(keys, l, shut, Sum(KeyLists(keys, there)), available, steps));
            Safe(keys, l, shut, there, available, steps, chosen)
    decreases |steps|
  {
    var held := Sum(KeyLists(keys, there));
    if steps == [] {
      assert there + [] == there;
    } else {
      var s, rest := steps[0], steps[1..];
      assert steps == [s] + rest;
      if available > 0 && !shut(s) && Free(l, held, keys(s)) {
        KeyListsAppend(keys, there, s);
        AcquireKeepsLimits(l, KeyLists(keys, there), keys(s));
        AdmissionsAreSafe(keys, l, shut, there + [s], available - 1, rest);
        var flags := Decide(keys, l, shut, held + multiset(keys(s)), available - 1, rest);
        SafeWith(keys, l, shut, there, available, s, rest, Chosen(rest, flags));
        ChosenOne(s, rest, true, flags);
      } else {
        AdmissionsAreSafe(keys, l, shut, there, available, rest);
        ChosenOne(s, rest, false, Decide(keys, l, shut, held, available, rest));
      }
    }
  }

  lemma ChosenOne(s: Step, rest: seq<Step>, flag: bool, flags: seq<bool>)
    requires |rest| == |flags|
    ensures Chosen([s] + rest, [flag] + flags) == if flag then [s] + Chosen(rest, flags) else Chosen(rest, flags)
  {
    assert ([s] + rest)[1..] == rest && ([flag] + flags)[1..] == flags;
  }

  lemma DecideOne(keys: Keying, l: Limits, shut: Shutter, held: multiset<Key>, available: int, s: Step, rest: seq<Step>)
    ensures Decide(keys, l, shut, held, available, [s] + rest) ==
            if available > 0 && !shut(s) && Free(l, held, keys(s))
            then [true] + Decide(keys, l, shut, held + multiset(keys(s)), available - 1, rest)
            else [false] + Decide(keys, l, shut, held, available, rest)
  {
    assert ([s] + rest)[1..] == rest;
  }

  /** A production step of a tenant whose circuit has opened. */
  ghost predicate IsShut(p: Policy, history: map<string, seq<bool>>, s: Step)
    requires ValidPolicy(p)
  {
    s.environment == "production" && Tripped(p, Outcomes(history, TenantKey(s.tenant)))
  }

  /** `shut` is `IsShut` for the breaker's policy and history. Like the charging it is a parameter, so that
      proofs about dispatching do not look into the breaker. */
  ghost predicate Shuts(shut: Shutter, p: Policy, history: map<string, seq<bool>>) {
    ValidPolicy(p) && forall s {:trigger Charged(s)} :: Charged(s) ==> shut(s) == IsShut(p, history, s)
  }

  // --- What each step is answered ---

  /** Refused for capacity with the pressure, then for the circuit, then with every key that has no room, in
      key order; else admitted with all its keys. */
  ghost function Answer(keys: Keying, l: Limits, shut: Shutter, held: multiset<Key>, available: int,
                        pressure: Pressure, step: Step): Dispatch {
    if available == 0 then Dispatch(CloneStep(step), [], [], pressure, Backpressure)
    else if shut(step) then Dispatch(CloneStep(step), [], [], NoPressure, CircuitOpen)
    else
      var blocked := BlockedBy(l, held, keys(step));
      if blocked != [] then Dispatch(CloneStep(step), [], blocked, NoPressure, NoError)
      else Dispatch(CloneStep(step), keys(step), [], NoPressure, NoError)
  }

  ghost function Left(available: int, result: Dispatch): int {
    if result.Admitted() then available - 1 else available
  }

  /** What a step is answered with these keys held and this much capacity left. */
  type Answering = (multiset<Key>, int, Step) -> Dispatch

  ghost function AnswersWith(keys: Keying, l: Limits, shut: Shutter, pressure: Pressure): Answering {
    (held: multiset<Key>, available: int, step: Step) => Answer(keys, l, shut, held, available, pressure, step)
  }

  /** The answers to a list of steps, each with what the steps before it left. */
  ghost function Answers(answer: Answering, held: multiset<Key>, available: int, steps: seq<Step>): seq<Dispatch>
    decreases |steps|
  {
    if steps == [] then []
    else
      var d := answer(held, available, steps[0]);
      [d] + Answers(answer, held + multiset(d.reservation), Left(available, d), steps[1..])
  }

  lemma AnswerIff(keys: Keying, l: Limits, shut: Shutter, held: multiset<Key>, available: int, pressure: Pressure,
                  step: Step)
    requires available >= 0
    ensures var d := Answer(keys, l, shut, held, available, pressure, step);
            && (d.Admitted() <==> available > 0 && !shut(step) && Free(l, held, keys(step)))
            && held + multiset(d.reservation) == (if d.Admitted() then held + multiset(keys(step)) else held)
            && Left(available, d) >= 0
  {
    BlockedIff(l, held, keys(step));
  }

  lemma FlagsCons(d: Dispatch, results: seq<Dispatch>)
    ensures Flags([d] + results) == [d.Admitted()] + Flags(results)
  {
  }

  /** One step, as answered and as decided. */
  lemma AnswersOne(keys: Keying, l: Limits, shut: Shutter, pressure: Pressure, held: multiset<Key>, available: int,
                   s: Step, rest: seq<Step>, d: Dispatch)
    requires available >= 0 && d == Answer(keys, l, shut, held, available, pressure, s)
    ensures Answers(AnswersWith(keys, l, shut, pressure), held, available, [s] + rest) ==
            [d] + Answers(AnswersWith(keys, l, shut, pressure), held + multiset(d.reservation), Left(available, d),
                          rest)
    ensures Decide(keys, l, shut, held, available, [s] + rest) ==
            [d.Admitted()] + Decide(keys, l, shut, held + multiset(d.reservation), Left(available, d), rest)
    ensures Left(available, d) >= 0
  {
    AnswerIff(keys, l, shut, held, available, pressure, s);
    DecideOne(keys, l, shut, held, available, s, rest);
    assert ([s] + rest)[1..] == rest;
    assert AnswersWith(keys, l, shut, pressure)(held, available, s) == d;
  }

  /** The steps that are admitted are those that `Decide` says. */
  lemma {:induction false} AnswersDecide(keys: Keying, l: Limits, shut: Shutter, pressure: Pressure,
                                         held: multiset<Key>, available: int, steps: seq<Step>)
    requires available >= 0
    ensures Flags(Answers(AnswersWith(keys, l, shut, pressure), held, available, steps)) ==
            Decide(keys, l, shut, held, available, steps)
    decreases |steps|
  {
    if steps != [] {
      var s, rest := steps[0], steps[1..];
      assert steps == [s] + rest;
      var d := Answer(keys, l, shut, held, available, pressure, s);
      AnswersOne(keys, l, shut, pressure, held, available, s, rest, d);
      var held', available' := held + multiset(d.reservation), Left(available, d);
      AnswersDecide(keys, l, shut, pressure, held', available', rest);
      FlagsCons(d, Answers(AnswersWith(keys, l, shut, pressure), held', available', rest));
    }
  }

  ghost function Flags(results: seq<Dispatch>): (r: seq<bool>)
    ensures |r| == |results| && forall i :: 0 <= i < |r| ==> r[i] == results[i].Admitted()
  {
    seq(|results|, i requires 0 <= i < |results| => results[i].Admitted())
  }

  /** What each result holds of the budget. */
  ghost function Taken(results: seq<Dispatch>): (r: seq<seq<Key>>)
    ensures |r| == |results| && forall i :: 0 <= i < |r| ==> r[i] == results[i].reservation
  {
    seq(|results|, i requires 0 <= i < |results| => results[i].reservation)
  }

  lemma TakenAppend(results: seq<Dispatch>, result: Dispatch)
    ensures Sum(Taken(results + [result])) == Sum(Taken(results)) + multiset(result.reservation)
  {
    assert Taken(results + [result]) == Taken(results) + [result.reservation];
    SumAppend(Taken(results), result.reservation);
  }

  lemma AnswersFrom(answer: Answering, held: multiset<Key>, available: int, steps: seq<Step>, i: nat)
    requires i < |steps|
    ensures var d := answer(held, available, steps[i]);
            Answers(answer, held, available, steps[i..]) ==
            [d] + Answers(answer, held + multiset(d.reservation), Left(available, d), steps[i + 1..])
  {
    assert steps[i..][1..] == steps[i + 1..];
  }

  /** The first `i` steps are answered, and the rest will be with what is left. */
  ghost predicate Progress(answer: Answering, steps: seq<Step>, held0: multiset<Key>, available0: int, i: int,
                           results: seq<Dispatch>, held: multiset<Key>, available: int) {
    && 0 <= i <= |steps| && held == held0 + Sum(Taken(results))
    && Answers(answer, held0, available0, steps) == results + Answers(answer, held, available, steps[i..])
  }

  lemma ProgressStarts(answer: Answering, steps: seq<Step>, held: multiset<Key>, available: int)
    ensures Progress(answer, steps, held, available, 0, [], held, available)
  {
    assert steps[0..] == steps;
  }

  lemma ProgressStep(answer: Answering, steps: seq<Step>, held0: multiset<Key>, available0: int, i: int,
                     results: seq<Dispatch>, held: multiset<Key>, available: int, d: Dispatch)
    requires Progress(answer, steps, held0, available0, i, results, held, available) && i < |steps|
    requires d == answer(held, available, steps[i])
    ensures Progress(answer, steps, held0, available0, i + 1, results + [d], held + multiset(d.reservation),
                     Left(available, d))
  {
    TakenAppend(results, d);
    AnswersFrom(answer, held, available, steps, i);
  }

  lemma ProgressEnds(answer: Answering, steps: seq<Step>, held0: multiset<Key>, available0: int,
                     results: seq<Dispatch>, held: multiset<Key>, available: int)
    requires Progress(answer, steps, held0, available0, |steps|, results, held, available)
    ensures results == Answers(answer, held0, available0, steps)
    ensures held == held0 + Sum(Taken(results))
  {
    assert steps[|steps|..] == [];
  }

  class Scheduler {
    const budget: Budget
    const breaker: CircuitBreaker

    ghost predicate Valid()
      reads this, budget, breaker
    {
      budget.Valid() && breaker.Valid()
    }

    constructor (limits: Limits, policy: Policy)
      requires ValidLimits(limits) && ValidPolicy(policy)
      ensures Valid() && fresh(budget) && fresh(breaker)
      ensures budget.held == multiset{} && breaker.history == map[]
      ensures budget.limits == limits && breaker.policy == policy
    {
      budget := new Budget(limits);
      breaker := new CircuitBreaker(policy);
    }

    method Allows(ghost shut: Shutter, step: Step) returns (allowed: bool)
      requires Valid() && Shuts(shut, breaker.policy, breaker.history)
      ensures allowed == !shut(step)
    {
      assert Charged(step);
      assert shut(step) == IsShut(breaker.policy, breaker.history, step);
      allowed := breaker.Allow(step.tenant, step.environment);
    }

    method Reserve(ghost keys: Keying, step: Step) returns (reservation: seq<Key>, blocked: seq<Blocked>)
      requires Valid() && Charges(keys)
      modifies budget
      ensures Valid()
      ensures blocked == BlockedBy(budget.limits, old(budget.held), keys(step))
      ensures reservation == if blocked == [] then keys(step) else []
      ensures budget.held == old(budget.held) + multiset(reservation)
    {
      assert Charged(step);
      reservation, blocked := budget.TryAcquire(step);
    }

    method DispatchOne(ghost keys: Keying, ghost shut: Shutter, step: Step, available: int, pressure: Pressure)
        returns (result: Dispatch)
      requires Valid() && Charges(keys) && available >= 0
      requires Shuts(shut, breaker.policy, breaker.history)
      modifies budget
      ensures Valid()
      ensures result == Answer(keys, budget.limits, shut, old(budget.held), available, pressure, step)
      ensures budget.held == old(budget.held) + multiset(result.reservation)
    {
      result := Dispatch(CloneStep(step), [], [], NoPressure, NoError);
      if available == 0 {
        return result.(pressure := pressure, err := Backpressure);
      }
      var allowed := Allows(shut, step);
      if !allowed {
        return result.(err := CircuitOpen);
      }
      var reservation, blocked := Reserve(keys, step);
      if |blocked| > 0 {
        return result.(blockedBy := blocked);
      }
      return result.(reservation := reservation);
    }

    method DispatchNext(ghost keys: Keying, ghost shut: Shutter, ghost answer: Answering, steps: seq<Step>,
                        ghost held0: multiset<Key>, ghost available0: int, pressure: Pressure, i: nat,
                        results0: seq<Dispatch>, left: int)
        returns (available: int, results: seq<Dispatch>)
      requires Valid() && Charges(keys) && Shuts(shut, breaker.policy, breaker.history) && left >= 0 && i < |steps|
      requires answer == AnswersWith(keys, budget.limits, shut, pressure)
      requires Progress(answer, steps, held0, available0, i, results0, budget.held, left)
      modifies budget
      ensures Valid() && available >= 0
      ensures Progress(answer, steps, held0, available0, i + 1, results, budget.held, available)
    {
      ghost var held := budget.held;
      var result := DispatchOne(keys, shut, steps[i], left, pressure);
      AnswerIff(keys, budget.limits, shut, held, left, pressure, steps[i]);
      ProgressStep(answer, steps, held0, available0, i, results0, held, left, result);
      results := results0 + [result];
      available := if result.Admitted() then left - 1 else left;
    }

    /** Every step is answered in order, and the budget holds what the answers say. */
    method DispatchAll(ghost keys: Keying, ghost shut: Shutter, steps: seq<Step>, capacity: Capacity)
        returns (results: seq<Dispatch>)
      requires Valid() && Charges(keys) && Shuts(shut, breaker.policy, breaker.history)
      modifies budget
      ensures Valid()
      ensures results == Answers(AnswersWith(keys, budget.limits, shut, Available(capacity).1), old(budget.held),
                                 Available(capacity).0, steps)
      ensures budget.held == old(budget.held) + Sum(Taken(results))
    {
      var available, pressure := Available(capacity).0, Available(capacity).1;
      results := [];
      ghost var answer, held0, available0 := AnswersWith(keys, budget.limits, shut, pressure), budget.held, available;
      ProgressStarts(answer, steps, held0, available0);
      for i := 0 to |steps|
        invariant Valid() && available >= 0
        invariant Progress(answer, steps, held0, available0, i, results, budget.held, available)
      {
        available, results := DispatchNext(keys, shut, answer, steps, held0, available0, pressure, i, results,
                                           available);
      }
      ProgressEnds(answer, steps, held0, available0, results, budget.held, available);
    }

    /** Releases the reservation, if any, and records the outcome. */
    method Complete(dispatch: Dispatch, failed: bool) returns (s: CircuitState)
      requires Valid()
      modifies budget, breaker
      ensures Valid()
      ensures budget.held == old(budget.held) - multiset(dispatch.reservation)
      ensures breaker.history == if dispatch.step.environment != "production" then old(breaker.history)
                                 else Recorded(old(breaker.history), TenantKey(dispatch.step.tenant), failed)
      ensures s == Report(breaker.policy, breaker.history, dispatch.step.tenant, dispatch.step.environment)
    {
      if |dispatch.reservation| > 0 {
        budget.Release(dispatch.reservation);
      }
      s := breaker.Record(dispatch.step.tenant, dispatch.step.environment, failed);
    }
  }
}
