/** The worker's schedule: one budget and breaker shared by every run it serves,
    and the dispatches it still holds. Acquisitions and completions are atomic,
    so any number of runs interleave as a list of operations. */
module ScheduleLedger {
  import opened Budget
  import opened CircuitBreaker
  import opened Waves
  import opened WaveBuilder
  import opened Dispatcher

  function ScheduleKey(runID: string, stepID: string): string {
    runID + "\0" + stepID
  }

  datatype Ledger = Ledger(held: multiset<Key>, history: map<string, seq<bool>>, scheduled: map<string, Dispatch>)

  const EMPTY := Ledger(multiset{}, map[], map[])

  // --- Operations on values ---

  ghost predicate Admits(keys: Keying, l: Limits, p: Policy, s: Ledger, step: Step, capacity: Capacity)
    requires ValidPolicy(p)
  {
    Available(capacity).0 > 0 && !IsShut(p, s.history, step) && Free(l, s.held, keys(step))
  }

  /** A repeated acquisition finds its own entry and changes nothing. */
  ghost function Acquire(keys: Keying, l: Limits, p: Policy, s: Ledger, runID: string, step: Step, capacity: Capacity)
      : (Ledger, bool)
    requires ValidPolicy(p)
  {
    var key := ScheduleKey(runID, step.id);
    if key in s.scheduled then (s, true)
    else if Admits(keys, l, p, s, step, capacity) then
      (Ledger(s.held + multiset(keys(step)), s.history,
              s.scheduled[key := Dispatch(CloneStep(step), keys(step), [], NoPressure, NoError)]), true)
    else (s, false)
  }

  /** A completion without an entry changes nothing. */
  ghost function Complete(s: Ledger, runID: string, stepID: string, failed: bool): Ledger {
    var key := ScheduleKey(runID, stepID);
    if key !in s.scheduled then s
    else
      var d := s.scheduled[key];
      Ledger(s.held - multiset(d.reservation),
             if d.step.environment != "production" then s.history
             else Recorded(s.history, TenantKey(d.step.tenant), failed),
             s.scheduled - {key})
  }

  /** The acquisition of a step without an entry, from the answer of the dispatcher. */
  lemma AcquireAnswer(keys: Keying, l: Limits, p: Policy, s: Ledger, shut: Shutter, runID: string, step: Step,
                      capacity: Capacity, d: Dispatch)
    requires ValidPolicy(p) && ScheduleKey(runID, step.id) !in s.scheduled && shut(step) == IsShut(p, s.history, step)
    requires d == Answer(keys, l, shut, s.held, Available(capacity).0, Available(capacity).1, step)
    ensures Acquire(keys, l, p, s, runID, step, capacity) == (Entered(s, ScheduleKey(runID, step.id), d), d.Admitted())
  {
    AnswerIff(keys, l, shut, s.held, Available(capacity).0, Available(capacity).1, step);
  }

  /** An admitted dispatch is entered with its reservation. */
  ghost function Entered(s: Ledger, key: string, d: Dispatch): Ledger {
    if d.Admitted() then Ledger(s.held + multiset(d.reservation), s.history, s.scheduled[key := d]) else s
  }

  // --- What the caller is told ---

  datatype ScheduleResult = ScheduleResult(allowed: bool, reason: string, blockedBy: seq<Blocked>)

  const GRANTED := ScheduleResult(true, "", [])
  const EXHAUSTED := "concurrency budget exhausted"

  function Message(err: DispatchError): string {
    match err
    case NoError => ""
    case Backpressure => "dispatch backpressured"
    case CircuitOpen => "production circuit breaker is open"
  }

  function ResultFor(d: Dispatch): ScheduleResult {
    if d.Admitted() then GRANTED
    else ScheduleResult(false, if d.err != NoError then Message(d.err) else EXHAUSTED, d.blockedBy)
  }

  // --- The books ---

  /** All keys held by the scheduled dispatches, with multiplicity. */
  ghost function Total(m: map<string, Dispatch>): multiset<Key>
    decreases |m|
  {
    if m == map[] then multiset{}
    else
      var n :| n in m;
      Without(m, n);
      multiset(m[n].reservation) + Total(m - {n})
  }

  lemma Without(m: map<string, Dispatch>, n: string)
    requires n in m
    ensures |m - {n}| == |m| - 1 && (m - {n}).Keys == m.Keys - {n}
  {
    var rest := m - {n};
    assert rest.Keys == m.Keys - {n};
    assert |m| == |m.Keys| && |rest| == |rest.Keys|;
  }

  lemma FirstRemoved(m: map<string, Dispatch>) returns (k: string)
    requires m != map[]
    ensures k in m && Total(m) == multiset(m[k].reservation) + Total(m - {k})
  {
    k :| k in m && Total(m) == multiset(m[k].reservation) + Total(m - {k});
  }

  lemma EitherOrder(m: map<string, Dispatch>, k: string, n: string)
    requires k in m && n in m && k != n
    ensures m - {k} - {n} == m - {n} - {k}
    ensures (m - {k})[n] == m[n] && (m - {n})[k] == m[k]
  {
  }

  /** Any entry can be taken out first. */
  lemma {:induction false} TotalRemove(m: map<string, Dispatch>, n: string)
    requires n in m
    ensures Total(m) == multiset(m[n].reservation) + Total(m - {n})
    decreases |m|
  {
    var k := FirstRemoved(m);
    Without(m, k);
    Without(m, n);
    if k != n {
      EitherOrder(m, k, n);
      TotalRemove(m - {k}, n);
      TotalRemove(m - {n}, k);
    }
  }

  lemma TotalAdd(m: map<string, Dispatch>, n: string, d: Dispatch)
    requires n !in m
    ensures Total(m[n := d]) == Total(m) + multiset(d.reservation)
  {
    TotalRemove(m[n := d], n);
    assert m[n := d] - {n} == m;
  }

  /** The entries that hold a key. */
  ghost function HoldersOf(m: map<string, Dispatch>, k: Key): set<string> {
    set n | n in m && k in m[n].reservation
  }

  lemma HoldersRemove(m: map<string, Dispatch>, n: string, k: Key)
    requires n in m
    ensures |HoldersOf(m, k)| == |HoldersOf(m - {n}, k)| + if k in m[n].reservation then 1 else 0
  {
    var rest := HoldersOf(m - {n}, k);
    assert n !in rest;
    assert HoldersOf(m, k) == if k in m[n].reservation then rest + {n} else rest;
  }

  lemma {:induction false} HoldersWithinTotal(m: map<string, Dispatch>, k: Key)
    ensures |HoldersOf(m, k)| <= Total(m)[k]
    decreases |m|
  {
    if m != map[] {
      var n :| n in m;
      Without(m, n);
      TotalRemove(m, n);
      HoldersWithinTotal(m - {n}, k);
      HoldersRemove(m, n, k);
      assert k in m[n].reservation ==> multiset(m[n].reservation)[k] >= 1;
    }
  }

  /** The counters are exactly what the entries hold, no key has more holders than its
      limit, and every entry holds the key of its service. */
  ghost predicate Balanced(l: Limits, s: Ledger) {
    && s.held == Total(s.scheduled)
    && (forall k :: |HoldersOf(s.scheduled, k)| <= LimitOf(l, k))
    && (forall n :: n in s.scheduled ==> ServiceKey(s.scheduled[n].step) in s.scheduled[n].reservation)
  }

  ghost predicate ChargesServices(keys: Keying) {
    forall s :: ServiceKey(s) in keys(s)
  }

  lemma AcquireBalanced(keys: Keying, l: Limits, p: Policy, s: Ledger, runID: string, step: Step, capacity: Capacity)
    requires ValidPolicy(p) && ChargesServices(keys) && Balanced(l, s)
    ensures Balanced(l, Acquire(keys, l, p, s, runID, step, capacity).0)
  {
    var key := ScheduleKey(runID, step.id);
    if key !in s.scheduled && Admits(keys, l, p, s, step, capacity) {
      var d := Dispatch(CloneStep(step), keys(step), [], NoPressure, NoError);
      TotalAdd(s.scheduled, key, d);
      EntryKeepsLimits(l, s.scheduled, key, d);
    }
  }

  lemma EntryKeepsLimits(l: Limits, m: map<string, Dispatch>, n: string, d: Dispatch)
    requires n !in m && Free(l, Total(m), d.reservation)
    requires forall k :: |HoldersOf(m, k)| <= LimitOf(l, k)
    ensures forall k :: |HoldersOf(m[n := d], k)| <= LimitOf(l, k)
  {
    forall k ensures |HoldersOf(m[n := d], k)| <= LimitOf(l, k) {
      assert m[n := d] - {n} == m;
      HoldersRemove(m[n := d], n, k);
      HoldersWithinTotal(m, k);
    }
  }

  lemma CompleteBalanced(l: Limits, s: Ledger, runID: string, stepID: string, failed: bool)
    requires Balanced(l, s)
    ensures Balanced(l, Complete(s, runID, stepID, failed))
  {
    var key := ScheduleKey(runID, stepID);
    if key in s.scheduled {
      TotalRemove(s.scheduled, key);
      var rest := s.scheduled - {key};
      forall k ensures |HoldersOf(rest, k)| <= LimitOf(l, k) {
        HoldersRemove(s.scheduled, key, k);
      }
    }
  }

  // --- Every interleaving ---

  /** Calls of any run, repeated or not, and restarts of the worker, which forget everything. */
  datatype Op = AcquireOp(runID: string, step: Step, capacity: Capacity)
              | CompleteOp(runID: string, stepID: string, failed: bool)
              | Restart

  ghost function Apply(keys: Keying, l: Limits, p: Policy, s: Ledger, op: Op): Ledger
    requires ValidPolicy(p)
  {
    match op
    case AcquireOp(runID, step, capacity) => Acquire(keys, l, p, s, runID, step, capacity).0
    case CompleteOp(runID, stepID, failed) => Complete(s, runID, stepID, failed)
    case Restart => EMPTY
  }

  ghost function Run(keys: Keying, l: Limits, p: Policy, ops: seq<Op>): Ledger
    requires ValidPolicy(p)
  {
    if ops == [] then EMPTY else Apply(keys, l, p, Run(keys, l, p, ops[..|ops| - 1]), ops[|ops| - 1])
  }

  /** After any interleaving of calls the books balance. */
  lemma {:induction false} EveryRunIsBalanced(keys: Keying, l: Limits, p: Policy, ops: seq<Op>)
    requires ValidPolicy(p) && ValidLimits(l) && ChargesServices(keys)
    ensures Balanced(l, Run(keys, l, p, ops))
  {
    if ops == [] || ops[|ops| - 1].Restart? {
      forall k ensures |HoldersOf(EMPTY.scheduled, k)| <= LimitOf(l, k) {
        LimitsArePositive(l, k);
        assert HoldersOf(EMPTY.scheduled, k) == {};
      }
    } else {
      var s := Run(keys, l, p, ops[..|ops| - 1]);
      EveryRunIsBalanced(keys, l, p, ops[..|ops| - 1]);
      match ops[|ops| - 1]
      case AcquireOp(runID, step, capacity) => AcquireBalanced(keys, l, p, s, runID, step, capacity);
      case CompleteOp(runID, stepID, failed) => CompleteBalanced(l, s, runID, stepID, failed);
    }
  }

  /** Two entries for the same tenant, environment and service are the same entry. */
  lemma OneHolderPerService(l: Limits, s: Ledger, a: string, b: string)
    requires Balanced(l, s) && a in s.scheduled && b in s.scheduled
    requires var x, y := s.scheduled[a].step, s.scheduled[b].step;
             TenantKey(x.tenant) == TenantKey(y.tenant) && x.environment == y.environment && x.id == y.id
    ensures a == b
  {
    var k := ServiceKey(s.scheduled[a].step);
    assert k == ServiceKey(s.scheduled[b].step) && LimitOf(l, k) == 1;
    AtMostOne(HoldersOf(s.scheduled, k), a, b);
  }

  lemma AtMostOne(s: set<string>, a: string, b: string)
    requires a in s && b in s && |s| <= 1
    ensures a == b
  {
    assert |s - {a}| == |s| - 1;
  }

  // --- One run among others ---

  ghost predicate Holds(s: Ledger, runID: string, stepID: string) {
    ScheduleKey(runID, stepID) in s.scheduled
  }

  /** Run ids contain no NUL, so the entries of different runs never coincide. */
  lemma {:induction false} ScheduleKeyInjective(r: string, x: string, r': string, x': string)
    requires '\0' !in r && '\0' !in r' && ScheduleKey(r, x) == ScheduleKey(r', x')
    ensures r == r' && x == x'
  {
    var k, k' := ScheduleKey(r, x), ScheduleKey(r', x');
    assert k[|r|] == '\0' && k'[|r'|] == '\0';
    assert forall i :: 0 <= i < |r| ==> k[i] == r[i] && r[i] in r;
    assert forall i :: 0 <= i < |r'| ==> k'[i] == r'[i] && r'[i] in r';
    assert |r| == |r'|;
    assert r == k[..|r|] && r' == k'[..|r'|];
    assert x == k[|r| + 1..] && x' == k'[|r'| + 1..];
  }

  /** The answer to an acquisition says whether the entry is there afterwards. */
  lemma AcquireHolds(keys: Keying, l: Limits, p: Policy, s: Ledger, runID: string, step: Step, capacity: Capacity)
    requires ValidPolicy(p)
    ensures var (s', allowed) := Acquire(keys, l, p, s, runID, step, capacity);
            Holds(s', runID, step.id) <==> allowed
  {
  }

  lemma CompleteClears(s: Ledger, runID: string, stepID: string, failed: bool)
    ensures !Holds(Complete(s, runID, stepID, failed), runID, stepID)
  {
  }

  function Target(op: Op): (string, string)
    requires !op.Restart?
  {
    if op.AcquireOp? then (op.runID, op.step.id) else (op.runID, op.stepID)
  }

  /** An operation on one step leaves every other entry alone. */
  lemma OthersUntouched(keys: Keying, l: Limits, p: Policy, s: Ledger, op: Op, runID: string, stepID: string)
    requires ValidPolicy(p) && !op.Restart? && '\0' !in op.runID && '\0' !in runID && Target(op) != (runID, stepID)
    ensures Holds(Apply(keys, l, p, s, op), runID, stepID) <==> Holds(s, runID, stepID)
  {
    if ScheduleKey(Target(op).0, Target(op).1) == ScheduleKey(runID, stepID) {
      ScheduleKeyInjective(Target(op).0, Target(op).1, runID, stepID);
    }
  }

  // --- The worker ---

  class Activities {
    const scheduler: Scheduler
    var scheduled: map<string, Dispatch>

    ghost predicate Valid()
      reads this, scheduler, scheduler.budget, scheduler.breaker
    {
      scheduler.Valid()
    }

    ghost function View(): Ledger
      reads this, scheduler, scheduler.budget, scheduler.breaker
    {
      Ledger(scheduler.budget.held, scheduler.breaker.history, scheduled)
    }

    constructor (limits: Limits, policy: Policy)
      requires ValidLimits(limits) && ValidPolicy(policy)
      ensures Valid() && View() == EMPTY
      ensures fresh(scheduler) && fresh(scheduler.budget) && fresh(scheduler.breaker)
      ensures scheduler.budget.limits == limits && scheduler.breaker.policy == policy
    {
      scheduler := new Scheduler(limits, policy);
      scheduled := map[];
    }

    /** Dispatching a list of one step. */
    method DispatchSingle(ghost keys: Keying, ghost shut: Shutter, step: Step, capacity: Capacity)
        returns (result: Dispatch)
      requires Valid() && Charges(keys) && Shuts(shut, scheduler.breaker.policy, scheduler.breaker.history)
      modifies scheduler.budget
      ensures Valid()
      ensures result == Answer(keys, scheduler.budget.limits, shut, old(scheduler.budget.held), Available(capacity).0,
                               Available(capacity).1, step)
      ensures scheduler.budget.held == old(scheduler.budget.held) + multiset(result.reservation)
    {
      var results := scheduler.DispatchAll(keys, shut, [step], capacity);
      OneAnswer(AnswersWith(keys, scheduler.budget.limits, shut, Available(capacity).1), old(scheduler.budget.held),
                Available(capacity).0, step);
      OneTaken(results);
      result := results[0];
    }

    /** The dispatch of a step without an entry, and what entering it makes of the ledger. */
    method DispatchNew(ghost keys: Keying, ghost shut: Shutter, ghost runID: string, step: Step, capacity: Capacity)
        returns (result: Dispatch)
      requires Valid() && Charges(keys) && Shuts(shut, scheduler.breaker.policy, scheduler.breaker.history)
      requires ScheduleKey(runID, step.id) !in scheduled
      modifies scheduler.budget
      ensures Valid()
      ensures result == Answer(keys, scheduler.budget.limits, shut, old(scheduler.budget.held), Available(capacity).0,
                               Available(capacity).1, step)
      ensures Acquire(keys, scheduler.budget.limits, scheduler.breaker.policy, old(View()), runID, step, capacity) ==
              (if result.Admitted() then View().(scheduled := scheduled[ScheduleKey(runID, step.id) := result])
               else View(), result.Admitted())
    {
      assert Charged(step);
      assert shut(step) == IsShut(scheduler.breaker.policy, scheduler.breaker.history, step);
      ghost var before := View();
      result := DispatchSingle(keys, shut, step, capacity);
      AcquireAnswer(keys, scheduler.budget.limits, scheduler.breaker.policy, before, shut, runID, step, capacity,
                    result);
      AnswerIff(keys, scheduler.budget.limits, shut, before.held, Available(capacity).0, Available(capacity).1, step);
    }

    /** A repeated acquisition is granted. A refused one says why: no capacity, an open circuit, or the keys that
        have no room. */
    method AcquireSchedule(ghost keys: Keying, ghost shut: Shutter, runID: string, step: Step, capacity: Capacity)
        returns (r: ScheduleResult)
      requires Valid() && Charges(keys) && Shuts(shut, scheduler.breaker.policy, scheduler.breaker.history)
      modifies this, scheduler.budget
      ensures Valid()
      ensures (View(), r.allowed) == Acquire(keys, scheduler.budget.limits, scheduler.breaker.policy, old(View()),
                                             runID, step, capacity)
      ensures r == if ScheduleKey(runID, step.id) in old(scheduled) then GRANTED
                   else ResultFor(Answer(keys, scheduler.budget.limits, shut, old(scheduler.budget.held),
                                         Available(capacity).0, Available(capacity).1, step))
    {
      var key := ScheduleKey(runID, step.id);
      if key in scheduled {
        return GRANTED;
      }
      var result := DispatchNew(keys, shut, runID, step, capacity);
      if result.err != NoError {
        return ScheduleResult(false, Message(result.err), result.blockedBy);
      }
      if |result.blockedBy| > 0 {
        return ScheduleResult(false, EXHAUSTED, result.blockedBy);
      }
      scheduled := scheduled[key := result];
      return GRANTED;
    }

    method CompleteSchedule(runID: string, stepID: string, failed: bool) returns (s: CircuitState)
      requires Valid()
      modifies this, scheduler.budget, scheduler.breaker
      ensures Valid()
      ensures View() == Complete(old(View()), runID, stepID, failed)
      ensures s == var key := ScheduleKey(runID, stepID);
                   if key !in old(scheduled)
                   then StateFor(scheduler.breaker.policy, Outcomes(scheduler.breaker.history, TenantKey("")))
                   else var step := old(scheduled)[key].step;
                        Report(scheduler.breaker.policy, scheduler.breaker.history, step.tenant, step.environment)
    {
      var key := ScheduleKey(runID, stepID);
      if key !in scheduled {
        s := scheduler.breaker.State("");
        return;
      }
      var dispatch := scheduled[key];
      scheduled := scheduled - {key};
      s := scheduler.Complete(dispatch, failed);
    }
  }

  lemma OneAnswer(answer: Answering, held: multiset<Key>, available: int, step: Step)
    ensures Answers(answer, held, available, [step]) == [answer(held, available, step)]
  {
    assert [step][1..] == [];
  }

  lemma OneTaken(results: seq<Dispatch>)
    requires |results| == 1
    ensures Sum(Taken(results)) == multiset(results[0].reservation)
  {
    assert Taken(results)[..0] == [];
  }
}
