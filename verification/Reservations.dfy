/** Workflows on the worker's schedule: what their words mean for the ledger, whatever
    other runs do in between. */
module Reservations {
  import opened Release
  import opened Budget
  import opened Waves
  import opened CircuitBreaker
  import opened Dispatcher
  import opened ScheduleLedger
  import opened WorkflowLog
  import opened Workflow

  /** The worker's own configuration keeps its books balanced. */
  lemma WorkerIsBalanced(l: Limits, p: Policy, ops: seq<Op>)
    requires ValidPolicy(p) && ValidLimits(l)
    ensures Balanced(l, Run(KeysFor, l, p, ops))
  {
    assert ChargesServices(KeysFor);
    EveryRunIsBalanced(KeysFor, l, p, ops);
  }

  // --- The operations of one step among all ---

  ghost predicate Mine(op: Op, runID: string, stepID: string) {
    !op.Restart? && Target(op) == (runID, stepID)
  }

  ghost predicate NoneMine(ops: seq<Op>, runID: string, stepID: string) {
    forall i :: 0 <= i < |ops| ==> !Mine(ops[i], runID, stepID)
  }

  ghost predicate Plain(ops: seq<Op>) {
    forall i :: 0 <= i < |ops| && !ops[i].Restart? ==> '\0' !in ops[i].runID
  }

  ghost predicate Apart(ops: seq<Op>, runID: string, stepID: string) {
    Plain(ops) && NoneMine(ops, runID, stepID)
  }

  lemma ApartInit(ops: seq<Op>, runID: string, stepID: string)
    requires ops != [] && Apart(ops, runID, stepID)
    ensures Apart(ops[..|ops| - 1], runID, stepID)
    ensures var op := ops[|ops| - 1]; !Mine(op, runID, stepID) && (!op.Restart? ==> '\0' !in op.runID)
  {
  }

  lemma RunLast(keys: Keying, l: Limits, p: Policy, ops: seq<Op>, op: Op)
    requires ValidPolicy(p)
    ensures Run(keys, l, p, ops + [op]) == Apply(keys, l, p, Run(keys, l, p, ops), op)
  {
    assert (ops + [op])[..|ops|] == ops;
  }

  /** What a step does not hold, the operations of others do not give it. */
  lemma {:induction false} OthersGiveNothing(keys: Keying, l: Limits, p: Policy, ops: seq<Op>, more: seq<Op>,
                                             runID: string, stepID: string)
    requires ValidPolicy(p) && '\0' !in runID && Apart(more, runID, stepID)
    requires !Holds(Run(keys, l, p, ops), runID, stepID)
    ensures !Holds(Run(keys, l, p, ops + more), runID, stepID)
    decreases |more|
  {
    if more == [] {
      assert ops + more == ops;
    } else {
      var init, op := more[..|more| - 1], more[|more| - 1];
      assert ops + more == (ops + init) + [op];
      OthersGiveNothing(keys, l, p, ops, init, runID, stepID);
      RunLast(keys, l, p, ops + init, op);
      if !op.Restart? {
        OthersUntouched(keys, l, p, Run(keys, l, p, ops + init), op, runID, stepID);
      }
    }
  }

  ghost predicate NoRestart(ops: seq<Op>) {
    forall i :: 0 <= i < |ops| ==> !ops[i].Restart?
  }

  /** The step holds an entry made for `step`. */
  ghost predicate HeldFor(s: Ledger, runID: string, step: Step) {
    Holds(s, runID, step.id) && s.scheduled[ScheduleKey(runID, step.id)].step == CloneStep(step)
  }

  lemma OthersKeepEntry(keys: Keying, l: Limits, p: Policy, s: Ledger, op: Op, runID: string, step: Step)
    requires ValidPolicy(p) && !op.Restart? && '\0' !in op.runID && '\0' !in runID && !Mine(op, runID, step.id)
    requires HeldFor(s, runID, step)
    ensures HeldFor(Apply(keys, l, p, s, op), runID, step)
  {
    if ScheduleKey(Target(op).0, Target(op).1) == ScheduleKey(runID, step.id) {
      ScheduleKeyInjective(Target(op).0, Target(op).1, runID, step.id);
    }
  }

  /** What a step holds, the operations of others leave it. */
  lemma {:induction false} OthersTakeNothing(keys: Keying, l: Limits, p: Policy, ops: seq<Op>, more: seq<Op>,
                                             runID: string, step: Step)
    requires ValidPolicy(p) && '\0' !in runID && Apart(more, runID, step.id) && NoRestart(more)
    requires HeldFor(Run(keys, l, p, ops), runID, step)
    ensures HeldFor(Run(keys, l, p, ops + more), runID, step)
    decreases |more|
  {
    if more == [] {
      assert ops + more == ops;
    } else {
      var init, op := more[..|more| - 1], more[|more| - 1];
      assert ops + more == (ops + init) + [op];
      ApartInit(more, runID, step.id);
      OthersTakeNothing(keys, l, p, ops, init, runID, step);
      RunLast(keys, l, p, ops + init, op);
      OthersKeepEntry(keys, l, p, Run(keys, l, p, ops + init), op, runID, step);
    }
  }

  // --- A finished workflow holds nothing ---

  ghost predicate Refuses(keys: Keying, l: Limits, p: Policy, s: Ledger, op: Op)
    requires ValidPolicy(p)
  {
    op.AcquireOp? && !Acquire(keys, l, p, s, op.runID, op.step, op.capacity).1
  }

  /** `op`, done after `before`, is the operation whose answer the word `w` last records. */
  ghost predicate Answers(keys: Keying, l: Limits, p: Policy, before: seq<Op>, op: Op, w: seq<Effect>)
    requires ValidPolicy(p)
  {
    w != [] &&
    match w[|w| - 1]
    case Completed(failed, ok) => ok ==> op.CompleteOp? && op.failed == failed
    case Acquired(_, Allowed) => op.AcquireOp? && !Refuses(keys, l, p, Run(keys, l, p, before), op)
    case Acquired(_, Refused) => Refuses(keys, l, p, Run(keys, l, p, before), op)
    case _ => true
  }

  /** `ops` is what the worker did. A step without effects asked for nothing; otherwise its last
      operation is the one the workflow got its answer from. */
  ghost predicate Realises(keys: Keying, l: Limits, p: Policy, ops: seq<Op>, runID: string, stepID: string,
                           w: seq<Effect>)
    requires ValidPolicy(p)
  {
    if w == [] then NoneMine(ops, runID, stepID)
    else exists before, op, more :: RealisedBy(keys, l, p, ops, runID, stepID, w, before, op, more)
  }

  ghost predicate RealisedBy(keys: Keying, l: Limits, p: Policy, ops: seq<Op>, runID: string, stepID: string,
                             w: seq<Effect>, before: seq<Op>, op: Op, more: seq<Op>)
    requires ValidPolicy(p)
  {
    && ops == before + [op] + more && Mine(op, runID, stepID) && NoneMine(more, runID, stepID)
    && Answers(keys, l, p, before, op, w)
  }

  lemma AnswerClears(keys: Keying, l: Limits, p: Policy, before: seq<Op>, op: Op, runID: string, stepID: string,
                     w: seq<Effect>)
    requires ValidPolicy(p) && Mine(op, runID, stepID) && Answers(keys, l, p, before, op, w)
    requires GivenBack(w)
    ensures !Holds(Run(keys, l, p, before + [op]), runID, stepID)
  {
    var s := Run(keys, l, p, before);
    RunLast(keys, l, p, before, op);
    if op.CompleteOp? {
      CompleteClears(s, runID, stepID, op.failed);
    } else {
      AcquireHolds(keys, l, p, s, runID, op.step, op.capacity);
    }
  }

  lemma RealisedHoldsNothing(keys: Keying, l: Limits, p: Policy, ops: seq<Op>, runID: string, stepID: string,
                             w: seq<Effect>)
    requires ValidPolicy(p) && '\0' !in runID && Plain(ops) && Realises(keys, l, p, ops, runID, stepID, w)
    requires GivenBack(w)
    ensures !Holds(Run(keys, l, p, ops), runID, stepID)
  {
    if w == [] {
      assert !Holds(Run(keys, l, p, []), runID, stepID);
      assert [] + ops == ops;
      OthersGiveNothing(keys, l, p, [], ops, runID, stepID);
    } else {
      var before, op, more :| RealisedBy(keys, l, p, ops, runID, stepID, w, before, op, more);
      AnswerClears(keys, l, p, before, op, runID, stepID, w);
      assert forall i :: 0 <= i < |more| ==> more[i] == ops[|before| + 1 + i];
      OthersGiveNothing(keys, l, p, before + [op], more, runID, stepID);
    }
  }

  /** The effects on the reservation of step `k`; a step whose turn never came has none. */
  function TailAt(traces: seq<Trace>, k: nat): seq<Effect> {
    if k < |traces| then traces[k].tail else []
  }

  /** When a workflow has finished, no step of its run holds an entry, whatever other runs did. */
  lemma FinishedHoldsNothing(keys: Keying, l: Limits, p: Policy, ops: seq<Op>, run: ReleaseRun, r: ReleaseRun,
                             traces: seq<Trace>, k: nat)
    requires ValidPolicy(p) && '\0' !in run.info.id && Plain(ops) && Finished(run, r, traces) && k < |run.steps|
    requires Realises(keys, l, p, ops, run.info.id, run.steps[k].spec.service, TailAt(traces, k))
    ensures !Holds(Run(keys, l, p, ops), run.info.id, run.steps[k].spec.service)
  {
    FinishedIsReleased(run, r, traces);
    RealisedHoldsNothing(keys, l, p, ops, run.info.id, run.steps[k].spec.service, TailAt(traces, k));
  }

  /** A workflow that is still going, or that an activity error ended, holds at most the entry of one step of its
      run, which is the last step it worked on. */
  lemma AtMostOneHeld(keys: Keying, l: Limits, p: Policy, ops: seq<Op>, run: ReleaseRun, traces: seq<Trace>)
    requires ValidPolicy(p) && '\0' !in run.info.id && Plain(ops)
    requires |traces| <= |run.steps| && AllGivenBack(traces, |traces| - 1)
    requires forall k: nat :: k < |run.steps| ==>
               Realises(keys, l, p, ops, run.info.id, run.steps[k].spec.service, TailAt(traces, k))
    ensures forall k: nat :: k < |run.steps| && Holds(Run(keys, l, p, ops), run.info.id, run.steps[k].spec.service) ==>
              k + 1 == |traces|
    ensures forall j: nat, k: nat :: j < |run.steps| && k < |run.steps| ==>
              Holds(Run(keys, l, p, ops), run.info.id, run.steps[j].spec.service) ==>
              Holds(Run(keys, l, p, ops), run.info.id, run.steps[k].spec.service) ==> j == k
  {
    forall k: nat | k < |run.steps| && Holds(Run(keys, l, p, ops), run.info.id, run.steps[k].spec.service)
      ensures k + 1 == |traces|
    {
      if k + 1 != |traces| {
        RealisedHoldsNothing(keys, l, p, ops, run.info.id, run.steps[k].spec.service, TailAt(traces, k));
      }
    }
  }

  // --- Late attempts ---

  /** An acquisition of the step that was granted, with no completion of the step and no restart since. */
  ghost predicate Stands(keys: Keying, l: Limits, p: Policy, ops: seq<Op>, runID: string, stepID: string, i: int)
    requires ValidPolicy(p)
  {
    && 0 <= i < |ops| && Mine(ops[i], runID, stepID) && ops[i].AcquireOp?
    && !Refuses(keys, l, p, Run(keys, l, p, ops[..i]), ops[i])
    && forall j :: i < j < |ops| ==> !ops[j].Restart? && !(Mine(ops[j], runID, stepID) && ops[j].CompleteOp?)
  }

  lemma StandsLonger(keys: Keying, l: Limits, p: Policy, ops: seq<Op>, op: Op, runID: string, stepID: string, i: int)
    requires ValidPolicy(p) && 0 <= i < |ops|
    ensures Stands(keys, l, p, ops + [op], runID, stepID, i) <==>
            && Stands(keys, l, p, ops, runID, stepID, i) && !op.Restart?
            && !(Mine(op, runID, stepID) && op.CompleteOp?)
  {
    var more := ops + [op];
    assert more[..i] == ops[..i] && more[i] == ops[i] && more[|ops|] == op;
    assert forall j :: i < j < |ops| ==> more[j] == ops[j];
  }

  lemma StandsNow(keys: Keying, l: Limits, p: Policy, ops: seq<Op>, op: Op, runID: string, stepID: string)
    requires ValidPolicy(p)
    ensures Stands(keys, l, p, ops + [op], runID, stepID, |ops|) <==>
            Mine(op, runID, stepID) && op.AcquireOp? && !Refuses(keys, l, p, Run(keys, l, p, ops), op)
  {
    assert (ops + [op])[..|ops|] == ops && (ops + [op])[|ops|] == op;
  }

  ghost predicate SomeStands(keys: Keying, l: Limits, p: Policy, ops: seq<Op>, runID: string, stepID: string)
    requires ValidPolicy(p)
  {
    exists i :: Stands(keys, l, p, ops, runID, stepID, i)
  }

  lemma SomeStandsStep(keys: Keying, l: Limits, p: Policy, ops: seq<Op>, op: Op, runID: string, stepID: string)
    requires ValidPolicy(p)
    ensures SomeStands(keys, l, p, ops + [op], runID, stepID) <==>
            || (&& SomeStands(keys, l, p, ops, runID, stepID) && !op.Restart?
                && !(Mine(op, runID, stepID) && op.CompleteOp?))
            || (Mine(op, runID, stepID) && op.AcquireOp? && !Refuses(keys, l, p, Run(keys, l, p, ops), op))
  {
    StandsNow(keys, l, p, ops, op, runID, stepID);
    forall i | 0 <= i < |ops|
      ensures Stands(keys, l, p, ops + [op], runID, stepID, i) <==>
              && Stands(keys, l, p, ops, runID, stepID, i) && !op.Restart?
              && !(Mine(op, runID, stepID) && op.CompleteOp?)
    {
      StandsLonger(keys, l, p, ops, op, runID, stepID, i);
    }
  }

  lemma HoldsStep(keys: Keying, l: Limits, p: Policy, s: Ledger, op: Op, runID: string, stepID: string)
    requires ValidPolicy(p) && '\0' !in runID && (!op.Restart? ==> '\0' !in op.runID)
    ensures Holds(Apply(keys, l, p, s, op), runID, stepID) <==>
            || (Holds(s, runID, stepID) && !op.Restart? && !(Mine(op, runID, stepID) && op.CompleteOp?))
            || (Mine(op, runID, stepID) && op.AcquireOp? && !Refuses(keys, l, p, s, op))
  {
    if op.Restart? {
    } else if !Mine(op, runID, stepID) {
      OthersUntouched(keys, l, p, s, op, runID, stepID);
    } else if op.CompleteOp? {
      CompleteClears(s, runID, stepID, op.failed);
    } else {
      AcquireHolds(keys, l, p, s, runID, op.step, op.capacity);
    }
  }

  /** After any operations of any runs, a step holds an entry exactly when one of its acquisitions stands. */
  lemma {:induction false} HoldsIff(keys: Keying, l: Limits, p: Policy, ops: seq<Op>, runID: string, stepID: string)
    requires ValidPolicy(p) && '\0' !in runID && Plain(ops)
    ensures Holds(Run(keys, l, p, ops), runID, stepID) <==> SomeStands(keys, l, p, ops, runID, stepID)
    decreases |ops|
  {
    if ops != [] {
      var init, op := ops[..|ops| - 1], ops[|ops| - 1];
      assert ops == init + [op];
      HoldsIff(keys, l, p, init, runID, stepID);
      RunLast(keys, l, p, init, op);
      HoldsStep(keys, l, p, Run(keys, l, p, init), op, runID, stepID);
      SomeStandsStep(keys, l, p, init, op, runID, stepID);
    }
  }

  /** `op` is the operation that gave the workflow its last answer about the step. Other attempts of the step's
      activities may still take effect in `more`. */
  ghost predicate AnsweredBy(keys: Keying, l: Limits, p: Policy, ops: seq<Op>, runID: string, stepID: string,
                             w: seq<Effect>, before: seq<Op>, op: Op, more: seq<Op>)
    requires ValidPolicy(p)
  {
    ops == before + [op] + more && Mine(op, runID, stepID) && Answers(keys, l, p, before, op, w)
  }

  /** Once a step has given back what it reserved, it holds an entry exactly if an attempt that took effect after
      the last answer was granted, and stands. */
  lemma OnlyLateAttemptsHold(keys: Keying, l: Limits, p: Policy, ops: seq<Op>, runID: string, stepID: string,
                             w: seq<Effect>, before: seq<Op>, op: Op, more: seq<Op>)
    requires ValidPolicy(p) && '\0' !in runID && Plain(ops) && GivenBack(w)
    requires AnsweredBy(keys, l, p, ops, runID, stepID, w, before, op, more)
    ensures Holds(Run(keys, l, p, ops), runID, stepID) <==>
            exists i :: |before| < i && Stands(keys, l, p, ops, runID, stepID, i)
  {
    HoldsIff(keys, l, p, ops, runID, stepID);
    AnswerClears(keys, l, p, before, op, runID, stepID, w);
    forall i | 0 <= i < |before + [op]| ensures (before + [op])[i] == ops[i] {
    }
    HoldsIff(keys, l, p, before + [op], runID, stepID);
    forall i | Stands(keys, l, p, ops, runID, stepID, i) ensures |before| < i {
      if i <= |before| {
        StoodBefore(keys, l, p, before + [op], more, runID, stepID, i);
      }
    }
  }

  lemma StoodBefore(keys: Keying, l: Limits, p: Policy, ops: seq<Op>, more: seq<Op>, runID: string, stepID: string,
                    i: int)
    requires ValidPolicy(p) && 0 <= i < |ops| && Stands(keys, l, p, ops + more, runID, stepID, i)
    ensures Stands(keys, l, p, ops, runID, stepID, i)
  {
    assert (ops + more)[..i] == ops[..i];
    forall j | i <= j < |ops| ensures (ops + more)[j] == ops[j] {
    }
  }

  /** Such an attempt: an acquisition that was given up and tried again takes effect only after the second one was
      answered and given back. */
  lemma LateAttemptLeaks(l: Limits, p: Policy, runID: string, step: Step, capacity: Capacity)
    requires ValidPolicy(p) && ValidLimits(l) && step.environment != "production" && Available(capacity).0 > 0
    ensures var acquire, complete := AcquireOp(runID, step, capacity), CompleteOp(runID, step.id, false);
            Holds(Run(KeysFor, l, p, [acquire, complete, acquire]), runID, step.id)
  {
    forall k | k in KeysFor(step) ensures EMPTY.held[k] < LimitOf(l, k) {
      LimitsArePositive(l, k);
    }
    AcquiredAgain(KeysFor, l, p, runID, step, capacity);
  }

  lemma AcquiredAgain(keys: Keying, l: Limits, p: Policy, runID: string, step: Step, capacity: Capacity)
    requires ValidPolicy(p) && step.environment != "production" && Admits(keys, l, p, EMPTY, step, capacity)
    ensures var acquire, complete := AcquireOp(runID, step, capacity), CompleteOp(runID, step.id, false);
            Holds(Run(keys, l, p, [acquire, complete, acquire]), runID, step.id)
  {
    var acquire, complete := AcquireOp(runID, step, capacity), CompleteOp(runID, step.id, false);
    var once := [] + [acquire];
    var back := once + [complete];
    RunLast(keys, l, p, [], acquire);
    RunLast(keys, l, p, once, complete);
    GivenBackIsEmpty(keys, l, p, runID, step, capacity);
    RunLast(keys, l, p, back, acquire);
    AcquireHolds(keys, l, p, EMPTY, runID, step, capacity);
    assert back + [acquire] == [acquire, complete, acquire];
  }

  lemma GivenBackIsEmpty(keys: Keying, l: Limits, p: Policy, runID: string, step: Step, capacity: Capacity)
    requires ValidPolicy(p) && step.environment != "production" && Admits(keys, l, p, EMPTY, step, capacity)
    ensures Complete(Acquire(keys, l, p, EMPTY, runID, step, capacity).0, runID, step.id, false) == EMPTY
  {
    var s := Acquire(keys, l, p, EMPTY, runID, step, capacity).0;
    assert s.held - multiset(keys(step)) == multiset{};
    assert s.scheduled - {ScheduleKey(runID, step.id)} == map[];
  }

  // --- No two runs deploy one service at a time ---

  /** A granted reservation stands until its own step gives it back. */
  lemma GrantedIsHeld(keys: Keying, l: Limits, p: Policy, before: seq<Op>, op: Op, more: seq<Op>)
    requires ValidPolicy(p) && op.AcquireOp? && '\0' !in op.runID && Apart(more, op.runID, op.step.id)
    requires NoRestart(more)
    requires !Holds(Run(keys, l, p, before), op.runID, op.step.id) && !Refuses(keys, l, p, Run(keys, l, p, before), op)
    ensures HeldFor(Run(keys, l, p, before + [op] + more), op.runID, op.step)
  {
    RunLast(keys, l, p, before, op);
    OthersTakeNothing(keys, l, p, before + [op], more, op.runID, op.step);
  }

  /** Two reservations that stand at once for the same service, tenant and environment are of one run. */
  lemma MutualExclusion(l: Limits, p: Policy, ops: seq<Op>, r: string, a: Step, r': string, b: Step)
    requires ValidPolicy(p) && ValidLimits(l) && '\0' !in r && '\0' !in r'
    requires HeldFor(Run(KeysFor, l, p, ops), r, a) && HeldFor(Run(KeysFor, l, p, ops), r', b)
    requires TenantKey(a.tenant) == TenantKey(b.tenant) && a.environment == b.environment && a.id == b.id
    ensures r == r'
  {
    WorkerIsBalanced(l, p, ops);
    OneHolderPerService(l, Run(KeysFor, l, p, ops), ScheduleKey(r, a.id), ScheduleKey(r', b.id));
    ScheduleKeyInjective(r, a.id, r', b.id);
  }
}
