/** The release workflow: the steps of a run in order, each only after those before it succeeded. */
module Workflow {
  import opened Domain
  import opened Release
  import opened Budget
  import opened RunChanges
  import opened WaveAssignment
  import opened WorkflowLog
  import opened WorkflowMachine
  import opened WorkflowFlow
  import opened WorkflowControl
  import opened StepInputs
  import opened StepExecution

  method CollectServices(steps: seq<ReleaseStep>) returns (selected: set<string>, succeeded: set<string>)
    ensures selected == Services(steps) && succeeded == SucceededServices(steps)
  {
    selected, succeeded := {}, {};
    for i := 0 to |steps|
      invariant selected == Services(steps[..i]) && succeeded == SucceededServices(steps[..i])
    {
      assert steps[..i + 1] == steps[..i] + [steps[i]];
      selected := selected + {steps[i].spec.service};
      if steps[i].status == StepSucceeded {
        succeeded := succeeded + {steps[i].spec.service};
      }
    }
    assert steps[..|steps|] == steps;
  }

  // --- What it leaves behind ---

  /** The guard of step `k`, which holds at every moment of the run. */
  ghost predicate Proper(run: ReleaseRun, k: nat, t: Trace)
    requires k < |run.steps|
  {
    && Guarded(run.info, run.steps[k].spec.service, Reservation(run.info, run.steps[k].spec), t)
    && (t.clear != [] ==> Ready(run, k))
  }

  ghost predicate LegalAt(run: ReleaseRun, k: nat, t: Trace, status: StepStatus)
    requires k < |run.steps|
  {
    && t.clear != [] && Ready(run, k)
    && Legal(run.info, run.steps[k].spec, Reservation(run.info, run.steps[k].spec), t, status)
  }

  /** Step `k` is behind the workflow: it had succeeded before, or it has succeeded now. */
  ghost predicate Passed(run: ReleaseRun, k: nat, t: Trace, s: ReleaseStep)
    requires k < |run.steps|
  {
    && s.spec == run.steps[k].spec && s.status == StepSucceeded
    && if run.steps[k].status == StepSucceeded then t == UNTOUCHED && s == run.steps[k].(wave := s.wave)
       else LegalAt(run, k, t, StepSucceeded) && Evidenced(run.info, s)
  }

  /** Step `k` stopped the workflow, either on an unmet dependency or through what was done to it. */
  ghost predicate Halted(run: ReleaseRun, k: nat, t: Trace, s: ReleaseStep)
    requires k < |run.steps|
  {
    && s.spec == run.steps[k].spec && s.status != StepSucceeded && run.steps[k].status != StepSucceeded
    && if t == UNTOUCHED then s.status == StepBlocked && !Ready(run, k)
       else LegalAt(run, k, t, s.status) && Evidenced(run.info, s)
  }

  /** What a later step may have become, its wave aside. */
  ghost predicate Closed(s: ReleaseStep, s': ReleaseStep) {
    Settled(s.(wave := s'.wave), s')
  }

  /** The run stopped at the last step it worked on. */
  ghost predicate Stopped(run: ReleaseRun, r: ReleaseRun, traces: seq<Trace>) {
    && 0 < |traces| <= |run.steps| == |r.steps|
    && var k := |traces| - 1;
       && Halted(run, k, traces[k], r.steps[k]) && r.status == Verdict(r.steps[k].status)
       && (forall j :: 0 <= j < k ==> Passed(run, j, traces[j], r.steps[j]))
       && (forall j :: k < j < |run.steps| ==> Closed(run.steps[j], r.steps[j]))
  }

  /** The run was cancelled before the last step it came to. */
  ghost predicate CutShort(run: ReleaseRun, r: ReleaseRun, traces: seq<Trace>) {
    && 0 < |traces| <= |run.steps| == |r.steps| && r.status == RunCancelled && traces[|traces| - 1] == UNTOUCHED
    && (forall j :: 0 <= j < |traces| - 1 ==> Passed(run, j, traces[j], r.steps[j]))
    && (forall j :: |traces| - 1 <= j < |run.steps| ==>
          r.steps[j] == CancelOpen(run.steps[j]).(wave := r.steps[j].wave))
  }

  ghost predicate AllPassed(run: ReleaseRun, r: ReleaseRun, traces: seq<Trace>) {
    && |traces| == |run.steps| == |r.steps| && r.status == RunSucceeded
    && (forall j :: 0 <= j < |traces| ==> Passed(run, j, traces[j], r.steps[j]))
  }

  ghost predicate Finished(run: ReleaseRun, r: ReleaseRun, traces: seq<Trace>) {
    r.info == run.info && (AllPassed(run, r, traces) || Stopped(run, r, traces) || CutShort(run, r, traces))
  }

  // --- The loop ---

  /** The workflow's state before step `i`. */
  ghost predicate Before(run: ReleaseRun, r: ReleaseRun, i: nat, traces: seq<Trace>) {
    && |r.steps| == |run.steps| && i <= |run.steps| && |traces| == i && r.info == run.info && Active(r)
    && (forall j :: 0 <= j < i ==> Passed(run, j, traces[j], r.steps[j]))
    && (forall j :: i <= j < |run.steps| ==> r.steps[j] == run.steps[j].(wave := r.steps[j].wave))
  }

  lemma AvailableNow(run: ReleaseRun, r: ReleaseRun, i: nat, traces: seq<Trace>)
    requires Before(run, r, i, traces)
    ensures SucceededServices(r.steps) == AvailableAt(run, i)
  {
    var now, then0 := SucceededServices(r.steps), AvailableAt(run, i);
    forall n | n in now ensures n in then0 {
      var s :| s in r.steps && s.status == StepSucceeded && s.spec.service == n;
      var j :| 0 <= j < |r.steps| && r.steps[j] == s;
      if j < i {
        assert run.steps[..i][j] == run.steps[j];
      } else {
        assert run.steps[j] in run.steps;
      }
    }
    forall n | n in then0 ensures n in now {
      if n in SucceededServices(run.steps) {
        var s :| s in run.steps && s.status == StepSucceeded && s.spec.service == n;
        var j :| 0 <= j < |run.steps| && run.steps[j] == s;
        assert r.steps[j] in r.steps && r.steps[j].status == StepSucceeded;
      } else {
        var s :| s in run.steps[..i] && s.spec.service == n;
        var j :| 0 <= j < i && run.steps[..i][j] == s;
        assert r.steps[j] in r.steps;
      }
    }
  }

  lemma NowAlso(before: seq<ReleaseStep>, after: seq<ReleaseStep>, i: nat)
    requires i < |before| == |after| && before[i].status != StepSucceeded && after[i].status == StepSucceeded
    requires forall j :: 0 <= j < |before| && j != i ==> after[j] == before[j]
    ensures SucceededServices(after) == SucceededServices(before) + {after[i].spec.service}
  {
    assert after == before[i := after[i]];
    forall s | s in before && s.status == StepSucceeded ensures s in after {
      var j :| 0 <= j < |before| && before[j] == s;
      assert after[j] == s;
    }
    forall s | s in after && s != after[i] ensures s in before {
      var j :| 0 <= j < |after| && after[j] == s;
      assert before[j] == s;
    }
    assert after[i] in after;
  }

  lemma CancelledEarly(run: ReleaseRun, before: ReleaseRun, r: ReleaseRun, i: nat, traces: seq<Trace>)
    requires Before(run, before, i, traces) && i < |run.steps| && CancelledFrom(before, r, i)
    ensures Finished(run, r, traces + [UNTOUCHED])
  {
    var all := traces + [UNTOUCHED];
    forall j | 0 <= j < i ensures Passed(run, j, all[j], r.steps[j]) {
      assert all[j] == traces[j] && r.steps[j] == before.steps[j];
    }
    assert CutShort(run, r, all);
  }

  lemma StoppedHere(run: ReleaseRun, before: ReleaseRun, r: ReleaseRun, i: nat, traces: seq<Trace>, t: Trace)
    requires Before(run, before, i, traces) && i < |run.steps|
    requires |r.steps| == |run.steps|
    requires StoppedAt(before, r, i, r.steps[i].status, Verdict(r.steps[i].status)) && Halted(run, i, t, r.steps[i])
    ensures Finished(run, r, traces + [t])
  {
    var all := traces + [t];
    forall j | 0 <= j < i ensures Passed(run, j, all[j], r.steps[j]) {
      assert all[j] == traces[j] && r.steps[j] == before.steps[j];
    }
    LaterClosed(run, before, r, i, traces);
    assert all[|all| - 1] == t;
    assert Stopped(run, r, all);
  }

  lemma LaterClosed(run: ReleaseRun, before: ReleaseRun, r: ReleaseRun, i: nat, traces: seq<Trace>)
    requires Before(run, before, i, traces) && i < |run.steps| && |r.steps| == |run.steps|
    requires forall j :: i < j < |run.steps| ==> Settled(before.steps[j], r.steps[j])
    ensures forall j :: i < j < |run.steps| ==> Closed(run.steps[j], r.steps[j])
  {
    forall j | i < j < |run.steps| ensures Closed(run.steps[j], r.steps[j]) {
      assert Settled(before.steps[j], r.steps[j]);
    }
  }

  lemma PassedHere(run: ReleaseRun, before: ReleaseRun, r: ReleaseRun, i: nat, traces: seq<Trace>, t: Trace)
    requires Before(run, before, i, traces) && i < |run.steps| && OnlyAt(before, r, i) && Active(r)
    requires Passed(run, i, t, r.steps[i])
    ensures Before(run, r, i + 1, traces + [t])
  {
    var all := traces + [t];
    forall j | 0 <= j < i + 1 ensures Passed(run, j, all[j], r.steps[j]) {
      if j < i {
        assert all[j] == traces[j] && r.steps[j] == before.steps[j];
      }
    }
  }

  ghost predicate SameWaves(before: ReleaseRun, r: ReleaseRun) {
    |r.steps| == |before.steps| && forall k :: 0 <= k < |r.steps| ==> r.steps[k].wave == before.steps[k].wave
  }

  // --- A turn ---

  ghost predicate WordFor(ctx: Context, s: ReleaseStep, t: Trace, status: StepStatus) {
    t.clear != [] && ctx.unmet == "" && Legal(ctx.info, s.spec, ctx.reservation, t, status)
  }

  /** What a turn leaves of the step: `s` before, `s'` after. */
  ghost predicate StepPassed(ctx: Context, s: ReleaseStep, s': ReleaseStep, t: Trace) {
    && s'.status == StepSucceeded
    && if s.status == StepSucceeded then t == UNTOUCHED && s' == s
       else WordFor(ctx, s, t, StepSucceeded) && Evidenced(ctx.info, s')
  }

  ghost predicate StepStopped(ctx: Context, before: ReleaseRun, r: ReleaseRun, i: nat, t: Trace) {
    && i < |before.steps| && i < |r.steps|
    && before.steps[i].status != StepSucceeded && r.steps[i].status != StepSucceeded
    && StoppedAt(before, r, i, r.steps[i].status, Verdict(r.steps[i].status))
    && if t == UNTOUCHED then r.steps[i].status == StepBlocked && ctx.unmet != ""
       else WordFor(ctx, before.steps[i], t, r.steps[i].status) && Evidenced(ctx.info, r.steps[i])
  }

  ghost predicate TurnOutcome(ctx: Context, before: ReleaseRun, r: ReleaseRun, i: nat, t: Trace, end: End) {
    && i < |before.steps|
    && Guarded(ctx.info, before.steps[i].spec.service, ctx.reservation, t) && (t.clear != [] ==> ctx.unmet == "")
    && (end == Going ==> OnlyAt(before, r, i) && Active(r) && StepPassed(ctx, before.steps[i], r.steps[i], t))
    && (end == Done ==> (t == UNTOUCHED && CancelledFrom(before, r, i)) || StepStopped(ctx, before, r, i, t))
  }

  /** One turn that is neither cancelled nor skipped. */
  method WorkOn(ghost ctx: Context, ghost m: Machine, before: ReleaseRun, i: nat, unmet: string, reservation: Step,
                script: seq<Choice>, pos: nat)
      returns (r: ReleaseRun, end: End, pos': nat, t: Trace)
    requires pos <= |script| && i < |before.steps| && Active(before) && before.steps[i].status != StepSucceeded
    requires ctx == Context(before.info, unmet, reservation) && Drives(ctx, m)
    ensures TurnOutcome(ctx, before, r, i, t, end) && (unmet == "" ==> Proceeds(script, pos, 10, end, pos'))
    ensures ReadsOver(m, Begin(ctx, before.steps[i]), script, pos, end, pos', r, i, Said(t))
  {
    if unmet != "" {
      t := UNTOUCHED;
      assert Said(t) == [];
      var blocked := BlockedStep(before.steps[i], "selected dependency did not succeed: " + unmet);
      r, end, pos' := Stop(ctx, m, before, i, blocked, RunBlocked, script, pos);
      return;
    }
    r, end, pos', t := RunStep(ctx, m, before, i, reservation, script, pos);
  }

  /** Cancel and pause signals that arrived before the turn. */
  method Poll(ghost ctx: Context, ghost m: Machine, before: ReleaseRun, i: nat, script: seq<Choice>, pos: nat)
      returns (r: ReleaseRun, end: End, pos': nat)
    requires pos <= |script| && i < |before.steps| && Active(before) && Drives(ctx, m)
    ensures end == Going ==>
              r == before.(pausedFrom := r.pausedFrom, stateVersion := r.stateVersion, updatedAt := r.updatedAt)
    ensures end == Done ==> CancelledFrom(before, r, i)
    ensures pos < |script| && script[pos].cancelled ==> end != Going
    ensures Proceeds(script, pos, 1, end, pos')
    ensures Reads(m, Work(Polling, before.steps[i]), script, pos, end, pos', Begin(ctx, before.steps[i]), r, i, [])
  {
    ghost var start, next := Work(Polling, before.steps[i]), Begin(ctx, before.steps[i]);
    if pos == |script| {
      ReadsNone(m, start, script, pos, before, i);
      return before, Waiting, pos;
    }
    ghost var via := Next(ctx, start, script[pos]);
    ReadsOne(ctx, m, start, script, pos, Going, via, before, i, []);
    r, end, pos' := before, Going, pos + 1;
    if script[pos].cancelled {
      r, end, pos' := CancelRun(ctx, m, before, i, script, pos + 1);
      ReadsThen(m, start, script, pos, pos + 1, via, before, [], end, pos', next, r, i, [], []);
    } else if script[pos].paused {
      r, end, pos' := WaitForResume(ctx, m, false, before, i, script, pos + 1);
      ReadsThen(m, start, script, pos, pos + 1, via, before, [], end, pos', next, r, i, [], []);
    }
  }

  lemma OutcomeAfterPoll(ctx: Context, before: ReleaseRun, polled: ReleaseRun, r: ReleaseRun, i: nat, t: Trace,
                         end: End)
    requires polled == before.(pausedFrom := polled.pausedFrom, stateVersion := polled.stateVersion,
                               updatedAt := polled.updatedAt)
    requires TurnOutcome(ctx, polled, r, i, t, end)
    ensures TurnOutcome(ctx, before, r, i, t, end)
  {
  }

  /** One turn, read from its poll on. */
  method Turn(ghost ctx: Context, ghost m: Machine, before: ReleaseRun, i: nat, unmet: string, reservation: Step,
              script: seq<Choice>, pos: nat)
      returns (r: ReleaseRun, end: End, pos': nat, t: Trace)
    requires pos <= |script| && i < |before.steps| && Active(before)
    requires ctx == Context(before.info, unmet, reservation) && Drives(ctx, m)
    ensures TurnOutcome(ctx, before, r, i, t, end) && (unmet == "" ==> Proceeds(script, pos, 11, end, pos'))
    ensures ReadsOver(m, Work(Polling, before.steps[i]), script, pos, end, pos', r, i, Said(t))
  {
    ghost var start, via := Work(Polling, before.steps[i]), Begin(ctx, before.steps[i]);
    t := UNTOUCHED;
    r, end, pos' := Poll(ctx, m, before, i, script, pos);
    if end != Going || r.steps[i].status == StepSucceeded {
      return;
    }
    ghost var polled, mid := r, pos';
    r, end, pos', t := WorkOn(ctx, m, r, i, unmet, reservation, script, pos');
    OutcomeAfterPoll(ctx, before, polled, r, i, t, end);
    OverThen(m, start, script, pos, mid, via, polled, [], end, pos', r, i, Said(t), Said(t));
    if unmet == "" {
      ProceedsThen(script, pos, 1, mid, 10, end, pos');
    }
  }

  /** A turn that went on leaves the workflow before the next step. */
  lemma TurnGoes(run: ReleaseRun, before: ReleaseRun, r: ReleaseRun, i: nat, traces: seq<Trace>, t: Trace)
    requires Before(run, before, i, traces) && i < |run.steps|
    requires TurnOutcome(ContextAt(run, i), before, r, i, t, Going)
    ensures Before(run, r, i + 1, traces + [t]) && Passed(run, i, t, r.steps[i]) && SameWaves(before, r)
    ensures SucceededServices(r.steps) == SucceededServices(before.steps) + {run.steps[i].spec.service}
  {
    PassedHere(run, before, r, i, traces, t);
    if before.steps[i].status == StepSucceeded {
      assert r.steps == before.steps;
      AlreadyThere(r.steps, i);
    } else {
      NowAlso(before.steps, r.steps, i);
    }
  }

  lemma AlreadyThere(steps: seq<ReleaseStep>, i: nat)
    requires i < |steps| && steps[i].status == StepSucceeded
    ensures SucceededServices(steps) == SucceededServices(steps) + {steps[i].spec.service}
  {
    assert steps[i] in steps;
  }

  /** A turn that stopped the run leaves it finished. */
  lemma TurnStops(run: ReleaseRun, before: ReleaseRun, r: ReleaseRun, i: nat, traces: seq<Trace>, t: Trace)
    requires Before(run, before, i, traces) && i < |run.steps|
    requires TurnOutcome(ContextAt(run, i), before, r, i, t, Done)
    ensures Finished(run, r, traces + [t]) && SameWaves(before, r)
    ensures forall j :: 0 <= j < i ==> r.steps[j] == before.steps[j]
  {
    if t == UNTOUCHED && CancelledFrom(before, r, i) {
      CancelledEarly(run, before, r, i, traces);
    } else {
      StoppedHere(run, before, r, i, traces, t);
    }
  }

  lemma TurnIsProper(run: ReleaseRun, before: ReleaseRun, r: ReleaseRun, i: nat, traces: seq<Trace>, t: Trace, end: End)
    requires Before(run, before, i, traces) && i < |run.steps|
    requires TurnOutcome(ContextAt(run, i), before, r, i, t, end) && AllProper(run, traces)
    ensures AllProper(run, traces + [t])
  {
    var all := traces + [t];
    forall k | 0 <= k < |all| ensures Proper(run, k, all[k]) {
      if k < i {
        assert all[k] == traces[k];
      }
    }
  }

  /** Every step touched so far was handled properly. */
  ghost predicate AllProper(run: ReleaseRun, traces: seq<Trace>) {
    |traces| <= |run.steps| && forall k :: 0 <= k < |traces| ==> Proper(run, k, traces[k])
  }

  /** The first `n` steps have given back what they reserved. */
  ghost predicate AllGivenBack(traces: seq<Trace>, n: int) {
    forall k :: 0 <= k < |traces| && k < n ==> GivenBack(traces[k].tail)
  }

  lemma PassedIsReleased(run: ReleaseRun, k: nat, t: Trace, s: ReleaseStep)
    requires k < |run.steps| && Passed(run, k, t, s)
    ensures GivenBack(t.tail)
  {
    if run.steps[k].status != StepSucceeded {
      LegalIsGuarded(run.info, run.steps[k].spec, Reservation(run.info, run.steps[k].spec), t, StepSucceeded);
    }
  }

  lemma BeforeIsReleased(run: ReleaseRun, r: ReleaseRun, i: nat, traces: seq<Trace>)
    requires Before(run, r, i, traces)
    ensures AllGivenBack(traces, i)
  {
    forall k | 0 <= k < |traces| ensures GivenBack(traces[k].tail) {
      PassedIsReleased(run, k, traces[k], r.steps[k]);
    }
  }

  /** A finished workflow has given back every reservation. */
  lemma FinishedIsReleased(run: ReleaseRun, r: ReleaseRun, traces: seq<Trace>)
    requires Finished(run, r, traces)
    ensures AllGivenBack(traces, |traces|)
  {
    forall k | 0 <= k < |traces| ensures GivenBack(traces[k].tail) {
      if (Stopped(run, r, traces) || CutShort(run, r, traces)) && k == |traces| - 1 {
        if traces[k] != UNTOUCHED {
          LegalIsGuarded(run.info, run.steps[k].spec, Reservation(run.info, run.steps[k].spec), traces[k],
                         r.steps[k].status);
        }
      } else {
        PassedIsReleased(run, k, traces[k], r.steps[k]);
      }
    }
  }

  ghost predicate AllReady(run: ReleaseRun) {
    forall k :: 0 <= k < |run.steps| ==> Ready(run, k)
  }

  /** The turns so far were read off the script one after the other. */
  ghost predicate Underway(run: ReleaseRun, byService: map<string, nat>, script: seq<Choice>, cuts: seq<nat>,
                           traces: seq<Trace>, r: ReleaseRun, pos: nat) {
    && |cuts| == |traces| + 1 && cuts[|traces|] == pos <= |script|
    && TurnsPassed(run, byService, script, cuts, traces, r.steps, |traces|)
  }

  lemma UnderwayStep(run: ReleaseRun, byService: map<string, nat>, script: seq<Choice>, cuts: seq<nat>,
                     traces: seq<Trace>, before: ReleaseRun, pos: nat, ctx: Context, m: Machine, r: ReleaseRun,
                     pos': nat, t: Trace)
    requires Underway(run, byService, script, cuts, traces, before, pos) && |traces| < |run.steps| == |before.steps|
    requires ctx == ContextAt(run, |traces|) && m == MachineOf(ctx)
    requires before.steps[|traces|] == StepAt(run, byService, |traces|) && OnlyAt(before, r, |traces|)
    requires ReadsOver(m, Work(Polling, before.steps[|traces|]), script, pos, Going, pos', r, |traces|, Said(t))
    ensures Underway(run, byService, script, cuts + [pos'], traces + [t], r, pos')
  {
    var k, cuts', traces' := |traces|, cuts + [pos'], traces + [t];
    forall j | 0 <= j < k + 1
      ensures TurnReads(run, byService, j, script, cuts'[j], cuts'[j + 1], Work(Over(Going), r.steps[j]),
                        Said(traces'[j]))
    {
      if j < k {
        assert cuts'[j] == cuts[j] && cuts'[j + 1] == cuts[j + 1] && traces'[j] == traces[j]
               && r.steps[j] == before.steps[j];
      }
    }
  }

  lemma UnderwayEnds(run: ReleaseRun, byService: map<string, nat>, script: seq<Choice>, cuts: seq<nat>,
                     traces: seq<Trace>, before: ReleaseRun, pos: nat, ctx: Context, m: Machine, r: ReleaseRun,
                     end: End, pos': nat, t: Trace)
    requires Underway(run, byService, script, cuts, traces, before, pos) && |traces| < |run.steps| == |before.steps|
    requires ctx == ContextAt(run, |traces|) && m == MachineOf(ctx) && end != Going
    requires before.steps[|traces|] == StepAt(run, byService, |traces|)
    requires ReadsOver(m, Work(Polling, before.steps[|traces|]), script, pos, end, pos', r, |traces|, Said(t))
    requires end == Done ==>
               |r.steps| == |before.steps| && forall j :: 0 <= j < |traces| ==> r.steps[j] == before.steps[j]
    ensures end == Done ==> ScriptRead(run, byService, script, cuts + [pos'], traces + [t], r, end)
    ensures end != Done ==> ScriptRead(run, byService, script, cuts + [pos'], traces + [t], before, end)
  {
    var k, cuts', traces' := |traces|, cuts + [pos'], traces + [t];
    var now := After(m, Work(Polling, before.steps[k]), script, pos, pos');
    var last := if end == Done then r else before;
    forall j | 0 <= j < k
      ensures TurnReads(run, byService, j, script, cuts'[j], cuts'[j + 1], Work(Over(Going), last.steps[j]),
                        Said(traces'[j]))
    {
      assert cuts'[j] == cuts[j] && cuts'[j + 1] == cuts[j + 1] && traces'[j] == traces[j];
    }
    assert TurnReads(run, byService, k, script, pos, pos', now, Said(t)) && ReachedBy(now, end, now, last, k);
  }

  /** The state of the loop before step `i`. */
  ghost predicate Looping(run: ReleaseRun, byService: map<string, nat>, numbered: ReleaseRun, script: seq<Choice>,
                          cuts: seq<nat>, traces: seq<Trace>, r: ReleaseRun, i: nat, pos: nat) {
    && Before(run, r, i, traces) && SameWaves(numbered, r) && AllProper(run, traces)
    && Underway(run, byService, script, cuts, traces, r, pos)
    && (forall j :: i <= j < |run.steps| ==> r.steps[j] == StepAt(run, byService, j))
    && (AllReady(run) ==> Proceeds(script, 1, 11 * i, Going, pos))
  }

  lemma LoopStep(run: ReleaseRun, byService: map<string, nat>, numbered: ReleaseRun, script: seq<Choice>,
                 cuts: seq<nat>, traces: seq<Trace>, before: ReleaseRun, i: nat, pos: nat, ctx: Context,
                 m: Machine, r: ReleaseRun, pos': nat, t: Trace)
    requires Looping(run, byService, numbered, script, cuts, traces, before, i, pos) && i < |run.steps|
    requires ctx == ContextAt(run, i) && m == MachineOf(ctx) && TurnOutcome(ctx, before, r, i, t, Going)
    requires ctx.unmet == "" ==> Proceeds(script, pos, 11, Going, pos')
    requires ReadsOver(m, Work(Polling, before.steps[i]), script, pos, Going, pos', r, i, Said(t))
    ensures Looping(run, byService, numbered, script, cuts + [pos'], traces + [t], r, i + 1, pos')
    ensures SucceededServices(r.steps) == SucceededServices(before.steps) + {run.steps[i].spec.service}
  {
    TurnGoes(run, before, r, i, traces, t);
    TurnIsProper(run, before, r, i, traces, t, Going);
    UnderwayStep(run, byService, script, cuts, traces, before, pos, ctx, m, r, pos', t);
    if AllReady(run) {
      ProceedsThen(script, 1, 11 * i, pos, 11, Going, pos');
    }
  }

  /** What the loop promises when it ends. */
  ghost predicate Looped(run: ReleaseRun, byService: map<string, nat>, numbered: ReleaseRun, script: seq<Choice>,
                         cuts: seq<nat>, traces: seq<Trace>, r: ReleaseRun, end: End) {
    && AllProper(run, traces) && AllGivenBack(traces, |traces| - 1)
    && (end == Done ==> Finished(run, r, traces) && SameWaves(numbered, r))
    && ScriptRead(run, byService, script, cuts, traces, r, end)
    && (end == Errored ==> exists i :: 0 <= i < |script| && !script[i].ok)
    && (AllReady(run) ==> Proceeds(script, 1, 11 * |run.steps|, end, |script|))
  }

  lemma LoopEnds(run: ReleaseRun, byService: map<string, nat>, numbered: ReleaseRun, script: seq<Choice>,
                 cuts: seq<nat>, traces: seq<Trace>, before: ReleaseRun, i: nat, pos: nat, ctx: Context,
                 m: Machine, r: ReleaseRun, end: End, pos': nat, t: Trace)
    requires Looping(run, byService, numbered, script, cuts, traces, before, i, pos) && i < |run.steps| && end != Going
    requires ctx == ContextAt(run, i) && m == MachineOf(ctx) && TurnOutcome(ctx, before, r, i, t, end)
    requires ctx.unmet == "" ==> Proceeds(script, pos, 11, end, pos')
    requires ReadsOver(m, Work(Polling, before.steps[i]), script, pos, end, pos', r, i, Said(t))
    ensures Looped(run, byService, numbered, script, cuts + [pos'], traces + [t], if end == Done then r else before,
                   end)
  {
    TurnIsProper(run, before, r, i, traces, t, end);
    BeforeIsReleased(run, before, i, traces);
    if end == Done {
      TurnStops(run, before, r, i, traces, t);
    }
    UnderwayEnds(run, byService, script, cuts, traces, before, pos, ctx, m, r, end, pos', t);
    assert AllReady(run) ==> ctx.unmet == "";
  }

  /** The loop over the steps. */
  method RunSteps(ghost run: ReleaseRun, numbered: ReleaseRun, ghost byService: map<string, nat>, selected: set<string>,
                  succeeded0: set<string>, script: seq<Choice>)
      returns (r: ReleaseRun, end: End, pos: nat, traces: seq<Trace>, cuts: seq<nat>)
    requires Before(run, numbered, 0, []) && numbered.steps == WithWaves(run.steps, byService) && 1 <= |script|
    requires selected == Services(run.steps) && succeeded0 == SucceededServices(numbered.steps)
    ensures end == Going ==> Looping(run, byService, numbered, script, cuts, traces, r, |run.steps|, pos)
    ensures end != Going ==> Looped(run, byService, numbered, script, cuts, traces, r, end)
  {
    var succeeded := succeeded0;
    r, end, pos, traces, cuts := numbered, Going, 1, [], [1];
    for i := 0 to |numbered.steps|
      invariant Looping(run, byService, numbered, script, cuts, traces, r, i, pos) && end == Going
      invariant succeeded == SucceededServices(r.steps)
    {
      ghost var ctx := ContextAt(run, i);
      ghost var m := MachineOf(ctx);
      MachineDrives(ctx);
      AvailableNow(run, r, i, traces);
      var unmet := UnmetDependency(r.info.plan.content.phases, r.steps[i].spec.service, selected, succeeded);
      var reservation := SchedulingStepFor(r.info, r.steps[i].spec);
      var t, r', pos';
      r', end, pos', t := Turn(ctx, m, r, i, unmet, reservation, script, pos);
      if end != Going {
        LoopEnds(run, byService, numbered, script, cuts, traces, r, i, pos, ctx, m, r', end, pos', t);
        traces, cuts, pos := traces + [t], cuts + [pos'], pos';
        if end == Done {
          r := r';
        }
        return;
      }
      LoopStep(run, byService, numbered, script, cuts, traces, r, i, pos, ctx, m, r', pos', t);
      succeeded := succeeded + {r.steps[i].spec.service};
      r, pos, traces, cuts := r', pos', traces + [t], cuts + [pos'];
    }
  }

  lemma AllTurnsPassed(run: ReleaseRun, byService: map<string, nat>, numbered: ReleaseRun, script: seq<Choice>,
                       cuts: seq<nat>, traces: seq<Trace>, before: ReleaseRun, pos: nat, r: ReleaseRun, end: End)
    requires Looping(run, byService, numbered, script, cuts, traces, before, |run.steps|, pos) && pos <= |script|
    requires end == if pos == |script| then Waiting else if script[pos].ok then Done else Errored
    requires r.steps == before.steps && r.info == before.info && (end == Done ==> r.status == RunSucceeded)
    ensures Concluded(run, byService, script, cuts, traces, r, end)
    ensures AllProper(run, traces) && AllGivenBack(traces, |traces| - 1)
    ensures end == Done ==> AllPassed(run, r, traces) && Finished(run, r, traces) && SameWaves(numbered, r)
  {
    BeforeIsReleased(run, before, |run.steps|, traces);
  }

  /** The loop and, when it has passed every step, the success of the run. */
  method RunNumbered(ghost run: ReleaseRun, numbered: ReleaseRun, ghost byService: map<string, nat>,
                     selected: set<string>, succeeded: set<string>, script: seq<Choice>)
      returns (r: ReleaseRun, end: End, traces: seq<Trace>, cuts: seq<nat>)
    requires Before(run, numbered, 0, []) && numbered.steps == WithWaves(run.steps, byService) && 1 <= |script|
    requires selected == Services(run.steps) && succeeded == SucceededServices(numbered.steps)
    ensures AllProper(run, traces) && AllGivenBack(traces, |traces| - 1) && end != Going
    ensures end == Done ==> Finished(run, r, traces) && SameWaves(numbered, r)
    ensures end == Errored ==> exists i :: 0 <= i < |script| && !script[i].ok
    ensures AllReady(run) && Smooth(script) && |script| >= 2 + 11 * |run.steps| ==>
              end == Done && AllPassed(run, r, traces)
    ensures Concluded(run, byService, script, cuts, traces, r, end)
  {
    var pos;
    r, end, pos, traces, cuts := RunSteps(run, numbered, byService, selected, succeeded, script);
    if end == Going {
      ghost var before, mid := r, pos;
      r, end, pos := Persist(r.(status := RunSucceeded), script, pos);
      if end == Going {
        end := Done;
      }
      AllTurnsPassed(run, byService, numbered, script, cuts, traces, before, mid, r, end);
    }
  }

  /** Either the script was read up to the turn in which the workflow ended or waits, or every turn passed
      and what is left is the last persist, which is the choice after the last turn. */
  ghost predicate Concluded(run: ReleaseRun, byService: map<string, nat>, script: seq<Choice>, cuts: seq<nat>,
                            traces: seq<Trace>, r: ReleaseRun, end: End) {
    || (end != Going && ScriptRead(run, byService, script, cuts, traces, r, end))
    || (&& |traces| == |run.steps| && |cuts| == |run.steps| + 1
        && TurnsPassed(run, byService, script, cuts, traces, r.steps, |run.steps|) && cuts[|run.steps|] <= |script|
        && end == if cuts[|run.steps|] == |script| then Waiting
                  else if script[cuts[|run.steps|]].ok then Done else Errored)
  }

  /** Numbering leaves the services and the successes of a run that was just started as they were. */
  lemma StartsNumbered(run: ReleaseRun, started: ReleaseRun, numbered: ReleaseRun, now: int,
                       byService: map<string, nat>)
    requires started == Saved(run.(status := RunRunning), now)
    requires numbered == started.(steps := WithWaves(run.steps, byService))
    ensures Before(run, numbered, 0, []) && SucceededServices(numbered.steps) == SucceededServices(run.steps)
  {
    AvailableNow(run, started, 0, []);
    AvailableNow(run, numbered, 0, []);
  }

  /** Assigns the waves of a run that was just started. */
  method NumberStarted(ghost run: ReleaseRun, started: ReleaseRun, ghost now: int)
      returns (outcome: Option<ReleaseRun>, byService: map<string, nat>)
    requires started == Saved(run.(status := RunRunning), now)
    ensures outcome.Some? <==> Assignable(run)
    ensures outcome.Some? ==>
              && SafelyNumbered(run, byService) && outcome.value.steps == WithWaves(run.steps, byService)
              && Before(run, outcome.value, 0, [])
              && SucceededServices(outcome.value.steps) == SucceededServices(run.steps)
  {
    outcome, byService := AssignWaves(started);
    if outcome.Some? {
      StartsNumbered(run, started, outcome.value, now, byService);
    }
  }

  /** From any run and for any answers of the outside world. The script fixes everything: the first choice is
      the persist that starts the run, then come the turns, read one after the other by their machines. */
  method ReleaseWorkflow(run: ReleaseRun, script: seq<Choice>)
      returns (r: ReleaseRun, end: End, traces: seq<Trace>, cuts: seq<nat>, byService: map<string, nat>)
    ensures AllProper(run, traces) && AllGivenBack(traces, |traces| - 1)
    ensures end == Done ==> Assignable(run) && SafelyNumbered(run, byService) && Finished(run, r, traces)
    ensures end == Done ==>
              forall k :: 0 <= k < |r.steps| ==> r.steps[k].wave == WaveNumber(byService, run.steps[k].spec.service)
    ensures end == Errored ==> !Assignable(run) || exists i :: 0 <= i < |script| && !script[i].ok
    ensures Assignable(run) && AllReady(run) && Smooth(script) && |script| >= 2 + 11 * |run.steps| ==>
              end == Done && AllPassed(run, r, traces)
    ensures script == [] ==> end == Waiting && traces == []
    ensures script != [] && !(script[0].ok && Assignable(run)) ==> end == Errored && traces == []
    ensures script != [] && script[0].ok && Assignable(run) ==>
              Concluded(run, byService, script, cuts, traces, r, end)
    ensures end != Going
  {
    traces, cuts, byService := [], [], map[];
    var pos;
    r, end, pos := Persist(run.(status := RunRunning), script, 0);
    if end != Going {
      return;
    }
    var selected, succeeded := CollectServices(r.steps);
    var outcome;
    outcome, byService := NumberStarted(run, r, script[0].now);
    if outcome.None? {
      end := Errored;
      return;
    }
    r, end, traces, cuts := RunNumbered(run, outcome.value, byService, selected, succeeded, script);
  }

  // --- How a run ends ---

  ghost predicate Fresh(run: ReleaseRun) {
    forall k :: 0 <= k < |run.steps| ==> run.steps[k].status == StepPending
  }

  predicate Stops(status: StepStatus) {
    || status == StepBlocked || status == StepUnknown || status == StepRolledBack || status == StepEscalated
    || status == StepCancelled
  }

  /** Succeeded steps, one that stopped the run, and cancelled steps after it. */
  ghost predicate StopsAt(r: ReleaseRun, k: nat) {
    && k < |r.steps| && Stops(r.steps[k].status) && r.status == Verdict(r.steps[k].status)
    && (forall j :: 0 <= j < k ==> r.steps[j].status == StepSucceeded)
    && (forall j :: k < j < |r.steps| ==> r.steps[j].status == StepCancelled)
  }

  ghost predicate Succeeds(r: ReleaseRun) {
    r.status == RunSucceeded && forall j :: 0 <= j < |r.steps| ==> r.steps[j].status == StepSucceeded
  }

  lemma LegalStops(run: ReleaseRun, k: nat, t: Trace, status: StepStatus)
    requires k < |run.steps| && LegalAt(run, k, t, status)
    ensures status == StepSucceeded || Stops(status)
  {
  }

  lemma StoppedEnds(run: ReleaseRun, r: ReleaseRun, traces: seq<Trace>)
    requires Stopped(run, r, traces) && Fresh(run)
    ensures StopsAt(r, |traces| - 1)
  {
    var k := |traces| - 1;
    if traces[k] != UNTOUCHED {
      LegalStops(run, k, traces[k], r.steps[k].status);
    }
    forall j | k < j < |r.steps| ensures r.steps[j].status == StepCancelled {
      assert Closed(run.steps[j], r.steps[j]);
    }
    forall j | 0 <= j < k ensures r.steps[j].status == StepSucceeded {
      assert Passed(run, j, traces[j], r.steps[j]);
    }
  }

  lemma CutShortEnds(run: ReleaseRun, r: ReleaseRun, traces: seq<Trace>)
    requires CutShort(run, r, traces) && Fresh(run)
    ensures StopsAt(r, |traces| - 1)
  {
    forall j | 0 <= j < |traces| - 1 ensures r.steps[j].status == StepSucceeded {
      assert Passed(run, j, traces[j], r.steps[j]);
    }
  }

  lemma AllPassedEnds(run: ReleaseRun, r: ReleaseRun, traces: seq<Trace>)
    requires AllPassed(run, r, traces)
    ensures Succeeds(r)
  {
    forall j | 0 <= j < |r.steps| ensures r.steps[j].status == StepSucceeded {
      assert Passed(run, j, traces[j], r.steps[j]);
    }
  }

  /** A fresh run ends in one of two shapes, and its own status tells which. */
  lemma FreshRunEnds(run: ReleaseRun, r: ReleaseRun, traces: seq<Trace>)
    requires Finished(run, r, traces) && Fresh(run)
    ensures Succeeds(r) || exists k :: StopsAt(r, k)
    ensures r.status == RunSucceeded <==> Succeeds(r)
  {
    if AllPassed(run, r, traces) {
      AllPassedEnds(run, r, traces);
    } else if Stopped(run, r, traces) {
      StoppedEnds(run, r, traces);
    } else {
      CutShortEnds(run, r, traces);
    }
  }
}
