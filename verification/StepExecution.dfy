/** The work on one step: clearance, reservation, deployment, verification and rollback. */
module StepExecution {
  import opened Domain
  import opened Release
  import opened RunChanges
  import opened Budget
  import opened WorkflowLog
  import opened WorkflowMachine
  import opened WorkflowControl

  // --- Outcomes ---

  /** The status of a run that stopped at a step. */
  function Verdict(status: StepStatus): RunStatus {
    match status
    case StepBlocked => RunBlocked
    case StepUnknown => RunBlocked
    case StepRolledBack => RunFailed
    case StepEscalated => RunEscalated
    case StepCancelled => RunCancelled
    case _ => NoStatus
  }

  /** What the record of a worked step must show for its status. */
  ghost predicate Evidenced(info: RunInfo, s: ReleaseStep) {
    match s.status
    case StepSucceeded =>
      && Cleared(info, s) && s.execution.Some?
      && (s.spec.verificationRequired ==> s.verification == Some(VerificationPass))
    case StepRolledBack =>
      && Cleared(info, s) && s.execution.Some? && s.verification.Some? && s.verification.value != VerificationPass
      && s.rollbackExecution.Some? && s.rollbackVerification == Some(VerificationPass)
    case StepEscalated =>
      Cleared(info, s) && s.execution.Some? && s.verification.Some? && s.verification.value != VerificationPass
    case StepUnknown => Cleared(info, s)
    case _ => true
  }

  /** The workflow goes on past a step that succeeded, and stops at any other. */
  ghost predicate Outcome(run: ReleaseRun, r: ReleaseRun, index: nat, end: End) {
    && (end == Going ==>
          && OnlyAt(run, r, index) && Active(r) && r.steps[index].status == StepSucceeded
          && Evidenced(r.info, r.steps[index]))
    && (end == Done ==>
          && index < |r.steps| && r.steps[index].status != StepSucceeded
          && StoppedAt(run, r, index, r.steps[index].status, Verdict(r.steps[index].status))
          && Evidenced(r.info, r.steps[index]))
  }

  lemma OutcomeAfter(a: ReleaseRun, b: ReleaseRun, c: ReleaseRun, index: nat, end: End)
    requires OnlyAt(a, b, index) && Outcome(b, c, index, end)
    ensures Outcome(a, c, index, end)
  {
    if end == Going {
      OnlyAtTransitive(a, b, c, index);
    } else if end == Done {
      StoppedAfter(a, b, c, index, c.steps[index].status, Verdict(c.steps[index].status));
    }
  }

  // --- Clearance ---

  /** Evaluates the policy and records its answer. */
  method Evaluate(ghost ctx: Context, ghost m: Machine, run: ReleaseRun, index: nat, script: seq<Choice>, pos: nat)
      returns (r: ReleaseRun, end: End, pos': nat, clear: seq<Effect>)
    requires pos <= |script| && index < |run.steps| && Active(run) && Drives(ctx, m)
    ensures end != Done && (end == Going ==> pos' == pos + 2 <= |script| && clear == [Evaluated(script[pos].decision)])
    ensures end == Going ==>
              && OnlyAt(run, r, index) && Active(r)
              && r.steps[index] == run.steps[index].(policy := Some(script[pos].decision))
    ensures Proceeds(script, pos, 2, end, pos')
    ensures if end == Going
            then Reads(m, Work(Asking, run.steps[index]), script, pos, end, pos', Decided(ctx, r.steps[index]), r,
                       index, clear)
            else Reads(m, Work(Asking, run.steps[index]), script, pos, end, pos', Work(Asking, run.steps[index]), r,
                       index, clear)
  {
    ghost var start := Work(Asking, run.steps[index]);
    clear := [];
    if pos == |script| {
      ReadsNone(m, start, script, pos, run, index);
      return run, Waiting, pos, [];
    }
    if !script[pos].ok {
      ReadsOne(ctx, m, start, script, pos, Errored, start, run, index, []);
      return run, Errored, pos + 1, [];
    }
    var decision := script[pos].decision;
    var step := run.steps[index].(policy := Some(decision));
    clear := [Evaluated(decision)];
    ghost var via := Work(PolicySave, step);
    ReadsOne(ctx, m, start, script, pos, Going, via, run, index, clear);
    r, end, pos' := SaveStep(run, index, step, script, pos + 1);
    ReadsQuiet(ctx, m, via, script, pos + 1, end, pos', Decided(ctx, step), r, index);
    ReadsThen(m, start, script, pos, pos + 1, via, run, clear, end, pos', Decided(ctx, step), r, index, [], clear);
  }

  /** Acts on a decision that is on record: a denied step stops the run, one that needs an approval waits for it. */
  method Heed(ghost ctx: Context, ghost m: Machine, run: ReleaseRun, index: nat, decision: PolicyDecision,
              script: seq<Choice>, pos: nat)
      returns (r: ReleaseRun, end: End, pos': nat, word: seq<Effect>)
    requires pos <= |script| && index < |run.steps| && Active(run) && ctx.info == run.info && Drives(ctx, m)
    requires run.steps[index].policy == Some(decision)
    ensures end == Going ==>
              && OnlyAt(run, r, index) && Active(r) && Cleared(run.info, r.steps[index])
              && Clear(run.info, run.steps[index].spec.service, [Evaluated(decision)] + word)
    ensures end == Done ==>
              Outcome(run, r, index, end) && word == [] && StopsEarly([Evaluated(decision)], r.steps[index].status)
    ensures decision.decision == Allow ==> end == Going && pos' == pos
    ensures ReadsGrant(m, Decided(ctx, run.steps[index]), script, pos, end, pos', r, index, word)
  {
    word := [];
    if decision.decision == Deny {
      var step := BlockedStep(run.steps[index], decision.reasonDetail);
      r, end, pos' := Stop(ctx, m, run, index, step, RunBlocked, script, pos);
    } else if decision.decision == RequireApproval {
      var cause;
      r, end, pos', cause, word := AwaitApproval(ctx, m, run, index, decision, script, pos);
    } else {
      r, end, pos' := run, Going, pos;
      ReadsNone(m, Decided(ctx, run.steps[index]), script, pos, run, index);
    }
  }

  /** Only an allowed step, or one with a valid approval, gets through, and both are taken from the script. */
  method ClearStep(ghost ctx: Context, ghost m: Machine, run: ReleaseRun, index: nat, script: seq<Choice>, pos: nat)
      returns (r: ReleaseRun, end: End, pos': nat, clear: seq<Effect>)
    requires pos <= |script| && index < |run.steps| && Active(run) && ctx.info == run.info && Drives(ctx, m)
    ensures end == Going ==>
              && OnlyAt(run, r, index) && Active(r)
              && Clear(run.info, run.steps[index].spec.service, clear) && Cleared(run.info, r.steps[index])
    ensures end == Going || end == Done ==>
              pos < |script| && clear != [] && clear[0] == Evaluated(script[pos].decision)
    ensures end == Done ==> Outcome(run, r, index, end) && StopsEarly(clear, r.steps[index].status)
    ensures Proceeds(script, pos, 2, end, pos')
    ensures ReadsGrant(m, Work(Asking, run.steps[index]), script, pos, end, pos', r, index, clear)
  {
    ghost var start := Work(Asking, run.steps[index]);
    r, end, pos', clear := Evaluate(ctx, m, run, index, script, pos);
    if end != Going {
      return;
    }
    ghost var evaluated, mid := r, pos';
    var word;
    r, end, pos', word := Heed(ctx, m, r, index, script[pos].decision, script, pos');
    WordThenGrant(m, start, script, pos, mid, Decided(ctx, evaluated.steps[index]), evaluated, clear, end, pos', r,
                  index, word);
    clear := clear + word;
    if end == Going {
      OnlyAtTransitive(run, evaluated, r, index);
    }
    OutcomeAfterEvaluation(run, evaluated, r, index, end);
  }

  lemma OutcomeAfterEvaluation(a: ReleaseRun, b: ReleaseRun, c: ReleaseRun, index: nat, end: End)
    requires OnlyAt(a, b, index) && (end == Done ==> Outcome(b, c, index, end))
    ensures end == Done ==> Outcome(a, c, index, end)
  {
    if end == Done {
      OutcomeAfter(a, b, c, index, end);
    }
  }

  lemma WordThenGrant(m: Machine, w: Work, script: seq<Choice>, pos: nat, mid: nat, via: Work, met: ReleaseRun,
                      word: seq<Effect>, end: End, pos': nat, r: ReleaseRun, index: nat, more: seq<Effect>)
    requires Reads(m, w, script, pos, Going, mid, via, met, index, word)
    requires ReadsGrant(m, via, script, mid, end, pos', r, index, more)
    ensures ReadsGrant(m, w, script, pos, end, pos', r, index, word + more)
  {
    if end == Going {
      ReadsThen(m, w, script, pos, mid, via, met, word, end, pos', Work(Reserving, r.steps[index]), r, index, more,
                word + more);
    } else {
      ReadsThen(m, w, script, pos, mid, via, met, word, end, pos', via, r, index, more, word + more);
    }
  }

  // --- Reservation ---

  /** Acts on the scheduler's reply: a refusal blocks the run, a grant sets the step executing. */
  method Enter(ghost ctx: Context, ghost m: Machine, run: ReleaseRun, index: nat, answer: Choice, script: seq<Choice>,
               pos: nat)
      returns (r: ReleaseRun, end: End, pos': nat)
    requires pos <= |script| && index < |run.steps| && Active(run) && Drives(ctx, m) && answer.ok
    ensures end == Going ==>
              && OnlyAt(run, r, index) && Active(r) && r.steps[index] == run.steps[index].(status := StepExecuting)
              && answer.allowed
    ensures end == Done ==> Outcome(run, r, index, end) && r.steps[index].status == StepBlocked && !answer.allowed
    ensures answer.allowed ==> Proceeds(script, pos, 1, end, pos')
    ensures Reads(m, Next(ctx, Work(Reserving, run.steps[index]), answer), script, pos, end, pos',
                  Work(Deploying, run.steps[index].(status := StepExecuting)), r, index, [])
  {
    ghost var via := Next(ctx, Work(Reserving, run.steps[index]), answer);
    ghost var next := Work(Deploying, run.steps[index].(status := StepExecuting));
    if !answer.allowed {
      var blocked := BlockedStep(run.steps[index], "dispatch backpressured: " + answer.detail);
      r, end, pos' := Stop(ctx, m, run, index, blocked, RunBlocked, script, pos);
    } else {
      r, end, pos' := SaveStep(run, index, run.steps[index].(status := StepExecuting), script, pos);
      ReadsQuiet(ctx, m, via, script, pos, end, pos', next, r, index);
    }
  }

  /** Asks the scheduler and records its reply; a step that gets its reservation starts executing. */
  method Reserve(ghost ctx: Context, ghost m: Machine, run: ReleaseRun, index: nat, reservation: Step,
                 script: seq<Choice>, pos: nat)
      returns (r: ReleaseRun, end: End, pos': nat, w: seq<Effect>)
    requires pos <= |script| && index < |run.steps| && Active(run) && ctx.reservation == reservation && Drives(ctx, m)
    ensures pos == |script| ==> w == []
    ensures pos < |script| ==> w == [Acquired(ctx.reservation, ReplyOf(script[pos]))]
    ensures end == Going ==>
              && OnlyAt(run, r, index) && Active(r) && r.steps[index] == run.steps[index].(status := StepExecuting)
              && pos < |script| && ReplyOf(script[pos]) == Allowed
    ensures end == Done ==>
              && Outcome(run, r, index, end) && r.steps[index].status == StepBlocked
              && pos < |script| && ReplyOf(script[pos]) == Refused
    ensures Proceeds(script, pos, 2, end, pos')
    ensures Reads(m, Work(Reserving, run.steps[index]), script, pos, end, pos',
                  Work(Deploying, run.steps[index].(status := StepExecuting)), r, index, w)
  {
    ghost var start, next :=
      Work(Reserving, run.steps[index]), Work(Deploying, run.steps[index].(status := StepExecuting));
    w := [];
    if pos == |script| {
      ReadsNone(m, start, script, pos, run, index);
      return run, Waiting, pos, [];
    }
    w := [Acquired(reservation, ReplyOf(script[pos]))];
    if !script[pos].ok {
      ReadsOne(ctx, m, start, script, pos, Errored, next, run, index, w);
      return run, Errored, pos + 1, w;
    }
    ghost var via := Next(ctx, start, script[pos]);
    ReadsOne(ctx, m, start, script, pos, Going, via, run, index, w);
    r, end, pos' := Enter(ctx, m, run, index, script[pos], script, pos + 1);
    ReadsThen(m, start, script, pos, pos + 1, via, run, w, end, pos', next, r, index, [], w);
  }

  /** Gives the reservation back, reporting how the step went. */
  method GiveBack(ghost ctx: Context, ghost m: Machine, ghost run: ReleaseRun, ghost index: nat,
                  ghost step: ReleaseStep, failed: bool, script: seq<Choice>, pos: nat)
      returns (end: End, pos': nat, w: seq<Effect>)
    requires pos <= |script| && Drives(ctx, m)
    ensures end != Done && pos' <= pos + 1
    ensures w == if pos == |script| then [] else [Completed(failed, script[pos].ok)]
    ensures end == Going ==> pos < |script| && script[pos].ok
    ensures Proceeds(script, pos, 1, end, pos')
    ensures Reads(m, Work(Releasing(failed), step), script, pos, end, pos',
                  Work(Saving(if failed then Done else Going), step), run, index, w)
  {
    ghost var start, next := Work(Releasing(failed), step), Work(Saving(if failed then Done else Going), step);
    if pos == |script| {
      ReadsNone(m, start, script, pos, run, index);
      return Waiting, pos, [];
    }
    end, pos', w := if script[pos].ok then Going else Errored, pos + 1, [Completed(failed, script[pos].ok)];
    ReadsOne(ctx, m, start, script, pos, end, next, run, index, w);
  }

  /** Gives the reservation back as failed and stops the run at the step. */
  method StopFailed(ghost ctx: Context, ghost m: Machine, run: ReleaseRun, index: nat, step: ReleaseStep,
                    verdict: RunStatus, script: seq<Choice>, pos: nat)
      returns (r: ReleaseRun, end: End, pos': nat, w: seq<Effect>)
    requires pos <= |script| && index < |run.steps| && SameStep(run.steps[index], step) && Drives(ctx, m)
    ensures end != Going
    ensures end == Done ==>
              StoppedAt(run, r, index, step.status, verdict) && r.steps[index] == step && w == [RELEASED_FAILED]
    ensures LateOnly(w)
    ensures forall next :: Reads(m, Work(Releasing(true), step), script, pos, end, pos', next, r, index, w)
  {
    ghost var start, via := Work(Releasing(true), step), Work(Saving(Done), step);
    r := run;
    end, pos', w := GiveBack(ctx, m, run, index, step, true, script, pos);
    if end == Going {
      ghost var mid := pos';
      r, end, pos' := Stop(ctx, m, run, index, step, verdict, script, pos');
      ReadsThen(m, start, script, pos, mid, via, run, w, end, pos', via, r, index, [], w);
    }
  }

  // --- Rollback ---

  lemma LateCons(e: Effect, w: seq<Effect>)
    requires Late(e) && !e.Completed? && LateOnly(w)
    ensures LateOnly([e] + w)
  {
  }

  /** A step whose deployment went through but did not verify. */
  ghost predicate Failing(info: RunInfo, s: ReleaseStep) {
    Cleared(info, s) && s.execution.Some? && s.verification.Some? && s.verification.value != VerificationPass
  }

  /** The step after the answer to the verification of its rollback. */
  function Rechecked(s: ReleaseStep, answer: Choice, why: string): ReleaseStep {
    if answer.ok then Judged(s, answer.verification, why)
    else EscalatedStep(s, "rollback verification unavailable: " + answer.detail)
  }

  lemma RecheckedFits(info: RunInfo, s: ReleaseStep, answer: Choice, why: string)
    requires Failing(info, s) && s.rollbackExecution.Some? && s.spec.rollbackMode == "automatic"
    ensures var step := Rechecked(s, answer, why);
            && SameStep(s, step) && Evidenced(info, step) && step.status != StepSucceeded
            && AfterFailure(s.spec, [RolledBack(true)] + ([Verified(ResultOf(answer))] + [RELEASED_FAILED]),
                            step.status)
  {
    var w := [RolledBack(true)] + ([Verified(ResultOf(answer))] + [RELEASED_FAILED]);
    assert w == [RolledBack(true), Verified(ResultOf(answer)), RELEASED_FAILED];
  }

  /** Acts on the answer at `pos` to the verification of the rolled back deployment. */
  method JudgeRollback(ghost ctx: Context, ghost m: Machine, run: ReleaseRun, index: nat, why: string,
                       script: seq<Choice>, pos: nat)
      returns (r: ReleaseRun, end: End, pos': nat, w: seq<Effect>)
    requires pos < |script| && index < |run.steps| && Failing(run.info, run.steps[index]) && Drives(ctx, m)
    requires run.steps[index].rollbackExecution.Some? && run.steps[index].spec.rollbackMode == "automatic"
    ensures end != Going && LateOnly(w) && w != [] && w[0] == Verified(ResultOf(script[pos]))
    ensures end == Done ==> Outcome(run, r, index, end)
    ensures end == Done ==> AfterFailure(run.steps[index].spec, [RolledBack(true)] + w, r.steps[index].status)
    ensures forall next ::
              Reads(m, Work(VerifyingUndo(why), run.steps[index]), script, pos, end, pos', next, r, index, w)
  {
    ghost var start := Work(VerifyingUndo(why), run.steps[index]);
    var answer := script[pos];
    var step := Rechecked(run.steps[index], answer, why);
    RecheckedFits(run.info, run.steps[index], answer, why);
    ghost var via := Work(Releasing(true), step);
    var seen, mid, back := [Verified(ResultOf(answer))], pos + 1, [];
    ReadsOne(ctx, m, start, script, pos, Going, via, run, index, seen);
    r, end, pos', back := StopFailed(ctx, m, run, index, step, Verdict(step.status), script, mid);
    w := seen + back;
    LateCons(Verified(ResultOf(answer)), back);
    ReadsThen(m, start, script, pos, mid, via, run, seen, end, pos', start, r, index, back, w);
  }

  /** Observes and verifies the rolled back deployment. */
  method CheckRollback(ghost ctx: Context, ghost m: Machine, run: ReleaseRun, index: nat, why: string,
                       script: seq<Choice>, pos: nat)
      returns (r: ReleaseRun, end: End, pos': nat, w: seq<Effect>)
    requires pos <= |script| && index < |run.steps| && Failing(run.info, run.steps[index]) && Drives(ctx, m)
    requires run.steps[index].rollbackExecution.Some? && run.steps[index].spec.rollbackMode == "automatic"
    ensures end != Going && LateOnly(w)
    ensures end == Done ==> Outcome(run, r, index, end)
    ensures end == Done ==> AfterFailure(run.steps[index].spec, [RolledBack(true)] + w, r.steps[index].status)
    ensures forall next ::
              Reads(m, Work(ObservingUndo(why), run.steps[index]), script, pos, end, pos', next, r, index, w)
  {
    ghost var start, via := Work(ObservingUndo(why), run.steps[index]), Work(VerifyingUndo(why), run.steps[index]);
    w := [];
    end, pos' := Sleep(ctx, m, run, index, start, via, script, pos);
    r := run;
    if end != Going {
      return;
    }
    if pos' == |script| {
      ReadsNone(m, via, script, pos', run, index);
      ReadsThen(m, start, script, pos, pos', via, run, [], Waiting, pos', via, run, index, [], []);
      end := Waiting;
      return;
    }
    ghost var mid := pos';
    r, end, pos', w := JudgeRollback(ctx, m, run, index, why, script, pos');
    ReadsThen(m, start, script, pos, mid, via, run, [], end, pos', via, r, index, w, w);
  }

  /** Waits for the observation window to pass. */
  method Sleep(ghost ctx: Context, ghost m: Machine, ghost run: ReleaseRun, ghost index: nat, ghost w: Work,
               ghost next: Work, script: seq<Choice>, pos: nat)
      returns (end: End, pos': nat)
    requires pos <= |script| && Drives(ctx, m) && next.step == w.step
    requires || (w.at == Observing && next.at == Verifying)
             || (w.at.ObservingUndo? && next.at == VerifyingUndo(w.at.why))
    ensures end != Done && Proceeds(script, pos, 1, end, pos')
    ensures Reads(m, w, script, pos, end, pos', next, run, index, [])
  {
    if pos == |script| {
      end, pos' := Waiting, pos;
    } else {
      end, pos' := if script[pos].ok then Going else Errored, pos + 1;
    }
    ReadsQuiet(ctx, m, w, script, pos, end, pos', next, run, index);
  }

  /** Acts on the answer at `pos` to the rollback. */
  method Undo(ghost ctx: Context, ghost m: Machine, run: ReleaseRun, index: nat, why: string, script: seq<Choice>,
              pos: nat)
      returns (r: ReleaseRun, end: End, pos': nat, w: seq<Effect>)
    requires pos < |script| && index < |run.steps| && Failing(run.info, run.steps[index]) && Drives(ctx, m)
    requires run.steps[index].spec.rollbackMode == "automatic"
    ensures end != Going && LateOnly(w) && w != [] && w[0] == RolledBack(script[pos].ok)
    ensures end == Done ==> Outcome(run, r, index, end)
    ensures end == Done ==> AfterFailure(run.steps[index].spec, w, r.steps[index].status)
    ensures forall next :: Reads(m, Work(Undoing(why), run.steps[index]), script, pos, end, pos', next, r, index, w)
  {
    ghost var start := Work(Undoing(why), run.steps[index]);
    var answer := script[pos];
    ghost var via := Next(ctx, start, answer);
    ReadsOne(ctx, m, start, script, pos, Going, via, run, index, [RolledBack(answer.ok)]);
    var back;
    if !answer.ok {
      var step := EscalatedStep(run.steps[index], "rollback failed or unknown: " + answer.detail);
      r, end, pos', back := StopFailed(ctx, m, run, index, step, RunEscalated, script, pos + 1);
    } else {
      var undone := SetStep(run, index, run.steps[index].(rollbackExecution := Some(answer.externalID)));
      SetStepIsOnlyAt(run, index, undone.steps[index], run.status);
      r, end, pos', back := CheckRollback(ctx, m, undone, index, why, script, pos + 1);
      OutcomeAfter(run, undone, r, index, end);
    }
    w := [RolledBack(answer.ok)] + back;
    LateCons(w[0], back);
    ReadsThen(m, start, script, pos, pos + 1, via, run, [RolledBack(answer.ok)], end, pos', start, r, index, back, w);
  }

  method RollBack(ghost ctx: Context, ghost m: Machine, run: ReleaseRun, index: nat, why: string, script: seq<Choice>,
                  pos: nat)
      returns (r: ReleaseRun, end: End, pos': nat, w: seq<Effect>)
    requires pos <= |script| && index < |run.steps| && Failing(run.info, run.steps[index]) && Drives(ctx, m)
    requires run.steps[index].spec.rollbackMode == "automatic"
    ensures end != Going && LateOnly(w)
    ensures end == Done ==> Outcome(run, r, index, end)
    ensures end == Done ==> AfterFailure(run.steps[index].spec, w, r.steps[index].status)
    ensures forall next ::
              Reads(m, Work(RollingSave(why), run.steps[index].(status := StepRollingBack)), script, pos, end, pos',
                    next, r, index, w)
  {
    var step := run.steps[index].(status := StepRollingBack);
    ghost var start, via := Work(RollingSave(why), step), Work(Undoing(why), step);
    w := [];
    r, end, pos' := SaveStep(run, index, step, script, pos);
    ReadsQuiet(ctx, m, start, script, pos, end, pos', via, r, index);
    if end != Going {
      return;
    }
    ghost var rolling, mid := r, pos';
    if pos' == |script| {
      ReadsNone(m, via, script, pos', r, index);
      ReadsThen(m, start, script, pos, pos', via, r, [], Waiting, pos', via, r, index, [], []);
      end := Waiting;
      return;
    }
    r, end, pos', w := Undo(ctx, m, r, index, why, script, pos');
    ReadsThen(m, start, script, pos, mid, via, rolling, [], end, pos', via, r, index, w, w);
    OutcomeAfter(run, rolling, r, index, end);
  }

  // --- Verification ---

  /** Marks the step as succeeded after giving its reservation back. */
  method Succeed(ghost ctx: Context, ghost m: Machine, run: ReleaseRun, index: nat, script: seq<Choice>, pos: nat)
      returns (r: ReleaseRun, end: End, pos': nat, w: seq<Effect>)
    requires pos <= |script| && index < |run.steps| && Active(run) && Drives(ctx, m)
    requires Evidenced(run.info, run.steps[index].(status := StepSucceeded))
    ensures Outcome(run, r, index, end) && LateOnly(w) && end != Done
    ensures end == Going ==> w == [RELEASED]
    ensures Proceeds(script, pos, 2, end, pos')
    ensures Reads(m, Work(Releasing(false), run.steps[index].(status := StepSucceeded)), script, pos, end, pos',
                  Work(Over(Going), run.steps[index].(status := StepSucceeded)), r, index, w)
    ensures end == Going ==> r.steps[index] == run.steps[index].(status := StepSucceeded)
  {
    var step := run.steps[index].(status := StepSucceeded);
    ghost var start, via, next := Work(Releasing(false), step), Work(Saving(Going), step), Work(Over(Going), step);
    r := run;
    end, pos', w := GiveBack(ctx, m, run, index, step, false, script, pos);
    if end == Going {
      ghost var mid := pos';
      r, end, pos' := SaveStep(run, index, step, script, pos');
      ReadsQuiet(ctx, m, via, script, mid, end, pos', next, r, index);
      ReadsThen(m, start, script, pos, mid, via, run, w, end, pos', next, r, index, [], w);
      ProceedsThen(script, pos, 1, mid, 1, end, pos');
    }
  }

  /** The record of a step that is over, as the machine leaves it. */
  ghost predicate ReadsOver(m: Machine, w: Work, script: seq<Choice>, pos: nat, end: End, pos': nat, r: ReleaseRun,
                            index: nat, word: seq<Effect>) {
    if end == Going then
      index < |r.steps| && Reads(m, w, script, pos, end, pos', Work(Over(Going), r.steps[index]), r, index, word)
    else Reads(m, w, script, pos, end, pos', w, r, index, word)
  }

  lemma OverThen(m: Machine, w: Work, script: seq<Choice>, pos: nat, mid: nat, via: Work, met: ReleaseRun,
                 word: seq<Effect>, end: End, pos': nat, r: ReleaseRun, index: nat, more: seq<Effect>,
                 total: seq<Effect>)
    requires Reads(m, w, script, pos, Going, mid, via, met, index, word) && total == word + more
    requires ReadsOver(m, via, script, mid, end, pos', r, index, more)
    ensures ReadsOver(m, w, script, pos, end, pos', r, index, total)
  {
    if end == Going {
      ReadsThen(m, w, script, pos, mid, via, met, word, end, pos', Work(Over(Going), r.steps[index]), r, index, more,
                total);
    } else {
      ReadsThen(m, w, script, pos, mid, via, met, word, end, pos', via, r, index, more, total);
    }
  }

  /** Acts on a verification that came back: `checked` records it. */
  method Conclude(ghost ctx: Context, ghost m: Machine, checked: ReleaseRun, index: nat, answer: Choice,
                  script: seq<Choice>, pos: nat)
      returns (r: ReleaseRun, end: End, pos': nat, w: seq<Effect>)
    requires pos <= |script| && index < |checked.steps| && Active(checked) && Drives(ctx, m)
    requires Cleared(checked.info, checked.steps[index]) && checked.steps[index].execution.Some? && answer.ok
    requires checked.steps[index].verification == Some(answer.verification)
    requires checked.steps[index].spec.verificationRequired
    ensures Outcome(checked, r, index, end) && LateOnly(w)
    ensures end == Going || end == Done ==>
              if answer.verification == VerificationPass then end == Going && w == [RELEASED]
              else end == Done && AfterFailure(checked.steps[index].spec, w, r.steps[index].status)
    ensures Friendly(answer) ==> Proceeds(script, pos, 2, end, pos')
    ensures ReadsOver(m, AfterVerification(checked.steps[index], answer), script, pos, end, pos', r, index, w)
  {
    if answer.verification == VerificationPass {
      r, end, pos', w := Succeed(ctx, m, checked, index, script, pos);
    } else if checked.steps[index].spec.rollbackMode != "automatic" {
      var step := EscalatedStep(checked.steps[index], "automatic rollback is not authorized");
      r, end, pos', w := StopFailed(ctx, m, checked, index, step, RunEscalated, script, pos);
    } else {
      r, end, pos', w := RollBack(ctx, m, checked, index, answer.detail, script, pos);
    }
  }

  /** Acts on the answer at `pos` to the verification. */
  method Judge(ghost ctx: Context, ghost m: Machine, run: ReleaseRun, index: nat, script: seq<Choice>, pos: nat)
      returns (r: ReleaseRun, end: End, pos': nat, w: seq<Effect>)
    requires pos < |script| && index < |run.steps| && Active(run) && Cleared(run.info, run.steps[index])
    requires run.steps[index].execution.Some? && run.steps[index].spec.verificationRequired && Drives(ctx, m)
    ensures Outcome(run, r, index, end) && LateOnly(w) && w != [] && w[0] == Verified(ResultOf(script[pos]))
    ensures end == Going || end == Done ==> AfterDeploy(run.steps[index].spec, w, r.steps[index].status)
    ensures Proceeds(script, pos, 3, end, pos')
    ensures ReadsOver(m, Work(Verifying, run.steps[index]), script, pos, end, pos', r, index, w)
  {
    ghost var start := Work(Verifying, run.steps[index]);
    var answer := script[pos];
    var back;
    ghost var e, via := Verified(ResultOf(answer)), AfterVerification(run.steps[index], answer);
    ReadsOne(ctx, m, start, script, pos, Going, via, run, index, [e]);
    if !answer.ok {
      var step := BlockedStep(run.steps[index], "verification unavailable: " + answer.detail);
      r, end, pos', back := StopFailed(ctx, m, run, index, step, RunBlocked, script, pos + 1);
    } else {
      var checked := SetStep(run, index, run.steps[index].(verification := Some(answer.verification)));
      SetStepIsOnlyAt(run, index, checked.steps[index], run.status);
      r, end, pos', back := Conclude(ctx, m, checked, index, answer, script, pos + 1);
      OutcomeAfter(run, checked, r, index, end);
    }
    w := [Verified(ResultOf(answer))] + back;
    Cons(Verified(ResultOf(answer)), back);
    LateCons(w[0], back);
    OverThen(m, start, script, pos, pos + 1, via, run, [e], end, pos', r, index, back, w);
  }

  /** Observes and verifies a deployment. */
  method VerifyStep(ghost ctx: Context, ghost m: Machine, run: ReleaseRun, index: nat, script: seq<Choice>, pos: nat)
      returns (r: ReleaseRun, end: End, pos': nat, w: seq<Effect>)
    requires pos <= |script| && index < |run.steps| && Active(run) && Cleared(run.info, run.steps[index])
    requires run.steps[index].execution.Some? && run.steps[index].spec.verificationRequired && Drives(ctx, m)
    ensures Outcome(run, r, index, end) && LateOnly(w) && Proceeds(script, pos, 4, end, pos')
    ensures end == Going || end == Done ==> AfterDeploy(run.steps[index].spec, w, r.steps[index].status)
    ensures ReadsOver(m, Work(Observing, run.steps[index]), script, pos, end, pos', r, index, w)
  {
    ghost var start, via := Work(Observing, run.steps[index]), Work(Verifying, run.steps[index]);
    w := [];
    end, pos' := Sleep(ctx, m, run, index, start, via, script, pos);
    r := run;
    if end != Going {
      return;
    }
    ghost var mid := pos';
    if pos' == |script| {
      end := Waiting;
      ReadsNone(m, via, script, pos', run, index);
      OverThen(m, start, script, pos, mid, via, run, [], end, pos', r, index, [], []);
      return;
    }
    r, end, pos', w := Judge(ctx, m, run, index, script, pos');
    OverThen(m, start, script, pos, mid, via, run, [], end, pos', r, index, w, w);
    ProceedsThen(script, pos, 1, mid, 3, end, pos');
  }

  /** What happens to a deployed step. */
  method FinishStep(ghost ctx: Context, ghost m: Machine, run: ReleaseRun, index: nat, script: seq<Choice>, pos: nat)
      returns (r: ReleaseRun, end: End, pos': nat, w: seq<Effect>)
    requires pos <= |script| && index < |run.steps| && Active(run) && Cleared(run.info, run.steps[index])
    requires run.steps[index].execution.Some? && Drives(ctx, m)
    ensures Outcome(run, r, index, end) && LateOnly(w) && Proceeds(script, pos, 5, end, pos')
    ensures end == Going || end == Done ==> AfterDeploy(run.steps[index].spec, w, r.steps[index].status)
    ensures ReadsOver(m, Deployment(run.steps[index]), script, pos, end, pos', r, index, w)
  {
    if !run.steps[index].spec.verificationRequired {
      r, end, pos', w := Succeed(ctx, m, run, index, script, pos);
      return;
    }
    var step := run.steps[index].(status := StepVerifying);
    ghost var start, via := Work(VerifyingSave, step), Work(Observing, step);
    w := [];
    r, end, pos' := SaveStep(run, index, step, script, pos);
    ReadsQuiet(ctx, m, start, script, pos, end, pos', via, r, index);
    if end != Going {
      return;
    }
    ghost var verifying, mid := r, pos';
    r, end, pos', w := VerifyStep(ctx, m, r, index, script, pos');
    OverThen(m, start, script, pos, mid, via, verifying, [], end, pos', r, index, w, w);
    ProceedsThen(script, pos, 1, mid, 4, end, pos');
    OutcomeAfter(run, verifying, r, index, end);
  }

  // --- Deployment ---

  /** A deployment that came back with an error: nothing is known about it. */
  method LoseTrack(ghost ctx: Context, ghost m: Machine, run: ReleaseRun, index: nat, script: seq<Choice>, pos: nat)
      returns (r: ReleaseRun, end: End, pos': nat, w: seq<Effect>)
    requires pos <= |script| && index < |run.steps| && Cleared(run.info, run.steps[index]) && Drives(ctx, m)
    ensures Outcome(run, r, index, end) && LateOnly(w) && end != Going
    ensures end == Done ==> r.steps[index].status == StepUnknown && w == [RELEASED_FAILED]
    ensures forall next ::
              Reads(m, Work(Releasing(true), UnknownStep(run.steps[index])), script, pos, end, pos', next, r, index, w)
  {
    r, end, pos', w := StopFailed(ctx, m, run, index, UnknownStep(run.steps[index]), RunBlocked, script, pos);
  }

  /** A deployment that went through. */
  method SeeThrough(ghost ctx: Context, ghost m: Machine, run: ReleaseRun, index: nat, externalID: string,
                    script: seq<Choice>, pos: nat)
      returns (r: ReleaseRun, end: End, pos': nat, w: seq<Effect>)
    requires pos <= |script| && index < |run.steps| && Active(run) && Cleared(run.info, run.steps[index])
    requires Drives(ctx, m)
    ensures Outcome(run, r, index, end) && LateOnly(w) && Proceeds(script, pos, 5, end, pos')
    ensures end == Going || end == Done ==> AfterDeploy(run.steps[index].spec, w, r.steps[index].status)
    ensures ReadsOver(m, Deployment(run.steps[index].(execution := Some(externalID))), script, pos, end, pos', r, index,
                      w)
  {
    var deployed := SetStep(run, index, run.steps[index].(execution := Some(externalID)));
    SetStepIsOnlyAt(run, index, deployed.steps[index], run.status);
    r, end, pos', w := FinishStep(ctx, m, deployed, index, script, pos);
    OutcomeAfter(run, deployed, r, index, end);
  }

  /** Acts on the answer to a deployment. */
  method SettleDeployment(ghost ctx: Context, ghost m: Machine, run: ReleaseRun, index: nat, answer: Choice,
                          script: seq<Choice>, pos: nat)
      returns (r: ReleaseRun, end: End, pos': nat, w: seq<Effect>)
    requires pos <= |script| && index < |run.steps| && Active(run) && Cleared(run.info, run.steps[index])
    requires Drives(ctx, m)
    ensures Outcome(run, r, index, end) && (answer.ok ==> Proceeds(script, pos, 5, end, pos'))
    ensures DeploysOnce([Deployed(answer.ok)] + w)
    ensures end == Going || end == Done ==>
              AfterAcquire(run.steps[index].spec, [Deployed(answer.ok)] + w, r.steps[index].status)
    ensures ReadsOver(m, AfterDeployment(run.steps[index], answer), script, pos, end, pos', r, index, w)
  {
    if !answer.ok {
      r, end, pos', w := LoseTrack(ctx, m, run, index, script, pos);
    } else {
      r, end, pos', w := SeeThrough(ctx, m, run, index, answer.externalID, script, pos);
    }
    Cons(Deployed(answer.ok), w);
  }

  /** Deploys a reserved step and sees it through; the outcome on record is the one in the script. */
  method DeployStep(ghost ctx: Context, ghost m: Machine, run: ReleaseRun, index: nat, script: seq<Choice>, pos: nat)
      returns (r: ReleaseRun, end: End, pos': nat, w: seq<Effect>)
    requires pos <= |script| && index < |run.steps| && Active(run) && Cleared(run.info, run.steps[index])
    requires Drives(ctx, m)
    ensures Outcome(run, r, index, end) && DeploysOnce(w) && Proceeds(script, pos, 6, end, pos')
    ensures if pos == |script| then w == [] else w != [] && w[0] == Deployed(script[pos].ok)
    ensures end == Going || end == Done ==> AfterAcquire(run.steps[index].spec, w, r.steps[index].status)
    ensures ReadsOver(m, Work(Deploying, run.steps[index]), script, pos, end, pos', r, index, w)
  {
    ghost var start := Work(Deploying, run.steps[index]);
    if pos == |script| {
      ReadsNone(m, start, script, pos, run, index);
      return run, Waiting, pos, [];
    }
    var answer := script[pos];
    ghost var via := AfterDeployment(run.steps[index], answer);
    ReadsOne(ctx, m, start, script, pos, Going, via, run, index, [Deployed(answer.ok)]);
    var later;
    ghost var mid := pos + 1;
    r, end, pos', later := SettleDeployment(ctx, m, run, index, answer, script, pos + 1);
    if answer.ok {
      ProceedsThen(script, pos, 1, mid, 5, end, pos');
    }
    w := [Deployed(answer.ok)] + later;
    OverThen(m, start, script, pos, mid, via, run, [Deployed(answer.ok)], end, pos', r, index, later, w);
  }

  /** Reserves, deploys and sees a cleared step through. */
  method RunCleared(ghost ctx: Context, ghost m: Machine, run: ReleaseRun, index: nat, reservation: Step,
                    script: seq<Choice>, pos: nat)
      returns (r: ReleaseRun, end: End, pos': nat, w: seq<Effect>)
    requires pos <= |script| && index < |run.steps| && Active(run) && Cleared(run.info, run.steps[index])
    requires ctx.reservation == reservation && Drives(ctx, m)
    ensures Outcome(run, r, index, end) && ReservesOnce(ctx.reservation, w)
    ensures Proceeds(script, pos, 8, end, pos')
    ensures end == Going || end == Done ==>
              AfterClear(run.steps[index].spec, ctx.reservation, w, r.steps[index].status)
    ensures ReadsOver(m, Work(Reserving, run.steps[index]), script, pos, end, pos', r, index, w)
  {
    var later;
    ghost var start := Work(Reserving, run.steps[index]);
    r, end, pos', w := Reserve(ctx, m, run, index, reservation, script, pos);
    if end != Going {
      return;
    }
    ghost var reserved, mid, word := r, pos', w;
    r, end, pos', later := DeployStep(ctx, m, r, index, script, pos');
    ProceedsThen(script, pos, 2, mid, 6, end, pos');
    OutcomeAfter(run, reserved, r, index, end);
    Cons(w[0], later);
    w := [w[0]] + later;
    OverThen(m, start, script, pos, mid, Work(Deploying, reserved.steps[index]), reserved, word, end, pos', r, index,
             later, w);
  }

  /** The whole of a step whose dependencies are met. */
  method RunStep(ghost ctx: Context, ghost m: Machine, run: ReleaseRun, index: nat, reservation: Step,
                 script: seq<Choice>, pos: nat)
      returns (r: ReleaseRun, end: End, pos': nat, t: Trace)
    requires pos <= |script| && index < |run.steps| && Active(run) && ctx.info == run.info
    requires ctx.reservation == reservation && Drives(ctx, m)
    ensures Outcome(run, r, index, end) && Proceeds(script, pos, 10, end, pos')
    ensures Guarded(run.info, run.steps[index].spec.service, ctx.reservation, t)
    ensures end == Going || end == Done ==>
              && t.clear != []
              && Legal(run.info, run.steps[index].spec, ctx.reservation, t,
                       r.steps[index].status)
    ensures ReadsOver(m, Work(Asking, run.steps[index]), script, pos, end, pos', r, index, t.clear + t.tail)
  {
    ghost var start := Work(Asking, run.steps[index]);
    var clear, tail;
    r, end, pos', clear := ClearStep(ctx, m, run, index, script, pos);
    if end != Going {
      t := Trace(clear, []);
      assert clear + [] == clear;
      return;
    }
    ghost var cleared, mid := r, pos';
    r, end, pos', tail := RunCleared(ctx, m, r, index, reservation, script, pos');
    ProceedsThen(script, pos, 2, mid, 8, end, pos');
    OutcomeAfter(run, cleared, r, index, end);
    t := Trace(clear, tail);
    OverThen(m, start, script, pos, mid, Work(Reserving, cleared.steps[index]), cleared, clear, end, pos', r, index,
             tail, clear + tail);
  }
}
