/** How the workflow changes a run: one step at a time, or a stop that settles
    everything after it. */
module RunChanges {
  import opened Release

  /** A successful persist: the next version, with a new timestamp. */
  function Saved(run: ReleaseRun, now: int): ReleaseRun {
    run.(stateVersion := run.stateVersion + 1, updatedAt := now)
  }

  function SetStep(run: ReleaseRun, index: nat, step: ReleaseStep): ReleaseRun
    requires index < |run.steps|
  {
    run.(steps := run.steps[index := step])
  }

  predicate Open(s: StepStatus) { s == StepPending || s == StepWaitingApproval }

  // --- Cancelling ---

  function CancelPending(step: ReleaseStep): ReleaseStep {
    if step.status == StepPending then step.(status := StepCancelled) else step
  }

  function CancelOpen(step: ReleaseStep): ReleaseStep {
    if Open(step.status) then step.(status := StepCancelled) else step
  }

  /** From `from` on, pending steps become cancelled; nothing else changes. */
  method CancelDownstream(run: ReleaseRun, from: nat) returns (r: ReleaseRun)
    ensures r == run.(steps := r.steps) && |r.steps| == |run.steps|
    ensures forall k :: 0 <= k < |run.steps| ==>
              r.steps[k] == if k < from then run.steps[k] else CancelPending(run.steps[k])
  {
    r := run;
    var i := from;
    while i < |run.steps|
      invariant from <= i && r == run.(steps := r.steps) && |r.steps| == |run.steps|
      invariant forall k :: 0 <= k < |run.steps| ==>
                  r.steps[k] == if from <= k < i then CancelPending(run.steps[k]) else run.steps[k]
    {
      if r.steps[i].status == StepPending {
        r := SetStep(r, i, r.steps[i].(status := StepCancelled));
      }
      i := i + 1;
    }
  }

  /** From `from` on, pending and waiting steps become cancelled, and so does the run. */
  method CancelFrom(run: ReleaseRun, from: nat) returns (r: ReleaseRun)
    ensures r == run.(status := RunCancelled, steps := r.steps) && |r.steps| == |run.steps|
    ensures forall k :: 0 <= k < |run.steps| ==>
              r.steps[k] == if k < from then run.steps[k] else CancelOpen(run.steps[k])
  {
    r := run.(status := RunCancelled);
    var i := from;
    while i < |run.steps|
      invariant from <= i && r == run.(status := RunCancelled, steps := r.steps) && |r.steps| == |run.steps|
      invariant forall k :: 0 <= k < |run.steps| ==>
                  r.steps[k] == if from <= k < i then CancelOpen(run.steps[k]) else run.steps[k]
    {
      if r.steps[i].status == StepPending || r.steps[i].status == StepWaitingApproval {
        r := SetStep(r, i, r.steps[i].(status := StepCancelled));
      }
      i := i + 1;
    }
  }

  // --- Relations between runs ---

  /** The parts of a step that stay as they are once its wave is assigned. */
  ghost predicate SameStep(s: ReleaseStep, s': ReleaseStep) {
    s'.spec == s.spec && s'.wave == s.wave
  }

  /** Only the step at `index`, apart from its fixed part, and the run's own state differ. */
  ghost predicate OnlyAt(run: ReleaseRun, r: ReleaseRun, index: nat) {
    && index < |run.steps| && |r.steps| == |run.steps|
    && r.info == run.info && SameStep(run.steps[index], r.steps[index])
    && (forall k :: 0 <= k < |run.steps| && k != index ==> r.steps[k] == run.steps[k])
  }

  /** What a stop makes of a later step: cancelled if it was pending, never reopened. */
  ghost predicate Settled(s: ReleaseStep, s': ReleaseStep) {
    && SameStep(s, s')
    && (s.status == StepPending ==> s'.status == StepCancelled)
    && (s.status == StepWaitingApproval ==> s'.status == StepWaitingApproval || s'.status == StepCancelled)
    && (!Open(s.status) ==> s'.status == s.status)
  }

  /** The run stopped at `index` with the given statuses; earlier steps are untouched, later ones settled. */
  ghost predicate StoppedAt(run: ReleaseRun, r: ReleaseRun, index: nat, status: StepStatus, verdict: RunStatus) {
    && index < |run.steps| && |r.steps| == |run.steps| && r.info == run.info
    && r.status == verdict && r.steps[index].status == status && SameStep(run.steps[index], r.steps[index])
    && (forall k :: 0 <= k < index ==> r.steps[k] == run.steps[k])
    && (forall k :: index < k < |run.steps| ==> Settled(run.steps[k], r.steps[k]))
  }

  lemma OnlyAtTransitive(a: ReleaseRun, b: ReleaseRun, c: ReleaseRun, index: nat)
    requires OnlyAt(a, b, index) && OnlyAt(b, c, index)
    ensures OnlyAt(a, c, index)
  {
  }

  lemma StoppedAfter(a: ReleaseRun, b: ReleaseRun, c: ReleaseRun, index: nat, status: StepStatus, verdict: RunStatus)
    requires OnlyAt(a, b, index) && StoppedAt(b, c, index, status, verdict)
    ensures StoppedAt(a, c, index, status, verdict)
  {
  }

  lemma SetStepIsOnlyAt(run: ReleaseRun, index: nat, step: ReleaseStep, status: RunStatus)
    requires index < |run.steps| && SameStep(run.steps[index], step)
    ensures OnlyAt(run, SetStep(run, index, step).(status := status), index)
    ensures OnlyAt(run, SetStep(run, index, step), index)
  {
  }
}
