/** Persisting, stopping, cancelling, pausing and approving within a release workflow. Every method
    reads the script from `pos` on and leaves it at `pos'`, and reads it as the machine does. */
module WorkflowControl {
  import opened Domain
  import opened Release
  import opened RunChanges
  import opened WorkflowLog
  import opened WorkflowMachine

  /** The workflow acts on a run only in this state. */
  ghost predicate Active(run: ReleaseRun) {
    run.status == RunRunning
  }

  /** A persist that succeeds gives the run its next version. */
  method Persist(run: ReleaseRun, script: seq<Choice>, pos: nat) returns (r: ReleaseRun, end: End, pos': nat)
    requires pos <= |script|
    ensures pos == |script| ==> end == Waiting && pos' == pos
    ensures pos < |script| ==> pos' == pos + 1 && end == (if script[pos].ok then Going else Errored)
    ensures r == if end == Going then Saved(run, script[pos].now) else run
    ensures Proceeds(script, pos, 1, end, pos')
  {
    if pos == |script| {
      return run, Waiting, pos;
    }
    if !script[pos].ok {
      return run, Errored, pos + 1;
    }
    return Saved(run, script[pos].now), Going, pos + 1;
  }

  /** Persists a step that changed, the run going on. */
  method SaveStep(run: ReleaseRun, index: nat, step: ReleaseStep, script: seq<Choice>, pos: nat)
      returns (r: ReleaseRun, end: End, pos': nat)
    requires pos <= |script| && index < |run.steps| && SameStep(run.steps[index], step)
    ensures pos == |script| ==> end == Waiting && pos' == pos
    ensures pos < |script| ==> pos' == pos + 1 && end == (if script[pos].ok then Going else Errored)
    ensures end == Going ==> OnlyAt(run, r, index) && r.steps[index] == step && r.status == run.status
    ensures Proceeds(script, pos, 1, end, pos')
  {
    r, end, pos' := Persist(SetStep(run, index, step), script, pos);
  }

  /** Ends the workflow at a step: the verdict is recorded and later pending steps are cancelled. */
  method Stop(ghost ctx: Context, ghost m: Machine, run: ReleaseRun, index: nat, step: ReleaseStep, verdict: RunStatus,
              script: seq<Choice>, pos: nat)
      returns (r: ReleaseRun, end: End, pos': nat)
    requires pos <= |script| && index < |run.steps| && SameStep(run.steps[index], step) && Drives(ctx, m)
    ensures end != Going
    ensures end == Done ==> StoppedAt(run, r, index, step.status, verdict) && r.steps[index] == step
    ensures forall next :: Reads(m, Work(Saving(Done), step), script, pos, end, pos', next, r, index, [])
  {
    r := SetStep(run, index, step).(status := verdict);
    r := CancelDownstream(r, index + 1);
    r, end, pos' := Persist(r, script, pos);
    if end == Going {
      end := Done;
    }
    ReadsQuiet(ctx, m, Work(Saving(Done), step), script, pos, end, pos', Work(Over(Done), step), r, index);
  }

  /** `r` is `run` with everything open from `from` on cancelled. */
  ghost predicate CancelledFrom(run: ReleaseRun, r: ReleaseRun, from: nat) {
    && r.info == run.info && r.status == RunCancelled && |r.steps| == |run.steps|
    && forall k :: 0 <= k < |run.steps| ==>
         r.steps[k] == if k < from then run.steps[k] else CancelOpen(run.steps[k])
  }

  method CancelRun(ghost ctx: Context, ghost m: Machine, run: ReleaseRun, index: nat, script: seq<Choice>, pos: nat)
      returns (r: ReleaseRun, end: End, pos': nat)
    requires pos <= |script| && index < |run.steps| && Drives(ctx, m)
    ensures end != Going && (end == Done ==> CancelledFrom(run, r, index))
    ensures forall next ::
              Reads(m, Work(Saving(Done), CancelOpen(run.steps[index])), script, pos, end, pos', next, r, index, [])
  {
    ghost var step := CancelOpen(run.steps[index]);
    r := CancelFrom(run, index);
    r, end, pos' := Persist(r, script, pos);
    if end == Going {
      end := Done;
    }
    ReadsQuiet(ctx, m, Work(Saving(Done), step), script, pos, end, pos', Work(Over(Done), step), r, index);
  }

  // --- Pausing ---

  function Restored(status: RunStatus): RunStatus {
    if status == NoStatus then RunRunning else status
  }

  method SkipToEnd(script: seq<Choice>, pos: nat) returns (i: nat)
    requires pos <= |script|
    ensures pos <= i <= |script| && (i < |script| ==> EndsPause(script[i].wake))
    ensures forall j :: pos <= j < i ==> !EndsPause(script[j].wake)
  {
    i := pos;
    while i < |script| && !EndsPause(script[i].wake)
      invariant pos <= i <= |script| && forall j :: pos <= j < i ==> !EndsPause(script[j].wake)
    {
      i := i + 1;
    }
  }

  /** Where a resumed workflow takes up again. */
  function Resumed(ctx: Context, waiting: bool, s: ReleaseStep): Work {
    if waiting then Work(Awaiting, s) else Begin(ctx, s)
  }

  /** Ends a pause on the signal at `i`. */
  method EndPause(ghost ctx: Context, ghost m: Machine, ghost waiting: bool, paused: ReleaseRun, index: nat,
                  script: seq<Choice>, i: nat)
      returns (r: ReleaseRun, end: End, pos': nat)
    requires i < |script| && EndsPause(script[i].wake) && index < |paused.steps| && Drives(ctx, m)
    ensures end == Going ==>
              r == paused.(status := Restored(paused.pausedFrom), pausedFrom := NoStatus,
                           stateVersion := paused.stateVersion + 1, updatedAt := r.updatedAt)
    ensures end == Going ==> script[i].wake.GotResume?
    ensures end == Done ==> script[i].wake.GotCancel? && CancelledFrom(paused, r, index)
    ensures Reads(m, Work(Paused(waiting), paused.steps[index]), script, i, end, pos',
                  Resumed(ctx, waiting, paused.steps[index]), r, index, [])
  {
    ghost var s := paused.steps[index];
    ghost var here, next := Work(Paused(waiting), s), Resumed(ctx, waiting, s);
    ghost var via := Next(ctx, here, script[i]);
    ReadsOne(ctx, m, here, script, i, Going, via, paused, index, []);
    if script[i].wake.GotCancel? {
      r, end, pos' := CancelRun(ctx, m, paused, index, script, i + 1);
    } else {
      r, end, pos' := Persist(paused.(status := Restored(paused.pausedFrom), pausedFrom := NoStatus), script, i + 1);
      ReadsQuiet(ctx, m, via, script, i + 1, end, pos', next, r, index);
    }
    ReadsThen(m, here, script, i, i + 1, via, paused, [], end, pos', next, r, index, [], []);
  }

  /** Once the pause is recorded, the signal at `i` is the first that a named actor sent to end it. */
  ghost predicate PauseEndsAt(script: seq<Choice>, pos: nat, i: int) {
    pos < i < |script| && EndsPause(script[i].wake) && forall j :: pos < j < i ==> !EndsPause(script[j].wake)
  }

  /** A pause ends with the first resume or cancel signal of a named actor, in the run as it was, two
      versions later, or in a cancelled run. */
  method WaitForResume(ghost ctx: Context, ghost m: Machine, ghost waiting: bool, run: ReleaseRun, index: nat,
                       script: seq<Choice>, pos: nat)
      returns (r: ReleaseRun, end: End, pos': nat)
    requires pos <= |script| && index < |run.steps| && Drives(ctx, m)
    ensures end == Going ==>
              r == run.(status := Restored(run.status), pausedFrom := NoStatus, stateVersion := run.stateVersion + 2,
                        updatedAt := r.updatedAt)
    ensures end == Done ==> CancelledFrom(run, r, index)
    ensures end == Going ==> exists i :: PauseEndsAt(script, pos, i) && script[i].wake.GotResume? && i < pos'
    ensures end == Done ==> exists i :: PauseEndsAt(script, pos, i) && script[i].wake.GotCancel? && i < pos'
    ensures Reads(m, Work(PauseSave(waiting), run.steps[index]), script, pos, end, pos',
                  Resumed(ctx, waiting, run.steps[index]), r, index, [])
  {
    var paused := run.(pausedFrom := run.status, status := RunPaused);
    ghost var s := run.steps[index];
    ghost var start, here, next := Work(PauseSave(waiting), s), Work(Paused(waiting), s), Resumed(ctx, waiting, s);
    r, end, pos' := Persist(paused, script, pos);
    ReadsQuiet(ctx, m, start, script, pos, end, pos', here, r, index);
    if end != Going {
      return;
    }
    ghost var met := r;
    var i := SkipToEnd(script, pos + 1);
    ReadsIdle(ctx, m, here, script, pos + 1, i, met, index);
    ReadsThen(m, start, script, pos, pos + 1, here, met, [], Going, i, here, met, index, [], []);
    if i == |script| {
      ReadsThen(m, start, script, pos, pos + 1, here, met, [], Waiting, i, next, met, index, [], []);
      return r, Waiting, i;
    }
    assert PauseEndsAt(script, pos, i);
    r, end, pos' := EndPause(ctx, m, waiting, r, index, script, i);
    ReadsThen(m, start, script, pos, i, here, met, [], end, pos', next, r, index, [], []);
  }

  // --- Approval ---

  method ContainsAll(actual: seq<string>, required: seq<string>) returns (r: bool)
    ensures r <==> Includes(actual, required)
  {
    var present: set<string> := {};
    for i := 0 to |actual|
      invariant forall x :: x in present <==> x in actual[..i]
    {
      present := present + {actual[i]};
    }
    for i := 0 to |required|
      invariant forall x :: x in required[..i] ==> x in actual
    {
      if required[i] !in present {
        assert required[i] in required;
        return false;
      }
    }
    return true;
  }

  /** The step's approval was given by someone other than the requester, for the run's plan. */
  ghost predicate Sanctioned(info: RunInfo, s: ReleaseStep) {
    && s.approval.Some? && s.approval.value.status == ApprovalApproved
    && s.approval.value.planHash == info.plan.hash
    && s.approval.value.decidedBy != "" && s.approval.value.decidedBy != info.requestedBy
  }

  /** The policy allowed the step, or required an approval that was given. */
  ghost predicate Cleared(info: RunInfo, s: ReleaseStep) {
    && s.policy.Some? && s.policy.value.decision != Deny
    && (s.policy.value.decision == RequireApproval ==> Sanctioned(info, s))
  }

  method IsDecision(info: RunInfo, approval: Approval, signal: ApprovalSignal) returns (r: bool)
    ensures r <==> Decides(info, approval, signal)
  {
    var action := Action(signal);
    if signal.approvalID != approval.id || signal.actor == "" {
      return false;
    }
    if action == "approve" && signal.actor == info.requestedBy {
      return false;
    }
    if action == "approve" || action == "revoke" {
      r := ContainsAll(signal.roles, approval.requiredRoles);
      return;
    }
    return true;
  }

  /** The run waits for an approval of the step at `index`. */
  ghost predicate Awaits(run: ReleaseRun, r: ReleaseRun, index: nat, approval: Approval) {
    && OnlyAt(run, r, index) && r.status == RunWaitingApproval
    && r.steps[index] == run.steps[index].(approval := Some(approval), status := StepWaitingApproval)
  }

  ghost predicate Granted(run: ReleaseRun, r: ReleaseRun, index: nat, decision: PolicyDecision,
                          signal: ApprovalSignal) {
    && OnlyAt(run, r, index) && r.status == RunRunning
    && Approves(run.info, run.steps[index].spec.service, decision.requiredRoles, signal)
    && r.steps[index].status == StepPending && r.steps[index].policy == run.steps[index].policy
    && Sanctioned(run.info, r.steps[index])
  }

  lemma CancelledWaiting(run: ReleaseRun, waiting: ReleaseRun, r: ReleaseRun, index: nat, approval: Approval)
    requires index < |run.steps| && Awaits(run, waiting, index, approval) && CancelledFrom(waiting, r, index)
    ensures StoppedAt(run, r, index, StepCancelled, RunCancelled)
  {
  }

  /** Why a run blocked on an approval: it expired, or somebody entitled to it decided otherwise. */
  ghost predicate Turned(info: RunInfo, request: Approval, s: ReleaseStep, cause: Wake) {
    && s.approval.Some?
    && if cause.GotApproval? then
         && Decides(info, request, cause.signal) && Action(cause.signal) != "approve"
         && s.approval.value == request.(decidedBy := cause.signal.actor, status := s.approval.value.status)
         && s.approval.value.status == (if Action(cause.signal) == "revoke" then ApprovalRevoked else ApprovalDenied)
       else cause == Expired && s.approval.value == request.(status := ApprovalExpired)
  }

  /** The reservation of a step that was granted, and anything for one that was not. */
  ghost predicate ReadsGrant(m: Machine, w: Work, script: seq<Choice>, pos: nat, end: End, pos': nat, r: ReleaseRun,
                             index: nat, word: seq<Effect>) {
    if end == Going then
      index < |r.steps| && Reads(m, w, script, pos, end, pos', Work(Reserving, r.steps[index]), r, index, word)
    else Reads(m, w, script, pos, end, pos', w, r, index, word)
  }

  /** Acts on one decision: the step is granted or the run is blocked. */
  method Decide(ghost ctx: Context, ghost m: Machine, ghost run: ReleaseRun, waiting: ReleaseRun, index: nat,
                approval: Approval, ghost decision: PolicyDecision, signal: ApprovalSignal, script: seq<Choice>,
                pos: nat)
      returns (r: ReleaseRun, end: End, pos': nat)
    requires pos <= |script| && index < |run.steps| && Awaits(run, waiting, index, approval)
    requires approval == Request(run.info, run.steps[index].spec.service, decision)
    requires Decides(run.info, approval, signal) && ctx.info == run.info && Drives(ctx, m)
    ensures end == Going ==> Granted(run, r, index, decision, signal) && Action(signal) == "approve"
    ensures end == Done ==>
              && StoppedAt(run, r, index, StepBlocked, RunBlocked)
              && Turned(run.info, approval, r.steps[index], GotApproval(signal))
    ensures ReadsGrant(m, Awoken(ctx, waiting.steps[index], GotApproval(signal)), script, pos, end, pos', r, index, [])
  {
    var step := DecidedStep(waiting.steps[index], approval, signal);
    if Action(signal) != "approve" {
      r, end, pos' := Stop(ctx, m, waiting, index, step, RunBlocked, script, pos);
      if end == Done {
        StoppedAfter(run, waiting, r, index, StepBlocked, RunBlocked);
      }
      return;
    }
    r, end, pos' := SaveStep(waiting.(status := RunRunning), index, step, script, pos);
    ReadsQuiet(ctx, m, Work(GrantSave, step), script, pos, end, pos', Work(Reserving, step), r, index);
  }

  method SkipIgnored(info: RunInfo, approval: Approval, script: seq<Choice>, pos: nat) returns (i: nat)
    requires pos <= |script|
    ensures pos <= i <= |script| && (i < |script| ==> !Ignored(info, approval, script[i].wake))
    ensures forall j :: pos <= j < i ==> Ignored(info, approval, script[j].wake)
  {
    i := pos;
    while i < |script|
      invariant pos <= i <= |script| && forall j :: pos <= j < i ==> Ignored(info, approval, script[j].wake)
    {
      match script[i].wake {
        case GotApproval(signal) =>
          var decides := IsDecision(info, approval, signal);
          if decides {
            return;
          }
        case GotPause(actor) =>
          if actor != "" {
            return;
          }
        case GotCancel(actor) =>
          if actor != "" {
            return;
          }
        case GotResume(_) =>
        case Expired =>
          return;
      }
      i := i + 1;
    }
  }

  /** The waiting ended as `cause` says. */
  ghost predicate Answered(run: ReleaseRun, r: ReleaseRun, index: nat, decision: PolicyDecision, end: End, cause: Wake)
    requires index < |run.steps|
  {
    && (end == Going ==> Approving(cause) && Granted(run, r, index, decision, cause.signal))
    && (end == Done ==>
          || (&& StoppedAt(run, r, index, StepBlocked, RunBlocked)
              && Turned(run.info, Request(run.info, run.steps[index].spec.service, decision), r.steps[index], cause))
          || (StoppedAt(run, r, index, StepCancelled, RunCancelled) && (cause.GotCancel? || cause.GotPause?)))
  }

  /** Acts on a wake-up other than a pause. */
  method Answer(ghost ctx: Context, ghost m: Machine, ghost run: ReleaseRun, waiting: ReleaseRun, index: nat,
                approval: Approval, ghost decision: PolicyDecision, wake: Wake, script: seq<Choice>, pos: nat)
      returns (r: ReleaseRun, end: End, pos': nat)
    requires pos <= |script| && index < |run.steps| && Awaits(run, waiting, index, approval)
    requires approval == Request(run.info, run.steps[index].spec.service, decision)
    requires !Ignored(run.info, approval, wake) && !wake.GotPause? && ctx.info == run.info && Drives(ctx, m)
    ensures Answered(run, r, index, decision, end, wake)
    ensures ReadsGrant(m, Awoken(ctx, waiting.steps[index], wake), script, pos, end, pos', r, index, [])
  {
    if wake.GotCancel? {
      r, end, pos' := CancelRun(ctx, m, waiting, index, script, pos);
      if end == Done {
        CancelledWaiting(run, waiting, r, index, approval);
      }
    } else if wake.Expired? {
      var expired := ExpiredStep(waiting.steps[index], approval);
      r, end, pos' := Stop(ctx, m, waiting, index, expired, RunBlocked, script, pos);
      if end == Done {
        StoppedAfter(run, waiting, r, index, StepBlocked, RunBlocked);
      }
    } else {
      r, end, pos' := Decide(ctx, m, run, waiting, index, approval, decision, wake.signal, script, pos);
    }
  }

  /** What a wake-up leaves on record: an approval, if it is one. */
  function Sign(wake: Wake): seq<Effect> {
    if Approving(wake) then [Approved(wake.signal)] else []
  }

  lemma WakeRead(ctx: Context, m: Machine, here: Work, script: seq<Choice>, pos: nat, i: nat, i': nat,
                 waiting: ReleaseRun, index: nat)
    requires pos <= i < i' == i + 1 <= |script| && index < |waiting.steps|
             && here == Work(Awaiting, waiting.steps[index])
    requires Drives(ctx, m) && Reads(m, here, script, pos, Going, i, here, waiting, index, [])
    requires waiting.steps[index].approval.Some?
    requires !Ignored(ctx.info, waiting.steps[index].approval.value, script[i].wake)
    ensures Reads(m, here, script, pos, Going, i', Awoken(ctx, waiting.steps[index], script[i].wake), waiting, index,
                  Sign(script[i].wake))
  {
    var word, via := Sign(script[i].wake), Awoken(ctx, waiting.steps[index], script[i].wake);
    ReadsOne(ctx, m, here, script, i, Going, via, waiting, index, word);
    ReadsThen(m, here, script, pos, i, here, waiting, [], Going, i', via, waiting, index, word, word);
  }

  /** One round of waiting, up to the next wake-up that is not ignored. After a pause the waiting goes on. */
  method Round(ghost ctx: Context, ghost m: Machine, ghost run: ReleaseRun, waiting: ReleaseRun, index: nat,
               approval: Approval, ghost decision: PolicyDecision, script: seq<Choice>, pos: nat)
      returns (r: ReleaseRun, end: End, pos': nat, cause: nat, word: seq<Effect>, again: bool)
    requires pos <= |script| && index < |run.steps| && Awaits(run, waiting, index, approval)
    requires approval == Request(run.info, run.steps[index].spec.service, decision)
    requires ctx.info == run.info && Drives(ctx, m)
    ensures again ==>
              && end == Going && pos < pos' && Awaits(run, r, index, approval)
              && Reads(m, Work(Awaiting, waiting.steps[index]), script, pos, Going, pos',
                       Work(Awaiting, waiting.steps[index]), r, index, [])
    ensures !again ==> ReadsGrant(m, Work(Awaiting, waiting.steps[index]), script, pos, end, pos', r, index, word)
    ensures !again && (end == Going || end == Done) ==>
              && pos <= cause < pos' <= |script| && Answered(run, r, index, decision, end, script[cause].wake)
              && word == Sign(script[cause].wake)
  {
    ghost var here := Work(Awaiting, waiting.steps[index]);
    var i := SkipIgnored(waiting.info, approval, script, pos);
    ReadsNone(m, here, script, pos, waiting, index);
    SkippedSignals(ctx, m, here, here, script, pos, pos, i, waiting, index);
    if i == |script| {
      return waiting, Waiting, i, 0, [], false;
    }
    var wake := script[i].wake;
    cause, word := i, Sign(wake);
    ghost var via := Awoken(ctx, waiting.steps[index], wake);
    WakeRead(ctx, m, here, script, pos, i, i + 1, waiting, index);
    if !wake.GotPause? {
      again := false;
      r, end, pos' := Answer(ctx, m, run, waiting, index, approval, decision, wake, script, i + 1);
      GrantThen(m, here, script, pos, i + 1, via, waiting, word, end, pos', r, index);
    } else {
      r, end, pos' := WaitForResume(ctx, m, true, waiting, index, script, i + 1);
      ReadsThen(m, here, script, pos, i + 1, via, waiting, [], end, pos', here, r, index, [], []);
      again := end == Going;
      if end == Done {
        CancelledWaiting(run, waiting, r, index, approval);
      }
    }
  }

  /** Waits until the step is approved, refused or expired, or the run is cancelled. Every signal is taken from
      the script: the first that is not ignored settles it, unless it is a pause, after which the waiting goes
      on. The choice at `cause` is the one that settled it. */
  method AwaitApproval(ghost ctx: Context, ghost m: Machine, run: ReleaseRun, index: nat, decision: PolicyDecision,
                       script: seq<Choice>, pos: nat)
      returns (r: ReleaseRun, end: End, pos': nat, cause: nat, word: seq<Effect>)
    requires pos <= |script| && index < |run.steps| && ctx.info == run.info && Drives(ctx, m)
    ensures end == Going || end == Done ==>
              && pos < cause < pos' <= |script| && Answered(run, r, index, decision, end, script[cause].wake)
              && word == Sign(script[cause].wake)
    ensures ReadsGrant(m, Work(RequestSave, RequestedStep(run.info, run.steps[index], decision)), script, pos, end,
                       pos', r, index, word)
  {
    cause, word := 0, [];
    var approval := Request(run.info, run.steps[index].spec.service, decision);
    var step := RequestedStep(run.info, run.steps[index], decision);
    ghost var start, here := Work(RequestSave, step), Work(Awaiting, step);
    r, end, pos' := SaveStep(run.(status := RunWaitingApproval), index, step, script, pos);
    ReadsQuiet(ctx, m, start, script, pos, end, pos', here, r, index);
    var again := end == Going;
    while again
      invariant again ==> end == Going && pos < pos' && Awaits(run, r, index, approval) && r.steps[index] == step
      invariant again ==> Reads(m, start, script, pos, Going, pos', here, r, index, [])
      invariant !again ==> ReadsGrant(m, start, script, pos, end, pos', r, index, word)
      invariant !again && (end == Going || end == Done) ==>
                  && pos < cause < pos' <= |script| && Answered(run, r, index, decision, end, script[cause].wake)
                  && word == Sign(script[cause].wake)
      decreases again, |script| - pos'
    {
      ghost var met, mid := r, pos';
      r, end, pos', cause, word, again := Round(ctx, m, run, r, index, approval, decision, script, pos');
      if again {
        ReadsThen(m, start, script, pos, mid, here, met, [], end, pos', here, r, index, [], []);
      } else {
        GrantThenWord(m, start, script, pos, mid, here, met, end, pos', r, index, word);
      }
    }
  }

  /** Signals that are ignored leave the run waiting. */
  lemma SkippedSignals(ctx: Context, m: Machine, start: Work, here: Work, script: seq<Choice>, pos: nat, mid: nat,
                       i: nat, met: ReleaseRun, index: nat)
    requires Drives(ctx, m) && mid <= i <= |script| && here.at == Awaiting && here.step.approval.Some?
    requires forall j :: mid <= j < i ==> Ignored(ctx.info, here.step.approval.value, script[j].wake)
    requires Reads(m, start, script, pos, Going, mid, here, met, index, [])
    ensures Reads(m, start, script, pos, Going, i, here, met, index, [])
    ensures i == |script| ==> forall next :: Reads(m, start, script, pos, Waiting, i, next, met, index, [])
  {
    ReadsIdle(ctx, m, here, script, mid, i, met, index);
    ReadsThen(m, start, script, pos, mid, here, met, [], Going, i, here, met, index, [], []);
    if i == |script| {
      ReadsThen(m, start, script, pos, mid, here, met, [], Waiting, i, here, met, index, [], []);
    }
  }

  lemma GrantThen(m: Machine, w: Work, script: seq<Choice>, pos: nat, mid: nat, via: Work, met: ReleaseRun,
                  word: seq<Effect>, end: End, pos': nat, r: ReleaseRun, index: nat)
    requires Reads(m, w, script, pos, Going, mid, via, met, index, word)
    requires ReadsGrant(m, via, script, mid, end, pos', r, index, [])
    ensures ReadsGrant(m, w, script, pos, end, pos', r, index, word)
  {
    if end == Going {
      ReadsThen(m, w, script, pos, mid, via, met, word, end, pos', Work(Reserving, r.steps[index]), r, index, [], word);
    } else {
      ReadsThen(m, w, script, pos, mid, via, met, word, end, pos', via, r, index, [], word);
    }
  }

  lemma GrantThenWord(m: Machine, w: Work, script: seq<Choice>, pos: nat, mid: nat, via: Work, met: ReleaseRun,
                      end: End, pos': nat, r: ReleaseRun, index: nat, word: seq<Effect>)
    requires Reads(m, w, script, pos, Going, mid, via, met, index, [])
    requires ReadsGrant(m, via, script, mid, end, pos', r, index, word)
    ensures ReadsGrant(m, w, script, pos, end, pos', r, index, word)
  {
    assert [] + word == word;
    if end == Going {
      ReadsThen(m, w, script, pos, mid, via, met, [], end, pos', Work(Reserving, r.steps[index]), r, index, word, word);
    } else {
      ReadsThen(m, w, script, pos, mid, via, met, [], end, pos', via, r, index, word, word);
    }
  }
}
