/** The control of the workflow over one step as a machine that reads one choice at a time.
    A stage says which interaction is under way; `Next` is what its answer leads to, and
    `Emit` the effect that is recorded for it. Every choice read is accounted for. */
module WorkflowMachine {
  import opened Domain
  import opened Release
  import opened RunChanges
  import opened WorkflowLog
  import opened Budget

  // --- Stages ---

  /** Stages that end in `Save` wait for a persist. `waiting` tells a pause during an approval from one
      between two steps. */
  datatype Stage =
    | Polling | PauseSave(waiting: bool) | Paused(waiting: bool) | ResumeSave(waiting: bool)
    | Asking | PolicySave | RequestSave | Awaiting | GrantSave
    | Reserving | ExecutingSave | Deploying
    | VerifyingSave | Observing | Verifying
    | RollingSave(why: string) | Undoing(why: string) | ObservingUndo(why: string) | VerifyingUndo(why: string)
    | Releasing(failed: bool) | Saving(result: End)
    | Over(end: End)

  /** Where the workflow is with a step, and the record of the step. */
  datatype Work = Work(at: Stage, step: ReleaseStep)

  /** What the work on a step depends on besides the answers: the run, the first dependency that has not
      succeeded, if any, and the reservation the step asks for. */
  datatype Context = Context(info: RunInfo, unmet: string, reservation: Step)

  // --- Approval ---

  predicate EndsPause(wake: Wake) {
    (wake.GotResume? || wake.GotCancel?) && wake.actor != ""
  }

  function Request(info: RunInfo, service: string, decision: PolicyDecision): Approval {
    Approval(ApprovalID(info.id, service), decision.requiredRoles, ApprovalPending, info.plan.hash, "")
  }

  predicate Decides(info: RunInfo, approval: Approval, signal: ApprovalSignal) {
    && signal.approvalID == approval.id && signal.actor != ""
    && !(Action(signal) == "approve" && signal.actor == info.requestedBy)
    && ((Action(signal) == "approve" || Action(signal) == "revoke") ==>
          Includes(signal.roles, approval.requiredRoles))
  }

  /** Wake-ups that leave the run waiting: signals without an actor, and approval signals that decide nothing. */
  predicate Ignored(info: RunInfo, approval: Approval, wake: Wake) {
    match wake
    case GotApproval(signal) => !Decides(info, approval, signal)
    case GotPause(actor) => actor == ""
    case GotCancel(actor) => actor == ""
    case GotResume(_) => true
    case Expired => false
  }

  predicate Approving(wake: Wake) {
    wake.GotApproval? && Action(wake.signal) == "approve"
  }

  /** What a decision makes of the waiting step. */
  function DecidedStep(s: ReleaseStep, approval: Approval, signal: ApprovalSignal): ReleaseStep {
    var decided := approval.(decidedBy := signal.actor);
    if Action(signal) == "approve" then
      s.(approval := Some(decided.(status := ApprovalApproved)), status := StepPending)
    else if Action(signal) == "revoke" then
      s.(approval := Some(decided.(status := ApprovalRevoked)), status := StepBlocked)
    else
      s.(approval := Some(decided.(status := ApprovalDenied)), status := StepBlocked)
  }

  // --- Records ---

  function RequestedStep(info: RunInfo, s: ReleaseStep, decision: PolicyDecision): ReleaseStep {
    s.(approval := Some(Request(info, s.spec.service, decision)), status := StepWaitingApproval)
  }

  function ExpiredStep(s: ReleaseStep, approval: Approval): ReleaseStep {
    s.(approval := Some(approval.(status := ApprovalExpired)), status := StepBlocked)
  }

  function BlockedStep(s: ReleaseStep, failure: string): ReleaseStep {
    s.(status := StepBlocked, failure := failure)
  }

  function EscalatedStep(s: ReleaseStep, failure: string): ReleaseStep {
    s.(status := StepEscalated, failure := failure)
  }

  function UnknownStep(s: ReleaseStep): ReleaseStep {
    s.(status := StepUnknown, failure := "deployment state unknown; reconciliation required")
  }

  /** What the check of a rollback makes of the step. */
  function Judged(s: ReleaseStep, v: VerificationStatus, why: string): ReleaseStep {
    if v == VerificationPass then
      s.(rollbackVerification := Some(v), status := StepRolledBack, failure := why)
    else
      EscalatedStep(s.(rollbackVerification := Some(v)), "rollback verification did not pass")
  }

  // --- Transitions ---

  /** The turn of a step, once nobody cancels or pauses it. */
  function Begin(ctx: Context, s: ReleaseStep): Work {
    if s.status == StepSucceeded then Work(Over(Going), s)
    else if ctx.unmet != "" then
      Work(Saving(Done), BlockedStep(s, "selected dependency did not succeed: " + ctx.unmet))
    else Work(Asking, s)
  }

  function Awoken(ctx: Context, s: ReleaseStep, wake: Wake): Work {
    if s.approval.None? || Ignored(ctx.info, s.approval.value, wake) then Work(Awaiting, s)
    else match wake
      case GotPause(_) => Work(PauseSave(true), s)
      case GotCancel(_) => Work(Saving(Done), CancelOpen(s))
      case GotApproval(signal) =>
        Work(if Action(signal) == "approve" then GrantSave else Saving(Done), DecidedStep(s, s.approval.value, signal))
      case _ => Work(Saving(Done), ExpiredStep(s, s.approval.value))
  }

  function Decided(ctx: Context, s: ReleaseStep): Work {
    if s.policy.None? then Work(Over(Errored), s)
    else match s.policy.value.decision
      case Deny => Work(Saving(Done), BlockedStep(s, s.policy.value.reasonDetail))
      case RequireApproval => Work(RequestSave, RequestedStep(ctx.info, s, s.policy.value))
      case _ => Work(Reserving, s)
  }

  /** The way of a deployed step: to its verification, or straight to its end. */
  function Deployment(s: ReleaseStep): Work {
    if s.spec.verificationRequired then Work(VerifyingSave, s.(status := StepVerifying))
    else Work(Releasing(false), s.(status := StepSucceeded))
  }

  function AfterDeployment(s: ReleaseStep, c: Choice): Work {
    if c.ok then Deployment(s.(execution := Some(c.externalID))) else Work(Releasing(true), UnknownStep(s))
  }

  function AfterVerification(s: ReleaseStep, c: Choice): Work {
    if !c.ok then Work(Releasing(true), BlockedStep(s, "verification unavailable: " + c.detail))
    else
      var checked := s.(verification := Some(c.verification));
      if c.verification == VerificationPass then Work(Releasing(false), checked.(status := StepSucceeded))
      else if s.spec.rollbackMode != "automatic" then
        Work(Releasing(true), EscalatedStep(checked, "automatic rollback is not authorized"))
      else Work(RollingSave(c.detail), checked.(status := StepRollingBack))
  }

  /** Interactions that only have to come back without an error. */
  function IfOk(c: Choice, w: Work): Work {
    if c.ok then w else Work(Over(Errored), w.step)
  }

  function Next(ctx: Context, w: Work, c: Choice): Work {
    var s := w.step;
    match w.at
    case Polling =>
      if c.cancelled then Work(Saving(Done), CancelOpen(s))
      else if c.paused then Work(PauseSave(false), s)
      else Begin(ctx, s)
    case PauseSave(waiting) => IfOk(c, Work(Paused(waiting), s))
    case Paused(waiting) =>
      if !EndsPause(c.wake) then w
      else if c.wake.GotResume? then Work(ResumeSave(waiting), s)
      else Work(Saving(Done), CancelOpen(s))
    case ResumeSave(waiting) => IfOk(c, if waiting then Work(Awaiting, s) else Begin(ctx, s))
    case Asking => IfOk(c, Work(PolicySave, s.(policy := Some(c.decision))))
    case PolicySave => IfOk(c, Decided(ctx, s))
    case RequestSave => IfOk(c, Work(Awaiting, s))
    case Awaiting => Awoken(ctx, s, c.wake)
    case GrantSave => IfOk(c, Work(Reserving, s))
    case Reserving =>
      IfOk(c, if c.allowed then Work(ExecutingSave, s.(status := StepExecuting))
              else Work(Saving(Done), BlockedStep(s, "dispatch backpressured: " + c.detail)))
    case ExecutingSave => IfOk(c, Work(Deploying, s))
    case Deploying => AfterDeployment(s, c)
    case VerifyingSave => IfOk(c, Work(Observing, s))
    case Observing => IfOk(c, Work(Verifying, s))
    case Verifying => AfterVerification(s, c)
    case RollingSave(why) => IfOk(c, Work(Undoing(why), s))
    case Undoing(why) =>
      if c.ok then Work(ObservingUndo(why), s.(rollbackExecution := Some(c.externalID)))
      else Work(Releasing(true), EscalatedStep(s, "rollback failed or unknown: " + c.detail))
    case ObservingUndo(why) => IfOk(c, Work(VerifyingUndo(why), s))
    case VerifyingUndo(why) =>
      Work(Releasing(true), if c.ok then Judged(s, c.verification, why)
                            else EscalatedStep(s, "rollback verification unavailable: " + c.detail))
    case Releasing(failed) => IfOk(c, Work(Saving(if failed then Done else Going), s))
    case Saving(result) => IfOk(c, Work(Over(result), s))
    case Over(_) => w
  }

  // --- Effects ---

  function ReplyOf(c: Choice): Reply {
    if !c.ok then NoReply else if c.allowed then Allowed else Refused
  }

  function ResultOf(c: Choice): Option<VerificationStatus> {
    if c.ok then Some(c.verification) else None
  }

  /** The effect recorded for an answer, read off the answer itself. */
  function Emit(ctx: Context, w: Work, c: Choice): (e: seq<Effect>)
    ensures |e| <= 1
  {
    match w.at
    case Asking => if c.ok then [Evaluated(c.decision)] else []
    case Awaiting =>
      if w.step.approval.Some? && !Ignored(ctx.info, w.step.approval.value, c.wake) && Approving(c.wake)
      then [Approved(c.wake.signal)] else []
    case Reserving => [Acquired(ctx.reservation, ReplyOf(c))]
    case Deploying => [Deployed(c.ok)]
    case Verifying => [Verified(ResultOf(c))]
    case Undoing(_) => [RolledBack(c.ok)]
    case VerifyingUndo(_) => [Verified(ResultOf(c))]
    case Releasing(failed) => [Completed(failed, c.ok)]
    case _ => []
  }

  // --- Reading a script ---

  /** The transitions and effects as values, so that proofs about reading need not look inside them. */
  datatype Machine = Machine(next: (Work, Choice) -> Work, emit: (Work, Choice) -> seq<Effect>)

  function MachineOf(ctx: Context): Machine {
    Machine((w, c) => Next(ctx, w, c), (w, c) => Emit(ctx, w, c))
  }

  /** Names an answer that is met at some point of the work; proofs mention it where they look at a transition. */
  ghost predicate Meets(w: Work, c: Choice) { true }

  /** `m` is the machine of `ctx`. */
  ghost predicate Drives(ctx: Context, m: Machine) {
    forall w, c {:trigger Meets(w, c)} :: Meets(w, c) ==>
      m.next(w, c) == Next(ctx, w, c) && m.emit(w, c) == Emit(ctx, w, c)
  }

  lemma MachineDrives(ctx: Context)
    ensures Drives(ctx, MachineOf(ctx))
  {
  }

  /** The work after the choices from `lo` up to `hi` were read. */
  function After(m: Machine, w: Work, script: seq<Choice>, lo: nat, hi: nat): Work
    requires lo <= hi <= |script|
    decreases hi
  {
    if lo == hi then w else m.next(After(m, w, script, lo, hi - 1), script[hi - 1])
  }

  /** The effects recorded for the choices from `lo` up to `hi`. */
  function Word(m: Machine, w: Work, script: seq<Choice>, lo: nat, hi: nat): seq<Effect>
    requires lo <= hi <= |script|
    decreases hi
  {
    if lo == hi then []
    else Word(m, w, script, lo, hi - 1) + m.emit(After(m, w, script, lo, hi - 1), script[hi - 1])
  }

  lemma {:induction false} Composed(m: Machine, w: Work, script: seq<Choice>, a: nat, b: nat, c: nat)
    requires a <= b <= c <= |script|
    ensures After(m, w, script, a, c) == After(m, After(m, w, script, a, b), script, b, c)
    ensures Word(m, w, script, a, c) == Word(m, w, script, a, b) + Word(m, After(m, w, script, a, b), script, b, c)
    decreases c
  {
    if b < c {
      Composed(m, w, script, a, b, c - 1);
    }
  }

  // --- What a method has read ---

  /** None of the choices was read after the work was over. */
  ghost predicate Live(m: Machine, w: Work, script: seq<Choice>, lo: nat, hi: nat)
    requires lo <= hi <= |script|
  {
    forall j :: lo <= j < hi ==> !After(m, w, script, lo, j).at.Over?
  }

  lemma LiveThen(m: Machine, w: Work, script: seq<Choice>, a: nat, b: nat, c: nat)
    requires a <= b <= c <= |script| && Live(m, w, script, a, b)
    requires Live(m, After(m, w, script, a, b), script, b, c)
    ensures Live(m, w, script, a, c)
  {
    forall j | a <= j < c ensures !After(m, w, script, a, j).at.Over? {
      if b <= j {
        Composed(m, w, script, a, b, j);
      }
    }
  }

  /** Starting at `w`, the choices from `pos` up to `pos'` were read as the machine reads them and `word`
      records their effects. With `Going` the machine has come to `next`, and with `Done` to its end, its
      record being the step at `index` of `r`; an error comes from a choice that failed, and a workflow that
      waits has read everything. */
  ghost predicate Reads(m: Machine, w: Work, script: seq<Choice>, pos: nat, end: End, pos': nat, next: Work,
                        r: ReleaseRun, index: nat, word: seq<Effect>) {
    && pos <= pos' <= |script| && Live(m, w, script, pos, pos')
    && word == Word(m, w, script, pos, pos')
    && ReachedBy(After(m, w, script, pos, pos'), end, next, r, index)
    && (end == Errored ==> exists i :: pos <= i < pos' && !script[i].ok)
    && (end == Waiting ==> pos' == |script|)
  }

  ghost predicate ReachedBy(now: Work, end: End, next: Work, r: ReleaseRun, index: nat) {
    match end
    case Going => now == next
    case Done => index < |r.steps| && now == Work(Over(Done), r.steps[index])
    case Errored => now.at == Over(Errored)
    case Waiting => !now.at.Over?
  }

  /** Nothing was read. */
  lemma ReadsNone(m: Machine, w: Work, script: seq<Choice>, pos: nat, r: ReleaseRun, index: nat)
    requires pos <= |script|
    ensures Reads(m, w, script, pos, Going, pos, w, r, index, [])
    ensures pos == |script| && !w.at.Over? ==> forall next :: Reads(m, w, script, pos, Waiting, pos, next, r, index, [])
  {
  }

  /** One choice was read. */
  lemma ReadsOne(ctx: Context, m: Machine, w: Work, script: seq<Choice>, pos: nat, end: End, next: Work, r: ReleaseRun,
                 index: nat, word: seq<Effect>)
    requires Drives(ctx, m) && pos < |script| && word == Emit(ctx, w, script[pos]) && !w.at.Over?
    requires ReachedBy(Next(ctx, w, script[pos]), end, next, r, index)
    requires (end == Errored ==> !script[pos].ok) && (end == Waiting ==> pos + 1 == |script|)
    ensures Reads(m, w, script, pos, end, pos + 1, next, r, index, word)
  {
    assert Meets(w, script[pos]);
    assert After(m, w, script, pos, pos) == w;
    assert Word(m, w, script, pos, pos) == [];
  }

  /** A persist, or another interaction without an effect of its own. */
  lemma ReadsQuiet(ctx: Context, m: Machine, w: Work, script: seq<Choice>, pos: nat, end: End, pos': nat, next: Work,
                   r: ReleaseRun, index: nat)
    requires Drives(ctx, m) && !w.at.Over? && pos <= |script|
    requires pos == |script| ==> end == Waiting && pos' == pos
    requires pos < |script| ==> pos' == pos + 1 && end != Waiting && Emit(ctx, w, script[pos]) == []
    requires pos < |script| ==> ReachedBy(Next(ctx, w, script[pos]), end, next, r, index)
    requires pos < |script| && end == Errored ==> !script[pos].ok
    ensures Reads(m, w, script, pos, end, pos', next, r, index, [])
  {
    if pos == |script| {
      ReadsNone(m, w, script, pos, r, index);
    } else {
      ReadsOne(ctx, m, w, script, pos, end, next, r, index, []);
    }
  }

  ghost predicate Idle(ctx: Context, w: Work, c: Choice) {
    Next(ctx, w, c) == w && Emit(ctx, w, c) == []
  }

  lemma {:induction false} IdleStays(ctx: Context, m: Machine, w: Work, script: seq<Choice>, lo: nat, hi: nat)
    requires Drives(ctx, m) && lo <= hi <= |script| && forall j :: lo <= j < hi ==> Idle(ctx, w, script[j])
    ensures After(m, w, script, lo, hi) == w && Word(m, w, script, lo, hi) == []
    decreases hi
  {
    if lo != hi {
      assert Meets(w, script[hi - 1]);
      IdleStays(ctx, m, w, script, lo, hi - 1);
    }
  }

  /** Choices that leave the machine where it is. */
  lemma ReadsIdle(ctx: Context, m: Machine, w: Work, script: seq<Choice>, pos: nat, pos': nat, r: ReleaseRun,
                  index: nat)
    requires Drives(ctx, m) && pos <= pos' <= |script| && !w.at.Over?
    requires forall j :: pos <= j < pos' ==> Idle(ctx, w, script[j])
    ensures Reads(m, w, script, pos, Going, pos', w, r, index, [])
    ensures pos' == |script| ==> forall next :: Reads(m, w, script, pos, Waiting, pos', next, r, index, [])
  {
    forall j | pos <= j <= pos' ensures After(m, w, script, pos, j) == w {
      IdleStays(ctx, m, w, script, pos, j);
    }
    IdleStays(ctx, m, w, script, pos, pos');
  }

  lemma ReadsThen(m: Machine, w: Work, script: seq<Choice>, pos: nat, mid: nat, via: Work, met: ReleaseRun,
                  word: seq<Effect>, end: End, pos': nat, next: Work, r: ReleaseRun, index: nat, more: seq<Effect>,
                  total: seq<Effect>)
    requires Reads(m, w, script, pos, Going, mid, via, met, index, word)
    requires Reads(m, via, script, mid, end, pos', next, r, index, more) && total == word + more
    ensures Reads(m, w, script, pos, end, pos', next, r, index, total)
  {
    Composed(m, w, script, pos, mid, pos');
    LiveThen(m, w, script, pos, mid, pos');
  }
}
