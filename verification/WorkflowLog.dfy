/** What a release workflow meets and what it does. The outside world is a script of
    choices, one for each interaction in turn; the workflow is waiting when the
    script runs out. What the workflow does to a step is recorded as a word of effects. */
module WorkflowLog {
  import opened Domain
  import opened Release
  import opened Budget

  // --- The outside world ---

  datatype ApprovalSignal = ApprovalSignal(approvalID: string, actor: string, roles: seq<string>, approve: bool,
                                           action: string)

  datatype Wake = GotApproval(signal: ApprovalSignal) | GotPause(actor: string) | GotResume(actor: string)
                | GotCancel(actor: string) | Expired

  /** One answer. Each interaction reads the fields it needs: every activity and sleep reads
      `ok`, whether it came back without an error after its retries; the rest belong to
      one kind of interaction each. */
  datatype Choice = Choice(ok: bool, now: int, cancelled: bool, paused: bool, wake: Wake, decision: PolicyDecision,
                           allowed: bool, verification: VerificationStatus, externalID: string, detail: string)

  datatype End = Going | Waiting | Done | Errored

  /** A world in which nothing goes wrong and nobody interferes. */
  predicate Friendly(c: Choice) {
    c.ok && !c.cancelled && !c.paused && c.decision.decision == Allow && c.allowed && c.verification == VerificationPass
  }

  ghost predicate Smooth(script: seq<Choice>) {
    forall i :: 0 <= i < |script| ==> Friendly(script[i])
  }

  /** In a friendly world `n` choices from position `pos` on are enough to go on. */
  ghost predicate Proceeds(script: seq<Choice>, pos: nat, n: nat, end: End, pos': nat) {
    Smooth(script) && |script| >= pos + n ==> end == Going && pos' <= pos + n
  }

  lemma ProceedsThen(script: seq<Choice>, pos: nat, n: nat, mid: nat, m: nat, end: End, pos': nat)
    requires Proceeds(script, pos, n, Going, mid) && Proceeds(script, mid, m, end, pos')
    ensures Proceeds(script, pos, n + m, end, pos')
  {
  }

  // --- Effects ---

  datatype Reply = Allowed | Refused | NoReply

  datatype Effect = Evaluated(policy: PolicyDecision)
                  | Approved(signal: ApprovalSignal)
                  | Acquired(step: Step, reply: Reply)
                  | Deployed(ok: bool)
                  | Verified(result: Option<VerificationStatus>)
                  | RolledBack(ok: bool)
                  | Completed(failed: bool, ok: bool)

  /** The effects on one step: `clear` up to its clearance, `tail` from its reservation on. */
  datatype Trace = Trace(clear: seq<Effect>, tail: seq<Effect>)

  const UNTOUCHED := Trace([], [])

  // --- Approval ---

  function Action(signal: ApprovalSignal): string {
    if signal.action != "" then signal.action else if signal.approve then "approve" else "deny"
  }

  /** The approval's identity; the source shortens it with a digest. */
  function ApprovalID(runID: string, service: string): string {
    "approval_" + runID + "\0" + service
  }

  predicate Includes(actual: seq<string>, required: seq<string>) {
    forall r :: r in required ==> r in actual
  }

  /** A named actor other than the requester, holding every required role, approves this step. */
  predicate Approves(info: RunInfo, service: string, roles: seq<string>, signal: ApprovalSignal) {
    && signal.approvalID == ApprovalID(info.id, service) && Action(signal) == "approve"
    && signal.actor != "" && signal.actor != info.requestedBy && Includes(signal.roles, roles)
  }

  // --- The words ---

  /** The words that clear a step for deployment. */
  ghost predicate Clear(info: RunInfo, service: string, w: seq<Effect>) {
    && w != [] && w[0].Evaluated? && w[0].policy.decision != Deny
    && if w[0].policy.decision == RequireApproval
       then |w| == 2 && w[1].Approved? && Approves(info, service, w[0].policy.requiredRoles, w[1].signal)
       else |w| == 1
  }

  ghost predicate NotPassed(e: Effect) {
    e.Verified? && e.result.Some? && e.result.value != VerificationPass
  }

  const RELEASED := Completed(false, true)
  const RELEASED_FAILED := Completed(true, true)

  /** What follows a verification that did not pass. */
  ghost predicate AfterFailure(spec: StepSpec, w: seq<Effect>, status: StepStatus) {
    if spec.rollbackMode != "automatic" then status == StepEscalated && w == [RELEASED_FAILED]
    else
      || (status == StepEscalated && w == [RolledBack(false), RELEASED_FAILED])
      || (status == StepEscalated && w == [RolledBack(true), Verified(None), RELEASED_FAILED])
      || (status == StepEscalated && |w| == 3 && w == [RolledBack(true), w[1], RELEASED_FAILED] && NotPassed(w[1]))
      || (status == StepRolledBack && w == [RolledBack(true), Verified(Some(VerificationPass)), RELEASED_FAILED])
  }

  /** What follows a successful deployment. */
  ghost predicate AfterDeploy(spec: StepSpec, w: seq<Effect>, status: StepStatus) {
    if !spec.verificationRequired then status == StepSucceeded && w == [RELEASED]
    else
      || (status == StepSucceeded && w == [Verified(Some(VerificationPass)), RELEASED])
      || (status == StepBlocked && w == [Verified(None), RELEASED_FAILED])
      || (w != [] && NotPassed(w[0]) && AfterFailure(spec, w[1..], status))
  }

  /** What follows a reservation. */
  ghost predicate AfterAcquire(spec: StepSpec, w: seq<Effect>, status: StepStatus) {
    || (status == StepUnknown && w == [Deployed(false), RELEASED_FAILED])
    || (w != [] && w[0] == Deployed(true) && AfterDeploy(spec, w[1..], status))
  }

  /** What follows the clearance of a step. */
  ghost predicate AfterClear(spec: StepSpec, step: Step, w: seq<Effect>, status: StepStatus) {
    || (status == StepBlocked && w == [Acquired(step, Refused)])
    || (w != [] && w[0] == Acquired(step, Allowed) && AfterAcquire(spec, w[1..], status))
  }

  /** How a step can stop before it is cleared. */
  ghost predicate StopsEarly(w: seq<Effect>, status: StepStatus) {
    || (w == [] && status == StepCancelled)
    || (|w| == 1 && w[0].Evaluated? && w[0].policy.decision == Deny && status == StepBlocked)
    || (|w| == 1 && w[0].Evaluated? && w[0].policy.decision == RequireApproval &&
        (status == StepBlocked || status == StepCancelled))
  }

  /** The whole word of a step that a finished workflow left in `status`, its dependencies being met. */
  ghost predicate Legal(info: RunInfo, spec: StepSpec, step: Step, t: Trace, status: StepStatus) {
    || (Clear(info, spec.service, t.clear) && AfterClear(spec, step, t.tail, status))
    || (StopsEarly(t.clear, status) && t.tail == [])
  }

  // --- Prefixes of words ---

  ghost predicate Late(e: Effect) { e.Verified? || e.RolledBack? || e.Completed? }

  /** After the deployment nothing is reserved or deployed again, and a completion is the last effect. */
  ghost predicate LateOnly(w: seq<Effect>) {
    && (forall i :: 0 <= i < |w| ==> Late(w[i]))
    && (forall i :: 0 <= i < |w| - 1 ==> !w[i].Completed?)
  }

  ghost predicate DeploysOnce(w: seq<Effect>) {
    w != [] ==> w[0].Deployed? && LateOnly(w[1..])
  }

  ghost predicate ReservesOnce(step: Step, w: seq<Effect>) {
    w != [] ==>
      w[0].Acquired? && w[0].step == step && DeploysOnce(w[1..]) && (w[0].reply != Allowed ==> |w| == 1)
  }

  /** At any moment: reservation and deployment only after clearance, and each at most once. */
  ghost predicate Guarded(info: RunInfo, service: string, step: Step, t: Trace) {
    && (t.tail != [] ==> Clear(info, service, t.clear))
    && ReservesOnce(step, t.tail)
  }

  /** The scheduler owes the step nothing back: it was asked for nothing, or it refused, or the
      reservation was given back. */
  ghost predicate GivenBack(w: seq<Effect>) {
    || w == []
    || (w[|w| - 1].Completed? && w[|w| - 1].ok)
    || (w[|w| - 1].Acquired? && w[|w| - 1].reply == Refused)
  }

  lemma Cons(x: Effect, w: seq<Effect>)
    ensures ([x] + w)[0] == x && ([x] + w)[1..] == w && [x] + w != []
  {
  }

  /** The complete words are guarded, and give back what they reserved. */
  lemma LegalIsGuarded(info: RunInfo, spec: StepSpec, step: Step, t: Trace, status: StepStatus)
    requires Legal(info, spec, step, t, status)
    ensures Guarded(info, spec.service, step, t) && GivenBack(t.tail)
  {
    if Clear(info, spec.service, t.clear) && AfterClear(spec, step, t.tail, status) {
      if t.tail[0].reply == Allowed {
        AfterAcquireReleases(spec, t.tail[1..], status);
      }
    }
  }

  lemma AfterAcquireReleases(spec: StepSpec, w: seq<Effect>, status: StepStatus)
    requires AfterAcquire(spec, w, status)
    ensures DeploysOnce(w) && w[|w| - 1].Completed? && w[|w| - 1].ok
  {
    if w[0] == Deployed(true) {
      AfterDeployReleases(spec, w[1..], status);
    }
  }

  lemma AfterDeployReleases(spec: StepSpec, w: seq<Effect>, status: StepStatus)
    requires AfterDeploy(spec, w, status)
    ensures LateOnly(w) && w != [] && w[|w| - 1].Completed? && w[|w| - 1].ok
  {
    if spec.verificationRequired && NotPassed(w[0]) && AfterFailure(spec, w[1..], status) {
      var f := w[1..];
      assert LateOnly(f) && f[|f| - 1] == RELEASED_FAILED;
      assert forall i :: 1 <= i < |w| ==> w[i] == f[i - 1];
    }
  }

  /** A deployment that succeeded on the record passed its verification where one was required. */
  lemma SucceededWord(info: RunInfo, spec: StepSpec, step: Step, t: Trace)
    requires Legal(info, spec, step, t, StepSucceeded)
    ensures Clear(info, spec.service, t.clear)
    ensures t.tail == [Acquired(step, Allowed), Deployed(true)] +
                      (if spec.verificationRequired then [Verified(Some(VerificationPass))] else []) + [RELEASED]
  {
    var w := t.tail[1..];
    assert t.tail == [t.tail[0]] + w && w == [w[0]] + w[1..];
  }
}
