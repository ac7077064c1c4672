/** What a turn that got so far has consumed: statements about every script, whatever its length. */
module WorkflowSafety {
  import opened Domain
  import opened Release
  import opened WorkflowLog
  import opened WorkflowMachine
  import opened WorkflowFlow

  // --- Effects and the choices they come from ---

  /** `at[i]` is the position of the choice that effect `i` was read from. */
  ghost predicate ReadAt(m: Machine, w: Work, script: seq<Choice>, lo: nat, hi: nat, at: seq<nat>)
    requires lo <= hi <= |script|
  {
    && |at| == |Word(m, w, script, lo, hi)|
    && (forall i :: 0 <= i < |at| ==> lo <= at[i] < hi)
    && (forall i, j :: 0 <= i < j < |at| ==> at[i] < at[j])
    && (forall i :: 0 <= i < |at| ==>
          m.emit(After(m, w, script, lo, at[i]), script[at[i]]) == [Word(m, w, script, lo, hi)[i]])
  }

  /** Every effect on record was read, in order, from a choice of its own. */
  lemma {:induction false} WordIsRead(ctx: Context, m: Machine, w: Work, script: seq<Choice>, lo: nat, hi: nat)
      returns (at: seq<nat>)
    requires lo <= hi <= |script| && Drives(ctx, m)
    ensures ReadAt(m, w, script, lo, hi, at)
    decreases hi
  {
    if lo == hi {
      at := [];
    } else {
      var now, c := After(m, w, script, lo, hi - 1), script[hi - 1];
      assert Meets(now, c);
      at := WordIsRead(ctx, m, w, script, lo, hi - 1);
      if m.emit(now, c) == [] {
        assert Word(m, w, script, lo, hi) == Word(m, w, script, lo, hi - 1);
      } else {
        assert m.emit(now, c) == [m.emit(now, c)[0]];
        at := at + [hi - 1];
      }
    }
  }

  // --- Clearance ---

  ghost predicate StageAt(m: Machine, w: Work, script: seq<Choice>, lo: nat, i: nat, at: Stage)
    requires lo <= i <= |script|
  {
    After(m, w, script, lo, i).at == at
  }

  /** The policy answered at `a`. */
  ghost predicate AskedAt(m: Machine, w: Work, script: seq<Choice>, lo: nat, hi: nat, a: nat)
    requires hi <= |script|
  {
    lo <= a < hi && StageAt(m, w, script, lo, a, Asking) && script[a].ok
  }

  /** The signal at `b` approves a step that waits for it. */
  ghost predicate ApprovedAt(info: RunInfo, service: string, roles: seq<string>, m: Machine, w: Work,
                             script: seq<Choice>, lo: nat, hi: nat, b: nat)
    requires hi <= |script|
  {
    && lo <= b < hi && StageAt(m, w, script, lo, b, Awaiting)
    && script[b].wake.GotApproval? && Approves(info, service, roles, script[b].wake.signal)
  }

  /** Nothing waited for an approval. */
  ghost predicate NeverAwaited(m: Machine, w: Work, script: seq<Choice>, lo: nat, hi: nat)
    requires hi <= |script|
  {
    forall j :: lo <= j < hi ==> !StageAt(m, w, script, lo, j, Awaiting)
  }

  /** The stages that only a cleared step comes to. */
  predicate Past(at: Stage) {
    || at == Reserving || at == ExecutingSave || at == Deploying || at == VerifyingSave || at == Observing
    || at == Verifying || at.RollingSave? || at.Undoing? || at.ObservingUndo? || at.VerifyingUndo? || at.Releasing?
  }

  predicate Requesting(at: Stage) {
    || at == RequestSave || at == Awaiting || at == PauseSave(true) || at == Paused(true) || at == ResumeSave(true)
  }

  predicate Early(at: Stage) {
    at == Polling || at == PauseSave(false) || at == Paused(false) || at == ResumeSave(false) || at == Asking
  }

  /** The decision on record is the policy's own answer. */
  ghost predicate Recorded(m: Machine, w: Work, script: seq<Choice>, lo: nat, hi: nat, now: Work)
    requires hi <= |script|
  {
    exists a: nat :: AskedAt(m, w, script, lo, hi, a) && now.step.policy == Some(script[a].decision)
  }

  /** An approval of this step by the recorded roles was consumed. */
  ghost predicate Consumed(info: RunInfo, m: Machine, w: Work, script: seq<Choice>, lo: nat, hi: nat, now: Work)
    requires hi <= |script|
  {
    now.step.policy.Some? &&
    exists b ::
      ApprovedAt(info, w.step.spec.service, now.step.policy.value.requiredRoles, m, w, script, lo, hi, b)
  }

  /** The clearance of a step in terms of what the choices read so far contain: `asked`, the answer on record;
      `approved`, an approval by the roles on record; `never`, no wait for an approval. */
  ghost predicate Fits(info: RunInfo, spec: StepSpec, now: Work, asked: bool, approved: bool, never: bool) {
    && now.step.spec == spec
    && (Early(now.at) ==> never)
    && (now.at == PolicySave ==> asked && never && now.step.policy.Some?)
    && (Requesting(now.at) ==>
          && asked && now.step.policy.Some? && now.step.policy.value.decision == RequireApproval
          && now.step.approval == Some(Request(info, spec.service, now.step.policy.value)))
    && (now.at == GrantSave || Past(now.at) ==>
          && asked && now.step.policy.Some? && now.step.policy.value.decision != Deny
          && (if now.step.policy.value.decision == RequireApproval then approved else never))
  }

  ghost predicate Justified(info: RunInfo, m: Machine, w: Work, script: seq<Choice>, lo: nat, hi: nat, now: Work)
    requires hi <= |script|
  {
    Fits(info, w.step.spec, now, Recorded(m, w, script, lo, hi, now), Consumed(info, m, w, script, lo, hi, now),
         NeverAwaited(m, w, script, lo, hi))
  }

  /** The work of a turn that is being saved for the last time, or is over. */
  predicate Ending(at: Stage) {
    at.Saving? || at.Over?
  }

  lemma EarlyNext(ctx: Context, now: Work, c: Choice, next: Work)
    requires Early(now.at) && next == Next(ctx, now, c)
    ensures next.step.spec == now.step.spec
    ensures Early(next.at) || Ending(next.at) || (now.at == Asking && c.ok && next.at == PolicySave)
    ensures next.at == PolicySave ==> next.step.policy == Some(c.decision)
  {
  }

  lemma PolicyNext(ctx: Context, now: Work, c: Choice, next: Work)
    requires now.at == PolicySave && now.step.policy.Some? && next == Next(ctx, now, c)
    ensures next.step.spec == now.step.spec && next.step.policy == now.step.policy
    ensures next.at == Reserving || next.at == RequestSave || Ending(next.at)
    ensures next.at == RequestSave ==>
              && now.step.policy.value.decision == RequireApproval
              && next.step.approval == Some(Request(ctx.info, now.step.spec.service, now.step.policy.value))
    ensures next.at == Reserving ==>
              now.step.policy.value.decision != Deny && now.step.policy.value.decision != RequireApproval
  {
  }

  lemma RequestingNext(ctx: Context, now: Work, c: Choice, next: Work)
    requires Requesting(now.at) && next == Next(ctx, now, c)
    ensures next.step.spec == now.step.spec && next.step.policy == now.step.policy
    ensures Requesting(next.at) ==> next.step.approval == now.step.approval
    ensures || Requesting(next.at) || Ending(next.at)
            || (next.at == GrantSave && now.at == Awaiting && Awoken(ctx, now.step, c.wake).at == GrantSave)
  {
  }

  lemma PastNext(ctx: Context, now: Work, c: Choice, next: Work)
    requires (now.at == GrantSave || Past(now.at)) && next == Next(ctx, now, c)
    ensures next.step.spec == now.step.spec && next.step.policy == now.step.policy
    ensures Past(next.at) || Ending(next.at)
  {
    match now.at {
      case Verifying =>
      case Undoing(_) =>
      case VerifyingUndo(_) =>
      case Deploying =>
      case Reserving =>
      case _ =>
    }
  }

  lemma EndingNext(ctx: Context, now: Work, c: Choice, next: Work)
    requires Ending(now.at) && next == Next(ctx, now, c)
    ensures next.step == now.step && next.at.Over?
  {
  }

  /** How a choice moves the work: `answered` if the activity succeeded, `granted` if it approves the step. */
  ghost predicate Moves(info: RunInfo, now: Work, next: Work, answered: bool, granted: bool) {
    && next.step.spec == now.step.spec
    && (Early(now.at) ==>
          || Early(next.at) || Ending(next.at)
          || (now.at == Asking && answered && next.at == PolicySave && next.step.policy.Some?))
    && (now.at == PolicySave && now.step.policy.Some? ==>
          && next.step.policy == now.step.policy
          && (next.at == Reserving || next.at == RequestSave || Ending(next.at))
          && (next.at == RequestSave ==>
                && now.step.policy.value.decision == RequireApproval
                && next.step.approval == Some(Request(info, now.step.spec.service, now.step.policy.value)))
          && (next.at == Reserving ==>
                now.step.policy.value.decision != Deny && now.step.policy.value.decision != RequireApproval))
    && (Requesting(now.at) ==>
          && next.step.policy == now.step.policy
          && (Requesting(next.at) ==> next.step.approval == now.step.approval)
          && (Requesting(next.at) || Ending(next.at) || (next.at == GrantSave && now.at == Awaiting && granted)))
    && (now.at == GrantSave || Past(now.at) ==>
          next.step.policy == now.step.policy && (Past(next.at) || Ending(next.at)))
    && (Ending(now.at) ==> next.at.Over?)
  }

  lemma NextMoves(ctx: Context, now: Work, c: Choice, next: Work)
    requires next == Next(ctx, now, c)
    ensures Moves(ctx.info, now, next, c.ok, Awoken(ctx, now.step, c.wake).at == GrantSave)
  {
    if Early(now.at) {
      EarlyNext(ctx, now, c, next);
    } else if now.at == PolicySave {
      if now.step.policy.Some? {
        PolicyNext(ctx, now, c, next);
      }
    } else if Requesting(now.at) {
      RequestingNext(ctx, now, c, next);
    } else if now.at == GrantSave || Past(now.at) {
      PastNext(ctx, now, c, next);
    } else {
      EndingNext(ctx, now, c, next);
    }
  }

  lemma FitsMoved(info: RunInfo, spec: StepSpec, now: Work, next: Work, answered: bool, granted: bool, asked: bool,
                  approved: bool, never: bool, asked': bool, approved': bool, never': bool)
    requires Fits(info, spec, now, asked, approved, never) && Moves(info, now, next, answered, granted)
    requires if now.at == Asking then answered ==> asked' else asked ==> asked'
    requires now.at == Awaiting && granted ==> approved'
    requires (now.at != Asking && approved ==> approved') && (now.at != Awaiting && never ==> never')
    ensures Fits(info, spec, next, asked', approved', never')
  {
  }

  lemma FactsStay(info: RunInfo, m: Machine, w: Work, script: seq<Choice>, lo: nat, hi: nat, now: Work, next: Work)
    requires hi < |script| && next.step.policy == now.step.policy
    ensures Recorded(m, w, script, lo, hi, now) ==> Recorded(m, w, script, lo, hi + 1, next)
    ensures Consumed(info, m, w, script, lo, hi, now) ==> Consumed(info, m, w, script, lo, hi + 1, next)
  {
    if Recorded(m, w, script, lo, hi, now) {
      var a: nat :| AskedAt(m, w, script, lo, hi, a) && now.step.policy == Some(script[a].decision);
      assert AskedAt(m, w, script, lo, hi + 1, a);
    }
    if Consumed(info, m, w, script, lo, hi, now) {
      var roles := now.step.policy.value.requiredRoles;
      var b :| ApprovedAt(info, w.step.spec.service, roles, m, w, script, lo, hi, b);
      assert ApprovedAt(info, w.step.spec.service, roles, m, w, script, lo, hi + 1, b);
    }
  }

  lemma AwaitedStep(m: Machine, w: Work, script: seq<Choice>, lo: nat, hi: nat)
    requires lo <= hi < |script| && NeverAwaited(m, w, script, lo, hi) && !StageAt(m, w, script, lo, hi, Awaiting)
    ensures NeverAwaited(m, w, script, lo, hi + 1)
  {
  }

  /** A step that was granted its approval consumed the approving signal. */
  lemma GrantConsumes(ctx: Context, m: Machine, w: Work, script: seq<Choice>, lo: nat, hi: nat, now: Work)
    requires lo <= hi < |script| && now == After(m, w, script, lo, hi) && now.at == Awaiting
    requires Justified(ctx.info, m, w, script, lo, hi, now)
    requires Awoken(ctx, now.step, script[hi].wake).at == GrantSave
    ensures Consumed(ctx.info, m, w, script, lo, hi + 1, Awoken(ctx, now.step, script[hi].wake))
  {
    var roles := now.step.policy.value.requiredRoles;
    assert ApprovedAt(ctx.info, w.step.spec.service, roles, m, w, script, lo, hi + 1, hi);
  }

  lemma AskRecords(m: Machine, w: Work, script: seq<Choice>, lo: nat, hi: nat, now: Work, next: Work)
    requires lo <= hi < |script| && now == After(m, w, script, lo, hi) && now.at == Asking && script[hi].ok
    requires next.step.policy == Some(script[hi].decision)
    ensures Recorded(m, w, script, lo, hi + 1, next)
  {
    assert AskedAt(m, w, script, lo, hi + 1, hi);
  }

  lemma JustifiedStep(ctx: Context, m: Machine, w: Work, script: seq<Choice>, lo: nat, hi: nat, hi': nat, now: Work,
                      next: Work)
    requires lo <= hi < hi' == hi + 1 <= |script| && now == After(m, w, script, lo, hi)
             && next == Next(ctx, now, script[hi])
    requires Justified(ctx.info, m, w, script, lo, hi, now)
    ensures Justified(ctx.info, m, w, script, lo, hi', next)
  {
    var asked, asked' := Recorded(m, w, script, lo, hi, now), Recorded(m, w, script, lo, hi + 1, next);
    var approved := Consumed(ctx.info, m, w, script, lo, hi, now);
    var approved' := Consumed(ctx.info, m, w, script, lo, hi + 1, next);
    var never, never' := NeverAwaited(m, w, script, lo, hi), NeverAwaited(m, w, script, lo, hi + 1);
    FactsStep(ctx, m, w, script, lo, hi, now, next);
    NextMoves(ctx, now, script[hi], next);
    FitsMoved(ctx.info, w.step.spec, now, next, script[hi].ok, Awoken(ctx, now.step, script[hi].wake).at == GrantSave,
              asked, approved, never, asked', approved', never');
  }

  lemma FactsStep(ctx: Context, m: Machine, w: Work, script: seq<Choice>, lo: nat, hi: nat, now: Work, next: Work)
    requires lo <= hi < |script| && now == After(m, w, script, lo, hi) && next == Next(ctx, now, script[hi])
    requires Justified(ctx.info, m, w, script, lo, hi, now)
    ensures now.at == Asking && script[hi].ok ==> Recorded(m, w, script, lo, hi + 1, next)
    ensures now.at != Asking && Recorded(m, w, script, lo, hi, now) ==> Recorded(m, w, script, lo, hi + 1, next)
    ensures now.at != Asking && Consumed(ctx.info, m, w, script, lo, hi, now) ==>
              Consumed(ctx.info, m, w, script, lo, hi + 1, next)
    ensures now.at == Awaiting && Awoken(ctx, now.step, script[hi].wake).at == GrantSave ==>
              Consumed(ctx.info, m, w, script, lo, hi + 1, next)
    ensures now.at != Awaiting && NeverAwaited(m, w, script, lo, hi) ==> NeverAwaited(m, w, script, lo, hi + 1)
  {
    PolicyStays(ctx, now, script[hi]);
    if now.at == Asking {
      if script[hi].ok {
        AskRecords(m, w, script, lo, hi, now, next);
      }
    } else {
      FactsStay(ctx.info, m, w, script, lo, hi, now, next);
    }
    if now.at == Awaiting {
      if Awoken(ctx, now.step, script[hi].wake).at == GrantSave {
        GrantConsumes(ctx, m, w, script, lo, hi, now);
      }
    } else if NeverAwaited(m, w, script, lo, hi) {
      AwaitedStep(m, w, script, lo, hi);
    }
  }

  lemma PolicyStays(ctx: Context, now: Work, c: Choice)
    ensures now.at != Asking ==> Next(ctx, now, c).step.policy == now.step.policy
    ensures now.at == Asking && c.ok ==> Next(ctx, now, c).step.policy == Some(c.decision)
  {
  }

  lemma {:induction false} AllJustified(ctx: Context, m: Machine, w: Work, script: seq<Choice>, lo: nat, hi: nat)
    requires lo <= hi <= |script| && Drives(ctx, m) && w.at == Polling
    ensures Justified(ctx.info, m, w, script, lo, hi, After(m, w, script, lo, hi))
    decreases hi
  {
    if lo == hi {
      NothingYet(ctx, m, w, script, lo);
    } else {
      var before: nat := hi - 1;
      AllJustified(ctx, m, w, script, lo, before);
      JustifiedNext(ctx, m, w, script, lo, before, hi);
    }
  }

  lemma JustifiedNext(ctx: Context, m: Machine, w: Work, script: seq<Choice>, lo: nat, hi: nat, hi': nat)
    requires lo <= hi < hi' == hi + 1 <= |script| && Drives(ctx, m)
    requires Justified(ctx.info, m, w, script, lo, hi, After(m, w, script, lo, hi))
    ensures Justified(ctx.info, m, w, script, lo, hi', After(m, w, script, lo, hi'))
  {
    var now, next := After(m, w, script, lo, hi), After(m, w, script, lo, hi');
    NextIs(ctx, m, w, script, lo, hi');
    JustifiedStep(ctx, m, w, script, lo, hi, hi', now, next);
  }

  lemma NothingYet(ctx: Context, m: Machine, w: Work, script: seq<Choice>, lo: nat)
    requires lo <= |script| && w.at == Polling
    ensures Justified(ctx.info, m, w, script, lo, lo, After(m, w, script, lo, lo))
  {
    assert NeverAwaited(m, w, script, lo, lo);
  }

  lemma NextIs(ctx: Context, m: Machine, w: Work, script: seq<Choice>, lo: nat, hi: nat)
    requires lo < hi <= |script| && Drives(ctx, m)
    ensures After(m, w, script, lo, hi) == Next(ctx, After(m, w, script, lo, hi - 1), script[hi - 1])
  {
    assert Meets(After(m, w, script, lo, hi - 1), script[hi - 1]);
  }

  /** A step that got past its clearance, in whatever stage it is now, has consumed the policy's answer, which
      did not deny it; and it consumed an approval by the required roles, from somebody other than the requester,
      exactly if that answer required one. */
  lemma ClearanceIsConsumed(ctx: Context, s: ReleaseStep, script: seq<Choice>, lo: nat, hi: nat)
    requires lo <= hi <= |script|
    ensures var m, w := MachineOf(ctx), Work(Polling, s);
            var now := After(m, w, script, lo, hi);
            Past(now.at) ==>
              && Recorded(m, w, script, lo, hi, now) && now.step.policy.value.decision != Deny
              && (now.step.policy.value.decision == RequireApproval <==> Consumed(ctx.info, m, w, script, lo, hi, now))
  {
    MachineDrives(ctx);
    var m, w := MachineOf(ctx), Work(Polling, s);
    AllJustified(ctx, m, w, script, lo, hi);
  }

  /** After the policy's answer is saved, the step goes on to its reservation without an approval exactly when
      the answer is neither to deny nor to require one. */
  lemma PassesUnapprovedIff(ctx: Context, s: ReleaseStep, answer: Choice, saved: Choice)
    requires answer.ok && saved.ok
    ensures Next(ctx, Next(ctx, Work(Asking, s), answer), saved).at == Reserving <==>
            answer.decision.decision != Deny && answer.decision.decision != RequireApproval
  {
  }

  /** So a decision by any other name passes like ALLOW. */
  lemma OtherDecisionPasses(ctx: Context, s: ReleaseStep, answer: Choice, saved: Choice, name: string)
    requires answer.ok && saved.ok && answer.decision.decision == OtherDecision(name)
    ensures Next(ctx, Next(ctx, Work(Asking, s), answer), saved) ==
            Work(Reserving, s.(policy := Some(answer.decision)))
  {
    PassesUnapprovedIff(ctx, s, answer, saved);
  }

  // --- Deployment and verification ---

  /** The scheduler granted the reservation at `i`. */
  ghost predicate ReservedAt(m: Machine, w: Work, script: seq<Choice>, lo: nat, hi: nat, i: nat)
    requires hi <= |script|
  {
    lo <= i < hi && StageAt(m, w, script, lo, i, Reserving) && ReplyOf(script[i]) == Allowed
  }

  ghost predicate DeployedAt(m: Machine, w: Work, script: seq<Choice>, lo: nat, hi: nat, i: nat)
    requires hi <= |script|
  {
    lo <= i < hi && StageAt(m, w, script, lo, i, Deploying) && script[i].ok
  }

  ghost predicate VerifiedAt(m: Machine, w: Work, script: seq<Choice>, lo: nat, hi: nat, i: nat)
    requires hi <= |script|
  {
    lo <= i < hi && StageAt(m, w, script, lo, i, Verifying) && ResultOf(script[i]) == Some(VerificationPass)
  }

  ghost predicate Reserved(m: Machine, w: Work, script: seq<Choice>, lo: nat, hi: nat)
    requires hi <= |script|
  {
    exists i: nat :: ReservedAt(m, w, script, lo, hi, i)
  }

  ghost predicate WasDeployed(m: Machine, w: Work, script: seq<Choice>, lo: nat, hi: nat)
    requires hi <= |script|
  {
    exists i: nat :: DeployedAt(m, w, script, lo, hi, i)
  }

  ghost predicate WasVerified(m: Machine, w: Work, script: seq<Choice>, lo: nat, hi: nat)
    requires hi <= |script|
  {
    exists i: nat :: VerifiedAt(m, w, script, lo, hi, i)
  }

  /** The stages of a deployed step. */
  predicate Deployed(at: Stage) {
    || at == VerifyingSave || at == Observing || at == Verifying || at.RollingSave? || at.Undoing?
    || at.ObservingUndo? || at.VerifyingUndo?
  }

  /** A step that was worked on and is about to go, or has gone, as a success. */
  predicate Succeeding(at: Stage) {
    at == Releasing(false) || at == Saving(Going) || at == Over(Going)
  }

  /** The stage of a step in terms of what the choices read so far contain. */
  ghost predicate Deserves(s: ReleaseStep, now: Work, reserved: bool, deployed: bool, verified: bool) {
    && now.step.spec == s.spec
    && (Early(now.at) ==> now.step == s)
    && (now.at == ExecutingSave || now.at == Deploying ==> reserved)
    && (Deployed(now.at) ==> reserved && deployed && s.spec.verificationRequired)
    && (Succeeding(now.at) && s.status != StepSucceeded ==>
          reserved && deployed && (s.spec.verificationRequired ==> verified))
  }

  ghost predicate Earned(m: Machine, w: Work, script: seq<Choice>, lo: nat, hi: nat, now: Work)
    requires hi <= |script|
  {
    Deserves(w.step, now, Reserved(m, w, script, lo, hi), WasDeployed(m, w, script, lo, hi),
             WasVerified(m, w, script, lo, hi))
  }

  /** The way to a reservation. */
  predicate Clearing(at: Stage) {
    at == PolicySave || Requesting(at) || at == GrantSave || at == Reserving
  }

  predicate Failed(at: Stage) {
    at == Releasing(true) || at == Saving(Done) || at == Over(Done) || at == Over(Errored)
  }

  lemma EarlyDeserves(ctx: Context, now: Work, c: Choice, next: Work)
    requires Early(now.at) && next == Next(ctx, now, c)
    ensures Early(next.at) ==> next.step == now.step
    ensures || Early(next.at) || next.at == PolicySave || Failed(next.at)
            || (next.at == Over(Going) && now.step.status == StepSucceeded)
  {
  }

  lemma ClearingDeserves(ctx: Context, now: Work, c: Choice, next: Work)
    requires Clearing(now.at) && next == Next(ctx, now, c)
    ensures || Clearing(next.at) || Failed(next.at)
            || (now.at == Reserving && next.at == ExecutingSave && ReplyOf(c) == Allowed)
  {
  }

  lemma DeployingDeserves(ctx: Context, now: Work, c: Choice, next: Work)
    requires (now.at == ExecutingSave || now.at == Deploying) && next == Next(ctx, now, c)
    ensures || next.at == Deploying || Failed(next.at)
            || (now.at == Deploying && c.ok &&
                next.at == if now.step.spec.verificationRequired then VerifyingSave else Releasing(false))
  {
  }

  lemma DeployedDeserves(ctx: Context, now: Work, c: Choice, next: Work)
    requires Deployed(now.at) && next == Next(ctx, now, c)
    ensures || Deployed(next.at) || Failed(next.at)
            || (now.at == Verifying && ResultOf(c) == Some(VerificationPass) && next.at == Releasing(false))
  {
    match now.at {
      case Verifying =>
      case Undoing(_) =>
      case VerifyingUndo(_) =>
      case _ =>
    }
  }

  lemma LateDeserves(ctx: Context, now: Work, c: Choice, next: Work)
    requires (Succeeding(now.at) || Failed(now.at)) && next == Next(ctx, now, c)
    ensures Failed(next.at) || (Succeeding(now.at) && Succeeding(next.at))
  {
  }

  lemma SpecStays(ctx: Context, now: Work, c: Choice)
    ensures Next(ctx, now, c).step.spec == now.step.spec
  {
    match now.at {
      case Polling =>
      case Awaiting =>
      case PolicySave =>
      case Deploying =>
      case Verifying =>
      case Undoing(_) =>
      case VerifyingUndo(_) =>
      case _ =>
    }
  }

  lemma DeservesStep(ctx: Context, s: ReleaseStep, now: Work, c: Choice, next: Work, reserved: bool, deployed: bool,
                     verified: bool, reserved': bool, deployed': bool, verified': bool)
    requires Deserves(s, now, reserved, deployed, verified) && next == Next(ctx, now, c)
    requires reserved || (now.at == Reserving && ReplyOf(c) == Allowed) ==> reserved'
    requires deployed || (now.at == Deploying && c.ok) ==> deployed'
    requires verified || (now.at == Verifying && ResultOf(c) == Some(VerificationPass)) ==> verified'
    ensures Deserves(s, next, reserved', deployed', verified')
  {
    SpecStays(ctx, now, c);
    if Early(now.at) {
      EarlyDeserves(ctx, now, c, next);
    } else if Clearing(now.at) {
      ClearingDeserves(ctx, now, c, next);
    } else if now.at == ExecutingSave || now.at == Deploying {
      DeployingDeserves(ctx, now, c, next);
    } else if Deployed(now.at) {
      DeployedDeserves(ctx, now, c, next);
    } else if Succeeding(now.at) || Failed(now.at) {
      LateDeserves(ctx, now, c, next);
    } else {
      EndingNext(ctx, now, c, next);
    }
  }

  lemma PastStays(m: Machine, w: Work, script: seq<Choice>, lo: nat, hi: nat)
    requires hi < |script|
    ensures Reserved(m, w, script, lo, hi) ==> Reserved(m, w, script, lo, hi + 1)
    ensures WasDeployed(m, w, script, lo, hi) ==> WasDeployed(m, w, script, lo, hi + 1)
    ensures WasVerified(m, w, script, lo, hi) ==> WasVerified(m, w, script, lo, hi + 1)
  {
    if i :| ReservedAt(m, w, script, lo, hi, i) {
      assert ReservedAt(m, w, script, lo, hi + 1, i);
    }
    if i :| DeployedAt(m, w, script, lo, hi, i) {
      assert DeployedAt(m, w, script, lo, hi + 1, i);
    }
    if i :| VerifiedAt(m, w, script, lo, hi, i) {
      assert VerifiedAt(m, w, script, lo, hi + 1, i);
    }
  }

  lemma EarnedNow(m: Machine, w: Work, script: seq<Choice>, lo: nat, hi: nat, now: Work)
    requires lo <= hi < |script| && now == After(m, w, script, lo, hi)
    ensures now.at == Reserving && ReplyOf(script[hi]) == Allowed ==> Reserved(m, w, script, lo, hi + 1)
    ensures now.at == Deploying && script[hi].ok ==> WasDeployed(m, w, script, lo, hi + 1)
    ensures now.at == Verifying && ResultOf(script[hi]) == Some(VerificationPass) ==>
              WasVerified(m, w, script, lo, hi + 1)
  {
    if now.at == Reserving && ReplyOf(script[hi]) == Allowed {
      assert ReservedAt(m, w, script, lo, hi + 1, hi);
    }
    if now.at == Deploying && script[hi].ok {
      assert DeployedAt(m, w, script, lo, hi + 1, hi);
    }
    if now.at == Verifying && ResultOf(script[hi]) == Some(VerificationPass) {
      assert VerifiedAt(m, w, script, lo, hi + 1, hi);
    }
  }

  lemma EarnedStep(ctx: Context, m: Machine, w: Work, script: seq<Choice>, lo: nat, hi: nat, now: Work)
    requires lo <= hi < |script| && now == After(m, w, script, lo, hi) && Earned(m, w, script, lo, hi, now)
    ensures Earned(m, w, script, lo, hi + 1, Next(ctx, now, script[hi]))
  {
    PastStays(m, w, script, lo, hi);
    EarnedNow(m, w, script, lo, hi, now);
    DeservesStep(ctx, w.step, now, script[hi], Next(ctx, now, script[hi]), Reserved(m, w, script, lo, hi),
                 WasDeployed(m, w, script, lo, hi), WasVerified(m, w, script, lo, hi),
                 Reserved(m, w, script, lo, hi + 1),
                 WasDeployed(m, w, script, lo, hi + 1), WasVerified(m, w, script, lo, hi + 1));
  }

  lemma EarnedNext(ctx: Context, m: Machine, w: Work, script: seq<Choice>, lo: nat, hi: nat, hi': nat)
    requires lo <= hi < hi' == hi + 1 <= |script| && Drives(ctx, m) && w.at == Polling
    requires Earned(m, w, script, lo, hi, After(m, w, script, lo, hi))
    ensures Earned(m, w, script, lo, hi', After(m, w, script, lo, hi'))
  {
    NextIs(ctx, m, w, script, lo, hi');
    EarnedStep(ctx, m, w, script, lo, hi, After(m, w, script, lo, hi));
  }

  lemma {:induction false} AllEarned(ctx: Context, m: Machine, w: Work, script: seq<Choice>, lo: nat, hi: nat)
    requires lo <= hi <= |script| && Drives(ctx, m) && w.at == Polling
    ensures Earned(m, w, script, lo, hi, After(m, w, script, lo, hi))
    decreases hi
  {
    if lo < hi {
      var before: nat := hi - 1;
      AllEarned(ctx, m, w, script, lo, before);
      EarnedNext(ctx, m, w, script, lo, before, hi);
    }
  }

  /** A turn that ended in success with a step that had not succeeded before has consumed a granted reservation,
      a deployment that went through and, where one is required, a verification that passed. */
  lemma SuccessIsConsumed(ctx: Context, s: ReleaseStep, script: seq<Choice>, lo: nat, hi: nat)
    requires lo <= hi <= |script| && s.status != StepSucceeded
    ensures var m, w := MachineOf(ctx), Work(Polling, s);
            After(m, w, script, lo, hi).at == Over(Going) ==>
              && Reserved(m, w, script, lo, hi) && WasDeployed(m, w, script, lo, hi)
              && (s.spec.verificationRequired ==> WasVerified(m, w, script, lo, hi))
  {
    MachineDrives(ctx);
    AllEarned(ctx, MachineOf(ctx), Work(Polling, s), script, lo, hi);
  }

  // --- Turns of a run ---

  /** What clears a step for the stage it is in at `i`. */
  ghost predicate ClearedAt(info: RunInfo, m: Machine, w: Work, script: seq<Choice>, lo: nat, i: nat)
    requires lo <= i <= |script|
  {
    var now := After(m, w, script, lo, i);
    && Recorded(m, w, script, lo, i, now) && now.step.policy.value.decision != Deny
    && (now.step.policy.value.decision == RequireApproval <==> Consumed(info, m, w, script, lo, i, now))
  }

  /** In every turn of every run, finished or not: the scheduler is asked and the step deployed only after the
      policy's answer and any approval it requires were read from the script, within that turn. */
  lemma OnlyClearedIsDeployed(run: ReleaseRun, byService: map<string, nat>, k: nat, script: seq<Choice>, lo: nat,
                              hi: nat, now: Work, word: seq<Effect>, i: nat)
    requires k < |run.steps| && TurnReads(run, byService, k, script, lo, hi, now, word) && lo <= i <= hi
    ensures var m, w := MachineOf(ContextAt(run, k)), Work(Polling, StepAt(run, byService, k));
            After(m, w, script, lo, i).at == Reserving || After(m, w, script, lo, i).at == Deploying ==>
              ClearedAt(run.info, m, w, script, lo, i)
  {
    ClearanceIsConsumed(ContextAt(run, k), StepAt(run, byService, k), script, lo, i);
  }

  /** A step that succeeded in its turn was cleared, reserved and deployed, and passed its verification where one
      is required, all by answers of that turn. */
  lemma PassedTurn(run: ReleaseRun, byService: map<string, nat>, k: nat, script: seq<Choice>, lo: nat, hi: nat,
                   s: ReleaseStep, word: seq<Effect>)
    requires k < |run.steps| && run.steps[k].status != StepSucceeded
    requires TurnReads(run, byService, k, script, lo, hi, Work(Over(Going), s), word)
    ensures var m, w := MachineOf(ContextAt(run, k)), Work(Polling, StepAt(run, byService, k));
            && (exists i: nat :: ReservedAt(m, w, script, lo, hi, i) && ClearedAt(run.info, m, w, script, lo, i))
            && WasDeployed(m, w, script, lo, hi)
            && (run.steps[k].spec.verificationRequired ==> WasVerified(m, w, script, lo, hi))
  {
    var m, w := MachineOf(ContextAt(run, k)), Work(Polling, StepAt(run, byService, k));
    SuccessIsConsumed(ContextAt(run, k), StepAt(run, byService, k), script, lo, hi);
    var i: nat :| ReservedAt(m, w, script, lo, hi, i);
    ClearanceIsConsumed(ContextAt(run, k), StepAt(run, byService, k), script, lo, i);
  }
}
