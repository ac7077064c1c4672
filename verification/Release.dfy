/** Release runs and their steps. */
module Release {
  import opened Domain
  import opened Plan
  import opened Planner

  datatype RunStatus = NoStatus | RunPending | RunRunning | RunPaused | RunWaitingApproval | RunSucceeded | RunBlocked
                     | RunFailed | RunEscalated | RunCancelled

  datatype StepStatus = StepPending | StepWaitingApproval | StepExecuting | StepVerifying | StepSucceeded | StepBlocked
                      | StepRollingBack | StepRolledBack | StepEscalated | StepUnknown | StepCancelled

  datatype Decision = Allow | Deny | RequireApproval | OtherDecision(name: string)

  datatype PolicyDecision = PolicyDecision(decision: Decision, reasonDetail: string, requiredRoles: seq<string>)

  datatype ApprovalStatus = ApprovalPending | ApprovalApproved | ApprovalDenied | ApprovalExpired | ApprovalRevoked

  datatype Approval = Approval(id: string, requiredRoles: seq<string>, status: ApprovalStatus, planHash: string,
                               decidedBy: string)

  datatype VerificationStatus = VerificationPass | VerificationFail | VerificationInconclusive | VerificationMissing

  /** The fixed part of a step. */
  datatype StepSpec = StepSpec(service: string, phase: int, change: Option<Change>, verificationRequired: bool,
                               observationWindow: string, rollbackMode: string)

  datatype ReleaseStep = ReleaseStep(
    spec: StepSpec, wave: int, status: StepStatus, policy: Option<PolicyDecision>, approval: Option<Approval>,
    execution: Option<string>, verification: Option<VerificationStatus>, rollbackExecution: Option<string>,
    rollbackVerification: Option<VerificationStatus>, failure: string)

  /** The fixed part of a run. */
  datatype RunInfo = RunInfo(id: string, requestID: string, releaseVersion: string, tenantID: string,
                             environment: string, region: string, cluster: string, requestedBy: string,
                             plan: ReleasePlan)

  datatype ReleaseRun = ReleaseRun(info: RunInfo, status: RunStatus, pausedFrom: RunStatus, steps: seq<ReleaseStep>,
                                   stateVersion: int, updatedAt: int)
}
