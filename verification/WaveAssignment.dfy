/** Turning a plan into a run, and numbering the run's steps by wave. */
module WaveAssignment {
  import opened Domain
  import opened Phasing
  import opened Plan
  import opened Planner
  import opened Release
  import opened Budget
  import opened Waves
  import opened WaveBuilder

  // --- The run of a plan ---

  function NewStep(p: PlanStep, changes: map<string, Change>): ReleaseStep {
    ReleaseStep(StepSpec(p.service, p.phase, if p.service in changes then Some(changes[p.service]) else None,
                         p.verificationRequired, p.observationWindow, p.rollbackMode),
                0, StepPending, None, None, None, None, None, None, "")
  }

  function NewSteps(flat: seq<PlanStep>, changes: map<string, Change>): (r: seq<ReleaseStep>)
    ensures |r| == |flat| && forall i :: 0 <= i < |r| ==> r[i] == NewStep(flat[i], changes)
  {
    seq(|flat|, i requires 0 <= i < |flat| => NewStep(flat[i], changes))
  }

  function Place(steps: seq<PlanStep>, number: int): (r: seq<PlanStep>)
    ensures |r| == |steps| && forall i :: 0 <= i < |r| ==> r[i] == steps[i].(phase := number)
  {
    seq(|steps|, i requires 0 <= i < |steps| => steps[i].(phase := number))
  }

  /** The steps of a plan in order, each under the number of the phase that lists it. */
  function Placed(phases: seq<PlanPhase>): seq<PlanStep> {
    if phases == [] then []
    else
      var last := phases[|phases| - 1];
      Placed(phases[..|phases| - 1]) + Place(last.steps, last.number)
  }

  lemma {:induction false} PlacedIsFlat(phases: seq<PlanPhase>)
    requires forall i, s :: 0 <= i < |phases| && s in phases[i].steps ==> s.phase == phases[i].number
    ensures Placed(phases) == Flatten(phases)
  {
    if phases != [] {
      var last := phases[|phases| - 1];
      PlacedIsFlat(phases[..|phases| - 1]);
      assert forall i :: 0 <= i < |last.steps| ==> last.steps[i] in last.steps;
      assert Place(last.steps, last.number) == last.steps;
    }
  }

  /** A run lists the steps of its plan phase by phase. */
  method NewRunSteps(phases: seq<PlanPhase>, changes: map<string, Change>) returns (steps: seq<ReleaseStep>)
    ensures steps == NewSteps(Placed(phases), changes)
  {
    steps := [];
    for i := 0 to |phases|
      invariant steps == NewSteps(Placed(phases[..i]), changes)
    {
      assert phases[..i + 1][..i] == phases[..i];
      var planned := phases[i].steps;
      ghost var placed := Place(planned, phases[i].number);
      for k := 0 to |planned|
        invariant steps == NewSteps(Placed(phases[..i]) + placed[..k], changes)
      {
        var p := planned[k];
        steps := steps + [ReleaseStep(
          StepSpec(p.service, phases[i].number, if p.service in changes then Some(changes[p.service]) else None,
                   p.verificationRequired, p.observationWindow, p.rollbackMode),
          0, StepPending, None, None, None, None, None, None, "")];
        assert Placed(phases[..i]) + placed[..k + 1] == Placed(phases[..i]) + placed[..k] + [placed[k]];
      }
      assert placed[..|placed|] == placed;
    }
    assert phases[..|phases|] == phases;
  }

  // --- Scheduling input ---

  function Services(steps: seq<ReleaseStep>): set<string> {
    set s | s in steps :: s.spec.service
  }

  function SchedulingStep(p: PlanStep, selected: set<string>): Step {
    Step(p.service, p.phase, p.scheduling.tenantID, p.scheduling.environment, p.scheduling.region, p.scheduling.cluster,
         p.scheduling.team, p.scheduling.riskTier, p.scheduling.runnerGroup, p.scheduling.failureDomains,
         Kept(p.dependencies, Selected(selected)))
  }

  function SchedulingSteps(flat: seq<PlanStep>, selected: set<string>): (r: seq<Step>)
    ensures |r| == |flat| && forall i :: 0 <= i < |r| ==> r[i] == SchedulingStep(flat[i], selected)
  {
    seq(|flat|, i requires 0 <= i < |flat| => SchedulingStep(flat[i], selected))
  }

  function PlannedServices(flat: seq<PlanStep>): set<string> {
    set p | p in flat :: p.service
  }

  function WaveNumber(byService: map<string, nat>, service: string): nat {
    if service in byService then byService[service] else 0
  }

  /** `byService` numbers exactly the scheduled services, each with its wave. */
  ghost predicate Numbers(waves: seq<seq<Step>>, byService: map<string, nat>) {
    forall n :: n in byService <==> n in Done(waves)
  }

  ghost predicate NumbersWaves(waves: seq<seq<Step>>, byService: map<string, nat>) {
    forall n :: n in byService ==> byService[n] < |waves| && n in Ids(waves[byService[n]])
  }

  method NumberServices(waves: seq<Wave>, ghost lists: seq<seq<Step>>) returns (byService: map<string, nat>)
    requires waves == Numbered(lists)
    ensures Numbers(lists, byService) && NumbersWaves(lists, byService)
  {
    byService := map[];
    for i := 0 to |waves|
      invariant Numbers(lists[..i], byService)
      invariant forall n :: n in byService ==> byService[n] < i && n in Ids(lists[byService[n]])
    {
      assert lists[..i + 1][..i] == lists[..i];
      var steps := waves[i].steps;
      for k := 0 to |steps|
        invariant forall n :: n in byService <==> n in Done(lists[..i]) || n in Ids(steps[..k])
        invariant forall n :: n in byService ==> byService[n] <= i && n in Ids(lists[byService[n]])
      {
        assert steps[k] in steps && steps[..k + 1] == steps[..k] + [steps[k]];
        byService := byService[steps[k].id := waves[i].number];
      }
      assert steps[..|steps|] == steps;
    }
    assert lists[..|lists|] == lists;
  }

  // --- Assigning waves ---

  ghost predicate Assignable(run: ReleaseRun) {
    var flat := Flatten(run.info.plan.content.phases);
    && Schedulable(SchedulingSteps(flat, Services(run.steps)), DEFAULT_LIMITS)
    && Services(run.steps) <= PlannedServices(flat)
  }

  function WithWaves(steps: seq<ReleaseStep>, byService: map<string, nat>): (r: seq<ReleaseStep>)
    ensures |r| == |steps|
    ensures forall i :: 0 <= i < |r| ==> r[i] == steps[i].(wave := WaveNumber(byService, steps[i].spec.service))
  {
    seq(|steps|, i requires 0 <= i < |steps| => steps[i].(wave := WaveNumber(byService, steps[i].spec.service)))
  }

  /** Waves that are safe for the run's plan, and the number of each service's wave. */
  ghost predicate SafelyNumbered(run: ReleaseRun, byService: map<string, nat>) {
    exists waves ::
      && Load(SchedulingSteps(Flatten(run.info.plan.content.phases), Services(run.steps))).Success?
      && SafeWaves(KeysFor, DEFAULT_LIMITS,
                   Load(SchedulingSteps(Flatten(run.info.plan.content.phases), Services(run.steps))).value, waves)
      && Numbers(waves, byService) && NumbersWaves(waves, byService)
  }

  method PlanWaves(run: ReleaseRun) returns (r: Option<map<string, nat>>)
    ensures r.Some? <==>
              Schedulable(SchedulingSteps(Flatten(run.info.plan.content.phases), Services(run.steps)), DEFAULT_LIMITS)
    ensures r.Some? ==> SafelyNumbered(run, r.value)
  {
    var scheduling := SchedulingSteps(Flatten(run.info.plan.content.phases), Services(run.steps));
    var built := BuildWaves(scheduling, DEFAULT_LIMITS);
    if built.Failure? {
      return None;
    }
    ghost var waves :| built.value == Numbered(waves)
                       && SafeWaves(KeysFor, DEFAULT_LIMITS, Load(scheduling).value, waves);
    var byService := NumberServices(built.value, waves);
    return Some(byService);
  }

  method ApplyWaves(steps0: seq<ReleaseStep>, planned: set<string>, byService: map<string, nat>)
      returns (r: Option<seq<ReleaseStep>>)
    ensures r.Some? <==> Services(steps0) <= planned
    ensures r.Some? ==> r.value == WithWaves(steps0, byService)
  {
    var steps := steps0;
    for i := 0 to |steps0|
      invariant |steps| == |steps0|
      invariant forall k :: 0 <= k < i ==> steps0[k].spec.service in planned
      invariant forall k :: 0 <= k < i ==> steps[k] == WithWaves(steps0, byService)[k]
      invariant forall k :: i <= k < |steps| ==> steps[k] == steps0[k]
    {
      if steps0[i].spec.service !in planned {
        assert steps0[i] in steps0;
        return None;
      }
      steps := steps[i := steps[i].(wave := WaveNumber(byService, steps[i].spec.service))];
    }
    assert steps == WithWaves(steps0, byService);
    return Some(steps);
  }

  /** Only the waves of the steps change; assignment fails exactly on a run that is not assignable. */
  method AssignWaves(run: ReleaseRun) returns (r: Option<ReleaseRun>, byService: map<string, nat>)
    ensures r.Some? <==> Assignable(run)
    ensures r.Some? ==> r.value == run.(steps := WithWaves(run.steps, byService)) && SafelyNumbered(run, byService)
  {
    var waves := PlanWaves(run);
    if waves.None? {
      return None, map[];
    }
    byService := waves.value;
    var steps := ApplyWaves(run.steps, PlannedServices(Flatten(run.info.plan.content.phases)), byService);
    if steps.None? {
      return None, byService;
    }
    r := Some(run.(steps := steps.value));
  }
}
