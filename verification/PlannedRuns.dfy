/** Runs of plans that the planner made: they always get their waves, and no step of
    theirs ever waits for a dependency that comes later. */
module PlannedRuns {
  import opened Order
  import opened OrderingGraph
  import opened Domain
  import opened Phasing
  import opened Plan
  import opened P = Planner
  import opened Release
  import opened Budget
  import opened Waves
  import opened WaveBuilder
  import opened WaveAssignment
  import opened WorkflowLog
  import opened StepInputs
  import opened WorkflowFlow
  import opened Workflow

  // --- What the planner promises about its list of steps ---

  ghost predicate Earlier(flat: seq<PlanStep>, i: nat, d: string)
    requires i < |flat|
  {
    exists j :: 0 <= j < i && flat[j].service == d && flat[j].phase < flat[i].phase
  }

  ghost predicate DependsOn(flat: seq<PlanStep>, i: nat, d: string)
    requires i < |flat|
  {
    d in Kept(flat[i].dependencies, Selected(PlannedServices(flat)))
  }

  /** Named, distinct services, each after the planned services that order it and in a higher phase. */
  ghost predicate WellOrdered(flat: seq<PlanStep>) {
    && (forall i :: 0 <= i < |flat| ==> flat[i].service != "")
    && (forall i, j :: 0 <= i < j < |flat| ==> flat[i].service != flat[j].service)
    && (forall i, d :: 0 <= i < |flat| && DependsOn(flat, i, d) ==> Earlier(flat, i, d))
  }

  lemma ListedOnce(flat: seq<PlanStep>, steps: map<string, PlanStep>)
    requires Ascending(ReleaseLess, flat) && forall n :: n in steps ==> steps[n].service == n
    requires forall s :: s in flat <==> s.service in steps && steps[s.service] == s
    ensures PlannedServices(flat) == steps.Keys
    ensures forall i, j :: 0 <= i < j < |flat| ==> flat[i].service != flat[j].service
  {
    forall n | n in steps ensures n in PlannedServices(flat) {
      assert steps[n] in flat;
    }
    forall i, j | 0 <= i < j < |flat| ensures flat[i].service != flat[j].service {
      assert flat[i] in flat && flat[j] in flat && ReleaseLess(flat[i], flat[j]);
      LessIsTotal();
    }
  }

  lemma PlannedServicesAreChanges(p: P.Planner, h: Hasher, intent: Intent, phases: seq<PlanPhase>)
    requires PlannedPhases(p, h, intent, phases)
    ensures PlannedServices(Flatten(phases)) == P.Services(intent.changes) <= p.definitions.Keys
    ensures forall i, j :: 0 <= i < j < |Flatten(phases)| ==>
              Flatten(phases)[i].service != Flatten(phases)[j].service
  {
    var changes, phase :| PlannedWith(p, h, intent, phases, changes, phase);
    var steps := StepsFor(p, h, intent, changes, phase);
    LayoutFlattens(phases, steps);
    assert steps.Keys == changes.Keys;
    ListedOnce(Flatten(phases), steps);
  }

  lemma PlannedIsWellOrdered(p: P.Planner, h: Hasher, intent: Intent, phases: seq<PlanPhase>)
    requires PlannedPhases(p, h, intent, phases) && "" !in p.definitions
    ensures WellOrdered(Flatten(phases))
  {
    var flat := Flatten(phases);
    PlannedServicesAreChanges(p, h, intent, phases);
    forall i | 0 <= i < |flat| ensures flat[i].service != "" {
      assert flat[i] in flat;
    }
    forall i, d | 0 <= i < |flat| && DependsOn(flat, i, d) ensures Earlier(flat, i, d) {
      KeptMembers(flat[i].dependencies, Selected(PlannedServices(flat)), d);
      var dep :| dep in flat[i].dependencies && Orders(dep) && dep.service in PlannedServices(flat) && dep.service == d;
      DependenciesComeFirst(p, h, intent, phases, i, dep);
    }
  }

  // --- Waves ---

  lemma ClonedDependency(s: Step, d: string)
    ensures d in CloneStep(s).dependencies <==> d in s.dependencies
  {
    SameMultisetSameMembers(CloneStep(s).dependencies, s.dependencies);
  }

  lemma RankedAt(flat: seq<PlanStep>, m: map<string, Step>, i: nat, d: string)
    requires WellOrdered(flat) && ById(SchedulingSteps(flat, PlannedServices(flat)), m) && i < |flat|
    requires d in m[SchedulingSteps(flat, PlannedServices(flat))[i].id].dependencies
    ensures LowerPhase(m, d, flat[i].service)
  {
    var steps := SchedulingSteps(flat, PlannedServices(flat));
    ClonedDependency(steps[i], d);
    assert DependsOn(flat, i, d);
    var j :| 0 <= j < i && flat[j].service == d && flat[j].phase < flat[i].phase;
    assert m[steps[j].id] == CloneStep(steps[j]);
  }

  lemma SchedulingIsRanked(flat: seq<PlanStep>, m: map<string, Step>)
    requires WellOrdered(flat) && ById(SchedulingSteps(flat, PlannedServices(flat)), m)
    ensures PhasesRespectDependencies(m)
  {
    var steps := SchedulingSteps(flat, PlannedServices(flat));
    forall n, d | n in m && d in m[n].dependencies ensures LowerPhase(m, d, n) {
      var i :| 0 <= i < |steps| && steps[i].id == n;
      RankedAt(flat, m, i, d);
    }
  }

  lemma PhasesRank(m: map<string, Step>)
    requires PhasesRespectDependencies(m)
    ensures OrderingGraph.Closed(DependencyGraph(m)) && !Cyclic(DependencyGraph(m))
  {
    var rank := map n | n in m :: m[n].phase;
    forall n, d | n in m && d in m[n].dependencies ensures Below(rank, d, n) {
      assert LowerPhase(m, d, n);
    }
    RankedDependencies(m, rank);
  }

  /** Positive limits always admit a well-ordered list. */
  lemma WellOrderedIsSchedulable(flat: seq<PlanStep>)
    requires WellOrdered(flat)
    ensures Schedulable(SchedulingSteps(flat, PlannedServices(flat)), DEFAULT_LIMITS)
  {
    var steps := SchedulingSteps(flat, PlannedServices(flat));
    assert Identified(steps);
    LoadIff(steps);
    var m := Load(steps).value;
    SchedulingIsRanked(flat, m);
    PhasesRank(m);
  }

  // --- Runs ---

  /** A new run of a plan for `intent`. */
  ghost predicate RunOf(p: P.Planner, h: Hasher, intent: Intent, run: ReleaseRun) {
    && PlannedPhases(p, h, intent, run.info.plan.content.phases)
    && exists changes :: run.steps == NewSteps(Placed(run.info.plan.content.phases), changes)
  }

  lemma PlannedIsPlaced(p: P.Planner, h: Hasher, intent: Intent, phases: seq<PlanPhase>)
    requires PlannedPhases(p, h, intent, phases)
    ensures Placed(phases) == Flatten(phases)
  {
    var changes, phase :| PlannedWith(p, h, intent, phases, changes, phase);
    var steps := StepsFor(p, h, intent, changes, phase);
    forall i, s | 0 <= i < |phases| && s in phases[i].steps ensures s.phase == phases[i].number {
      assert InPhase(steps, phases[i].number, s);
    }
    PlacedIsFlat(phases);
  }

  lemma NewServices(flat: seq<PlanStep>, changes: map<string, Change>)
    ensures WaveAssignment.Services(NewSteps(flat, changes)) == PlannedServices(flat)
  {
    var steps := NewSteps(flat, changes);
    forall p | p in flat ensures p.service in WaveAssignment.Services(steps) {
      var i :| 0 <= i < |flat| && flat[i] == p;
      assert steps[i] in steps;
    }
    forall s | s in steps ensures s.spec.service in PlannedServices(flat) {
      var i :| 0 <= i < |steps| && steps[i] == s;
      assert flat[i] in flat;
    }
  }

  /** The workflow of a planned run never fails to assign waves. */
  lemma PlannedIsAssignable(p: P.Planner, h: Hasher, intent: Intent, run: ReleaseRun)
    requires RunOf(p, h, intent, run) && "" !in p.definitions
    ensures Assignable(run) && Fresh(run)
  {
    var flat := Flatten(run.info.plan.content.phases);
    PlannedIsPlaced(p, h, intent, run.info.plan.content.phases);
    var changes :| run.steps == NewSteps(flat, changes);
    PlannedIsWellOrdered(p, h, intent, run.info.plan.content.phases);
    WellOrderedIsSchedulable(flat);
    NewServices(flat, changes);
  }

  lemma EarlierIsAvailable(flat: seq<PlanStep>, changes: map<string, Change>, run: ReleaseRun, k: nat, d: string)
    requires k < |flat| && run.steps == NewSteps(flat, changes) && Earlier(flat, k, d)
    ensures d in AvailableAt(run, k)
  {
    var j :| 0 <= j < k && flat[j].service == d && flat[j].phase < flat[k].phase;
    assert run.steps[..k][j] == run.steps[j] && run.steps[j] in run.steps[..k];
  }

  lemma OrderedIsMet(flat: seq<PlanStep>, changes: map<string, Change>, run: ReleaseRun, k: nat)
    requires WellOrdered(flat) && k < |flat| && run.steps == NewSteps(flat, changes)
    ensures Met(flat, flat[k].service, PlannedServices(flat), AvailableAt(run, k))
  {
    forall q | q in flat && q.service == flat[k].service
      ensures MetBy(q, PlannedServices(flat), AvailableAt(run, k))
    {
      var i :| 0 <= i < |flat| && flat[i] == q;
      assert i == k;
      forall d | d in Kept(q.dependencies, Selected(PlannedServices(flat))) ensures d in AvailableAt(run, k) {
        assert DependsOn(flat, k, d);
        EarlierIsAvailable(flat, changes, run, k, d);
      }
    }
  }

  /** Every step of a planned run finds its dependencies met when its turn comes. */
  lemma PlannedIsReady(p: P.Planner, h: Hasher, intent: Intent, run: ReleaseRun, k: nat)
    requires RunOf(p, h, intent, run) && "" !in p.definitions && k < |run.steps|
    ensures Ready(run, k)
  {
    var flat := Flatten(run.info.plan.content.phases);
    PlannedIsPlaced(p, h, intent, run.info.plan.content.phases);
    var changes :| run.steps == NewSteps(flat, changes);
    PlannedIsWellOrdered(p, h, intent, run.info.plan.content.phases);
    NewServices(flat, changes);
    OrderedIsMet(flat, changes, run, k);
  }

  /** With that, nothing but its signals, policy, scheduler and deployments can keep a planned run from succeeding. */
  lemma PlannedIsAllReady(p: P.Planner, h: Hasher, intent: Intent, run: ReleaseRun)
    requires RunOf(p, h, intent, run) && "" !in p.definitions
    ensures AllReady(run)
  {
    forall k | 0 <= k < |run.steps| ensures Ready(run, k) {
      PlannedIsReady(p, h, intent, run, k);
    }
  }

  /** So no planned run is ever blocked on a dependency: a step that stopped it was evaluated. */
  lemma NeverBlockedOnDependency(p: P.Planner, h: Hasher, intent: Intent, run: ReleaseRun, r: ReleaseRun,
                                 traces: seq<Trace>)
    requires RunOf(p, h, intent, run) && "" !in p.definitions && Stopped(run, r, traces)
    ensures traces[|traces| - 1].clear != []
  {
    PlannedIsReady(p, h, intent, run, |traces| - 1);
  }

  /** The wave numbers of a planned run: dependencies in strictly earlier waves, lower phases too. */
  ghost predicate WavesFollow(flat: seq<PlanStep>, byService: map<string, nat>) {
    && (forall i, j :: 0 <= i < |flat| && 0 <= j < |flat| && flat[i].phase < flat[j].phase ==>
          WaveNumber(byService, flat[i].service) < WaveNumber(byService, flat[j].service))
    && (forall i, d :: 0 <= i < |flat| && DependsOn(flat, i, d) ==>
          WaveNumber(byService, d) < WaveNumber(byService, flat[i].service))
  }

  lemma WavePhase(keys: Keying, l: Limits, pending: map<string, Step>, waves: seq<seq<Step>>, i: nat, n: string)
    requires SafeWaves(keys, l, pending, waves) && Waves.Keyed(pending) && i < |waves| && n in Ids(waves[i])
    ensures waves[i] != [] && n in pending && pending[n].phase == waves[i][0].phase
  {
    var s :| s in waves[i] && s.id == n;
    assert SafeWave(keys, l, pending - Waves.Done(waves[..i]), Waves.Done(waves[..i]), waves[i]);
    assert IsReady(pending - Waves.Done(waves[..i]), Waves.Done(waves[..i]), s);
  }

  lemma LowerPhaseEarlierWave(keys: Keying, l: Limits, pending: map<string, Step>, waves: seq<seq<Step>>,
                              a: string, i: nat, b: string, j: nat)
    requires SafeWaves(keys, l, pending, waves) && Waves.Keyed(pending) && PhasesRespectDependencies(pending)
    requires i < |waves| && a in Ids(waves[i]) && j < |waves| && b in Ids(waves[j])
    requires a in pending && b in pending && pending[a].phase < pending[b].phase
    ensures i < j
  {
    WavePhase(keys, l, pending, waves, i, a);
    WavePhase(keys, l, pending, waves, j, b);
    if j < i {
      WavePhasesAscend(keys, l, pending, waves, j, i);
    }
  }

  lemma WavesFollowPhases(keys: Keying, l: Limits, flat: seq<PlanStep>, m: map<string, Step>, waves: seq<seq<Step>>,
                          byService: map<string, nat>, i: nat, j: nat)
    requires WellOrdered(flat) && ById(SchedulingSteps(flat, PlannedServices(flat)), m) && Waves.Keyed(m)
    requires SafeWaves(keys, l, m, waves) && WaveAssignment.Numbers(waves, byService) && NumbersWaves(waves, byService)
    requires i < |flat| && j < |flat| && flat[i].phase < flat[j].phase
    ensures WaveNumber(byService, flat[i].service) < WaveNumber(byService, flat[j].service)
  {
    var steps := SchedulingSteps(flat, PlannedServices(flat));
    SchedulingIsRanked(flat, m);
    var a, b := flat[i].service, flat[j].service;
    assert steps[i].id == a && steps[j].id == b;
    assert m[a] == CloneStep(steps[i]) && m[b] == CloneStep(steps[j]);
    assert a in byService && b in byService;
    LowerPhaseEarlierWave(keys, l, m, waves, a, byService[a], b, byService[b]);
  }

  lemma WavesFollowAll(keys: Keying, l: Limits, flat: seq<PlanStep>, m: map<string, Step>, waves: seq<seq<Step>>,
                       byService: map<string, nat>)
    requires WellOrdered(flat) && ById(SchedulingSteps(flat, PlannedServices(flat)), m) && Waves.Keyed(m)
    requires SafeWaves(keys, l, m, waves) && WaveAssignment.Numbers(waves, byService) && NumbersWaves(waves, byService)
    ensures WavesFollow(flat, byService)
  {
    forall i, j | 0 <= i < |flat| && 0 <= j < |flat| && flat[i].phase < flat[j].phase
      ensures WaveNumber(byService, flat[i].service) < WaveNumber(byService, flat[j].service)
    {
      WavesFollowPhases(keys, l, flat, m, waves, byService, i, j);
    }
    forall i, d | 0 <= i < |flat| && DependsOn(flat, i, d)
      ensures WaveNumber(byService, d) < WaveNumber(byService, flat[i].service)
    {
      var j :| 0 <= j < i && flat[j].service == d && flat[j].phase < flat[i].phase;
      WavesFollowPhases(keys, l, flat, m, waves, byService, j, i);
    }
  }

  /** Safe numbering of a planned run follows phases and dependencies. */
  lemma PlannedWavesFollow(p: P.Planner, h: Hasher, intent: Intent, run: ReleaseRun, byService: map<string, nat>)
    requires RunOf(p, h, intent, run) && "" !in p.definitions && SafelyNumbered(run, byService)
    ensures WavesFollow(Flatten(run.info.plan.content.phases), byService)
  {
    var flat := Flatten(run.info.plan.content.phases);
    PlannedIsPlaced(p, h, intent, run.info.plan.content.phases);
    var changes :| run.steps == NewSteps(flat, changes);
    NewServices(flat, changes);
    PlannedIsWellOrdered(p, h, intent, run.info.plan.content.phases);
    var steps := SchedulingSteps(flat, PlannedServices(flat));
    LoadIsKeyed(steps);
    LoadIff(steps);
    var m := Load(steps).value;
    var waves :| SafeWaves(KeysFor, DEFAULT_LIMITS, m, waves) && WaveAssignment.Numbers(waves, byService)
                 && NumbersWaves(waves, byService);
    WavesFollowAll(KeysFor, DEFAULT_LIMITS, flat, m, waves, byService);
  }
}
