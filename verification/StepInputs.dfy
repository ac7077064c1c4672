/** What the workflow reads off the plan before it works on a step: whether the step's
    dependencies are met, and the reservation it asks for. */
module StepInputs {
  import opened Order
  import opened Domain
  import opened Phasing
  import opened Plan
  import opened Release
  import opened Budget
  import opened WaveAssignment

  // --- Dependencies ---

  ghost predicate MetBy(p: PlanStep, selected: set<string>, succeeded: set<string>) {
    forall d :: d in Kept(p.dependencies, Selected(selected)) ==> d in succeeded
  }

  /** Every selected service that orders `service` in the plan has succeeded. */
  ghost predicate Met(flat: seq<PlanStep>, service: string, selected: set<string>, succeeded: set<string>) {
    forall p :: p in flat && p.service == service ==> MetBy(p, selected, succeeded)
  }

  /** The first name that has not succeeded, or none. */
  function FirstMissing(names: seq<string>, succeeded: set<string>): string {
    if names == [] then ""
    else
      var earlier := FirstMissing(names[..|names| - 1], succeeded);
      if earlier != "" then earlier
      else if names[|names| - 1] !in succeeded then names[|names| - 1] else ""
  }

  /** The first ordering dependency of `service` in the plan that is selected and has not succeeded, or none. */
  function Unmet(flat: seq<PlanStep>, service: string, selected: set<string>, succeeded: set<string>): string {
    if flat == [] then ""
    else
      var earlier, p := Unmet(flat[..|flat| - 1], service, selected, succeeded), flat[|flat| - 1];
      if earlier != "" then earlier
      else if p.service == service then FirstMissing(Kept(p.dependencies, Selected(selected)), succeeded) else ""
  }

  lemma {:induction false} MissingIff(names: seq<string>, succeeded: set<string>)
    requires "" !in names
    ensures FirstMissing(names, succeeded) == "" <==> forall d :: d in names ==> d in succeeded
    ensures var r := FirstMissing(names, succeeded); r != "" ==> r in names && r !in succeeded
  {
    if names != [] {
      assert names == names[..|names| - 1] + [names[|names| - 1]];
      MissingIff(names[..|names| - 1], succeeded);
    }
  }

  lemma KeptAreNamed(deps: seq<Dependency>, selected: set<string>)
    ensures "" !in Kept(deps, Selected(selected))
    ensures forall d :: d in Kept(deps, Selected(selected)) ==> d in selected
  {
    forall d ensures d in Kept(deps, Selected(selected)) ==> d != "" && d in selected {
      KeptMembers(deps, Selected(selected), d);
    }
  }

  /** Nothing is unmet exactly when every selected dependency has succeeded; otherwise the answer is one of the
      step's own dependencies that is selected and has not. */
  lemma {:induction false} UnmetIff(flat: seq<PlanStep>, service: string, selected: set<string>, succeeded: set<string>)
    ensures Unmet(flat, service, selected, succeeded) == "" <==> Met(flat, service, selected, succeeded)
    ensures var r := Unmet(flat, service, selected, succeeded);
            r != "" ==>
              && r in selected && r !in succeeded
              && exists p :: p in flat && p.service == service && r in Kept(p.dependencies, Selected(selected))
  {
    if flat != [] {
      var init, p := flat[..|flat| - 1], flat[|flat| - 1];
      assert flat == init + [p];
      UnmetIff(init, service, selected, succeeded);
      KeptAreNamed(p.dependencies, selected);
      MissingIff(Kept(p.dependencies, Selected(selected)), succeeded);
      assert Met(flat, service, selected, succeeded) <==>
             Met(init, service, selected, succeeded) && (p.service == service ==> MetBy(p, selected, succeeded));
    }
  }

  lemma {:induction false} MissingPrefix(names: seq<string>, more: seq<string>, succeeded: set<string>)
    requires FirstMissing(names, succeeded) != ""
    ensures FirstMissing(names + more, succeeded) == FirstMissing(names, succeeded)
  {
    if more == [] {
      assert names + more == names;
    } else {
      assert (names + more)[..|names + more| - 1] == names + more[..|more| - 1];
      MissingPrefix(names, more[..|more| - 1], succeeded);
    }
  }

  lemma {:induction false} UnmetPrefix(flat: seq<PlanStep>, more: seq<PlanStep>, service: string, selected: set<string>,
                                       succeeded: set<string>)
    requires Unmet(flat, service, selected, succeeded) != ""
    ensures Unmet(flat + more, service, selected, succeeded) == Unmet(flat, service, selected, succeeded)
  {
    if more == [] {
      assert flat + more == flat;
    } else {
      assert (flat + more)[..|flat + more| - 1] == flat + more[..|more| - 1];
      UnmetPrefix(flat, more[..|more| - 1], service, selected, succeeded);
    }
  }

  lemma {:induction false} KeptPrefix(deps: seq<Dependency>, i: nat, keep: Dependency -> bool)
      returns (more: seq<string>)
    requires i <= |deps|
    ensures Kept(deps, keep) == Kept(deps[..i], keep) + more
    decreases |deps|
  {
    if i == |deps| {
      assert deps[..i] == deps;
      more := [];
    } else {
      assert deps[..|deps| - 1][..i] == deps[..i];
      var earlier := KeptPrefix(deps[..|deps| - 1], i, keep);
      more := earlier + if keep(deps[|deps| - 1]) then [deps[|deps| - 1].service] else [];
    }
  }

  method UnmetOf(p: PlanStep, selected: set<string>, succeeded: set<string>) returns (r: string)
    ensures r == FirstMissing(Kept(p.dependencies, Selected(selected)), succeeded)
  {
    var keep := Selected(selected);
    for i := 0 to |p.dependencies|
      invariant FirstMissing(Kept(p.dependencies[..i], keep), succeeded) == ""
    {
      KeptStep(p.dependencies, keep, i);
      var d := p.dependencies[i];
      if keep(d) && d.service !in succeeded {
        ghost var more := KeptPrefix(p.dependencies, i + 1, keep);
        MissingHere(Kept(p.dependencies[..i], keep), d.service, succeeded);
        MissingPrefix(Kept(p.dependencies[..i + 1], keep), more, succeeded);
        return d.service;
      }
      if keep(d) {
        MissingHere(Kept(p.dependencies[..i], keep), d.service, succeeded);
      } else {
        assert Kept(p.dependencies[..i + 1], keep) == Kept(p.dependencies[..i], keep);
      }
    }
    assert p.dependencies[..|p.dependencies|] == p.dependencies;
    return "";
  }

  lemma MissingHere(names: seq<string>, d: string, succeeded: set<string>)
    requires FirstMissing(names, succeeded) == ""
    ensures FirstMissing(names + [d], succeeded) == if d in succeeded then "" else d
  {
    assert (names + [d])[..|names|] == names;
  }

  lemma UnmetHere(flat: seq<PlanStep>, p: PlanStep, service: string, selected: set<string>, succeeded: set<string>)
    requires Unmet(flat, service, selected, succeeded) == ""
    ensures Unmet(flat + [p], service, selected, succeeded) ==
            if p.service == service then FirstMissing(Kept(p.dependencies, Selected(selected)), succeeded) else ""
  {
    assert (flat + [p])[..|flat|] == flat;
  }

  lemma UnmetAt(before: seq<PlanStep>, steps: seq<PlanStep>, k: nat, service: string, selected: set<string>,
                succeeded: set<string>)
    requires k < |steps| && Unmet(before + steps[..k], service, selected, succeeded) == ""
    ensures var here := if steps[k].service == service
                        then FirstMissing(Kept(steps[k].dependencies, Selected(selected)), succeeded) else "";
            && Unmet(before + steps[..k + 1], service, selected, succeeded) == here
            && (here != "" ==> Unmet(before + steps, service, selected, succeeded) == here)
  {
    Regroup(before, steps, k);
    UnmetHere(before + steps[..k], steps[k], service, selected, succeeded);
    if Unmet(before + steps[..k + 1], service, selected, succeeded) != "" {
      UnmetPrefix(before + steps[..k + 1], steps[k + 1..], service, selected, succeeded);
    }
  }

  method UnmetInPhase(ghost before: seq<PlanStep>, steps: seq<PlanStep>, service: string, selected: set<string>,
                      succeeded: set<string>)
      returns (r: string)
    requires Unmet(before, service, selected, succeeded) == ""
    ensures r == Unmet(before + steps, service, selected, succeeded)
  {
    assert before + steps[..0] == before;
    for k := 0 to |steps|
      invariant Unmet(before + steps[..k], service, selected, succeeded) == ""
    {
      UnmetAt(before, steps, k, service, selected, succeeded);
      if steps[k].service == service {
        r := UnmetOf(steps[k], selected, succeeded);
        if r != "" {
          return;
        }
      }
    }
    assert steps[..|steps|] == steps;
    return "";
  }

  /** The loop that looks for an unmet dependency; an empty answer means that the step may go ahead. */
  method UnmetDependency(phases: seq<PlanPhase>, service: string, selected: set<string>, succeeded: set<string>)
      returns (r: string)
    ensures r == Unmet(Flatten(phases), service, selected, succeeded)
    ensures r == "" <==> Met(Flatten(phases), service, selected, succeeded)
    ensures r != "" ==>
              && r in selected && r !in succeeded
              && exists p :: p in Flatten(phases) && p.service == service
                             && r in Kept(p.dependencies, Selected(selected))
  {
    UnmetIff(Flatten(phases), service, selected, succeeded);
    for i := 0 to |phases|
      invariant Unmet(Flatten(phases[..i]), service, selected, succeeded) == ""
    {
      assert phases[..i + 1][..i] == phases[..i];
      r := UnmetInPhase(Flatten(phases[..i]), phases[i].steps, service, selected, succeeded);
      if r != "" {
        ghost var more := FlattenPrefix(phases, i + 1);
        UnmetPrefix(Flatten(phases[..i + 1]), more, service, selected, succeeded);
        return;
      }
    }
    assert phases[..|phases|] == phases;
    return "";
  }

  // --- Reservations ---

  function FirstPlanned(flat: seq<PlanStep>, service: string): (r: Option<PlanStep>)
    ensures r.None? <==> forall p :: p in flat ==> p.service != service
    ensures r.Some? ==> r.value in flat && r.value.service == service
  {
    if flat == [] then None
    else
      var earlier := FirstPlanned(flat[..|flat| - 1], service);
      assert flat == flat[..|flat| - 1] + [flat[|flat| - 1]];
      if earlier.Some? then earlier
      else if flat[|flat| - 1].service == service then Some(flat[|flat| - 1])
      else None
  }

  function PlannedReservation(p: PlanStep): Step {
    Step(p.service, p.phase, p.scheduling.tenantID, p.scheduling.environment, p.scheduling.region, p.scheduling.cluster,
         p.scheduling.team, p.scheduling.riskTier, p.scheduling.runnerGroup, p.scheduling.failureDomains,
         Kept(p.dependencies, Orders))
  }

  function BareReservation(info: RunInfo, spec: StepSpec): Step {
    Step(spec.service, spec.phase, info.tenantID, info.environment, info.region, info.cluster, "", "", "", [], [])
  }

  /** The reservation for a step, under the step's own name. */
  function Reservation(info: RunInfo, spec: StepSpec): (r: Step)
    ensures r.id == spec.service
  {
    match FirstPlanned(Flatten(info.plan.content.phases), spec.service)
    case Some(p) => PlannedReservation(p)
    case None => BareReservation(info, spec)
  }

  lemma {:induction false} FirstPlannedPrefix(flat: seq<PlanStep>, more: seq<PlanStep>, service: string)
    requires FirstPlanned(flat, service).Some?
    ensures FirstPlanned(flat + more, service) == FirstPlanned(flat, service)
  {
    if more == [] {
      assert flat + more == flat;
    } else {
      var init := more[..|more| - 1];
      assert (flat + more)[..|flat + more| - 1] == flat + init;
      FirstPlannedPrefix(flat, init, service);
    }
  }

  lemma {:induction false} FlattenPrefix(phases: seq<PlanPhase>, i: nat) returns (more: seq<PlanStep>)
    requires i <= |phases|
    ensures Flatten(phases) == Flatten(phases[..i]) + more
    decreases |phases|
  {
    if i == |phases| {
      assert phases[..i] == phases;
      more := [];
    } else {
      var init := phases[..|phases| - 1];
      assert init[..i] == phases[..i];
      var earlier := FlattenPrefix(init, i);
      more := earlier + phases[|phases| - 1].steps;
    }
  }

  lemma NotPlanned(a: seq<PlanStep>, b: seq<PlanStep>, service: string)
    requires FirstPlanned(a, service).None? && FirstPlanned(b, service).None?
    ensures FirstPlanned(a + b, service).None?
  {
  }

  lemma FoundLast(flat: seq<PlanStep>, p: PlanStep, service: string)
    requires FirstPlanned(flat, service).None? && p.service == service
    ensures FirstPlanned(flat + [p], service) == Some(p)
  {
    assert (flat + [p])[..|flat|] == flat;
  }

  lemma {:induction false} FoundWithin(before: seq<PlanStep>, steps: seq<PlanStep>, k: nat, service: string)
    requires k < |steps| && FirstPlanned(before, service).None? && FirstPlanned(steps[..k], service).None?
    requires steps[k].service == service
    ensures FirstPlanned(before + steps, service) == Some(steps[k])
  {
    Regroup(before, steps, k);
    NotPlanned(before, steps[..k], service);
    FoundLast(before + steps[..k], steps[k], service);
    FirstPlannedPrefix(before + steps[..k + 1], steps[k + 1..], service);
  }

  lemma FoundHere(phases: seq<PlanPhase>, i: nat, k: nat, service: string)
    requires i < |phases| && k < |phases[i].steps| && phases[i].steps[k].service == service
    requires FirstPlanned(Flatten(phases[..i]), service).None? && FirstPlanned(phases[i].steps[..k], service).None?
    ensures FirstPlanned(Flatten(phases), service) == Some(phases[i].steps[k])
  {
    var before := Flatten(phases[..i]);
    FoundWithin(before, phases[i].steps, k, service);
    assert phases[..i + 1][..i] == phases[..i];
    var more := FlattenPrefix(phases, i + 1);
    FirstPlannedPrefix(before + phases[i].steps, more, service);
  }

  method FindInPhase(steps: seq<PlanStep>, service: string) returns (k: nat)
    ensures k <= |steps| && FirstPlanned(steps[..k], service).None?
    ensures k < |steps| ==> steps[k].service == service
  {
    k := 0;
    while k < |steps|
      invariant k <= |steps| && FirstPlanned(steps[..k], service).None?
    {
      if steps[k].service == service {
        return;
      }
      assert steps[..k + 1][..k] == steps[..k];
      k := k + 1;
    }
  }

  /** The loop that looks the step up in the plan. */
  method SchedulingStepFor(info: RunInfo, spec: StepSpec) returns (r: Step)
    ensures r == Reservation(info, spec)
  {
    var phases := info.plan.content.phases;
    for i := 0 to |phases|
      invariant FirstPlanned(Flatten(phases[..i]), spec.service).None?
    {
      assert phases[..i + 1][..i] == phases[..i];
      var steps := phases[i].steps;
      var k := FindInPhase(steps, spec.service);
      if k < |steps| {
        FoundHere(phases, i, k, spec.service);
        return PlannedReservation(steps[k]);
      }
      assert steps[..k] == steps;
    }
    assert phases[..|phases|] == phases;
    return BareReservation(info, spec);
  }

  /** A step reserves exactly the budget keys it was given a wave for. */
  lemma ReservesPlannedKeys(info: RunInfo, spec: StepSpec, p: PlanStep, selected: set<string>)
    requires FirstPlanned(Flatten(info.plan.content.phases), spec.service) == Some(p)
    ensures KeysFor(Reservation(info, spec)) == KeysFor(SchedulingStep(p, selected))
  {
    var a, b := PlannedReservation(p), SchedulingStep(p, selected);
    var x, y := KeysFor(a), KeysFor(b);
    assert |x| == |y|;
    assert forall i :: 0 <= i < |x| ==> x[i] == y[i];
  }
}
