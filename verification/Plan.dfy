/** Release plans: the steps of a plan grouped by phase, and the layout every
    plan has. */
module Plan {
  import opened Order
  import opened Domain

  datatype Scheduling = Scheduling(tenantID: string, environment: string, region: string, cluster: string,
                                   team: string, riskTier: string, runnerGroup: string, failureDomains: seq<string>)

  datatype PlanStep = PlanStep(
    service: string, desiredVersion: string, phase: int, profile: string, dependencies: seq<Dependency>,
    requiredCapabilities: seq<string>, contractHash: string, profileHash: string, changeHash: string,
    verificationRequired: bool, observationWindow: string, rollbackMode: string, scheduling: Scheduling)

  datatype PlanPhase = PlanPhase(number: int, steps: seq<PlanStep>)

  /** The part of a plan its hash covers. */
  datatype PlanContent = PlanContent(
    apiVersion: string, releaseVersion: string, environment: string, phases: seq<PlanPhase>,
    contractHashes: map<string, string>, profileHashes: map<string, string>, contextSnapshotRef: string,
    policyHash: string, evidenceHash: string)

  datatype ReleasePlan = ReleasePlan(id: string, content: PlanContent, hash: string, planHash: string, createdAt: int,
                                     expiresAt: int)

  predicate StepLess(a: PlanStep, b: PlanStep) { Less(a.service, b.service) }

  /** Execution order: by phase, then by service. */
  predicate ReleaseLess(a: PlanStep, b: PlanStep) {
    a.phase < b.phase || (a.phase == b.phase && Less(a.service, b.service))
  }

  lemma StepOrdersAreStrict()
    ensures StrictOrder(StepLess) && StrictOrder(ReleaseLess) && StrictOrder(IntLess)
  {
    LessIsTotal();
  }

  // --- Layout ---

  ghost predicate Keyed(steps: map<string, PlanStep>) {
    forall n :: n in steps ==> steps[n].service == n
  }

  ghost predicate InPhase(steps: map<string, PlanStep>, number: int, s: PlanStep) {
    s.service in steps && steps[s.service] == s && s.phase == number
  }

  /** The steps, grouped by phase: phases ascend, each is non-empty, holds exactly
      the steps of its number, and lists them by service. */
  ghost predicate IsLayout(phases: seq<PlanPhase>, steps: map<string, PlanStep>) {
    && (forall i, j :: 0 <= i < j < |phases| ==> phases[i].number < phases[j].number)
    && (forall i :: 0 <= i < |phases| ==> phases[i].steps != [] && Ascending(StepLess, phases[i].steps))
    && (forall i, s :: 0 <= i < |phases| ==> (s in phases[i].steps <==> InPhase(steps, phases[i].number, s)))
    && (forall n :: n in steps ==> exists i :: 0 <= i < |phases| && phases[i].number == steps[n].phase)
  }

  ghost function Numbers(phases: seq<PlanPhase>): (r: seq<int>)
    ensures |r| == |phases| && forall i :: 0 <= i < |r| ==> r[i] == phases[i].number
  {
    seq(|phases|, i requires 0 <= i < |phases| => phases[i].number)
  }

  lemma NumbersAreThePhases(phases: seq<PlanPhase>, steps: map<string, PlanStep>, x: int)
    requires IsLayout(phases, steps)
    ensures x in Numbers(phases) <==> exists n :: n in steps && steps[n].phase == x
  {
    if x in Numbers(phases) {
      var i :| 0 <= i < |phases| && phases[i].number == x;
      var s := phases[i].steps[0];
      assert s in phases[i].steps;
      assert s.service in steps && steps[s.service].phase == x;
    }
    if n :| n in steps && steps[n].phase == x {
      var i :| 0 <= i < |phases| && phases[i].number == x;
      assert Numbers(phases)[i] == x;
    }
  }

  lemma LayoutSteps(phases: seq<PlanPhase>, phases': seq<PlanPhase>, steps: map<string, PlanStep>, i: nat)
    requires IsLayout(phases, steps) && IsLayout(phases', steps)
    requires i < |phases| && i < |phases'| && phases[i].number == phases'[i].number
    ensures phases[i] == phases'[i]
  {
    StepOrdersAreStrict();
    forall s ensures s in phases[i].steps <==> s in phases'[i].steps {
      assert s in phases[i].steps <==> InPhase(steps, phases[i].number, s);
    }
    AscendingUnique(StepLess, phases[i].steps, phases'[i].steps);
  }

  /** A set of steps has one layout. */
  lemma LayoutUnique(phases: seq<PlanPhase>, phases': seq<PlanPhase>, steps: map<string, PlanStep>)
    requires IsLayout(phases, steps) && IsLayout(phases', steps)
    ensures phases == phases'
  {
    var a, b := Numbers(phases), Numbers(phases');
    forall x ensures x in a <==> x in b {
      NumbersAreThePhases(phases, steps, x);
      NumbersAreThePhases(phases', steps, x);
    }
    StepOrdersAreStrict();
    AscendingUnique(IntLess, a, b);
    forall i | 0 <= i < |phases| ensures phases[i] == phases'[i] {
      assert a[i] == b[i];
      LayoutSteps(phases, phases', steps, i);
    }
  }

  // --- Building the layout ---

  /** The list holds the steps of phase `x` among the services seen, each once. */
  ghost predicate Lists(steps: map<string, PlanStep>, seen: set<string>, x: int, list: seq<PlanStep>) {
    && (forall i, j :: 0 <= i < j < |list| ==> list[i].service != list[j].service)
    && (forall s :: s in list <==> s.service in seen && InPhase(steps, x, s))
  }

  lemma ListsGrow(steps: map<string, PlanStep>, seen: set<string>, list: seq<PlanStep>, name: string)
    requires Keyed(steps) && name in steps && name !in seen && Lists(steps, seen, steps[name].phase, list)
    ensures Lists(steps, seen + {name}, steps[name].phase, list + [steps[name]])
  {
    var x, more := steps[name].phase, list + [steps[name]];
    forall i | 0 <= i < |list| ensures list[i].service != name {
      assert list[i] in list;
    }
    forall s ensures s in more <==> s.service in seen + {name} && InPhase(steps, x, s) {
      assert s in more <==> s in list || s == steps[name];
    }
  }

  lemma ListsStay(steps: map<string, PlanStep>, seen: set<string>, x: int, list: seq<PlanStep>, name: string)
    requires Keyed(steps) && name in steps && steps[name].phase != x && Lists(steps, seen, x, list)
    ensures Lists(steps, seen + {name}, x, list)
  {
  }

  ghost predicate Grouped(steps: map<string, PlanStep>, seen: set<string>, byPhase: map<int, seq<PlanStep>>,
                          numbers: seq<int>) {
    && NoRepeats(numbers)
    && (forall x :: x in byPhase <==> x in numbers)
    && (forall x :: x in byPhase ==> byPhase[x] != [] && Lists(steps, seen, x, byPhase[x]))
    && (forall n :: n in seen && n in steps ==> steps[n].phase in byPhase)
  }

  lemma GroupOne(steps: map<string, PlanStep>, seen: set<string>, byPhase: map<int, seq<PlanStep>>, numbers: seq<int>,
                 name: string, byPhase': map<int, seq<PlanStep>>, numbers': seq<int>)
    requires Keyed(steps) && Grouped(steps, seen, byPhase, numbers) && name in steps && name !in seen
    requires numbers' == if steps[name].phase in byPhase then numbers else numbers + [steps[name].phase]
    requires var was := if steps[name].phase in byPhase then byPhase[steps[name].phase] else [];
             byPhase' == byPhase[steps[name].phase := was + [steps[name]]]
    ensures Grouped(steps, seen + {name}, byPhase', numbers')
  {
    var x := steps[name].phase;
    var was := if x in byPhase then byPhase[x] else [];
    assert Lists(steps, seen, x, was);
    ListsGrow(steps, seen, was, name);
    forall y | y in byPhase && y != x ensures Lists(steps, seen + {name}, y, byPhase[y]) {
      ListsStay(steps, seen, y, byPhase[y], name);
    }
  }

  method GroupByPhase(steps: map<string, PlanStep>) returns (byPhase: map<int, seq<PlanStep>>, numbers: seq<int>)
    requires Keyed(steps)
    ensures Grouped(steps, steps.Keys, byPhase, numbers)
  {
    byPhase, numbers := map[], [];
    var todo := steps.Keys;
    while todo != {}
      invariant todo <= steps.Keys && Grouped(steps, steps.Keys - todo, byPhase, numbers)
    {
      var name :| name in todo;
      var step := steps[name];
      ghost var byPhase0, numbers0 := byPhase, numbers;
      if step.phase !in byPhase {
        numbers := numbers + [step.phase];
      }
      byPhase := byPhase[step.phase := (if step.phase in byPhase then byPhase[step.phase] else []) + [step]];
      GroupOne(steps, steps.Keys - todo, byPhase0, numbers0, name, byPhase, numbers);
      assert steps.Keys - (todo - {name}) == steps.Keys - todo + {name};
      todo := todo - {name};
    }
    assert steps.Keys - todo == steps.Keys;
  }

  /** Exactly the steps of the phase, listed by service. */
  ghost predicate PhaseOk(steps: map<string, PlanStep>, p: PlanPhase) {
    p.steps != [] && Ascending(StepLess, p.steps) && forall s :: s in p.steps <==> InPhase(steps, p.number, s)
  }

  lemma GroupSorts(steps: map<string, PlanStep>, byPhase: map<int, seq<PlanStep>>, numbers: seq<int>, x: int)
    requires Grouped(steps, steps.Keys, byPhase, numbers) && x in byPhase
    ensures PhaseOk(steps, PlanPhase(x, Sort(StepLess, byPhase[x])))
  {
    StepOrdersAreStrict();
    LessIsTotal();
    forall a, b | a in byPhase[x] && b in byPhase[x] && a != b ensures StepLess(a, b) || StepLess(b, a) {
      assert a == steps[a.service] && b == steps[b.service];
    }
    SortAscends(StepLess, byPhase[x]);
  }

  /** The first phases are laid out. */
  ghost predicate Started(steps: map<string, PlanStep>, numbers: seq<int>, phases: seq<PlanPhase>) {
    && |phases| <= |numbers|
    && forall i :: 0 <= i < |phases| ==> phases[i].number == numbers[i] && PhaseOk(steps, phases[i])
  }

  lemma NextPhase(steps: map<string, PlanStep>, byPhase: map<int, seq<PlanStep>>, found: seq<int>, numbers: seq<int>,
                  phases: seq<PlanPhase>)
    requires Grouped(steps, steps.Keys, byPhase, found) && numbers == Sort(IntLess, found)
    requires Started(steps, numbers, phases) && |phases| < |numbers|
    ensures numbers[|phases|] in byPhase
    ensures var x := numbers[|phases|];
            Started(steps, numbers, phases + [PlanPhase(x, Sort(StepLess, byPhase[x]))])
  {
    assert numbers[|phases|] in found;
    GroupSorts(steps, byPhase, found, numbers[|phases|]);
  }

  lemma NumbersAscend(numbers: seq<int>)
    requires NoRepeats(numbers)
    ensures Ascending(IntLess, Sort(IntLess, numbers))
  {
    SortAscends(IntLess, numbers);
  }

  /** The grouping and sorting of a finished traversal. */
  method BuildPhases(steps: map<string, PlanStep>) returns (phases: seq<PlanPhase>)
    requires Keyed(steps)
    ensures IsLayout(phases, steps)
  {
    var byPhase, found := GroupByPhase(steps);
    NumbersAscend(found);
    var numbers := Sort(IntLess, found);
    phases := [];
    for k := 0 to |numbers|
      invariant |phases| == k && Started(steps, numbers, phases)
    {
      NextPhase(steps, byPhase, found, numbers, phases);
      phases := phases + [PlanPhase(numbers[k], Sort(StepLess, byPhase[numbers[k]]))];
    }
    LaidOut(phases, steps, byPhase, found, numbers);
  }

  lemma LaidOut(phases: seq<PlanPhase>, steps: map<string, PlanStep>, byPhase: map<int, seq<PlanStep>>,
                found: seq<int>, numbers: seq<int>)
    requires Grouped(steps, steps.Keys, byPhase, found) && numbers == Sort(IntLess, found)
    requires Ascending(IntLess, numbers) && |phases| == |numbers| && Started(steps, numbers, phases)
    ensures IsLayout(phases, steps)
  {
    forall n | n in steps ensures exists i :: 0 <= i < |phases| && phases[i].number == steps[n].phase {
      assert steps[n].phase in byPhase && steps[n].phase in numbers;
      var i :| 0 <= i < |numbers| && numbers[i] == steps[n].phase;
      assert phases[i].number == steps[n].phase;
    }
  }

  // --- Reading a plan in execution order ---

  function Flatten(phases: seq<PlanPhase>): seq<PlanStep> {
    if phases == [] then []
    else Flatten(phases[..|phases| - 1]) + phases[|phases| - 1].steps
  }

  lemma {:induction false} FlattenMembers(phases: seq<PlanPhase>, s: PlanStep)
    ensures s in Flatten(phases) <==> exists i :: 0 <= i < |phases| && s in phases[i].steps
  {
    if phases != [] {
      var init := phases[..|phases| - 1];
      FlattenMembers(init, s);
      assert phases == init + [phases[|phases| - 1]];
    }
  }

  /** Phases that ascend, each holding steps of its own number listed by service. */
  ghost predicate Orderly(phases: seq<PlanPhase>) {
    && (forall i, j :: 0 <= i < j < |phases| ==> phases[i].number < phases[j].number)
    && (forall i :: 0 <= i < |phases| ==> Ascending(StepLess, phases[i].steps))
    && (forall i, s :: 0 <= i < |phases| && s in phases[i].steps ==> s.phase == phases[i].number)
  }

  lemma {:induction false} FlattenAscends(phases: seq<PlanPhase>)
    requires Orderly(phases)
    ensures Ascending(ReleaseLess, Flatten(phases))
  {
    if phases != [] {
      var init, last := phases[..|phases| - 1], phases[|phases| - 1];
      FlattenAscends(init);
      var a, b := Flatten(init), last.steps;
      forall i, j | 0 <= i < |a| && 0 <= j < |b| ensures ReleaseLess(a[i], b[j]) {
        FlattenMembers(init, a[i]);
        var k :| 0 <= k < |init| && a[i] in init[k].steps;
        assert init[k] == phases[k] && b[j] in last.steps;
      }
      forall i, j | 0 <= i < j < |b| ensures ReleaseLess(b[i], b[j]) {
        assert StepLess(b[i], b[j]) && b[i] in b && b[j] in b;
      }
    }
  }

  /** A laid-out plan, read in order, lists every step once, by phase and then by service. */
  lemma LayoutFlattens(phases: seq<PlanPhase>, steps: map<string, PlanStep>)
    requires IsLayout(phases, steps)
    ensures Ascending(ReleaseLess, Flatten(phases))
    ensures forall s :: s in Flatten(phases) <==> s.service in steps && steps[s.service] == s
  {
    FlattenAscends(phases);
    forall s ensures s in Flatten(phases) <==> s.service in steps && steps[s.service] == s {
      FlattenMembers(phases, s);
      if s.service in steps && steps[s.service] == s {
        var i :| 0 <= i < |phases| && phases[i].number == s.phase;
        assert InPhase(steps, phases[i].number, s);
      }
    }
  }
}
