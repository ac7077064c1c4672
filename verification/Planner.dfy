/** Planning a release: which changes are accepted, the phases they get and the plan laid out from them. */
module Planner {
  import opened Order
  import opened OrderingGraph
  import opened Domain
  import opened Contract
  import opened Profiles
  import opened Phasing
  import opened Plan

  const PLAN_API_VERSION := "execution.themisy.io/v1alpha1"
  const INTENT_API_VERSION := "execution.themisy.io/v1alpha1"
  const INTENT_KIND := "ReleaseIntent"
  const ZERO_TIME := 0

  datatype Change = Change(service: string, desiredVersion: string, ciSuccess: bool, dependenciesHealthy: bool,
                           destructiveMigration: bool, risk: string)

  datatype Intent = Intent(apiVersion: string, kind: string, releaseVersion: string, tenantID: string,
                           environment: string, region: string, cluster: string, changes: seq<Change>)

  datatype EnvironmentDefinition = EnvironmentDefinition(profile: string, runnerGroup: string)

  datatype Definition = Definition(ownerTeam: string, riskTier: string, releasePhase: int,
                                   failureDomains: seq<string>, dependencies: seq<Dependency>,
                                   environments: map<string, EnvironmentDefinition>, contractHash: string)

  datatype Profile = Profile(requiredCapabilities: seq<string>, verificationRequired: bool,
                             observationWindow: string, rollbackMode: string)

  datatype Planner = Planner(definitions: map<string, Definition>, profiles: map<string, Profile>,
                             contractHashes: map<string, string>, profileHashes: map<string, string>,
                             contextSnapshotRef: string, policyHash: string, evidenceHash: string, planTTL: int)

  /** What a planner is pinned to when nobody names its context. */
  datatype Pins = Pins(contracts: map<string, string>, profiles: map<string, string>, policyHash: string,
                       evidenceHash: string)

  /** The digests the planner takes; nothing is assumed about them. */
  datatype Hasher = Hasher(contract: ServiceContract -> string, profile: ReleaseProfile -> string,
                           context: Pins -> string, change: Change -> string, plan: PlanContent -> string)

  function PlanHash(h: Hasher, content: PlanContent): string { "sha256:" + h.plan(content) }

  /** The first 24 digits of the plan's digest. */
  function PlanID(h: Hasher, content: PlanContent): string {
    var digest := h.plan(content);
    "plan_" + if |digest| < 24 then digest else digest[..24]
  }

  // --- Which services are planned, and in which graph ---

  function Dependencies(p: Planner, names: set<string>): map<string, seq<Dependency>> {
    map n | n in names && n in p.definitions :: p.definitions[n].dependencies
  }

  function ReleasePhases(p: Planner, names: set<string>): map<string, int> {
    map n | n in names && n in p.definitions :: p.definitions[n].releasePhase
  }

  /** Ordering dependencies between the named services. */
  ghost function SelectedGraph(p: Planner, names: set<string>): Graph {
    Edges(KeptOf(Dependencies(p, names), Selected(names)))
  }

  lemma SelectedGraphFacts(p: Planner, names: set<string>)
    requires names <= p.definitions.Keys
    ensures var g := SelectedGraph(p, names); g.Keys == names && Closed(g)
    ensures forall n, s :: n in names ==>
              (s in SelectedGraph(p, names)[n] <==>
               s in names && exists d :: d in p.definitions[n].dependencies && Orders(d) && d.service == s)
  {
    var deps := Dependencies(p, names);
    assert deps.Keys == names;
    SelectedIsClosed(deps);
    forall n, s | n in names
      ensures s in SelectedGraph(p, names)[n] <==>
              s in names && exists d :: d in p.definitions[n].dependencies && Orders(d) && d.service == s
    {
      KeptMembers(deps[n], Selected(names), s);
    }
  }

  // --- The changes of an intent ---

  datatype PlanError =
    | UnsupportedSchemaVersion | UnsupportedKind | NoChanges | UnsupportedEnvironment
    | UnknownService(service: string) | UndeclaredEnvironment(service: string)
    | VersionRequired(service: string) | DuplicateChange(service: string)
    | DependencyCycle

  /** What is wrong with a change that follows changes to `seen`. */
  function Problem(p: Planner, environment: string, seen: set<string>, c: Change): Option<PlanError> {
    if c.service !in p.definitions then Some(UnknownService(c.service))
    else if environment !in p.definitions[c.service].environments then Some(UndeclaredEnvironment(c.service))
    else if c.desiredVersion == "" then Some(VersionRequired(c.service))
    else if c.service in seen then Some(DuplicateChange(c.service))
    else None
  }

  function Services(changes: seq<Change>): set<string> {
    set c | c in changes :: c.service
  }

  /** The changes by service, or the first problem met reading them in order. */
  function Scan(p: Planner, environment: string, changes: seq<Change>)
      : (r: Result<map<string, Change>, PlanError>)
    ensures r != Failure(DependencyCycle)
  {
    if changes == [] then Success(map[])
    else
      var last, before := changes[|changes| - 1], Scan(p, environment, changes[..|changes| - 1]);
      if before.Failure? then before
      else
        var problem := Problem(p, environment, before.value.Keys, last);
        if problem.Some? then Failure(problem.value) else Success(before.value[last.service := last])
  }

  /** Every change names a declared service and a version, and no service is changed twice. */
  ghost predicate ValidChanges(p: Planner, environment: string, changes: seq<Change>) {
    && (forall c :: c in changes ==> Problem(p, environment, {}, c).None?)
    && (forall i, j :: 0 <= i < j < |changes| ==> changes[i].service != changes[j].service)
  }

  ghost predicate ChangesByService(changes: seq<Change>, m: map<string, Change>) {
    && m.Keys == Services(changes)
    && (forall c :: c in changes ==> m[c.service] == c)
  }

  lemma OneMoreChange(init: seq<Change>, last: Change, m: map<string, Change>)
    requires ChangesByService(init, m) && last.service !in m
    ensures ChangesByService(init + [last], m[last.service := last])
  {
    assert Services(init + [last]) == Services(init) + {last.service};
  }

  lemma OneMoreValid(p: Planner, environment: string, init: seq<Change>, last: Change, m: map<string, Change>)
    requires ValidChanges(p, environment, init) && ChangesByService(init, m)
    ensures ValidChanges(p, environment, init + [last]) <==> Problem(p, environment, m.Keys, last).None?
  {
    var changes := init + [last];
    if last.service in m {
      var c :| c in init && c.service == last.service;
      var i :| 0 <= i < |init| && init[i] == c;
      assert changes[i].service == changes[|init|].service;
    } else {
      forall i | 0 <= i < |init| ensures init[i].service != last.service { assert init[i] in init; }
    }
    assert last in changes;
  }

  lemma InvalidStaysInvalid(p: Planner, environment: string, init: seq<Change>, last: Change)
    requires !ValidChanges(p, environment, init)
    ensures !ValidChanges(p, environment, init + [last])
  {
    var changes := init + [last];
    if c :| c in init && Problem(p, environment, {}, c).Some? {
      assert c in changes;
    } else {
      var i, j :| 0 <= i < j < |init| && init[i].service == init[j].service;
      assert changes[i] == init[i] && changes[j] == init[j];
    }
  }

  /** Reading the changes succeeds exactly when all of them are valid, and then loses none. */
  lemma {:induction false} ScanIff(p: Planner, environment: string, changes: seq<Change>)
    ensures Scan(p, environment, changes).Success? <==> ValidChanges(p, environment, changes)
    ensures Scan(p, environment, changes).Success? ==> ChangesByService(changes, Scan(p, environment, changes).value)
  {
    if changes != [] {
      var init, last := changes[..|changes| - 1], changes[|changes| - 1];
      assert changes == init + [last];
      ScanIff(p, environment, init);
      if ValidChanges(p, environment, init) {
        var m := Scan(p, environment, init).value;
        OneMoreValid(p, environment, init, last, m);
        if last.service !in m {
          OneMoreChange(init, last, m);
        }
      } else {
        InvalidStaysInvalid(p, environment, init, last);
      }
    }
  }

  method CollectChanges(p: Planner, environment: string, list: seq<Change>)
      returns (r: Result<map<string, Change>, PlanError>)
    ensures r == Scan(p, environment, list)
  {
    var changes: map<string, Change> := map[];
    for i := 0 to |list|
      invariant Scan(p, environment, list[..i]) == Success(changes)
    {
      var change := list[i];
      assert list[..i + 1][..i] == list[..i];
      var problem := Problem(p, environment, changes.Keys, change);
      if problem.Some? {
        ScanFails(p, environment, list, i + 1);
        return Failure(problem.value);
      }
      changes := changes[change.service := change];
    }
    assert list[..|list|] == list;
    return Success(changes);
  }

  lemma {:induction false} ScanFails(p: Planner, environment: string, changes: seq<Change>, i: nat)
    requires i <= |changes| && Scan(p, environment, changes[..i]).Failure?
    ensures Scan(p, environment, changes) == Scan(p, environment, changes[..i])
  {
    if i == |changes| {
      assert changes[..i] == changes;
    } else {
      assert changes[..|changes| - 1][..i] == changes[..i];
      ScanFails(p, environment, changes[..|changes| - 1], i);
    }
  }

  // --- Steps ---

  function Normalized(value: string, fallback: string): string {
    if value == "" then fallback else value
  }

  function StepFor(p: Planner, h: Hasher, intent: Intent, c: Change, phase: int): PlanStep
    requires c.service in p.definitions && intent.environment in p.definitions[c.service].environments
  {
    var definition := p.definitions[c.service];
    var environment := definition.environments[intent.environment];
    var profile := if environment.profile in p.profiles
                   then p.profiles[environment.profile].(requiredCapabilities :=
                          Sort(Less, p.profiles[environment.profile].requiredCapabilities))
                   else Profile([], true, "1m", "automatic");
    PlanStep(c.service, c.desiredVersion, phase, environment.profile, SortedDependencies(definition.dependencies),
             profile.requiredCapabilities, definition.contractHash,
             if environment.profile in p.profileHashes then p.profileHashes[environment.profile] else "",
             h.change(c), profile.verificationRequired, profile.observationWindow, profile.rollbackMode,
             Scheduling(Normalized(intent.tenantID, "default"), intent.environment,
                        Normalized(intent.region, "global"), Normalized(intent.cluster, environment.runnerGroup),
                        definition.ownerTeam, Normalized(definition.riskTier, "medium"), environment.runnerGroup,
                        definition.failureDomains))
  }

  predicate Declared(p: Planner, environment: string, names: set<string>) {
    forall n :: n in names ==> n in p.definitions && environment in p.definitions[n].environments
  }

  function StepsFor(p: Planner, h: Hasher, intent: Intent, changes: map<string, Change>, phase: map<string, int>)
      : map<string, PlanStep>
    requires Declared(p, intent.environment, changes.Keys)
    requires forall n :: n in changes ==> changes[n].service == n
  {
    map n | n in changes :: StepFor(p, h, intent, changes[n], At(phase, n))
  }

  lemma SameSteps(p: Planner, h: Hasher, intent: Intent, intent': Intent, changes: map<string, Change>,
                  phase: map<string, int>, phase': map<string, int>)
    requires Declared(p, intent.environment, changes.Keys) && forall n :: n in changes ==> changes[n].service == n
    requires intent'.(changes := intent.changes) == intent
    requires forall n :: n in changes ==> At(phase, n) == At(phase', n)
    ensures StepsFor(p, h, intent, changes, phase) == StepsFor(p, h, intent', changes, phase')
  {
    forall n | n in changes
      ensures StepFor(p, h, intent, changes[n], At(phase, n)) == StepFor(p, h, intent', changes[n], At(phase', n))
    {
    }
  }

  // --- Planning ---

  /** The intent is well-formed and every change valid. */
  ghost predicate WellFormed(p: Planner, intent: Intent) {
    && intent.apiVersion == INTENT_API_VERSION && intent.kind == INTENT_KIND && intent.changes != []
    && (intent.environment == "staging" || intent.environment == "production")
    && ValidChanges(p, intent.environment, intent.changes)
  }

  /** `phase` is the least assignment for the selected services above their own release phases. */
  ghost predicate PhasesOf(p: Planner, names: set<string>, phase: map<string, int>)
    requires names <= p.definitions.Keys
  {
    SelectedGraphFacts(p, names);
    && phase.Keys == names
    && LeastPhases(SelectedGraph(p, names), ReleasePhases(p, names), phase)
  }

  /** The phases of a plan for `intent`: every changed service once, at its least phase. */
  ghost predicate PlannedPhases(p: Planner, h: Hasher, intent: Intent, phases: seq<PlanPhase>) {
    exists changes: map<string, Change>, phase: map<string, int> ::
      PlannedWith(p, h, intent, phases, changes, phase)
  }

  ghost predicate PlannedWith(p: Planner, h: Hasher, intent: Intent, phases: seq<PlanPhase>,
                              changes: map<string, Change>, phase: map<string, int>) {
    && ChangesByService(intent.changes, changes)
    && Declared(p, intent.environment, changes.Keys)
    && (forall n :: n in changes ==> changes[n].service == n)
    && PhasesOf(p, changes.Keys, phase)
    && IsLayout(phases, StepsFor(p, h, intent, changes, phase))
  }

  function ContentFor(p: Planner, intent: Intent, phases: seq<PlanPhase>): PlanContent {
    PlanContent(PLAN_API_VERSION, intent.releaseVersion, intent.environment, phases, p.contractHashes,
                p.profileHashes, p.contextSnapshotRef, p.policyHash, p.evidenceHash)
  }

  lemma CollectedChanges(p: Planner, environment: string, list: seq<Change>, changes: map<string, Change>)
    requires ChangesByService(list, changes) && ValidChanges(p, environment, list)
    ensures Declared(p, environment, changes.Keys)
    ensures forall n :: n in changes ==> changes[n].service == n
  {
    forall n | n in changes
      ensures n in p.definitions && environment in p.definitions[n].environments && changes[n].service == n
    {
      var c :| c in list && c.service == n;
      assert Problem(p, environment, {}, c).None?;
    }
  }

  /** Phases for the collected changes. */
  method AssignPhases(p: Planner, changes: map<string, Change>) returns (r: Option<map<string, int>>)
    requires changes.Keys <= p.definitions.Keys
    ensures r.Some? <==> !Cyclic(SelectedGraph(p, changes.Keys))
    ensures r.Some? ==> PhasesOf(p, changes.Keys, map n | n in changes :: At(r.value, n))
  {
    var deps, base := Dependencies(p, changes.Keys), ReleasePhases(p, changes.Keys);
    assert deps.Keys == changes.Keys && base.Keys == changes.Keys;
    r := SelectedPhases(deps, base);
    ghost var kept := KeptOf(deps, Selected(changes.Keys));
    assert kept.Keys == changes.Keys;
    assert Total(kept, base) == base;
    if r.Some? {
      assert Total(kept, r.value) == map n | n in changes :: At(r.value, n);
    }
  }

  /** Phases for the collected changes, laid out. */
  method LayOut(p: Planner, h: Hasher, intent: Intent, changes: map<string, Change>)
      returns (r: Option<seq<PlanPhase>>)
    requires ChangesByService(intent.changes, changes) && Declared(p, intent.environment, changes.Keys)
    requires forall n :: n in changes ==> changes[n].service == n
    ensures r.Some? <==> !Cyclic(SelectedGraph(p, changes.Keys))
    ensures r.Some? ==> PlannedPhases(p, h, intent, r.value)
  {
    var phase := AssignPhases(p, changes);
    if phase.None? {
      return None;
    }
    var steps := StepsFor(p, h, intent, changes, phase.value);
    var phases := BuildPhases(steps);
    ghost var total := map n | n in changes :: At(phase.value, n);
    SameSteps(p, h, intent, intent, changes, phase.value, total);
    assert PlannedWith(p, h, intent, phases, changes, total);
    return Some(phases);
  }

  method PlanIntent(p: Planner, h: Hasher, intent: Intent, now: int) returns (r: Result<ReleasePlan, PlanError>)
    ensures r.Success? <==> WellFormed(p, intent) && !Cyclic(SelectedGraph(p, Services(intent.changes)))
    ensures r == Failure(DependencyCycle) <==>
              WellFormed(p, intent) && Cyclic(SelectedGraph(p, Services(intent.changes)))
    ensures r.Success? ==>
              && PlannedPhases(p, h, intent, r.value.content.phases)
              && r.value.content == ContentFor(p, intent, r.value.content.phases)
              && r.value.hash == r.value.planHash == PlanHash(h, r.value.content)
              && r.value.id == PlanID(h, r.value.content)
              && r.value.createdAt == now && r.value.expiresAt == now + p.planTTL
  {
    if intent.apiVersion != INTENT_API_VERSION {
      return Failure(UnsupportedSchemaVersion);
    }
    if intent.kind != INTENT_KIND {
      return Failure(UnsupportedKind);
    }
    if |intent.changes| == 0 {
      return Failure(NoChanges);
    }
    if intent.environment != "staging" && intent.environment != "production" {
      return Failure(UnsupportedEnvironment);
    }
    var collected := CollectChanges(p, intent.environment, intent.changes);
    ScanIff(p, intent.environment, intent.changes);
    if collected.Failure? {
      return Failure(collected.error);
    }
    var changes := collected.value;
    CollectedChanges(p, intent.environment, intent.changes, changes);
    var laid := LayOut(p, h, intent, changes);
    if laid.None? {
      return Failure(DependencyCycle);
    }
    var phases := laid.value;
    var content := ContentFor(p, intent, phases);
    var hash := PlanHash(h, content);
    return Success(ReleasePlan(PlanID(h, content), content, hash, hash, now, now + p.planTTL));
  }

  // --- What a plan depends on ---

  lemma SameChanges(list: seq<Change>, list': seq<Change>, m: map<string, Change>, m': map<string, Change>)
    requires multiset(list) == multiset(list')
    requires ChangesByService(list, m) && ChangesByService(list', m')
    ensures m == m'
  {
    SameMultisetSameMembers(list, list');
    assert Services(list) == Services(list');
    forall n | n in m ensures m[n] == m'[n] {
      var c :| c in list && c.service == n;
      assert c in list';
    }
  }

  lemma OnePlanPerSelection(p: Planner, h: Hasher, intent: Intent, intent': Intent, changes: map<string, Change>,
                            phase: map<string, int>, phase': map<string, int>)
    requires intent'.(changes := intent.changes) == intent
    requires Declared(p, intent.environment, changes.Keys) && forall n :: n in changes ==> changes[n].service == n
    requires PhasesOf(p, changes.Keys, phase) && PhasesOf(p, changes.Keys, phase')
    ensures StepsFor(p, h, intent, changes, phase) == StepsFor(p, h, intent', changes, phase')
  {
    SelectedGraphFacts(p, changes.Keys);
    LeastPhasesUnique(SelectedGraph(p, changes.Keys), ReleasePhases(p, changes.Keys), phase, phase');
    SameSteps(p, h, intent, intent', changes, phase, phase');
  }

  /** The order in which changes are listed does not show in the plan, its phases or its hash. */
  lemma PlanIgnoresChangeOrder(p: Planner, h: Hasher, intent: Intent, intent': Intent, phases: seq<PlanPhase>,
                               phases': seq<PlanPhase>)
    requires intent'.(changes := intent.changes) == intent
    requires multiset(intent.changes) == multiset(intent'.changes)
    requires PlannedPhases(p, h, intent, phases) && PlannedPhases(p, h, intent', phases')
    ensures phases == phases'
    ensures PlanHash(h, ContentFor(p, intent, phases)) == PlanHash(h, ContentFor(p, intent', phases'))
  {
    var changes, phase :| PlannedWith(p, h, intent, phases, changes, phase);
    var changes', phase' :| PlannedWith(p, h, intent', phases', changes', phase');
    SameChanges(intent.changes, intent'.changes, changes, changes');
    OnePlanPerSelection(p, h, intent, intent', changes, phase, phase');
    LayoutUnique(phases, phases', StepsFor(p, h, intent, changes, phase));
  }

  /** A selected ordering dependency has a lower phase. */
  lemma DependencyPhaseLower(p: Planner, h: Hasher, intent: Intent, changes: map<string, Change>,
                             phase: map<string, int>, s: PlanStep, d: Dependency)
    requires Declared(p, intent.environment, changes.Keys) && forall n :: n in changes ==> changes[n].service == n
    requires PhasesOf(p, changes.Keys, phase)
    requires s.service in changes && s == StepsFor(p, h, intent, changes, phase)[s.service]
    requires d in s.dependencies && Orders(d) && d.service in changes
    ensures phase[d.service] < phase[s.service]
  {
    SelectedGraphFacts(p, changes.Keys);
    SameMultisetSameMembers(s.dependencies, p.definitions[s.service].dependencies);
    assert d.service in SelectedGraph(p, changes.Keys)[s.service];
  }

  /** In an ascending list, what has a lower phase stands earlier. */
  lemma LowerStandsEarlier(flat: seq<PlanStep>, i: nat, t: PlanStep) returns (j: nat)
    requires Ascending(ReleaseLess, flat) && i < |flat| && t in flat && t.phase < flat[i].phase
    ensures j < i && flat[j] == t
  {
    j :| j < |flat| && flat[j] == t;
    assert i < j ==> ReleaseLess(flat[i], flat[j]);
  }

  /** Read in order, a plan lists each changed service only after its selected dependencies,
      which all have a lower phase. */
  lemma DependenciesComeFirst(p: Planner, h: Hasher, intent: Intent, phases: seq<PlanPhase>, i: nat, d: Dependency)
    requires PlannedPhases(p, h, intent, phases) && i < |Flatten(phases)|
    requires d in Flatten(phases)[i].dependencies && Orders(d) && d.service in Services(intent.changes)
    ensures exists j :: 0 <= j < i && Flatten(phases)[j].service == d.service
                        && Flatten(phases)[j].phase < Flatten(phases)[i].phase
  {
    var changes, phase :| PlannedWith(p, h, intent, phases, changes, phase);
    var steps := StepsFor(p, h, intent, changes, phase);
    LayoutFlattens(phases, steps);
    var s := Flatten(phases)[i];
    assert s in Flatten(phases);
    DependencyPhaseLower(p, h, intent, changes, phase, s, d);
    var t := steps[d.service];
    assert t in Flatten(phases);
    var j := LowerStandsEarlier(Flatten(phases), i, t);
  }

  // --- Validation ---

  datatype PlanProblem = HashMismatch | Expired | ContractChanged | ProfileChanged | ContextChanged | PolicyChanged
                       | EvidenceChanged

  function ValidatePlan(p: Planner, h: Hasher, plan: ReleasePlan, now: int): Option<PlanProblem> {
    if plan.planHash == "" || plan.hash == "" || plan.planHash != plan.hash
       || plan.planHash != PlanHash(h, plan.content)
    then Some(HashMismatch)
    else if plan.expiresAt == ZERO_TIME || now >= plan.expiresAt then Some(Expired)
    else if plan.content.contractHashes != p.contractHashes then Some(ContractChanged)
    else if plan.content.profileHashes != p.profileHashes then Some(ProfileChanged)
    else if plan.content.contextSnapshotRef != p.contextSnapshotRef then Some(ContextChanged)
    else if plan.content.policyHash != p.policyHash then Some(PolicyChanged)
    else if plan.content.evidenceHash != p.evidenceHash then Some(EvidenceChanged)
    else None
  }

  /** A plan made by one planner validates on another exactly while it is unexpired and the two
      planners pin the same contracts, profiles, context, policy and evidence. */
  lemma PlanValidatesIff(p: Planner, q: Planner, h: Hasher, intent: Intent, plan: ReleasePlan, phases: seq<PlanPhase>,
                         now: int)
    requires plan.content == ContentFor(p, intent, phases)
    requires plan.hash == plan.planHash == PlanHash(h, plan.content)
    ensures ValidatePlan(q, h, plan, now).None? <==>
              && plan.expiresAt != ZERO_TIME && now < plan.expiresAt
              && p.contractHashes == q.contractHashes && p.profileHashes == q.profileHashes
              && p.contextSnapshotRef == q.contextSnapshotRef && p.policyHash == q.policyHash
              && p.evidenceHash == q.evidenceHash
  {
    assert |PlanHash(h, plan.content)| >= 7;
  }

  /** With a collision-free digest, a plan edited after planning no longer validates. */
  lemma EditedPlanIsRefused(p: Planner, h: Hasher, plan: ReleasePlan, edited: PlanContent, now: int)
    requires forall a, b :: h.plan(a) == h.plan(b) ==> a == b
    requires plan.planHash == PlanHash(h, plan.content) && edited != plan.content
    ensures ValidatePlan(p, h, plan.(content := edited), now) == Some(HashMismatch)
  {
    assert PlanHash(h, edited)[7..] == h.plan(edited) && PlanHash(h, plan.content)[7..] == h.plan(plan.content);
  }
}
