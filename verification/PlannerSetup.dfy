/** Building a planner from service contracts: definitions, checks and global phases. */
module PlannerSetup {
  import opened OrderingGraph
  import opened Domain
  import opened Contract
  import opened Phasing
  import opened Planner

  datatype BuildError = InvalidProfile(name: string) | DuplicateProfile(name: string)
                      | ProfileHashMismatch(name: string) | NoContracts | InvalidContract(name: string)
                      | DuplicateService(name: string)
                      | ContentChanged(name: string) | UnknownProfile(name: string) | MissingCapability(name: string)
                      | UnknownDependency | OrderingCycle

  function ContractHash(h: Hasher, c: ServiceContract): string { "sha256:" + h.contract(CanonicalForm(c)) }

  /** Resources shared with other services, in dependency order and with repetitions. */
  function FailureDomains(ds: seq<Dependency>): seq<string> {
    if ds == [] then []
    else
      (if ds[0].kind == SHARED_FAILURE_DOMAIN && ds[0].resource != "" then [ds[0].resource] else []) +
      FailureDomains(ds[1..])
  }

  function DefinitionOf(h: Hasher, c: ServiceContract): Definition {
    Definition(c.metadata.owner, c.metadata.riskTier, 0, FailureDomains(SortedDependencies(c.dependencies)),
               SortedDependencies(c.dependencies),
               map n | n in c.environments ::
                 EnvironmentDefinition(c.environments[n].releaseProfile, c.environments[n].runnerGroup),
               ContractHash(h, c))
  }

  predicate EnvironmentOk(profiles: map<string, Profile>, e: EnvironmentContract) {
    && e.releaseProfile in profiles
    && forall c :: c in profiles[e.releaseProfile].requiredCapabilities ==> c in e.capabilities
  }

  /** Valid on its own, unchanged since it was hashed, and deployable with the known profiles. */
  predicate Admissible(h: Hasher, validate: ServiceContract -> bool, profiles: map<string, Profile>,
                       c: ServiceContract) {
    && validate(c)
    && (c.contentHash == "" || c.contentHash == ContractHash(h, c))
    && (forall n :: n in c.environments ==> EnvironmentOk(profiles, c.environments[n]))
  }

  method CheckEnvironments(profiles: map<string, Profile>, c: ServiceContract) returns (problem: Option<BuildError>)
    ensures problem.None? <==> forall n :: n in c.environments ==> EnvironmentOk(profiles, c.environments[n])
    ensures problem.Some? ==> problem.value.UnknownProfile? || problem.value.MissingCapability?
  {
    var todo := c.environments.Keys;
    while todo != {}
      invariant todo <= c.environments.Keys
      invariant forall n :: n in c.environments && n !in todo ==> EnvironmentOk(profiles, c.environments[n])
    {
      var n :| n in todo;
      todo := todo - {n};
      var e := c.environments[n];
      if e.releaseProfile !in profiles {
        assert !EnvironmentOk(profiles, c.environments[n]);
        return Some(UnknownProfile(c.metadata.name));
      }
      if exists capability :: capability in profiles[e.releaseProfile].requiredCapabilities &&
                              capability !in e.capabilities {
        assert !EnvironmentOk(profiles, c.environments[n]);
        return Some(MissingCapability(c.metadata.name));
      }
    }
    return None;
  }

  ghost predicate Defines(h: Hasher, contracts: seq<ServiceContract>, definitions: map<string, Definition>) {
    && definitions.Keys == (set c | c in contracts :: c.metadata.name)
    && (forall c :: c in contracts ==> definitions[c.metadata.name] == DefinitionOf(h, c))
  }

  lemma OneMoreContract(h: Hasher, contracts: seq<ServiceContract>, i: nat, definitions: map<string, Definition>,
                        more: map<string, Definition>)
    requires i < |contracts| && Defines(h, contracts[..i], definitions)
    requires contracts[i].metadata.name !in definitions
    requires more == definitions[contracts[i].metadata.name := DefinitionOf(h, contracts[i])]
    ensures Defines(h, contracts[..i + 1], more)
  {
    var define := (c: ServiceContract) => DefinitionOf(h, c);
    assert forall c :: c in contracts[..i] ==> definitions[c.metadata.name] == define(c);
    assert define(contracts[i]) == DefinitionOf(h, contracts[i]);
    OneMoreDefined(define, contracts, i, definitions, more);
    forall c | c in contracts[..i + 1] ensures more[c.metadata.name] == DefinitionOf(h, c) {
      assert more[c.metadata.name] == define(c);
    }
  }

  lemma OneMoreDefined(define: ServiceContract -> Definition, contracts: seq<ServiceContract>, i: nat,
                       definitions: map<string, Definition>, more: map<string, Definition>)
    requires i < |contracts| && definitions.Keys == (set c | c in contracts[..i] :: c.metadata.name)
    requires forall c :: c in contracts[..i] ==> definitions[c.metadata.name] == define(c)
    requires contracts[i].metadata.name !in definitions
    requires more == definitions[contracts[i].metadata.name := define(contracts[i])]
    ensures more.Keys == (set c | c in contracts[..i + 1] :: c.metadata.name)
    ensures forall c :: c in contracts[..i + 1] ==> more[c.metadata.name] == define(c)
  {
    var name := contracts[i].metadata.name;
    OneMoreName(contracts, i);
    assert more.Keys == definitions.Keys + {name};
    forall c | c in contracts[..i + 1] ensures c.metadata.name in more && more[c.metadata.name] == define(c) {
      if c in contracts[..i] {
        assert c.metadata.name in definitions && c.metadata.name != name;
      } else {
        assert c == contracts[i];
      }
    }
  }

  lemma OneMoreName(contracts: seq<ServiceContract>, i: nat)
    requires i < |contracts|
    ensures forall c :: c in contracts[..i + 1] <==> c in contracts[..i] || c == contracts[i]
    ensures (set c | c in contracts[..i + 1] :: c.metadata.name) ==
            (set c | c in contracts[..i] :: c.metadata.name) + {contracts[i].metadata.name}
  {
    assert contracts[..i + 1] == contracts[..i] + [contracts[i]];
  }

  lemma NameTaken(h: Hasher, contracts: seq<ServiceContract>, i: nat, definitions: map<string, Definition>)
    requires i < |contracts| && Defines(h, contracts[..i], definitions)
    ensures contracts[i].metadata.name in definitions ==>
            exists j :: 0 <= j < i && contracts[j].metadata.name == contracts[i].metadata.name
    ensures contracts[i].metadata.name !in definitions ==>
            forall j :: 0 <= j < i ==> contracts[j].metadata.name != contracts[i].metadata.name
  {
    if contracts[i].metadata.name in definitions {
      var c :| c in contracts[..i] && c.metadata.name == contracts[i].metadata.name;
      var j :| 0 <= j < i && contracts[j] == c;
    } else {
      forall j | 0 <= j < i ensures contracts[j].metadata.name != contracts[i].metadata.name {
        assert contracts[j] in contracts[..i];
      }
    }
  }

  /** One contract, checked against the names already defined. */
  method CheckContract(h: Hasher, validate: ServiceContract -> bool, profiles: map<string, Profile>,
                       taken: set<string>, c: ServiceContract)
      returns (problem: Option<BuildError>)
    ensures problem.None? <==> Admissible(h, validate, profiles, c) && c.metadata.name !in taken
    ensures problem.Some? ==> problem.value != OrderingCycle && problem.value != UnknownDependency
  {
    if !validate(c) {
      return Some(InvalidContract(c.metadata.name));
    }
    if c.metadata.name in taken {
      return Some(DuplicateService(c.metadata.name));
    }
    if c.contentHash != "" && c.contentHash != ContractHash(h, c) {
      return Some(ContentChanged(c.metadata.name));
    }
    problem := CheckEnvironments(profiles, c);
  }

  ghost predicate AllAdmissible(h: Hasher, validate: ServiceContract -> bool, profiles: map<string, Profile>,
                                contracts: seq<ServiceContract>) {
    && (forall k :: 0 <= k < |contracts| ==> Admissible(h, validate, profiles, contracts[k]))
    && (forall i, j :: 0 <= i < j < |contracts| ==> contracts[i].metadata.name != contracts[j].metadata.name)
  }

  /** The first `i` contracts are acceptable and defined. */
  ghost predicate DefinedUpTo(h: Hasher, validate: ServiceContract -> bool, profiles: map<string, Profile>,
                              contracts: seq<ServiceContract>, i: nat, definitions: map<string, Definition>)
    requires i <= |contracts|
  {
    Defines(h, contracts[..i], definitions) && AllAdmissible(h, validate, profiles, contracts[..i])
  }

  lemma DefinedStep(h: Hasher, validate: ServiceContract -> bool, profiles: map<string, Profile>,
                    contracts: seq<ServiceContract>, i: nat, definitions: map<string, Definition>,
                    more: map<string, Definition>)
    requires i < |contracts| && DefinedUpTo(h, validate, profiles, contracts, i, definitions)
    requires Admissible(h, validate, profiles, contracts[i]) && contracts[i].metadata.name !in definitions
    requires more == definitions[contracts[i].metadata.name := DefinitionOf(h, contracts[i])]
    ensures DefinedUpTo(h, validate, profiles, contracts, i + 1, more)
  {
    OneMoreContract(h, contracts, i, definitions, more);
    OneMoreAdmissible(h, validate, profiles, contracts, i, definitions);
  }

  lemma OneMoreAdmissible(h: Hasher, validate: ServiceContract -> bool, profiles: map<string, Profile>,
                          contracts: seq<ServiceContract>, i: nat, definitions: map<string, Definition>)
    requires i < |contracts| && DefinedUpTo(h, validate, profiles, contracts, i, definitions)
    requires Admissible(h, validate, profiles, contracts[i]) && contracts[i].metadata.name !in definitions
    ensures AllAdmissible(h, validate, profiles, contracts[..i + 1])
  {
    var good := (c: ServiceContract) => Admissible(h, validate, profiles, c);
    NameTaken(h, contracts, i, definitions);
    forall k | 0 <= k < i ensures good(contracts[k]) {
      assert contracts[..i][k] == contracts[k];
    }
    forall k, l | 0 <= k < l < i ensures contracts[k].metadata.name != contracts[l].metadata.name {
      assert contracts[..i][k] == contracts[k] && contracts[..i][l] == contracts[l];
    }
    assert good(contracts[i]);
    var prefix := contracts[..i + 1];
    GoodPrefix(good, contracts, i, prefix);
    forall k | 0 <= k <= i ensures Admissible(h, validate, profiles, prefix[k]) {
      assert good(prefix[k]);
    }
  }

  lemma GoodPrefix(good: ServiceContract -> bool, contracts: seq<ServiceContract>, i: nat,
                   prefix: seq<ServiceContract>)
    requires i < |contracts| && prefix == contracts[..i + 1] && forall k :: 0 <= k <= i ==> good(contracts[k])
    requires forall k, l :: 0 <= k < l < i ==> contracts[k].metadata.name != contracts[l].metadata.name
    requires forall k :: 0 <= k < i ==> contracts[k].metadata.name != contracts[i].metadata.name
    ensures forall k :: 0 <= k <= i ==> good(prefix[k])
    ensures forall k, l :: 0 <= k < l <= i ==> prefix[k].metadata.name != prefix[l].metadata.name
  {
  }

  lemma DefinedFails(h: Hasher, validate: ServiceContract -> bool, profiles: map<string, Profile>,
                     contracts: seq<ServiceContract>, i: nat, definitions: map<string, Definition>)
    requires i < |contracts| && Defines(h, contracts[..i], definitions)
    requires !Admissible(h, validate, profiles, contracts[i]) || contracts[i].metadata.name in definitions
    ensures !AllAdmissible(h, validate, profiles, contracts)
  {
    NameTaken(h, contracts, i, definitions);
  }

  method Define(h: Hasher, validate: ServiceContract -> bool, profiles: map<string, Profile>,
                contracts: seq<ServiceContract>)
      returns (r: Result<map<string, Definition>, BuildError>)
    ensures r.Success? <==> AllAdmissible(h, validate, profiles, contracts)
    ensures r.Success? ==> Defines(h, contracts, r.value)
    ensures r.Failure? ==> r.error != OrderingCycle && r.error != UnknownDependency
  {
    var definitions: map<string, Definition> := map[];
    for i := 0 to |contracts|
      invariant DefinedUpTo(h, validate, profiles, contracts, i, definitions)
    {
      var problem := CheckContract(h, validate, profiles, definitions.Keys, contracts[i]);
      if problem.Some? {
        DefinedFails(h, validate, profiles, contracts, i, definitions);
        return Failure(problem.value);
      }
      var more := definitions[contracts[i].metadata.name := DefinitionOf(h, contracts[i])];
      DefinedStep(h, validate, profiles, contracts, i, definitions, more);
      definitions := more;
    }
    assert contracts[..|contracts|] == contracts;
    return Success(definitions);
  }

  predicate KnownDependencies(definitions: map<string, Definition>) {
    forall n, d :: n in definitions && d in definitions[n].dependencies && d.service != "" ==> d.service in definitions
  }

  method FindUnknown(definitions: map<string, Definition>) returns (unknown: bool)
    ensures unknown <==> !KnownDependencies(definitions)
  {
    var todo := definitions.Keys;
    while todo != {}
      invariant todo <= definitions.Keys
      invariant forall n, d :: n in definitions && n !in todo && d in definitions[n].dependencies && d.service != "" ==>
                  d.service in definitions
    {
      var name :| name in todo;
      todo := todo - {name};
      var ds := definitions[name].dependencies;
      for i := 0 to |ds|
        invariant forall k :: 0 <= k < i && ds[k].service != "" ==> ds[k].service in definitions
      {
        if ds[i].service != "" && ds[i].service !in definitions {
          assert ds[i] in definitions[name].dependencies;
          return true;
        }
      }
    }
    return false;
  }

  function DependencyLists(definitions: map<string, Definition>): (r: map<string, seq<Dependency>>)
    ensures r.Keys == definitions.Keys
  {
    map n | n in definitions :: definitions[n].dependencies
  }

  ghost function GlobalGraph(definitions: map<string, Definition>): (g: Graph)
    ensures g.Keys == definitions.Keys
  {
    Edges(KeptOf(DependencyLists(definitions), Orders))
  }

  lemma GlobalGraphEdges(definitions: map<string, Definition>, n: string, s: string)
    requires n in definitions
    ensures s in GlobalGraph(definitions)[n] <==>
            exists d :: d in definitions[n].dependencies && Orders(d) && d.service == s
  {
    KeptMembers(DependencyLists(definitions)[n], Orders, s);
  }

  lemma GlobalGraphClosed(definitions: map<string, Definition>)
    requires KnownDependencies(definitions)
    ensures Closed(GlobalGraph(definitions))
  {
    forall n, s | n in definitions && s in GlobalGraph(definitions)[n] ensures s in definitions {
      GlobalGraphEdges(definitions, n, s);
    }
  }

  function Zero(names: set<string>): (z: map<string, int>)
    ensures z.Keys == names
  {
    map n | n in names :: 0
  }

  function PhaseMap(definitions: map<string, Definition>): (r: map<string, int>)
    ensures r.Keys == definitions.Keys
  {
    map n | n in definitions :: definitions[n].releasePhase
  }

  /** Every service carries the least phase above its ordering dependencies, counting from zero. */
  ghost predicate GloballyPhased(definitions: map<string, Definition>) {
    && Closed(GlobalGraph(definitions))
    && LeastPhases(GlobalGraph(definitions), Zero(definitions.Keys), PhaseMap(definitions))
  }

  function Unphased(definitions: map<string, Definition>): map<string, Definition> {
    map n | n in definitions :: definitions[n].(releasePhase := 0)
  }

  /** The installation of computed phases; services the traversal left at zero stay there. */
  function Install(definitions: map<string, Definition>, phases: map<string, int>): (r: map<string, Definition>)
    ensures r.Keys == definitions.Keys
  {
    map n | n in definitions ::
      if n in phases then definitions[n].(releasePhase := phases[n]) else definitions[n]
  }

  lemma InstallFacts(definitions: map<string, Definition>, phases: map<string, int>)
    requires Unphased(definitions) == definitions
    ensures var r := Install(definitions, phases);
            && Unphased(r) == definitions
            && DependencyLists(r) == DependencyLists(definitions)
            && PhaseMap(r) == Total(KeptOf(DependencyLists(definitions), Orders), phases)
            && Zero(r.Keys) == Total(KeptOf(DependencyLists(definitions), Orders), map[])
  {
    forall n | n in definitions ensures definitions[n].releasePhase == 0 {
      assert Unphased(definitions)[n] == definitions[n];
    }
  }

  /** The planner's services: what the contracts say, at their global phases. */
  ghost predicate BuiltFrom(h: Hasher, contracts: seq<ServiceContract>, definitions: map<string, Definition>) {
    GloballyPhased(definitions) && Defines(h, contracts, Unphased(definitions))
  }

  lemma StartAtZero(h: Hasher, contracts: seq<ServiceContract>, definitions: map<string, Definition>)
    requires Defines(h, contracts, definitions)
    ensures Unphased(definitions) == definitions
  {
    forall n | n in definitions ensures definitions[n].releasePhase == 0 {
      var c :| c in contracts && c.metadata.name == n;
    }
  }

  /** Computes and installs the global phases, or finds the cycle. */
  method InstallPhases(definitions: map<string, Definition>) returns (r: Option<map<string, Definition>>)
    requires KnownDependencies(definitions) && Unphased(definitions) == definitions
    ensures r.Some? <==> !Cyclic(GlobalGraph(definitions))
    ensures r.Some? ==> GloballyPhased(r.value) && Unphased(r.value) == definitions
  {
    GlobalGraphClosed(definitions);
    var phases := GlobalPhases(DependencyLists(definitions));
    if phases.None? {
      return None;
    }
    InstallFacts(definitions, phases.value);
    return Some(Install(definitions, phases.value));
  }

  /** The contracts define services whose dependencies are all defined and contain no ordering cycle. */
  ghost predicate Sound(h: Hasher, contracts: seq<ServiceContract>) {
    exists definitions ::
      Defines(h, contracts, definitions) && KnownDependencies(definitions) && !Cyclic(GlobalGraph(definitions))
  }

  /** The contracts are known to each other, but order each other in a cycle. */
  ghost predicate Looped(h: Hasher, contracts: seq<ServiceContract>) {
    exists definitions ::
      Defines(h, contracts, definitions) && KnownDependencies(definitions) && Cyclic(GlobalGraph(definitions))
  }

  lemma SoundIff(h: Hasher, contracts: seq<ServiceContract>, definitions: map<string, Definition>)
    requires Defines(h, contracts, definitions)
    ensures Sound(h, contracts) <==> KnownDependencies(definitions) && !Cyclic(GlobalGraph(definitions))
    ensures Looped(h, contracts) <==> KnownDependencies(definitions) && Cyclic(GlobalGraph(definitions))
  {
    forall other | Defines(h, contracts, other) ensures other == definitions {
      DefinesAgree(h, contracts, contracts, other, definitions);
    }
  }

  /** The definitions of the contracts, with their global phases. */
  method DefineAll(h: Hasher, validate: ServiceContract -> bool, profiles: map<string, Profile>,
                   contracts: seq<ServiceContract>)
      returns (r: Result<map<string, Definition>, BuildError>)
    ensures r.Success? <==> contracts != [] && AllAdmissible(h, validate, profiles, contracts) && Sound(h, contracts)
    ensures r.Success? ==> BuiltFrom(h, contracts, r.value)
    ensures r == Failure(OrderingCycle) <==>
              contracts != [] && AllAdmissible(h, validate, profiles, contracts) && Looped(h, contracts)
    ensures r == Failure(UnknownDependency) <==>
              && contracts != [] && AllAdmissible(h, validate, profiles, contracts)
              && !Sound(h, contracts) && !Looped(h, contracts)
  {
    if contracts == [] {
      return Failure(NoContracts);
    }
    var defined := Define(h, validate, profiles, contracts);
    if defined.Failure? {
      return Failure(defined.error);
    }
    var definitions := defined.value;
    SoundIff(h, contracts, definitions);
    var unknown := FindUnknown(definitions);
    if unknown {
      return Failure(UnknownDependency);
    }
    StartAtZero(h, contracts, definitions);
    var installed := InstallPhases(definitions);
    if installed.None? {
      return Failure(OrderingCycle);
    }
    return Success(installed.value);
  }

  // --- What a planner built from contracts guarantees ---

  /** The contents of a list of contracts, whatever the order in it and in the contracts. */
  ghost function Forms(contracts: seq<ServiceContract>): set<ServiceContract> {
    set c | c in contracts :: CanonicalForm(c)
  }

  lemma DefinesWithin(h: Hasher, contracts: seq<ServiceContract>, contracts': seq<ServiceContract>,
                      a: map<string, Definition>, b: map<string, Definition>, n: string)
    requires Defines(h, contracts, a) && Defines(h, contracts', b) && Forms(contracts) <= Forms(contracts')
    requires n in a
    ensures n in b && a[n] == b[n]
  {
    var c :| c in contracts && c.metadata.name == n;
    assert CanonicalForm(c) in Forms(contracts);
    var c' :| c' in contracts' && CanonicalForm(c') == CanonicalForm(c);
    CanonicalFormIff(c, c');
    DefinitionIgnoresOrder(h, c, c');
  }

  lemma DefinitionIgnoresOrder(h: Hasher, c: ServiceContract, c': ServiceContract)
    requires SameContract(c, c')
    ensures DefinitionOf(h, c) == DefinitionOf(h, c')
  {
    CanonicalFormIff(c, c');
    assert SortedDependencies(c.dependencies) == CanonicalForm(c).dependencies;
    assert SortedDependencies(c'.dependencies) == CanonicalForm(c').dependencies;
    forall n | n in c.environments
      ensures EnvironmentDefinition(c.environments[n].releaseProfile, c.environments[n].runnerGroup) ==
              EnvironmentDefinition(c'.environments[n].releaseProfile, c'.environments[n].runnerGroup)
    {
      assert SameEnvironment(c.environments[n], c'.environments[n]);
    }
  }

  /** Reordering the contracts, or the dependencies, capabilities and checks inside them,
      gives the same services at the same phases. */
  lemma PlannerIgnoresContractOrder(h: Hasher, contracts: seq<ServiceContract>, contracts': seq<ServiceContract>,
                                    a: map<string, Definition>, b: map<string, Definition>)
    requires BuiltFrom(h, contracts, a) && BuiltFrom(h, contracts', b)
    requires Forms(contracts) == Forms(contracts')
    ensures a == b
  {
    DefinesAgree(h, contracts, contracts', Unphased(a), Unphased(b));
    SamePhases(a, b);
  }

  lemma DefinesAgree(h: Hasher, contracts: seq<ServiceContract>, contracts': seq<ServiceContract>,
                     a: map<string, Definition>, b: map<string, Definition>)
    requires Defines(h, contracts, a) && Defines(h, contracts', b) && Forms(contracts) == Forms(contracts')
    ensures a == b
  {
    forall n | n in a ensures n in b && a[n] == b[n] { DefinesWithin(h, contracts, contracts', a, b, n); }
    forall n | n in b ensures n in a { DefinesWithin(h, contracts', contracts, b, a, n); }
  }

  lemma SamePhases(a: map<string, Definition>, b: map<string, Definition>)
    requires GloballyPhased(a) && GloballyPhased(b) && Unphased(a) == Unphased(b)
    ensures a == b
  {
    SameUnphased(a, b);
    LeastPhasesUnique(GlobalGraph(a), Zero(a.Keys), PhaseMap(a), PhaseMap(b));
    forall n | n in a ensures a[n] == b[n] {
      assert PhaseMap(a)[n] == PhaseMap(b)[n];
    }
  }

  lemma SameUnphased(a: map<string, Definition>, b: map<string, Definition>)
    requires Unphased(a) == Unphased(b)
    ensures a.Keys == b.Keys && DependencyLists(a) == DependencyLists(b)
    ensures forall n :: n in a ==> a[n].(releasePhase := 0) == b[n].(releasePhase := 0)
  {
    assert a.Keys == Unphased(a).Keys && b.Keys == Unphased(b).Keys;
    forall n | n in a ensures a[n].(releasePhase := 0) == b[n].(releasePhase := 0) {
      assert Unphased(a)[n] == Unphased(b)[n];
    }
  }

  lemma SelectedWithinGlobal(p: Planner, names: set<string>)
    requires names <= p.definitions.Keys
    ensures SelectedGraph(p, names).Keys == names && Closed(SelectedGraph(p, names))
    ensures forall n :: n in names ==> SelectedGraph(p, names)[n] <= GlobalGraph(p.definitions)[n]
  {
    SelectedGraphFacts(p, names);
    forall n, s | n in names && s in SelectedGraph(p, names)[n] ensures s in GlobalGraph(p.definitions)[n] {
      GlobalGraphEdges(p.definitions, n, s);
    }
  }

  /** No selection of services of such a planner has a cycle. */
  lemma SelectionsAreAcyclic(p: Planner, names: set<string>)
    requires GloballyPhased(p.definitions) && names <= p.definitions.Keys
    ensures !Cyclic(SelectedGraph(p, names))
  {
    var g := GlobalGraph(p.definitions);
    RankedIsAcyclic(g, PhaseMap(p.definitions));
    SelectedWithinGlobal(p, names);
    SubgraphAcyclic(g, SelectedGraph(p, names));
  }

  /** Planning any selection gives each service its global phase: the length of its
      longest chain of ordering dependencies, selected or not. */
  lemma SelectionsKeepGlobalPhases(p: Planner, names: set<string>, phase: map<string, int>, n: string)
    requires GloballyPhased(p.definitions) && names <= p.definitions.Keys
    requires PhasesOf(p, names, phase) && n in names
    ensures phase[n] == p.definitions[n].releasePhase
    ensures LongestChain(GlobalGraph(p.definitions), n, phase[n])
  {
    KeepsPhase(p, names, phase, n);
    ReleasePhaseIsLongestChain(p.definitions, n);
  }

  lemma ReleasePhaseIsLongestChain(definitions: map<string, Definition>, n: string)
    requires GloballyPhased(definitions) && n in definitions
    ensures LongestChain(GlobalGraph(definitions), n, definitions[n].releasePhase)
  {
    PhaseIsLongestChain(GlobalGraph(definitions), Zero(definitions.Keys), PhaseMap(definitions), n);
  }

  lemma KeepsPhase(p: Planner, names: set<string>, phase: map<string, int>, n: string)
    requires GloballyPhased(p.definitions) && names <= p.definitions.Keys
    requires PhasesOf(p, names, phase) && n in names
    ensures phase[n] == p.definitions[n].releasePhase
  {
    var g, f := GlobalGraph(p.definitions), PhaseMap(p.definitions);
    var h := SelectedGraph(p, names);
    SelectedWithinGlobal(p, names);
    SameBase(h, ReleasePhases(p, names), f, phase);
    SubsetKeepsPhases(g, Zero(p.definitions.Keys), f, h, phase);
  }

  /** Only the base of the graph's own nodes matters. */
  lemma SameBase(g: Graph, base: map<string, int>, base': map<string, int>, f: map<string, int>)
    requires Closed(g) && g.Keys <= base.Keys && g.Keys <= base'.Keys
    requires forall n :: n in g ==> base[n] == base'[n]
    requires LeastPhases(g, base, f)
    ensures LeastPhases(g, base', f)
  {
    forall h | Respects(g, base', h) ensures Respects(g, base, h) {}
  }
}
