/** Service contracts and the normal form their content hash is taken over. */
module Contract {
  import opened Order
  import opened Domain

  datatype EnvironmentContract = EnvironmentContract(releaseProfile: string, runnerGroup: string,
                                                     capabilities: seq<string>)
  datatype Check = Check(kind: string, threshold: string, check: string)
  datatype Verification = Verification(profile: string, observationWindow: string, checks: seq<Check>)
  datatype Rollback = Rollback(capability: string, strategy: string, deadline: string)
  datatype Metadata = Metadata(name: string, owner: string, repository: string, riskTier: string)

  datatype ServiceContract = ServiceContract(
    apiVersion: string, kind: string, metadata: Metadata, environments: map<string, EnvironmentContract>,
    dependencies: seq<Dependency>, verification: Verification, rollback: Rollback,
    contentHash: string, source: string)

  /** Checks are compared by type, then check, then threshold. */
  function CheckFields(c: Check): seq<string> {
    [c.kind, c.check, c.threshold]
  }

  predicate CheckLess(a: Check, b: Check) {
    ListLess(CheckFields(a), CheckFields(b))
  }

  lemma CheckLessIsTotal()
    ensures StrictTotal(CheckLess)
  {
    forall a: Check, b: Check | a != b ensures CheckFields(a) != CheckFields(b) {
      var f, g := CheckFields(a), CheckFields(b);
      assert f[0] != g[0] || f[1] != g[1] || f[2] != g[2];
    }
    FieldOrderIsTotal(CheckFields, CheckLess, 3);
  }

  function SortedEnvironment(e: EnvironmentContract): EnvironmentContract {
    e.(capabilities := Sort(Less, e.capabilities))
  }

  function SortedEnvironments(m: map<string, EnvironmentContract>): (r: map<string, EnvironmentContract>)
    ensures r.Keys == m.Keys
  {
    map n | n in m :: SortedEnvironment(m[n])
  }

  function CanonicalForm(c: ServiceContract): ServiceContract {
    c.(contentHash := "",
       source := "",
       environments := SortedEnvironments(c.environments),
       dependencies := SortedDependencies(c.dependencies),
       verification := c.verification.(checks := Sort(CheckLess, c.verification.checks)))
  }

  /** Builds the normal form; environments are visited in any order. */
  method Canonical(c: ServiceContract) returns (r: ServiceContract)
    ensures r == CanonicalForm(c)
  {
    r := c.(contentHash := "", source := "");
    var environments: map<string, EnvironmentContract> := map[];
    var todo := c.environments.Keys;
    while todo != {}
      invariant todo <= c.environments.Keys
      invariant environments.Keys == c.environments.Keys - todo
      invariant forall n :: n in environments ==> environments[n] == SortedEnvironment(c.environments[n])
    {
      var name :| name in todo;
      todo := todo - {name};
      var environment := c.environments[name];
      environment := environment.(capabilities := Sort(Less, environment.capabilities));
      environments := environments[name := environment];
    }
    assert environments == SortedEnvironments(c.environments);
    r := r.(environments := environments);
    r := r.(dependencies := SortedDependencies(r.dependencies));
    r := r.(verification := r.verification.(checks := Sort(CheckLess, r.verification.checks)));
  }

  ghost predicate SameEnvironment(a: EnvironmentContract, b: EnvironmentContract) {
    && a.releaseProfile == b.releaseProfile
    && a.runnerGroup == b.runnerGroup
    && multiset(a.capabilities) == multiset(b.capabilities)
  }

  /** The same contract up to the order of dependencies, capabilities and checks,
      and whatever file it came from and hash was stored with it. */
  ghost predicate SameContract(c: ServiceContract, d: ServiceContract) {
    && c.apiVersion == d.apiVersion && c.kind == d.kind && c.metadata == d.metadata && c.rollback == d.rollback
    && c.environments.Keys == d.environments.Keys
    && (forall n :: n in c.environments ==> SameEnvironment(c.environments[n], d.environments[n]))
    && multiset(c.dependencies) == multiset(d.dependencies)
    && c.verification.profile == d.verification.profile
    && c.verification.observationWindow == d.verification.observationWindow
    && multiset(c.verification.checks) == multiset(d.verification.checks)
  }

  lemma SortedEnvironmentIff(a: EnvironmentContract, b: EnvironmentContract)
    ensures SortedEnvironment(a) == SortedEnvironment(b) <==> SameEnvironment(a, b)
  {
    LessIsTotal();
    SortIsNormalForm(Less, a.capabilities, b.capabilities);
  }

  lemma EnvironmentsIff(a: map<string, EnvironmentContract>, b: map<string, EnvironmentContract>)
    ensures SortedEnvironments(a) == SortedEnvironments(b) <==>
            a.Keys == b.Keys && forall n :: n in a ==> SameEnvironment(a[n], b[n])
  {
    var s, t := SortedEnvironments(a), SortedEnvironments(b);
    if a.Keys == b.Keys {
      forall n | n in a ensures s[n] == t[n] <==> SameEnvironment(a[n], b[n]) {
        SortedEnvironmentIff(a[n], b[n]);
      }
      assert s == t <==> forall n :: n in a ==> s[n] == t[n];
    }
  }

  /** Normal forms coincide exactly when the contracts say the same thing. */
  lemma CanonicalFormIff(c: ServiceContract, d: ServiceContract)
    ensures CanonicalForm(c) == CanonicalForm(d) <==> SameContract(c, d)
  {
    EnvironmentsIff(c.environments, d.environments);
    DependencyLessIsTotal();
    SortIsNormalForm(DependencyLess, c.dependencies, d.dependencies);
    CheckLessIsTotal();
    SortIsNormalForm(CheckLess, c.verification.checks, d.verification.checks);
  }

  /** The normal form is a contract with the same content, and normalising again changes nothing. */
  lemma CanonicalFormStable(c: ServiceContract)
    ensures SameContract(CanonicalForm(c), c)
    ensures CanonicalForm(CanonicalForm(c)) == CanonicalForm(c)
  {
    CanonicalFormIff(CanonicalForm(c), c);
  }
}
