/** A planner from its contracts, profiles and options, and what of them its plans can show. */
module PlannerBuild {
  import opened Order
  import opened Domain
  import opened Contract
  import opened Profiles
  import opened Plan
  import opened P = Planner
  import opened PlannerSetup

  const DEFAULT_PLAN_TTL := 900_000_000_000

  datatype Options = Options(planTTL: int, contextSnapshotRef: string, policyHash: string, evidenceHash: string)

  // --- Profiles ---

  function ProfileHash(h: Hasher, p: ReleaseProfile): string { "sha256:" + h.profile(ProfileForm(p)) }

  function ProfileOf(p: ReleaseProfile): Profile {
    Profile(p.requiredCapabilities, p.verificationRequired, p.observationWindow, p.rollbackMode)
  }

  predicate ProfileOk(h: Hasher, validate: ReleaseProfile -> bool, p: ReleaseProfile) {
    validate(p) && (p.contentHash == "" || p.contentHash == ProfileHash(h, p))
  }

  ghost predicate ProfilesOk(h: Hasher, validate: ReleaseProfile -> bool, list: seq<ReleaseProfile>) {
    OkUpTo(h, validate, list, |list|)
  }

  ghost predicate OkUpTo(h: Hasher, validate: ReleaseProfile -> bool, list: seq<ReleaseProfile>, k: nat)
    requires k <= |list|
  {
    && (forall i :: 0 <= i < k ==> ProfileOk(h, validate, list[i]))
    && (forall i, j :: 0 <= i < j < k ==> list[i].name != list[j].name)
  }

  ghost predicate Named(list: seq<ReleaseProfile>, k: nat, name: string)
    requires k <= |list|
  {
    exists i :: 0 <= i < k && list[i].name == name
  }

  ghost predicate Stored(h: Hasher, p: ReleaseProfile, profiles: map<string, Profile>, hashes: map<string, string>) {
    && p.name in profiles && p.name in hashes
    && profiles[p.name] == ProfileOf(p) && hashes[p.name] == ProfileHash(h, p)
  }

  /** The first `k` profiles and their hashes by name. */
  ghost predicate Profiled(h: Hasher, list: seq<ReleaseProfile>, k: nat, profiles: map<string, Profile>,
                           hashes: map<string, string>)
  {
    && k <= |list| && profiles.Keys == hashes.Keys
    && (forall n :: n in profiles ==> Named(list, k, n))
    && (forall i :: 0 <= i < k ==> Stored(h, list[i], profiles, hashes))
  }

  lemma OneMoreProfile(h: Hasher, list: seq<ReleaseProfile>, k: nat, profiles: map<string, Profile>,
                       hashes: map<string, string>)
    requires k < |list| && Profiled(h, list, k, profiles, hashes) && list[k].name !in profiles
    ensures Profiled(h, list, k + 1, profiles[list[k].name := ProfileOf(list[k])],
                     hashes[list[k].name := ProfileHash(h, list[k])])
  {
    var name, profile, hash := list[k].name, ProfileOf(list[k]), ProfileHash(h, list[k]);
    forall n | n in profiles ensures Named(list, k + 1, n) {
      assert Named(list, k, n);
    }
    assert Named(list, k + 1, name);
    forall i | 0 <= i < k ensures Stored(h, list[i], profiles[name := profile], hashes[name := hash]) {
      assert Stored(h, list[i], profiles, hashes);
    }
    assert Stored(h, list[k], profiles[name := profile], hashes[name := hash]);
  }

  lemma NextProfile(h: Hasher, validate: ReleaseProfile -> bool, list: seq<ReleaseProfile>, k: nat,
                    profiles: map<string, Profile>, hashes: map<string, string>)
    requires k < |list| && OkUpTo(h, validate, list, k) && Profiled(h, list, k, profiles, hashes)
    ensures OkUpTo(h, validate, list, k + 1) <==> ProfileOk(h, validate, list[k]) && list[k].name !in profiles
    ensures ProfilesOk(h, validate, list) ==> OkUpTo(h, validate, list, k + 1)
  {
    NameTakenIff(h, list, k, profiles, hashes, list[k].name);
    OkUpToNext(h, validate, list, k);
  }

  lemma NameTakenIff(h: Hasher, list: seq<ReleaseProfile>, k: nat, profiles: map<string, Profile>,
                     hashes: map<string, string>, name: string)
    requires Profiled(h, list, k, profiles, hashes)
    ensures name in profiles <==> Named(list, k, name)
  {
    if Named(list, k, name) {
      var i :| 0 <= i < k && list[i].name == name;
      assert Stored(h, list[i], profiles, hashes);
    }
  }

  lemma OkUpToNext(h: Hasher, validate: ReleaseProfile -> bool, list: seq<ReleaseProfile>, k: nat)
    requires k < |list| && OkUpTo(h, validate, list, k)
    ensures OkUpTo(h, validate, list, k + 1) <==>
            ProfileOk(h, validate, list[k]) && !Named(list, k, list[k].name)
    ensures ProfilesOk(h, validate, list) ==> OkUpTo(h, validate, list, k + 1)
  {
  }

  /** Every profile is valid, unchanged since it was hashed and the only one of its name, or the first that is
      not is reported. */
  method CollectProfiles(h: Hasher, validate: ReleaseProfile -> bool, list: seq<ReleaseProfile>)
      returns (problem: Option<BuildError>, profiles: map<string, Profile>, hashes: map<string, string>)
    ensures problem.None? <==> ProfilesOk(h, validate, list)
    ensures problem.None? ==> Profiled(h, list, |list|, profiles, hashes)
    ensures problem.Some? ==>
              problem.value.InvalidProfile? || problem.value.DuplicateProfile? || problem.value.ProfileHashMismatch?
  {
    profiles, hashes := map[], map[];
    for k := 0 to |list|
      invariant Profiled(h, list, k, profiles, hashes)
      invariant OkUpTo(h, validate, list, k)
    {
      var p := list[k];
      NextProfile(h, validate, list, k, profiles, hashes);
      if !validate(p) {
        return Some(InvalidProfile(p.name)), profiles, hashes;
      }
      if p.name in profiles {
        return Some(DuplicateProfile(p.name)), profiles, hashes;
      }
      if p.contentHash != "" && p.contentHash != ProfileHash(h, p) {
        return Some(ProfileHashMismatch(p.name)), profiles, hashes;
      }
      OneMoreProfile(h, list, k, profiles, hashes);
      profiles, hashes := profiles[p.name := ProfileOf(p)], hashes[p.name := ProfileHash(h, p)];
    }
    problem := None;
  }

  // --- The planner ---

  function ContractHashes(definitions: map<string, Definition>): map<string, string> {
    map n | n in definitions :: definitions[n].contractHash
  }

  function ContextRef(h: Hasher, options: Options, contracts: map<string, string>,
                      profiles: map<string, string>): string {
    if options.contextSnapshotRef != "" then options.contextSnapshotRef
    else "content:sha256:" + h.context(Pins(contracts, profiles, options.policyHash, options.evidenceHash))
  }

  function NewPlanner(h: Hasher, definitions: map<string, Definition>, profiles: map<string, Profile>,
                      hashes: map<string, string>, options: Options): P.Planner {
    P.Planner(definitions, profiles, ContractHashes(definitions), hashes,
              ContextRef(h, options, ContractHashes(definitions), hashes), options.policyHash, options.evidenceHash,
              if options.planTTL <= 0 then DEFAULT_PLAN_TTL else options.planTTL)
  }

  ghost predicate Built(h: Hasher, contracts: seq<ServiceContract>, list: seq<ReleaseProfile>, options: Options,
                        p: P.Planner) {
    && BuiltFrom(h, contracts, p.definitions) && Profiled(h, list, |list|, p.profiles, p.profileHashes)
    && p == NewPlanner(h, p.definitions, p.profiles, p.profileHashes, options)
  }

  lemma OneProfiling(h: Hasher, list: seq<ReleaseProfile>, a: map<string, Profile>, ah: map<string, string>,
                     b: map<string, Profile>, bh: map<string, string>)
    requires Profiled(h, list, |list|, a, ah) && Profiled(h, list, |list|, b, bh)
    ensures a == b
  {
    forall n | n in a ensures n in b && a[n] == b[n] {
      assert Named(list, |list|, n);
    }
    forall n | n in b ensures n in a {
      assert Named(list, |list|, n);
    }
  }

  /** The contracts are acceptable with these profiles. */
  ghost predicate Acceptable(h: Hasher, validate: ServiceContract -> bool, contracts: seq<ServiceContract>,
                             list: seq<ReleaseProfile>) {
    contracts != [] && exists profiles: map<string, Profile>, hashes: map<string, string> ::
      Profiled(h, list, |list|, profiles, hashes) && AllAdmissible(h, validate, profiles, contracts)
  }

  lemma AcceptableIff(h: Hasher, validate: ServiceContract -> bool, contracts: seq<ServiceContract>,
                      list: seq<ReleaseProfile>, profiles: map<string, Profile>, hashes: map<string, string>)
    requires contracts != [] && Profiled(h, list, |list|, profiles, hashes)
    ensures Acceptable(h, validate, contracts, list) <==> AllAdmissible(h, validate, profiles, contracts)
  {
    if Acceptable(h, validate, contracts, list) {
      var other, hashes' :| Profiled(h, list, |list|, other, hashes') && AllAdmissible(h, validate, other, contracts);
      OneProfiling(h, list, profiles, hashes, other, hashes');
    }
  }

  method NewFromContracts(h: Hasher, validate: ServiceContract -> bool, validateProfile: ReleaseProfile -> bool,
                          contracts: seq<ServiceContract>, list: seq<ReleaseProfile>, options: Options)
      returns (r: Result<P.Planner, BuildError>)
    ensures r.Success? <==>
              ProfilesOk(h, validateProfile, list) && Acceptable(h, validate, contracts, list) && Sound(h, contracts)
    ensures r.Success? ==> Built(h, contracts, list, options, r.value)
    ensures r == Failure(OrderingCycle) <==>
              ProfilesOk(h, validateProfile, list) && Acceptable(h, validate, contracts, list) && Looped(h, contracts)
    ensures r == Failure(UnknownDependency) <==>
              && ProfilesOk(h, validateProfile, list) && Acceptable(h, validate, contracts, list)
              && !Sound(h, contracts) && !Looped(h, contracts)
  {
    if contracts == [] {
      return Failure(NoContracts);
    }
    var problem, profiles, hashes := CollectProfiles(h, validateProfile, list);
    if problem.Some? {
      return Failure(problem.value);
    }
    AcceptableIff(h, validate, contracts, list, profiles, hashes);
    var defined := DefineAll(h, validate, profiles, contracts);
    if defined.Failure? {
      return Failure(defined.error);
    }
    return Success(NewPlanner(h, defined.value, profiles, hashes, options));
  }

  // --- What the order of the inputs can show ---

  /** The contents of a list of profiles, whatever the order in it and in the profiles. */
  ghost function ProfileForms(list: seq<ReleaseProfile>): set<ReleaseProfile> {
    set p | p in list :: ProfileForm(p)
  }

  /** Equal up to the order of the required capabilities. */
  ghost predicate SameCapabilities(a: Profile, b: Profile) {
    && a.(requiredCapabilities := []) == b.(requiredCapabilities := [])
    && multiset(a.requiredCapabilities) == multiset(b.requiredCapabilities)
  }

  /** Planners that differ at most in the order of capabilities. */
  ghost predicate Alike(p: P.Planner, q: P.Planner) {
    && q.(profiles := p.profiles) == p && p.profiles.Keys == q.profiles.Keys
    && forall n :: n in p.profiles ==> SameCapabilities(p.profiles[n], q.profiles[n])
  }

  /** Both know the name, with the same hash and profiles that differ at most in the order of capabilities. */
  ghost predicate Agree(a: map<string, Profile>, ah: map<string, string>, b: map<string, Profile>,
                        bh: map<string, string>, n: string) {
    && n in a && n in ah && n in b && n in bh
    && SameCapabilities(a[n], b[n]) && ah[n] == bh[n]
  }

  lemma AllAgree(a: map<string, Profile>, ah: map<string, string>, b: map<string, Profile>, bh: map<string, string>)
    requires a.Keys == ah.Keys && b.Keys == bh.Keys
    requires forall n :: n in a ==> Agree(a, ah, b, bh, n)
    requires forall n :: n in b ==> Agree(b, bh, a, ah, n)
    ensures a.Keys == b.Keys && ah == bh && forall n :: n in a ==> SameCapabilities(a[n], b[n])
  {
    assert forall n :: n in a <==> n in b;
    assert ah.Keys == bh.Keys;
  }

  lemma ProfileWithin(h: Hasher, list: seq<ReleaseProfile>, list': seq<ReleaseProfile>, a: map<string, Profile>,
                      ah: map<string, string>, b: map<string, Profile>, bh: map<string, string>, n: string)
    requires Profiled(h, list, |list|, a, ah) && Profiled(h, list', |list'|, b, bh)
    requires ProfileForms(list) <= ProfileForms(list') && n in a
    ensures Agree(a, ah, b, bh, n)
  {
    assert Named(list, |list|, n);
    var i :| 0 <= i < |list| && list[i].name == n;
    var p := list[i];
    assert ProfileForm(p) in ProfileForms(list');
    var q :| q in list' && ProfileForm(q) == ProfileForm(p);
    ProfileFormIff(p, q);
    assert q.name == ProfileForm(q).name == n;
  }

  lemma SameProfiles(h: Hasher, list: seq<ReleaseProfile>, list': seq<ReleaseProfile>, a: map<string, Profile>,
                     ah: map<string, string>, b: map<string, Profile>, bh: map<string, string>)
    requires Profiled(h, list, |list|, a, ah) && Profiled(h, list', |list'|, b, bh)
    requires ProfileForms(list) == ProfileForms(list')
    ensures a.Keys == b.Keys && ah == bh && forall n :: n in a ==> SameCapabilities(a[n], b[n])
  {
    forall n | n in a ensures Agree(a, ah, b, bh, n) {
      ProfileWithin(h, list, list', a, ah, b, bh, n);
    }
    forall n | n in b ensures Agree(b, bh, a, ah, n) {
      ProfileWithin(h, list', list, b, bh, a, ah, n);
    }
    AllAgree(a, ah, b, bh);
  }

  /** Contracts and profiles in another order, with their own lists in another order, make planners that
      are pinned to the same contracts, profiles and context and differ at most in the order of capabilities. */
  lemma PlannersAreAlike(h: Hasher, contracts: seq<ServiceContract>, contracts': seq<ServiceContract>,
                         list: seq<ReleaseProfile>, list': seq<ReleaseProfile>, options: Options, p: P.Planner,
                         q: P.Planner)
    requires Built(h, contracts, list, options, p) && Built(h, contracts', list', options, q)
    requires Forms(contracts) == Forms(contracts') && ProfileForms(list) == ProfileForms(list')
    ensures Alike(p, q)
  {
    PlannerIgnoresContractOrder(h, contracts, contracts', p.definitions, q.definitions);
    SameProfiles(h, list, list', p.profiles, p.profileHashes, q.profiles, q.profileHashes);
  }

  lemma SameStep(p: P.Planner, q: P.Planner, h: Hasher, intent: Intent, c: Change, phase: int)
    requires Alike(p, q) && c.service in p.definitions && intent.environment in p.definitions[c.service].environments
    ensures StepFor(p, h, intent, c, phase) == StepFor(q, h, intent, c, phase)
  {
    var name := p.definitions[c.service].environments[intent.environment].profile;
    if name in p.profiles {
      LessIsTotal();
      SortIsNormalForm(Less, p.profiles[name].requiredCapabilities, q.profiles[name].requiredCapabilities);
    }
  }

  lemma SameStepsFor(p: P.Planner, q: P.Planner, h: Hasher, intent: Intent, changes: map<string, Change>,
                     phase: map<string, int>)
    requires Alike(p, q) && Declared(p, intent.environment, changes.Keys)
    requires forall n :: n in changes ==> changes[n].service == n
    ensures StepsFor(p, h, intent, changes, phase) == StepsFor(q, h, intent, changes, phase)
  {
    forall n | n in changes
      ensures StepFor(p, h, intent, changes[n], At(phase, n)) == StepFor(q, h, intent, changes[n], At(phase, n))
    {
      SameStep(p, q, h, intent, changes[n], At(phase, n));
    }
  }

  lemma SamePhases(p: P.Planner, q: P.Planner, names: set<string>, phase: map<string, int>)
    requires names <= p.definitions.Keys && p.definitions == q.definitions && PhasesOf(q, names, phase)
    ensures PhasesOf(p, names, phase)
  {
    assert Dependencies(p, names) == Dependencies(q, names);
    assert ReleasePhases(p, names) == ReleasePhases(q, names);
  }

  /** What one planner plans, a planner alike plans too. */
  lemma AlikePlan(p: P.Planner, q: P.Planner, h: Hasher, intent: Intent, phases: seq<PlanPhase>)
    requires Alike(p, q) && PlannedPhases(q, h, intent, phases)
    ensures PlannedPhases(p, h, intent, phases)
  {
    var changes, phase :| PlannedWith(q, h, intent, phases, changes, phase);
    SameStepsFor(p, q, h, intent, changes, phase);
    SamePhases(p, q, changes.Keys, phase);
    assert PlannedWith(p, h, intent, phases, changes, phase);
  }

  /** Permuting changes, contracts and profiles, and the dependencies, capabilities and checks inside them,
      changes neither the phases of a plan nor its hash. */
  lemma OrderLeavesNoTrace(h: Hasher, contracts: seq<ServiceContract>, contracts': seq<ServiceContract>,
                           list: seq<ReleaseProfile>, list': seq<ReleaseProfile>, options: Options, p: P.Planner,
                           q: P.Planner, intent: Intent, intent': Intent, phases: seq<PlanPhase>,
                           phases': seq<PlanPhase>)
    requires Built(h, contracts, list, options, p) && Built(h, contracts', list', options, q)
    requires Forms(contracts) == Forms(contracts') && ProfileForms(list) == ProfileForms(list')
    requires intent'.(changes := intent.changes) == intent && multiset(intent.changes) == multiset(intent'.changes)
    requires PlannedPhases(p, h, intent, phases) && PlannedPhases(q, h, intent', phases')
    ensures phases == phases'
    ensures PlanHash(h, ContentFor(p, intent, phases)) == PlanHash(h, ContentFor(q, intent', phases'))
  {
    PlannersAreAlike(h, contracts, contracts', list, list', options, p, q);
    AlikePlan(p, q, h, intent', phases');
    PlanIgnoresChangeOrder(p, h, intent, intent', phases, phases');
  }

  // --- Whether there is a plan ---

  lemma ValidWithin(p: P.Planner, environment: string, list: seq<Change>, list': seq<Change>)
    requires multiset(list) == multiset(list') && ValidChanges(p, environment, list)
    ensures ValidChanges(p, environment, list')
  {
    SameMultisetSameMembers(list, list');
    forall i, j | 0 <= i < j < |list'| ensures list'[i].service != list'[j].service {
      var k, l := TwoPlaces(list', list, i, j);
    }
  }

  /** A permuted intent is planned by a planner alike exactly when the original is. */
  lemma PlansTogether(p: P.Planner, q: P.Planner, intent: Intent, intent': Intent)
    requires Alike(p, q)
    requires intent'.(changes := intent.changes) == intent && multiset(intent.changes) == multiset(intent'.changes)
    ensures WellFormed(p, intent) <==> WellFormed(q, intent')
    ensures SelectedGraph(p, P.Services(intent.changes)) == SelectedGraph(q, P.Services(intent'.changes))
  {
    SameMultisetSameMembers(intent.changes, intent'.changes);
    assert P.Services(intent.changes) == P.Services(intent'.changes);
    assert forall c :: Problem(p, intent.environment, {}, c) == Problem(q, intent.environment, {}, c);
    if ValidChanges(p, intent.environment, intent.changes) {
      ValidWithin(p, intent.environment, intent.changes, intent'.changes);
    }
    if ValidChanges(p, intent.environment, intent'.changes) {
      ValidWithin(p, intent.environment, intent'.changes, intent.changes);
    }
  }

  // --- Whether there is a planner ---

  /** What is compared of a contract: its content, whatever the order in its lists, and its stored hash. */
  function Seal(c: ServiceContract): ServiceContract { CanonicalForm(c).(contentHash := c.contentHash) }

  function ProfileSeal(p: ReleaseProfile): ReleaseProfile { ProfileForm(p).(contentHash := p.contentHash) }

  lemma SealIff(c: ServiceContract, d: ServiceContract)
    ensures Seal(c) == Seal(d) <==> SameContract(c, d) && c.contentHash == d.contentHash
  {
    CanonicalFormIff(c, d);
    assert CanonicalForm(c) == Seal(c).(contentHash := "") && CanonicalForm(d) == Seal(d).(contentHash := "");
  }

  lemma ProfileSealIff(p: ReleaseProfile, q: ReleaseProfile)
    ensures ProfileSeal(p) == ProfileSeal(q) <==> SameProfile(p, q) && p.contentHash == q.contentHash
    ensures ProfileSeal(p) == ProfileSeal(q) ==> ProfileForm(p) == ProfileForm(q)
  {
    ProfileFormIff(p, q);
    assert ProfileForm(p) == ProfileSeal(p).(contentHash := "") && ProfileForm(q) == ProfileSeal(q).(contentHash := "");
  }

  ghost function Seals(contracts: seq<ServiceContract>): (r: seq<ServiceContract>)
    ensures |r| == |contracts| && forall i :: 0 <= i < |r| ==> r[i] == Seal(contracts[i])
  {
    seq(|contracts|, i requires 0 <= i < |contracts| => Seal(contracts[i]))
  }

  ghost function ProfileSeals(list: seq<ReleaseProfile>): (r: seq<ReleaseProfile>)
    ensures |r| == |list| && forall i :: 0 <= i < |r| ==> r[i] == ProfileSeal(list[i])
  {
    seq(|list|, i requires 0 <= i < |list| => ProfileSeal(list[i]))
  }

  /** Contract by contract the same, in some order. */
  ghost predicate SameContracts(contracts: seq<ServiceContract>, contracts': seq<ServiceContract>) {
    multiset(Seals(contracts)) == multiset(Seals(contracts'))
  }

  /** Profile by profile the same, in some order. */
  ghost predicate SameProfileList(list: seq<ReleaseProfile>, list': seq<ReleaseProfile>) {
    multiset(ProfileSeals(list)) == multiset(ProfileSeals(list'))
  }

  ghost predicate Respects(validate: ServiceContract -> bool) {
    forall c, d :: Seal(c) == Seal(d) ==> validate(c) == validate(d)
  }

  ghost predicate RespectsProfiles(validate: ReleaseProfile -> bool) {
    forall p, q :: ProfileSeal(p) == ProfileSeal(q) ==> validate(p) == validate(q)
  }

  lemma LikeContract(contracts: seq<ServiceContract>, contracts': seq<ServiceContract>, i: nat) returns (j: nat)
    requires SameContracts(contracts, contracts') && i < |contracts'|
    ensures j < |contracts| && Seal(contracts[j]) == Seal(contracts'[i])
  {
    SameMultisetSameMembers(Seals(contracts), Seals(contracts'));
    assert Seals(contracts')[i] in Seals(contracts);
    j :| 0 <= j < |contracts| && Seals(contracts)[j] == Seals(contracts')[i];
  }

  lemma LikeProfile(list: seq<ReleaseProfile>, list': seq<ReleaseProfile>, i: nat) returns (j: nat)
    requires SameProfileList(list, list') && i < |list'|
    ensures j < |list| && ProfileSeal(list[j]) == ProfileSeal(list'[i])
  {
    SameMultisetSameMembers(ProfileSeals(list), ProfileSeals(list'));
    assert ProfileSeals(list')[i] in ProfileSeals(list);
    j :| 0 <= j < |list| && ProfileSeals(list)[j] == ProfileSeals(list')[i];
  }

  lemma ProfilesOkWithin(h: Hasher, validate: ReleaseProfile -> bool, list: seq<ReleaseProfile>,
                         list': seq<ReleaseProfile>)
    requires RespectsProfiles(validate) && SameProfileList(list, list') && ProfilesOk(h, validate, list)
    ensures ProfilesOk(h, validate, list')
  {
    forall i, j | 0 <= i < j < |list'| ensures list'[i].name != list'[j].name {
      var k, l := TwoPlaces(ProfileSeals(list'), ProfileSeals(list), i, j);
      assert list[k].name == ProfileSeals(list)[k].name && list[l].name == ProfileSeals(list)[l].name;
      assert list'[i].name == ProfileSeals(list')[i].name && list'[j].name == ProfileSeals(list')[j].name;
    }
    forall i: nat | i < |list'| ensures ProfileOk(h, validate, list'[i]) {
      var j := LikeProfile(list, list', i);
      ProfileSealIff(list[j], list'[i]);
    }
  }

  /** Profiles under names of their own can be collected. */
  lemma {:induction false} CanCollect(h: Hasher, list: seq<ReleaseProfile>, k: nat)
      returns (profiles: map<string, Profile>, hashes: map<string, string>)
    requires k <= |list| && forall i, j :: 0 <= i < j < k ==> list[i].name != list[j].name
    ensures Profiled(h, list, k, profiles, hashes)
  {
    profiles, hashes := map[], map[];
    if k > 0 {
      profiles, hashes := CanCollect(h, list, k - 1);
      OneMoreProfile(h, list, k - 1, profiles, hashes);
      profiles, hashes := profiles[list[k - 1].name := ProfileOf(list[k - 1])],
                          hashes[list[k - 1].name := ProfileHash(h, list[k - 1])];
    }
  }

  lemma FormsWithin(list: seq<ReleaseProfile>, list': seq<ReleaseProfile>)
    requires SameProfileList(list, list')
    ensures ProfileForms(list') <= ProfileForms(list)
  {
    forall f | f in ProfileForms(list') ensures f in ProfileForms(list) {
      var i: nat :| i < |list'| && ProfileForm(list'[i]) == f;
      var j := LikeProfile(list, list', i);
      ProfileSealIff(list[j], list'[i]);
      assert list[j] in list;
    }
  }

  /** Profiles that differ at most in the order of capabilities. */
  ghost predicate AlikeProfiles(a: map<string, Profile>, b: map<string, Profile>) {
    a.Keys == b.Keys && forall n :: n in a ==> SameCapabilities(a[n], b[n])
  }

  lemma SameEnvironmentOk(a: map<string, Profile>, b: map<string, Profile>, e: EnvironmentContract,
                          e': EnvironmentContract)
    requires AlikeProfiles(a, b) && SameEnvironment(e, e') && EnvironmentOk(a, e)
    ensures EnvironmentOk(b, e')
  {
    var p, q := a[e.releaseProfile], b[e.releaseProfile];
    SameMultisetSameMembers(p.requiredCapabilities, q.requiredCapabilities);
    SameMultisetSameMembers(e.capabilities, e'.capabilities);
  }

  lemma SameAdmissible(h: Hasher, validate: ServiceContract -> bool, a: map<string, Profile>, b: map<string, Profile>,
                       c: ServiceContract, c': ServiceContract)
    requires Respects(validate) && AlikeProfiles(a, b) && Seal(c) == Seal(c') && Admissible(h, validate, a, c)
    ensures Admissible(h, validate, b, c')
  {
    SealIff(c, c');
    CanonicalFormIff(c, c');
    forall n | n in c'.environments ensures EnvironmentOk(b, c'.environments[n]) {
      SameEnvironmentOk(a, b, c.environments[n], c'.environments[n]);
    }
  }

  lemma SameName(c: ServiceContract, c': ServiceContract)
    requires Seal(c) == Seal(c')
    ensures c.metadata.name == c'.metadata.name
  {
    assert c.metadata == Seal(c).metadata && c'.metadata == Seal(c').metadata;
  }

  lemma AdmissibleWithin(h: Hasher, validate: ServiceContract -> bool, a: map<string, Profile>,
                         b: map<string, Profile>, contracts: seq<ServiceContract>, contracts': seq<ServiceContract>)
    requires Respects(validate) && AlikeProfiles(a, b) && SameContracts(contracts, contracts')
    requires AllAdmissible(h, validate, a, contracts)
    ensures AllAdmissible(h, validate, b, contracts')
  {
    forall i, j | 0 <= i < j < |contracts'| ensures contracts'[i].metadata.name != contracts'[j].metadata.name {
      var k, l := TwoPlaces(Seals(contracts'), Seals(contracts), i, j);
      SameName(contracts[k], contracts'[i]);
      SameName(contracts[l], contracts'[j]);
    }
    forall i: nat | i < |contracts'| ensures Admissible(h, validate, b, contracts'[i]) {
      var j := LikeContract(contracts, contracts', i);
      SameAdmissible(h, validate, a, b, contracts[j], contracts'[i]);
    }
  }

  lemma CollectAlike(h: Hasher, validate: ReleaseProfile -> bool, list: seq<ReleaseProfile>,
                     list': seq<ReleaseProfile>, a: map<string, Profile>, ah: map<string, string>)
      returns (b: map<string, Profile>, bh: map<string, string>)
    requires SameProfileList(list, list') && ProfilesOk(h, validate, list') && Profiled(h, list, |list|, a, ah)
    ensures Profiled(h, list', |list'|, b, bh) && AlikeProfiles(a, b)
  {
    b, bh := CanCollect(h, list', |list'|);
    FormsWithin(list, list');
    FormsWithin(list', list);
    SameProfiles(h, list, list', a, ah, b, bh);
  }

  lemma AcceptableWithin(h: Hasher, validate: ServiceContract -> bool, validateProfile: ReleaseProfile -> bool,
                         contracts: seq<ServiceContract>, contracts': seq<ServiceContract>,
                         list: seq<ReleaseProfile>, list': seq<ReleaseProfile>)
    requires Respects(validate) && SameContracts(contracts, contracts') && SameProfileList(list, list')
    requires ProfilesOk(h, validateProfile, list') && Acceptable(h, validate, contracts, list)
    ensures Acceptable(h, validate, contracts', list')
  {
    var a, ah :| Profiled(h, list, |list|, a, ah) && AllAdmissible(h, validate, a, contracts);
    var b, bh := CollectAlike(h, validateProfile, list, list', a, ah);
    AdmissibleWithin(h, validate, a, b, contracts, contracts');
    assert |Seals(contracts)| == |multiset(Seals(contracts))| && |Seals(contracts')| == |multiset(Seals(contracts'))|;
  }

  lemma SameDefinition(h: Hasher, c: ServiceContract, c': ServiceContract)
    requires Seal(c) == Seal(c')
    ensures c.metadata.name == c'.metadata.name && DefinitionOf(h, c) == DefinitionOf(h, c')
  {
    SealIff(c, c');
    DefinitionIgnoresOrder(h, c, c');
  }

  lemma DefinesPermuted(h: Hasher, contracts: seq<ServiceContract>, contracts': seq<ServiceContract>,
                        definitions: map<string, Definition>)
    requires SameContracts(contracts, contracts') && Defines(h, contracts, definitions)
    ensures Defines(h, contracts', definitions)
  {
    forall c' | c' in contracts'
      ensures c'.metadata.name in definitions && definitions[c'.metadata.name] == DefinitionOf(h, c')
    {
      var i: nat :| i < |contracts'| && contracts'[i] == c';
      var j := LikeContract(contracts, contracts', i);
      assert contracts[j] in contracts;
      SameDefinition(h, contracts[j], c');
    }
    forall n | n in definitions ensures exists c' :: c' in contracts' && c'.metadata.name == n {
      var c :| c in contracts && c.metadata.name == n;
      var i: nat :| i < |contracts| && contracts[i] == c;
      var j := LikeContract(contracts', contracts, i);
      SameName(contracts'[j], c);
      assert contracts'[j] in contracts';
    }
  }

  lemma SoundTogether(h: Hasher, contracts: seq<ServiceContract>, contracts': seq<ServiceContract>)
    requires SameContracts(contracts, contracts')
    ensures Sound(h, contracts) <==> Sound(h, contracts')
    ensures Looped(h, contracts) <==> Looped(h, contracts')
  {
    forall definitions ensures Defines(h, contracts, definitions) <==> Defines(h, contracts', definitions) {
      if Defines(h, contracts, definitions) {
        DefinesPermuted(h, contracts, contracts', definitions);
      }
      if Defines(h, contracts', definitions) {
        DefinesPermuted(h, contracts', contracts, definitions);
      }
    }
  }

  /** Contracts and profiles that are the same one by one, up to the order in their lists, build a planner in any
      order exactly when the originals do, if the validators do not look at that order either. */
  lemma BuildsTogether(h: Hasher, validate: ServiceContract -> bool, validateProfile: ReleaseProfile -> bool,
                       contracts: seq<ServiceContract>, contracts': seq<ServiceContract>, list: seq<ReleaseProfile>,
                       list': seq<ReleaseProfile>)
    requires Respects(validate) && RespectsProfiles(validateProfile)
    requires SameContracts(contracts, contracts') && SameProfileList(list, list')
    ensures ProfilesOk(h, validateProfile, list) <==> ProfilesOk(h, validateProfile, list')
    ensures ProfilesOk(h, validateProfile, list) ==>
              (Acceptable(h, validate, contracts, list) <==> Acceptable(h, validate, contracts', list'))
    ensures Sound(h, contracts) <==> Sound(h, contracts')
    ensures Looped(h, contracts) <==> Looped(h, contracts')
  {
    SoundTogether(h, contracts, contracts');
    if ProfilesOk(h, validateProfile, list) {
      ProfilesOkWithin(h, validateProfile, list, list');
      if Acceptable(h, validate, contracts, list) {
        AcceptableWithin(h, validate, validateProfile, contracts, contracts', list, list');
      }
      if Acceptable(h, validate, contracts', list') {
        AcceptableWithin(h, validate, validateProfile, contracts', contracts, list', list);
      }
    }
    if ProfilesOk(h, validateProfile, list') {
      ProfilesOkWithin(h, validateProfile, list', list);
    }
  }
}
