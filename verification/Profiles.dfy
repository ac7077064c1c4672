/** Release profiles and the normal form their content hash is taken over. */
module Profiles {
  import opened Order

  datatype ReleaseProfile = ReleaseProfile(
    apiVersion: string, kind: string, name: string, requiredCapabilities: seq<string>, strategy: string,
    verificationRequired: bool, observationWindow: string, rollbackMode: string, contentHash: string, source: string)

  function ProfileForm(p: ReleaseProfile): ReleaseProfile {
    p.(contentHash := "", source := "", requiredCapabilities := Sort(Less, p.requiredCapabilities))
  }

  /** Equal up to the order of the required capabilities, the stored hash and the source. */
  ghost predicate SameProfile(p: ReleaseProfile, q: ReleaseProfile) {
    && p.(contentHash := "", source := "", requiredCapabilities := []) ==
       q.(contentHash := "", source := "", requiredCapabilities := [])
    && multiset(p.requiredCapabilities) == multiset(q.requiredCapabilities)
  }

  /** The normal form tells exactly the profiles apart that differ in content. */
  lemma ProfileFormIff(p: ReleaseProfile, q: ReleaseProfile)
    ensures ProfileForm(p) == ProfileForm(q) <==> SameProfile(p, q)
  {
    LessIsTotal();
    SortIsNormalForm(Less, p.requiredCapabilities, q.requiredCapabilities);
  }
}
