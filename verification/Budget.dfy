/** The multi-dimensional concurrency budget. A reservation holds one unit of
    every key of its step; a key may be held several times by one reservation,
    because failure domains are not deduplicated. */
module Budget {
  import opened Order
  import opened Domain

  datatype Step = Step(id: string, phase: int, tenant: string, environment: string, region: string, cluster: string,
                       team: string, riskTier: string, runnerGroup: string, failureDomains: seq<string>,
                       dependencies: seq<string>)

  datatype Limits = Limits(tenantGlobal: int, defaultPerDimension: int, environment: map<string, int>,
                           region: map<string, int>, cluster: map<string, int>, team: map<string, int>,
                           riskTier: map<string, int>, sharedFailureDomain: int)

  const DEFAULT_LIMITS := Limits(20, 20, map[], map[], map[], map[], map[], 1)

  predicate PositiveEntries(m: map<string, int>) {
    forall k :: k in m ==> k != "" && m[k] >= 1
  }

  predicate ValidLimits(l: Limits) {
    && l.tenantGlobal >= 1 && l.defaultPerDimension >= 1 && l.sharedFailureDomain >= 1
    && PositiveEntries(l.environment) && PositiveEntries(l.region) && PositiveEntries(l.cluster)
    && PositiveEntries(l.team) && PositiveEntries(l.riskTier)
  }

  datatype Dimension = TenantGlobal | Environment | Region | Cluster | Team | RiskTier | FailureDomain | Service

  datatype Key = Key(dimension: Dimension, key: string, limitKey: string)

  datatype Blocked = Blocked(dimension: Dimension, key: string, limit: int)

  function ConfiguredLimit(m: map<string, int>, k: string, fallback: int): int {
    if k in m then m[k] else fallback
  }

  function LimitOf(l: Limits, k: Key): int {
    match k.dimension
    case TenantGlobal => l.tenantGlobal
    case Environment => ConfiguredLimit(l.environment, k.limitKey, l.defaultPerDimension)
    case Region => ConfiguredLimit(l.region, k.limitKey, l.defaultPerDimension)
    case Cluster => ConfiguredLimit(l.cluster, k.limitKey, l.defaultPerDimension)
    case Team => ConfiguredLimit(l.team, k.limitKey, l.defaultPerDimension)
    case RiskTier => ConfiguredLimit(l.riskTier, k.limitKey, l.defaultPerDimension)
    case FailureDomain => l.sharedFailureDomain
    case Service => 1
  }

  function TenantKey(tenant: string): string {
    if tenant == "" then "default" else tenant
  }

  function ServiceKey(step: Step): Key {
    Key(Service, TenantKey(step.tenant) + "/" + step.environment + "/" + step.id, step.id)
  }

  function DomainKey(step: Step, domain: string): Key {
    Key(FailureDomain, TenantKey(step.tenant) + "/" + step.environment + "/" + domain, domain)
  }

  function KeysFor(step: Step): (r: seq<Key>)
    ensures ServiceKey(step) in r
  {
    var tenant := TenantKey(step.tenant);
    var domains := Sort(Less, step.failureDomains);
    var fixed := [
      Key(TenantGlobal, tenant, tenant),
      Key(Environment, tenant + "/" + step.environment, step.environment),
      Key(Region, tenant + "/" + step.environment + "/" + step.region, step.region),
      Key(Cluster, tenant + "/" + step.environment + "/" + step.region + "/" + step.cluster, step.cluster),
      Key(Team, tenant + "/" + step.team, step.team),
      Key(RiskTier, tenant + "/" + step.riskTier, step.riskTier),
      ServiceKey(step)];
    assert fixed[6] == ServiceKey(step);
    fixed + seq(|domains|, i requires 0 <= i < |domains| => DomainKey(step, domains[i]))
  }

  // --- The budget as a multiset of held keys ---

  ghost predicate Represents(active: map<Key, int>, held: multiset<Key>) {
    && (forall k :: At(active, k) == held[k])
    && (forall k :: k in active ==> active[k] >= 1)
  }

  /** The refusals of an acquisition: every key already at its limit, in key order. */
  ghost function BlockedBy(l: Limits, held: multiset<Key>, keys: seq<Key>): seq<Blocked> {
    if keys == [] then []
    else
      var last := keys[|keys| - 1];
      BlockedBy(l, held, keys[..|keys| - 1]) +
      if held[last] >= LimitOf(l, last) then [Blocked(last.dimension, last.key, LimitOf(l, last))] else []
  }

  ghost predicate Free(l: Limits, held: multiset<Key>, keys: seq<Key>) {
    forall k :: k in keys ==> held[k] < LimitOf(l, k)
  }

  /** An acquisition is refused exactly when some key has no unit left. */
  lemma {:induction false} BlockedIff(l: Limits, held: multiset<Key>, keys: seq<Key>)
    ensures BlockedBy(l, held, keys) == [] <==> Free(l, held, keys)
  {
    if keys != [] {
      var init, last := keys[..|keys| - 1], keys[|keys| - 1];
      assert keys == init + [last];
      BlockedIff(l, held, init);
    }
  }

  lemma LimitsArePositive(l: Limits, k: Key)
    requires ValidLimits(l)
    ensures LimitOf(l, k) >= 1
  {
  }

  lemma CountUp(active: map<Key, int>, held: multiset<Key>, k: Key)
    requires Represents(active, held)
    ensures Represents(active[k := At(active, k) + 1], held + multiset{k})
  {
  }

  lemma CountOut(active: map<Key, int>, held: multiset<Key>, k: Key)
    requires Represents(active, held) && At(active, k) <= 1
    ensures Represents(active - {k}, held - multiset{k})
  {
    assert held[k] <= 1;
  }

  lemma CountDown(active: map<Key, int>, held: multiset<Key>, k: Key)
    requires Represents(active, held) && At(active, k) > 1
    ensures Represents(active[k := active[k] - 1], held - multiset{k})
  {
    assert held[k] > 1;
  }

  lemma AddOne(held: multiset<Key>, keys: seq<Key>, i: nat)
    requires i < |keys|
    ensures held + multiset(keys[..i]) + multiset{keys[i]} == held + multiset(keys[..i + 1])
    ensures held - multiset(keys[..i]) - multiset{keys[i]} == held - multiset(keys[..i + 1])
  {
    assert keys[..i + 1] == keys[..i] + [keys[i]];
  }

  class Budget {
    const limits: Limits
    var active: map<Key, int>
    ghost var held: multiset<Key>

    ghost predicate Valid()
      reads this
    {
      ValidLimits(limits) && Represents(active, held)
    }

    constructor (limits: Limits)
      requires ValidLimits(limits)
      ensures Valid() && held == multiset{} && this.limits == limits
    {
      this.limits := limits;
      active := map[];
      held := multiset{};
    }

    method Refusals(keys: seq<Key>) returns (blocked: seq<Blocked>)
      requires Valid()
      ensures blocked == BlockedBy(limits, held, keys)
    {
      blocked := [];
      for i := 0 to |keys|
        invariant blocked == BlockedBy(limits, held, keys[..i])
      {
        assert keys[..i + 1][..i] == keys[..i];
        if At(active, keys[i]) >= LimitOf(limits, keys[i]) {
          blocked := blocked + [Blocked(keys[i].dimension, keys[i].key, LimitOf(limits, keys[i]))];
        }
      }
      assert keys[..|keys|] == keys;
    }

    method TakeAll(keys: seq<Key>)
      requires Valid()
      modifies this
      ensures Valid() && held == old(held) + multiset(keys)
    {
      for i := 0 to |keys|
        invariant Represents(active, held) && held == old(held) + multiset(keys[..i])
      {
        AddOne(old(held), keys, i);
        CountUp(active, held, keys[i]);
        active := active[keys[i] := At(active, keys[i]) + 1];
        held := held + multiset{keys[i]};
      }
      assert keys[..|keys|] == keys;
    }

    /** Takes every key of the step or none of them. */
    method TryAcquire(step: Step) returns (reservation: seq<Key>, blocked: seq<Blocked>)
      requires Valid()
      modifies this
      ensures Valid()
      ensures blocked == BlockedBy(limits, old(held), KeysFor(step))
      ensures blocked == [] <==> Free(limits, old(held), KeysFor(step))
      ensures blocked == [] ==> reservation == KeysFor(step) && held == old(held) + multiset(KeysFor(step))
      ensures blocked != [] ==> reservation == [] && held == old(held) && active == old(active)
      ensures held == old(held) + multiset(reservation)
    {
      var keys := KeysFor(step);
      BlockedIff(limits, held, keys);
      blocked := Refusals(keys);
      if |blocked| > 0 {
        return [], blocked;
      }
      TakeAll(keys);
      reservation := keys;
    }

    method ReleaseOne(k: Key)
      requires Valid()
      modifies this
      ensures Valid() && held == old(held) - multiset{k}
    {
      if At(active, k) <= 1 {
        CountOut(active, held, k);
        active := active - {k};
      } else {
        CountDown(active, held, k);
        active := active[k := active[k] - 1];
      }
      held := held - multiset{k};
    }

    /** Gives back the keys of a reservation; units that are not held are ignored. */
    method Release(reservation: seq<Key>)
      requires Valid()
      modifies this
      ensures Valid() && held == old(held) - multiset(reservation)
    {
      for i := 0 to |reservation|
        invariant Valid() && held == old(held) - multiset(reservation[..i])
      {
        AddOne(old(held), reservation, i);
        ReleaseOne(reservation[i]);
      }
      assert reservation[..|reservation|] == reservation;
    }
  }

  // --- Several reservations at once ---

  /** All keys held by a list of reservations. */
  function Sum(lists: seq<seq<Key>>): multiset<Key> {
    if lists == [] then multiset{} else Sum(lists[..|lists| - 1]) + multiset(lists[|lists| - 1])
  }

  /** How many reservations hold a key. */
  function Holders(lists: seq<seq<Key>>, k: Key): nat {
    if lists == [] then 0
    else Holders(lists[..|lists| - 1], k) + if k in lists[|lists| - 1] then 1 else 0
  }

  lemma {:induction false} HoldersWithinSum(lists: seq<seq<Key>>, k: Key)
    ensures Holders(lists, k) <= Sum(lists)[k]
  {
    if lists != [] {
      HoldersWithinSum(lists[..|lists| - 1], k);
      assert k in lists[|lists| - 1] ==> multiset(lists[|lists| - 1])[k] >= 1;
    }
  }

  ghost predicate WithinLimits(l: Limits, lists: seq<seq<Key>>) {
    forall k :: Holders(lists, k) <= LimitOf(l, k)
  }

  /** Taking a reservation whose keys all have a unit left keeps every key's number of
      holders within its limit, although a key may be counted more than once. */
  lemma AcquireKeepsLimits(l: Limits, lists: seq<seq<Key>>, keys: seq<Key>)
    requires WithinLimits(l, lists) && Free(l, Sum(lists), keys)
    ensures WithinLimits(l, lists + [keys])
  {
    var more := lists + [keys];
    assert more[..|more| - 1] == lists;
    forall k ensures Holders(more, k) <= LimitOf(l, k) {
      HoldersWithinSum(lists, k);
    }
  }
}
