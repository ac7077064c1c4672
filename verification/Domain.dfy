/** Values shared by the planner, the contracts and the workflow. */
module Domain {
  import opened Order

  datatype Option<+T> = None | Some(value: T)
  datatype Result<+T, +E> = Success(value: T) | Failure(error: E)

  const ROLLOUT_ORDER := "rollout-order"
  const SHARED_FAILURE_DOMAIN := "shared-failure-domain"
  const DATA_MIGRATION := "data-migration"
  const TRAFFIC := "traffic"

  /** A declared dependency; `kind` is the dependency type's wire name. */
  datatype Dependency = Dependency(kind: string, service: string, resource: string, condition: string,
                                   constraint: string)

  predicate EnforcesRolloutOrder(kind: string) {
    kind == ROLLOUT_ORDER || kind == DATA_MIGRATION || kind == TRAFFIC
  }

  /** The dependencies that order releases: they name a service and their type enforces order. */
  predicate Orders(d: Dependency) {
    d.service != "" && EnforcesRolloutOrder(d.kind)
  }

  /** The fields in the order they are compared. */
  function DependencyFields(d: Dependency): seq<string> {
    [d.kind, d.service, d.resource, d.condition, d.constraint]
  }

  predicate DependencyLess(a: Dependency, b: Dependency) {
    ListLess(DependencyFields(a), DependencyFields(b))
  }

  lemma DependencyLessIsTotal()
    ensures StrictTotal(DependencyLess)
  {
    forall a: Dependency, b: Dependency | a != b ensures DependencyFields(a) != DependencyFields(b) {
      var f, g := DependencyFields(a), DependencyFields(b);
      assert f[0] != g[0] || f[1] != g[1] || f[2] != g[2] || f[3] != g[3] || f[4] != g[4];
    }
    FieldOrderIsTotal(DependencyFields, DependencyLess, 5);
  }

  function SortedDependencies(ds: seq<Dependency>): (r: seq<Dependency>)
    ensures multiset(r) == multiset(ds)
  {
    Sort(DependencyLess, ds)
  }

  /** The value of `m` at `k`, or zero: reading a Go map of integers. */
  function At<K>(m: map<K, int>, k: K): int {
    if k in m then m[k] else 0
  }
}
