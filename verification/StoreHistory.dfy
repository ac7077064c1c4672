/** The run store over whole histories: a persisted version is written once, however often it is retried and
    whatever happens in between. */
module StoreHistory {
  import opened Domain
  import opened Release
  import opened RunStore

  datatype Op = Creation(run: ReleaseRun, audit: seq<string>, events: seq<OutboxEvent>)
              | Persisting(run: ReleaseRun, audit: seq<string>, events: seq<OutboxEvent>)
              | Marking(id: string)
              | Rebuilding(id: string)

  predicate OpOk(op: Op) {
    (op.Creation? || op.Persisting?) ==> NoProjections(op.events)
  }

  function Do(s: Store, op: Op): Store {
    match op
    case Creation(run, audit, events) => Create(s, run, audit, events).0
    case Persisting(run, audit, events) => Persist(s, run, audit, events).0
    case Marking(id) => s.(outbox := Mark(s.outbox, id))
    case Rebuilding(id) => Rebuild(s, id).0
  }

  function DoAll(s: Store, ops: seq<Op>): Store
    decreases |ops|
  {
    if ops == [] then s else DoAll(Do(s, ops[0]), ops[1..])
  }

  ghost predicate OpsOk(ops: seq<Op>) {
    forall op :: op in ops ==> OpOk(op)
  }

  lemma {:induction false} DoAllThen(s: Store, a: seq<Op>, b: seq<Op>)
    ensures DoAll(s, a + b) == DoAll(DoAll(s, a), b)
    decreases |a|
  {
    if a == [] {
      assert a + b == b;
    } else {
      assert (a + b)[1..] == a[1..] + b;
      DoAllThen(Do(s, a[0]), a[1..], b);
    }
  }

  // --- What every operation keeps ---

  /** A stored row is never lost and never goes back to an earlier version. */
  ghost predicate Onward(s: Store, s': Store) {
    forall id :: id in s.runs ==> id in s'.runs && s.runs[id].stateVersion <= s'.runs[id].stateVersion
  }

  lemma PersistGoesOn(s: Store, run: ReleaseRun, audit: seq<string>, events: seq<OutboxEvent>)
    ensures Onward(s, Persist(s, run, audit, events).0)
  {
  }

  lemma CreateGoesOn(s: Store, run: ReleaseRun, audit: seq<string>, events: seq<OutboxEvent>)
    ensures Onward(s, Create(s, run, audit, events).0)
  {
  }

  lemma DoGoesOn(s: Store, op: Op)
    requires StoreOk(s)
    ensures Onward(s, Do(s, op))
  {
    match op
    case Creation(run, audit, events) => CreateGoesOn(s, run, audit, events);
    case Persisting(run, audit, events) => PersistGoesOn(s, run, audit, events);
    case Marking(id) =>
    case Rebuilding(id) => RebuildIsIdentity(s, id);
  }

  lemma DoKeeps(s: Store, op: Op)
    requires StoreOk(s) && OpOk(op)
    ensures StoreOk(Do(s, op)) && Onward(s, Do(s, op))
  {
    DoGoesOn(s, op);
    match op
    case Creation(run, audit, events) => CreateKeeps(s, run, audit, events);
    case Persisting(run, audit, events) => PersistKeeps(s, run, audit, events);
    case Marking(id) => MarkKeepsLogs(s.outbox, id);
    case Rebuilding(id) => RebuildIsIdentity(s, id);
  }

  lemma {:induction false} HistoryKeeps(s: Store, ops: seq<Op>)
    requires StoreOk(s) && OpsOk(ops)
    ensures StoreOk(DoAll(s, ops)) && Onward(s, DoAll(s, ops))
    decreases |ops|
  {
    if ops != [] {
      assert ops[0] in ops;
      DoKeeps(s, ops[0]);
      HistoryKeeps(Do(s, ops[0]), ops[1..]);
    }
  }

  // --- One write for every version ---

  /** A persist of the same version of the same run. */
  predicate Competes(op: Op, run: ReleaseRun) {
    op.Persisting? && op.run.info.id == run.info.id && op.run.stateVersion == run.stateVersion
  }

  function Without(ops: seq<Op>, run: ReleaseRun): seq<Op> {
    if ops == [] then []
    else if Competes(ops[0], run) then Without(ops[1..], run)
    else [ops[0]] + Without(ops[1..], run)
  }

  /** The row is past the version. */
  ghost predicate Past(s: Store, run: ReleaseRun) {
    run.info.id in s.runs && s.runs[run.info.id].stateVersion > run.stateVersion
  }

  lemma {:induction false} LateRivalsVanish(s: Store, run: ReleaseRun, ops: seq<Op>)
    requires StoreOk(s) && OpsOk(ops) && Past(s, run)
    ensures DoAll(s, ops) == DoAll(s, Without(ops, run))
    decreases |ops|
  {
    if ops != [] {
      assert ops[0] in ops;
      DoKeeps(s, ops[0]);
      LateRivalsVanish(Do(s, ops[0]), run, ops[1..]);
      if Competes(ops[0], run) {
        assert Do(s, ops[0]) == s;
      } else {
        assert ([ops[0]] + Without(ops[1..], run))[1..] == Without(ops[1..], run);
      }
    }
  }

  /** Of all persists of one version of a run, only the first that writes does: a history with the others
      leaves the same store as the history without them. Nothing is asked of the operations in between. */
  lemma OneWritePerVersion(s: Store, run: ReleaseRun, audit: seq<string>, events: seq<OutboxEvent>, after: seq<Op>)
    requires StoreOk(s) && NoProjections(events) && OpsOk(after)
    requires run.info.id in s.runs && s.runs[run.info.id].stateVersion == run.stateVersion
    ensures var once := Persisting(run, audit, events);
            DoAll(s, [once] + after) == DoAll(s, [once] + Without(after, run))
  {
    var once := Persisting(run, audit, events);
    DoKeeps(s, once);
    LateRivalsVanish(Do(s, once), run, after);
    assert ([once] + after)[1..] == after && ([once] + Without(after, run))[1..] == Without(after, run);
  }

  // --- A retried persist ---

  /** The operation is no persist of this run, or a repetition of the one that happened. */
  predicate Aside(op: Op, run: ReleaseRun) {
    op.Persisting? && op.run.info.id == run.info.id ==> op.run == run
  }

  /** The operation is no persist of this run. */
  predicate Apart(op: Op, run: ReleaseRun) {
    !(op.Persisting? && op.run.info.id == run.info.id)
  }

  /** The run of `id` has the row and log of `log`. */
  ghost predicate Holds(s: Store, id: string, row: ReleaseRun, log: seq<ReleaseRun>) {
    id in s.runs && s.runs[id] == row && Log(s.outbox, id) == log
  }

  lemma CreationStays(s: Store, id: string, run: ReleaseRun, audit: seq<string>, events: seq<OutboxEvent>)
    requires id in s.runs && NoProjections(events)
    ensures var s' := Create(s, run, audit, events).0;
            id in s'.runs && s'.runs[id] == s.runs[id] && Log(s'.outbox, id) == Log(s.outbox, id)
  {
    LogAppends(s.outbox, events, run, id);
  }

  lemma PersistingStays(s: Store, run: ReleaseRun, other: ReleaseRun, audit: seq<string>, events: seq<OutboxEvent>)
    requires run.info.id in s.runs && NoProjections(events) && (other.info.id == run.info.id ==> other == run)
    requires other == run ==> s.runs[run.info.id] == Versioned(run, run.stateVersion + 1)
    ensures var s', id := Persist(s, other, audit, events).0, run.info.id;
            id in s'.runs && s'.runs[id] == s.runs[id] && Log(s'.outbox, id) == Log(s.outbox, id)
  {
    if other == run {
      RepeatedAnswer(s, run, audit, events);
    } else {
      PersistIsLocal(s, other, audit, events, run.info.id);
      LogAppends(s.outbox, events, Versioned(other, other.stateVersion + 1), run.info.id);
    }
  }

  lemma AsideStays(s: Store, run: ReleaseRun, row: ReleaseRun, log: seq<ReleaseRun>, op: Op)
    requires StoreOk(s) && OpOk(op) && Aside(op, run) && Holds(s, run.info.id, row, log)
    requires row == Versioned(run, run.stateVersion + 1) || !op.Persisting? || op.run != run
    ensures Holds(Do(s, op), run.info.id, row, log)
  {
    match op
    case Creation(other, audit, events) => CreationStays(s, run.info.id, other, audit, events);
    case Persisting(other, audit, events) => PersistingStays(s, run, other, audit, events);
    case Marking(id) => MarkLogs(s.outbox, id, run.info.id);
    case Rebuilding(id) => RebuildIsIdentity(s, id);
  }

  lemma {:induction false} RetriesStay(s: Store, run: ReleaseRun, log: seq<ReleaseRun>, ops: seq<Op>)
    requires StoreOk(s) && OpsOk(ops) && forall op :: op in ops ==> Aside(op, run)
    requires Holds(s, run.info.id, Versioned(run, run.stateVersion + 1), log)
    ensures Holds(DoAll(s, ops), run.info.id, Versioned(run, run.stateVersion + 1), log)
    decreases |ops|
  {
    if ops != [] {
      assert ops[0] in ops;
      DoKeeps(s, ops[0]);
      AsideStays(s, run, Versioned(run, run.stateVersion + 1), log, ops[0]);
      RetriesStay(Do(s, ops[0]), run, log, ops[1..]);
    }
  }

  lemma {:induction false} OthersStay(s: Store, run: ReleaseRun, row: ReleaseRun, log: seq<ReleaseRun>, ops: seq<Op>)
    requires StoreOk(s) && OpsOk(ops)
    requires forall op :: op in ops ==> Apart(op, run)
    requires Holds(s, run.info.id, row, log)
    ensures Holds(DoAll(s, ops), run.info.id, row, log)
    decreases |ops|
  {
    if ops != [] {
      assert ops[0] in ops;
      DoKeeps(s, ops[0]);
      AsideStays(s, run, row, log, ops[0]);
      OthersStay(Do(s, ops[0]), run, row, log, ops[1..]);
    }
  }

  lemma OnceWrites(s: Store, run: ReleaseRun, audit: seq<string>, events: seq<OutboxEvent>)
    requires StoreOk(s) && NoProjections(events)
    requires run.info.id in s.runs && s.runs[run.info.id].stateVersion == run.stateVersion
    ensures var row := Versioned(run, run.stateVersion + 1);
            && Holds(Do(s, Persisting(run, audit, events)), run.info.id, row, Log(s.outbox, run.info.id) + [row])
            && Do(s, Persisting(run, audit, events)).audit == s.audit + audit
            && Do(s, Persisting(run, audit, events)).outbox == s.outbox + events + [Projection(row)]
  {
    PersistWritesOnce(s, run, audit, events);
    LogAppends(s.outbox, events, Versioned(run, run.stateVersion + 1), run.info.id);
  }

  /** The retried persist's version of the run is the row, and the last entry of its log. */
  lemma PersistedAnswer(s1: Store, run: ReleaseRun, audit: seq<string>, events: seq<OutboxEvent>, after: seq<Op>)
    requires StoreOk(s1) && OpsOk(after) && NoProjections(events)
    requires forall op :: op in after ==> Aside(op, run)
    requires run.info.id in s1.runs && s1.runs[run.info.id].stateVersion == run.stateVersion
    ensures var once, row := Persisting(run, audit, events), Versioned(run, run.stateVersion + 1);
            Holds(DoAll(s1, [once] + after), run.info.id, row, Log(s1.outbox, run.info.id) + [row])
  {
    var once, row := Persisting(run, audit, events), Versioned(run, run.stateVersion + 1);
    OnceWrites(s1, run, audit, events);
    DoKeeps(s1, once);
    RetriesStay(Do(s1, once), run, Log(s1.outbox, run.info.id) + [row], after);
    assert ([once] + after)[1..] == after;
  }

  /** Before any persist of the run, its row and log are as they were. */
  lemma BeforeOnce(s: Store, before: seq<Op>, run: ReleaseRun)
    requires StoreOk(s) && OpsOk(before) && forall op :: op in before ==> Apart(op, run)
    requires run.info.id in s.runs
    ensures var s1 := DoAll(s, before);
            StoreOk(s1) && Holds(s1, run.info.id, s.runs[run.info.id], Log(s.outbox, run.info.id))
  {
    HistoryKeeps(s, before);
    OthersStay(s, run, s.runs[run.info.id], Log(s.outbox, run.info.id), before);
  }

  /** A version that is persisted again and again, with any operations in between, is written once. */
  lemma RetriesVanish(s: Store, before: seq<Op>, run: ReleaseRun, audit: seq<string>, events: seq<OutboxEvent>,
                      after: seq<Op>)
    requires StoreOk(DoAll(s, before)) && OpsOk(after) && NoProjections(events)
    requires var s1 := DoAll(s, before);
             run.info.id in s1.runs && s1.runs[run.info.id].stateVersion == run.stateVersion
    ensures var once := Persisting(run, audit, events);
            DoAll(s, before + ([once] + after)) == DoAll(s, before + ([once] + Without(after, run)))
  {
    var once := Persisting(run, audit, events);
    OneWritePerVersion(DoAll(s, before), run, audit, events, after);
    DoAllThen(s, before, [once] + after);
    DoAllThen(s, before, [once] + Without(after, run));
  }

  lemma FirstWrites(s: Store, run: ReleaseRun, audit: seq<string>, events: seq<OutboxEvent>)
    requires run.info.id in s.runs && s.runs[run.info.id].stateVersion == run.stateVersion
    ensures Do(s, Persisting(run, audit, events)) == Write(s, Versioned(run, run.stateVersion + 1), audit, events)
  {
  }

  lemma RepeatedAnswer(s: Store, run: ReleaseRun, audit: seq<string>, events: seq<OutboxEvent>)
    requires run.info.id in s.runs && s.runs[run.info.id] == Versioned(run, run.stateVersion + 1)
    ensures Persist(s, run, audit, events) == (s, Success(Versioned(run, run.stateVersion + 1)))
  {
  }

  /** A persist, repeated any number of times among creations, persists of other runs, marks and rebuilds, adds
      one version and one projection, and the store is the one a single persist leaves. Every repetition gets
      the answer of the first. */
  lemma PersistedOnce(s: Store, before: seq<Op>, run: ReleaseRun, audit: seq<string>, events: seq<OutboxEvent>,
                      after: seq<Op>, audit': seq<string>, events': seq<OutboxEvent>)
    requires StoreOk(s) && OpsOk(before) && OpsOk(after) && NoProjections(events)
    requires forall op :: op in before ==> Apart(op, run)
    requires forall op :: op in after ==> Aside(op, run)
    requires run.info.id in s.runs && s.runs[run.info.id].stateVersion == run.stateVersion
    ensures var once, row := Persisting(run, audit, events), Versioned(run, run.stateVersion + 1);
            var end := DoAll(s, before + ([once] + after));
            && end == DoAll(s, before + ([once] + Without(after, run)))
            && Do(DoAll(s, before), once) == Write(DoAll(s, before), row, audit, events)
            && Persist(end, run, audit', events') == (end, Success(row))
            && Holds(end, run.info.id, row, Log(s.outbox, run.info.id) + [row])
  {
    BeforeOnce(s, before, run);
    var s1, once := DoAll(s, before), Persisting(run, audit, events);
    FirstWrites(s1, run, audit, events);
    RetriesVanish(s, before, run, audit, events, after);
    PersistedAnswer(s1, run, audit, events, after);
    DoAllThen(s, before, [once] + after);
    RepeatedAnswer(DoAll(s1, [once] + after), run, audit', events');
  }

  // --- Nothing written is taken back ---

  function Unmarked(e: OutboxEvent): OutboxEvent {
    if e.DomainEvent? then e.(published := false) else e
  }

  /** The outbox begins with these events, but for their publication marks. */
  ghost predicate Retains(events: seq<OutboxEvent>, outbox: seq<OutboxEvent>) {
    && |events| <= |outbox|
    && forall i :: 0 <= i < |events| ==> Unmarked(events[i]) == Unmarked(outbox[i])
  }

  lemma {:induction false} MarkRetains(outbox: seq<OutboxEvent>, id: string)
    ensures Retains(outbox, Mark(outbox, id)) && |Mark(outbox, id)| == |outbox|
    decreases |outbox|
  {
    if outbox != [] {
      MarkRetains(outbox[1..], id);
    }
  }

  lemma {:induction false} HistoryRetains(s: Store, ops: seq<Op>)
    ensures s.audit <= DoAll(s, ops).audit && Retains(s.outbox, DoAll(s, ops).outbox)
    decreases |ops|
  {
    if ops != [] {
      var next := Do(s, ops[0]);
      if ops[0].Marking? {
        MarkRetains(s.outbox, ops[0].id);
      }
      assert s.audit <= next.audit && Retains(s.outbox, next.outbox);
      HistoryRetains(next, ops[1..]);
    }
  }
}
