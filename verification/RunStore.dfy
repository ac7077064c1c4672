/** The durable store of runs: optimistic versions, a projection event for every
    write, and the transactional outbox. */
module RunStore {
  import opened Domain
  import opened Release

  /** Every write of a run appends its projection; other events carry an id, a type and a publication mark. */
  datatype OutboxEvent = Projection(run: ReleaseRun)
                       | DomainEvent(id: string, aggregateID: string, eventType: string, published: bool)

  datatype Store = Store(runs: map<string, ReleaseRun>, byRequest: map<string, string>,
                         projections: map<string, ReleaseRun>, outbox: seq<OutboxEvent>, audit: seq<string>)

  const EMPTY := Store(map[], map[], map[], [], [])

  datatype StoreError = NotFound | Conflict | DuplicateRun

  // --- Operations on values ---

  function Create(s: Store, run: ReleaseRun, audit: seq<string>, events: seq<OutboxEvent>)
      : (Store, Result<(ReleaseRun, bool), StoreError>)
  {
    if run.info.requestID in s.byRequest then
      var id := s.byRequest[run.info.requestID];
      (s, if id in s.runs then Success((s.runs[id], false)) else Failure(NotFound))
    else if run.info.id in s.runs then (s, Failure(DuplicateRun))
    else
      (Store(s.runs[run.info.id := run], s.byRequest[run.info.requestID := run.info.id],
             s.projections[run.info.id := run], s.outbox + events + [Projection(run)], s.audit + audit),
       Success((run, true)))
  }

  function Versioned(run: ReleaseRun, version: int): (r: ReleaseRun)
    ensures r.info.id == run.info.id && r.stateVersion == version
  {
    run.(stateVersion := version)
  }

  /** A row and its projection event, together with the caller's events. */
  function Write(s: Store, run: ReleaseRun, audit: seq<string>, events: seq<OutboxEvent>): Store {
    Store(s.runs[run.info.id := run], s.byRequest, s.projections[run.info.id := run],
          s.outbox + events + [Projection(run)], s.audit + audit)
  }

  function Update(s: Store, run: ReleaseRun, expected: int, audit: seq<string>, events: seq<OutboxEvent>)
      : (Store, Result<ReleaseRun, StoreError>)
  {
    if run.info.id !in s.runs then (s, Failure(NotFound))
    else if s.runs[run.info.id].stateVersion != expected then (s, Failure(Conflict))
    else
      (Write(s, Versioned(run, expected + 1), audit, events), Success(Versioned(run, expected + 1)))
  }

  /** The persist activity: an update, or its own earlier success recognised after a conflict. */
  function Persist(s: Store, run: ReleaseRun, audit: seq<string>, events: seq<OutboxEvent>)
      : (Store, Result<ReleaseRun, StoreError>)
  {
    var (s', r) := Update(s, run, run.stateVersion, audit, events);
    if r == Failure(Conflict) && run.info.id in s.runs && s.runs[run.info.id] == Versioned(run, run.stateVersion + 1)
    then (s, Success(s.runs[run.info.id]))
    else (s', r)
  }

  function Rebuild(s: Store, id: string): (Store, Option<StoreError>) {
    if id !in s.projections then (s, Some(NotFound)) else (s.(runs := s.runs[id := s.projections[id]]), None)
  }

  predicate IsEvent(e: OutboxEvent, id: string) {
    e.DomainEvent? && e.id == id
  }

  /** The first event with the id is marked. */
  function Mark(outbox: seq<OutboxEvent>, id: string): seq<OutboxEvent> {
    if outbox == [] then []
    else if IsEvent(outbox[0], id) then [outbox[0].(published := true)] + outbox[1..]
    else [outbox[0]] + Mark(outbox[1..], id)
  }

  predicate Unpublished(e: OutboxEvent, eventType: string) {
    e.DomainEvent? && e.eventType == eventType && !e.published
  }

  /** The unpublished events of a type, oldest first. */
  function AllPending(outbox: seq<OutboxEvent>, eventType: string): seq<OutboxEvent> {
    if outbox == [] then []
    else
      var last := outbox[|outbox| - 1];
      AllPending(outbox[..|outbox| - 1], eventType) + if Unpublished(last, eventType) then [last] else []
  }

  /** At most `limit` of them; a limit that is not positive or exceeds the outbox means no limit. */
  function Pending(outbox: seq<OutboxEvent>, eventType: string, limit: int): seq<OutboxEvent> {
    var all := AllPending(outbox, eventType);
    if limit <= 0 || limit > |outbox| || limit >= |all| then all else all[..limit]
  }

  lemma {:induction false} AllPendingMembers(outbox: seq<OutboxEvent>, eventType: string)
    ensures |AllPending(outbox, eventType)| <= |outbox|
    ensures forall e :: e in AllPending(outbox, eventType) <==> e in outbox && Unpublished(e, eventType)
  {
    if outbox != [] {
      var init, last := outbox[..|outbox| - 1], outbox[|outbox| - 1];
      assert outbox == init + [last];
      AllPendingMembers(init, eventType);
    }
  }

  lemma PendingMembers(outbox: seq<OutboxEvent>, eventType: string, limit: int)
    ensures forall e :: e in Pending(outbox, eventType, limit) ==> e in outbox && Unpublished(e, eventType)
  {
    AllPendingMembers(outbox, eventType);
    var all, some := AllPending(outbox, eventType), Pending(outbox, eventType, limit);
    forall e | e in some ensures e in all {
      var i :| 0 <= i < |some| && some[i] == e;
      assert all[i] == e;
    }
  }

  lemma {:induction false} AllPendingPrefix(outbox: seq<OutboxEvent>, eventType: string, i: nat)
    requires i <= |outbox|
    ensures |AllPending(outbox[..i], eventType)| <= |AllPending(outbox, eventType)|
    ensures AllPending(outbox, eventType)[..|AllPending(outbox[..i], eventType)|] == AllPending(outbox[..i], eventType)
  {
    if i == |outbox| {
      assert outbox[..i] == outbox;
    } else {
      var init := outbox[..|outbox| - 1];
      assert init[..i] == outbox[..i];
      AllPendingPrefix(init, eventType, i);
    }
  }

  // --- What the store keeps ---

  /** The projections of one run, oldest first. */
  function Log(outbox: seq<OutboxEvent>, id: string): seq<ReleaseRun> {
    if outbox == [] then []
    else
      var last := outbox[|outbox| - 1];
      Log(outbox[..|outbox| - 1], id) + if last.Projection? && last.run.info.id == id then [last.run] else []
  }

  /** Consecutive versions, ending with the stored row. */
  ghost predicate LogOk(log: seq<ReleaseRun>, run: ReleaseRun) {
    && log != []
    && log[|log| - 1] == run
    && (forall i :: 0 <= i < |log| - 1 ==> log[i + 1].stateVersion == log[i].stateVersion + 1)
  }

  ghost predicate RowsOk(s: Store) {
    s.projections == s.runs && forall id :: id in s.runs ==> s.runs[id].info.id == id
  }

  ghost predicate Requested(byRequest: map<string, string>, id: string) {
    exists q :: q in byRequest && byRequest[q] == id
  }

  /** Requests and runs correspond one to one. */
  ghost predicate IndexOk(byRequest: map<string, string>, ids: set<string>) {
    && (forall q :: q in byRequest ==> byRequest[q] in ids)
    && (forall q, q' :: q in byRequest && q' in byRequest && byRequest[q] == byRequest[q'] ==> q == q')
    && (forall id {:trigger Requested(byRequest, id)} :: id in ids ==> Requested(byRequest, id))
  }

  ghost predicate LogsOk(outbox: seq<OutboxEvent>, runs: map<string, ReleaseRun>) {
    && (forall id :: id in runs ==> LogOk(Log(outbox, id), runs[id]))
    && (forall id :: id !in runs ==> Log(outbox, id) == [])
  }

  ghost predicate StoreOk(s: Store) {
    RowsOk(s) && IndexOk(s.byRequest, s.runs.Keys) && LogsOk(s.outbox, s.runs)
  }

  predicate NoProjections(events: seq<OutboxEvent>) {
    forall e :: e in events ==> e.DomainEvent?
  }

  lemma {:induction false} LogSkips(outbox: seq<OutboxEvent>, events: seq<OutboxEvent>, id: string)
    requires NoProjections(events)
    ensures Log(outbox + events, id) == Log(outbox, id)
  {
    if events == [] {
      assert outbox + events == outbox;
    } else {
      var init, last := events[..|events| - 1], events[|events| - 1];
      assert last in events;
      LogSkips(outbox, init, id);
      assert (outbox + events)[..|outbox + events| - 1] == outbox + init;
    }
  }

  lemma LogAppends(outbox: seq<OutboxEvent>, events: seq<OutboxEvent>, run: ReleaseRun, id: string)
    requires NoProjections(events)
    ensures Log(outbox + events + [Projection(run)], id) == Log(outbox, id) + if run.info.id == id then [run] else []
  {
    LogSkips(outbox, events, id);
    var all := outbox + events + [Projection(run)];
    assert all[..|all| - 1] == outbox + events;
  }

  lemma IndexGrows(byRequest: map<string, string>, ids: set<string>, request: string, id: string)
    requires IndexOk(byRequest, ids) && request !in byRequest && id !in ids
    ensures IndexOk(byRequest[request := id], ids + {id})
  {
    var more := byRequest[request := id];
    forall i | i in ids + {id} ensures Requested(more, i) {
      if i == id {
        assert more[request] == id;
      } else {
        assert Requested(byRequest, i);
        var q :| q in byRequest && byRequest[q] == i;
        assert q in more && more[q] == i;
      }
    }
  }

  /** One more projection of a run: its first, or the next version of the stored row. */
  lemma LogsGrow(outbox: seq<OutboxEvent>, runs: map<string, ReleaseRun>, events: seq<OutboxEvent>, run: ReleaseRun)
    requires LogsOk(outbox, runs) && NoProjections(events)
    requires run.info.id in runs ==> run.stateVersion == runs[run.info.id].stateVersion + 1
    ensures LogsOk(outbox + events + [Projection(run)], runs[run.info.id := run])
  {
    var outbox', runs' := outbox + events + [Projection(run)], runs[run.info.id := run];
    forall id ensures id in runs' ==> LogOk(Log(outbox', id), runs'[id])
              ensures id !in runs' ==> Log(outbox', id) == []
    {
      LogAppends(outbox, events, run, id);
      if id == run.info.id && id in runs {
        LogOkGrows(Log(outbox, id), runs[id], run);
      }
    }
  }

  lemma LogOkGrows(log: seq<ReleaseRun>, run: ReleaseRun, updated: ReleaseRun)
    requires LogOk(log, run) && updated.stateVersion == run.stateVersion + 1
    ensures LogOk(log + [updated], updated)
  {
  }

  /** Creating a run keeps the books: one run per request, and a log that starts with it. */
  lemma CreateKeeps(s: Store, run: ReleaseRun, audit: seq<string>, events: seq<OutboxEvent>)
    requires StoreOk(s) && NoProjections(events)
    ensures StoreOk(Create(s, run, audit, events).0)
  {
    if run.info.requestID !in s.byRequest && run.info.id !in s.runs {
      IndexGrows(s.byRequest, s.runs.Keys, run.info.requestID, run.info.id);
      assert s.runs[run.info.id := run].Keys == s.runs.Keys + {run.info.id};
      LogsGrow(s.outbox, s.runs, events, run);
    }
  }

  lemma UpdateKeeps(s: Store, run: ReleaseRun, expected: int, audit: seq<string>, events: seq<OutboxEvent>)
    requires StoreOk(s) && NoProjections(events)
    ensures StoreOk(Update(s, run, expected, audit, events).0)
  {
    if run.info.id in s.runs && s.runs[run.info.id].stateVersion == expected {
      WriteKeeps(s, Versioned(run, expected + 1), audit, events);
    }
  }

  lemma WriteKeeps(s: Store, run: ReleaseRun, audit: seq<string>, events: seq<OutboxEvent>)
    requires StoreOk(s) && NoProjections(events)
    requires run.info.id in s.runs && run.stateVersion == s.runs[run.info.id].stateVersion + 1
    ensures StoreOk(Write(s, run, audit, events))
  {
    assert s.runs[run.info.id := run].Keys == s.runs.Keys;
    LogsGrow(s.outbox, s.runs, events, run);
  }

  lemma PersistKeeps(s: Store, run: ReleaseRun, audit: seq<string>, events: seq<OutboxEvent>)
    requires StoreOk(s) && NoProjections(events)
    ensures StoreOk(Persist(s, run, audit, events).0)
  {
    UpdateKeeps(s, run, run.stateVersion, audit, events);
  }

  /** Rebuilding a stored run from its projection changes nothing. */
  lemma RebuildIsIdentity(s: Store, id: string)
    requires StoreOk(s)
    ensures Rebuild(s, id).0 == s
    ensures Rebuild(s, id).1.None? <==> id in s.runs
    ensures id in s.runs ==> LogOk(Log(s.outbox, id), s.runs[id])
  {
    if id in s.runs {
      assert s.runs[id := s.projections[id]] == s.runs;
      assert LogOk(Log(s.outbox, id), s.runs[id]);
    }
  }

  lemma {:induction false} MarkLogs(outbox: seq<OutboxEvent>, id: string, run: string)
    ensures Log(Mark(outbox, id), run) == Log(outbox, run)
    decreases |outbox|
  {
    if outbox != [] {
      LogCons(outbox[0], outbox[1..], run);
      assert outbox == [outbox[0]] + outbox[1..];
      var marked := Mark(outbox, id);
      LogCons(marked[0], marked[1..], run);
      assert marked == [marked[0]] + marked[1..];
      if !(outbox[0].DomainEvent? && outbox[0].id == id) {
        MarkLogs(outbox[1..], id, run);
      }
    }
  }

  lemma {:induction false} LogCons(e: OutboxEvent, rest: seq<OutboxEvent>, run: string)
    ensures Log([e] + rest, run) == (if e.Projection? && e.run.info.id == run then [e.run] else []) + Log(rest, run)
    decreases |rest|
  {
    if rest == [] {
      assert [e] + rest == [e] && [e][..0] == [];
    } else {
      var init, last := rest[..|rest| - 1], rest[|rest| - 1];
      LogCons(e, init, run);
      assert ([e] + rest)[..|rest|] == [e] + init;
    }
  }

  /** Publication marks do not show in the projections. */
  lemma MarkKeepsLogs(outbox: seq<OutboxEvent>, id: string)
    ensures forall runs: map<string, ReleaseRun> :: LogsOk(outbox, runs) ==> LogsOk(Mark(outbox, id), runs)
  {
    forall run ensures Log(Mark(outbox, id), run) == Log(outbox, run) { MarkLogs(outbox, id, run); }
  }

  // --- Retries ---

  /** Repeating a persist while its result is still the stored row writes nothing and returns the same run.
      `StoreHistory.OneWritePerVersion` is about whole histories. */
  lemma PersistRetry(s: Store, run: ReleaseRun, audit: seq<string>, events: seq<OutboxEvent>, later: Store,
                     audit': seq<string>, events': seq<OutboxEvent>)
    requires Persist(s, run, audit, events).1.Success?
    requires run.info.id in later.runs && later.runs[run.info.id] == Persist(s, run, audit, events).0.runs[run.info.id]
    ensures Persist(later, run, audit', events') == (later, Persist(s, run, audit, events).1)
  {
  }

  /** The first successful persist adds one version, one audit set and one outbox set with one projection. */
  lemma PersistWritesOnce(s: Store, run: ReleaseRun, audit: seq<string>, events: seq<OutboxEvent>)
    requires run.info.id in s.runs && s.runs[run.info.id].stateVersion == run.stateVersion
    ensures var (s', r) := Persist(s, run, audit, events);
            && r == Success(Versioned(run, run.stateVersion + 1))
            && s'.runs == s.runs[run.info.id := r.value]
            && s'.audit == s.audit + audit
            && s'.outbox == s.outbox + events + [Projection(r.value)]
  {
  }

  /** The two things a persist can do to the store. */
  lemma PersistShape(s: Store, run: ReleaseRun, audit: seq<string>, events: seq<OutboxEvent>)
    ensures var s' := Persist(s, run, audit, events).0;
            || s' == s
            || (&& s'.runs.Keys == s.runs.Keys
                && s'.outbox == s.outbox + events + [Projection(Versioned(run, run.stateVersion + 1))])
  {
    if run.info.id in s.runs {
      assert s.runs[run.info.id := Versioned(run, run.stateVersion + 1)].Keys == s.runs.Keys;
    }
  }

  /** What a creation does to the store, and whether it happened. */
  lemma CreateShape(s: Store, run: ReleaseRun, audit: seq<string>, events: seq<OutboxEvent>)
    ensures var (s', r) := Create(s, run, audit, events);
            if run.info.requestID !in s.byRequest && run.info.id !in s.runs
            then s'.runs.Keys == s.runs.Keys + {run.info.id} && s'.outbox == s.outbox + events + [Projection(run)]
            else s' == s && (r.Success? ==> !r.value.1)
  {
  }

  /** A persist of one run leaves the other runs alone. */
  lemma PersistIsLocal(s: Store, run: ReleaseRun, audit: seq<string>, events: seq<OutboxEvent>, id: string)
    requires id != run.info.id
    ensures id in Persist(s, run, audit, events).0.runs <==> id in s.runs
    ensures id in s.runs ==> Persist(s, run, audit, events).0.runs[id] == s.runs[id]
  {
  }

  lemma PendingCut(outbox: seq<OutboxEvent>, eventType: string, i: nat, limit: int)
    requires i <= |outbox| && |AllPending(outbox[..i], eventType)| == limit > 0
    ensures limit <= |AllPending(outbox, eventType)|
            && AllPending(outbox, eventType)[..limit] == AllPending(outbox[..i], eventType)
  {
    AllPendingPrefix(outbox, eventType, i);
  }

  method CollectPending(outbox: seq<OutboxEvent>, eventType: string, limit0: int) returns (result: seq<OutboxEvent>)
    ensures result == Pending(outbox, eventType, limit0)
  {
    var limit := if limit0 <= 0 || limit0 > |outbox| then |outbox| else limit0;
    AllPendingMembers(outbox, eventType);
    result := [];
    for i := 0 to |outbox|
      invariant result == AllPending(outbox[..i], eventType) && (|outbox| > 0 ==> |result| < limit)
    {
      assert outbox[..i + 1][..i] == outbox[..i];
      if Unpublished(outbox[i], eventType) {
        result := result + [outbox[i]];
        if |result| == limit {
          PendingCut(outbox, eventType, i + 1, limit);
          return;
        }
      }
    }
    assert outbox[..|outbox|] == outbox;
  }

  ghost predicate HasEvent(outbox: seq<OutboxEvent>, id: string) {
    exists i :: 0 <= i < |outbox| && IsEvent(outbox[i], id)
  }

  /** An outbox without the event stays as it is; else the first event with the id is marked. */
  lemma {:induction false} MarkAt(outbox: seq<OutboxEvent>, id: string, i: nat)
    requires i <= |outbox| && forall j :: 0 <= j < i ==> !IsEvent(outbox[j], id)
    ensures i == |outbox| ==> Mark(outbox, id) == outbox
    ensures i < |outbox| && IsEvent(outbox[i], id) ==> Mark(outbox, id) == outbox[i := outbox[i].(published := true)]
    decreases i
  {
    if i > 0 {
      MarkAt(outbox[1..], id, i - 1);
      assert outbox == [outbox[0]] + outbox[1..];
    }
  }

  method MarkFirst(outbox: seq<OutboxEvent>, id: string) returns (marked: seq<OutboxEvent>, found: bool)
    ensures marked == Mark(outbox, id)
    ensures found <==> HasEvent(outbox, id)
    ensures !found ==> marked == outbox
  {
    for i := 0 to |outbox|
      invariant forall j :: 0 <= j < i ==> !IsEvent(outbox[j], id)
    {
      if IsEvent(outbox[i], id) {
        MarkAt(outbox, id, i);
        return outbox[i := outbox[i].(published := true)], true;
      }
    }
    MarkAt(outbox, id, |outbox|);
    return outbox, false;
  }

  // --- The in-memory store ---

  class Memory {
    var runs: map<string, ReleaseRun>
    var byRequest: map<string, string>
    var projections: map<string, ReleaseRun>
    var outbox: seq<OutboxEvent>
    var audit: seq<string>

    ghost function View(): Store
      reads this
    {
      Store(runs, byRequest, projections, outbox, audit)
    }

    ghost predicate Valid()
      reads this
    {
      StoreOk(View())
    }

    constructor ()
      ensures Valid() && View() == EMPTY
    {
      runs, byRequest, projections, outbox, audit := map[], map[], map[], [], [];
    }

    method CreateRunAtomic(run: ReleaseRun, events: seq<OutboxEvent>, audits: seq<string>)
        returns (r: Result<(ReleaseRun, bool), StoreError>)
      requires Valid() && NoProjections(events)
      modifies this
      ensures Valid() && (View(), r) == Create(old(View()), run, audits, events)
      ensures r == Failure(DuplicateRun) <==> run.info.requestID !in old(byRequest) && run.info.id in old(runs)
    {
      CreateKeeps(View(), run, audits, events);
      if run.info.requestID in byRequest {
        return Success((runs[byRequest[run.info.requestID]], false));
      }
      if run.info.id in runs {
        return Failure(DuplicateRun);
      }
      runs := runs[run.info.id := run];
      projections := projections[run.info.id := run];
      byRequest := byRequest[run.info.requestID := run.info.id];
      audit := audit + audits;
      outbox := outbox + events + [Projection(run)];
      return Success((run, true));
    }

    method Put(run: ReleaseRun, audits: seq<string>, events: seq<OutboxEvent>)
      modifies this
      ensures View() == Write(old(View()), run, audits, events)
    {
      runs := runs[run.info.id := run];
      projections := projections[run.info.id := run];
      audit := audit + audits;
      outbox := outbox + events + [Projection(run)];
    }

    method UpdateRunAtomic(run: ReleaseRun, expected: int, audits: seq<string>, events: seq<OutboxEvent>)
        returns (r: Result<ReleaseRun, StoreError>)
      requires Valid() && NoProjections(events)
      modifies this
      ensures Valid() && (View(), r) == Update(old(View()), run, expected, audits, events)
    {
      UpdateKeeps(View(), run, expected, audits, events);
      if run.info.id !in runs {
        return Failure(NotFound);
      }
      if runs[run.info.id].stateVersion != expected {
        return Failure(Conflict);
      }
      var updated := Versioned(run, expected + 1);
      Put(updated, audits, events);
      return Success(updated);
    }

    method PersistRun(run: ReleaseRun, audits: seq<string>, events: seq<OutboxEvent>)
        returns (r: Result<ReleaseRun, StoreError>)
      requires Valid() && NoProjections(events)
      modifies this
      ensures Valid() && (View(), r) == Persist(old(View()), run, audits, events)
    {
      r := UpdateRunAtomic(run, run.stateVersion, audits, events);
      if r == Failure(Conflict) {
        if runs[run.info.id] == Versioned(run, run.stateVersion + 1) {
          return Success(runs[run.info.id]);
        }
      }
    }

    method PendingOutboxByType(eventType: string, limit: int) returns (result: seq<OutboxEvent>)
      ensures result == Pending(outbox, eventType, limit)
    {
      result := CollectPending(outbox, eventType, limit);
    }

    method MarkOutboxPublished(id: string) returns (found: bool)
      requires Valid()
      modifies this
      ensures Valid() && View() == old(View()).(outbox := Mark(old(outbox), id))
      ensures found <==> HasEvent(old(outbox), id)
      ensures !found ==> outbox == old(outbox)
    {
      MarkKeepsLogs(outbox, id);
      var marked;
      marked, found := MarkFirst(outbox, id);
      outbox := marked;
    }

    method RebuildProjection(id: string) returns (problem: Option<StoreError>)
      requires Valid()
      modifies this
      ensures Valid() && View() == old(View())
      ensures problem.None? <==> id in runs
    {
      RebuildIsIdentity(View(), id);
      if id !in projections {
        return Some(NotFound);
      }
      runs := runs[id := projections[id]];
      return None;
    }
  }
}
