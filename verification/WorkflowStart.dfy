/** Starting workflows through the outbox. A request stores the run together with
    a start request, starts the workflow and marks the request; recovery replays
    unmarked requests. Either may stop between any two actions. */
module WorkflowStart {
  import opened Release
  import opened RunStore

  const REQUESTED := "release.workflow.requested"

  datatype Request = Request(eventID: string, runID: string)

  datatype Thread = Creating(run: ReleaseRun, eventID: string)
                  | Launching(request: Request, rest: seq<Request>)
                  | Marking(request: Request, rest: seq<Request>)
                  | Finished

  datatype Fault = Up | Down | LostAck

  datatype Event = Begin(id: nat, run: ReleaseRun, eventID: string)
                 | CreateRun(id: nat, fault: Fault)
                 | Launch(id: nat, fault: Fault)
                 | MarkPublished(id: nat, fault: Fault)
                 | BeginRecovery(id: nat, limit: int)
                 | OtherWrite(run: ReleaseRun, eventID: string, eventType: string)
                 | Crash(id: nat)

  /** `starts` lists workflow starts as the workflow service performed them; it refuses a second start of an id. */
  datatype System = System(store: Store, starts: seq<string>, threads: map<nat, Thread>, used: set<string>)

  const INITIAL := System(EMPTY, [], map[], {})

  function StartEvent(r: Request): OutboxEvent { DomainEvent(r.eventID, r.runID, REQUESTED, false) }

  function StartWorkflow(starts: seq<string>, id: string): seq<string> {
    if id in starts then starts else starts + [id]
  }

  function Requests(events: seq<OutboxEvent>): (r: seq<Request>)
    requires forall e :: e in events ==> e.DomainEvent?
    ensures |r| == |events| && forall i :: 0 <= i < |r| ==> r[i] == Request(events[i].id, events[i].aggregateID)
  {
    seq(|events|,
        i requires 0 <= i < |events| => assert events[i] in events; Request(events[i].id, events[i].aggregateID))
  }

  function Continue(rest: seq<Request>): Thread {
    if rest == [] then Finished else Launching(rest[0], rest[1..])
  }

  function AfterCreate(s: System, id: nat, run: ReleaseRun, eventID: string, fault: Fault): System {
    var request := Request(eventID, run.info.id);
    var (store, r) := Create(s.store, run, [], [StartEvent(request)]);
    var created := fault == Up && r.Success? && r.value.1;
    System(if fault == Down then s.store else store, s.starts,
           s.threads[id := if created then Launching(request, []) else Finished], s.used)
  }

  /** Loading the run and starting its workflow. */
  function AfterLaunch(s: System, id: nat, request: Request, rest: seq<Request>, fault: Fault): System {
    if request.runID !in s.store.runs || fault == Down then System(s.store, s.starts, s.threads[id := Finished], s.used)
    else System(s.store, StartWorkflow(s.starts, request.runID),
                s.threads[id := if fault == Up then Marking(request, rest) else Finished], s.used)
  }

  function AfterMark(s: System, id: nat, request: Request, rest: seq<Request>, fault: Fault): System {
    System(if fault == Down then s.store else s.store.(outbox := Mark(s.store.outbox, request.eventID)), s.starts,
           s.threads[id := if fault == Up then Continue(rest) else Finished], s.used)
  }

  /** Any other write of a run, with an event of another type. */
  function AfterWrite(s: System, run: ReleaseRun, e: OutboxEvent): System
    requires e.DomainEvent?
  {
    System(Persist(s.store, run, [], [e]).0, s.starts, s.threads, s.used + {e.id})
  }

  function PendingRequests(s: Store, limit: int): seq<Request> {
    PendingMembers(s.outbox, REQUESTED, limit);
    Requests(Pending(s.outbox, REQUESTED, limit))
  }

  function Next(s: System, e: Event): System {
    match e
    case Begin(id, run, eventID) =>
      if id in s.threads || eventID in s.used then s
      else System(s.store, s.starts, s.threads[id := Creating(run, eventID)], s.used + {eventID})
    case BeginRecovery(id, limit) =>
      if id in s.threads then s else s.(threads := s.threads[id := Continue(PendingRequests(s.store, limit))])
    case OtherWrite(run, eventID, eventType) =>
      if eventID in s.used || eventType == REQUESTED then s
      else AfterWrite(s, run, DomainEvent(eventID, run.info.id, eventType, false))
    case Crash(id) => s.(threads := s.threads - {id})
    case CreateRun(id, fault) =>
      if id in s.threads && s.threads[id].Creating?
      then AfterCreate(s, id, s.threads[id].run, s.threads[id].eventID, fault) else s
    case Launch(id, fault) =>
      if id in s.threads && s.threads[id].Launching?
      then AfterLaunch(s, id, s.threads[id].request, s.threads[id].rest, fault) else s
    case MarkPublished(id, fault) =>
      if id in s.threads && s.threads[id].Marking?
      then AfterMark(s, id, s.threads[id].request, s.threads[id].rest, fault) else s
  }

  function Run(events: seq<Event>): System {
    if events == [] then INITIAL else Next(Run(events[..|events| - 1]), events[|events| - 1])
  }

  // --- Invariant ---

  ghost predicate DistinctIds(outbox: seq<OutboxEvent>) {
    forall i, j :: 0 <= i < j < |outbox| && outbox[i].DomainEvent? && outbox[j].DomainEvent? ==>
      outbox[i].id != outbox[j].id
  }

  /** A start request: for a stored run, and marked only after the run's workflow was started. */
  ghost predicate RequestOk(runs: map<string, ReleaseRun>, starts: seq<string>, e: OutboxEvent) {
    e.DomainEvent? && e.eventType == REQUESTED ==> e.aggregateID in runs && (e.published ==> e.aggregateID in starts)
  }

  ghost predicate HasRequest(outbox: seq<OutboxEvent>, runID: string) {
    exists i :: 0 <= i < |outbox| && outbox[i].DomainEvent? && outbox[i].eventType == REQUESTED
                && outbox[i].aggregateID == runID
  }

  ghost predicate OutboxOk(s: System) {
    && DistinctIds(s.store.outbox)
    && (forall i :: 0 <= i < |s.store.outbox| ==>
          RequestOk(s.store.runs, s.starts, s.store.outbox[i])
          && (s.store.outbox[i].DomainEvent? ==> s.store.outbox[i].id in s.used))
    && (forall id {:trigger HasRequest(s.store.outbox, id)} :: id in s.store.runs ==> HasRequest(s.store.outbox, id))
    && (forall i, j :: 0 <= i < j < |s.starts| ==> s.starts[i] != s.starts[j])
  }

  ghost predicate Present(outbox: seq<OutboxEvent>, eventID: string) {
    exists i :: 0 <= i < |outbox| && outbox[i].DomainEvent? && outbox[i].id == eventID
  }

  /** The request's event is in the outbox, and any event with its id is for its run. */
  ghost predicate Belongs(s: System, r: Request) {
    && Present(s.store.outbox, r.eventID)
    && (forall i :: 0 <= i < |s.store.outbox| && s.store.outbox[i].DomainEvent? && s.store.outbox[i].id == r.eventID ==>
          s.store.outbox[i].aggregateID == r.runID)
  }

  ghost predicate AllBelong(s: System, rest: seq<Request>) {
    forall i :: 0 <= i < |rest| ==> Belongs(s, rest[i])
  }

  ghost predicate Absent(outbox: seq<OutboxEvent>, eventID: string) {
    forall i :: 0 <= i < |outbox| && outbox[i].DomainEvent? ==> outbox[i].id != eventID
  }

  ghost predicate ThreadOk(s: System, t: Thread) {
    match t
    case Creating(run, eventID) => eventID in s.used && Absent(s.store.outbox, eventID)
    case Launching(request, rest) => Belongs(s, request) && AllBelong(s, rest)
    case Marking(request, rest) => Belongs(s, request) && AllBelong(s, rest) && request.runID in s.starts
    case Finished => true
  }

  ghost predicate Inv(s: System) {
    && StoreOk(s.store) && OutboxOk(s)
    && (forall i :: i in s.threads ==> ThreadOk(s, s.threads[i]))
    && (forall i, j :: i in s.threads && j in s.threads && i != j && s.threads[i].Creating?
                       && s.threads[j].Creating? ==>
          s.threads[i].eventID != s.threads[j].eventID)
  }

  // --- How the outbox changes ---

  ghost predicate SameEvent(e: OutboxEvent, e': OutboxEvent) {
    e == e' || (e.DomainEvent? && e' == e.(published := true))
  }

  /** Events keep their place and identity, marks may be added, and new events carry new ids. */
  ghost predicate Grown(outbox: seq<OutboxEvent>, outbox': seq<OutboxEvent>, added: set<string>) {
    && |outbox| <= |outbox'|
    && (forall i :: 0 <= i < |outbox| ==> SameEvent(outbox[i], outbox'[i]))
    && (forall i :: |outbox| <= i < |outbox'| && outbox'[i].DomainEvent? ==> outbox'[i].id in added)
  }

  lemma BelongsGrows(s: System, s': System, r: Request, added: set<string>)
    requires Belongs(s, r) && Grown(s.store.outbox, s'.store.outbox, added)
    requires forall id :: id in added ==> Absent(s.store.outbox, id)
    ensures Belongs(s', r)
  {
    var outbox, outbox' := s.store.outbox, s'.store.outbox;
    var k :| 0 <= k < |outbox| && outbox[k].DomainEvent? && outbox[k].id == r.eventID;
    assert SameEvent(outbox[k], outbox'[k]);
    assert r.eventID !in added;
    forall i | 0 <= i < |outbox'| && outbox'[i].DomainEvent? && outbox'[i].id == r.eventID
      ensures outbox'[i].aggregateID == r.runID
    {
      if i < |outbox| {
        assert SameEvent(outbox[i], outbox'[i]);
      }
    }
  }

  lemma AllBelongGrows(s: System, s': System, rest: seq<Request>, added: set<string>)
    requires AllBelong(s, rest) && Grown(s.store.outbox, s'.store.outbox, added)
    requires forall id :: id in added ==> Absent(s.store.outbox, id)
    ensures AllBelong(s', rest)
  {
    forall i | 0 <= i < |rest| ensures Belongs(s', rest[i]) {
      BelongsGrows(s, s', rest[i], added);
    }
  }

  lemma AbsentGrows(outbox: seq<OutboxEvent>, outbox': seq<OutboxEvent>, eventID: string, added: set<string>)
    requires Absent(outbox, eventID) && Grown(outbox, outbox', added) && eventID !in added
    ensures Absent(outbox', eventID)
  {
    forall i | 0 <= i < |outbox'| && outbox'[i].DomainEvent? ensures outbox'[i].id != eventID {
      if i < |outbox| {
        assert SameEvent(outbox[i], outbox'[i]);
      }
    }
  }

  /** A thread stays sound while others act. */
  lemma ThreadStays(s: System, s': System, t: Thread, added: set<string>)
    requires ThreadOk(s, t) && Grown(s.store.outbox, s'.store.outbox, added)
    requires s.used <= s'.used && forall x :: x in s.starts ==> x in s'.starts
    requires forall id :: id in added ==> Absent(s.store.outbox, id)
    requires t.Creating? ==> t.eventID !in added
    ensures ThreadOk(s', t)
  {
    match t {
      case Creating(run, eventID) => AbsentGrows(s.store.outbox, s'.store.outbox, eventID, added);
      case Launching(request, rest) =>
        BelongsGrows(s, s', request, added);
        AllBelongGrows(s, s', rest, added);
      case Marking(request, rest) =>
        BelongsGrows(s, s', request, added);
        AllBelongGrows(s, s', rest, added);
      case Finished =>
    }
  }

  /** One thread moves; the rest of the system grows. */
  lemma MoveKeeps(s: System, s': System, id: nat, t: Thread, added: set<string>)
    requires Inv(s) && StoreOk(s'.store) && OutboxOk(s') && s'.threads == s.threads[id := t]
    requires Grown(s.store.outbox, s'.store.outbox, added) && s.used <= s'.used
    requires forall x :: x in s.starts ==> x in s'.starts
    requires forall x :: x in added ==> Absent(s.store.outbox, x)
    requires forall i :: i in s.threads && i != id && s.threads[i].Creating? ==> s.threads[i].eventID !in added
    requires ThreadOk(s', t)
    requires t.Creating? ==> t.eventID !in s.used
    ensures Inv(s')
  {
    forall i | i in s'.threads ensures ThreadOk(s', s'.threads[i]) {
      if i != id {
        ThreadStays(s, s', s.threads[i], added);
      }
    }
    forall i | i in s.threads && i != id && s.threads[i].Creating? && t.Creating?
      ensures s.threads[i].eventID != t.eventID
    {
      assert ThreadOk(s, s.threads[i]);
    }
  }

  lemma SelfGrown(outbox: seq<OutboxEvent>)
    ensures Grown(outbox, outbox, {})
  {
  }

  // --- Each action keeps the invariant ---

  /** Appending a start request or another event, and the projection of the row written with it. */
  lemma AppendKeeps(s: System, s': System, e: OutboxEvent, run: ReleaseRun)
    requires OutboxOk(s) && e.DomainEvent? && Absent(s.store.outbox, e.id) && !e.published
    requires s'.store.outbox == s.store.outbox + [e] + [Projection(run)] && s'.starts == s.starts
    requires s.used <= s'.used && e.id in s'.used
    requires s.store.runs.Keys <= s'.store.runs.Keys
    requires e.eventType == REQUESTED ==> e.aggregateID in s'.store.runs
    requires forall id :: id in s'.store.runs && id !in s.store.runs ==> e.eventType == REQUESTED && e.aggregateID == id
    ensures OutboxOk(s') && Grown(s.store.outbox, s'.store.outbox, {e.id})
    ensures Present(s'.store.outbox, e.id)
    ensures forall i :: 0 <= i < |s'.store.outbox| && s'.store.outbox[i].DomainEvent?
                        && s'.store.outbox[i].id == e.id ==>
              s'.store.outbox[i] == e
  {
    var outbox, outbox' := s.store.outbox, s'.store.outbox;
    assert forall i :: 0 <= i < |outbox| ==> outbox'[i] == outbox[i];
    assert outbox'[|outbox|] == e && outbox'[|outbox| + 1] == Projection(run);
    AppendRequests(s, s', e, run);
  }

  lemma AppendRequests(s: System, s': System, e: OutboxEvent, run: ReleaseRun)
    requires OutboxOk(s) && e.DomainEvent?
    requires s'.store.outbox == s.store.outbox + [e] + [Projection(run)]
    requires forall id :: id in s'.store.runs && id !in s.store.runs ==> e.eventType == REQUESTED && e.aggregateID == id
    ensures forall id :: id in s'.store.runs ==> HasRequest(s'.store.outbox, id)
  {
    var outbox, outbox' := s.store.outbox, s'.store.outbox;
    forall id | id in s'.store.runs ensures HasRequest(outbox', id) {
      if id in s.store.runs {
        assert HasRequest(outbox, id);
        var i :| 0 <= i < |outbox| && outbox[i].DomainEvent? && outbox[i].eventType == REQUESTED
                 && outbox[i].aggregateID == id;
        assert outbox'[i] == outbox[i];
      } else {
        assert outbox'[|outbox|] == e;
      }
    }
  }

  lemma CreatedBelongs(s: System, e: OutboxEvent, r: Request)
    requires e == StartEvent(r) && Present(s.store.outbox, e.id)
    requires forall i :: 0 <= i < |s.store.outbox| && s.store.outbox[i].DomainEvent? && s.store.outbox[i].id == e.id ==>
               s.store.outbox[i] == e
    ensures Belongs(s, r)
  {
  }

  lemma StoredOutbox(s: System, s': System, request: Request, run: ReleaseRun)
    requires OutboxOk(s) && Absent(s.store.outbox, request.eventID) && request.eventID in s.used
    requires s'.store.runs.Keys == s.store.runs.Keys + {run.info.id} && request.runID == run.info.id
    requires s'.store.outbox == s.store.outbox + [StartEvent(request)] + [Projection(run)]
    requires s'.starts == s.starts && s'.used == s.used
    ensures OutboxOk(s') && Grown(s.store.outbox, s'.store.outbox, {request.eventID}) && Belongs(s', request)
  {
    AppendKeeps(s, s', StartEvent(request), run);
    CreatedBelongs(s', StartEvent(request), request);
  }

  lemma StoredStep(s: System, s': System, id: nat, request: Request, run: ReleaseRun)
    requires Inv(s) && id in s.threads && s.threads[id] == Creating(run, request.eventID)
    requires StoreOk(s'.store) && OutboxOk(s') && Belongs(s', request)
    requires Grown(s.store.outbox, s'.store.outbox, {request.eventID})
    requires s'.starts == s.starts && s'.used == s.used
    requires s'.threads == s.threads[id := Launching(request, [])] || s'.threads == s.threads[id := Finished]
    ensures Inv(s')
  {
    assert ThreadOk(s, s.threads[id]);
    MoveKeeps(s, s', id, s'.threads[id], {request.eventID});
  }

  lemma StopStep(s: System, id: nat)
    requires Inv(s)
    ensures Inv(System(s.store, s.starts, s.threads[id := Finished], s.used))
  {
    SelfGrown(s.store.outbox);
    MoveKeeps(s, System(s.store, s.starts, s.threads[id := Finished], s.used), id, Finished, {});
  }

  predicate Stores(s: System, run: ReleaseRun, fault: Fault) {
    fault != Down && run.info.requestID !in s.store.byRequest && run.info.id !in s.store.runs
  }

  lemma StoredShape(s: System, id: nat, run: ReleaseRun, eventID: string, fault: Fault)
    requires StoreOk(s.store) && Stores(s, run, fault)
    ensures var s' := AfterCreate(s, id, run, eventID, fault);
            && StoreOk(s'.store) && s'.store.runs.Keys == s.store.runs.Keys + {run.info.id}
            && s'.store.outbox == s.store.outbox + [StartEvent(Request(eventID, run.info.id))] + [Projection(run)]
  {
    var e := StartEvent(Request(eventID, run.info.id));
    assert NoProjections([e]);
    RunStore.CreateKeeps(s.store, run, [], [e]);
    CreateShape(s.store, run, [], [e]);
  }

  lemma StoppedShape(s: System, id: nat, run: ReleaseRun, eventID: string, fault: Fault)
    requires !Stores(s, run, fault)
    ensures AfterCreate(s, id, run, eventID, fault) == System(s.store, s.starts, s.threads[id := Finished], s.used)
  {
    CreateShape(s.store, run, [], [StartEvent(Request(eventID, run.info.id))]);
  }

  lemma CreateStep(s: System, id: nat, run: ReleaseRun, eventID: string, fault: Fault)
    requires Inv(s) && id in s.threads && s.threads[id] == Creating(run, eventID)
    ensures Inv(AfterCreate(s, id, run, eventID, fault))
  {
    if Stores(s, run, fault) {
      CreatedStep(s, id, run, eventID, fault);
    } else {
      StoppedShape(s, id, run, eventID, fault);
      StopStep(s, id);
    }
  }

  lemma CreatedStep(s: System, id: nat, run: ReleaseRun, eventID: string, fault: Fault)
    requires Inv(s) && id in s.threads && s.threads[id] == Creating(run, eventID) && Stores(s, run, fault)
    ensures Inv(AfterCreate(s, id, run, eventID, fault))
  {
    var s', request := AfterCreate(s, id, run, eventID, fault), Request(eventID, run.info.id);
    assert ThreadOk(s, s.threads[id]);
    StoredShape(s, id, run, eventID, fault);
    StoredOutbox(s, s', request, run);
    StoredStep(s, s', id, request, run);
  }

  lemma StartsGrow(starts: seq<string>, id: string)
    requires forall i, j :: 0 <= i < j < |starts| ==> starts[i] != starts[j]
    ensures var more := StartWorkflow(starts, id);
            && id in more && (forall x :: x in starts ==> x in more)
            && forall i, j :: 0 <= i < j < |more| ==> more[i] != more[j]
  {
  }

  lemma LaunchStep(s: System, id: nat, request: Request, rest: seq<Request>, fault: Fault)
    requires Inv(s) && id in s.threads && s.threads[id] == Launching(request, rest)
    ensures Inv(AfterLaunch(s, id, request, rest, fault))
  {
    var s' := AfterLaunch(s, id, request, rest, fault);
    assert ThreadOk(s, s.threads[id]);
    SelfGrown(s.store.outbox);
    StartsGrow(s.starts, request.runID);
    BelongsGrows(s, s', request, {});
    AllBelongGrows(s, s', rest, {});
    forall i | 0 <= i < |s.store.outbox| ensures RequestOk(s'.store.runs, s'.starts, s'.store.outbox[i]) {
      assert RequestOk(s.store.runs, s.starts, s.store.outbox[i]);
    }
    MoveKeeps(s, s', id, s'.threads[id], {});
  }

  /** Marking touches only events with the id. */
  lemma {:induction false} MarkGrows(outbox: seq<OutboxEvent>, id: string)
    ensures |Mark(outbox, id)| == |outbox|
    ensures forall i :: 0 <= i < |outbox| ==> MarkedAt(outbox[i], Mark(outbox, id)[i], id)
    decreases |outbox|
  {
    if outbox != [] && !(outbox[0].DomainEvent? && outbox[0].id == id) {
      MarkGrows(outbox[1..], id);
      assert forall i :: 0 < i < |outbox| ==>
               outbox[i] == outbox[1..][i - 1] && Mark(outbox, id)[i] == Mark(outbox[1..], id)[i - 1];
    }
  }

  ghost predicate MarkedAt(e: OutboxEvent, e': OutboxEvent, id: string) {
    e' == e || (e.DomainEvent? && e.id == id && e' == e.(published := true))
  }

  lemma MarkOutbox(s: System, s': System, request: Request)
    requires OutboxOk(s) && Belongs(s, request) && request.runID in s.starts
    requires s' == s.(store := s.store.(outbox := Mark(s.store.outbox, request.eventID)), threads := s'.threads)
    ensures OutboxOk(s') && Grown(s.store.outbox, s'.store.outbox, {})
  {
    var outbox, outbox' := s.store.outbox, s'.store.outbox;
    MarkGrows(outbox, request.eventID);
    forall i | 0 <= i < |outbox| ensures SameEvent(outbox[i], outbox'[i]) {
      assert MarkedAt(outbox[i], outbox'[i], request.eventID);
    }
    forall i | 0 <= i < |outbox'| ensures RequestOk(s'.store.runs, s'.starts, outbox'[i]) {
      assert RequestOk(s.store.runs, s.starts, outbox[i]) && MarkedAt(outbox[i], outbox'[i], request.eventID);
    }
    MarkRequests(s, s');
  }

  lemma MarkRequests(s: System, s': System)
    requires OutboxOk(s) && s'.store.runs == s.store.runs && |s'.store.outbox| == |s.store.outbox|
    requires forall i :: 0 <= i < |s.store.outbox| ==> SameEvent(s.store.outbox[i], s'.store.outbox[i])
    ensures DistinctIds(s'.store.outbox)
    ensures forall id :: id in s'.store.runs ==> HasRequest(s'.store.outbox, id)
  {
    var outbox, outbox' := s.store.outbox, s'.store.outbox;
    forall i, j | 0 <= i < j < |outbox'| && outbox'[i].DomainEvent? && outbox'[j].DomainEvent?
      ensures outbox'[i].id != outbox'[j].id
    {
      assert SameEvent(outbox[i], outbox'[i]) && SameEvent(outbox[j], outbox'[j]);
    }
    forall id | id in s'.store.runs ensures HasRequest(outbox', id) {
      assert HasRequest(outbox, id);
      var i :| 0 <= i < |outbox| && outbox[i].DomainEvent? && outbox[i].eventType == REQUESTED
               && outbox[i].aggregateID == id;
      assert SameEvent(outbox[i], outbox'[i]);
    }
  }

  lemma MarkStep(s: System, id: nat, request: Request, rest: seq<Request>, fault: Fault)
    requires Inv(s) && id in s.threads && s.threads[id] == Marking(request, rest)
    ensures Inv(AfterMark(s, id, request, rest, fault))
  {
    var s' := AfterMark(s, id, request, rest, fault);
    assert ThreadOk(s, s.threads[id]);
    if fault == Down {
      SelfGrown(s.store.outbox);
    } else {
      MarkOutbox(s, s', request);
      MarkKeepsLogs(s.store.outbox, request.eventID);
    }
    AllBelongGrows(s, s', rest, {});
    MoveKeeps(s, s', id, s'.threads[id], {});
  }

  lemma RecoveryStep(s: System, id: nat, limit: int)
    requires Inv(s)
    ensures Inv(s.(threads := s.threads[id := Continue(PendingRequests(s.store, limit))]))
  {
    var s' := s.(threads := s.threads[id := Continue(PendingRequests(s.store, limit))]);
    var events, requests := Pending(s.store.outbox, REQUESTED, limit), PendingRequests(s.store, limit);
    PendingMembers(s.store.outbox, REQUESTED, limit);
    forall i | 0 <= i < |requests| ensures Belongs(s', requests[i]) {
      assert events[i] in events;
      PendingBelongs(s', events[i]);
    }
    SelfGrown(s.store.outbox);
    MoveKeeps(s, s', id, s'.threads[id], {});
  }

  lemma PendingBelongs(s: System, e: OutboxEvent)
    requires DistinctIds(s.store.outbox) && e in s.store.outbox && e.DomainEvent?
    ensures Belongs(s, Request(e.id, e.aggregateID))
  {
    var outbox := s.store.outbox;
    var k :| 0 <= k < |outbox| && outbox[k] == e;
    forall i | 0 <= i < |outbox| && outbox[i].DomainEvent? && outbox[i].id == e.id ensures outbox[i] == e {
      assert i == k || i < k || k < i;
    }
  }

  lemma WrittenStep(s: System, s': System, e: OutboxEvent, run: ReleaseRun)
    requires Inv(s) && StoreOk(s'.store) && s'.store.runs.Keys == s.store.runs.Keys
    requires e.DomainEvent? && e.id !in s.used && e.eventType != REQUESTED && !e.published
    requires s'.store.outbox == s.store.outbox + [e] + [Projection(run)]
    requires s'.starts == s.starts && s'.threads == s.threads && s'.used == s.used + {e.id}
    ensures Inv(s')
  {
    forall i | 0 <= i < |s.store.outbox| && s.store.outbox[i].DomainEvent? ensures s.store.outbox[i].id != e.id {
      assert s.store.outbox[i].id in s.used;
    }
    AppendKeeps(s, s', e, run);
    OthersKeep(s, s', {e.id});
  }

  lemma UnusedStep(s: System, eventID: string)
    requires Inv(s)
    ensures Inv(s.(used := s.used + {eventID}))
  {
    SelfGrown(s.store.outbox);
    OthersKeep(s, s.(used := s.used + {eventID}), {});
  }

  lemma OtherWriteStep(s: System, run: ReleaseRun, e: OutboxEvent)
    requires Inv(s) && e.DomainEvent? && e.id !in s.used && e.eventType != REQUESTED && !e.published
    ensures Inv(AfterWrite(s, run, e))
  {
    assert NoProjections([e]);
    PersistKeeps(s.store, run, [], [e]);
    PersistShape(s.store, run, [], [e]);
    var s' := AfterWrite(s, run, e);
    if s'.store == s.store {
      UnusedStep(s, e.id);
    } else {
      WrittenStep(s, s', e, Versioned(run, run.stateVersion + 1));
    }
  }

  lemma OthersKeep(s: System, s': System, added: set<string>)
    requires Inv(s) && StoreOk(s'.store) && OutboxOk(s') && s'.threads == s.threads && s'.starts == s.starts
    requires Grown(s.store.outbox, s'.store.outbox, added) && s.used <= s'.used && added !! s.used
    requires forall x :: x in added ==> Absent(s.store.outbox, x)
    ensures Inv(s')
  {
    forall i | i in s'.threads ensures ThreadOk(s', s'.threads[i]) {
      assert ThreadOk(s, s.threads[i]);
      ThreadStays(s, s', s.threads[i], added);
    }
  }

  lemma CrashStep(s: System, id: nat)
    requires Inv(s)
    ensures Inv(s.(threads := s.threads - {id}))
  {
    var s' := s.(threads := s.threads - {id});
    SelfGrown(s.store.outbox);
    forall i | i in s'.threads ensures ThreadOk(s', s'.threads[i]) {
      ThreadStays(s, s', s.threads[i], {});
    }
  }

  lemma BeginStep(s: System, id: nat, run: ReleaseRun, eventID: string)
    requires Inv(s) && eventID !in s.used
    ensures Inv(System(s.store, s.starts, s.threads[id := Creating(run, eventID)], s.used + {eventID}))
  {
    var s' := System(s.store, s.starts, s.threads[id := Creating(run, eventID)], s.used + {eventID});
    SelfGrown(s.store.outbox);
    forall i | 0 <= i < |s.store.outbox| && s.store.outbox[i].DomainEvent? ensures s.store.outbox[i].id != eventID {
      assert s.store.outbox[i].id in s.used;
    }
    MoveKeeps(s, s', id, Creating(run, eventID), {});
  }

  lemma NextKeeps(s: System, e: Event)
    requires Inv(s)
    ensures Inv(Next(s, e))
  {
    match e {
      case Begin(id, run, eventID) => if id !in s.threads && eventID !in s.used { BeginStep(s, id, run, eventID); }
      case BeginRecovery(id, limit) => if id !in s.threads { RecoveryStep(s, id, limit); }
      case OtherWrite(run, eventID, eventType) =>
        if eventID !in s.used && eventType != REQUESTED {
          OtherWriteStep(s, run, DomainEvent(eventID, run.info.id, eventType, false));
        }
      case Crash(id) => CrashStep(s, id);
      case CreateRun(id, fault) =>
        if id in s.threads && s.threads[id].Creating? {
          CreateStep(s, id, s.threads[id].run, s.threads[id].eventID, fault);
        }
      case Launch(id, fault) =>
        if id in s.threads && s.threads[id].Launching? {
          LaunchStep(s, id, s.threads[id].request, s.threads[id].rest, fault);
        }
      case MarkPublished(id, fault) =>
        if id in s.threads && s.threads[id].Marking? {
          MarkStep(s, id, s.threads[id].request, s.threads[id].rest, fault);
        }
    }
  }

  lemma {:induction false} RunKeeps(events: seq<Event>)
    ensures Inv(Run(events))
  {
    if events != [] {
      RunKeeps(events[..|events| - 1]);
      NextKeeps(Run(events[..|events| - 1]), events[|events| - 1]);
    }
  }

  /** Wherever requests and recoveries stop: every stored run has an unpublished start request or a
      started workflow, no workflow is started twice, and requests and runs correspond one to one. */
  lemma NoRunIsLost(events: seq<Event>, runID: string)
    ensures var s := Run(events);
            runID in s.store.runs ==>
              || runID in s.starts
              || exists i :: 0 <= i < |s.store.outbox| && Unpublished(s.store.outbox[i], REQUESTED)
                             && s.store.outbox[i].aggregateID == runID
    ensures var starts := Run(events).starts; forall i, j :: 0 <= i < j < |starts| ==> starts[i] != starts[j]
    ensures IndexOk(Run(events).store.byRequest, Run(events).store.runs.Keys)
  {
    RunKeeps(events);
    var s := Run(events);
    if runID in s.store.runs {
      assert HasRequest(s.store.outbox, runID);
      var i :| 0 <= i < |s.store.outbox| && s.store.outbox[i].DomainEvent? && s.store.outbox[i].eventType == REQUESTED
               && s.store.outbox[i].aggregateID == runID;
      assert RequestOk(s.store.runs, s.starts, s.store.outbox[i]);
    }
  }
}
