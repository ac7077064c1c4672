/** Requesting a release and recovering the requests that were not published. */
module Application {
  import opened Domain
  import opened Release
  import opened RunStore
  import opened WorkflowStart
  import opened P = Planner

  const STARTED := "release.start"

  /** The workflow service: an id is started once; starting it again succeeds without effect. */
  class WorkflowService {
    var starts: seq<string>

    constructor ()
      ensures starts == []
    {
      starts := [];
    }

    method StartRelease(id: string, fails: bool) returns (ok: bool)
      modifies this
      ensures ok == !fails
      ensures starts == if fails then old(starts) else StartWorkflow(old(starts), id)
    {
      if fails {
        return false;
      }
      if id !in starts {
        starts := starts + [id];
      }
      ok := true;
    }
  }

  /** What goes wrong on the way to a published start: nothing, the start, or the mark. */
  datatype Trouble = Fine | StartFails | MarkFails

  datatype StartError = InvalidPlan(problem: PlanProblem) | NotStored(error: StoreError)

  /** The workflows after a start request, and the outbox after its mark. */
  function Launched(starts: seq<string>, id: string, trouble: Trouble): seq<string> {
    if trouble == StartFails then starts else StartWorkflow(starts, id)
  }

  function Confirmed(outbox: seq<OutboxEvent>, eventID: string, trouble: Trouble): seq<OutboxEvent> {
    if trouble == Fine then Mark(outbox, eventID) else outbox
  }

  ghost predicate Answers(r: Result<(ReleaseRun, bool), StartError>, stored: Result<(ReleaseRun, bool), StoreError>) {
    r == match stored case Success(x) => Success(x) case Failure(e) => Failure(NotStored(e))
  }

  /** Starting a planned release: the plan is validated again, the request stored, its workflow started and the
      request marked, stopping at the first failure. A repeated request returns the stored run and starts nothing. */
  method Start(store: RunStore.Memory, service: WorkflowService, planner: P.Planner, h: Hasher, now: int,
               run: ReleaseRun, eventID: string, trouble: Trouble)
      returns (r: Result<(ReleaseRun, bool), StartError>, published: bool)
    requires store.Valid()
    modifies store, service
    ensures store.Valid()
    ensures var problem := ValidatePlan(planner, h, run.info.plan, now);
            problem.Some? ==>
              r == Failure(InvalidPlan(problem.value)) && !published && store.View() == old(store.View())
              && service.starts == old(service.starts)
    ensures ValidatePlan(planner, h, run.info.plan, now).None? ==>
              var (stored, made) := Create(old(store.View()), run, [STARTED],
                                           [StartEvent(Request(eventID, run.info.id))]);
              var created := made.Success? && made.value.1;
              && Answers(r, made) && (published <==> created && trouble == Fine)
              && service.starts == (if created then Launched(old(service.starts), run.info.id, trouble)
                                    else old(service.starts))
              && store.View() == (if created then stored.(outbox := Confirmed(stored.outbox, eventID, trouble))
                                  else stored)
  {
    published := false;
    var problem := ValidatePlan(planner, h, run.info.plan, now);
    if problem.Some? {
      return Failure(InvalidPlan(problem.value)), false;
    }
    var events := [StartEvent(Request(eventID, run.info.id))];
    assert NoProjections(events);
    var made := store.CreateRunAtomic(run, events, [STARTED]);
    if made.Failure? {
      return Failure(NotStored(made.error)), false;
    }
    r := Success(made.value);
    if !made.value.1 {
      return;
    }
    CreatedIsTheRun(old(store.View()), run, [STARTED], events);
    var ok := service.StartRelease(made.value.0.info.id, trouble == StartFails);
    if !ok || trouble == MarkFails {
      return;
    }
    var found := store.MarkOutboxPublished(eventID);
    published := true;
  }

  lemma CreatedIsTheRun(s: Store, run: ReleaseRun, audit: seq<string>, events: seq<OutboxEvent>)
    ensures var r := Create(s, run, audit, events).1; r.Success? && r.value.1 ==> r.value.0 == run
  {
  }

  // --- Recovery ---

  lemma {:induction false} MarkConcat(init: seq<OutboxEvent>, last: OutboxEvent, id: string)
    ensures Absent(init, id) ==> Mark(init + [last], id) == init + Mark([last], id)
    ensures !Absent(init, id) ==> Mark(init + [last], id) == Mark(init, id) + [last]
    decreases |init|
  {
    if init == [] {
      assert init + [last] == [last];
    } else {
      assert init == [init[0]] + init[1..];
      assert (init + [last])[1..] == init[1..] + [last] && (init + [last])[0] == init[0];
      MarkConcat(init[1..], last, id);
      if !(init[0].DomainEvent? && init[0].id == id) {
        assert Absent(init, id) <==> Absent(init[1..], id);
      }
    }
  }

  lemma PendingOfAppend(init: seq<OutboxEvent>, last: OutboxEvent)
    ensures AllPending(init + [last], REQUESTED) ==
            AllPending(init, REQUESTED) + if Unpublished(last, REQUESTED) then [last] else []
  {
    assert (init + [last])[..|init|] == init;
  }

  /** Marking the oldest pending request removes exactly it from the pending ones. */
  lemma {:induction false} MarkRemovesFirst(outbox: seq<OutboxEvent>, id: string)
    requires DistinctIds(outbox) && AllPending(outbox, REQUESTED) != []
    requires AllPending(outbox, REQUESTED)[0].DomainEvent? && AllPending(outbox, REQUESTED)[0].id == id
    ensures AllPending(Mark(outbox, id), REQUESTED) == AllPending(outbox, REQUESTED)[1..]
  {
    var init, last := outbox[..|outbox| - 1], outbox[|outbox| - 1];
    assert outbox == init + [last];
    MarkConcat(init, last, id);
    PendingOfAppend(init, last);
    AllPendingMembers(init, REQUESTED);
    if AllPending(init, REQUESTED) != [] {
      var first := AllPending(init, REQUESTED)[0];
      assert first in AllPending(init, REQUESTED) && first in init;
      assert !Absent(init, id);
      MarkRemovesFirst(init, id);
      PendingOfAppend(Mark(init, id), last);
    } else {
      LastMarked(init, last, id);
    }
  }

  lemma LastMarked(init: seq<OutboxEvent>, last: OutboxEvent, id: string)
    requires DistinctIds(init + [last]) && AllPending(init, REQUESTED) == []
    requires Unpublished(last, REQUESTED) && last.id == id
    ensures AllPending(Mark(init + [last], id), REQUESTED) == []
  {
    var outbox := init + [last];
    forall i | 0 <= i < |init| && init[i].DomainEvent? ensures init[i].id != id {
      assert outbox[i] == init[i] && outbox[|init|] == last;
    }
    MarkConcat(init, last, id);
    PendingOfAppend(init, last.(published := true));
  }

  lemma MarkKeepsIds(outbox: seq<OutboxEvent>, id: string)
    requires DistinctIds(outbox)
    ensures DistinctIds(Mark(outbox, id))
  {
    MarkGrows(outbox, id);
    forall i, j | 0 <= i < j < |outbox| && Mark(outbox, id)[i].DomainEvent? && Mark(outbox, id)[j].DomainEvent?
      ensures Mark(outbox, id)[i].id != Mark(outbox, id)[j].id
    {
      assert MarkedAt(outbox[i], Mark(outbox, id)[i], id) && MarkedAt(outbox[j], Mark(outbox, id)[j], id);
    }
  }

  /** One pending request: its run is loaded, its workflow started, and the request marked. */
  method Publish(store: RunStore.Memory, service: WorkflowService, e: OutboxEvent, trouble: Trouble)
      returns (ok: bool)
    requires store.Valid() && DistinctIds(store.outbox) && e.DomainEvent?
    requires AllPending(store.outbox, REQUESTED) != [] && AllPending(store.outbox, REQUESTED)[0] == e
    modifies store, service
    ensures store.Valid() && DistinctIds(store.outbox)
    ensures store.View() == old(store.View()).(outbox := store.outbox)
    ensures ok <==> e.aggregateID in store.runs && trouble == Fine
    ensures store.outbox == if ok then Mark(old(store.outbox), e.id) else old(store.outbox)
    ensures ok ==> AllPending(store.outbox, REQUESTED) == old(AllPending(store.outbox, REQUESTED))[1..]
    ensures service.starts == if e.aggregateID in store.runs then Launched(old(service.starts), e.aggregateID, trouble)
                              else old(service.starts)
  {
    if e.aggregateID !in store.runs {
      return false;
    }
    ok := service.StartRelease(e.aggregateID, trouble == StartFails);
    if !ok || trouble == MarkFails {
      return false;
    }
    MarkRemovesFirst(store.outbox, e.id);
    MarkKeepsIds(store.outbox, e.id);
    var found := store.MarkOutboxPublished(e.id);
  }

  /** Every pending request is for a stored run. */
  ghost predicate Recoverable(s: Store) {
    forall e :: e in AllPending(s.outbox, REQUESTED) ==> e.DomainEvent? && e.aggregateID in s.runs
  }

  /** Requests and recoveries leave nothing but such requests, wherever they stop. */
  lemma ReachableIsRecoverable(events: seq<Event>)
    ensures var s := WorkflowStart.Run(events).store; StoreOk(s) && DistinctIds(s.outbox) && Recoverable(s)
  {
    RunKeeps(events);
    var s := WorkflowStart.Run(events);
    AllPendingMembers(s.store.outbox, REQUESTED);
    forall e | e in AllPending(s.store.outbox, REQUESTED) ensures e.DomainEvent? && e.aggregateID in s.store.runs {
      assert e in s.store.outbox && Unpublished(e, REQUESTED);
      assert RequestOk(s.store.runs, s.starts, e);
    }
  }

  /** The workflows after starting those of the requests, in order. */
  ghost function Launches(starts: seq<string>, requests: seq<OutboxEvent>): seq<string> {
    if requests == [] then starts
    else
      var init, last := requests[..|requests| - 1], requests[|requests| - 1];
      if last.DomainEvent? then StartWorkflow(Launches(starts, init), last.aggregateID) else Launches(starts, init)
  }

  /** The outbox after marking the requests, in order. */
  ghost function Marks(outbox: seq<OutboxEvent>, requests: seq<OutboxEvent>): seq<OutboxEvent> {
    if requests == [] then outbox
    else
      var init, last := requests[..|requests| - 1], requests[|requests| - 1];
      if last.DomainEvent? then Mark(Marks(outbox, init), last.id) else Marks(outbox, init)
  }

  lemma OneMore(starts: seq<string>, outbox: seq<OutboxEvent>, all: seq<OutboxEvent>, n: nat)
    requires n < |all| && all[n].DomainEvent?
    ensures Launches(starts, all[..n + 1]) == StartWorkflow(Launches(starts, all[..n]), all[n].aggregateID)
    ensures Marks(outbox, all[..n + 1]) == Mark(Marks(outbox, all[..n]), all[n].id)
  {
    assert all[..n + 1][..n] == all[..n];
  }

  /** What was started before stays started, the requests are started, and nothing else is. */
  lemma {:induction false} LaunchesIff(starts: seq<string>, requests: seq<OutboxEvent>, id: string)
    ensures id in Launches(starts, requests) <==>
            id in starts || exists i :: 0 <= i < |requests| && requests[i].DomainEvent? && requests[i].aggregateID == id
  {
    if requests != [] {
      var init := requests[..|requests| - 1];
      assert requests == init + [requests[|requests| - 1]];
      LaunchesIff(starts, init, id);
    }
  }

  lemma StartsGrowBy(starts: seq<string>, all: seq<OutboxEvent>, n: nat, reached: nat)
    requires n <= reached <= |all| && forall e :: e in all ==> e.DomainEvent?
    ensures forall i :: 0 <= i < n ==> all[i].DomainEvent? && all[i].aggregateID in Launches(starts, all[..reached])
    ensures forall x :: x in starts ==> x in Launches(starts, all[..reached])
  {
    forall i | 0 <= i < n ensures all[i].DomainEvent? && all[i].aggregateID in Launches(starts, all[..reached]) {
      assert all[i] in all && all[..reached][i] == all[i];
      LaunchesIff(starts, all[..reached], all[i].aggregateID);
    }
    forall x | x in starts ensures x in Launches(starts, all[..reached]) {
      LaunchesIff(starts, all[..reached], x);
    }
  }

  /** How many requests a pass has started: those published, and the next one if only its mark failed. */
  ghost function Reached(all: seq<OutboxEvent>, published: nat, ok: bool, runs: set<string>, trouble: nat -> Trouble)
      : (n: nat)
    requires published <= |all|
    ensures n <= |all|
  {
    if !ok && published < |all| && all[published].DomainEvent? && all[published].aggregateID in runs
       && trouble(published) == MarkFails
    then published + 1 else published
  }

  /** Publishes the oldest pending requests in order, up to the first that cannot be. */
  method PublishAll(store: RunStore.Memory, service: WorkflowService, events: seq<OutboxEvent>,
                    ghost all: seq<OutboxEvent>, trouble: nat -> Trouble)
      returns (published: nat, ok: bool)
    requires store.Valid() && DistinctIds(store.outbox) && AllPending(store.outbox, REQUESTED) == all
    requires |events| <= |all| && events == all[..|events|] && forall e :: e in all ==> e.DomainEvent?
    modifies store, service
    ensures store.Valid() && DistinctIds(store.outbox)
    ensures published <= |events| && AllPending(store.outbox, REQUESTED) == all[published..]
    ensures store.View() == old(store.View()).(outbox := Marks(old(store.outbox), all[..published]))
    ensures service.starts == Launches(old(service.starts),
                                       all[..Reached(all, published, ok, store.runs.Keys, trouble)])
    ensures if ok then published == |events|
            else published < |events| && (trouble(published) != Fine || all[published].aggregateID !in store.runs)
  {
    published := 0;
    while published < |events|
      invariant published <= |events| && store.Valid() && DistinctIds(store.outbox)
      invariant AllPending(store.outbox, REQUESTED) == all[published..]
      invariant store.View() == old(store.View()).(outbox := Marks(old(store.outbox), all[..published]))
      invariant service.starts == Launches(old(service.starts), all[..published])
    {
      assert events[published] == all[published] && all[published] in all;
      assert all[published..][0] == all[published] && all[published..][1..] == all[published + 1..];
      OneMore(old(service.starts), old(store.outbox), all, published);
      ok := Publish(store, service, events[published], trouble(published));
      if !ok {
        return;
      }
      published := published + 1;
    }
    ok := true;
  }

  /** A recovery pass takes pending requests oldest first. It stops only at a run that is not stored or a start or
      mark that fails. A pass without failures and with room for all, over a store that requests and recoveries can
      reach, leaves nothing pending. */
  method RecoverPendingWorkflows(store: RunStore.Memory, service: WorkflowService, limit: int, trouble: nat -> Trouble)
      returns (published: nat, ok: bool)
    requires store.Valid() && DistinctIds(store.outbox)
    modifies store, service
    ensures store.Valid() && DistinctIds(store.outbox)
    ensures published <= |old(AllPending(store.outbox, REQUESTED))|
    ensures var all := old(AllPending(store.outbox, REQUESTED));
            && store.View() == old(store.View()).(outbox := Marks(old(store.outbox), all[..published]))
            && service.starts == Launches(old(service.starts),
                                          all[..Reached(all, published, ok, store.runs.Keys, trouble)])
    ensures AllPending(store.outbox, REQUESTED) == old(AllPending(store.outbox, REQUESTED))[published..]
    ensures ok ==> published == |Pending(old(store.outbox), REQUESTED, limit)|
    ensures ok && (limit <= 0 || limit >= |old(AllPending(store.outbox, REQUESTED))|) ==>
              AllPending(store.outbox, REQUESTED) == []
    ensures !ok ==> var all := old(AllPending(store.outbox, REQUESTED));
                    published < |all| && all[published].DomainEvent? &&
                    (trouble(published) != Fine || all[published].aggregateID !in store.runs)
    ensures && Recoverable(old(store.View())) && (forall i :: trouble(i) == Fine)
            && (limit <= 0 || limit >= |old(AllPending(store.outbox, REQUESTED))|) ==>
              ok && AllPending(store.outbox, REQUESTED) == []
    ensures forall i :: 0 <= i < published ==>
              var e := old(AllPending(store.outbox, REQUESTED))[i]; e.DomainEvent? && e.aggregateID in service.starts
    ensures forall x :: x in old(service.starts) ==> x in service.starts
  {
    var events := store.PendingOutboxByType(REQUESTED, limit);
    ghost var all := AllPending(store.outbox, REQUESTED);
    AllPendingMembers(store.outbox, REQUESTED);
    published, ok := PublishAll(store, service, events, all, trouble);
    assert !ok ==> all[published] in all;
    StartsGrowBy(old(service.starts), all, published, Reached(all, published, ok, store.runs.Keys, trouble));
  }
}
