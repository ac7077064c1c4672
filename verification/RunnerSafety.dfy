/** Safety of the runner protocol over every interleaving. */
module RunnerSafety {
  import opened Journal
  import opened RunnerProtocol

  lemma ExtendsSelf(j: Journal)
    ensures Advances(j, j) && Extends(j, j)
  {
  }

  /** Whatever the fault, the journal is the old one or the new one. */
  lemma EffectKeeps(hash: Hash, j: Journal, j': Journal, fault: Fault)
    requires JournalOk(hash, j) && JournalOk(hash, j') && Advances(j, j')
    ensures var e := Effect(j, j', fault); JournalOk(hash, e) && Advances(j, e) && Extends(j, e)
  {
    ExtendsSelf(j);
    AdvancesExtends(j, Effect(j, j', fault));
  }

  /** A thread that ends without an answer is always sound. */
  lemma EndKeeps(hash: Hash, s: System, id: nat, g: Grant, answer: Answer, j: Journal)
    requires Inv(hash, s) && JournalOk(hash, j) && Extends(s.journal, j) && !answer.Answered?
    ensures Inv(hash, System(j, s.threads[id := Finished(g, answer)], s.calls))
  {
    MoveKeeps(hash, s, id, Finished(g, answer), j);
  }

  lemma AnswerKeeps(hash: Hash, s: System, id: nat, g: Grant, answer: Answer, j: Journal)
    requires Inv(hash, s) && JournalOk(hash, j) && Extends(s.journal, j) && AnswerOk(hash, j, g, answer)
    ensures Inv(hash, System(j, s.threads[id := Finished(g, answer)], s.calls))
  {
    MoveKeeps(hash, s, id, Finished(g, answer), j);
  }

  lemma OwnKeeps(hash: Hash, s: System, id: nat, g: Grant, j: Journal)
    requires Inv(hash, s) && JournalOk(hash, j) && Extends(s.journal, j)
    requires NonceKey(g) !in s.journal.actions && NonceKey(g) in j.actions
    requires j.actions[NonceKey(g)] == NewRecord(g, hash(g))
    ensures Inv(hash, System(j, s.threads[id := Owner(NewRecord(g, hash(g)))], s.calls))
  {
    MoveKeeps(hash, s, id, Owner(NewRecord(g, hash(g))), j);
  }

  lemma ReplayKeeps(hash: Hash, s: System, id: nat, g: Grant, r: Record, j: Journal)
    requires Inv(hash, s) && Reserve(s.journal, g, hash(g)) == (j, r, false)
    ensures Inv(hash, System(j, s.threads[id := Finished(g, ReplayAnswer(hash, g, r))], s.calls))
  {
    var k :| k in s.journal.actions && s.journal.actions[k] == r;
    ReplayOk(hash, s.journal, g, k);
    ExtendsSelf(s.journal);
    if ReplayAnswer(hash, g, r).Answered? {
      AnswerKeeps(hash, s, id, g, ReplayAnswer(hash, g, r), j);
    } else {
      EndKeeps(hash, s, id, g, ReplayAnswer(hash, g, r), j);
    }
  }

  lemma ReserveStep(hash: Hash, s: System, id: nat, g: Grant, fault: Fault)
    requires Inv(hash, s) && id in s.threads && s.threads[id] == Cleared(g)
    ensures Inv(hash, AfterReserve(hash, s, id, g, fault))
    ensures Advances(s.journal, AfterReserve(hash, s, id, g, fault).journal)
  {
    ReserveKeeps(hash, s.journal, g);
    var (j, r, created) := Reserve(s.journal, g, hash(g));
    EffectKeeps(hash, s.journal, j, fault);
    if fault != Up {
      EndKeeps(hash, s, id, g, Rejected("AUDIT_JOURNAL_UNAVAILABLE"), Effect(s.journal, j, fault));
    } else if created {
      OwnKeeps(hash, s, id, g, j);
    } else {
      ReplayKeeps(hash, s, id, g, r, j);
    }
  }

  lemma ExecutedStep(hash: Hash, s: System, id: nat, r: Record, externalID: string, fault: Fault)
    requires Inv(hash, s) && id in s.threads && s.threads[id] == Executed(r, externalID)
    ensures Inv(hash, AfterExecuted(s, id, r, externalID, fault))
    ensures Advances(s.journal, AfterExecuted(s, id, r, externalID, fault).journal)
  {
    assert ThreadOk(hash, s, s.threads[id]);
    var r', event := SucceededRecord(r, externalID), CompletionEvent(r.grant, "SUCCEEDED");
    CompleteKeeps(hash, s.journal, r, r', event);
    var (j, ok) := Complete(s.journal, r', r.version, event);
    EffectKeeps(hash, s.journal, j, fault);
    if Acknowledged(fault, ok) {
      assert j.actions[NonceKey(r.grant)] == r'.(version := r.version + 1);
      AnswerKeeps(hash, s, id, r.grant, SuccessAnswer(r.grant, externalID), j);
    } else {
      EndKeeps(hash, s, id, r.grant, Rejected("EXTERNAL_STATE_UNKNOWN"), Effect(s.journal, j, fault));
    }
  }

  lemma FailingStep(hash: Hash, s: System, id: nat, r: Record, reason: string, fault: Fault)
    requires Inv(hash, s) && id in s.threads && s.threads[id] == Failing(r, reason)
    ensures Inv(hash, AfterFailing(s, id, r, reason, fault))
    ensures Advances(s.journal, AfterFailing(s, id, r, reason, fault).journal)
  {
    assert ThreadOk(hash, s, s.threads[id]);
    var r', event := UnknownRecord(r, reason), CompletionEvent(r.grant, "UNKNOWN");
    CompleteKeeps(hash, s.journal, r, r', event);
    var (j, ok) := Complete(s.journal, r', r.version, event);
    EffectKeeps(hash, s.journal, j, fault);
    EndKeeps(hash, s, id, r.grant, UnknownOutcome(reason), Effect(s.journal, j, fault));
  }

  lemma ReconcilingKeeps(hash: Hash, s: System, id: nat, records: seq<Record>, j: Journal)
    requires Inv(hash, s) && JournalOk(hash, j) && Extends(s.journal, j)
    requires forall i :: 0 <= i < |records| ==> Held(s.journal, records[i])
    ensures Inv(hash, System(j, s.threads[id := Reconciling(records)], s.calls))
  {
    ThreadStays(hash, s, s.(journal := j), Reconciling(records));
    MoveKeeps(hash, s, id, Reconciling(records), j);
  }

  lemma ResolveStep(hash: Hash, s: System, id: nat, records: seq<Record>, found: bool, externalID: string, fault: Fault)
    requires Inv(hash, s) && id in s.threads && s.threads[id] == Reconciling(records) && records != []
    ensures Inv(hash, AfterResolve(s, id, records, found, externalID, fault))
    ensures Advances(s.journal, AfterResolve(s, id, records, found, externalID, fault).journal)
  {
    assert ThreadOk(hash, s, s.threads[id]);
    ExtendsSelf(s.journal);
    var rest := records[1..];
    forall i | 0 <= i < |rest| ensures Held(s.journal, rest[i]) { assert rest[i] == records[i + 1]; }
    if !found {
      ReconcilingKeeps(hash, s, id, rest, s.journal);
    } else {
      var r := records[0];
      var r', event := SucceededRecord(r, externalID), ReconciliationEvent(r.grant);
      CompleteKeeps(hash, s.journal, r, r', event);
      var (j, ok) := Complete(s.journal, r', r.version, event);
      EffectKeeps(hash, s.journal, j, fault);
      ReconcilingKeeps(hash, s, id, if Acknowledged(fault, ok) then rest else [], Effect(s.journal, j, fault));
    }
  }

  lemma CallStep(hash: Hash, s: System, id: nat, r: Record, succeeded: bool, externalID: string)
    requires Inv(hash, s) && id in s.threads && s.threads[id] == Armed(r)
    ensures Inv(hash, Advance(hash, s, CallAdapter(id, succeeded, externalID), Armed(r)))
  {
    assert ThreadOk(hash, s, s.threads[id]);
    CallKeeps(hash, s, id, r, if succeeded then Executed(r, externalID) else Failing(r, "EXTERNAL_STATE_UNKNOWN"));
  }

  lemma LocalOk(hash: Hash, s: System, e: Event, t: Thread)
    requires JournalOk(hash, s.journal) && ThreadOk(hash, s, t)
    ensures ThreadOk(hash, s, Local(hash, s.journal, e, t))
    ensures PreCall(Local(hash, s.journal, e, t)) ==> PreCall(t) && Local(hash, s.journal, e, t).record == t.record
  {
    if t.Verified? && NonceKey(t.grant) in s.journal.actions {
      ReplayOk(hash, s.journal, t.grant, NonceKey(t.grant));
    }
  }

  lemma LocalStep(hash: Hash, s: System, id: nat, e: Event)
    requires Inv(hash, s) && id in s.threads
    ensures Inv(hash, Become(s, id, Local(hash, s.journal, e, s.threads[id])))
  {
    ExtendsSelf(s.journal);
    LocalOk(hash, s, e, s.threads[id]);
    MoveKeeps(hash, s, id, Local(hash, s.journal, e, s.threads[id]), s.journal);
  }

  /** The invariant holds afterwards and records have moved at most one stage. */
  ghost predicate Keeps(hash: Hash, s: System, s': System) {
    Inv(hash, s') && Advances(s.journal, s'.journal)
  }

  lemma CompletionIs(hash: Hash, s: System, id: nat, r: Record, text: string, fault: Fault)
    ensures Advance(hash, s, CompleteAction(id, fault), Executed(r, text)) == AfterExecuted(s, id, r, text, fault)
    ensures Advance(hash, s, CompleteAction(id, fault), Failing(r, text)) == AfterFailing(s, id, r, text, fault)
  {
  }

  lemma ExecutedKeeps(hash: Hash, s: System, e: Event)
    requires Inv(hash, s) && e.CompleteAction? && e.id in s.threads && s.threads[e.id].Executed?
    ensures Keeps(hash, s, Advance(hash, s, e, s.threads[e.id]))
  {
    var r, externalID := s.threads[e.id].record, s.threads[e.id].externalID;
    ExecutedStep(hash, s, e.id, r, externalID, e.fault);
    CompletionIs(hash, s, e.id, r, externalID, e.fault);
    assert e == CompleteAction(e.id, e.fault) && s.threads[e.id] == Executed(r, externalID);
  }

  lemma FailingKeeps(hash: Hash, s: System, e: Event)
    requires Inv(hash, s) && e.CompleteAction? && e.id in s.threads && s.threads[e.id].Failing?
    ensures Keeps(hash, s, Advance(hash, s, e, s.threads[e.id]))
  {
    var r, reason := s.threads[e.id].record, s.threads[e.id].reason;
    FailingStep(hash, s, e.id, r, reason, e.fault);
    CompletionIs(hash, s, e.id, r, reason, e.fault);
    assert e == CompleteAction(e.id, e.fault) && s.threads[e.id] == Failing(r, reason);
  }

  lemma CompleteActionKeeps(hash: Hash, s: System, e: Event)
    requires Inv(hash, s) && e.CompleteAction? && e.id in s.threads
    ensures Keeps(hash, s, Advance(hash, s, e, s.threads[e.id]))
  {
    if s.threads[e.id].Executed? {
      ExecutedKeeps(hash, s, e);
    } else if s.threads[e.id].Failing? {
      FailingKeeps(hash, s, e);
    } else {
      ExtendsSelf(s.journal);
      LocalStep(hash, s, e.id, e);
    }
  }

  lemma ResolveOneKeeps(hash: Hash, s: System, e: Event)
    requires Inv(hash, s) && e.ResolveOne? && e.id in s.threads
    ensures Keeps(hash, s, Advance(hash, s, e, s.threads[e.id]))
  {
    var t := s.threads[e.id];
    ExtendsSelf(s.journal);
    if !t.Reconciling? {
      LocalStep(hash, s, e.id, e);
    } else if t.records != [] {
      ResolveStep(hash, s, e.id, t.records, e.found, e.externalID, e.fault);
    }
  }

  lemma CallAdapterKeeps(hash: Hash, s: System, e: Event)
    requires Inv(hash, s) && e.CallAdapter? && e.id in s.threads
    ensures Keeps(hash, s, Advance(hash, s, e, s.threads[e.id]))
  {
    var t := s.threads[e.id];
    ExtendsSelf(s.journal);
    if t.Armed? {
      CallStep(hash, s, e.id, t.record, e.succeeded, e.externalID);
    } else {
      LocalStep(hash, s, e.id, e);
    }
  }

  lemma ReserveActionKeeps(hash: Hash, s: System, e: Event)
    requires Inv(hash, s) && e.ReserveAction? && e.id in s.threads
    ensures Keeps(hash, s, Advance(hash, s, e, s.threads[e.id]))
  {
    var t := s.threads[e.id];
    if t.Cleared? {
      ReserveStep(hash, s, e.id, t.grant, e.fault);
    } else {
      ExtendsSelf(s.journal);
      LocalStep(hash, s, e.id, e);
    }
  }

  lemma AdvanceKeeps(hash: Hash, s: System, e: Event)
    requires Inv(hash, s) && !e.Execute? && !e.Reconcile? && !e.Crash? && e.id in s.threads
    ensures Keeps(hash, s, Advance(hash, s, e, s.threads[e.id]))
  {
    match e {
      case ReserveAction(_, _) => ReserveActionKeeps(hash, s, e);
      case CallAdapter(_, _, _) => CallAdapterKeeps(hash, s, e);
      case CompleteAction(_, _) => CompleteActionKeeps(hash, s, e);
      case ResolveOne(_, _, _, _) => ResolveOneKeeps(hash, s, e);
      case _ =>
        ExtendsSelf(s.journal);
        LocalStep(hash, s, e.id, e);
    }
  }

  lemma CrashKeeps(hash: Hash, s: System, id: nat)
    requires Inv(hash, s)
    ensures Inv(hash, s.(threads := s.threads - {id}))
  {
    var s' := s.(threads := s.threads - {id});
    ExtendsSelf(s.journal);
    forall i | i in s'.threads ensures ThreadOk(hash, s', s'.threads[i]) {
      ThreadStays(hash, s, s', s.threads[i]);
    }
    CallsStay(s, s');
  }

  /** Every event keeps the invariant and moves each record at most one stage. */
  lemma NextKeeps(hash: Hash, s: System, e: Event)
    requires Inv(hash, s)
    ensures Inv(hash, Next(hash, s, e))
    ensures Advances(s.journal, Next(hash, s, e).journal)
  {
    ExtendsSelf(s.journal);
    match e {
      case Execute(id, tenantID, runnerGroup, grant) =>
        if id !in s.threads {
          MoveKeeps(hash, s, id, Start(tenantID, runnerGroup, grant), s.journal);
        }
      case Reconcile(id, records) =>
        if id !in s.threads && forall r :: r in records ==> Snapshot(s.journal, r) {
          forall i | 0 <= i < |records| ensures Held(s.journal, records[i]) {
            assert records[i] in records;
            assert RecordOk(hash, s.journal, NonceKey(records[i].grant));
          }
          MoveKeeps(hash, s, id, Reconciling(records), s.journal);
        }
      case Crash(id) => CrashKeeps(hash, s, id);
      case _ =>
        if e.id in s.threads {
          AdvanceKeeps(hash, s, e);
        }
    }
  }

  lemma {:induction false} RunKeeps(hash: Hash, events: seq<Event>)
    ensures Inv(hash, Run(hash, events))
  {
    if events != [] {
      RunKeeps(hash, events[..|events| - 1]);
      NextKeeps(hash, Run(hash, events[..|events| - 1]), events[|events| - 1]);
    }
  }

  // --- What every run guarantees ---

  /** Over every interleaving the adapter is called at most once per nonce and at most once per
      idempotency key of a tenant and runner group. */
  lemma AtMostOneCall(hash: Hash, events: seq<Event>, i: nat, j: nat)
    requires i < j < |Run(hash, events).calls|
    ensures var calls := Run(hash, events).calls;
            NonceKey(calls[i]) != NonceKey(calls[j]) && IdempotencyKey(calls[i]) != IdempotencyKey(calls[j])
  {
    RunKeeps(hash, events);
    var s := Run(hash, events);
    assert OnFile(s.journal, s.calls[i]) && OnFile(s.journal, s.calls[j]);
    assert RecordOk(hash, s.journal, NonceKey(s.calls[i]));
    assert RecordOk(hash, s.journal, NonceKey(s.calls[j]));
  }

  /** Only a call event in an armed thread calls the adapter, and it adds that thread's grant. */
  lemma OnlyArmedCalls(hash: Hash, s: System, e: Event)
    requires Next(hash, s, e).calls != s.calls
    ensures e.CallAdapter? && e.id in s.threads && s.threads[e.id].Armed?
    ensures Next(hash, s, e).calls == s.calls + [s.threads[e.id].record.grant]
  {
  }

  lemma ArmedIsReserved(hash: Hash, s: System, id: nat)
    requires Inv(hash, s) && id in s.threads && s.threads[id].Armed?
    ensures OnFile(s.journal, s.threads[id].record.grant)
    ensures ReserveEvent(s.threads[id].record.grant) in s.journal.audit
  {
    var r := s.threads[id].record;
    assert ThreadOk(hash, s, s.threads[id]);
    assert Held(s.journal, r) && RecordOk(hash, s.journal, NonceKey(r.grant));
  }

  /** The moment the adapter is called, the call's own record and its reservation audit event
      have been in the journal since before. */
  lemma CallFollowsReservation(hash: Hash, events: seq<Event>, e: Event)
    requires var s := Run(hash, events); Next(hash, s, e).calls != s.calls
    ensures var s := Run(hash, events);
            exists g :: Next(hash, s, e).calls == s.calls + [g] && OnFile(s.journal, g)
                        && ReserveEvent(g) in s.journal.audit
  {
    RunKeeps(hash, events);
    var s := Run(hash, events);
    OnlyArmedCalls(hash, s, e);
    ArmedIsReserved(hash, s, e.id);
  }

  ghost function RunFrom(hash: Hash, s: System, events: seq<Event>): System
    decreases |events|
  {
    if events == [] then s else RunFrom(hash, Next(hash, s, events[0]), events[1..])
  }

  /** Whatever happens afterwards, records only move forward and a SUCCEEDED record never changes again. */
  lemma {:induction false} RecordsOnlyAdvance(hash: Hash, s: System, events: seq<Event>)
    requires Inv(hash, s)
    ensures Inv(hash, RunFrom(hash, s, events)) && Extends(s.journal, RunFrom(hash, s, events).journal)
    ensures forall k :: k in s.journal.actions && s.journal.actions[k].status == Succeeded ==>
              k in RunFrom(hash, s, events).journal.actions &&
              RunFrom(hash, s, events).journal.actions[k] == s.journal.actions[k]
    decreases |events|
  {
    if events != [] {
      NextKeeps(hash, s, events[0]);
      var mid := Next(hash, s, events[0]);
      RecordsOnlyAdvance(hash, mid, events[1..]);
      AdvancesExtends(s.journal, mid.journal);
      ExtendsThen(s.journal, mid.journal, RunFrom(hash, mid, events[1..]).journal);
    }
  }

  lemma ExtendsThen(a: Journal, b: Journal, c: Journal)
    requires Extends(a, b) && Extends(b, c)
    ensures Extends(a, c)
  {
    forall k | k in a.actions ensures k in c.actions && Evolves(a.actions[k], c.actions[k]) {
      EvolvesTransitive(a.actions[k], b.actions[k], c.actions[k]);
    }
  }

  lemma LookUpAnswers(hash: Hash, s: System, g: Grant, id: nat)
    requires OnFile(s.journal, g) && s.journal.actions[NonceKey(g)].status == Succeeded
    requires s.journal.actions[NonceKey(g)].requestHash == hash(g)
    requires id in s.threads && s.threads[id] == Verified(g)
    ensures var s' := Next(hash, s, LookUp(id, Up));
            id in s'.threads && s'.threads[id] == Finished(g, s.journal.actions[NonceKey(g)].answer)
  {
  }

  /** Once a grant has succeeded, every verified redelivery at any later time is answered
      with the recorded result, as long as the journal can be read. */
  lemma RedeliveryReturnsTheResult(hash: Hash, s: System, events: seq<Event>, g: Grant, id: nat)
    requires Inv(hash, s) && OnFile(s.journal, g) && s.journal.actions[NonceKey(g)].status == Succeeded
    requires var later := RunFrom(hash, s, events); id in later.threads && later.threads[id] == Verified(g)
    ensures var s' := Next(hash, RunFrom(hash, s, events), LookUp(id, Up));
            id in s'.threads && s'.threads[id] == Finished(g, s.journal.actions[NonceKey(g)].answer)
  {
    RecordsOnlyAdvance(hash, s, events);
    assert RecordOk(hash, s.journal, NonceKey(g));
    LookUpAnswers(hash, RunFrom(hash, s, events), g, id);
  }

  /** Two successful answers to the same grant are equal, whichever threads gave them and however. */
  lemma AnswersAgree(hash: Hash, events: seq<Event>, a: nat, b: nat)
    requires forall g, g' :: hash(g) == hash(g') ==> g == g'
    requires var s := Run(hash, events);
             && a in s.threads && b in s.threads && s.threads[a].Finished? && s.threads[b].Finished?
             && s.threads[a].grant == s.threads[b].grant
             && s.threads[a].answer.Answered? && s.threads[b].answer.Answered?
    ensures Run(hash, events).threads[a].answer == Run(hash, events).threads[b].answer
  {
    RunKeeps(hash, events);
    var s := Run(hash, events);
    assert ThreadOk(hash, s, s.threads[a]) && ThreadOk(hash, s, s.threads[b]);
    var j, g := s.journal, s.threads[a].grant;
    var k :| k in j.actions && j.actions[k].status == Succeeded && j.actions[k].answer == s.threads[a].answer
             && j.actions[k].requestHash == hash(g);
    var l :| l in j.actions && j.actions[l].status == Succeeded && j.actions[l].answer == s.threads[b].answer
             && j.actions[l].requestHash == hash(g);
    assert RecordOk(hash, j, k) && RecordOk(hash, j, l);
  }
}
