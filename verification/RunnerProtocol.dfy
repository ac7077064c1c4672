/** Concurrent executions and reconciliations over one journal. Every call is a
    thread that advances one atomic action at a time; the environment chooses the
    interleaving, the outcome of every check and adapter call, journal failures
    with or without effect, and crashes. */
module RunnerProtocol {
  import opened Journal

  datatype Thread =
    | Start(tenantID: string, runnerGroup: string, grant: Grant)
    | Verified(grant: Grant)
    | Fresh(grant: Grant)
    | Cleared(grant: Grant)
    | Owner(record: Record)
    | Armed(record: Record)
    | Executed(record: Record, externalID: string)
    | Failing(record: Record, reason: string)
    | Finished(grant: Grant, answer: Answer)
    | Reconciling(records: seq<Record>)

  /** `Down`: the journal refuses and nothing happens. `LostAck`: it happens, but the caller sees a failure. */
  datatype Fault = Up | Down | LostAck

  datatype Event =
    | Execute(id: nat, tenantID: string, runnerGroup: string, grant: Grant)
    | Reconcile(id: nat, records: seq<Record>)
    | VerifyGrant(id: nat, verified: bool)
    | LookUp(id: nat, fault: Fault)
    | CheckGrant(id: nat, passed: bool)
    | ReserveAction(id: nat, fault: Fault)
    | AcquireCredential(id: nat, acquired: bool)
    | CallAdapter(id: nat, succeeded: bool, externalID: string)
    | CompleteAction(id: nat, fault: Fault)
    | ResolveOne(id: nat, found: bool, externalID: string, fault: Fault)
    | Crash(id: nat)

  datatype System = System(journal: Journal, threads: map<nat, Thread>, calls: seq<Grant>)

  const INITIAL := System(EMPTY, map[], [])

  type Hash = Grant -> string

  function SuccessAnswer(g: Grant, externalID: string): Answer { Answered(g.grantID, g.runID, g.stepID, externalID) }

  /** The answer to a grant whose nonce or idempotency key is already on file. */
  function ReplayAnswer(hash: Hash, g: Grant, r: Record): Answer {
    if r.requestHash != hash(g) then Rejected("NONCE_REPLAY")
    else if r.status == Succeeded then r.answer
    else ReconciliationRequired
  }

  function SucceededRecord(r: Record, externalID: string): Record {
    r.(status := Succeeded, answer := SuccessAnswer(r.grant, externalID))
  }

  function UnknownRecord(r: Record, reason: string): Record {
    r.(status := Unknown, answer := UnknownOutcome(reason))
  }

  function CompletionEvent(g: Grant, result: string): AuditEvent {
    AuditEvent(g.grantID, "runner.action.complete", result)
  }

  function ReconciliationEvent(g: Grant): AuditEvent {
    AuditEvent(g.grantID, "runner.action.reconcile", "SUCCEEDED")
  }

  /** A pending record as some thread could have read it. */
  predicate Snapshot(j: Journal, r: Record) {
    NonceKey(r.grant) in j.actions && j.actions[NonceKey(r.grant)] == r && r.status != Succeeded
  }

  function Become(s: System, id: nat, t: Thread): System { s.(threads := s.threads[id := t]) }

  /** What the caller of a faulty journal operation sees. */
  predicate Acknowledged(fault: Fault, ok: bool) { fault == Up && ok }

  function Effect(before: Journal, after: Journal, fault: Fault): Journal {
    if fault == Down then before else after
  }

  /** The reservation of a cleared grant: refused, already on file, or now owned by this thread. */
  function AfterReserve(hash: Hash, s: System, id: nat, g: Grant, fault: Fault): System {
    var (j, r, created) := Reserve(s.journal, g, hash(g));
    var t := if fault != Up then Finished(g, Rejected("AUDIT_JOURNAL_UNAVAILABLE"))
             else if created then Owner(r)
             else Finished(g, ReplayAnswer(hash, g, r));
    System(Effect(s.journal, j, fault), s.threads[id := t], s.calls)
  }

  function AfterExecuted(s: System, id: nat, r: Record, externalID: string, fault: Fault): System {
    var (j, ok) := Complete(s.journal, SucceededRecord(r, externalID), r.version,
                            CompletionEvent(r.grant, "SUCCEEDED"));
    var answer := if Acknowledged(fault, ok) then SuccessAnswer(r.grant, externalID)
                  else Rejected("EXTERNAL_STATE_UNKNOWN");
    System(Effect(s.journal, j, fault), s.threads[id := Finished(r.grant, answer)], s.calls)
  }

  function AfterFailing(s: System, id: nat, r: Record, reason: string, fault: Fault): System {
    var (j, _) := Complete(s.journal, UnknownRecord(r, reason), r.version, CompletionEvent(r.grant, "UNKNOWN"));
    System(Effect(s.journal, j, fault), s.threads[id := Finished(r.grant, UnknownOutcome(reason))], s.calls)
  }

  /** The next snapshot of a reconciliation: skipped, resolved, or the loop ends on a journal failure. */
  function AfterResolve(s: System, id: nat, records: seq<Record>, found: bool, externalID: string, fault: Fault): System
    requires records != []
  {
    var r := records[0];
    var (j, ok) := Complete(s.journal, SucceededRecord(r, externalID), r.version, ReconciliationEvent(r.grant));
    if !found then System(s.journal, s.threads[id := Reconciling(records[1..])], s.calls)
    else System(Effect(s.journal, j, fault),
                s.threads[id := Reconciling(if Acknowledged(fault, ok) then records[1..] else [])], s.calls)
  }

  /** One atomic action; an event that does not fit the thread's position changes nothing. */
  function Next(hash: Hash, s: System, e: Event): System {
    match e
    case Execute(id, tenantID, runnerGroup, grant) =>
      if id in s.threads then s else Become(s, id, Start(tenantID, runnerGroup, grant))
    case Reconcile(id, records) =>
      if id in s.threads || exists r :: r in records && !Snapshot(s.journal, r) then s
      else Become(s, id, Reconciling(records))
    case Crash(id) => s.(threads := s.threads - {id})
    case _ => if e.id in s.threads then Advance(hash, s, e, s.threads[e.id]) else s
  }

  /** Checks, the journal lookup and the credential: steps that change only the thread. */
  function Local(hash: Hash, j: Journal, e: Event, t: Thread): Thread {
    match (t, e)
    case (Start(tenantID, runnerGroup, g), VerifyGrant(_, verified)) =>
      if !verified then Finished(g, Rejected("GRANT"))
      else if tenantID == "" || g.tenantID != tenantID then Finished(g, Rejected("WRONG_TENANT"))
      else if runnerGroup == "" || g.runnerGroup != runnerGroup then Finished(g, Rejected("WRONG_RUNNER_AUDIENCE"))
      else Verified(g)
    case (Verified(g), LookUp(_, fault)) =>
      if fault != Up then Finished(g, Rejected("AUDIT_JOURNAL_UNAVAILABLE"))
      else if NonceKey(g) in j.actions then Finished(g, ReplayAnswer(hash, g, j.actions[NonceKey(g)]))
      else Fresh(g)
    case (Fresh(g), CheckGrant(_, passed)) => if passed then Cleared(g) else Finished(g, Rejected("CHECK"))
    case (Owner(r), AcquireCredential(_, acquired)) =>
      if acquired then Armed(r) else Failing(r, "CREDENTIAL_UNAVAILABLE")
    case _ => t
  }

  function Advance(hash: Hash, s: System, e: Event, t: Thread): System
    requires !e.Execute? && !e.Reconcile? && !e.Crash?
  {
    match (t, e)
    case (Cleared(g), ReserveAction(id, fault)) => AfterReserve(hash, s, id, g, fault)
    case (Armed(r), CallAdapter(id, succeeded, externalID)) =>
      Become(s.(calls := s.calls + [r.grant]), id,
             if succeeded then Executed(r, externalID) else Failing(r, "EXTERNAL_STATE_UNKNOWN"))
    case (Executed(r, externalID), CompleteAction(id, fault)) => AfterExecuted(s, id, r, externalID, fault)
    case (Failing(r, reason), CompleteAction(id, fault)) => AfterFailing(s, id, r, reason, fault)
    case (Reconciling(records), ResolveOne(id, found, externalID, fault)) =>
      if records == [] then s else AfterResolve(s, id, records, found, externalID, fault)
    case _ => Become(s, e.id, Local(hash, s.journal, e, t))
  }

  function Run(hash: Hash, events: seq<Event>): System {
    if events == [] then INITIAL else Next(hash, Run(hash, events[..|events| - 1]), events[|events| - 1])
  }

  // --- Invariant ---

  /** RESERVED at version 1, UNKNOWN at version 2, SUCCEEDED at version 2 or 3 with an answer. */
  ghost predicate Staged(r: Record) {
    match r.status
    case Reserved => r.version == 1
    case Unknown => r.version == 2
    case Succeeded => (r.version == 2 || r.version == 3) && r.answer.Answered?
  }

  ghost predicate RecordOk(hash: Hash, j: Journal, k: string)
    requires k in j.actions
  {
    var r := j.actions[k];
    && NonceKey(r.grant) == k
    && IdempotencyKey(r.grant) in j.byKey && j.byKey[IdempotencyKey(r.grant)] == k
    && r.requestHash == hash(r.grant)
    && Staged(r)
    && ReserveEvent(r.grant) in j.audit
  }

  ghost predicate JournalOk(hash: Hash, j: Journal) {
    && (forall k :: k in j.actions ==> RecordOk(hash, j, k))
    && (forall i :: i in j.byKey ==> j.byKey[i] in j.actions)
  }

  /** The grant's own record is on file. */
  ghost predicate OnFile(j: Journal, g: Grant) {
    NonceKey(g) in j.actions && j.actions[NonceKey(g)].grant == g
  }

  /** One change of a record: RESERVED(1) to UNKNOWN(2) or SUCCEEDED(2), UNKNOWN(2) to SUCCEEDED(3). */
  ghost predicate Moves(r: Record, r': Record) {
    && r'.grant == r.grant && r'.requestHash == r.requestHash
    && ((r.status == Reserved && r.version == 1 && r'.status != Reserved && r'.version == 2) ||
        (r.status == Unknown && r.version == 2 && r'.status == Succeeded && r'.version == 3))
  }

  /** Any number of changes: forward only, and final once SUCCEEDED. */
  ghost predicate Evolves(r: Record, r': Record) {
    || r == r'
    || (&& r'.grant == r.grant && r'.requestHash == r.requestHash
        && ((r.status == Reserved && r.version == 1 && r'.status != Reserved && r'.version == 2) ||
            (r.status == Reserved && r.version == 1 && r'.status == Succeeded && r'.version == 3) ||
            (r.status == Unknown && r.version == 2 && r'.status == Succeeded && r'.version == 3)))
  }

  ghost predicate Extends(j: Journal, j': Journal) {
    && (forall k :: k in j.actions ==> k in j'.actions && Evolves(j.actions[k], j'.actions[k]))
    && (forall e :: e in j.audit ==> e in j'.audit)
  }

  predicate PreCall(t: Thread) { t.Owner? || t.Armed? }

  /** A record a thread still means to complete: on file, and not newer than what is there. */
  ghost predicate Held(j: Journal, r: Record) {
    && NonceKey(r.grant) in j.actions
    && Staged(r) && r.status != Succeeded
    && Evolves(r, j.actions[NonceKey(r.grant)])
  }

  ghost predicate ThreadOk(hash: Hash, s: System, t: Thread) {
    match t
    case Owner(r) => Held(s.journal, r) && r == NewRecord(r.grant, hash(r.grant))
    case Armed(r) => Held(s.journal, r) && r == NewRecord(r.grant, hash(r.grant))
    case Executed(r, _) => Held(s.journal, r) && r == NewRecord(r.grant, hash(r.grant))
    case Failing(r, _) => Held(s.journal, r) && r == NewRecord(r.grant, hash(r.grant))
    case Reconciling(records) => forall i :: 0 <= i < |records| ==> Held(s.journal, records[i])
    case Finished(g, answer) => answer.Answered? ==> AnswerOk(hash, s.journal, g, answer)
    case _ => true
  }

  /** A successful answer is the one on file for this request. */
  ghost predicate AnswerOk(hash: Hash, j: Journal, g: Grant, answer: Answer) {
    exists k :: k in j.actions && j.actions[k].status == Succeeded && j.actions[k].answer == answer
                && j.actions[k].requestHash == hash(g)
  }

  /** Threads that may still call the adapter own different records, none of them called before. */
  ghost predicate OwnersOk(s: System) {
    && (forall i :: i in s.threads && PreCall(s.threads[i]) ==> Uncalled(s.calls, s.threads[i].record.grant))
    && (forall i, j :: i in s.threads && j in s.threads && i != j && PreCall(s.threads[i]) && PreCall(s.threads[j]) ==>
          NonceKey(s.threads[i].record.grant) != NonceKey(s.threads[j].record.grant))
  }

  ghost predicate Uncalled(calls: seq<Grant>, g: Grant) {
    forall i :: 0 <= i < |calls| ==> NonceKey(calls[i]) != NonceKey(g)
  }

  ghost predicate CallsOk(s: System) {
    && (forall i :: 0 <= i < |s.calls| ==> OnFile(s.journal, s.calls[i]))
    && (forall i, j :: 0 <= i < j < |s.calls| ==> NonceKey(s.calls[i]) != NonceKey(s.calls[j]))
  }

  ghost predicate Inv(hash: Hash, s: System) {
    && JournalOk(hash, s.journal)
    && (forall i :: i in s.threads ==> ThreadOk(hash, s, s.threads[i]))
    && OwnersOk(s)
    && CallsOk(s)
  }

  // --- Journal operations keep the journal ---

  /** Every record is left alone or moves one stage; records and audit events are never lost. */
  ghost predicate Advances(j: Journal, j': Journal) {
    && (forall k :: k in j.actions ==>
          k in j'.actions && (j'.actions[k] == j.actions[k] || Moves(j.actions[k], j'.actions[k])))
    && (forall e :: e in j.audit ==> e in j'.audit)
  }

  lemma AdvancesExtends(j: Journal, j': Journal)
    requires Advances(j, j')
    ensures Extends(j, j')
  {
  }

  lemma EvolvesTransitive(a: Record, b: Record, c: Record)
    requires Evolves(a, b) && Evolves(b, c)
    ensures Evolves(a, c)
  {
  }

  lemma ReserveKeeps(hash: Hash, j: Journal, g: Grant)
    requires JournalOk(hash, j)
    ensures var (j', r, created) := Reserve(j, g, hash(g));
            && JournalOk(hash, j') && Advances(j, j')
            && (created ==> NonceKey(g) !in j.actions && OnFile(j', g) && r == NewRecord(g, hash(g))
                            && j'.actions[NonceKey(g)] == r)
            && (!created ==> exists k :: k in j.actions && j.actions[k] == r)
  {
    var (j', r, created) := Reserve(j, g, hash(g));
    if created {
      forall k | k in j'.actions ensures RecordOk(hash, j', k) {
        if k != NonceKey(g) {
          assert RecordOk(hash, j, k);
        }
      }
    }
  }

  lemma CompleteKeeps(hash: Hash, j: Journal, r: Record, r': Record, event: AuditEvent)
    requires JournalOk(hash, j) && Held(j, r)
    requires r' == r.(status := r'.status, answer := r'.answer) && r'.status != Reserved
    requires r'.status == Unknown ==> r.status == Reserved
    requires r'.status == Succeeded ==> r'.answer.Answered?
    ensures var (j', ok) := Complete(j, r', r.version, event);
            && JournalOk(hash, j') && Advances(j, j')
            && (ok ==> j.actions[NonceKey(r.grant)] == r
                       && j'.actions[NonceKey(r.grant)] == r'.(version := r.version + 1))
  {
    var (j', ok) := Complete(j, r', r.version, event);
    if ok {
      assert RecordOk(hash, j, NonceKey(r.grant));
      forall k | k in j'.actions ensures RecordOk(hash, j', k) {
        assert RecordOk(hash, j, k);
      }
    }
  }

  lemma HeldStays(j: Journal, j': Journal, r: Record)
    requires Held(j, r) && Extends(j, j')
    ensures Held(j', r)
  {
    var k := NonceKey(r.grant);
    EvolvesTransitive(r, j.actions[k], j'.actions[k]);
  }

  lemma AnswerStays(hash: Hash, j: Journal, j': Journal, g: Grant, answer: Answer)
    requires AnswerOk(hash, j, g, answer) && Extends(j, j')
    ensures AnswerOk(hash, j', g, answer)
  {
    var k :| k in j.actions && j.actions[k].status == Succeeded && j.actions[k].answer == answer
             && j.actions[k].requestHash == hash(g);
    assert Evolves(j.actions[k], j'.actions[k]);
  }

  lemma ThreadStays(hash: Hash, s: System, s': System, t: Thread)
    requires ThreadOk(hash, s, t) && Extends(s.journal, s'.journal)
    ensures ThreadOk(hash, s', t)
  {
    match t {
      case Owner(r) => HeldStays(s.journal, s'.journal, r);
      case Armed(r) => HeldStays(s.journal, s'.journal, r);
      case Executed(r, _) => HeldStays(s.journal, s'.journal, r);
      case Failing(r, _) => HeldStays(s.journal, s'.journal, r);
      case Reconciling(records) =>
        forall i | 0 <= i < |records| ensures Held(s'.journal, records[i]) {
          HeldStays(s.journal, s'.journal, records[i]);
        }
      case Finished(g, answer) =>
        if answer.Answered? {
          AnswerStays(hash, s.journal, s'.journal, g, answer);
        }
      case _ =>
    }
  }

  // --- Every event keeps the invariant ---

  /** Moving one thread, with the journal extended, keeps the invariant if the thread is sound there
      and owns a record only if it already did or the record is new. */
  lemma MoveKeeps(hash: Hash, s: System, id: nat, t: Thread, j: Journal)
    requires Inv(hash, s) && JournalOk(hash, j) && Extends(s.journal, j)
    requires ThreadOk(hash, s.(journal := j), t)
    requires PreCall(t) ==>
               || NonceKey(t.record.grant) !in s.journal.actions
               || (id in s.threads && PreCall(s.threads[id]) && s.threads[id].record == t.record)
    ensures Inv(hash, System(j, s.threads[id := t], s.calls))
  {
    var s' := System(j, s.threads[id := t], s.calls);
    forall i | i in s'.threads ensures ThreadOk(hash, s', s'.threads[i]) {
      if i != id {
        ThreadStays(hash, s, s', s.threads[i]);
      } else {
        ThreadStays(hash, s.(journal := j), s', t);
      }
    }
    MoveOwners(hash, s, id, t, j);
    CallsStay(s, s');
  }

  lemma CallsStay(s: System, s': System)
    requires CallsOk(s) && Extends(s.journal, s'.journal) && s'.calls == s.calls
    ensures CallsOk(s')
  {
    forall i | 0 <= i < |s'.calls| ensures OnFile(s'.journal, s'.calls[i]) {
      assert OnFile(s.journal, s.calls[i]);
      assert Evolves(s.journal.actions[NonceKey(s.calls[i])], s'.journal.actions[NonceKey(s.calls[i])]);
    }
  }

  lemma MoveOwners(hash: Hash, s: System, id: nat, t: Thread, j: Journal)
    requires Inv(hash, s)
    requires PreCall(t) ==>
               || NonceKey(t.record.grant) !in s.journal.actions
               || (id in s.threads && PreCall(s.threads[id]) && s.threads[id].record == t.record)
    ensures OwnersOk(System(j, s.threads[id := t], s.calls))
  {
    var s' := System(j, s.threads[id := t], s.calls);
    forall i | i in s'.threads && PreCall(s'.threads[i]) ensures Uncalled(s'.calls, s'.threads[i].record.grant) {
      if i == id && NonceKey(t.record.grant) !in s.journal.actions {
        forall k | 0 <= k < |s.calls| ensures NonceKey(s.calls[k]) != NonceKey(t.record.grant) {
          assert OnFile(s.journal, s.calls[k]);
        }
      }
    }
    forall i | i in s.threads && i != id && PreCall(s.threads[i]) && PreCall(t)
      ensures NonceKey(s.threads[i].record.grant) != NonceKey(t.record.grant)
    {
      assert ThreadOk(hash, s, s.threads[i]);
      assert Held(s.journal, s.threads[i].record);
    }
  }

  lemma CallKeeps(hash: Hash, s: System, id: nat, r: Record, t: Thread)
    requires Inv(hash, s) && id in s.threads && s.threads[id] == Armed(r)
    requires !PreCall(t) && ThreadOk(hash, s, t)
    ensures Inv(hash, System(s.journal, s.threads[id := t], s.calls + [r.grant]))
  {
    var s' := System(s.journal, s.threads[id := t], s.calls + [r.grant]);
    assert ThreadOk(hash, s, s.threads[id]) && Uncalled(s.calls, r.grant);
    var k := NonceKey(r.grant);
    assert Evolves(r, s.journal.actions[k]);
    forall i | i in s'.threads ensures ThreadOk(hash, s', s'.threads[i]) {
      ThreadStays(hash, s, s', s'.threads[i]);
    }
    forall i | i in s'.threads && PreCall(s'.threads[i]) ensures Uncalled(s'.calls, s'.threads[i].record.grant) {
      assert i != id && Uncalled(s.calls, s.threads[i].record.grant);
    }
  }

  lemma ReplayOk(hash: Hash, j: Journal, g: Grant, k: string)
    requires JournalOk(hash, j) && k in j.actions
    ensures var a := ReplayAnswer(hash, g, j.actions[k]); a.Answered? ==> AnswerOk(hash, j, g, a)
  {
    assert RecordOk(hash, j, k);
  }
}
