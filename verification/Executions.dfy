/** Deployments and rollbacks behind execution records. An activity attempt first
    reserves the record of its adapter and idempotency key; only the attempt that
    created it calls the executor. Attempts overlap, are retried and get lost. */
module Executions {
  import opened Domain

  datatype Status = Reserved | Succeeded | Unknown
  datatype Record = Record(key: string, status: Status, externalID: string, version: int)
  type Records = map<string, Record>

  function ExecutionKey(adapter: string, idempotencyKey: string): string { adapter + "\0" + idempotencyKey }

  function Reserve(m: Records, key: string): (Records, Record, bool) {
    if key in m then (m, m[key], false)
    else (m[key := Record(key, Reserved, "", 1)], Record(key, Reserved, "", 1), true)
  }

  function Complete(m: Records, r: Record, expected: int): (Records, bool) {
    if r.key !in m || m[r.key].version != expected then (m, false)
    else (m[r.key := r.(version := expected + 1)], true)
  }

  function Outcome(r: Record, externalID: Option<string>): Record {
    if externalID.Some? then r.(status := Succeeded, externalID := externalID.value) else r.(status := Unknown)
  }

  // --- All attempts together ---

  datatype Attempt = Attempting(key: string)
                   | Calling(record: Record)
                   | Reporting(record: Record, externalID: Option<string>)
                   | Returned(key: string, result: Option<string>)

  datatype Fault = Up | Down | LostAck

  datatype Event = Begin(id: nat, key: string)
                 | TryReserve(id: nat, fault: Fault)
                 | CallExecutor(id: nat, externalID: Option<string>)
                 | Report(id: nat, fault: Fault)
                 | Lose(id: nat)

  datatype System = System(records: Records, attempts: map<nat, Attempt>, calls: seq<string>)

  function AfterReserve(s: System, id: nat, key: string, fault: Fault): System {
    var (m, r, created) := Reserve(s.records, key);
    var a := if fault != Up then Returned(key, None)
             else if created then Calling(r)
             else Returned(key, if r.status == Succeeded then Some(r.externalID) else None);
    System(if fault == Down then s.records else m, s.attempts[id := a], s.calls)
  }

  function AfterReport(s: System, id: nat, r: Record, externalID: Option<string>, fault: Fault): System {
    var (m, ok) := Complete(s.records, Outcome(r, externalID), r.version);
    System(if fault == Down then s.records else m,
           s.attempts[id := Returned(r.key, if fault == Up && ok then externalID else None)], s.calls)
  }

  function Next(s: System, e: Event): System {
    if e.Begin? then
      if e.id in s.attempts then s else s.(attempts := s.attempts[e.id := Attempting(e.key)])
    else if e.Lose? then s.(attempts := s.attempts - {e.id})
    else if e.id !in s.attempts then s
    else
      match (s.attempts[e.id], e)
      case (Attempting(key), TryReserve(id, fault)) => AfterReserve(s, id, key, fault)
      case (Calling(r), CallExecutor(id, externalID)) =>
        System(s.records, s.attempts[id := Reporting(r, externalID)], s.calls + [r.key])
      case (Reporting(r, externalID), Report(id, fault)) => AfterReport(s, id, r, externalID, fault)
      case _ => s
  }

  function Run(events: seq<Event>): System {
    if events == [] then System(map[], map[], []) else Next(Run(events[..|events| - 1]), events[|events| - 1])
  }

  // --- One attempt, as the activity runs it ---

  /** The store could not be reached, or the outcome of the execution is not known. */
  datatype AttemptError = StoreUnavailable | UnknownExternalState

  function FaultOf(down: bool): Fault { if down then Down else Up }

  function Reported(result: Result<string, AttemptError>): Option<string> {
    if result.Success? then Some(result.value) else None
  }

  class ExecutionStore {
    var executions: Records

    constructor ()
      ensures executions == map[]
    {
      executions := map[];
    }

    method ReserveExecution(key: string, down: bool) returns (r: Option<(Record, bool)>)
      modifies this
      ensures down ==> r.None? && executions == old(executions)
      ensures !down ==> var (m, record, created) := Reserve(old(executions), key);
                        r == Some((record, created)) && executions == m
    {
      if down {
        return None;
      }
      if key in executions {
        return Some((executions[key], false));
      }
      var record := Record(key, Reserved, "", 1);
      executions := executions[key := record];
      r := Some((record, true));
    }

    method CompleteExecution(r: Record, expected: int, down: bool) returns (ok: bool)
      modifies this
      ensures down ==> !ok && executions == old(executions)
      ensures !down ==> (executions, ok) == Complete(old(executions), r, expected)
    {
      if down || r.key !in executions {
        return false;
      }
      if executions[r.key].version != expected {
        return false;
      }
      executions := executions[r.key := r.(version := expected + 1)];
      ok := true;
    }

    /** A deployment or a rollback, as the three atomic actions of one attempt in any system. The executor answers
        `reply`; it is asked only by the attempt that created the record, and a recorded success is returned
        without asking it. Every other end is an unknown outcome, unless the record could not be reserved. */
    method Perform(ghost s: System, ghost id: nat, adapter: string, idempotencyKey: string, reply: Option<string>,
                   reserveDown: bool, completeDown: bool)
        returns (result: Result<string, AttemptError>, called: bool)
      requires s.records == executions && id in s.attempts
      requires s.attempts[id] == Attempting(ExecutionKey(adapter, idempotencyKey))
      modifies this
      ensures var key := ExecutionKey(adapter, idempotencyKey);
              Next(Next(Next(s, TryReserve(id, FaultOf(reserveDown))), CallExecutor(id, reply)),
                   Report(id, FaultOf(completeDown))) ==
              System(executions, s.attempts[id := Returned(key, Reported(result))],
                     s.calls + if called then [key] else [])
      ensures called <==> !reserveDown && ExecutionKey(adapter, idempotencyKey) !in old(executions)
      ensures result == Failure(StoreUnavailable) <==> reserveDown
      ensures called ==>
                result == if reply.Some? && !completeDown then Success(reply.value) else Failure(UnknownExternalState)
    {
      var key := ExecutionKey(adapter, idempotencyKey);
      var reserved := ReserveExecution(key, reserveDown);
      assert s.calls + [] == s.calls;
      if reserved.None? {
        return Failure(StoreUnavailable), false;
      }
      var (record, created) := reserved.value;
      if !created {
        if record.status == Succeeded {
          return Success(record.externalID), false;
        }
        return Failure(UnknownExternalState), false;
      }
      called := true;
      var ok := CompleteExecution(Outcome(record, reply), record.version, completeDown);
      assert s.attempts[id := Calling(record)][id := Reporting(record, reply)] ==
             s.attempts[id := Reporting(record, reply)];
      if reply.None? || !ok {
        return Failure(UnknownExternalState), true;
      }
      return Success(reply.value), true;
    }
  }

  // --- What every interleaving keeps ---

  predicate Owns(a: Attempt) { a.Calling? || a.Reporting? }

  ghost predicate AttemptOk(s: System, a: Attempt) {
    match a
    case Attempting(_) => true
    case Calling(r) => r == Record(r.key, Reserved, "", 1) && r.key in s.records && s.records[r.key] == r
                       && r.key !in s.calls
    case Reporting(r, _) => r == Record(r.key, Reserved, "", 1) && r.key in s.records && s.records[r.key] == r
    case Returned(key, result) =>
      result.Some? ==>
        key in s.records && s.records[key].status == Succeeded && s.records[key].externalID == result.value
  }

  ghost predicate Inv(s: System) {
    && (forall k :: k in s.records ==> s.records[k].key == k)
    && (forall i :: i in s.attempts ==> AttemptOk(s, s.attempts[i]))
    && (forall i, j :: i in s.attempts && j in s.attempts && i != j && Owns(s.attempts[i]) && Owns(s.attempts[j]) ==>
          s.attempts[i].record.key != s.attempts[j].record.key)
    && (forall i :: 0 <= i < |s.calls| ==> s.calls[i] in s.records)
    && (forall i, j :: 0 <= i < j < |s.calls| ==> s.calls[i] != s.calls[j])
  }

  lemma ReserveKeeps(s: System, id: nat, key: string, fault: Fault)
    requires Inv(s) && id in s.attempts && s.attempts[id] == Attempting(key)
    ensures Inv(AfterReserve(s, id, key, fault))
  {
    var s' := AfterReserve(s, id, key, fault);
    forall i | i in s'.attempts ensures AttemptOk(s', s'.attempts[i]) {
      assert i != id ==> AttemptOk(s, s.attempts[i]);
    }
    forall i | i in s'.attempts && i != id && Owns(s'.attempts[i]) && Owns(s'.attempts[id])
      ensures s'.attempts[i].record.key != s'.attempts[id].record.key
    {
      assert AttemptOk(s, s.attempts[i]);
    }
  }

  lemma ReportKeeps(s: System, id: nat, r: Record, externalID: Option<string>, fault: Fault)
    requires Inv(s) && id in s.attempts && s.attempts[id] == Reporting(r, externalID)
    ensures Inv(AfterReport(s, id, r, externalID, fault))
  {
    var s' := AfterReport(s, id, r, externalID, fault);
    assert AttemptOk(s, s.attempts[id]);
    forall i | i in s'.attempts ensures AttemptOk(s', s'.attempts[i]) {
      if i != id {
        assert AttemptOk(s, s.attempts[i]);
        assert Owns(s.attempts[i]) ==> s.attempts[i].record.key != r.key;
      }
    }
  }

  lemma CallKeeps(s: System, id: nat, r: Record, externalID: Option<string>)
    requires Inv(s) && id in s.attempts && s.attempts[id] == Calling(r)
    ensures Inv(System(s.records, s.attempts[id := Reporting(r, externalID)], s.calls + [r.key]))
  {
    var s' := System(s.records, s.attempts[id := Reporting(r, externalID)], s.calls + [r.key]);
    assert AttemptOk(s, s.attempts[id]);
    forall i | i in s'.attempts ensures AttemptOk(s', s'.attempts[i]) {
      if i != id {
        assert AttemptOk(s, s.attempts[i]);
      }
    }
  }

  lemma NextKeeps(s: System, e: Event)
    requires Inv(s)
    ensures Inv(Next(s, e))
  {
    if e.Begin? {
      var s' := Next(s, e);
      forall i | i in s'.attempts ensures AttemptOk(s', s'.attempts[i]) {
        assert i in s.attempts ==> AttemptOk(s, s.attempts[i]);
      }
    } else if e.Lose? {
      var s' := Next(s, e);
      forall i | i in s'.attempts ensures AttemptOk(s', s'.attempts[i]) {
        assert AttemptOk(s, s.attempts[i]);
      }
    } else if e.id in s.attempts {
      match (s.attempts[e.id], e) {
        case (Attempting(key), TryReserve(id, fault)) => ReserveKeeps(s, id, key, fault);
        case (Calling(r), CallExecutor(id, externalID)) => CallKeeps(s, id, r, externalID);
        case (Reporting(r, externalID), Report(id, fault)) => ReportKeeps(s, id, r, externalID, fault);
        case _ =>
      }
    }
  }

  lemma {:induction false} RunKeeps(events: seq<Event>)
    ensures Inv(Run(events))
  {
    if events != [] {
      RunKeeps(events[..|events| - 1]);
      NextKeeps(Run(events[..|events| - 1]), events[|events| - 1]);
    }
  }

  /** Under retries, overlaps, lost attempts and lost completions the executor is called at most
      once for an adapter and idempotency key. */
  lemma ExecutorCalledAtMostOnce(events: seq<Event>, i: nat, j: nat)
    requires i < j < |Run(events).calls|
    ensures Run(events).calls[i] != Run(events).calls[j]
  {
    RunKeeps(events);
  }

  /** All attempts that report success for a key report the same external execution. */
  lemma ResultsAgree(events: seq<Event>, a: nat, b: nat)
    requires var s := Run(events);
             && a in s.attempts && b in s.attempts
             && s.attempts[a].Returned? && s.attempts[b].Returned? && s.attempts[a].key == s.attempts[b].key
             && s.attempts[a].result.Some? && s.attempts[b].result.Some?
    ensures Run(events).attempts[a].result == Run(events).attempts[b].result
  {
    RunKeeps(events);
    var s := Run(events);
    assert AttemptOk(s, s.attempts[a]) && AttemptOk(s, s.attempts[b]);
  }
}
