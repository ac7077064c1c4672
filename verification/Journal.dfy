/** The runner's journal: one record per nonce and per idempotency key, created
    once and then only replaced by compare-and-swap on its version. */
module Journal {
  import opened Domain

  /** An action grant; `content` stands for every signed field that is not used as a key. */
  datatype Grant = Grant(tenantID: string, runnerGroup: string, nonce: string, idempotencyKey: string, grantID: string,
                         runID: string, stepID: string, content: string)

  datatype Answer = Answered(grantID: string, runID: string, stepID: string, externalID: string)
                  | Rejected(reason: string)
                  | UnknownOutcome(reason: string)
                  | ReconciliationRequired
                  | NoAnswer

  datatype Status = Reserved | Unknown | Succeeded

  datatype Record = Record(grant: Grant, requestHash: string, status: Status, answer: Answer, version: int)

  datatype AuditEvent = AuditEvent(grantID: string, action: string, result: string)

  datatype Journal = Journal(actions: map<string, Record>, byKey: map<string, string>, audit: seq<AuditEvent>)

  const EMPTY := Journal(map[], map[], [])
  const ZERO_RECORD := Record(Grant("", "", "", "", "", "", "", ""), "", Reserved, NoAnswer, 0)

  function NonceKey(g: Grant): string { g.tenantID + "\0" + g.runnerGroup + "\0" + g.nonce }

  function IdempotencyKey(g: Grant): string { g.tenantID + "\0" + g.runnerGroup + "\0" + g.idempotencyKey }

  function ReserveEvent(g: Grant): AuditEvent { AuditEvent(g.grantID, "runner.action.reserve", "AUTHORIZED") }

  function NewRecord(g: Grant, requestHash: string): Record { Record(g, requestHash, Reserved, NoAnswer, 1) }

  /** The journal, the record now on file for the grant, and whether it was created. */
  function Reserve(j: Journal, g: Grant, requestHash: string): (Journal, Record, bool) {
    var nonceKey, idempotencyKey := NonceKey(g), IdempotencyKey(g);
    if nonceKey in j.actions then (j, j.actions[nonceKey], false)
    else if idempotencyKey in j.byKey then
      (j, if j.byKey[idempotencyKey] in j.actions then j.actions[j.byKey[idempotencyKey]] else ZERO_RECORD, false)
    else
      (Journal(j.actions[nonceKey := NewRecord(g, requestHash)], j.byKey[idempotencyKey := nonceKey],
               j.audit + [ReserveEvent(g)]), NewRecord(g, requestHash), true)
  }

  /** Replaces the record if its version is still the expected one. */
  function Complete(j: Journal, r: Record, expected: int, event: AuditEvent): (Journal, bool) {
    var key := NonceKey(r.grant);
    if key !in j.actions || j.actions[key].version != expected then (j, false)
    else (Journal(j.actions[key := r.(version := expected + 1)], j.byKey, j.audit + [event]), true)
  }

  predicate IsPending(r: Record, tenantID: string, runnerGroup: string) {
    r.grant.tenantID == tenantID && r.grant.runnerGroup == runnerGroup && (r.status == Reserved || r.status == Unknown)
  }

  // --- The in-memory journal ---

  datatype JournalError = Unavailable | NotFound | Conflict

  class Memory {
    var actions: map<string, Record>
    var byKey: map<string, string>
    var audit: seq<AuditEvent>
    var failing: bool

    ghost function View(): Journal
      reads this
    {
      Journal(actions, byKey, audit)
    }

    constructor ()
      ensures View() == EMPTY && !failing
    {
      actions, byKey, audit, failing := map[], map[], [], false;
    }

    method SetJournalError(failing: bool)
      modifies this
      ensures this.failing == failing && View() == old(View())
    {
      this.failing := failing;
    }

    method GetRunnerAction(g: Grant) returns (r: Result<Record, JournalError>)
      ensures failing ==> r == Failure(Unavailable)
      ensures !failing ==> r == if NonceKey(g) in View().actions then Success(View().actions[NonceKey(g)])
                                else Failure(NotFound)
    {
      if failing {
        return Failure(Unavailable);
      }
      if NonceKey(g) !in actions {
        return Failure(NotFound);
      }
      return Success(actions[NonceKey(g)]);
    }

    method ReserveRunnerAction(g: Grant, requestHash: string) returns (r: Result<(Record, bool), JournalError>)
      modifies this
      ensures failing == old(failing)
      ensures failing ==> r == Failure(Unavailable) && View() == old(View())
      ensures !failing ==> var (j, record, created) := Reserve(old(View()), g, requestHash);
                           View() == j && r == Success((record, created))
    {
      if failing {
        return Failure(Unavailable);
      }
      var nonceKey := NonceKey(g);
      if nonceKey in actions {
        return Success((actions[nonceKey], false));
      }
      var idempotencyKey := IdempotencyKey(g);
      if idempotencyKey in byKey {
        var existing := byKey[idempotencyKey];
        return Success((if existing in actions then actions[existing] else ZERO_RECORD, false));
      }
      var record := Record(g, requestHash, Reserved, NoAnswer, 1);
      actions := actions[nonceKey := record];
      byKey := byKey[idempotencyKey := nonceKey];
      audit := audit + [ReserveEvent(g)];
      return Success((record, true));
    }

    method CompleteRunnerAction(record: Record, expected: int, event: AuditEvent) returns (r: Result<(), JournalError>)
      modifies this
      ensures failing == old(failing)
      ensures failing ==> r == Failure(Unavailable) && View() == old(View())
      ensures !failing ==> var (j, ok) := Complete(old(View()), record, expected, event);
                           View() == j && r.Success? == ok
    {
      if failing {
        return Failure(Unavailable);
      }
      var key := NonceKey(record.grant);
      if key !in actions {
        return Failure(NotFound);
      }
      if actions[key].version != expected {
        return Failure(Conflict);
      }
      actions := actions[key := record.(version := expected + 1)];
      audit := audit + [event];
      return Success(());
    }

    /** Pending records of one runner group, in any order, cut at the limit when it is positive. */
    method PendingRunnerActions(tenantID: string, runnerGroup: string, limit: int)
        returns (r: Result<seq<Record>, JournalError>)
      ensures failing ==> r == Failure(Unavailable)
      ensures !failing ==>
                && r.Success?
                && (forall x :: x in r.value ==>
                      exists k :: k in actions && actions[k] == x && IsPending(x, tenantID, runnerGroup))
                && (limit > 0 ==> |r.value| <= limit)
                && (|r.value| < limit || limit <= 0 ==>
                      forall k :: k in actions && IsPending(actions[k], tenantID, runnerGroup) ==>
                        actions[k] in r.value)
    {
      if failing {
        return Failure(Unavailable);
      }
      var result: seq<Record> := [];
      var todo := actions.Keys;
      while todo != {}
        invariant todo <= actions.Keys
        invariant forall x :: x in result ==>
                    exists k :: k in actions && actions[k] == x && IsPending(x, tenantID, runnerGroup)
        invariant limit > 0 ==> |result| < limit
        invariant forall k :: k in actions && k !in todo && IsPending(actions[k], tenantID, runnerGroup) ==>
                    actions[k] in result
      {
        var k :| k in todo;
        todo := todo - {k};
        if IsPending(actions[k], tenantID, runnerGroup) {
          assert actions[k] == actions[k];
          result := result + [actions[k]];
          if limit > 0 && |result| >= limit {
            break;
          }
        }
      }
      return Success(result);
    }
  }
}
