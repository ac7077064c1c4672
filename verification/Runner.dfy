/** The runner's own code, statement by statement. Every atomic action of the code is a method of its own,
    shown to be one event of the protocol in any system, whatever the other threads have done; so what holds of
    every interleaving of those events holds of the code. */
module Runner {
  import opened Domain
  import opened Journal
  import opened RunnerProtocol
  import opened RunnerSafety

  /** What the environment answers: checks, the credential broker, the adapter, and
      whether the journal refuses each of the operations. */
  datatype Oracle = Oracle(verified: bool, passed: bool, acquired: bool, succeeded: bool, externalID: string,
                           lookupDown: bool, reserveDown: bool, completeDown: bool)

  function FaultOf(down: bool): Fault { if down then Down else Up }

  /** The event is one of thread `id`, with the answer the environment gave. */
  ghost predicate Told(id: nat, o: Oracle, e: Event) {
    || e == VerifyGrant(id, o.verified) || e == LookUp(id, FaultOf(o.lookupDown)) || e == CheckGrant(id, o.passed)
    || e == ReserveAction(id, FaultOf(o.reserveDown)) || e == AcquireCredential(id, o.acquired)
    || e == CallAdapter(id, o.succeeded, o.externalID) || e == CompleteAction(id, FaultOf(o.completeDown))
  }

  ghost predicate AllTold(id: nat, o: Oracle, events: seq<Event>) {
    forall e :: e in events ==> Told(id, o, e)
  }

  /** Thread `id` is at `t` in the system, which has this journal. */
  ghost predicate At(s: System, id: nat, t: Thread, j: Journal) {
    id in s.threads && s.threads[id] == t && s.journal == j
  }

  /** The system after thread `id` moved to `t` and left this journal and these calls. */
  ghost function Moved(s: System, id: nat, t: Thread, j: Journal, calls: seq<Grant>): System {
    System(j, s.threads[id := t], s.calls + calls)
  }

  /** Running the events from `s` moves the thread so. */
  ghost predicate Reaches(hash: Hash, s: System, events: seq<Event>, id: nat, t: Thread, j: Journal,
                          calls: seq<Grant>) {
    RunFrom(hash, s, events) == Moved(s, id, t, j, calls)
  }

  lemma ReachesOne(hash: Hash, s: System, e: Event, id: nat, t: Thread, j: Journal, calls: seq<Grant>)
    requires Next(hash, s, e) == Moved(s, id, t, j, calls)
    ensures Reaches(hash, s, [e], id, t, j, calls)
  {
    assert [e][1..] == [];
    assert RunFrom(hash, s, [e]) == RunFrom(hash, Next(hash, s, e), []);
  }

  lemma {:induction false} RunFromConcat(hash: Hash, s: System, a: seq<Event>, b: seq<Event>)
    ensures RunFrom(hash, s, a + b) == RunFrom(hash, RunFrom(hash, s, a), b)
    decreases |a|
  {
    if a == [] {
      assert a + b == b;
    } else {
      assert (a + b)[0] == a[0] && (a + b)[1..] == a[1..] + b;
      RunFromConcat(hash, Next(hash, s, a[0]), a[1..], b);
    }
  }

  lemma MovedTwice(s: System, id: nat, t: Thread, j: Journal, calls: seq<Grant>, t': Thread, j': Journal,
                   calls': seq<Grant>)
    ensures Moved(Moved(s, id, t, j, calls), id, t', j', calls') == Moved(s, id, t', j', calls + calls')
  {
    assert s.threads[id := t][id := t'] == s.threads[id := t'];
    assert s.calls + calls + calls' == s.calls + (calls + calls');
  }

  lemma ReachesThen(hash: Hash, s: System, a: seq<Event>, b: seq<Event>, id: nat, t: Thread, j: Journal,
                    calls: seq<Grant>, t': Thread, j': Journal, calls': seq<Grant>)
    requires Reaches(hash, s, a, id, t, j, calls)
    requires Reaches(hash, Moved(s, id, t, j, calls), b, id, t', j', calls')
    ensures Reaches(hash, s, a + b, id, t', j', calls + calls')
  {
    RunFromConcat(hash, s, a, b);
    MovedTwice(s, id, t, j, calls, t', j', calls');
  }

  // --- Atomic actions ---

  /** The grant's signature, tenant and audience. */
  method VerifyAction(hash: Hash, ghost s: System, ghost id: nat, tenantID: string, runnerGroup: string, g: Grant,
                      o: Oracle)
      returns (answer: Option<Answer>, ghost t: Thread)
    requires At(s, id, Start(tenantID, runnerGroup, g), s.journal)
    ensures t == if answer.None? then Verified(g) else Finished(g, answer.value)
    ensures answer.None? ==> o.verified
    ensures Next(hash, s, VerifyGrant(id, o.verified)) == Moved(s, id, t, s.journal, [])
  {
    answer := None;
    if !o.verified {
      answer := Some(Rejected("GRANT"));
    } else if tenantID == "" || g.tenantID != tenantID {
      answer := Some(Rejected("WRONG_TENANT"));
    } else if runnerGroup == "" || g.runnerGroup != runnerGroup {
      answer := Some(Rejected("WRONG_RUNNER_AUDIENCE"));
    }
    t := if answer.None? then Verified(g) else Finished(g, answer.value);
    assert s.calls + [] == s.calls;
  }

  /** The journal lookup; `None` means that nothing is on file. */
  method LookUpAction(journal: Memory, hash: Hash, ghost s: System, ghost id: nat, g: Grant, o: Oracle)
      returns (answer: Option<Answer>, ghost t: Thread)
    requires At(s, id, Verified(g), journal.View())
    modifies journal
    ensures t == if answer.None? then Fresh(g) else Finished(g, answer.value)
    ensures journal.View() == s.journal
    ensures Next(hash, s, LookUp(id, FaultOf(o.lookupDown))) == Moved(s, id, t, s.journal, [])
  {
    journal.SetJournalError(o.lookupDown);
    var existing := journal.GetRunnerAction(g);
    answer := None;
    if existing.Success? {
      answer := Some(ReplayAnswer(hash, g, existing.value));
    } else if existing.error != NotFound {
      answer := Some(Rejected("AUDIT_JOURNAL_UNAVAILABLE"));
    }
    t := if answer.None? then Fresh(g) else Finished(g, answer.value);
    assert s.calls + [] == s.calls;
  }

  /** The reservation; a record means that this call owns it. */
  method ReserveStep(journal: Memory, hash: Hash, ghost s: System, ghost id: nat, g: Grant, o: Oracle)
      returns (r: Result<Record, Answer>, ghost t: Thread)
    requires At(s, id, Cleared(g), journal.View())
    modifies journal
    ensures t == if r.Success? then Owner(r.value) else Finished(g, r.error)
    ensures r.Success? ==> r.value.grant == g
    ensures Next(hash, s, ReserveAction(id, FaultOf(o.reserveDown))) == Moved(s, id, t, journal.View(), [])
  {
    journal.SetJournalError(o.reserveDown);
    var reserved := journal.ReserveRunnerAction(g, hash(g));
    if reserved.Failure? {
      r := Failure(Rejected("AUDIT_JOURNAL_UNAVAILABLE"));
    } else if !reserved.value.1 {
      r := Failure(ReplayAnswer(hash, g, reserved.value.0));
    } else {
      r := Success(reserved.value.0);
    }
    t := if r.Success? then Owner(r.value) else Finished(g, r.error);
    assert s.calls + [] == s.calls;
  }

  /** Records an unknown outcome; a journal failure is ignored. */
  method FailReserved(journal: Memory, hash: Hash, ghost s: System, ghost id: nat, r: Record, reason: string, o: Oracle)
      returns (answer: Answer)
    requires At(s, id, Failing(r, reason), journal.View())
    modifies journal
    ensures answer == UnknownOutcome(reason)
    ensures Next(hash, s, CompleteAction(id, FaultOf(o.completeDown))) ==
            Moved(s, id, Finished(r.grant, answer), journal.View(), [])
  {
    journal.SetJournalError(o.completeDown);
    var _ := journal.CompleteRunnerAction(UnknownRecord(r, reason), r.version, CompletionEvent(r.grant, "UNKNOWN"));
    assert s.calls + [] == s.calls;
    return UnknownOutcome(reason);
  }

  /** Records the adapter's success; if that fails the outcome is reported as unknown. */
  method RecordSuccess(journal: Memory, hash: Hash, ghost s: System, ghost id: nat, r: Record, externalID: string,
                       o: Oracle)
      returns (answer: Answer)
    requires At(s, id, Executed(r, externalID), journal.View())
    modifies journal
    ensures Next(hash, s, CompleteAction(id, FaultOf(o.completeDown))) ==
            Moved(s, id, Finished(r.grant, answer), journal.View(), [])
  {
    journal.SetJournalError(o.completeDown);
    var done := journal.CompleteRunnerAction(SucceededRecord(r, externalID), r.version,
                                             CompletionEvent(r.grant, "SUCCEEDED"));
    assert s.calls + [] == s.calls;
    if done.Failure? {
      return Rejected("EXTERNAL_STATE_UNKNOWN");
    }
    return SuccessAnswer(r.grant, externalID);
  }

  lemma CheckIs(hash: Hash, s: System, id: nat, g: Grant, passed: bool)
    requires At(s, id, Fresh(g), s.journal)
    ensures Next(hash, s, CheckGrant(id, passed)) ==
            Moved(s, id, if passed then Cleared(g) else Finished(g, Rejected("CHECK")), s.journal, [])
  {
    assert s.calls + [] == s.calls;
  }

  lemma CredentialIs(hash: Hash, s: System, id: nat, r: Record, acquired: bool)
    requires At(s, id, Owner(r), s.journal)
    ensures Next(hash, s, AcquireCredential(id, acquired)) ==
            Moved(s, id, if acquired then Armed(r) else Failing(r, "CREDENTIAL_UNAVAILABLE"), s.journal, [])
  {
    assert s.calls + [] == s.calls;
  }

  lemma CallIs(hash: Hash, s: System, id: nat, r: Record, succeeded: bool, externalID: string)
    requires At(s, id, Armed(r), s.journal)
    ensures Next(hash, s, CallAdapter(id, succeeded, externalID)) ==
            Moved(s, id, if succeeded then Executed(r, externalID) else Failing(r, "EXTERNAL_STATE_UNKNOWN"), s.journal,
                  [r.grant])
  {
  }

  // --- One execution ---

  /** Verification of the grant and the journal lookup; `None` means go on. */
  method LookUpGrant(journal: Memory, hash: Hash, ghost s: System, ghost id: nat, tenantID: string,
                     runnerGroup: string, g: Grant, o: Oracle)
      returns (answer: Option<Answer>, ghost events: seq<Event>)
    requires At(s, id, Start(tenantID, runnerGroup, g), journal.View())
    modifies journal
    ensures journal.View() == s.journal && AllTold(id, o, events) && (answer.None? ==> o.verified)
    ensures Reaches(hash, s, events, id, if answer.None? then Fresh(g) else Finished(g, answer.value), s.journal, [])
  {
    ghost var verify, lookup := VerifyGrant(id, o.verified), LookUp(id, FaultOf(o.lookupDown));
    ghost var t, t';
    answer, t := VerifyAction(hash, s, id, tenantID, runnerGroup, g, o);
    ReachesOne(hash, s, verify, id, t, s.journal, []);
    if answer.Some? {
      return answer, [verify];
    }
    ghost var s1 := Moved(s, id, t, s.journal, []);
    answer, t' := LookUpAction(journal, hash, s1, id, g, o);
    ReachesOne(hash, s1, lookup, id, t', s.journal, []);
    ReachesThen(hash, s, [verify], [lookup], id, t, s.journal, [], t', s.journal, []);
    events := [verify] + [lookup];
  }

  /** Local checks and the reservation; a record means this call owns it. */
  method ReserveGrant(journal: Memory, hash: Hash, ghost s: System, ghost id: nat, g: Grant, o: Oracle)
      returns (r: Result<Record, Answer>, ghost events: seq<Event>)
    requires At(s, id, Fresh(g), journal.View())
    modifies journal
    ensures AllTold(id, o, events) && (r.Success? ==> r.value.grant == g && o.passed)
    ensures Reaches(hash, s, events, id, if r.Success? then Owner(r.value) else Finished(g, r.error), journal.View(),
                    [])
  {
    ghost var check, reserve := CheckGrant(id, o.passed), ReserveAction(id, FaultOf(o.reserveDown));
    ghost var j := journal.View();
    ghost var t';
    CheckIs(hash, s, id, g, o.passed);
    if !o.passed {
      ReachesOne(hash, s, check, id, Finished(g, Rejected("CHECK")), j, []);
      return Failure(Rejected("CHECK")), [check];
    }
    ReachesOne(hash, s, check, id, Cleared(g), j, []);
    ghost var s1 := Moved(s, id, Cleared(g), j, []);
    r, t' := ReserveStep(journal, hash, s1, id, g, o);
    ReachesOne(hash, s1, reserve, id, t', journal.View(), []);
    ReachesThen(hash, s, [check], [reserve], id, Cleared(g), j, [], t', journal.View(), []);
    events := [check] + [reserve];
  }

  /** The completion after the adapter was called. */
  method Complete(journal: Memory, hash: Hash, ghost s: System, ghost id: nat, r: Record, o: Oracle)
      returns (answer: Answer, ghost events: seq<Event>)
    requires At(s, id, Armed(r), journal.View())
    modifies journal
    ensures AllTold(id, o, events)
    ensures Reaches(hash, s, events, id, Finished(r.grant, answer), journal.View(), [r.grant])
  {
    ghost var call, complete := CallAdapter(id, o.succeeded, o.externalID), CompleteAction(id, FaultOf(o.completeDown));
    ghost var j := journal.View();
    ghost var t := if o.succeeded then Executed(r, o.externalID) else Failing(r, "EXTERNAL_STATE_UNKNOWN");
    CallIs(hash, s, id, r, o.succeeded, o.externalID);
    ReachesOne(hash, s, call, id, t, j, [r.grant]);
    ghost var s1 := Moved(s, id, t, j, [r.grant]);
    if !o.succeeded {
      answer := FailReserved(journal, hash, s1, id, r, "EXTERNAL_STATE_UNKNOWN", o);
    } else {
      answer := RecordSuccess(journal, hash, s1, id, r, o.externalID, o);
    }
    ReachesOne(hash, s1, complete, id, Finished(r.grant, answer), journal.View(), []);
    ReachesThen(hash, s, [call], [complete], id, t, j, [r.grant], Finished(r.grant, answer), journal.View(), []);
    assert [r.grant] + [] == [r.grant];
    events := [call] + [complete];
  }

  /** Credential, adapter call and completion of an owned record. */
  method Perform(journal: Memory, hash: Hash, ghost s: System, ghost id: nat, r: Record, o: Oracle)
      returns (answer: Answer, called: bool, ghost events: seq<Event>)
    requires At(s, id, Owner(r), journal.View())
    modifies journal
    ensures AllTold(id, o, events) && called == o.acquired
    ensures Reaches(hash, s, events, id, Finished(r.grant, answer), journal.View(), if called then [r.grant] else [])
  {
    ghost var credential, complete := AcquireCredential(id, o.acquired), CompleteAction(id, FaultOf(o.completeDown));
    ghost var j := journal.View();
    ghost var t := if o.acquired then Armed(r) else Failing(r, "CREDENTIAL_UNAVAILABLE");
    CredentialIs(hash, s, id, r, o.acquired);
    ReachesOne(hash, s, credential, id, t, j, []);
    ghost var s1, rest := Moved(s, id, t, j, []), [complete];
    called := o.acquired;
    if !o.acquired {
      answer := FailReserved(journal, hash, s1, id, r, "CREDENTIAL_UNAVAILABLE", o);
      ReachesOne(hash, s1, complete, id, Finished(r.grant, answer), journal.View(), []);
    } else {
      answer, rest := Complete(journal, hash, s1, id, r, o);
      assert [] + [r.grant] == [r.grant];
    }
    ReachesThen(hash, s, [credential], rest, id, t, j, [], Finished(r.grant, answer), journal.View(),
                if called then [r.grant] else []);
    events := [credential] + rest;
  }

  /** One execution in any system is a run of one thread of the protocol, with the environment's own answers: same
      journal, same answer, same adapter calls, and nothing else in the system changes. */
  method Execute(journal: Memory, hash: Hash, ghost s: System, ghost id: nat, tenantID: string, runnerGroup: string,
                 g: Grant, o: Oracle)
      returns (answer: Answer, called: bool, ghost events: seq<Event>)
    requires At(s, id, Start(tenantID, runnerGroup, g), journal.View())
    modifies journal
    ensures AllTold(id, o, events) && (called ==> o.verified && o.passed && o.acquired)
    ensures Reaches(hash, s, events, id, Finished(g, answer), journal.View(), if called then [g] else [])
  {
    ghost var more;
    var found;
    found, events := LookUpGrant(journal, hash, s, id, tenantID, runnerGroup, g, o);
    if found.Some? {
      return found.value, false, events;
    }
    answer, called, more := Proceed(journal, hash, Moved(s, id, Fresh(g), s.journal, []), id, g, o);
    ReachesThen(hash, s, events, more, id, Fresh(g), s.journal, [], Finished(g, answer), journal.View(),
                if called then [g] else []);
    assert [] + [g] == [g];
    events := events + more;
  }

  /** The execution of a grant that is not on file. */
  method Proceed(journal: Memory, hash: Hash, ghost s: System, ghost id: nat, g: Grant, o: Oracle)
      returns (answer: Answer, called: bool, ghost events: seq<Event>)
    requires At(s, id, Fresh(g), journal.View())
    modifies journal
    ensures AllTold(id, o, events) && (called ==> o.passed && o.acquired)
    ensures Reaches(hash, s, events, id, Finished(g, answer), journal.View(), if called then [g] else [])
  {
    ghost var more;
    var reserved;
    reserved, events := ReserveGrant(journal, hash, s, id, g, o);
    if reserved.Failure? {
      return reserved.error, false, events;
    }
    ghost var j := journal.View();
    answer, called, more := Perform(journal, hash, Moved(s, id, Owner(reserved.value), j, []), id, reserved.value, o);
    ReachesThen(hash, s, events, more, id, Owner(reserved.value), j, [], Finished(g, answer), journal.View(),
                if called then [g] else []);
    assert [] + [g] == [g];
    events := events + more;
  }

  // --- One reconciliation ---

  /** What reconciling one record meets: the external write found or not, and the journal's mood. */
  datatype Finding = Finding(found: bool, externalID: string, down: bool)

  /** One record of a reconciliation. */
  method ResolveRecord(journal: Memory, hash: Hash, ghost s: System, ghost id: nat, records: seq<Record>, i: nat,
                       f: Finding)
      returns (go: bool)
    requires i < |records| && At(s, id, Reconciling(records[i..]), journal.View())
    modifies journal
    ensures !f.found ==> go && journal.View() == old(journal.View())
    ensures Next(hash, s, ResolveOne(id, f.found, f.externalID, FaultOf(f.down))) ==
            Moved(s, id, Reconciling(if go then records[i + 1..] else []), journal.View(), [])
  {
    ghost var rest := records[i..];
    assert rest[0] == records[i] && rest[1..] == records[i + 1..];
    assert s.calls + [] == s.calls;
    if !f.found {
      return true;
    }
    journal.SetJournalError(f.down);
    var done := journal.CompleteRunnerAction(SucceededRecord(records[i], f.externalID), records[i].version,
                                             ReconciliationEvent(records[i].grant));
    return done.Success?;
  }

  /** The events of the first `n` records. */
  ghost function Resolutions(id: nat, findings: nat -> Finding, n: nat): seq<Event> {
    seq(n, i requires 0 <= i < n => ResolveOne(id, findings(i).found, findings(i).externalID,
                                               FaultOf(findings(i).down)))
  }

  /** One reconciliation in any system is a run of one thread of the protocol over the pending records, with the
      findings of the environment; it never calls the adapter. It ends early only if a completion fails. Without a
      reconciler or an identity it fails, and so it does without a credential broker once there is a record. */
  method Reconcile(journal: Memory, hash: Hash, ghost threads: map<nat, Thread>, ghost calls: seq<Grant>,
                   ghost id: nat, configured: bool, tenantID: string, runnerGroup: string, limit: int, broker: bool,
                   findings: nat -> Finding)
      returns (ok: bool, records: seq<Record>, ghost n: nat)
    modifies journal
    ensures !configured || tenantID == "" || runnerGroup == "" ==> !ok && records == []
    ensures !broker && records != [] ==> !ok
    ensures records == [] || !broker ==> n == 0 && journal.View() == old(journal.View())
    ensures forall r :: r in records ==> exists k :: k in old(journal.actions) && old(journal.actions)[k] == r
                                                     && IsPending(r, tenantID, runnerGroup)
    ensures n <= |records| && (ok ==> n == |records|)
    ensures var s := System(old(journal.View()), threads[id := Reconciling(records)], calls);
            Reaches(hash, s, Resolutions(id, findings, n), id, Reconciling(if broker then [] else records),
                    journal.View(), [])
  {
    records, n := [], 0;
    ghost var idle := System(journal.View(), threads[id := Reconciling([])], calls);
    assert Moved(idle, id, Reconciling([]), journal.View(), []) == idle;
    if !configured {
      return false, [], 0;
    }
    if tenantID == "" || runnerGroup == "" {
      return false, [], 0;
    }
    var pending := journal.PendingRunnerActions(tenantID, runnerGroup, limit);
    if pending.Failure? {
      return false, [], 0;
    }
    records := pending.value;
    ok, n := ResolveAll(journal, hash, System(journal.View(), threads[id := Reconciling(records)], calls), id, records,
                        broker, findings);
  }

  lemma OneMoreResolved(hash: Hash, s: System, id: nat, findings: nat -> Finding, i: nat, t: Thread, j: Journal,
                        t': Thread, j': Journal)
    requires Reaches(hash, s, Resolutions(id, findings, i), id, t, j, [])
    requires var f := findings(i);
             Next(hash, Moved(s, id, t, j, []), ResolveOne(id, f.found, f.externalID, FaultOf(f.down))) ==
             Moved(Moved(s, id, t, j, []), id, t', j', [])
    ensures Reaches(hash, s, Resolutions(id, findings, i + 1), id, t', j', [])
  {
    var f := findings(i);
    var e := ResolveOne(id, f.found, f.externalID, FaultOf(f.down));
    ReachesOne(hash, Moved(s, id, t, j, []), e, id, t', j', []);
    ReachesThen(hash, s, Resolutions(id, findings, i), [e], id, t, j, [], t', j', []);
    assert Resolutions(id, findings, i) + [e] == Resolutions(id, findings, i + 1);
  }

  /** Resolves the records in order until a completion fails; the first one already needs the credential broker. */
  method ResolveAll(journal: Memory, hash: Hash, ghost s: System, ghost id: nat, records: seq<Record>,
                    broker: bool, findings: nat -> Finding)
      returns (ok: bool, ghost n: nat)
    requires At(s, id, Reconciling(records), journal.View())
    modifies journal
    ensures n <= |records| && (ok ==> n == |records|) && (!broker && records != [] ==> !ok)
    ensures records == [] || !broker ==> n == 0 && journal.View() == old(journal.View())
    ensures Reaches(hash, s, Resolutions(id, findings, n), id, Reconciling(if broker then [] else records),
                    journal.View(), [])
  {
    assert records[0..] == records;
    assert Moved(s, id, Reconciling(records), journal.View(), []) == s;
    for i := 0 to |records|
      invariant Reaches(hash, s, Resolutions(id, findings, i), id, Reconciling(records[i..]), journal.View(), [])
      invariant i == 0 ==> journal.View() == old(journal.View())
      invariant i > 0 ==> broker
    {
      if !broker {
        return false, 0;
      }
      ghost var j := journal.View();
      ghost var s1 := Moved(s, id, Reconciling(records[i..]), j, []);
      var go := ResolveRecord(journal, hash, s1, id, records, i, findings(i));
      OneMoreResolved(hash, s, id, findings, i, Reconciling(records[i..]), j,
                      Reconciling(if go then records[i + 1..] else []), journal.View());
      if !go {
        return false, i + 1;
      }
    }
    assert records[|records|..] == [];
    return true, |records|;
  }
}
