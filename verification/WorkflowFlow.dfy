/** The whole workflow as a function of its script: the turns of the steps one after the other, each
    read by its own machine. */
module WorkflowFlow {
  import opened Plan
  import opened Release
  import opened WaveAssignment
  import opened WorkflowLog
  import opened WorkflowMachine
  import opened StepInputs

  // --- What the turns depend on ---

  function SucceededServices(steps: seq<ReleaseStep>): set<string> {
    set s | s in steps && s.status == StepSucceeded :: s.spec.service
  }

  /** The services that have succeeded when step `k` of `run` has its turn. */
  ghost function AvailableAt(run: ReleaseRun, k: nat): set<string>
    requires k <= |run.steps|
  {
    SucceededServices(run.steps) + Services(run.steps[..k])
  }

  /** The selected services that order step `k` have succeeded by its turn. */
  ghost predicate Ready(run: ReleaseRun, k: nat)
    requires k < |run.steps|
  {
    Met(Flatten(run.info.plan.content.phases), run.steps[k].spec.service, Services(run.steps), AvailableAt(run, k))
  }

  ghost function ContextAt(run: ReleaseRun, k: nat): (ctx: Context)
    requires k < |run.steps|
    ensures ctx.info == run.info && (ctx.unmet == "" <==> Ready(run, k))
    ensures ctx.reservation == Reservation(run.info, run.steps[k].spec)
  {
    var flat := Flatten(run.info.plan.content.phases);
    UnmetIff(flat, run.steps[k].spec.service, Services(run.steps), AvailableAt(run, k));
    Context(run.info, Unmet(flat, run.steps[k].spec.service, Services(run.steps), AvailableAt(run, k)),
            Reservation(run.info, run.steps[k].spec))
  }

  // --- Turns ---

  /** Step `k` as its turn finds it. */
  ghost function StepAt(run: ReleaseRun, byService: map<string, nat>, k: nat): ReleaseStep
    requires k < |run.steps|
  {
    run.steps[k].(wave := WaveNumber(byService, run.steps[k].spec.service))
  }

  /** The choices from `lo` up to `hi` are the turn of step `k`: read by its machine they lead to `now`, with
      `word` on record, and none is read after the turn is over. */
  ghost predicate TurnReads(run: ReleaseRun, byService: map<string, nat>, k: nat, script: seq<Choice>, lo: nat, hi: nat,
                            now: Work, word: seq<Effect>)
    requires k < |run.steps|
  {
    var m, w := MachineOf(ContextAt(run, k)), Work(Polling, StepAt(run, byService, k));
    && lo <= hi <= |script| && Live(m, w, script, lo, hi)
    && After(m, w, script, lo, hi) == now && Word(m, w, script, lo, hi) == word
  }

  function Said(t: Trace): seq<Effect> { t.clear + t.tail }

  /** The first `n` turns, cut out of the script by `cuts`, have all succeeded, with these records. */
  ghost predicate TurnsPassed(run: ReleaseRun, byService: map<string, nat>, script: seq<Choice>, cuts: seq<nat>,
                              traces: seq<Trace>, steps: seq<ReleaseStep>, n: nat) {
    && n <= |traces| && n < |cuts| && n <= |run.steps| && n <= |steps| && cuts[0] == 1
    && forall k :: 0 <= k < n ==>
         TurnReads(run, byService, k, script, cuts[k], cuts[k + 1], Work(Over(Going), steps[k]), Said(traces[k]))
  }

  /** The script was read turn by turn up to the end that was reached. */
  ghost predicate ScriptRead(run: ReleaseRun, byService: map<string, nat>, script: seq<Choice>, cuts: seq<nat>,
                             traces: seq<Trace>, r: ReleaseRun, end: End) {
    if end == Going then TurnsPassed(run, byService, script, cuts, traces, r.steps, |run.steps|)
    else
      && 0 < |traces| <= |run.steps| && |cuts| == |traces| + 1
      && TurnsPassed(run, byService, script, cuts, traces, r.steps, |traces| - 1)
      && LastTurn(run, byService, script, |traces| - 1, cuts[|traces| - 1], cuts[|traces|], traces[|traces| - 1], r,
                  end)
  }

  /** The turn in which the workflow ended or waits. */
  ghost predicate LastTurn(run: ReleaseRun, byService: map<string, nat>, script: seq<Choice>, k: nat, lo: nat, hi: nat,
                           t: Trace, r: ReleaseRun, end: End)
    requires k < |run.steps|
  {
    exists now ::
      && TurnReads(run, byService, k, script, lo, hi, now, Said(t)) && ReachedBy(now, end, now, r, k)
      && (end == Waiting ==> hi == |script|)
  }
}
