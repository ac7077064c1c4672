# Themisy release control: a verified model

Themisy plans, schedules, executes and recovers releases of several services. This
project models its core in Dafny and proves what that core is for.

- **Planning** (`Order`, `OrderingGraph`, `Domain`, `Phasing`, `Contract`, `Profiles`, `Plan`, `Planner`,
  `PlannerSetup`, `PlannerBuild`). Both topological traversals compute the one least phase function or
  report a cycle exactly when there is one; no order of the inputs shows in a plan or its hash.
- **Scheduling** (`Budget`, `Waves`, `WaveBuilder`, `WaveFaults`, `CircuitBreaker`, `Dispatcher`,
  `ScheduleLedger`, `Reservations`). Waves exist exactly when they should, are safe, maximal and unique;
  the books of the shared schedule balance over every interleaving; no two runs hold one service at a time.
- **The release workflow** (`Release`, `RunChanges`, `WorkflowLog`, `WorkflowMachine`, `WorkflowControl`,
  `StepInputs`, `StepExecution`, `WaveAssignment`, `WorkflowFlow`, `Workflow`, `WorkflowSafety`, `PlannedRuns`).
  For all signals and activity outcomes: every effect and record is what those signals and outcomes say,
  what may precede a deployment, how a run can end, and that reservations are given back.
- **The runner protocol** (`Journal`, `RunnerProtocol`, `RunnerSafety`, `Runner`). At most one adapter
  call over every interleaving of executions and reconciliations with crashes and journal failures.
- **Durable state** (`RunStore`, `StoreHistory`, `Executions`, `WorkflowStart`, `Application`). Optimistic
  versions, projections that reproduce the row, retries that write once, and no lost or doubled workflow.

How the outside world enters: iteration over a Go map picks an arbitrary element; activity results,
signals, expiry and clock readings of a workflow are a script of choices, and a workflow whose script
has run out is waiting; crashes, lost acknowledgements and journal failures are events of the
protocols. Digests are function parameters, assumed injective only where a theorem says so. Names are
compared by an explicit lexicographic order. Error rates are reals.

`WorkflowMachine` is the reference the workflow code is proved against: a step's progress as a machine
that reads one choice at a time. Methods take the script and a position; what they read, emit and
record is what the machine does with the same stretch of the script.

Three findings about the code:

- The error that `BuildWaves` reports can depend on the order of the list, although success and the waves
  cannot. This happens exactly when the limits are valid and the list has more than one fault to report:
  an empty id beside a repeated one, or two different repeated ids (`WaveFaults.OrderIsHiddenIff`,
  `WaveFaults.OrderShows`).
- The workflow lets a step through without an approval exactly when the decision is neither DENY nor
  REQUIRE_APPROVAL, so a decision by any other name would pass like ALLOW
  (internal/workflow/release.go lines 83 to 97; `WorkflowSafety.PassesUnapprovedIff`,
  `WorkflowSafety.OtherDecisionPasses`). Neither evaluator of the repository answers with another name
  (internal/policy/policy.go lines 15 to 33, internal/policy/opa.go lines 99 to 107), and an evaluator that
  fails is turned into DENY (internal/policy/engine.go line 63), so the case cannot arise with the policies
  that are shipped.
- A reservation that a step has given back can be left behind by a late attempt of its acquisition: the entry
  key carries no attempt, so an acquisition that takes effect after the completion is granted like a new one.
  Activities have a timeout of one minute and up to three attempts (internal/workflow/release.go line 26).
  A step whose workflow has its last answer holds an entry exactly in that case
  (`Reservations.OnlyLateAttemptsHold`, `Reservations.LateAttemptLeaks`). `Reservations.FinishedHoldsNothing` and
  `Reservations.AtMostOneHeld` therefore ask that no attempt takes effect after the one that was answered.

`dafny verify dfyconfig.toml` checks the whole project.

## Model

| member | source | states |
|---|---|---|
| `Phasing.Link` | internal/planner/planner.go:339-354 | The counts and child lists of the graph: every kept dependency occurrence is counted once at its dependent and listed once at its dependency, whatever the map order and with duplicate edges |
| `Phasing.Settle` | internal/planner/planner.go:370-377 | One edge: the child moves above its dependency, loses one waiting occurrence and becomes ready exactly when none is left; the queue stays free of repetitions |
| `Phasing.Relax` | internal/planner/planner.go:369-378 | All edges out of a taken node: counts drop by multiplicity, phases rise just above the node, and the new ready nodes are exactly those left without waiting occurrences |
| `Phasing.StuckIsCyclic` | internal/planner/planner.go:380-382 | When no node is ready and some are left, the graph names an unknown node or has a cycle, self-loops included |
| `Phasing.FinishedIsLeast` | internal/planner/planner.go:364-379 | A traversal that takes every node has computed the least phases above the base that put each node above its dependencies |
| `Phasing.Traverse` | internal/planner/planner.go:363-382 | Any pop order, any tie, any repeated edge: the answer is the least phase function, or none exactly when the graph has a cycle or names an unknown node |
| `Phasing.GlobalPhases` | internal/planner/planner.go:517-555 | The stack traversal over all contracts: least phases from zero, or failure exactly on a cycle or an unknown node |
| `Phasing.SelectedPhases` | internal/planner/planner.go:339-382 | The sorted-queue traversal over the changed services: least phases above each service's own release phase, or failure exactly on a cycle of selected dependencies |
| `Phasing.TraversalsAgree` | internal/planner/planner.go:517-555 | The two traversals are confluent: on one graph and base they fail together and otherwise return the same phases |
| `OrderingGraph.TrappedHasCycle` | internal/planner/planner.go:380-382 | A set of nodes each of which waits on another of the set contains a closed walk |
| `OrderingGraph.RankedIsAcyclic` | internal/planner/planner.go:370-372 | A graph whose edges all lower some rank has no closed walk |
| `OrderingGraph.LeastPhasesUnique` | internal/planner/planner.go:339-382 | There is at most one least phase function, so phases do not depend on how they were found |
| `OrderingGraph.PhaseIsLongestChain` | internal/planner/planner.go:517-555 | From a zero base the least phase of a node is the length of the longest ordering chain below it: some chain has that length and none is longer |
| `OrderingGraph.SubsetKeepsPhases` | internal/planner/planner.go:344-379 | Starting a subset of the nodes at their phases in the whole graph leaves them there |
| `Planner.ScanIff` | internal/planner/planner.go:321-337 | The changes are accepted exactly when each names a declared service, environment and version and no service repeats; then none is lost |
| `Planner.CollectChanges` | internal/planner/planner.go:321-337 | The loop returns the changes by service, or the problem of the first bad change |
| `Planner.AssignPhases` | internal/planner/planner.go:339-382 | Phases exist exactly when the selected ordering graph is acyclic, and then they are the least ones |
| `Plan.GroupByPhase` | internal/planner/planner.go:384-427 | Grouping visits the services in any map order; every step lands once in the group of its phase |
| `Plan.BuildPhases` | internal/planner/planner.go:427-445 | The phases come out in strictly increasing number, without empty ones, each listing exactly its steps by service name |
| `Plan.LayoutUnique` | internal/planner/planner.go:441-445 | The layout of a set of steps is unique, so neither map order nor sort choices can show in a plan |
| `Plan.LayoutFlattens` | internal/planner/planner.go:441-445 | Read in order, a plan lists every step once, by phase and then by service |
| `Planner.PlanIntent` | internal/planner/planner.go:307-454 | Success exactly on a well-formed intent with an acyclic selection, the cycle error exactly on a well-formed intent with a cyclic one; the plan holds every change at its least phase, both hash fields agree with its content, its id is the start of its digest, and it expires one lifetime after it was made |
| `Planner.PlanIgnoresChangeOrder` | internal/planner/planner.go:384-453 | Plans for the same changes in another order have the same phases, content and hash |
| `Planner.DependenciesComeFirst` | internal/planner/planner.go:384-445 | In a plan every selected dependency of a service stands earlier in the list and in a lower phase |
| `Planner.PlanValidatesIff` | internal/planner/planner.go:463-490 | A plan validates on a planner exactly while it is unexpired and that planner pins the same contracts, profiles, context, policy and evidence as the one that made it |
| `Planner.EditedPlanIsRefused` | internal/planner/planner.go:463-515 | With an injective digest, a plan whose content was edited under its old hash never validates |
| `Domain.DependencyLessIsTotal` | internal/planner/planner.go:577-596 | The five-field comparison of dependencies is a strict total order |
| `Order.SortIsNormalForm` | internal/planner/planner.go:577-596 | Under an order that tells elements apart, two lists sort to the same list exactly when they are rearrangements of each other |
| `PlannerSetup.CheckContract` | internal/planner/planner.go:142-170 | A contract is accepted exactly when it validates, its name is new, its recorded hash (if any) is its own, and every environment names a known profile whose capabilities it has |
| `PlannerSetup.Define` | internal/planner/planner.go:139-205 | Definitions exist exactly when every contract is acceptable and names are distinct, and each is the one its contract describes |
| `PlannerSetup.FindUnknown` | internal/planner/planner.go:206-215 | A dependency outside the contracts is found exactly when there is one, in any map order |
| `PlannerSetup.InstallPhases` | internal/planner/planner.go:216-227 | The global phases are installed as release phases and nothing else of a definition changes; it fails exactly on an ordering cycle |
| `PlannerSetup.DefineAll` | internal/planner/planner.go:139-227 | Definitions with global phases exist exactly for a non-empty list of acceptable, distinctly named contracts with known dependencies and no ordering cycle; the cycle and unknown-dependency errors are returned exactly in their cases |
| `PlannerSetup.PlannerIgnoresContractOrder` | internal/planner/planner.go:142-227 | Contracts in another order, with their lists in another order, give the same definitions and global phases |
| `Profiles.ProfileFormIff` | internal/profile/loader.go:126-138 | Two profiles have the same canonical form exactly when they agree up to the order of their capabilities, the source and the stored hash |
| `PlannerBuild.CollectProfiles` | internal/planner/planner.go:117-137 | Profiles are collected, by name and with their hashes, exactly when each is valid, unchanged since it was hashed and alone under its name |
| `PlannerBuild.NewFromContracts` | internal/planner/planner.go:113-258 | A planner is built exactly from acceptable profiles and contracts without unknown or cyclic dependencies, and it is pinned to the hashes of both and, unless told otherwise, to a context made of those hashes and of the policy and evidence |
| `PlannerBuild.BuildsTogether` | internal/planner/planner.go:113-229 | Contracts and profiles that are the same one by one, up to the order in their lists, build a planner in any order, or meet a cycle or an unknown dependency, exactly when the originals do, for validators that do not look at that order |
| `PlannerBuild.SealIff` | internal/contract/canonical.go:13-58 | Being the same one by one means equal content up to the order in the lists, and the same stored hash |
| `PlannerBuild.PlannersAreAlike` | internal/planner/planner.go:117-258 | Contracts and profiles in another order, with their inner lists in another order, give planners with the same hashes and context reference |
| `PlannerBuild.PlansTogether` | internal/planner/planner.go:307-382 | A permuted intent, on such a planner, is planned exactly when the original is, and meets a cycle exactly when it does |
| `PlannerBuild.OrderLeavesNoTrace` | internal/planner/planner.go:307-454 | Permuting changes, contracts and profiles, and the dependencies, capabilities and checks inside them, changes neither the phases of a plan nor its hash |
| `PlannerSetup.SelectionsAreAcyclic` | internal/planner/planner.go:216-227 | A planner built from contracts never reports a cycle for any selection of its services |
| `PlannerSetup.SelectionsKeepGlobalPhases` | internal/planner/planner.go:339-379 | Planning any selection gives each service exactly its global phase |
| `Contract.Canonical` | internal/contract/canonical.go:13-58 | The copying and sorting loops compute the canonical form |
| `Contract.CanonicalFormIff` | internal/contract/canonical.go:13-58 | Two contracts have the same canonical form exactly when they agree up to the order of dependencies, capabilities and checks, the source and the stored hash |
| `Contract.CanonicalFormStable` | internal/contract/canonical.go:13-58 | Canonicalising twice changes nothing more |
| `Budget.Budget.TryAcquire` | internal/scheduler/budget.go:104-122 | All keys or none: admitted exactly when every key is below its limit, and then every key (with repetitions) is charged once; otherwise nothing changes and the refusal lists, in key order, exactly the keys without room |
| `Budget.Budget.Release` | internal/scheduler/budget.go:124-134 | Gives back exactly the reservation's keys; units that are not held are ignored and no counter is left at zero |
| `Budget.BlockedIff` | internal/scheduler/budget.go:104-117 | The list of refusals is empty exactly when every key has room |
| `Budget.AcquireKeepsLimits` | internal/scheduler/budget.go:104-122 | Admission keeps every key within its limit, counted by the reservations that hold it, even though failure domains are not deduplicated |
| `Waves.LoadIff` | internal/scheduler/waves.go:21-30 | The input loads exactly when ids are non-empty and distinct, and then each step is there once, with its lists sorted |
| `Waves.CollectReady` | internal/scheduler/waves.go:34-45 | In any map order the ready list is exactly the steps with completed dependencies, by phase and then by id |
| `Waves.NextWaveIsSafe` | internal/scheduler/waves.go:49-62 | The greedy pass over the lowest ready phase keeps within all limits and leaves out only steps with a full key |
| `Waves.FirstFits` | internal/scheduler/budget.go:43-58 | Under valid limits the first ready step always fits, so a wave is never empty |
| `WaveBuilder.FillWave` | internal/scheduler/waves.go:49-62 | The inner loop on the budget object computes the greedy wave and holds exactly its keys |
| `WaveBuilder.ReleaseAll` | internal/scheduler/waves.go:66-68 | Releasing the wave's reservations leaves the budget empty |
| `WaveBuilder.NextRound` | internal/scheduler/waves.go:33-74 | One round yields the next greedy wave, which is safe, and leaves the budget empty; it fails only when nothing is ready |
| `WaveBuilder.Schedule` | internal/scheduler/waves.go:31-76 | The rounds end; they yield the greedy waves or fail only on cyclic or unknown dependencies |
| `WaveBuilder.BuildWaves` | internal/scheduler/waves.go:16-76 | Success exactly for valid limits, non-empty distinct ids and known, acyclic dependencies; the error about limits is unreachable and every other failure is the one of its cause; the waves are the greedy ones and are safe |
| `Waves.GreedyIsSafe` | internal/scheduler/waves.go:33-74 | Each wave has one phase, respects every limit by holders, and is maximal: a ready step of its phase left out meets a key at its limit |
| `Waves.EachStepOnce` | internal/scheduler/waves.go:69-73 | The waves partition the input |
| `Waves.DependenciesInEarlierWaves` | internal/scheduler/waves.go:33-45 | Every dependency lies in a strictly earlier wave |
| `Waves.SafeMeansOrdered` | internal/scheduler/waves.go:33-48 | Only known and acyclic dependencies have safe waves at all |
| `Waves.StuckIsCyclic` | internal/scheduler/waves.go:46-48 | When nothing is ready, what is left waits on itself or on unknown names |
| `Waves.WavePhasesAscend` | internal/scheduler/waves.go:49-54 | When phases respect dependencies, wave phases never decrease |
| `Waves.GreedyUnique` | internal/scheduler/waves.go:33-74 | There is one greedy schedule for a set of steps |
| `WaveBuilder.CloneIff` | internal/scheduler/waves.go:87-93 | Clones agree exactly when the steps do, up to the order of their two lists |
| `WaveBuilder.WavesIgnoreOrder` | internal/scheduler/waves.go:16-76 | Permuting the steps and each step's lists changes neither success nor the waves |
| `WaveFaults.ReportsAFault` | internal/scheduler/waves.go:22-30 | The error reported for a faulty list names one of its faults: an empty id or a repeated one |
| `WaveFaults.CanBeReported` | internal/scheduler/waves.go:22-30 | Every fault of a list is what some order of the list reports |
| `WaveFaults.OrderIsHiddenIff` | internal/scheduler/waves.go:16-76 | The result, error included, is the same for every order of the list exactly when the limits are invalid or the list has at most one fault |
| `WaveFaults.OrderShows` | internal/scheduler/waves.go:22-30 | Two lists whose result depends on the order: a repeated id beside an empty one, and two repeated ids |
| `CircuitBreaker.WindowSlides` | internal/scheduler/circuit_breaker.go:58-62 | Appending to a window and cutting it is the window of the longer history |
| `CircuitBreaker.TrippedStep` | internal/scheduler/circuit_breaker.go:63-67 | After one more outcome the circuit is open exactly when it was before or the new window trips |
| `CircuitBreaker.TrippedStaysOpen` | internal/scheduler/circuit_breaker.go:64-67 | Once open, the circuit stays open whatever is recorded later |
| `CircuitBreaker.StateOf` | internal/scheduler/circuit_breaker.go:78-90 | Counts the failures of a window and their share, which lies between zero and one |
| `CircuitBreaker.CircuitBreaker.Allow` | internal/scheduler/circuit_breaker.go:39-49 | Production is allowed exactly while no prefix of the tenant's whole outcome history has tripped |
| `CircuitBreaker.CircuitBreaker.Record` | internal/scheduler/circuit_breaker.go:51-69 | Records one production outcome of one tenant and reports the state of its history with it; outside production nothing is recorded |
| `CircuitBreaker.CircuitBreaker.State` | internal/scheduler/circuit_breaker.go:71-76 | The reported state is that of the tenant's history |
| `Dispatcher.Scheduler.DispatchOne` | internal/scheduler/scheduler.go:32-59 | One step is refused for capacity with the reason, then by its circuit, then by the budget with every key that has no room, and is otherwise admitted with all its keys |
| `Dispatcher.Scheduler.DispatchAll` | internal/scheduler/scheduler.go:32-59 | Every step is answered in order with what the steps before it left of capacity and budget, and the budget grows by exactly the admitted keys |
| `Dispatcher.AnswersDecide` | internal/scheduler/scheduler.go:32-59 | The steps so admitted are those of the sequential decision rule that the safety theorem is about |
| `Dispatcher.Scheduler.Complete` | internal/scheduler/scheduler.go:61-66 | Releases the reservation, records a production outcome for the tenant and reports the resulting circuit state |
| `Dispatcher.AdmissionsAreSafe` | internal/scheduler/scheduler.go:32-59 | Admissions never exceed the available capacity, contain no step with an open circuit and keep every limit |
| `Dispatcher.Available` | internal/scheduler/backpressure.go:18-30 | Available capacity is never negative, and zero exactly when a reason for back-pressure is given |
| `ScheduleLedger.Activities.AcquireSchedule` | internal/workflow/activities.go:120-141 | Acquisition is idempotent: an entry on file answers yes without effect; otherwise it is made exactly when capacity, circuit and budget admit the step, and a refusal carries its reason and the keys without room |
| `ScheduleLedger.Activities.CompleteSchedule` | internal/workflow/activities.go:143-153 | Completion removes the entry, gives back its keys, records its outcome and reports the tenant's circuit; without an entry it changes nothing and reports the default tenant's |
| `ScheduleLedger.EveryRunIsBalanced` | internal/workflow/activities.go:120-153 | After any interleaving of acquisitions, completions, repetitions and restarts the counters are exactly the keys of the entries and no key has more holders than its limit |
| `ScheduleLedger.OneHolderPerService` | internal/workflow/activities.go:120-141 | Two entries for one tenant, environment and service are the same entry |
| `ScheduleLedger.ScheduleKeyInjective` | internal/workflow/activities.go:121-121 | Run ids without NUL make entry keys unambiguous |
| `ScheduleLedger.OthersUntouched` | internal/workflow/activities.go:120-153 | An operation on one step leaves the entries of all others alone |
| `Reservations.WorkerIsBalanced` | internal/scheduler/budget.go:166-186 | The worker's own keys and limits satisfy the conditions of the balance theorem |
| `Reservations.GrantedIsHeld` | internal/workflow/activities.go:120-153 | A granted reservation stands, for its step, until that step gives it back, whatever other runs do |
| `Reservations.MutualExclusion` | internal/workflow/activities.go:120-141 | Two reservations standing at once for one tenant, environment and service belong to one run |
| `Reservations.FinishedHoldsNothing` | internal/workflow/release.go:97-233 | When a workflow has ended without an activity error, none of the run's steps holds an entry, whatever other runs did |
| `Reservations.AtMostOneHeld` | internal/workflow/release.go:97-233 | At any other moment, or after an activity error, at most one service of the run is held, and it is that of the last step worked on |
| `Reservations.HoldsIff` | internal/workflow/activities.go:120-153 | After any operations of any runs a step holds an entry exactly when one of its acquisitions was granted with no completion of the step and no restart since |
| `Reservations.OnlyLateAttemptsHold` | internal/workflow/activities.go:120-153 | A step that gave back what it reserved holds an entry exactly when an acquisition that took effect after its last answer was granted and still stands |
| `Reservations.LateAttemptLeaks` | internal/workflow/activities.go:120-153 | Such an acquisition: given up, tried again and given back, and taking effect only then, it leaves an entry |
| `WaveAssignment.NewRunSteps` | internal/application/releases.go:113-121 | A new run lists the steps of its plan in order, each pending and under the number of its phase |
| `WaveAssignment.AssignWaves` | internal/workflow/release.go:262-303 | Fails exactly when the plan cannot be scheduled or misses a step of the run; otherwise only wave numbers change and they come from safe waves |
| `StepInputs.UnmetDependency` | internal/workflow/release.go:469-483 | Answers empty exactly when every selected ordering dependency has succeeded, and otherwise names the first selected dependency of the step that has not |
| `StepInputs.SchedulingStepFor` | internal/workflow/release.go:244-260 | The reservation asked for is the one of the first planned step with the name, or a bare one |
| `StepInputs.ReservesPlannedKeys` | internal/workflow/release.go:244-260 | A step reserves exactly the budget keys its wave was computed with |
| `RunChanges.CancelDownstream` | internal/workflow/release.go:446-452 | From an index on, pending steps become cancelled and nothing else changes |
| `WorkflowControl.CancelRun` | internal/workflow/release.go:436-445 | From an index on, pending and waiting steps and the run become cancelled and nothing else changes |
| `WorkflowControl.EndPause` | internal/workflow/release.go:422-433 | The signal that ends a pause decides: a cancel cancels the run, a resume restores the status it had |
| `WorkflowControl.WaitForResume` | internal/workflow/release.go:406-435 | A pause ends with the first resume or cancel signal of a named actor, whatever else arrives: in the run as it was, two versions later, or in a cancelled run |
| `WorkflowControl.ContainsAll` | internal/workflow/release.go:457-468 | Whether every required role is held |
| `WorkflowControl.IsDecision` | internal/workflow/release.go:366-378 | A signal counts exactly when it names this approval and an actor, is not the requester approving, and carries the roles needed to approve or revoke |
| `WorkflowControl.AwaitApproval` | internal/workflow/release.go:324-404 | Every wake-up is read from the script and the choice that settled the wait is known: the workflow goes on only if that choice is an approving signal by a named actor other than the requester with all required roles, for this run's plan hash; it blocks only on expiry or an entitled decision otherwise, which the approval records; pauses and ignored signals in between change nothing |
| `WorkflowControl.Round` | internal/workflow/release.go:336-403 | One wake-up of the wait: ignored signals are skipped, a pause resumes the wait or cancels the run, and anything else is acted on as it says |
| `WorkflowControl.Decide` | internal/workflow/release.go:379-402 | A decision grants the step or blocks the run and settles the later steps; the approval records who decided and what |
| `StepExecution.Evaluate` | internal/workflow/release.go:72-81 | The decision on record, and in the log, is the one the policy activity returned; an activity error ends the workflow |
| `StepExecution.Heed` | internal/workflow/release.go:83-96 | A denied step stops the run, one that needs an approval waits for it, and any other goes on unchanged |
| `StepExecution.ClearStep` | internal/workflow/release.go:71-96 | A step gets past its clearance only if the policy's answer, read from the script, did not deny it and any required approval was read too |
| `StepExecution.Reserve` | internal/workflow/release.go:97-114 | The scheduler's reply is read from the script: refused, the run is blocked; granted, the step is set executing |
| `StepExecution.DeployStep` | internal/workflow/release.go:116-233 | From the deployment on, every reply is read from the script: the effects form a legal word for the final status and the record shows the evidence that status needs |
| `StepExecution.FinishStep` | internal/workflow/release.go:134-170 | A deployed step is released and succeeds, or is verified and judged |
| `StepExecution.Conclude` | internal/workflow/release.go:170-230 | A passing verification succeeds; any other escalates, unless automatic rollback is authorized |
| `StepExecution.Undo` | internal/workflow/release.go:190-217 | A rollback that came back with an error escalates; otherwise the rolled back deployment is recorded and checked |
| `StepExecution.JudgeRollback` | internal/workflow/release.go:200-215 | The answer to the check of the rollback decides: passing means rolled back, anything else escalates |
| `StepExecution.CheckRollback` | internal/workflow/release.go:196-215 | The rolled back deployment counts as rolled back only with a passing verification; otherwise the run escalates |
| `StepExecution.RollBack` | internal/workflow/release.go:182-222 | Rolled back with a passing check, the run fails; in every other case it escalates; the reservation is given back as failed |
| `StepExecution.RunStep` | internal/workflow/release.go:71-233 | The whole of a step reads one stretch of the script as the step's machine does: guarded at every moment, a legal word at its end, and only this step touched unless the run stops |
| `WorkflowLog.LegalIsGuarded` | internal/workflow/release.go:71-233 | Complete words reserve and deploy at most once, only after clearance, and give back what they reserved |
| `WorkflowLog.SucceededWord` | internal/workflow/release.go:97-233 | A succeeded step was cleared, reserved, deployed once, verified as passing where required, and released as not failed, in that order |
| `Workflow.ReleaseWorkflow` | internal/workflow/release.go:21-238 | From any run and for any signals and activity outcomes: each turn reads its own stretch of the script as the step's machine does, its effects and records are what that reading says, and the last persist is the choice after the last turn; every step is handled properly at every moment, an unschedulable run is never worked on, a workflow that ends without an activity error leaves a finished run with safe wave numbers, an error comes only from an activity that failed, and in a world where nothing fails or interferes a run whose dependencies are ordered succeeds |
| `WorkflowSafety.WordIsRead` | internal/workflow/release.go:49-234 | Every effect on record comes from a choice of its own, in order |
| `WorkflowSafety.ClearanceIsConsumed` | internal/workflow/release.go:71-96 | In every reading of every script, a step past its clearance has consumed the policy's answer, which did not deny it, and has consumed an approval by the required roles exactly if that answer required one |
| `WorkflowSafety.PassesUnapprovedIff` | internal/workflow/release.go:83-97 | A saved decision lets a step go on without an approval exactly when it is neither DENY nor REQUIRE_APPROVAL |
| `WorkflowSafety.OtherDecisionPasses` | internal/workflow/release.go:83-97 | A decision by any other name passes like ALLOW |
| `WorkflowSafety.SuccessIsConsumed` | internal/workflow/release.go:97-233 | A step that goes on as a success has consumed a granted reservation, a deployment that went through and, where required, a passing verification |
| `WorkflowSafety.OnlyClearedIsDeployed` | internal/workflow/release.go:49-234 | In every turn of every run the scheduler is asked and the step deployed only after the policy's answer and any approval it requires were read in that turn |
| `WorkflowSafety.PassedTurn` | internal/workflow/release.go:49-234 | A step that succeeded in its turn was cleared before it was reserved, and was deployed and verified, by answers of that turn |
| `Workflow.Poll` | internal/workflow/release.go:49-58 | Before a turn, a waiting cancel cancels the open steps from this one on and ends the run; a waiting pause is waited out; otherwise nothing changes; each is read from the script |
| `Workflow.RunSteps` | internal/workflow/release.go:49-234 | The loop: every step before the current one has succeeded in a legal way and every later one is as it was |
| `Workflow.FinishedIsReleased` | internal/workflow/release.go:97-233 | A finished workflow has given back every reservation |
| `Workflow.FreshRunEnds` | internal/workflow/release.go:49-238 | A fresh run ends as all succeeded, or as succeeded steps, one that stopped it and only cancelled ones after it; the run status is fixed by the step that stopped it |
| `PlannedRuns.PlannedIsAssignable` | internal/workflow/release.go:262-303 | A run of a planner's plan always gets its waves |
| `PlannedRuns.PlannedIsReady` | internal/workflow/release.go:469-483 | Every step of such a run finds its selected dependencies succeeded at its turn |
| `PlannedRuns.PlannedIsAllReady` | internal/workflow/release.go:63-70 | So only signals, policy, scheduler and deployments can keep such a run from succeeding |
| `PlannedRuns.NeverBlockedOnDependency` | internal/workflow/release.go:63-70 | Such a run is never stopped on an unmet dependency |
| `PlannedRuns.PlannedWavesFollow` | internal/workflow/release.go:290-301 | Its wave numbers rise with phases and put dependencies in strictly earlier waves |
| `Journal.Memory.GetRunnerAction` | internal/store/memory.go:233-244 | Finds a record by tenant, group and nonce |
| `Journal.Memory.ReserveRunnerAction` | internal/store/memory.go:246-265 | Reserves once per nonce and once per idempotency key, together with the audit event; otherwise returns the record on file |
| `Journal.Memory.CompleteRunnerAction` | internal/store/memory.go:267-285 | A compare-and-swap on the version: a missing record or another version is refused without effect, anything else is written with the next version and its audit event |
| `Journal.Memory.PendingRunnerActions` | internal/store/memory.go:287-303 | Lists records of the tenant and group that have not succeeded, up to the limit |
| `Runner.Execute` | internal/runner/runner.go:92-198 | In any system, whatever other threads have done: one execution takes exactly the protocol's events of one thread, each with the environment's own answer, and leaves the journal, answer and adapter calls those events lead to |
| `Runner.Perform` | internal/runner/runner.go:173-197 | After the reservation: credential, at most one adapter call, and the record of its outcome, as events of the protocol with the environment's answers |
| `Runner.FailReserved` | internal/runner/runner.go:200-205 | One atomic event: records an unknown outcome and reports it even if the journal fails |
| `Runner.LookUpAction` | internal/runner/runner.go:113-119 | One atomic event in any system: the record on file is answered, an unavailable journal rejects |
| `Runner.ReserveStep` | internal/runner/runner.go:165-172 | One atomic event in any system: the reservation is made, already on file, or refused |
| `Runner.RecordSuccess` | internal/runner/runner.go:192-197 | One atomic event in any system: the success is recorded and answered, or reported as unknown if that fails |
| `Runner.Reconcile` | internal/runner/reconcile.go:14-55 | In any system: the loop takes exactly the protocol's reconciliation events over the pending records, with the environment's findings, and ends early only when a completion fails; without a reconciler or an identity it fails, and without a credential broker it fails at the first record, touching nothing |
| `RunnerSafety.NextKeeps` | internal/runner/runner.go:92-228 | Every atomic action of any thread, crash or journal failure keeps the invariant and moves each record at most one stage |
| `RunnerSafety.RunKeeps` | internal/runner/runner.go:92-228 | The invariant holds after every interleaving |
| `RunnerSafety.AtMostOneCall` | internal/runner/runner.go:165-190 | Over every interleaving the adapter is called at most once per nonce and at most once per idempotency key of a tenant and group |
| `RunnerSafety.CallFollowsReservation` | internal/runner/runner.go:165-190 | When the adapter is called, its own record and reservation audit event are already in the journal |
| `RunnerSafety.RecordsOnlyAdvance` | internal/store/memory.go:267-285 | Records only move RESERVED to UNKNOWN or SUCCEEDED and UNKNOWN to SUCCEEDED; a succeeded record never changes again |
| `RunnerSafety.RedeliveryReturnsTheResult` | internal/runner/runner.go:220-228 | After success every verified redelivery is answered with the recorded result |
| `RunnerSafety.AnswersAgree` | internal/runner/runner.go:192-228 | With an injective request hash, two successful answers to one grant are equal |
| `RunStore.Memory.CreateRunAtomic` | internal/store/memory.go:64-79 | One run per request id: a repeated request returns the stored run; a new one is stored with its events and first projection |
| `RunStore.Memory.UpdateRunAtomic` | internal/store/memory.go:111-128 | Writes only on the expected version, adding one version, its events and one projection; otherwise nothing |
| `RunStore.Memory.PersistRun` | internal/workflow/activities.go:155-177 | Persisting is the update, or the stored run when the conflict is with its own earlier success |
| `RunStore.CreateKeeps` | internal/store/memory.go:64-79 | Creation keeps the store invariant: index, versions and projection logs |
| `RunStore.PersistKeeps` | internal/workflow/activities.go:155-177 | Persisting keeps the store invariant |
| `RunStore.PersistRetry` | internal/workflow/activities.go:155-177 | A persist whose result is still the stored row returns it again and writes nothing |
| `StoreHistory.OneWritePerVersion` | internal/workflow/activities.go:155-177 | Of all persists of one version of a run only the first that writes does, whatever operations come between: the history leaves the same store as the one without the others |
| `StoreHistory.PersistedOnce` | internal/workflow/activities.go:155-177 | A persist repeated any number of times among creations, persists of other runs, marks and rebuilds adds one version, one audit set, one event set and one projection; the store is the one a single persist leaves and every repetition gets the same answer |
| `StoreHistory.HistoryKeeps` | internal/store/memory.go:64-231 | Every history keeps the store invariant, loses no row and moves none to an earlier version |
| `StoreHistory.HistoryRetains` | internal/store/memory.go:210-231 | Audit entries and outbox events, once written, stay in place; only publication marks are added |
| `RunStore.PersistIsLocal` | internal/store/memory.go:111-128 | Persisting one run leaves all others as they are |
| `RunStore.RebuildIsIdentity` | internal/store/memory.go:222-231 | The projection events of a run have consecutive versions ending in the stored run, so rebuilding changes nothing |
| `RunStore.Memory.RebuildProjection` | internal/store/memory.go:222-231 | Rebuilding succeeds exactly for stored runs and leaves the store as it is |
| `RunStore.Memory.PendingOutboxByType` | internal/store/memory.go:188-208 | Pending events of a type, oldest first, up to the limit if it is positive |
| `RunStore.Memory.MarkOutboxPublished` | internal/store/memory.go:210-220 | Marks the first event with the id and no other; it is found exactly when there is one, and otherwise nothing changes |
| `Executions.ExecutionStore.ReserveExecution` | internal/store/memory.go:143-155 | Reserves once per adapter and idempotency key, unless the store cannot be reached |
| `Executions.ExecutionStore.CompleteExecution` | internal/store/memory.go:157-172 | Completes on the expected version only, unless the store cannot be reached |
| `Executions.ExecutionStore.Perform` | internal/workflow/activities.go:184-224 | In any system one attempt takes the protocol's three events: a succeeded record answers with its result, an unresolved one and every lost outcome report an unknown external state, an unreachable store reports itself, and only a fresh record calls the executor |
| `Executions.ExecutorCalledAtMostOnce` | internal/workflow/activities.go:184-277 | Under retries, crashes and lost completions, deployments and rollbacks reach the executor at most once per key |
| `Executions.ResultsAgree` | internal/workflow/activities.go:194-204 | Two successful answers for one key are equal |
| `Application.Start` | internal/application/releases.go:104-138 | The plan is validated again, the request stored, its workflow started and the request marked, stopping at the first failure with exactly the effects up to it; a repeated request starts nothing |
| `Application.WorkflowService.StartRelease` | internal/workflow/client.go:29-40 | A workflow id is started once; starting it again succeeds without effect |
| `Application.Publish` | internal/application/outbox.go:22-34 | One pending request is started and marked; if its run is missing, its start fails or its mark fails, exactly the effects before that remain |
| `Application.RecoverPendingWorkflows` | internal/application/outbox.go:16-36 | A pass takes requests oldest first and stops only at a missing run, a failed start or a failed mark; it starts exactly the workflows of the requests it took, marks exactly those it published and changes nothing else; with room for all and no failure it leaves nothing pending whenever every pending request is for a stored run |
| `Application.LaunchesIff` | internal/application/outbox.go:22-34 | After starting a list of requests a workflow is started exactly when it was before or one of the requests is for it |
| `Application.ReachableIsRecoverable` | internal/application/outbox.go:16-36 | Wherever requests and recoveries stop, every pending request is for a stored run |
| `WorkflowStart.NextKeeps` | internal/application/releases.go:106-138 | Every step of any request, recovery or store update, with crashes anywhere, keeps the invariant |
| `WorkflowStart.NoRunIsLost` | internal/application/outbox.go:16-36 | At any moment every stored run has an unpublished start request or a started workflow, no workflow is started twice, and there is one run per request id |

## Left out

- HTTP, MCP and user interface code, command-line entry points and configuration loading: plumbing around the core.
- internal/store/postgres: the memory store carries the same reserve and compare-and-swap rules.
- internal/engine: an older, in-process copy of the workflow loop.
- internal/grant and internal/identity: signature and token verification are arbitrary outcomes.
- adapters and pkg/credentials: an adapter call, a reconciliation and a credential request have arbitrary outcomes.
- Temporal itself (timers, replay, retry policies): an activity comes back with or without an error, and at-least-once execution appears as repeated operations.
- Expiry of an approval is a wake-up of the waiting workflow; whether a buffered signal was sent in time is decided where signals are sent.
- The `scheduled` map is per worker: the balance theorems are about one worker, and a restart forgets its entries.
- internal/policy: a decision is an arbitrary input of the workflow, and the runner's checks are arbitrary outcomes.
- Validation of contracts and profiles field by field: the validators are parameters, and the theorems about planned runs ask that no service has an empty name, which that validation ensures.
- The planner for services without contracts (planner.New) and the legacy request form: easier members of the same shape.
- Audit texts, event payloads and the execution's time stamps: only identity, order and number of events matter here.
- 64-bit versions and counters are unbounded integers, and floating-point rounding of the error rate is not modelled.
- StepExecution.RollBack: the failure texts of steps are shortened; no statement depends on them.
- WorkflowControl.AwaitApproval: the approval id keeps the run and service instead of their digest, and approval time stamps are left out.
- WorkflowControl.WaitForResume: signals without an actor are ignored, as in the code; how long a pause lasts is not modelled.
- Reservations.FinishedHoldsNothing: asks that no attempt of the step takes effect after the one that was answered; `OnlyLateAttemptsHold` says exactly what happens otherwise.
- Reservations.AtMostOneHeld: asks the same of every step of the run.
- WorkflowStart.NoRunIsLost: asks that ids generated for runs and events are new, as random ids are taken to be.
- Runner.Execute: the checks between the journal lookup and the reservation are one arbitrary outcome, because each of them only rejects.
- Executions.ExecutionStore.Perform: deployment and rollback share one shape and are modelled once, with different keys; the audit and outbox entries of an attempt are left out.
