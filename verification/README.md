# Company Command, verified

Company Command starts, resumes and approves tasks over an append-only, hash-chained event log. A task
can crash anywhere, resume from the log, park at a human gate, collect a quorum of approvals, and perform
an effect. This project models that control plane in Dafny and proves what holds of every run of it.
`dafny verify dfyconfig.toml` checks everything.

## How it is put together

| files | what they hold |
|---|---|
| `Ledger`, `LedgerPg` | the hash chain with its verifier; the concurrent append protocol under an advisory lock |
| `Records`, `Protocol`, `Journal`, `LedgerReading` | the shared records; the protocol as a history of acts with a legality condition for each act; the shared ledger with that history as ghost state; reading a task back from events |
| `Theorems` | what follows for every legal history |
| `Renewal`, `Limits`, `GateLimits`, `Reruns`, `Finality`, `RunFinality`, `Completion`, `Instances` | what does not follow, with the exact conditions, on either store: when a grant, a further handler call, an early commit, a changed record or success can come about; concrete inputs |
| `Approvals`, `StoresPg` | the in-memory approval store and its Postgres counterpart |
| `Gateway`, `GateHistories`, `GateRuns`, `GateStores`, `Executor` | one gateway call, its legality, sequences of gateway calls, the same on both stores, one execution |
| `Graphs`, `DependencyOrder`, `CycleCheck`, `LoopBounds`, `Compile`, `Normalize` | the runner's ordering, the compiler's cycle check, how they agree, what compiling rules out, revision identity |
| `Aggregate`, `Rounding`, `Eval` | aggregation of fan-out candidates; the evaluation verdict |
| `Workers`, `Runner`, `Workflow`, `Service` | worker runs; the runner's calls as functions, with what they mean; the runner; task views and sequences of requests with restarts |

The runner, the gateway and the executor are classes that change a shared `Journal`. Its ghost field
`trace` lists every append, worker run, handler call, change of an approval record and restart. Each
class proves that it adds legal acts only (`Journals.Journal.Valid`), with a crash possible before and
after every append and in every worker or handler call. `Services.CompanyService.Serve` proves it for any
sequence of requests and restarts. The lemmas of `Theorems` then hold of all of them.

Legality bounds the code from above only. What a call that is not cut short does is said exactly, by functions
of the state and of the environment's answers: `Decided` and `Submitted` for the gateway, `ExecuteFor` for the
executor, `StartFor`, `ResumeFor` and `ApproveFor` for the runner. The classes are proved equal to them, and
claims that something can happen are shown on runs built from them.

Assumptions: digests and content ids are collision-free (they are modelled as the values they digest; the
ledger's seal is a function parameter that the tamper-evidence lemmas require to be injective and never
genesis). A worker's artifact is a function of its envelope; its status and its intents are arbitrary, and
so are clock readings, challenges and the verifier's answers. Action policies are keyed by their own ids.

## Where the code does not do what its documentation says

- `verify_chain` promises False "on any tamper/truncation/reorder" (comcmd/kernel/ledger.py:110). It
  accepts every prefix: `SelectionVerifiesIffPrefix` is the exact statement, and `HeadBindsHistory` says
  what a known head seal adds.
- `_check_cycles` promises to reject any cycle that is not bounded (comcmd/compile/compiler.py:245). It
  looks at one cycle per back edge, so a bound on a longer way round hides an unbounded shortcut.
  `ExactIff` says exactly for which workflows it is right. The runner raises on bounded cycles as well
  (comcmd/kernel/workflow.py:392): `CompiledRaisesIff`, `BoundedCycleCompiles`.
- "Runs exactly once" (comcmd/kernel/executor.py:1-12) holds of receipts. A crash between handler and receipt
  lets the handler run again. `CallsHandlerIff` says exactly when the gateway and the executor can do so with the
  records they have, on either store, `RunsAgainIff` when a new process without records is allowed for, `RerunsIff`
  when `approve_step` itself can, and `HandlerRepeats` that it can happen any number of times. `ExactlyOnce` accounts
  for every call.
- An A1 intent beyond its bounds opens a request for approval that no approval can meet: `ApprovableIff`,
  and `NobodyCanApprove` at an input.
- `approve_step` records a gate as soon as its effect is performed, whether or not the steps it needs are
  recorded, provided that the resume before it returns (comcmd/kernel/workflow.py:324-355): `GateCommitsIff` is the
  exact condition from any sound state of either store, `GateBeforeItsNeed` an input. So `WorkOnlyWhenReady` is
  about work, not about gates.
- A quorum can be used up without its effect: a crash between grant and receipt leaves a used record, one between
  `add_approver` and `retire` (comcmd/gateway/gate.py:158-166) a full one. Where the store keeps it, `submit_approval`
  grants nothing any more, and only a decision on the gate's intent opens a new record, a full one's after it has
  expired. When the resume halts elsewhere, at a verify step that does not pass, say, that never comes: `BlockedCall`.
- Below the quorum `approve_step` says WAITING_FOR_HUMAN whatever the ledger says of the task
  (comcmd/kernel/workflow.py:332-336): `ApproveAgreesIff`, and `HandleContradictsLedger` at an input.
- `PgApprovalStore` keeps the old tier, requirement, quorum and eligible principals when it re-opens a
  record; the in-memory store takes the new ones: `ReopenAgreesIff`.
- Nothing checks that step ids are unique. The runner works with the last declaration of an id and
  `approve_step` with the first, so a gate's approval can overwrite what work recorded. `FinalIff` says for which
  step lists that never happens (`GatesSettled`), `CompiledFinalIff` the same of runs of the code, and `ChangesIff`
  which record can be changed from which state.
- A rewrite of any prior event is to be detectable by `verify_chain` (comcmd/kernel/ledger.py:4-6). One that is
  sealed again from the edit on verifies, and only its head seal gives it away: `ResealedVerifies`.

## Model

| member | source | states |
|---|---|---|
| `Theorems.CrashEquivalence` | comcmd/kernel/workflow.py:60-169 | Any two legal histories of one task that both reach SUCCEEDED, wherever they crashed and resumed, end with the same artifact map, whose keys are exactly the workflow's steps |
| `Theorems.RunsAgree` | comcmd/kernel/workflow.py:85-169 | Any two legal histories record the same artifact for every step both of them record |
| `Theorems.RecordedIsMeaning` | comcmd/kernel/workflow.py:361-382 | Every artifact in every reachable ledger is the value its step has by recursion on what it needs, from the recorded inputs |
| `Theorems.MeaningIsFixedPoint` | comcmd/kernel/workflow.py:384-401 | Along a dependency order, that recursion gives each step its own value computed from its needs' values |
| `Theorems.EverythingGrounded` | comcmd/kernel/workflow.py:161-165 | Each recorded artifact is its step's value computed from recorded artifacts; a recorded gate carries the authorization mark |
| `Theorems.RecordsAreFinal` | comcmd/kernel/workflow.py:361-375 | What is recorded is never lost or changed later |
| `Theorems.AtMostOneSuccess` | comcmd/kernel/workflow.py:88-96 | A step that is not a gate has at most one step_succeeded event, and exactly one once it is recorded |
| `Theorems.WorkOnlyWhenReady` | comcmd/kernel/workflow.py:90-165 | Whenever a step is started or its worker runs, all it needs is recorded and no earlier event recorded the step itself |
| `Theorems.SuccessRecordsEveryStep` | comcmd/kernel/workflow.py:167-169 | When SUCCEEDED is published, every step was recorded before |
| `Theorems.IntentStability` | comcmd/kernel/workflow.py:290-314 | Once a gate's needs are recorded its intent keeps its digest through all later events, crashes and resumes |
| `Theorems.NoCommitWithoutQuorum` | comcmd/kernel/workflow.py:330-357 | Before a gate is recorded, the effect digested from the artifacts recorded then was executed, and before that authorized by at least a quorum of distinct, eligible principals the verifier vouched for since the record was opened, two at least for A3 |
| `Theorems.ExecutionNeedsQuorum` | comcmd/kernel/executor.py:43-70 | Every executed receipt is preceded by such an authorization of its digest |
| `Theorems.UnreachableQuorumNeverExecutes` | comcmd/gateway/gate.py:158-171 | If the quorum exceeds the eligible principals, an A3 quorum is below two, or the action is of no approval tier, no history executes it |
| `Theorems.UnapprovableNeverSucceeds` | comcmd/kernel/workflow.py:167-169 | A task with a gate whose action nobody can approve never reaches SUCCEEDED |
| `Theorems.LiveApproversVouched` | comcmd/gateway/gate.py:147-158 | Approvers on an open record are always eligible and vouched for since it was opened, and an A3 record has a quorum of two or more |
| `Theorems.ExactlyOnce` | comcmd/kernel/executor.py:50-70 | Per digest, handler calls equal executed receipts plus calls cut off before their receipt (plus the one in flight), receipts number at most one, and no call follows a receipt |
| `Limits.RunsAgainIff` | comcmd/kernel/executor.py:43-70 | From any legal history some continuation, which may begin with a process that lost its approval records, calls the handler of a digest once more exactly when no executed receipt names the digest and enough principals are eligible to approve its action |
| `Limits.CallsHandlerIff` | comcmd/kernel/executor.py:43-70 | From any sound state of either store, records kept, gateway calls in time and the executor can call the handler of an intent exactly when it has no receipt, enough principals are eligible, a new record does not expire at once, and, where the record at hand is used up, expired or full, `decide` can open a new one |
| `Limits.CutOffIsExecution` | comcmd/kernel/executor.py:60-70 | The continuation is the code's own: a new process authorizes by submissions, and what the cut-off leaves is the complete execution without its receipt |
| `Limits.HandlerRepeats` | comcmd/kernel/executor.py:60-70 | From any sound state of either store in which an intent of any tier and quorum can be granted, and for every n, there is a run of n executions, each granted by gateway calls in time and cut off between handler and receipt, that calls the handler n times more |
| `Reruns.RerunsIff` | comcmd/kernel/workflow.py:316-357 | `approve_step` itself can run the handler of a gate's intent, again after a crash included, exactly when the gate can be committed and no receipt says its effect was executed, from any sound state of either store |
| `Renewals.GrantIff` | comcmd/gateway/gate.py:87-171 | From any sound state of either store, decisions and submissions in time can bring about a grant exactly when enough principals are eligible, a new record does not expire at once, and, where the record at hand is used up, expired or full, `decide` accepts the intent's tool and so can open a new one |
| `GateLimits.GateCommitsIff` | comcmd/kernel/workflow.py:316-357 | From any sound state of either store, calls of `approve_step` in time can commit a gate exactly when its first declaration is a gate, a resume of the task can return, enough principals are eligible, a new record does not expire at once, and, where the record of the intent the gate has after the resume is used up, expired or full, the resume halts at work, which may emit that intent, or at a gate that has it; what the gate needs does not matter |
| `GateLimits.BlockedCall` | comcmd/kernel/workflow.py:324-336 | While such a record is at hand and the resume halts elsewhere, no call of `approve_step` commits the gate, and that stays so after every call |
| `GateLimits.ReturnsIff` | comcmd/kernel/workflow.py:75-169 | A resume returns for some worker answers exactly when the steps can be ordered and a step where it can stop comes before any that always raises |
| `GateLimits.ResumeAsks` | comcmd/kernel/workflow.py:139-154 | A resume that can return does so at the halt when the worker there asks for the gate's own intent: it records what every resume records on the way, keeps a record that can be reused, and opens a new one if it cannot and the halt decides on that intent |
| `GateLimits.ResumeRaises` | comcmd/kernel/workflow.py:324 | Otherwise every resume raises, whatever the workers answer, and so does every later one |
| `Finality.FinalIff` | comcmd/kernel/workflow.py:85-95 | For every step list: no legal run under any roles, actions and workers changes a recorded artifact, exactly when no reachable id is declared first as a gate and last as a step that can succeed |
| `Finality.UniqueIdsAreSettled` | comcmd/kernel/workflow.py:85-95 | That condition holds of every step list whose ids are unique |
| `RunFinality.CompiledFinalIff` | comcmd/kernel/workflow.py:60-169 | The same at the level of whole runs of the code: for a workflow that compiles, no sequence of new processes, resumes and approvals of a task changes what an earlier part of it recorded, under any configuration, executor and answers, exactly under that condition |
| `RunFinality.CanArrive` | comcmd/kernel/workflow.py:85-169 | Such a run reaches every step that no stuck step precedes, without recording it as a gate |
| `Finality.ChangesIff` | comcmd/kernel/workflow.py:324-355 | From any sound state of either store, calls of `approve_step` in time can change what is recorded for a step exactly when it is not a gate's record already and the step can be committed as a gate (`GateCommitsIff`) |
| `Finality.ChangeNeeds` | comcmd/kernel/workflow.py:354-355 | Nothing else than approving its step as a gate changes a record in any legal continuation |
| `Finality.SuccessIsNotFinal` | comcmd/kernel/workflow.py:325-326 | A workflow whose last declarations are all work succeeds without approval, and every id it declares first as a gate can be overwritten afterwards |
| `Finality.TwiceDeclaredIsNotFinal` | comcmd/kernel/workflow.py:325-326 | The two-step instance, run by `start` and then overwritten |
| `Theorems.ApprovalsAreConsumed` | comcmd/gateway/gate.py:165-171 | Handler calls never exceed approvals, approvals never exceed opened records, and each approval used up a quorum of counted approvers of its own |
| `Theorems.RetiredUntilReopened` | comcmd/gateway/approvals.py:54-90 | After a record is retired or lost nothing authorizes its digest until a record is opened anew, and a new record starts without approvers |
| `Theorems.EnvelopeRespected` | comcmd/gateway/gate.py:183-193 | Since the gateway started, an A1 action was auto-authorized at most max_calls times |
| `Theorems.AutoWithinPolicy` | comcmd/gateway/gate.py:93-107 | Only A0 and A1 actions are ever auto-authorized, only for their policy's tool, and an A1 action never for more than max_amount |
| `Runners.StepMeans` | comcmd/kernel/workflow.py:97-165 | Working on the step whose turn has come records its value or ends there with the reason the history bears out, whatever the environment answers |
| `Runners.DriveMeans` | comcmd/kernel/workflow.py:85-169 | Driving the rest of an order stops at the first step of it that is not recorded, for that step's reason, or at SUCCEEDED with all recorded, or fails for a step's own error |
| `Runners.ResumeMeans` | comcmd/kernel/workflow.py:75-81 | A resume that stops has published the state it returns; one that fails has a step's error, or steps that cannot be ordered and then changed nothing |
| `Runners.StartMeans` | comcmd/kernel/workflow.py:60-73 | The same of a start, counted from task_created |
| `Runners.ApproveMeans` | comcmd/kernel/workflow.py:316-357 | From any sound state a gate stays parked until an assertion completes the quorum; then it is recorded exactly if its effect can be or has been performed |
| `Runners.ApproveAgreesIff` | comcmd/kernel/workflow.py:332-336 | The state returned by `approve_step` is the ledger's exactly when the quorum was completed or the task waits for a human anyway |
| `Instances.HandleContradictsLedger` | comcmd/kernel/workflow.py:332-336 | A task that has succeeded, and an assertion that is turned down: the handle says WAITING_FOR_HUMAN, the ledger SUCCEEDED |
| `Instances.GateBeforeItsNeed` | comcmd/kernel/workflow.py:324-355 | A step of work and a gate that needs it: right after the task was created some calls commit the gate while the work is not recorded |
| `Instances.CommitsBeforeWork` | comcmd/kernel/workflow.py:324-355 | Whenever a gate can be committed, it can be committed before any unrecorded work step |
| `Completions.SucceedsIff` | comcmd/kernel/workflow.py:85-169 | From any sound state of either store, resumes and approvals in time can bring a created task of a compiled workflow to SUCCEEDED exactly when its steps can be ordered, every gate is on record or can be approved, and every verify step passes on the recursive values of its needs |
| `Runners.EffectMeans` | comcmd/kernel/workflow.py:339-343 | The effect of a granted gate is in the ledger afterwards exactly when a handler is registered or it was executed before |
| `Workflows.WorkflowRunner.StartTask` | comcmd/kernel/workflow.py:60-73 | Ends as `StartFor` says for the same answers, or crashes in a legal history: an unknown or unorderable workflow changes nothing beyond task_created |
| `Workflows.WorkflowRunner.CreateOnce` | comcmd/kernel/workflow.py:68-71 | task_created is emitted only when the ledger does not have it |
| `Workflows.WorkflowRunner.ResumeTask` | comcmd/kernel/workflow.py:75-81 | Ends as `ResumeFor` says or crashes; the handle holds every artifact of the ledger and the state the ledger has |
| `Workflows.WorkflowRunner.Drive` | comcmd/kernel/workflow.py:85-169 | Orders the steps in place and drives them, ending as `ResumeFor` says or crashing; raises a cycle or an unknown need before anything is written |
| `Workflows.WorkflowRunner.DriveInOrder` | comcmd/kernel/workflow.py:90-169 | The loop over the order does what the recursion `DriveFor` does |
| `Workflows.WorkflowRunner.Round` | comcmd/kernel/workflow.py:90-95 | One round records the next step in order unless it is recorded, or halts the task there |
| `Workflows.WorkflowRunner.DoStep` | comcmd/kernel/workflow.py:97-165 | Working on a step either records its value or publishes why the task halts there |
| `Workflows.WorkflowRunner.DoWork` | comcmd/kernel/workflow.py:132-165 | Ends as `WorkFor` says: recorded with the worker's artifact, parked with it when deferred, FAILED_RETRYABLE published for an error or an unknown status |
| `Workflows.WorkflowRunner.RunWork` | comcmd/kernel/workflow.py:171-209 | The worker runs once on the step's envelope, and then exactly the intents it emits are decided by the gateway, in order |
| `Workflows.WorkflowRunner.ClearIntents` | comcmd/kernel/workflow.py:206-208 | The gateway decides on each intent the worker emits, in order, and nothing else happens |
| `Workflows.WorkflowRunner.DoFanout` | comcmd/kernel/workflow.py:107-114 | A fan-out step is recorded with the aggregate of all its candidates, and raises when there are none to run |
| `Workers.WorkerPool.RunAll` | comcmd/kernel/workflow.py:240-241 | One worker run per envelope, in index order, until one raises, and then any number of those the pool has started already; the results are the artifacts of the envelopes |
| `Workers.WorkerPool.CountApprovals` | comcmd/kernel/workflow.py:260-267 | Counts the verifiers that approve, each on its own envelope |
| `Workers.VerifiersReturned` | comcmd/kernel/workflow.py:266-267 | Counting the approving artifacts is counting the approving verifiers |
| `Workflows.WorkflowRunner.DoVerify` | comcmd/kernel/workflow.py:116-130 | A verify step is recorded with its counts when approvals reach the quorum and parks with them otherwise |
| `Workflows.WorkflowRunner.DoGate` | comcmd/kernel/workflow.py:277-288 | A gate does exactly what the gateway decides on its intent, then publishes WAITING_FOR_HUMAN with the intent's digest |
| `Workflows.WorkflowRunner.BuildIntent` | comcmd/kernel/workflow.py:290-314 | The intent rebuilt from the ledger and a resumed handle is the gate's intent over recorded inputs and artifacts |
| `Workflows.WorkflowRunner.ApproveStep` | comcmd/kernel/workflow.py:316-357 | Ends as `ApproveFor` says for the same assertion and answers, from the records and the history the first resume left, or crashes in a legal history |
| `Workflows.WorkflowRunner.Commit` | comcmd/kernel/workflow.py:338-357 | Ends as `CommitFor` says: recorded and driven on exactly when an executor is configured and has the tool's handler or finds the effect performed; otherwise the reason is published |
| `Workflows.WorkflowRunner.Effect` | comcmd/kernel/workflow.py:339-343 | The effect counts as performed exactly when a handler is registered or it was executed before |
| `LedgerReading.ReadBack` | comcmd/kernel/workflow.py:361-382 | What the runner reads back from the events (completed steps, artifacts, existence, inputs) is what the history recorded |
| `LedgerReading.RecordedMeansCreated` | comcmd/kernel/workflow.py:68-71 | A task with a completed step was created, so `start` is right to skip task_created |
| `DependencyOrders.InDependencyOrder` | comcmd/kernel/workflow.py:384-401 | The in-place path-stack traversal returns, or raises, what the recursive ordering does, and terminates |
| `DependencyOrders.OrderingIsRight` | comcmd/kernel/workflow.py:384-401 | The ordering lists every step once with its needs first, on an acyclic graph; a raised cycle contains a real closed walk; a missing id is really needed and undeclared |
| `DependencyOrders.RaisesIffCycle` | comcmd/kernel/workflow.py:389-401 | With all needs known, the runner raises exactly when the needs contain a cycle |
| `CycleChecks.CheckCycles` | comcmd/compile/compiler.py:244-264 | The in-place three-colour search reports what the recursive search does, and terminates |
| `CycleChecks.ReportsAreReal` | comcmd/compile/compiler.py:252-259 | Every reported path is a real cycle with no bounded step on it |
| `CycleChecks.ReportsIffCycle` | comcmd/compile/compiler.py:244-264 | Without bounds an error is reported exactly when there is a cycle |
| `CycleChecks.BackTargetsCutCycles` | comcmd/compile/compiler.py:252-264 | Every cycle passes through a step some back edge leads to |
| `CycleChecks.CompilerAgreesWithRunner` | comcmd/compile/compiler.py:219-264 | With all needs known and no bounds, the compiler reports an error exactly when the runner raises, and none exactly when the runner orders the steps |
| `LoopBounds.ExactIff` | comcmd/compile/compiler.py:244-264 | The check is right about every workflow over given steps if and only if no step but the first is bounded or at most one step is unbounded |
| `LoopBounds.LaterBoundHidesCycle` | comcmd/compile/compiler.py:256-257 | The three-step shortcut whose unbounded cycle is missed when a later step is bounded |
| `LoopBounds.SecondBoundHidesCycle` | comcmd/compile/compiler.py:256-257 | The same when the first step and another one are bounded |
| `Compilation.CheckStep` | comcmd/compile/compiler.py:183-222 | Exactly the step's faults are reported |
| `Compilation.CheckWorkflow` | comcmd/compile/compiler.py:171-229 | Exactly the workflow's faults are reported: those of its steps, and its unbounded cycles as the search finds them |
| `Compilation.CompiledRaisesIff` | comcmd/compile/compiler.py:171-229 | The runner raises on a workflow that compiles exactly when it has a cycle, and then some step of it is bounded |
| `Compilation.CompiledFailures` | comcmd/compile/compiler.py:171-229 | Driving a workflow that compiles raises, crashes aside, exactly on a cycle or for a worker's error |
| `Compilation.BoundedCycleCompiles` | comcmd/compile/compiler.py:256-257 | A two-step cycle with one bound that compiles and that the runner raises on |
| `Compilation.CompiledGateCommitsIff` | comcmd/kernel/workflow.py:316-357 | In a compiled workflow a resume can return unless there is a cycle: from any sound state of either store a gate can be committed exactly when there is none, enough principals are eligible, a new record does not expire at once, and a record used up, expired or full can be replaced by such a decision at the halt |
| `Normalization.SameRevisionIff` | comcmd/kernel/records.py:32-46 | Two companies have one revision id exactly when they agree apart from how roles, workflows and actions of different ids are interleaved |
| `Normalization.SortAgreesIff` | comcmd/compile/compiler.py:267-276 | Two declaration orders sort to the same body exactly when items that share an id come in the same order |
| `Normalization.PermutationsAgree` | comcmd/compile/compiler.py:267-276 | With distinct ids every permutation sorts to the same body |
| `Gateways.Gateway.Decide` | comcmd/gateway/gate.py:87-113 | Without an assertion: a call that is not cut short leaves records, counters, ledger and outcome as `Decided` says; a cut-off call leaves a legal history |
| `Gateways.Gateway.DecideWith` | comcmd/gateway/gate.py:87-113 | With the optional assertion, which is submitted at once exactly when an action of an approval tier waits for approval |
| `Gateways.Gateway.SubmitApproval` | comcmd/gateway/gate.py:115-171 | A call that is not cut short leaves records, counters, ledger and outcome as `Submitted` says; a cut-off call leaves a legal history |
| `Gateways.Gateway.OpenApproval` | comcmd/gateway/gate.py:195-218 | Opens or reuses the record and writes the request and its receipt; refuses A3 without dual control and actions without approvers |
| `Gateways.Gateway.AutoAuthorize` | comcmd/gateway/gate.py:183-193 | Authorizes within the A1 bounds and counts it, escalates beyond them |
| `Gateways.Gateway.Count` | comcmd/gateway/gate.py:137-171 | One assertion adds at most one eligible approver; the quorum retires the record and authorizes |
| `Gateways.Gateway.Expire` | comcmd/gateway/gate.py:133-135 | An expired record is retired and the attempt denied |
| `GateRuns.QuorumRule` | comcmd/gateway/gate.py:115-171 | Of any sequence of submissions to a new record, exactly the one that completes the quorum of distinct, eligible, vouched-for approvers is granted; earlier ones wait, later ones are denied |
| `GateRuns.RecordHoldsVouchers` | comcmd/gateway/approvals.py:75-90 | Until the quorum is reached the record is open and holds exactly the eligible principals vouched for; then it is used up |
| `GateRuns.ApprovableIff` | comcmd/gateway/gate.py:115-129 | A new request for approval can be met by some sequence of submissions exactly when the action is of an approval tier and enough principals are eligible, two at least for A3 |
| `Instances.NobodyCanApprove` | comcmd/gateway/gate.py:115-193 | An A1 action of amount 5.0 over a bound of 1.0 asks for approval, and no assertion can ever be granted |
| `GateRuns.CanAuthorize` | comcmd/gateway/gate.py:115-171 | After any legal history, a process whose store starts empty can be brought to authorize any such action by submissions alone |
| `GateHistories.SubmittedSound` | comcmd/gateway/gate.py:115-171 | A submission on either store keeps the history legal and the records in step with it, and does nothing that only runner or executor do |
| `GateHistories.DecidedSound` | comcmd/gateway/gate.py:87-113 | The same of a decision |
| `GateRuns.GrantIsFresh` | comcmd/gateway/gate.py:165-171 | A grant carries a capability for exactly the intent, and its authorization is the newest event |
| `GateRuns.CounterIsAutoCount` | comcmd/gateway/gate.py:183-193 | Over any sequence of decisions an action's counter is the number of its A1 auto-authorizations, which never exceeds max_calls |
| `Approvals.ApprovalStore.OpenRecord` | comcmd/gateway/approvals.py:54-70 | Reuses an unused, unexpired record and otherwise installs a new one without approvers |
| `Approvals.ApprovalStore.AddApprover` | comcmd/gateway/approvals.py:75-80 | Adds one principal to one record, once |
| `Approvals.ApprovalStore.ListPending` | comcmd/gateway/approvals.py:82-85 | Exactly the unused, unexpired records |
| `PostgresStores.PgApprovalStore.OpenRecord` | comcmd/gateway/stores_pg.py:109-127 | The upsert as readers see it: a re-opened row keeps its terms and loses its approvers |
| `PostgresStores.PgApprovalStore.AddApprover` | comcmd/gateway/stores_pg.py:136-142 | Adds one distinct principal to one row |
| `PostgresStores.PgApprovalStore.ListPending` | comcmd/gateway/stores_pg.py:144-150 | Exactly the unused, unexpired records |
| `PostgresStores.StoresAgree` | comcmd/gateway/stores_pg.py:109-156 | Over any sequence of operations in which each digest is always opened with the same terms, both stores show the same records |
| `GateStores.GatewayUsesStoresAlike` | comcmd/gateway/gate.py:195-213 | Whatever sequence of decisions and submissions a gateway serves, the operations it performs open each digest with one set of terms, so both stores end with the records it works with |
| `GateStores.SameOnBothStores` | comcmd/gateway/stores_pg.py:109-156 | The gateway gives the same outcomes and leaves the same records, counters and history on both stores |
| `PostgresStores.ReopenAgreesIff` | comcmd/gateway/stores_pg.py:118-127 | The stores differ exactly on re-opening a used or expired record with other terms |
| `Executors.Executor.Execute` | comcmd/kernel/executor.py:43-70 | An execution that is not cut short does what `ExecuteFor` says: refuses mismatches and unknown tools, returns duplicates untouched, otherwise calls the handler and then writes the receipt |
| `Executors.Executor.PriorExecution` | comcmd/kernel/executor.py:74-82 | A prior execution is found exactly when the history has an executed receipt for the digest |
| `Executors.Search` | comcmd/kernel/executor.py:74-82 | The loop finds a receipt exactly when there is one |
| `Ledgers.Ledger.Append` | comcmd/kernel/ledger.py:59-77 | Extends the event's company chain by one verified link and changes no other chain |
| `Ledgers.Ledger.VerifyChain` | comcmd/kernel/ledger.py:109-123 | True exactly when every link continues the one before it from genesis and carries its own seal |
| `Ledgers.IntactIsSequential` | comcmd/kernel/ledger.py:59-77 | Verification accepts exactly the chains that appending the stored bodies one by one produces |
| `Ledgers.HeadBindsHistory` | comcmd/kernel/ledger.py:109-123 | Two verified row lists with the same head seal are identical |
| `Ledgers.SealsDistinct` | comcmd/kernel/ledger.py:64 | All seals of a verified chain are distinct, even for equal bodies |
| `Ledgers.SelectionVerifiesIffPrefix` | comcmd/kernel/ledger.py:109-123 | Rows drawn from a verified chain, with any dropped, repeated or reordered, verify exactly when they are a prefix |
| `Ledgers.EditedBodyDetected` | comcmd/kernel/ledger.py:119-121 | A body rewritten under its stored seal is detected unless it is the same body |
| `Ledgers.ResealedVerifies` | comcmd/kernel/ledger.py:109-123 | A history rewritten at one event and sealed again from there verifies, and differs in its head seal exactly when the event differs |
| `PostgresLedgers.NoFork` | comcmd/kernel/ledger_pg.py:64-93 | For any interleaving of writers with rollback at any point, what a reader selects for a company verifies and is the single-writer chain of the same events in commit order |
| `PostgresLedgers.CommittedIsPublished` | comcmd/kernel/ledger_pg.py:64-93 | The table holds each committed call's own event once, in commit order, and nothing of a call that rolled back |
| `PostgresLedgers.StepKeepsInv` | comcmd/kernel/ledger_pg.py:66-91 | Every statement of every session keeps the protocol's invariant |
| `PostgresLedgers.SelectIsCommitOrder` | comcmd/kernel/ledger_pg.py:106-116 | Selecting by row number gives a company's rows in commit order |
| `Aggregation.Aggregate` | comcmd/kernel/aggregate.py:18-46 | The result is the winner's fields with votes, agreement and candidate count, for each way of aggregating |
| `Aggregation.Elect` | comcmd/kernel/aggregate.py:31-44 | The winner is the first candidate carrying a label of maximal count, ties going to the label seen earliest |
| `Aggregation.CountVotes` | comcmd/kernel/aggregate.py:31-34 | The tally counts every label |
| `Aggregation.InFirstSeenOrder` | comcmd/kernel/aggregate.py:36-39 | The different labels in order of first appearance |
| `Aggregation.MostVoted` | comcmd/kernel/aggregate.py:40 | The earliest of the labels with most votes |
| `Aggregation.FirstOfBestIsWinner` | comcmd/kernel/aggregate.py:40-41 | The first candidate with the first-seen of the most voted labels is the first candidate whose label no other outvotes |
| `Aggregation.TallySumsToCandidates` | comcmd/kernel/aggregate.py:31-34 | The votes over the different labels add up to the number of candidates |
| `Aggregation.MajorityIgnoresOrder` | comcmd/kernel/aggregate.py:31-42 | Permuting the candidates leaves the winning count unchanged, and the winning label too when it has strictly most votes |
| `Services.CompanyService.TaskStatus` | comcmd/server/service.py:119-137 | The view is present exactly when the ledger mentions the task, and shows its published state, its recorded artifacts, its workflow, its last request while it waits, and a valid chain |
| `Services.FoldIsHistory` | comcmd/server/service.py:124-133 | Folding a legal ledger gives the state and artifacts of its history |
| `Services.Gather` | comcmd/server/service.py:124-133 | The loop over events computes the fold |
| `Services.CompanyService.Restart` | comcmd/server/service.py:51-66 | A new process starts with empty counters, with the approval records only if the store keeps them, and with the ledger as it is |
| `Services.CompanyService.Serve` | comcmd/server/service.py:112-158 | Any sequence of starts, resumes, approvals and restarts keeps the ledger and the history legal, and executes no digest twice |
| `Evaluation.Measure` | comcmd/eval/harness.py:82-94 | Successes are the scenarios whose run matched, cost and denials are the totals |
| `Evaluation.Evaluate` | comcmd/eval/harness.py:97-128 | Promotion implies strictly more successes and no new denials, and for up to 1000 scenarios it is exactly that together with the cost bound, which may be infinite |
| `Evaluation.RoundingFaithfulIff` | comcmd/eval/harness.py:55-57 | Rates rounded to three places order success counts correctly exactly when there are at most 1000 scenarios |
| `Evaluation.PromotionBound` | comcmd/eval/harness.py:106-127 | The verdict on rounded rates compared with the verdict on counts |

## Left out

- PostgresStores.StoresAgree: needs every digest to be opened with one set of terms, because a re-opened row keeps its old ones; `ReopenAgreesIff` is the exact condition, and `GatewayUsesStoresAlike` shows that gateway calls meet it under one set of policies.
- Theorems.CrashEquivalence: asks that the gates are settled (`GatesSettled`), as they are when ids are unique; by `FinalIff` and `CompiledFinalIff` records are not final otherwise. So do the theorems built on it.
- Compilation.CheckStep: faults of `runAs`, aggregate modes, policies and schemas are not modelled; each is settled by one branch.
- Compilation.CheckWorkflow: the same reference checks are not modelled.
- Workflows.WorkflowRunner.ResumeTask: a task is resumed with the workflow and the inputs it was created with; the optional `inputs` argument and ids of tasks never created are not modelled.
- Executors.Executor.Execute: is called right after the gateway granted the capability, as `approve_step` does; capabilities kept for later are not modelled.
- Aggregation.Aggregate: scores that are not numbers and labels that cannot be dictionary keys raise in Python and are not modelled; labels that Python takes for equal although their types differ (True, 1 and 1.0) are counted apart; candidates are dictionaries.
- Evaluation.Evaluate: arithmetic is exact; binary rounding of `round(x, 3)` and of the cost ratio, and a bound that is not a number, are not modelled.
- Services.CompanyService.Serve: one company per service; the ledger classes model several companies in one table.
- Services.CompanyService.Restart: the runner's classes work on the in-memory store; a restart that keeps the records stands for the Postgres one, which `SameOnBothStores` shows to be the same to the gateway.
- GateRuns.ApprovableIff: asks for some clock readings only; with a negative lifetime, which `parse_ttl` accepts, they would have to run backwards, and `GrantIff`, whose clock never does, says that the request cannot be met then. So do `CanAuthorize` and `RunsAgainIff`.
- Completions.SucceedsIff: asks that the runner and `approve_step` find the same declaration of every id (`Unambiguous`), as they do when ids are unique.
- Workflows.WorkflowRunner.ApproveStep: ids of tasks never created are not modelled.
- Gateway calls of several processes interleaved statement by statement: each gateway call is one step, cut short by crashes only.
- Records returned by the in-memory store are values here; in Python they are the stored objects, so a caller sees later approvers in an earlier result.
- The durable engine's memoized work steps; the thread pools of fan-out and verify, whose results come in index order.
- WebAuthn, enrollment, request views, challenges' encoding, telemetry, capability ids, scopes and expiry, which nothing in the modelled code checks.
- The text of reasons in waiting states and the approval view in them; state and step are modelled.
- `parse_ttl`: approval lifetimes are numbers of seconds.
- The compiler's reference checks other than those on fan-out, verify and needs: each is settled by one branch.
- SQL beyond the effect of each statement, SQLite shared by two processes, JSON and SHA-256.

