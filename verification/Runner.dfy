/** What the calls of `comcmd/kernel/workflow.py` do when they are not cut short, as functions of
the state and of what the environment answers: the class of Workflow.dfy is proved to do exactly
this. Here is also what it means. */
module Runners {
  import opened Records
  import opened Aggregation
  import opened Graphs
  import opened DependencyOrders
  import opened Protocol
  import opened Journals
  import opened Workers
  import opened Approvals
  import opened Gateways
  import opened GateHistories
  import opened GateRuns
  import opened Executors

  datatype Status = Ok | Deferred | Error | Unknown

  /** What the environment answers at a step: the status of its worker and the intents it emits, each
  with the gateway's clock reading and challenge; for a gate, just those two. */
  datatype Answer = Answer(status: Status, requests: seq<Request>, now: real, challenge: Challenge)

  type Answers = string -> Answer

  /** How a call ends: the handle it returns, or what it raises. */
  datatype End = Stops(state: TaskState, waiting: Waiting) | Fails(failure: Failure)

  datatype Driven = Driven(now: GateState, end: End)

  datatype Stepped = GoesOn(now: GateState) | Ends(run: Driven)

  function Add(s: GateState, act: Act): GateState {
    s.(trace := Then(s.trace, act))
  }

  function Tell(s: GateState, t: TaskId, payload: Payload): GateState {
    Add(s, Emit(Event(t, payload)))
  }

  /** `_set_state`, when nothing else follows. */
  function Publish(s: GateState, t: TaskId, state: TaskState, waiting: Waiting): Driven {
    Driven(Tell(s, t, StateChanged(state, waiting)), Stops(state, waiting))
  }

  function RanWorkers(s: GateState, t: TaskId, id: string, n: nat): GateState {
    s.(trace := RanTrace(s.trace, t, id, n))
  }

  // ---- One step ----------------------------------------------------------------------------

  function Begin(s: GateState, t: TaskId, step: Step): GateState {
    Tell(s, t, StepStarted(step.id))
  }

  function GateFor(cfg: Config, s: GateState, t: TaskId, step: Step, a: Answer): Stepped
    requires step.kind.HumanGate?
  {
    var intent := GateIntent(cfg, t, step, t.inputs, Upstream(Recorded(s.trace, t), step.needs));
    var decided := Decided(cfg, s, intent, a.now, a.challenge).state;
    Ends(Publish(decided, t, WAITING_FOR_HUMAN, OnGate(step.id, step.kind.policy, Digest(intent))))
  }

  /** A work step once its worker has run and its intents have cleared the gateway. */
  function WorkRan(cfg: Config, s: GateState, t: TaskId, step: Step, requests: seq<Request>): GateState {
    DecideAll(cfg, RanWorkers(Begin(s, t, step), t, step.id, 1), requests)
  }

  function WorkFor(cfg: Config, s: GateState, t: TaskId, step: Step, a: Answer): Stepped {
    var up := Upstream(Recorded(s.trace, t), step.needs);
    var artifact := cfg.work(EnvelopeFor(cfg, t, step, t.inputs, Plain, up));
    WorkEnds(WorkRan(cfg, s, t, step, a.requests), t, step, a.status, artifact)
  }

  /** What becomes of a work step, by the status its worker returned. */
  function WorkEnds(ran: GateState, t: TaskId, step: Step, status: Status, artifact: Option<Artifact>): Stepped {
    match status
    case Ok => GoesOn(Tell(ran, t, StepSucceeded(step.id, OrEmpty(artifact))))
    case Deferred =>
      var written := if artifact.Some? then Tell(ran, t, ArtifactWritten(step.id, artifact.value)) else ran;
      Ends(Publish(written, t, FAILED_RETRYABLE, OnWorker(step.id, artifact)))
    case _ => Ends(Driven(Publish(ran, t, FAILED_RETRYABLE, NotWaiting).now, Fails(StepFailed(step.id))))
  }

  function FanoutFor(cfg: Config, s: GateState, t: TaskId, step: Step): Stepped
    requires step.kind.Fanout?
  {
    var up, begun, n := Upstream(Recorded(s.trace, t), step.needs), Begin(s, t, step), step.kind.width;
    if n <= 0 then Ends(Driven(begun, Fails(NoWorkers)))
    else GoesOn(Tell(RanWorkers(begun, t, step.id, n), t, StepSucceeded(step.id, StepValue(cfg, t, step, up))))
  }

  /** How many verifiers approve. */
  function ApprovalsOf(cfg: Config, t: TaskId, step: Step, up: map<string, Option<Artifact>>): nat
    requires step.kind.Verify? && step.kind.verifiers > 0
  {
    var m := step.kind.verifiers;
    ApprovingVerifiers(cfg, t, step, up, m, m, TargetArtifact(step, up))
  }

  function VerifyFor(cfg: Config, s: GateState, t: TaskId, step: Step): Stepped
    requires step.kind.Verify?
  {
    var up, begun, m := Upstream(Recorded(s.trace, t), step.needs), Begin(s, t, step), step.kind.verifiers;
    if step.needs == [] then Ends(Driven(begun, Fails(MissingTarget)))
    else if m <= 0 then Ends(Driven(begun, Fails(NoWorkers)))
    else
      var approvals := ApprovalsOf(cfg, t, step, up);
      var quorum := VerifyQuorum(step.kind.verifyQuorum);
      var ran := RanWorkers(begun, t, step.id, m);
      if approvals < quorum then Ends(Publish(ran, t, WAITING_FOR_HUMAN, OnVerify(step.id, approvals, m)))
      else GoesOn(Tell(ran, t, StepSucceeded(step.id, Verdicts(step, approvals, m, quorum))))
  }

  function StepFor(cfg: Config, s: GateState, t: TaskId, step: Step, a: Answer): Stepped {
    match step.kind
    case HumanGate(_) => GateFor(cfg, s, t, step, a)
    case Fanout(_, _, _, _) => FanoutFor(cfg, s, t, step)
    case Verify(_, _) => VerifyFor(cfg, s, t, step)
    case Work => WorkFor(cfg, s, t, step, a)
  }

  // ---- Whole calls -------------------------------------------------------------------------

  /** `_drive`, from the steps of the order that are left. */
  function DriveFor(cfg: Config, s: GateState, t: TaskId, rest: seq<string>, answers: Answers): Driven
    decreases |rest|
  {
    if rest == [] then Publish(s, t, SUCCEEDED, NotWaiting)
    else if rest[0] in Recorded(s.trace, t) then DriveFor(cfg, s, t, rest[1..], answers)
    else if rest[0] !in ById(cfg.StepsOf(t)) then Driven(s, Fails(MissingStep))
    else
      match StepFor(cfg, s, t, ById(cfg.StepsOf(t))[rest[0]], answers(rest[0]))
      case GoesOn(now) => DriveFor(cfg, now, t, rest[1..], answers)
      case Ends(run) => run
  }

  /** `resume`, with the task's own workflow and recorded inputs. */
  function ResumeFor(cfg: Config, s: GateState, t: TaskId, answers: Answers): Driven {
    match OrderAll(Needs(cfg.StepsOf(t)), Ids(cfg.StepsOf(t)))
    case Ordered(order) => DriveFor(cfg, s, t, order, answers)
    case CycleRaised(_) => Driven(s, Fails(CycleAtRuntime))
    case UnknownStep(_) => Driven(s, Fails(MissingStep))
  }

  /** task_created is idempotent. */
  function CreateFor(s: GateState, t: TaskId): GateState {
    if Created(s.trace, t) then s else Tell(s, t, TaskCreated(t.workflow, t.inputs))
  }

  /** `start`. */
  function StartFor(cfg: Config, s: GateState, workflow: string, inputs: Inputs, answers: Answers): Driven {
    if workflow !in cfg.workflows then Driven(s, Fails(UnknownWorkflow))
    else ResumeFor(cfg, CreateFor(s, TaskId(workflow, inputs)), TaskId(workflow, inputs), answers)
  }

  /** The tools an executor has handlers for; None when no executor is configured. */
  type Handlers = Option<set<string>>

  /** `approve_step`: what the environment answers to its two resumes, and the assertion. */
  datatype Approving = Approving(before: Answers, sub: Submission, after: Answers)

  /** An authorized gate whose effect was performed is recorded, and its task goes on. */
  function CommitFor(cfg: Config, handlers: Handlers, s: GateState, t: TaskId, id: string, cap: Capability,
                     intent: ActionIntent, after: Answers): Driven
  {
    if handlers.None? then Publish(s, t, FAILED_RETRYABLE, NoExecutor(id))
    else PerformFor(cfg, handlers.value, s, t, id, cap, intent, after)
  }

  function PerformFor(cfg: Config, tools: set<string>, s: GateState, t: TaskId, id: string, cap: Capability,
                      intent: ActionIntent, after: Answers): Driven
  {
    var told := EffectFor(s, t, id, tools, cap, intent);
    if !Performable(Some(tools), s.trace, intent) then Publish(told, t, FAILED_RETRYABLE, EffectRefused(id))
    else ResumeFor(cfg, Tell(told, t, StepSucceeded(id, AUTHORIZED)), t, after)
  }

  /** The executor's work and the runner's receipt of it. */
  function EffectFor(s: GateState, t: TaskId, id: string, tools: set<string>, cap: Capability,
                     intent: ActionIntent): GateState
  {
    var execution := ExecuteFor(s.trace, tools, cap, intent);
    Tell(s.(trace := execution.trace), t, StepReceipt(id, execution.outcome.executed, execution.outcome.duplicate))
  }

  /** The effect can be performed, or has been. */
  predicate Performable(handlers: Handlers, tr: Trace, intent: ActionIntent) {
    handlers.Some? && (intent.tool in handlers.value || IsExecuted(tr, Digest(intent)))
  }

  function AnswerFor(cfg: Config, handlers: Handlers, s: GateState, t: TaskId, id: string, gate: Step,
                     call: Approving): Driven
    requires gate.kind.HumanGate?
  {
    var intent := GateDigest(cfg, s.trace, t, gate).of;
    var step := Submitted(cfg, s, intent, call.sub);
    if step.outcome.decision != Granted || step.outcome.capability.None? then
      Driven(step.state, Stops(WAITING_FOR_HUMAN, OnApproval(id)))
    else CommitFor(cfg, handlers, step.state, t, id, step.outcome.capability.value, intent, call.after)
  }

  function ApproveFor(cfg: Config, handlers: Handlers, s: GateState, t: TaskId, id: string, call: Approving): Driven {
    var resumed, gate := ResumeFor(cfg, s, t, call.before), FirstById(cfg.StepsOf(t), id);
    if resumed.end.Fails? then resumed
    else if gate.None? || !gate.value.kind.HumanGate? then Driven(resumed.now, Fails(NotAGate))
    else AnswerFor(cfg, handlers, resumed.now, t, id, gate.value, call)
  }

  // ---- What a stop means -------------------------------------------------------------------

  /** What a handle says when its task stopped short of `step`. */
  ghost predicate WaitsOn(cfg: Config, tr: Trace, t: TaskId, step: Step, state: TaskState, waiting: Waiting) {
    var up := Upstream(Recorded(tr, t), step.needs);
    match step.kind
    case HumanGate(policy) =>
      state == WAITING_FOR_HUMAN && waiting == OnGate(step.id, policy, GateDigest(cfg, tr, t, step))
    case Verify(m, q) =>
      && state == WAITING_FOR_HUMAN && m > 0
      && waiting == OnVerify(step.id, ApprovingVerifiers(cfg, t, step, up, m, m, TargetArtifact(step, up)), m)
      && waiting.approvals < VerifyQuorum(q)
    case Work =>
      && state == FAILED_RETRYABLE
      && waiting == OnWorker(step.id, cfg.work(EnvelopeFor(cfg, t, step, t.inputs, Plain, up)))
    case Fanout(_, _, _, _) => false
  }

  predicate Publishes(tr: Trace, t: TaskId, state: TaskState, waiting: Waiting) {
    tr.Then? && tr.act == Emit(Event(t, StateChanged(state, waiting)))
  }

  /** A deferring worker's artifact is written down before the state is published. */
  predicate KeepsArtifact(tr: Trace, t: TaskId, s: string, artifact: Option<Artifact>) {
    artifact.Some? ==> tr.Then? && tr.act == Emit(Event(t, ArtifactWritten(s, artifact.value)))
  }

  /** A task goes no further than `step`, and says why. */
  ghost predicate Halts(cfg: Config, tr: Trace, t: TaskId, step: Step, state: TaskState, waiting: Waiting) {
    && Publishes(tr, t, state, waiting) && WaitsOn(cfg, tr, t, step, state, waiting)
    && (waiting.OnWorker? ==> KeepsArtifact(tr.before, t, step.id, waiting.artifact))
  }

  /** A task stops only at the first step, in dependency order, that is not recorded, for that
  step's reason; or at the end, when all steps are recorded. */
  ghost predicate Stopped(cfg: Config, tr: Trace, t: TaskId, state: TaskState, waiting: Waiting) {
    var order := RunOrder(cfg.StepsOf(t));
    order.Some? && exists k :: StoppedAt(cfg, tr, t, state, waiting, order.value, k)
  }

  ghost predicate StoppedAt(cfg: Config, tr: Trace, t: TaskId, state: TaskState, waiting: Waiting, order: seq<string>,
                            k: nat)
  {
    && k <= |order|
    && (forall j :: 0 <= j < k ==> order[j] in Recorded(tr, t))
    && (k == |order| ==> Publishes(tr, t, state, waiting) && state == SUCCEEDED && waiting == NotWaiting)
    && (k < |order| ==>
          && order[k] in ById(cfg.StepsOf(t)) && order[k] !in Recorded(tr, t)
          && Halts(cfg, tr, t, ById(cfg.StepsOf(t))[order[k]], state, waiting))
  }

  predicate LacksWorkers(step: Step) {
    (step.kind.Fanout? || step.kind.Verify?) && RunsOf(step) <= 0
  }

  /** Why a task failed at one of its steps. */
  ghost predicate StepFails(cfg: Config, after: Trace, t: TaskId, failure: Failure) {
    match failure
    case StepFailed(s) => Publishes(after, t, FAILED_RETRYABLE, NotWaiting)
    case NoWorkers => exists s :: s in ById(cfg.StepsOf(t)) && LacksWorkers(ById(cfg.StepsOf(t))[s])
    case MissingTarget => exists s :: s in ById(cfg.StepsOf(t)) && LacksTarget(ById(cfg.StepsOf(t))[s])
    case _ => false
  }

  /** Why a task was not driven to a stop: a step's own error, or steps that cannot be ordered, in
  which case nothing was done. */
  ghost predicate DriveFails(cfg: Config, before: Trace, after: Trace, t: TaskId, failure: Failure) {
    || (failure == CycleAtRuntime && after == before && HasCycle(Needs(cfg.StepsOf(t))))
    || (failure == MissingStep && after == before && !Closed(Needs(cfg.StepsOf(t))))
    || StepFails(cfg, after, t, failure)
  }

  /** The turn of `step` has come. */
  ghost predicate Next(cfg: Config, tr: Trace, t: TaskId, step: Step) {
    && Created(tr, t) && step.id in ById(cfg.StepsOf(t)) && step == ById(cfg.StepsOf(t))[step.id]
    && step.id !in Recorded(tr, t)
    && (forall n <- step.needs :: n in Recorded(tr, t))
    && Turn(cfg.StepsOf(t), Recorded(tr, t).Keys, step.id)
  }

  /** What working on `step` comes to: its value is recorded, or the task ends there. */
  ghost predicate Did(cfg: Config, before: GateState, t: TaskId, step: Step, x: Stepped) {
    match x
    case GoesOn(now) =>
      var v := StepValue(cfg, t, step, Upstream(Recorded(before.trace, t), step.needs));
      RunnerStep(cfg, before, t, now) && Recorded(now.trace, t) == Recorded(before.trace, t)[step.id := v]
    case Ends(Driven(now, end)) =>
      && RunnerStep(cfg, before, t, now) && Recorded(now.trace, t) == Recorded(before.trace, t)
      && match end
         case Stops(state, waiting) => Halts(cfg, now.trace, t, step, state, waiting)
         case Fails(failure) => StepFails(cfg, now.trace, t, failure)
  }

  /** Legal, and part of the same task's history. */
  ghost predicate RunnerStep(cfg: Config, s: GateState, t: TaskId, after: GateState) {
    Sound(cfg, after) && Prefix(s.trace, after.trace) && after.store == s.store && Created(after.trace, t)
  }

  lemma RunnerStepsCompose(cfg: Config, a: GateState, t: TaskId, b: GateState, c: GateState)
    requires RunnerStep(cfg, a, t, b) && RunnerStep(cfg, b, t, c)
    ensures RunnerStep(cfg, a, t, c)
  {
    PrefixTransitive(a.trace, b.trace, c.trace);
  }

  /** A legal act that touches no approval record. */
  lemma InertSound(cfg: Config, s: GateState, act: Act)
    requires Sound(cfg, s) && LegalAct(cfg, s.trace, act) && IsInert(act)
    ensures Sound(cfg, Add(s, act)) && Prefix(s.trace, Add(s, act).trace)
  {
    assert Inert(s.trace, Then(s.trace, act));
    InertConsistent(cfg, s.records, s.calls, s.trace, Then(s.trace, act));
    assert Prefix(s.trace, s.trace);
  }

  lemma GatedIsRunnerStep(cfg: Config, s: GateState, t: TaskId, after: GateState)
    requires Sound(cfg, s) && Created(s.trace, t) && SoundStep(cfg, s, after)
    ensures RunnerStep(cfg, s, t, after) && Recorded(after.trace, t) == Recorded(s.trace, t)
  {
    GatedKeeps(s.trace, after.trace, t, "", GateDigest(cfg, s.trace, t, Step("", HumanGate(""), None, [], None)));
  }

  // ---- What a step means -------------------------------------------------------------------

  lemma PublishMeans(cfg: Config, s: GateState, t: TaskId, state: TaskState, waiting: Waiting)
    requires Sound(cfg, s) && Created(s.trace, t)
    requires state == SUCCEEDED ==> forall id <- ById(cfg.StepsOf(t)) :: id in Recorded(s.trace, t)
    ensures var now := Publish(s, t, state, waiting).now;
      && RunnerStep(cfg, s, t, now) && Recorded(now.trace, t) == Recorded(s.trace, t)
      && Publishes(now.trace, t, state, waiting) && now.trace.before == s.trace
  {
    InertSound(cfg, s, Emit(Event(t, StateChanged(state, waiting))));
  }

  lemma SucceedMeans(cfg: Config, s: GateState, t: TaskId, step: Step, artifact: Artifact)
    requires Sound(cfg, s) && StepDone(cfg, s.trace, t, step.id, artifact)
    ensures var now := Tell(s, t, StepSucceeded(step.id, artifact));
      RunnerStep(cfg, s, t, now) && Recorded(now.trace, t) == Recorded(s.trace, t)[step.id := artifact]
  {
    InertSound(cfg, s, Emit(Event(t, StepSucceeded(step.id, artifact))));
  }

  /** A step in progress: started, and its workers run `n` times. */
  ghost predicate InProgress(cfg: Config, s: GateState, t: TaskId, step: Step, n: nat, now: GateState) {
    && RunnerStep(cfg, s, t, now) && Recorded(now.trace, t) == Recorded(s.trace, t)
    && Ready(cfg, now.trace, t, step.id) && Runs(now.trace, t, step.id) == Some(n)
  }

  lemma BeginMeans(cfg: Config, s: GateState, t: TaskId, step: Step)
    requires Sound(cfg, s) && Next(cfg, s.trace, t, step) && !step.kind.HumanGate?
    ensures InProgress(cfg, s, t, step, 0, Begin(s, t, step))
  {
    InertSound(cfg, s, Emit(Event(t, StepStarted(step.id))));
  }

  lemma OneRunMeans(cfg: Config, s: GateState, t: TaskId, step: Step, n: nat, now: GateState)
    requires InProgress(cfg, s, t, step, n, now)
    ensures InProgress(cfg, s, t, step, n + 1, Add(now, RunWorker(t, step.id)))
  {
    InertSound(cfg, now, RunWorker(t, step.id));
    PrefixTransitive(s.trace, now.trace, Then(now.trace, RunWorker(t, step.id)));
  }

  lemma {:induction false} RunsMean(cfg: Config, s: GateState, t: TaskId, step: Step, n: nat)
    requires Sound(cfg, s) && Next(cfg, s.trace, t, step) && !step.kind.HumanGate?
    ensures InProgress(cfg, s, t, step, n, RanWorkers(Begin(s, t, step), t, step.id, n))
  {
    if n == 0 {
      BeginMeans(cfg, s, t, step);
    } else {
      RunsMean(cfg, s, t, step, n - 1);
      OneRunMeans(cfg, s, t, step, n - 1, RanWorkers(Begin(s, t, step), t, step.id, n - 1));
    }
  }

  lemma WorkRanMeans(cfg: Config, s: GateState, t: TaskId, step: Step, requests: seq<Request>)
    requires Sound(cfg, s) && Next(cfg, s.trace, t, step) && step.kind.Work?
    ensures InProgress(cfg, s, t, step, 1, WorkRan(cfg, s, t, step, requests))
  {
    var ran, after := RanWorkers(Begin(s, t, step), t, step.id, 1), WorkRan(cfg, s, t, step, requests);
    RunsMean(cfg, s, t, step, 1);
    DecideAllSound(cfg, ran, requests);
    GatedKeeps(ran.trace, after.trace, t, step.id,
               GateDigest(cfg, s.trace, t, Step("", HumanGate(""), None, [], None)));
    PrefixTransitive(s.trace, ran.trace, after.trace);
  }

  lemma GateMeans(cfg: Config, s: GateState, t: TaskId, step: Step, a: Answer)
    requires Sound(cfg, s) && Next(cfg, s.trace, t, step) && step.kind.HumanGate?
    ensures Did(cfg, s, t, step, GateFor(cfg, s, t, step, a))
  {
    var d := GateDigest(cfg, s.trace, t, step);
    var decided := Decided(cfg, s, d.of, a.now, a.challenge).state;
    DecidedSound(cfg, s, d.of, a.now, a.challenge);
    GatedIsRunnerStep(cfg, s, t, decided);
    PublishMeans(cfg, decided, t, WAITING_FOR_HUMAN, OnGate(step.id, step.kind.policy, d));
    RunnerStepsCompose(cfg, s, t, decided, GateFor(cfg, s, t, step, a).run.now);
  }

  lemma DeferredMeans(cfg: Config, s: GateState, t: TaskId, step: Step, a: Answer)
    requires Sound(cfg, s) && Next(cfg, s.trace, t, step) && step.kind.Work? && a.status == Deferred
    ensures Did(cfg, s, t, step, WorkFor(cfg, s, t, step, a))
  {
    var artifact := cfg.work(EnvelopeFor(cfg, t, step, t.inputs, Plain, Upstream(Recorded(s.trace, t), step.needs)));
    var ran := WorkRan(cfg, s, t, step, a.requests);
    WorkRanMeans(cfg, s, t, step, a.requests);
    var written := ran;
    if artifact.Some? {
      written := Tell(ran, t, ArtifactWritten(step.id, artifact.value));
      InertSound(cfg, ran, Emit(Event(t, ArtifactWritten(step.id, artifact.value))));
      RunnerStepsCompose(cfg, s, t, ran, written);
    }
    PublishMeans(cfg, written, t, FAILED_RETRYABLE, OnWorker(step.id, artifact));
    RunnerStepsCompose(cfg, s, t, written, WorkFor(cfg, s, t, step, a).run.now);
  }

  lemma WorkMeans(cfg: Config, s: GateState, t: TaskId, step: Step, a: Answer)
    requires Sound(cfg, s) && Next(cfg, s.trace, t, step) && step.kind.Work?
    ensures Did(cfg, s, t, step, WorkFor(cfg, s, t, step, a))
  {
    var ran := WorkRan(cfg, s, t, step, a.requests);
    WorkRanMeans(cfg, s, t, step, a.requests);
    match a.status
    case Ok =>
      var v := StepValue(cfg, t, step, Upstream(Recorded(s.trace, t), step.needs));
      SucceedMeans(cfg, ran, t, step, v);
      RunnerStepsCompose(cfg, s, t, ran, Tell(ran, t, StepSucceeded(step.id, v)));
    case Deferred => DeferredMeans(cfg, s, t, step, a);
    case _ =>
      PublishMeans(cfg, ran, t, FAILED_RETRYABLE, NotWaiting);
      RunnerStepsCompose(cfg, s, t, ran, Publish(ran, t, FAILED_RETRYABLE, NotWaiting).now);
  }

  lemma FanoutIsAggregate(cfg: Config, t: TaskId, step: Step, up: map<string, Option<Artifact>>)
    requires step.kind.Fanout? && step.kind.width > 0
    ensures var candidates := Candidates(cfg, t, step, up, step.kind.width, step.kind.width);
      StepValue(cfg, t, step, up)
      == Aggregated(candidates, step.kind.how, step.kind.key, step.kind.scoreKey, cfg.show)
  {
  }

  lemma FanoutDone(cfg: Config, s: GateState, t: TaskId, step: Step)
    requires Sound(cfg, s) && Next(cfg, s.trace, t, step) && step.kind.Fanout? && step.kind.width > 0
    ensures var ran := RanWorkers(Begin(s, t, step), t, step.id, step.kind.width);
      && InProgress(cfg, s, t, step, step.kind.width, ran)
      && StepDone(cfg, ran.trace, t, step.id, StepValue(cfg, t, step, Upstream(Recorded(s.trace, t), step.needs)))
  {
    RunsMean(cfg, s, t, step, step.kind.width);
  }

  lemma FanoutMeans(cfg: Config, s: GateState, t: TaskId, step: Step)
    requires Sound(cfg, s) && Next(cfg, s.trace, t, step) && step.kind.Fanout?
    ensures Did(cfg, s, t, step, FanoutFor(cfg, s, t, step))
  {
    var n := step.kind.width;
    if n <= 0 {
      BeginMeans(cfg, s, t, step);
      assert step.id in ById(cfg.StepsOf(t)) && LacksWorkers(ById(cfg.StepsOf(t))[step.id]);
    } else {
      var ran := RanWorkers(Begin(s, t, step), t, step.id, n);
      var v := StepValue(cfg, t, step, Upstream(Recorded(s.trace, t), step.needs));
      FanoutDone(cfg, s, t, step);
      SucceedMeans(cfg, ran, t, step, v);
      RunnerStepsCompose(cfg, s, t, ran, Tell(ran, t, StepSucceeded(step.id, v)));
    }
  }

  lemma VerdictsAreValue(cfg: Config, t: TaskId, step: Step, up: map<string, Option<Artifact>>)
    requires step.kind.Verify? && step.kind.verifiers > 0
    ensures var quorum := VerifyQuorum(step.kind.verifyQuorum);
      var verdicts := Verdicts(step, ApprovalsOf(cfg, t, step, up), step.kind.verifiers, quorum);
      verdicts == StepValue(cfg, t, step, up) && (ApprovalsOf(cfg, t, step, up) >= quorum ==> Passed(step, verdicts))
  {
  }

  lemma VerifyDone(cfg: Config, tr: Trace, t: TaskId, step: Step, approvals: nat)
    requires step.kind.Verify? && step.kind.verifiers > 0 && step.needs != []
    requires Ready(cfg, tr, t, step.id) && step == ById(cfg.StepsOf(t))[step.id]
    requires Runs(tr, t, step.id) == Some(step.kind.verifiers as nat)
    requires approvals == ApprovalsOf(cfg, t, step, Upstream(Recorded(tr, t), step.needs))
    requires approvals >= VerifyQuorum(step.kind.verifyQuorum)
    ensures var verdicts := Verdicts(step, approvals, step.kind.verifiers, VerifyQuorum(step.kind.verifyQuorum));
      && StepDone(cfg, tr, t, step.id, verdicts)
      && verdicts == StepValue(cfg, t, step, Upstream(Recorded(tr, t), step.needs))
  {
    VerdictsAreValue(cfg, t, step, Upstream(Recorded(tr, t), step.needs));
  }

  /** A verify step whose workers ran, and enough of them approved. */
  lemma VerifyPasses(cfg: Config, s: GateState, t: TaskId, step: Step)
    requires Sound(cfg, s) && Next(cfg, s.trace, t, step) && step.kind.Verify? && step.kind.verifiers > 0
      && step.needs != []
    requires var up := Upstream(Recorded(s.trace, t), step.needs);
             ApprovalsOf(cfg, t, step, up) >= VerifyQuorum(step.kind.verifyQuorum)
    ensures var ran := RanWorkers(Begin(s, t, step), t, step.id, step.kind.verifiers);
      var up, quorum := Upstream(Recorded(s.trace, t), step.needs), VerifyQuorum(step.kind.verifyQuorum);
      var verdicts := Verdicts(step, ApprovalsOf(cfg, t, step, up), step.kind.verifiers, quorum);
      && InProgress(cfg, s, t, step, step.kind.verifiers, ran) && StepDone(cfg, ran.trace, t, step.id, verdicts)
      && verdicts == StepValue(cfg, t, step, up)
  {
    var ran := RanWorkers(Begin(s, t, step), t, step.id, step.kind.verifiers);
    RunsMean(cfg, s, t, step, step.kind.verifiers);
    VerifyDone(cfg, ran.trace, t, step, ApprovalsOf(cfg, t, step, Upstream(Recorded(s.trace, t), step.needs)));
  }

  lemma VerifyMeans(cfg: Config, s: GateState, t: TaskId, step: Step)
    requires Sound(cfg, s) && Next(cfg, s.trace, t, step) && step.kind.Verify?
    ensures Did(cfg, s, t, step, VerifyFor(cfg, s, t, step))
  {
    var m := step.kind.verifiers;
    if step.needs == [] || m <= 0 {
      BeginMeans(cfg, s, t, step);
      assert step.id in ById(cfg.StepsOf(t));
      assert LacksTarget(ById(cfg.StepsOf(t))[step.id]) || LacksWorkers(ById(cfg.StepsOf(t))[step.id]);
    } else {
      VerifyRanMeans(cfg, s, t, step);
    }
  }

  lemma VerifyRanMeans(cfg: Config, s: GateState, t: TaskId, step: Step)
    requires Sound(cfg, s) && Next(cfg, s.trace, t, step) && step.kind.Verify?
    requires step.needs != [] && step.kind.verifiers > 0
    ensures Did(cfg, s, t, step, VerifyFor(cfg, s, t, step))
  {
    var up := Upstream(Recorded(s.trace, t), step.needs);
    var m, quorum := step.kind.verifiers, VerifyQuorum(step.kind.verifyQuorum);
    var approvals := ApprovalsOf(cfg, t, step, up);
    var ran := RanWorkers(Begin(s, t, step), t, step.id, m);
    RunsMean(cfg, s, t, step, m);
    if approvals < quorum {
      var parked := Publish(ran, t, WAITING_FOR_HUMAN, OnVerify(step.id, approvals, m)).now;
      PublishMeans(cfg, ran, t, WAITING_FOR_HUMAN, OnVerify(step.id, approvals, m));
      RunnerStepsCompose(cfg, s, t, ran, parked);
      assert WaitsOn(cfg, parked.trace, t, step, WAITING_FOR_HUMAN, OnVerify(step.id, approvals, m));
    } else {
      VerifyPasses(cfg, s, t, step);
      SucceedMeans(cfg, ran, t, step, Verdicts(step, approvals, m, quorum));
      RunnerStepsCompose(cfg, s, t, ran, Tell(ran, t, StepSucceeded(step.id, Verdicts(step, approvals, m, quorum))));
    }
  }

  /** Working on the step whose turn has come records its value, or the task ends there and says why. */
  lemma StepMeans(cfg: Config, s: GateState, t: TaskId, step: Step, a: Answer)
    requires Sound(cfg, s) && Next(cfg, s.trace, t, step)
    ensures Did(cfg, s, t, step, StepFor(cfg, s, t, step, a))
  {
    match step.kind
    case HumanGate(_) => GateMeans(cfg, s, t, step, a);
    case Fanout(_, _, _, _) => FanoutMeans(cfg, s, t, step);
    case Verify(_, _) => VerifyMeans(cfg, s, t, step);
    case Work => WorkMeans(cfg, s, t, step, a);
  }

  // ---- What a call means -------------------------------------------------------------------

  lemma RunOrderIsRight(steps: seq<Step>)
    ensures RunOrder(steps).Some? ==> TopologicalOrder(Needs(steps), RunOrder(steps).value)
    ensures RunOrder(steps).Some? ==> forall id :: id in RunOrder(steps).value <==> id in ById(steps)
    ensures OrderAll(Needs(steps), Ids(steps)).CycleRaised? ==> HasCycle(Needs(steps))
    ensures OrderAll(Needs(steps), Ids(steps)).UnknownStep? ==> !Closed(Needs(steps))
  {
    IdsAreNodes(steps);
    OrderingIsRight(Needs(steps), Ids(steps));
  }

  /** The first steps of the order are recorded. */
  ghost predicate RecordedTo(tr: Trace, t: TaskId, order: seq<string>, i: nat) {
    i <= |order| && forall j :: 0 <= j < i ==> order[j] in Recorded(tr, t)
  }

  lemma TurnOf(cfg: Config, tr: Trace, t: TaskId, order: seq<string>, i: nat)
    requires RunOrder(cfg.StepsOf(t)) == Some(order) && RecordedTo(tr, t, order, i) && i < |order|
    requires Created(tr, t) && order[i] !in Recorded(tr, t)
    ensures order[i] in ById(cfg.StepsOf(t)) && Next(cfg, tr, t, ById(cfg.StepsOf(t))[order[i]])
  {
    RunOrderIsRight(cfg.StepsOf(t));
    assert IndexOf(order, order[i]) == i;
    assert order[i] in order && order[i] in Needs(cfg.StepsOf(t));
    forall n | n in ById(cfg.StepsOf(t))[order[i]].needs ensures n in Recorded(tr, t) {
      assert n in order[..i];
    }
  }

  ghost predicate DriveDid(cfg: Config, s: GateState, t: TaskId, order: seq<string>, run: Driven) {
    && RunnerStep(cfg, s, t, run.now)
    && match run.end
       case Stops(state, waiting) => exists k :: StoppedAt(cfg, run.now.trace, t, state, waiting, order, k)
       case Fails(failure) => StepFails(cfg, run.now.trace, t, failure)
  }

  lemma {:induction false} DriveMeans(cfg: Config, s: GateState, t: TaskId, order: seq<string>, i: nat,
                                      answers: Answers)
    requires Sound(cfg, s) && Created(s.trace, t) && RunOrder(cfg.StepsOf(t)) == Some(order)
    requires RecordedTo(s.trace, t, order, i)
    ensures DriveDid(cfg, s, t, order, DriveFor(cfg, s, t, order[i..], answers))
    decreases |order| - i
  {
    if i == |order| {
      DoneMeans(cfg, s, t, order);
    } else if order[i] in Recorded(s.trace, t) {
      assert order[i..][1..] == order[i + 1..];
      DriveMeans(cfg, s, t, order, i + 1, answers);
    } else {
      TurnOf(cfg, s.trace, t, order, i);
      var step := ById(cfg.StepsOf(t))[order[i]];
      StepMeans(cfg, s, t, step, answers(order[i]));
      match StepFor(cfg, s, t, step, answers(order[i]))
      case GoesOn(now) =>
        assert order[i..][1..] == order[i + 1..];
        DriveMeans(cfg, now, t, order, i + 1, answers);
        RunnerStepsCompose(cfg, s, t, now, DriveFor(cfg, now, t, order[i + 1..], answers).now);
      case Ends(run) =>
        if run.end.Stops? {
          assert StoppedAt(cfg, run.now.trace, t, run.end.state, run.end.waiting, order, i);
        }
    }
  }

  lemma DoneMeans(cfg: Config, s: GateState, t: TaskId, order: seq<string>)
    requires Sound(cfg, s) && Created(s.trace, t) && RunOrder(cfg.StepsOf(t)) == Some(order)
    requires RecordedTo(s.trace, t, order, |order|)
    ensures DriveDid(cfg, s, t, order, Publish(s, t, SUCCEEDED, NotWaiting))
  {
    RunOrderIsRight(cfg.StepsOf(t));
    forall id | id in ById(cfg.StepsOf(t)) ensures id in Recorded(s.trace, t) {
      assert id in order;
    }
    PublishMeans(cfg, s, t, SUCCEEDED, NotWaiting);
    assert StoppedAt(cfg, Publish(s, t, SUCCEEDED, NotWaiting).now.trace, t, SUCCEEDED, NotWaiting, order, |order|);
  }

  /** What a call that is not cut short comes to: its task stopped for a reason the history bears out,
  and the ledger has the state the caller is told; or there is a reason why it raised. */
  ghost predicate CallDid(cfg: Config, s: GateState, t: TaskId, run: Driven) {
    && RunnerStep(cfg, s, t, run.now)
    && match run.end
       case Stops(state, waiting) =>
         Stopped(cfg, run.now.trace, t, state, waiting) && StateOf(run.now.trace, t) == state
       case Fails(failure) => DriveFails(cfg, s.trace, run.now.trace, t, failure)
  }

  /** The same, when the steps can be ordered. */
  ghost predicate OrderedDid(cfg: Config, s: GateState, t: TaskId, run: Driven) {
    && RunnerStep(cfg, s, t, run.now)
    && match run.end
       case Stops(state, waiting) =>
         Stopped(cfg, run.now.trace, t, state, waiting) && StateOf(run.now.trace, t) == state
       case Fails(failure) => StepFails(cfg, run.now.trace, t, failure)
  }

  lemma OrderedMeans(cfg: Config, s: GateState, t: TaskId, order: seq<string>, answers: Answers)
    requires Sound(cfg, s) && Created(s.trace, t) && RunOrder(cfg.StepsOf(t)) == Some(order)
    ensures OrderedDid(cfg, s, t, ResumeFor(cfg, s, t, answers))
  {
    assert order[0..] == order;
    DriveMeans(cfg, s, t, order, 0, answers);
  }

  lemma ResumeMeans(cfg: Config, s: GateState, t: TaskId, answers: Answers)
    requires Sound(cfg, s) && Created(s.trace, t)
    ensures CallDid(cfg, s, t, ResumeFor(cfg, s, t, answers))
    ensures RunOrder(cfg.StepsOf(t)).Some? ==> OrderedDid(cfg, s, t, ResumeFor(cfg, s, t, answers))
  {
    if RunOrder(cfg.StepsOf(t)).Some? {
      OrderedMeans(cfg, s, t, RunOrder(cfg.StepsOf(t)).value, answers);
    } else {
      RunOrderIsRight(cfg.StepsOf(t));
    }
  }

  lemma CreateMeans(cfg: Config, s: GateState, t: TaskId)
    requires Sound(cfg, s) && t.workflow in cfg.workflows
    ensures RunnerStep(cfg, s, t, CreateFor(s, t))
  {
    if !Created(s.trace, t) {
      InertSound(cfg, s, Emit(Event(t, TaskCreated(t.workflow, t.inputs))));
    }
  }

  lemma StartMeans(cfg: Config, s: GateState, workflow: string, inputs: Inputs, answers: Answers)
    requires Sound(cfg, s) && workflow in cfg.workflows
    ensures CallDid(cfg, CreateFor(s, TaskId(workflow, inputs)), TaskId(workflow, inputs),
                    StartFor(cfg, s, workflow, inputs, answers))
    ensures Prefix(s.trace, StartFor(cfg, s, workflow, inputs, answers).now.trace)
  {
    var t := TaskId(workflow, inputs);
    CreateMeans(cfg, s, t);
    ResumeMeans(cfg, CreateFor(s, t), t, answers);
    PrefixTransitive(s.trace, CreateFor(s, t).trace, StartFor(cfg, s, workflow, inputs, answers).now.trace);
  }

  // ---- Approving ---------------------------------------------------------------------------

  /** The executor acts on an authorization that is the last thing in the history. */
  ghost predicate JustGranted(s: GateState, cap: Capability, intent: ActionIntent) {
    && cap == Capability(cap.tier, Digest(intent), intent.tool)
    && s.trace.Then? && IsApproval(s.trace.act, Digest(intent))
  }

  lemma EffectMeans(cfg: Config, s: GateState, t: TaskId, id: string, tools: set<string>, cap: Capability,
                    intent: ActionIntent)
    requires Sound(cfg, s) && Created(s.trace, t) && JustGranted(s, cap, intent)
    ensures var now := EffectFor(s, t, id, tools, cap, intent);
      && RunnerStep(cfg, s, t, now) && Recorded(now.trace, t) == Recorded(s.trace, t)
      && (IsExecuted(now.trace, Digest(intent)) <==> Performable(Some(tools), s.trace, intent))
  {
    var d, execution := Digest(intent), ExecuteFor(s.trace, tools, cap, intent);
    var ran := s.(trace := execution.trace);
    if IsExecuted(s.trace, d) {
    } else if intent.tool !in tools {
      InertSound(cfg, s, Emit(Event(intent.task, Receipt(d, Refused, None, Because("refused")))));
    } else {
      var called := Add(s, CallHandler(d));
      InertSound(cfg, s, CallHandler(d));
      InertSound(cfg, called, Emit(Event(intent.task, Receipt(d, Executed, None, Because("executed")))));
      PrefixTransitive(s.trace, called.trace, ran.trace);
      assert Created(called.trace, t) && Recorded(called.trace, t) == Recorded(s.trace, t);
    }
    assert Created(ran.trace, t) && Recorded(ran.trace, t) == Recorded(s.trace, t);
    var receipt := StepReceipt(id, execution.outcome.executed, execution.outcome.duplicate);
    InertSound(cfg, ran, Emit(Event(t, receipt)));
    PrefixTransitive(s.trace, ran.trace, Tell(ran, t, receipt).trace);
  }

  /** What committing an authorized gate comes to. */
  ghost predicate CommitDid(cfg: Config, handlers: Handlers, s: GateState, t: TaskId, id: string,
                            intent: ActionIntent, run: Driven)
  {
    && RunnerStep(cfg, s, t, run.now)
    && (Performable(handlers, s.trace, intent) ==>
          && id in Recorded(run.now.trace, t) && IsExecuted(run.now.trace, Digest(intent))
          && OrderedDid(cfg, s, t, run))
    && (!Performable(handlers, s.trace, intent) ==>
          && Recorded(run.now.trace, t) == Recorded(s.trace, t)
          && run.end == Stops(FAILED_RETRYABLE, if handlers.None? then NoExecutor(id) else EffectRefused(id))
          && Publishes(run.now.trace, t, run.end.state, run.end.waiting))
  }

  lemma CommitMeans(cfg: Config, handlers: Handlers, s: GateState, t: TaskId, id: string, gate: Step, cap: Capability,
                    intent: ActionIntent, after: Answers)
    requires Sound(cfg, s) && Created(s.trace, t) && JustGranted(s, cap, intent) && RunOrder(cfg.StepsOf(t)).Some?
    requires FirstById(cfg.StepsOf(t), id) == Some(gate) && gate.kind.HumanGate?
    requires Digest(intent) == GateDigest(cfg, s.trace, t, gate)
    ensures CommitDid(cfg, handlers, s, t, id, intent, CommitFor(cfg, handlers, s, t, id, cap, intent, after))
  {
    var run := CommitFor(cfg, handlers, s, t, id, cap, intent, after);
    if handlers.None? {
      PublishMeans(cfg, s, t, FAILED_RETRYABLE, NoExecutor(id));
    } else {
      var told := EffectFor(s, t, id, handlers.value, cap, intent);
      EffectMeans(cfg, s, t, id, handlers.value, cap, intent);
      if Performable(handlers, s.trace, intent) {
        RecordedGateMeans(cfg, s, t, id, gate, intent, told, after);
      } else {
        PublishMeans(cfg, told, t, FAILED_RETRYABLE, EffectRefused(id));
      }
      RunnerStepsCompose(cfg, s, t, told, run.now);
    }
  }

  lemma RecordedGateMeans(cfg: Config, s: GateState, t: TaskId, id: string, gate: Step, intent: ActionIntent,
                          told: GateState, after: Answers)
    requires RunnerStep(cfg, s, t, told) && Recorded(told.trace, t) == Recorded(s.trace, t)
    requires FirstById(cfg.StepsOf(t), id) == Some(gate) && gate.kind.HumanGate? && RunOrder(cfg.StepsOf(t)).Some?
    requires Digest(intent) == GateDigest(cfg, s.trace, t, gate) && IsExecuted(told.trace, Digest(intent))
    ensures var recorded := Tell(told, t, StepSucceeded(id, AUTHORIZED));
      var run := ResumeFor(cfg, recorded, t, after);
      && CallDid(cfg, recorded, t, run) && RunnerStep(cfg, told, t, run.now)
      && id in Recorded(run.now.trace, t) && IsExecuted(run.now.trace, Digest(intent))
      && (run.end.Fails? ==> StepFails(cfg, run.now.trace, t, run.end.failure))
  {
    var recorded := Tell(told, t, StepSucceeded(id, AUTHORIZED));
    var run := ResumeFor(cfg, recorded, t, after);
    InertSound(cfg, told, Emit(Event(t, StepSucceeded(id, AUTHORIZED))));
    assert RunnerStep(cfg, told, t, recorded) && id in Recorded(recorded.trace, t);
    assert IsExecuted(recorded.trace, Digest(intent));
    ResumeMeans(cfg, recorded, t, after);
    RunnerStepsCompose(cfg, told, t, recorded, run.now);
    RecordedStays(recorded.trace, run.now.trace, t);
    ExecutedStays(recorded.trace, run.now.trace, Digest(intent));
  }

  /** The state in which an assertion reaches the gateway, when it does. */
  ghost predicate Asked(cfg: Config, s: GateState, t: TaskId, id: string, call: Approving) {
    ResumeFor(cfg, s, t, call.before).end.Stops? && GateFirst(cfg.StepsOf(t), id)
  }

  function SubmissionOf(cfg: Config, s: GateState, t: TaskId, id: string, call: Approving): GateStep
    requires GateFirst(cfg.StepsOf(t), id)
  {
    var resumed := ResumeFor(cfg, s, t, call.before).now;
    Submitted(cfg, resumed, GateDigest(cfg, resumed.trace, t, FirstById(cfg.StepsOf(t), id).value).of, call.sub)
  }

  /** The call completes the quorum and the effect is or was performed, so the gate is recorded. */
  ghost predicate Commits(cfg: Config, handlers: Handlers, s: GateState, t: TaskId, id: string, call: Approving) {
    && Asked(cfg, s, t, id, call)
    && var resumed := ResumeFor(cfg, s, t, call.before).now;
       var step := SubmissionOf(cfg, s, t, id, call);
       && step.outcome.decision == Granted
       && Performable(handlers, step.state.trace,
                      GateDigest(cfg, resumed.trace, t, FirstById(cfg.StepsOf(t), id).value).of)
  }

  lemma AskedMeans(cfg: Config, s: GateState, t: TaskId, id: string, call: Approving)
    requires Sound(cfg, s) && Created(s.trace, t) && Asked(cfg, s, t, id, call)
    ensures var step, resumed := SubmissionOf(cfg, s, t, id, call), ResumeFor(cfg, s, t, call.before);
      && RunnerStep(cfg, s, t, step.state) && RunOrder(cfg.StepsOf(t)).Some?
      && Recorded(step.state.trace, t) == Recorded(resumed.now.trace, t)
      && StateOf(step.state.trace, t) == StateOf(resumed.now.trace, t) == resumed.end.state
  {
    var resumed := ResumeFor(cfg, s, t, call.before);
    var d := GateDigest(cfg, resumed.now.trace, t, FirstById(cfg.StepsOf(t), id).value);
    ResumeMeans(cfg, s, t, call.before);
    SubmittedSound(cfg, resumed.now, d.of, call.sub);
    var step := SubmissionOf(cfg, s, t, id, call);
    GatedKeeps(resumed.now.trace, step.state.trace, t, id, d);
    PrefixTransitive(s.trace, resumed.now.trace, step.state.trace);
  }

  /** What `approve_step` comes to, from any sound state: the gate stays parked until the assertion
  completes the quorum; then it is committed, unless there is no way to perform its effect. */
  lemma ApproveMeans(cfg: Config, handlers: Handlers, s: GateState, t: TaskId, id: string, call: Approving)
    requires Sound(cfg, s) && Created(s.trace, t)
    ensures var run := ApproveFor(cfg, handlers, s, t, id, call);
      && RunnerStep(cfg, s, t, run.now)
      && (Commits(cfg, handlers, s, t, id, call) ==> id in Recorded(run.now.trace, t))
      && (Asked(cfg, s, t, id, call) ==>
            var step, resumed := SubmissionOf(cfg, s, t, id, call), ResumeFor(cfg, s, t, call.before);
            && (step.outcome.decision != Granted ==>
                 run == Driven(step.state, Stops(WAITING_FOR_HUMAN, OnApproval(id))))
            && (step.outcome.decision == Granted ==>
                  CommitDid(cfg, handlers, step.state, t, id,
                            GateDigest(cfg, resumed.now.trace, t, FirstById(cfg.StepsOf(t), id).value).of, run)))
  {
    var resumed, run := ResumeFor(cfg, s, t, call.before), ApproveFor(cfg, handlers, s, t, id, call);
    if Asked(cfg, s, t, id, call) {
      var gate := FirstById(cfg.StepsOf(t), id).value;
      var intent := GateDigest(cfg, resumed.now.trace, t, gate).of;
      var step := SubmissionOf(cfg, s, t, id, call);
      AskedMeans(cfg, s, t, id, call);
      GrantIsFresh(cfg, resumed.now, intent, call.sub);
      if step.outcome.decision == Granted {
        CommitMeans(cfg, handlers, step.state, t, id, gate, step.outcome.capability.value, intent, call.after);
        RunnerStepsCompose(cfg, s, t, step.state, run.now);
      }
    } else {
      ResumeMeans(cfg, s, t, call.before);
    }
  }

  /** When the caller is told a state, it is the ledger's exactly if the quorum was completed or the
  task waits for a human anyway: below the quorum the handle says WAITING_FOR_HUMAN in any case. */
  lemma ApproveAgreesIff(cfg: Config, handlers: Handlers, s: GateState, t: TaskId, id: string, call: Approving)
    requires Sound(cfg, s) && Created(s.trace, t) && ApproveFor(cfg, handlers, s, t, id, call).end.Stops?
    ensures var run := ApproveFor(cfg, handlers, s, t, id, call);
      && Asked(cfg, s, t, id, call)
      && (run.end.state == StateOf(run.now.trace, t) <==>
            || SubmissionOf(cfg, s, t, id, call).outcome.decision == Granted
            || ResumeFor(cfg, s, t, call.before).end.state == WAITING_FOR_HUMAN)
  {
    ApproveMeans(cfg, handlers, s, t, id, call);
    AskedMeans(cfg, s, t, id, call);
  }
}
