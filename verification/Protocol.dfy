/** The protocol that the runner, the gateway and the executor follow together.

A trace lists, oldest first, every ledger append and every other step that can have an effect
outside the process: worker runs, handler calls, changes of approval records, and restarts. A
crash can come between any two of them, so every initial part of a run is a run as well.
`Legal` says of each step that the code takes it only when it is allowed. The classes of
Gateway.dfy, Executor.dfy and Workflow.dfy prove that they take legal steps only; Theorems.dfy
proves what follows for all legal traces. */
module Protocol {
  import opened Records
  import opened Aggregation
  import opened Graphs
  import opened DependencyOrders

  // ---- Configuration -----------------------------------------------------------------------

  datatype Extra =
    | Plain
    | Candidate(index: nat, of: int)
    | Verifier(index: nat, of: int, target: Artifact)

  datatype Envelope = Envelope(
    task: TaskId, step: string, role: string, modelProfile: Option<string>, inputs: Inputs, extra: Extra,
    upstream: map<string, Option<Artifact>>, allowedTools: seq<string>)

  /** A compiled revision and its worker, whose artifact is a function of the envelope. Whether a
  run succeeds, defers or fails, and which intents it emits, is left open at every run. */
  datatype Config = Config(
    workflows: map<string, seq<Step>>,
    roles: map<string, Role>,
    actions: map<string, Action>,
    bounds: map<string, Bounds>,
    show: Value -> string,
    work: Envelope -> Option<Artifact>)
  {
    /** `{a.id: a for a in actions}`. */
    ghost predicate Keyed() {
      forall a <- actions :: actions[a].id == a
    }

    function StepsOf(t: TaskId): seq<Step> {
      if t.workflow in workflows then workflows[t.workflow] else []
    }

    function TierOf(d: Digest): Option<Tier> {
      if d.of.actionId in actions then Some(Classify(actions[d.of.actionId].risk)) else None
    }

    function ApprovalOf(d: Digest): Option<Approval> {
      if d.of.actionId in actions then actions[d.of.actionId].approval else None
    }

    function Eligible(d: Digest): set<string> {
      var approval := ApprovalOf(d);
      if approval.Some? then approval.value.roles else {}
    }

    /** Enough principals are eligible to approve the action. */
    predicate Approvable(d: Digest) {
      && TierOf(d).Some? && TierOf(d).value in APPROVAL_TIERS
      && Eligible(d) != {} && Quorum(d) <= |Eligible(d)|
      && (TierOf(d) == Some(A3) ==> Quorum(d) >= 2)
    }

    function Quorum(d: Digest): int {
      var approval := ApprovalOf(d);
      if approval.Some? then approval.value.quorum else 1
    }
  }

  // ---- The value of a step -----------------------------------------------------------------

  function Upstream(artifacts: map<string, Artifact>, needs: seq<string>): map<string, Option<Artifact>> {
    map n | n in needs :: Find(artifacts, n)
  }

  lemma UpstreamAgrees(a: map<string, Artifact>, b: map<string, Artifact>, needs: seq<string>)
    requires forall n <- needs :: Find(a, n) == Find(b, n)
    ensures Upstream(a, needs) == Upstream(b, needs)
  {
  }

  function EnvelopeFor(cfg: Config, t: TaskId, step: Step, inputs: Inputs, extra: Extra,
                       up: map<string, Option<Artifact>>): Envelope
  {
    var roleId := if step.runAs.Some? then step.runAs.value else "";
    var role := if step.runAs.Some? && roleId in cfg.roles then cfg.roles[roleId] else Role(None, []);
    Envelope(t, step.id, roleId, role.modelProfile, inputs, extra, up, role.tools)
  }

  function Truthy(v: Value): bool {
    match v
    case Null => false
    case Flag(b) => b
    case Number(n) => n != 0.0
    case Text(s) => s != ""
    case Tally(counts) => counts != map[]
    case Opaque(_) => true
  }

  /** The first `k` of `width` candidates. */
  function Candidates(cfg: Config, t: TaskId, step: Step, up: map<string, Option<Artifact>>, k: nat,
                      width: int): (r: seq<Artifact>)
    ensures |r| == k
    ensures forall i :: 0 <= i < k ==>
      r[i] == OrEmpty(cfg.work(EnvelopeFor(cfg, t, step, t.inputs, Candidate(i, width), up)))
  {
    if k == 0 then []
    else
      Candidates(cfg, t, step, up, k - 1, width)
        + [OrEmpty(cfg.work(EnvelopeFor(cfg, t, step, t.inputs, Candidate(k - 1, width), up)))]
  }

  predicate ApprovedByVerifier(cfg: Config, t: TaskId, step: Step, up: map<string, Option<Artifact>>, i: nat, m: int,
                               target: Artifact)
  {
    Truthy(Get(OrEmpty(cfg.work(EnvelopeFor(cfg, t, step, t.inputs, Verifier(i, m, target), up))), "approve"))
  }

  /** How many of the first `k` of `m` verifiers approve. */
  function ApprovingVerifiers(cfg: Config, t: TaskId, step: Step, up: map<string, Option<Artifact>>, k: nat, m: int,
                              target: Artifact): (r: nat)
    ensures r <= k
  {
    if k == 0 then 0
    else
      ApprovingVerifiers(cfg, t, step, up, k - 1, m, target)
        + if ApprovedByVerifier(cfg, t, step, up, k - 1, m, target) then 1 else 0
  }

  function TargetArtifact(step: Step, up: map<string, Option<Artifact>>): Artifact {
    if step.needs != [] && step.needs[0] in up then OrEmpty(up[step.needs[0]]) else map[]
  }

  /** `int(step.get("verifyQuorum") or 1)`. */
  function VerifyQuorum(q: Option<int>): int {
    if q.Some? && q.value != 0 then q.value else 1
  }

  function Verdicts(step: Step, approvals: nat, m: int, quorum: int): Artifact {
    map["verified" := Flag(approvals >= quorum), "approvals" := Number(approvals as real),
        "verifiers" := Number(m as real), "quorum" := Number(quorum as real),
        "target" := if step.needs == [] then Null else Text(step.needs[0])]
  }

  /** The artifact a step is worth, given the artifacts of the steps it needs. */
  function StepValue(cfg: Config, t: TaskId, step: Step, up: map<string, Option<Artifact>>): Artifact {
    match step.kind
    case Work => OrEmpty(cfg.work(EnvelopeFor(cfg, t, step, t.inputs, Plain, up)))
    case HumanGate(_) => AUTHORIZED
    case Fanout(width, how, key, scoreKey) =>
      Aggregated(Candidates(cfg, t, step, up, if width > 0 then width else 0, width), how, key, scoreKey, cfg.show)
    case Verify(m, q) =>
      var approvals := ApprovingVerifiers(cfg, t, step, up, if m > 0 then m else 0, m, TargetArtifact(step, up));
      Verdicts(step, approvals, m, VerifyQuorum(q))
  }

  predicate Passed(step: Step, artifact: Artifact) {
    step.kind.Verify? ==> Get(artifact, "verified") == Flag(true)
  }

  /** `_gate_intent`, from the recorded inputs and the artifacts in hand. */
  function GateIntent(cfg: Config, t: TaskId, step: Step, inputs: Inputs,
                      up: map<string, Option<Artifact>>): ActionIntent
    requires step.kind.HumanGate?
  {
    var tool := if step.kind.policy in cfg.actions then cfg.actions[step.kind.policy].tool else "";
    ActionIntent(t, step.id, "workflow:" + t.workflow, step.kind.policy, tool, Some(t), None,
        GateArgs(step.id, inputs, up))
  }

  // ---- Traces ------------------------------------------------------------------------------

  datatype Act =
    | Emit(event: Event)
    | RunWorker(task: TaskId, step: string)
    | OpenRecord(digest: Digest, tier: Tier)
    | Verified(digest: Digest, principal: string)       // the verifier vouches for an approver
    | CountApprover(digest: Digest, principal: string)
    | RetireRecord(digest: Digest)
    | CallHandler(digest: Digest)
    | Restart(recordsKept: bool)                        // approval records survive in Postgres only

  datatype Trace = Start | Then(before: Trace, act: Act)

  ghost predicate Prefix(p: Trace, tr: Trace) {
    p == tr || (tr.Then? && Prefix(p, tr.before))
  }

  lemma {:induction false} PrefixTransitive(p: Trace, q: Trace, tr: Trace)
    requires Prefix(p, q) && Prefix(q, tr)
    ensures Prefix(p, tr)
    decreases tr
  {
    if q != tr {
      PrefixTransitive(p, q, tr.before);
    }
  }

  function Log(tr: Trace): seq<Event> {
    match tr
    case Start => []
    case Then(before, act) => if act.Emit? then Log(before) + [act.event] else Log(before)
  }

  /** The artifacts recorded for a task. */
  function Recorded(tr: Trace, t: TaskId): map<string, Artifact> {
    match tr
    case Start => map[]
    case Then(before, act) =>
      if act.Emit? && act.event.task == t && act.event.payload.StepSucceeded? then
        Recorded(before, t)[act.event.payload.step := act.event.payload.artifact]
      else Recorded(before, t)
  }

  predicate Created(tr: Trace, t: TaskId) {
    tr.Then? && ((tr.act.Emit? && tr.act.event.task == t && tr.act.event.payload.TaskCreated?) || Created(tr.before, t))
  }

  function StateOf(tr: Trace, t: TaskId): TaskState {
    match tr
    case Start => READY
    case Then(before, act) =>
      if act.Emit? && act.event.task == t && act.event.payload.StateChanged? then act.event.payload.state
      else StateOf(before, t)
  }

  /** How often a step's worker has run since the step was last started; None if it never was. */
  function Runs(tr: Trace, t: TaskId, s: string): Option<nat> {
    match tr
    case Start => None
    case Then(before, act) =>
      var runs := Runs(before, t, s);
      if act.Emit? && act.event == Event(t, StepStarted(s)) then Some(0)
      else if act == RunWorker(t, s) && runs.Some? then Some(runs.value + 1)
      else runs
  }

  /** How many worker runs a step takes. */
  function RunsOf(step: Step): int {
    match step.kind
    case Work => 1
    case HumanGate(_) => 0
    case Fanout(width, _, _, _) => width
    case Verify(m, _) => m
  }

  predicate IsReceipt(act: Act, d: Digest, v: Verdict) {
    act.Emit? && act.event.payload.Receipt? && act.event.payload.digest == d && act.event.payload.verdict == v
  }

  predicate IsApproval(act: Act, d: Digest) {
    IsReceipt(act, d, Authorized) && act.event.payload.reason.ApprovedBy?
  }

  predicate IsExecuted(tr: Trace, d: Digest) {
    tr.Then? && (IsReceipt(tr.act, d, Executed) || IsExecuted(tr.before, d))
  }

  /** The approvers counted so far on the open record of `d`; None when no record is open. */
  function Live(tr: Trace, d: Digest): Option<set<string>> {
    match tr
    case Start => None
    case Then(before, OpenRecord(e, _)) => if e == d then Some({}) else Live(before, d)
    case Then(before, CountApprover(e, p)) =>
      var live := Live(before, d);
      if e == d && live.Some? then Some(live.value + {p}) else live
    case Then(before, RetireRecord(e)) => if e == d then None else Live(before, d)
    case Then(before, Restart(kept)) => if kept then Live(before, d) else None
    case Then(before, _) => Live(before, d)
  }

  predicate IsBoundedAuto(act: Act, actionId: string) {
    act.Emit? && act.event.payload.Receipt? && act.event.payload.verdict == Authorized
    && act.event.payload.reason.Auto? && act.event.payload.tier == Some(A1)
    && act.event.payload.digest.of.actionId == actionId
  }

  /** How often the handler was called for `d`. */
  function Calls(tr: Trace, d: Digest): nat {
    if tr.Start? then 0 else Calls(tr.before, d) + if tr.act == CallHandler(d) then 1 else 0
  }

  /** A1 auto-authorizations of an action since the gateway was last started. */
  function Autos(tr: Trace, actionId: string): nat {
    match tr
    case Start => 0
    case Then(before, act) =>
      if act.Restart? then 0 else Autos(before, actionId) + if IsBoundedAuto(act, actionId) then 1 else 0
  }

  // ---- Legality ----------------------------------------------------------------------------

  /** The order the runner works in, when the steps can be ordered. */
  function RunOrder(steps: seq<Step>): Option<seq<string>> {
    match OrderAll(Needs(steps), Ids(steps))
    case Ordered(order) => Some(order)
    case _ => None
  }

  /** All steps that come before `s` in the runner's order are in `done`. */
  predicate Turn(steps: seq<Step>, done: set<string>, s: string) {
    RunOrder(steps).Some? &&
    var order := RunOrder(steps).value;
    s in order && forall j :: 0 <= j < IndexOf(order, s) ==> order[j] in done
  }

  /** A step may be worked on: the task exists, the step is not recorded, and all steps that come
  before it are, all it needs among them. The runner works with the last declaration of an id. */
  predicate Ready(cfg: Config, tr: Trace, t: TaskId, s: string) {
    var byId := ById(cfg.StepsOf(t));
    && Created(tr, t)
    && s in byId && !byId[s].kind.HumanGate?
    && s !in Recorded(tr, t)
    && (forall n <- byId[s].needs :: n in Recorded(tr, t))
    && Turn(cfg.StepsOf(t), Recorded(tr, t).Keys, s)
  }

  function GateDigest(cfg: Config, tr: Trace, t: TaskId, gate: Step): Digest
    requires gate.kind.HumanGate?
  {
    Digest(GateIntent(cfg, t, gate, t.inputs, Upstream(Recorded(tr, t), gate.needs)))
  }

  /** `approve_step` works with the first declaration of an id, after a resume that could order the
  steps. */
  predicate GateExecuted(cfg: Config, tr: Trace, t: TaskId, s: string) {
    var gate := FirstById(cfg.StepsOf(t), s);
    && Created(tr, t) && RunOrder(cfg.StepsOf(t)).Some?
    && gate.Some? && gate.value.kind.HumanGate?
    && IsExecuted(tr, GateDigest(cfg, tr, t, gate.value))
  }

  predicate WorkersRan(cfg: Config, tr: Trace, t: TaskId, s: string) {
    var byId := ById(cfg.StepsOf(t));
    s in byId && RunsOf(byId[s]) > 0 && Runs(tr, t, s).Some? && Runs(tr, t, s).value == RunsOf(byId[s])
  }

  predicate LacksTarget(step: Step) {
    step.kind.Verify? && step.needs == []
  }

  predicate StepDone(cfg: Config, tr: Trace, t: TaskId, s: string, artifact: Artifact) {
    var byId := ById(cfg.StepsOf(t));
    && Ready(cfg, tr, t, s)
    && WorkersRan(cfg, tr, t, s) && !LacksTarget(byId[s])
    && artifact == StepValue(cfg, t, byId[s], Upstream(Recorded(tr, t), byId[s].needs))
    && Passed(byId[s], artifact)
  }

  predicate QuorumReached(cfg: Config, tr: Trace, d: Digest, approvers: set<string>) {
    && tr.Then? && tr.act == RetireRecord(d) && Live(tr.before, d) == Some(approvers)
    && cfg.TierOf(d).Some? && cfg.TierOf(d).value in APPROVAL_TIERS
    && |approvers| >= cfg.Quorum(d)
  }

  predicate WithinEnvelope(cfg: Config, tr: Trace, d: Digest, tier: Option<Tier>) {
    && cfg.TierOf(d).Some? && cfg.TierOf(d).value in AUTO_TIERS && tier == cfg.TierOf(d)
    && cfg.actions[d.of.actionId].tool == d.of.tool
    && (tier == Some(A1) && d.of.actionId in cfg.bounds ==>
          cfg.bounds[d.of.actionId].Within(d.of.amount, Autos(tr, d.of.actionId)))
  }

  predicate LegalEvent(cfg: Config, tr: Trace, e: Event) {
    match e.payload
    case TaskCreated(workflow, inputs) =>
      e.task == TaskId(workflow, inputs) && workflow in cfg.workflows && !Created(tr, e.task)
    case StateChanged(state, _) =>
      Created(tr, e.task) && (state == SUCCEEDED ==> forall s <- ById(cfg.StepsOf(e.task)) :: s in Recorded(tr, e.task))
    case StepStarted(s) => Ready(cfg, tr, e.task, s)
    case StepSucceeded(s, artifact) =>
      (artifact == AUTHORIZED && GateExecuted(cfg, tr, e.task, s)) || StepDone(cfg, tr, e.task, s, artifact)
    case ArtifactWritten(s, _) => Ready(cfg, tr, e.task, s)
    case ApprovalRequested(_) => true
    case ApprovalResolved(_, _) => true
    case Receipt(d, Authorized, tier, Auto) => WithinEnvelope(cfg, tr, d, tier)
    case Receipt(d, Authorized, tier, ApprovedBy(approvers)) => QuorumReached(cfg, tr, d, approvers)
    case Receipt(d, Authorized, _, Because(_)) => false
    case Receipt(d, Executed, _, _) => tr.Then? && tr.act == CallHandler(d)
    case Receipt(_, _, _, _) => true
    case StepReceipt(_, _, _) => true
  }

  predicate LegalAct(cfg: Config, tr: Trace, act: Act) {
    match act
    case Emit(e) => LegalEvent(cfg, tr, e)
    case RunWorker(t, s) => Ready(cfg, tr, t, s) && Runs(tr, t, s).Some?
    case OpenRecord(d, tier) =>
      && cfg.Eligible(d) != {}
      && cfg.TierOf(d).Some? && (tier == cfg.TierOf(d).value || (tier == A2 && cfg.TierOf(d).value == A1))
      && (tier == A3 ==> cfg.Quorum(d) >= 2)
    case Verified(_, _) => true
    case CountApprover(d, p) =>
      && Live(tr, d).Some? && p !in Live(tr, d).value && p in cfg.Eligible(d)
      && tr.Then? && tr.act.Emit? && tr.act.event.payload == ApprovalResolved(true, Some(p))
      && tr.before.Then? && tr.before.act == Verified(d, p)
    case RetireRecord(_) => true
    case CallHandler(d) => tr.Then? && IsApproval(tr.act, d) && !IsExecuted(tr, d)
    case Restart(_) => true
  }

  predicate Legal(cfg: Config, tr: Trace) {
    tr.Then? ==> Legal(cfg, tr.before) && LegalAct(cfg, tr.before, tr.act)
  }

  // ---- Ids that are declared twice ---------------------------------------------------------

  predicate GateFirst(steps: seq<Step>, s: string) {
    FirstById(steps, s).Some? && FirstById(steps, s).value.kind.HumanGate?
  }

  predicate GateLast(steps: seq<Step>, s: string) {
    s in ById(steps) && ById(steps)[s].kind.HumanGate?
  }

  /** A step that some run of its workers completes. */
  predicate CanSucceed(step: Step) {
    match step.kind
    case Work => true
    case HumanGate(_) => false
    case Fanout(n, _, _, _) => n > 0
    case Verify(m, q) => step.needs != [] && m > 0 && VerifyQuorum(q) <= m
  }

  /** The id is declared last as a step that working on it can complete. */
  predicate WorkLast(steps: seq<Step>, s: string) {
    s in ById(steps) && CanSucceed(ById(steps)[s])
  }

  /** No run ever records such an id: `approve_step` does not take it for a gate, and working on it
  comes to nothing. */
  predicate Stuck(steps: seq<Step>, s: string) {
    !GateFirst(steps, s) && !WorkLast(steps, s)
  }

  /** Of the ids that can be reached, none is declared first as a gate and last as a step that working
  on it can complete. So it is when ids are unique, which neither the compiler nor the runner checks. */
  predicate GatesSettled(steps: seq<Step>) {
    RunOrder(steps).Some? ==>
      forall k :: 0 <= k < |RunOrder(steps).value| ==> SettledAt(steps, RunOrder(steps).value, k)
  }

  predicate SettledAt(steps: seq<Step>, order: seq<string>, k: nat)
    requires k < |order|
  {
    (forall j :: 0 <= j < k ==> !Stuck(steps, order[j])) && GateFirst(steps, order[k]) ==> !WorkLast(steps, order[k])
  }
}
