/** The records every part of the control plane shares: workflow steps, action policies
(`comcmd/gateway/policy.py`, `comcmd/spec/models.py`), intents (`comcmd/gateway/intents.py`) and
ledger events (`comcmd/kernel/records.py`). One company is modelled, so its name is left out. */
module Records {
  import opened Aggregation
  import opened Graphs

  datatype Option<+T> = None | Some(value: T)

  datatype Failure =
    | Crashed                         // the process died, or a call raised
    | UnknownWorkflow
    | NotAGate
    | CycleAtRuntime
    | MissingStep                     // KeyError in the dependency order
    | MissingTarget                   // IndexError: a verify step that needs nothing
    | NoWorkers                       // ValueError: a pool for no candidates or verifiers
    | StepFailed(step: string)

  datatype Outcome = Pass | Fail(failure: Failure) {
    predicate IsFailure() { Fail? }
    function PropagateFailure<T>(): Result<T>
      requires Fail?
    {
      Failed(failure)
    }
  }

  datatype Result<+T> = Done(value: T) | Failed(failure: Failure) {
    predicate IsFailure() { Failed? }
    function PropagateFailure<U>(): Result<U>
      requires Failed?
    {
      Failed(failure)
    }
    function Extract(): T
      requires Done?
    {
      value
    }
  }

  // ---- Workflows ---------------------------------------------------------------------------

  type Inputs = map<string, Value>

  /** `content_id("task", ...)` of workflow and inputs within one revision: collision-free, so
  it is modelled as the pair itself. */
  datatype TaskId = TaskId(workflow: string, inputs: Inputs)

  datatype StepKind =
    | Work
    | HumanGate(policy: string)
    | Fanout(width: int, how: How, key: string, scoreKey: string)
    | Verify(verifiers: int, verifyQuorum: Option<int>)

  datatype Step = Step(id: string, kind: StepKind, runAs: Option<string>, needs: seq<string>, loopBound: Option<int>)

  datatype Role = Role(modelProfile: Option<string>, tools: seq<string>)

  /** `{s["id"]: s for s in steps}`: the last declaration of an id. */
  function ById(steps: seq<Step>): (r: map<string, Step>)
    ensures forall id :: id in r ==> r[id].id == id
    ensures forall id :: id in r <==> exists i :: 0 <= i < |steps| && steps[i].id == id
  {
    if steps == [] then map[]
    else
      var before, last := ById(steps[..|steps| - 1]), steps[|steps| - 1];
      assert forall i :: 0 <= i < |steps| - 1 ==> steps[i] == steps[..|steps| - 1][i];
      before[last.id := last]
  }

  function Needs(steps: seq<Step>): Graph {
    var byId := ById(steps);
    map id | id in byId :: byId[id].needs
  }

  function Ids(steps: seq<Step>): (r: seq<string>)
    ensures |r| == |steps| && forall i :: 0 <= i < |r| ==> r[i] == steps[i].id
  {
    seq(|steps|, i requires 0 <= i < |steps| => steps[i].id)
  }

  lemma IdsAreNodes(steps: seq<Step>)
    ensures forall x :: x in Ids(steps) <==> x in Needs(steps)
  {
    forall x ensures x in Ids(steps) <==> x in Needs(steps) {
      if x in Ids(steps) { var i :| 0 <= i < |steps| && Ids(steps)[i] == x; }
      if x in Needs(steps) { var i :| 0 <= i < |steps| && steps[i].id == x; assert Ids(steps)[i] == x; }
    }
  }

  /** `next(s for s in steps if s["id"] == id)`: the first declaration. */
  function FirstById(steps: seq<Step>, id: string): Option<Step> {
    if steps == [] then None
    else if steps[0].id == id then Some(steps[0])
    else FirstById(steps[1..], id)
  }

  // ---- Action policies ---------------------------------------------------------------------

  datatype Risk = Observe | BoundedInternal | ExternalReversible | Consequential | Prohibited

  datatype Tier = A0 | A1 | A2 | A3 | A4

  function Classify(risk: Risk): Tier {
    match risk
    case Observe => A0
    case BoundedInternal => A1
    case ExternalReversible => A2
    case Consequential => A3
    case Prohibited => A4
  }

  const AUTO_TIERS := {A0, A1}
  const APPROVAL_TIERS := {A2, A3}

  function TierRequires(tier: Tier): string {
    if tier == A3 then "hardware_passkey" else "passkey"
  }

  datatype Approval = Approval(roles: set<string>, quorum: int, ttl: real)

  datatype Action = Action(id: string, tool: string, risk: Risk, approval: Option<Approval>)

  datatype Bounds = Bounds(maxAmount: Option<real>, maxCalls: Option<int>) {
    predicate Within(amount: Option<real>, callsSoFar: nat) {
      && (maxAmount.Some? && amount.Some? ==> amount.value <= maxAmount.value)
      && (maxCalls.Some? ==> callsSoFar < maxCalls.value)
    }
  }

  // ---- Intents -----------------------------------------------------------------------------

  datatype Args =
    | GateArgs(gate: string, inputs: Inputs, upstream: map<string, Option<Artifact>>)
    | WorkerArgs(args: map<string, Value>)

  datatype ActionIntent = ActionIntent(
    task: TaskId, step: string, requestedBy: string, actionId: string, tool: string,
    target: Option<TaskId>, amount: Option<real>, args: Args)

  /** The digest of an intent's canonical form: collision-free, so it is the intent, wrapped. */
  datatype Digest = Digest(of: ActionIntent)

  datatype Capability = Capability(tier: Tier, digest: Digest, tool: string)

  // ---- Events ------------------------------------------------------------------------------

  datatype TaskState = READY | WAITING_FOR_HUMAN | SUCCEEDED | FAILED_RETRYABLE

  datatype Waiting =
    | NotWaiting
    | OnGate(step: string, policy: string, digest: Digest)
    | OnVerify(step: string, approvals: nat, verifiers: int)
    | OnWorker(step: string, artifact: Option<Artifact>)
    | OnApproval(step: string)
    | EffectRefused(step: string)
    | NoExecutor(step: string)

  datatype Verdict = Authorized | RequireApproval | Deny | Executed | Refused

  datatype Reason = ApprovedBy(approvers: set<string>) | Auto | Because(text: string)

  datatype Payload =
    | TaskCreated(workflow: string, inputs: Inputs)
    | StateChanged(state: TaskState, waiting: Waiting)
    | StepStarted(step: string)
    | StepSucceeded(step: string, artifact: Artifact)
    | ArtifactWritten(step: string, artifact: Artifact)
    | ApprovalRequested(digest: Digest)
    | ApprovalResolved(approved: bool, principal: Option<string>)
    | Receipt(digest: Digest, verdict: Verdict, tier: Option<Tier>, reason: Reason)   // of gateway or executor
    | StepReceipt(step: string, executed: bool, duplicate: bool)             // of the runner

  datatype Event = Event(task: TaskId, payload: Payload)

  /** The artifact a gate step is recorded with. */
  const AUTHORIZED: Artifact := map["authorized" := Flag(true)]

  /** `artifact or {}`. */
  function OrEmpty(a: Option<Artifact>): Artifact {
    if a.Some? then a.value else map[]
  }

  function Find<V>(m: map<string, V>, key: string): Option<V> {
    if key in m then Some(m[key]) else None
  }

  lemma SubsetSize(a: set<string>, b: set<string>)
    requires a <= b
    ensures |a| <= |b|
  {
    assert b == a + (b - a);
  }
}
