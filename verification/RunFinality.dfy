/** The records of a compiled workflow over whole runs of one task: new processes, resumes and
approvals in any order, none of them cut short (`comcmd/kernel/workflow.py`). */
module RunFinality {
  import opened Records
  import opened Protocol
  import opened Theorems
  import opened Journals
  import opened Gateways
  import opened GateHistories
  import opened GateRuns
  import opened Runners
  import opened GateLimits
  import opened Finality
  import opened Compilation

  // ---- Runs --------------------------------------------------------------------------------

  /** A new process whose approval store starts empty, `resume`, and `approve_step`. */
  datatype Call = Renew | Resume(answers: Answers) | Approve(id: string, call: Approving)

  function Perform(cfg: Config, handlers: Handlers, s: GateState, t: TaskId, c: Call): GateState {
    match c
    case Renew => Restarted(s.trace)
    case Resume(answers) => ResumeFor(cfg, s, t, answers).now
    case Approve(id, call) => ApproveFor(cfg, handlers, s, t, id, call).now
  }

  function Run(cfg: Config, handlers: Handlers, s: GateState, t: TaskId, calls: seq<Call>): GateState {
    if calls == [] then s
    else Perform(cfg, handlers, Run(cfg, handlers, s, t, calls[..|calls| - 1]), t, calls[|calls| - 1])
  }

  lemma {:induction false} RunAfter(cfg: Config, handlers: Handlers, s: GateState, t: TaskId, a: seq<Call>,
                                    b: seq<Call>)
    ensures Run(cfg, handlers, s, t, a + b) == Run(cfg, handlers, Run(cfg, handlers, s, t, a), t, b)
    decreases |b|
  {
    if b == [] {
      assert a + b == a;
    } else {
      assert (a + b)[..|a + b| - 1] == a + b[..|b| - 1];
      RunAfter(cfg, handlers, s, t, a, b[..|b| - 1]);
    }
  }

  ghost predicate InRun(cfg: Config, s: GateState, t: TaskId) {
    Sound(cfg, s) && Created(s.trace, t)
  }

  lemma PerformBegun(cfg: Config, handlers: Handlers, s: GateState, t: TaskId, c: Call)
    requires InRun(cfg, s, t)
    ensures InRun(cfg, Perform(cfg, handlers, s, t, c), t) && Prefix(s.trace, Perform(cfg, handlers, s, t, c).trace)
  {
    match c
    case Renew =>
      RestartedSound(cfg, s.trace);
      assert Prefix(s.trace, s.trace) && Created(Restarted(s.trace).trace, t);
    case Resume(answers) => ResumeMeans(cfg, s, t, answers);
    case Approve(id, call) => ApproveMeans(cfg, handlers, s, t, id, call);
  }

  lemma {:induction false} RunBegun(cfg: Config, handlers: Handlers, s: GateState, t: TaskId, calls: seq<Call>)
    requires InRun(cfg, s, t)
    ensures InRun(cfg, Run(cfg, handlers, s, t, calls), t) && Prefix(s.trace, Run(cfg, handlers, s, t, calls).trace)
  {
    if calls == [] {
      assert Prefix(s.trace, s.trace);
    } else {
      var before := Run(cfg, handlers, s, t, calls[..|calls| - 1]);
      RunBegun(cfg, handlers, s, t, calls[..|calls| - 1]);
      PerformBegun(cfg, handlers, before, t, calls[|calls| - 1]);
      PrefixTransitive(s.trace, before.trace, Run(cfg, handlers, s, t, calls).trace);
    }
  }

  function ApprovalCalls(id: string, calls: seq<Approving>): seq<Call> {
    seq(|calls|, i requires 0 <= i < |calls| => Approve(id, calls[i]))
  }

  lemma {:induction false} ApprovalsRun(cfg: Config, handlers: Handlers, s: GateState, t: TaskId, id: string,
                                        calls: seq<Approving>)
    ensures Run(cfg, handlers, s, t, ApprovalCalls(id, calls)) == ApproveAll(cfg, handlers, s, t, id, calls)
  {
    if calls != [] {
      var init := calls[..|calls| - 1];
      assert ApprovalCalls(id, calls)[..|calls| - 1] == ApprovalCalls(id, init);
      ApprovalsRun(cfg, handlers, s, t, id, init);
    }
  }

  function Anew(id: string, calls: seq<Approving>): seq<Call> {
    [Renew] + ApprovalCalls(id, calls)
  }

  lemma AnewRun(cfg: Config, handlers: Handlers, s: GateState, t: TaskId, id: string, calls: seq<Approving>)
    ensures Run(cfg, handlers, s, t, Anew(id, calls)) == ApproveAll(cfg, handlers, Restarted(s.trace), t, id, calls)
  {
    assert [Renew][..0] == [] && Run(cfg, handlers, s, t, []) == s;
    RunAfter(cfg, handlers, s, t, [Renew], ApprovalCalls(id, calls));
    ApprovalsRun(cfg, handlers, Restarted(s.trace), t, id, calls);
  }

  // ---- Records that are not a gate's -------------------------------------------------------

  ghost predicate NotGated(tr: Trace, x: string) {
    x in Recorded(tr, TASK) ==> Recorded(tr, TASK)[x] != AUTHORIZED
  }

  /** What working on the next step comes to. */
  ghost predicate StaysNotGated(steps: seq<Step>, order: seq<string>, i: nat, x: string, y: Stepped) {
    match y
    case GoesOn(now) =>
      InRun(Permissive(steps), now, TASK) && RecordedTo(now.trace, TASK, order, i + 1) && NotGated(now.trace, x)
    case Ends(run) => NotGated(run.now.trace, x)
  }

  lemma StepNotGated(steps: seq<Step>, s: GateState, order: seq<string>, i: nat, a: Answer, x: string)
    requires InRun(Permissive(steps), s, TASK) && RunOrder(steps) == Some(order) && NotGated(s.trace, x)
    requires RecordedTo(s.trace, TASK, order, i) && i < |order| && order[i] !in Recorded(s.trace, TASK)
    requires order[i] in ById(steps)
    ensures StaysNotGated(steps, order, i, x, StepFor(Permissive(steps), s, TASK, ById(steps)[order[i]], a))
  {
    var step := ById(steps)[order[i]];
    TurnOf(Permissive(steps), s.trace, TASK, order, i);
    StepMeans(Permissive(steps), s, TASK, step, a);
    if !step.kind.HumanGate? {
      NotAGatesArtifact(steps, step, Upstream(Recorded(s.trace, TASK), step.needs));
    }
  }

  lemma {:induction false} DriveNotGated(steps: seq<Step>, s: GateState, order: seq<string>, i: nat, answers: Answers,
                                         x: string)
    requires InRun(Permissive(steps), s, TASK) && RunOrder(steps) == Some(order)
    requires RecordedTo(s.trace, TASK, order, i) && NotGated(s.trace, x)
    ensures NotGated(DriveFor(Permissive(steps), s, TASK, order[i..], answers).now.trace, x)
    decreases |order| - i
  {
    if i < |order| {
      assert order[i..][0] == order[i] && order[i..][1..] == order[i + 1..];
      if order[i] in Recorded(s.trace, TASK) {
        DriveNotGated(steps, s, order, i + 1, answers, x);
      } else {
        RunOrderIsRight(steps);
        assert order[i] in order;
        StepNotGated(steps, s, order, i, answers(order[i]), x);
        match StepFor(Permissive(steps), s, TASK, ById(steps)[order[i]], answers(order[i]))
        case GoesOn(now) => DriveNotGated(steps, now, order, i + 1, answers, x);
        case Ends(run) =>
      }
    }
  }

  lemma ResumeNotGated(steps: seq<Step>, s: GateState, answers: Answers, x: string)
    requires InRun(Permissive(steps), s, TASK) && NotGated(s.trace, x)
    ensures NotGated(ResumeFor(Permissive(steps), s, TASK, answers).now.trace, x)
  {
    if RunOrder(steps).Some? {
      var order := RunOrder(steps).value;
      assert order[0..] == order;
      DriveNotGated(steps, s, order, 0, answers, x);
    }
  }

  /** Approving a gate makes no other record a gate's. */
  lemma ApproveNotGated(steps: seq<Step>, handlers: Handlers, s: GateState, id: string, call: Approving, x: string)
    requires InRun(Permissive(steps), s, TASK) && NotGated(s.trace, x) && x != id
    ensures NotGated(ApproveFor(Permissive(steps), handlers, s, TASK, id, call).now.trace, x)
  {
    var cfg := Permissive(steps);
    ResumeNotGated(steps, s, call.before, x);
    if Asked(cfg, s, TASK, id, call) {
      AskedMeans(cfg, s, TASK, id, call);
      if SubmissionOf(cfg, s, TASK, id, call).outcome.decision == Granted {
        GrantedNotGated(steps, handlers, s, id, call, x);
      }
    }
  }

  lemma GrantedNotGated(steps: seq<Step>, handlers: Handlers, s: GateState, id: string, call: Approving, x: string)
    requires InRun(Permissive(steps), s, TASK) && x != id && Asked(Permissive(steps), s, TASK, id, call)
    requires NotGated(ResumeFor(Permissive(steps), s, TASK, call.before).now.trace, x)
    requires SubmissionOf(Permissive(steps), s, TASK, id, call).outcome.decision == Granted
    ensures NotGated(ApproveFor(Permissive(steps), handlers, s, TASK, id, call).now.trace, x)
  {
    var cfg := Permissive(steps);
    var resumed, step := ResumeFor(cfg, s, TASK, call.before).now, SubmissionOf(cfg, s, TASK, id, call);
    var intent := GateDigest(cfg, resumed.trace, TASK, FirstById(steps, id).value).of;
    AskedMeans(cfg, s, TASK, id, call);
    GrantedIsCommitted(cfg, handlers, s, TASK, id, call);
    CommitNotGated(steps, handlers, step.state, id, step.outcome.capability.value, intent, call.after, x);
  }

  lemma TellNotGated(steps: seq<Step>, told: GateState, id: string, answers: Answers, x: string)
    requires InRun(Permissive(steps), told, TASK) && GateExecuted(Permissive(steps), told.trace, TASK, id)
    requires NotGated(told.trace, x) && x != id
    ensures var recorded := Tell(told, TASK, StepSucceeded(id, AUTHORIZED));
      NotGated(ResumeFor(Permissive(steps), recorded, TASK, answers).now.trace, x)
  {
    InertSound(Permissive(steps), told, Emit(Event(TASK, StepSucceeded(id, AUTHORIZED))));
    ResumeNotGated(steps, Tell(told, TASK, StepSucceeded(id, AUTHORIZED)), answers, x);
  }

  lemma CommitNotGated(steps: seq<Step>, handlers: Handlers, s: GateState, id: string, cap: Capability,
                       intent: ActionIntent, after: Answers, x: string)
    requires InRun(Permissive(steps), s, TASK) && NotGated(s.trace, x) && x != id && RunOrder(steps).Some?
    requires JustGranted(s, cap, intent) && GateFirst(steps, id)
    requires Digest(intent) == GateDigest(Permissive(steps), s.trace, TASK, FirstById(steps, id).value)
    ensures NotGated(CommitFor(Permissive(steps), handlers, s, TASK, id, cap, intent, after).now.trace, x)
  {
    var cfg := Permissive(steps);
    if handlers.Some? {
      var told := EffectFor(s, TASK, id, handlers.value, cap, intent);
      EffectMeans(cfg, s, TASK, id, handlers.value, cap, intent);
      if Performable(handlers, s.trace, intent) {
        TellNotGated(steps, told, id, after, x);
      }
    }
  }

  lemma {:induction false} ApproveAllNotGated(steps: seq<Step>, handlers: Handlers, s: GateState, id: string,
                                              calls: seq<Approving>, x: string)
    requires InRun(Permissive(steps), s, TASK) && NotGated(s.trace, x) && x != id
    ensures NotGated(ApproveAll(Permissive(steps), handlers, s, TASK, id, calls).trace, x)
  {
    if calls != [] {
      var init, last := calls[..|calls| - 1], calls[|calls| - 1];
      var before := ApproveAll(Permissive(steps), handlers, s, TASK, id, init);
      ApproveAllNotGated(steps, handlers, s, id, init, x);
      ApproveAllSound(Permissive(steps), handlers, s, TASK, id, init);
      ApproveNotGated(steps, handlers, before, id, last, x);
    }
  }

  // ---- Reaching a step ---------------------------------------------------------------------

  /** A drive gets past a step that goes on. */
  lemma {:induction false} DriveReaches(cfg: Config, s: GateState, t: TaskId, order: seq<string>, i: nat, j: nat,
                                        answers: Answers)
    requires InRun(cfg, s, t) && RunOrder(cfg.StepsOf(t)) == Some(order) && i <= j < |order|
    requires RecordedTo(s.trace, t, order, j) && order[j] !in Recorded(s.trace, t) && order[j] in ById(cfg.StepsOf(t))
    requires StepFor(cfg, s, t, ById(cfg.StepsOf(t))[order[j]], answers(order[j])).GoesOn?
    ensures order[j] in Recorded(DriveFor(cfg, s, t, order[i..], answers).now.trace, t)
    decreases j - i
  {
    if i < j {
      assert order[i..][0] == order[i] && order[i..][1..] == order[i + 1..];
      DriveReaches(cfg, s, t, order, i + 1, j, answers);
    } else {
      DriveRecords(cfg, s, t, order, j, answers);
    }
  }

  lemma DriveRecords(cfg: Config, s: GateState, t: TaskId, order: seq<string>, j: nat, answers: Answers)
    requires InRun(cfg, s, t) && RunOrder(cfg.StepsOf(t)) == Some(order) && j < |order|
    requires RecordedTo(s.trace, t, order, j) && order[j] !in Recorded(s.trace, t) && order[j] in ById(cfg.StepsOf(t))
    requires StepFor(cfg, s, t, ById(cfg.StepsOf(t))[order[j]], answers(order[j])).GoesOn?
    ensures order[j] in Recorded(DriveFor(cfg, s, t, order[j..], answers).now.trace, t)
  {
    var x := StepFor(cfg, s, t, ById(cfg.StepsOf(t))[order[j]], answers(order[j]));
    TurnOf(cfg, s.trace, t, order, j);
    StepMeans(cfg, s, t, ById(cfg.StepsOf(t))[order[j]], answers(order[j]));
    DriveKeeps(cfg, x.now, t, order, j + 1, answers);
    assert order[j..][0] == order[j] && order[j..][1..] == order[j + 1..];
  }

  /** The executor has a handler for the gates' tool. */
  const EXECUTOR: Handlers := Some({""})

  function StateAfter(steps: seq<Step>, calls: seq<Call>): GateState {
    Run(Permissive(steps), EXECUTOR, CreateFor(FRESH, TASK), TASK, calls)
  }

  lemma StateAfterBegun(steps: seq<Step>, calls: seq<Call>)
    ensures InRun(Permissive(steps), StateAfter(steps, calls), TASK)
  {
    CreateMeans(Permissive(steps), FRESH, TASK);
    RunBegun(Permissive(steps), EXECUTOR, CreateFor(FRESH, TASK), TASK, calls);
  }

  /** The first `j` steps of the order are recorded, and `x` not as a gate. */
  ghost predicate Arrives(steps: seq<Step>, calls: seq<Call>, order: seq<string>, j: nat, x: string) {
    RecordedTo(StateAfter(steps, calls).trace, TASK, order, j) && NotGated(StateAfter(steps, calls).trace, x)
  }

  lemma OkReaches(steps: seq<Step>, s: GateState, order: seq<string>, j: nat)
    requires InRun(Permissive(steps), s, TASK) && RunOrder(steps) == Some(order) && RecordedTo(s.trace, TASK, order, j)
    requires j < |order| && order[j] !in Recorded(s.trace, TASK) && WorkLast(steps, order[j])
    ensures order[j] in Recorded(ResumeFor(Permissive(steps), s, TASK, AllOk()).now.trace, TASK)
  {
    assert order[0..] == order;
    NextIsWorked(steps, s, order, j, AllOk()(order[j]));
    DriveReaches(Permissive(steps), s, TASK, order, 0, j, AllOk());
  }

  lemma ArrivesByWork(steps: seq<Step>, calls: seq<Call>, order: seq<string>, j: nat, x: string)
    requires RunOrder(steps) == Some(order) && j < |order| && Arrives(steps, calls, order, j, x)
    requires order[j] !in Recorded(StateAfter(steps, calls).trace, TASK) && WorkLast(steps, order[j])
    ensures Arrives(steps, calls + [Resume(AllOk())], order, j + 1, x)
  {
    var s, after := StateAfter(steps, calls), StateAfter(steps, calls + [Resume(AllOk())]);
    assert (calls + [Resume(AllOk())])[..|calls|] == calls;
    StateAfterBegun(steps, calls);
    OkReaches(steps, s, order, j);
    ResumeNotGated(steps, s, AllOk(), x);
    PerformBegun(Permissive(steps), EXECUTOR, s, TASK, Resume(AllOk()));
    RecordedStays(s.trace, after.trace, TASK);
  }

  lemma ApprovedAnew(steps: seq<Step>, calls: seq<Call>, id: string) returns (more: seq<Call>)
    requires Compiles(steps) && RunOrder(steps).Some? && GateFirst(steps, id)
    ensures var s, after := StateAfter(steps, calls), StateAfter(steps, calls + more);
      && Prefix(s.trace, after.trace)
      && id in Recorded(after.trace, TASK) && Recorded(after.trace, TASK)[id] == AUTHORIZED
      && forall x :: x != id && NotGated(s.trace, x) ==> NotGated(after.trace, x)
  {
    var cfg, s := Permissive(steps), StateAfter(steps, calls);
    StateAfterBegun(steps, calls);
    PerformBegun(cfg, EXECUTOR, s, TASK, Renew);
    CompiledReturns(cfg, Restarted(s.trace), TASK);
    PermissiveApproves(steps, id, HaltOf(cfg, Restarted(s.trace), TASK).now.trace);
    var approvals, now := SomeCallsCommit(cfg, EXECUTOR, Restarted(s.trace), TASK, id, 0.0);
    LastCallRecords(cfg, EXECUTOR, Restarted(s.trace), TASK, id, approvals);
    more := Anew(id, approvals);
    RunAfter(cfg, EXECUTOR, CreateFor(FRESH, TASK), TASK, calls, more);
    AnewRun(cfg, EXECUTOR, s, TASK, id, approvals);
    RunBegun(cfg, EXECUTOR, s, TASK, more);
    forall x | x != id && NotGated(s.trace, x) ensures NotGated(StateAfter(steps, calls + more).trace, x) {
      ApproveAllNotGated(steps, EXECUTOR, Restarted(s.trace), id, approvals, x);
    }
  }

  lemma ArrivesByApproval(steps: seq<Step>, calls: seq<Call>, order: seq<string>, j: nat, x: string)
    returns (more: seq<Call>)
    requires Compiles(steps) && RunOrder(steps) == Some(order) && j < |order| && Arrives(steps, calls, order, j, x)
    requires GateFirst(steps, order[j]) && x != order[j]
    ensures Arrives(steps, calls + more, order, j + 1, x)
  {
    more := ApprovedAnew(steps, calls, order[j]);
    RecordedStays(StateAfter(steps, calls).trace, StateAfter(steps, calls + more).trace, TASK);
  }

  lemma ArrivesNext(steps: seq<Step>, calls: seq<Call>, order: seq<string>, j: nat, x: string)
    returns (more: seq<Call>)
    requires Compiles(steps) && RunOrder(steps) == Some(order) && j < |order| && Arrives(steps, calls, order, j, x)
    requires !Stuck(steps, order[j]) && x != order[j]
    ensures Arrives(steps, calls + more, order, j + 1, x)
  {
    if order[j] in Recorded(StateAfter(steps, calls).trace, TASK) {
      more := [];
      assert calls + more == calls;
    } else if GateFirst(steps, order[j]) {
      more := ArrivesByApproval(steps, calls, order, j, x);
    } else {
      ArrivesByWork(steps, calls, order, j, x);
      more := [Resume(AllOk())];
    }
  }

  /** Every step that is not preceded by a stuck one can be reached. */
  lemma {:induction false} CanArrive(steps: seq<Step>, order: seq<string>, j: nat, k: nat) returns (calls: seq<Call>)
    requires Compiles(steps) && RunOrder(steps) == Some(order) && j <= k < |order|
    requires forall i :: 0 <= i < k ==> !Stuck(steps, order[i])
    ensures Arrives(steps, calls, order, j, order[k])
  {
    if j == 0 {
      calls := [];
    } else {
      var before := CanArrive(steps, order, j - 1, k);
      OrderIsDistinct(steps, order, j - 1, k);
      var more := ArrivesNext(steps, before, order, j - 1, order[k]);
      calls := before + more;
    }
  }

  lemma OrderIsDistinct(steps: seq<Step>, order: seq<string>, j: nat, k: nat)
    requires RunOrder(steps) == Some(order) && j < k < |order|
    ensures order[j] != order[k]
  {
    RunOrderIsRight(steps);
  }

  // ---- Records that are final --------------------------------------------------------------

  /** A run of the code, continued: what the first part recorded, the second changes. */
  ghost predicate Rewrites(cfg: Config, handlers: Handlers, t: TaskId, calls: seq<Call>, more: seq<Call>) {
    var begun := CreateFor(FRESH, t);
    && cfg.Keyed() && t.workflow in cfg.workflows
    && !Keeps(Run(cfg, handlers, begun, t, calls).trace, Run(cfg, handlers, begun, t, calls + more).trace, t)
  }

  /** No run of the code changes a record, whatever the roles, actions, workers and executors. */
  ghost predicate FinalInRuns(steps: seq<Step>) {
    forall cfg, handlers, t, calls, more :: Rewrites(cfg, handlers, t, calls, more) ==> cfg.StepsOf(t) != steps
  }

  lemma RunsKeep(cfg: Config, handlers: Handlers, t: TaskId, calls: seq<Call>, more: seq<Call>)
    requires cfg.Keyed() && t.workflow in cfg.workflows && GatesSettled(cfg.StepsOf(t))
    ensures !Rewrites(cfg, handlers, t, calls, more)
  {
    var begun := CreateFor(FRESH, t);
    var s := Run(cfg, handlers, begun, t, calls);
    FreshSound(cfg);
    CreateMeans(cfg, FRESH, t);
    RunBegun(cfg, handlers, begun, t, calls);
    RunAfter(cfg, handlers, begun, t, calls, more);
    RunBegun(cfg, handlers, s, t, more);
    var after := Run(cfg, handlers, s, t, more);
    forall x | x in Recorded(s.trace, t)
      ensures x in Recorded(after.trace, t) && Recorded(after.trace, t)[x] == Recorded(s.trace, t)[x]
    {
      RecordsAreFinal(cfg, s.trace, after.trace, t, x);
    }
  }

  lemma FreshSound(cfg: Config)
    requires cfg.Keyed()
    ensures Sound(cfg, FRESH)
  {
    forall d ensures RecordMatches(cfg, map[], Start, d) {}
  }

  lemma UnsettledIsRewritten(steps: seq<Step>, order: seq<string>, k: nat) returns (calls: seq<Call>, more: seq<Call>)
    requires Compiles(steps) && RunOrder(steps) == Some(order) && k < |order| && !SettledAt(steps, order, k)
    ensures Rewrites(Permissive(steps), EXECUTOR, TASK, calls, more)
  {
    calls := CanArrive(steps, order, k, k);
    if order[k] !in Recorded(StateAfter(steps, calls).trace, TASK) {
      ArrivesByWork(steps, calls, order, k, order[k]);
      calls := calls + [Resume(AllOk())];
    }
    more := ApprovedAnew(steps, calls, order[k]);
    assert Permissive(steps).Keyed();
  }

  /** The records of a workflow that compiles are final in every run of the code exactly when its
  gates are settled. */
  lemma CompiledFinalIff(steps: seq<Step>)
    requires Compiles(steps)
    ensures FinalInRuns(steps) <==> GatesSettled(steps)
  {
    if GatesSettled(steps) {
      forall cfg, handlers, t, calls, more | Rewrites(cfg, handlers, t, calls, more) ensures cfg.StepsOf(t) != steps {
        if cfg.StepsOf(t) == steps {
          RunsKeep(cfg, handlers, t, calls, more);
        }
      }
    } else {
      var order := RunOrder(steps).value;
      var k :| 0 <= k < |order| && !SettledAt(steps, order, k);
      var calls, more := UnsettledIsRewritten(steps, order, k);
      assert Permissive(steps).StepsOf(TASK) == steps;
    }
  }
}
