/** `comcmd/server/service.py` for one company: the view of a task, and any sequence of requests
with restarts of the process in between. */
module Services {
  import opened Records
  import opened Aggregation
  import opened Ledgers
  import opened Protocol
  import opened Theorems
  import opened LedgerReading
  import opened Journals
  import opened Approvals
  import opened Gateways
  import opened Executors
  import opened Runners
  import opened Workflows

  // ---- The view of a task ------------------------------------------------------------------

  /** What `task_status` has gathered; `requested` is the last approval request. */
  datatype Fold = Fold(seen: bool, workflow: Option<string>, state: TaskState, artifacts: map<string, Artifact>,
                       requested: Option<Digest>)

  datatype TaskView = TaskView(
    workflow: Option<string>, state: TaskState, artifacts: map<string, Artifact>, waitingOn: Option<Digest>,
    chainValid: bool)

  function FoldEvent(f: Fold, e: Event, t: TaskId): Fold {
    if e.task != t then f
    else
      var g := f.(seen := true);
      match e.payload
      case TaskCreated(workflow, _) => g.(workflow := Some(workflow))
      case StateChanged(state, _) => g.(state := state)
      case StepSucceeded(step, artifact) => g.(artifacts := f.artifacts[step := artifact])
      case ApprovalRequested(digest) => g.(requested := Some(digest))
      case _ => g
  }

  function Folded(events: seq<Event>, t: TaskId): Fold {
    if events == [] then Fold(false, None, READY, map[], None)
    else FoldEvent(Folded(events[..|events| - 1], t), events[|events| - 1], t)
  }

  predicate Mentioned(tr: Trace, t: TaskId) {
    tr.Then? && ((tr.act.Emit? && tr.act.event.task == t) || Mentioned(tr.before, t))
  }

  function LastRequest(tr: Trace, t: TaskId): Option<Digest> {
    match tr
    case Start => None
    case Then(before, act) =>
      if act.Emit? && act.event.task == t && act.event.payload.ApprovalRequested? then Some(act.event.payload.digest)
      else LastRequest(before, t)
  }

  /** The fold of a ledger shows what the history says of the task. */
  lemma {:induction false} FoldIsHistory(cfg: Config, tr: Trace, t: TaskId)
    requires Legal(cfg, tr)
    ensures Folded(Log(tr), t) ==
      Fold(Mentioned(tr, t), if Created(tr, t) then Some(t.workflow) else None, StateOf(tr, t), Recorded(tr, t),
           LastRequest(tr, t))
  {
    if tr.Then? {
      FoldIsHistory(cfg, tr.before, t);
      if tr.act.Emit? {
        assert Log(tr)[..|Log(tr)| - 1] == Log(tr.before);
      }
    }
  }

  /** The loop of `task_status`. */
  method Gather(events: seq<Event>, t: TaskId) returns (f: Fold)
    ensures f == Folded(events, t)
  {
    var seen, workflow, state, artifacts, requested := false, None, READY, map[], None;
    for i := 0 to |events|
      invariant Fold(seen, workflow, state, artifacts, requested) == Folded(events[..i], t)
    {
      assert events[..i + 1][..i] == events[..i];
      var e := events[i];
      if e.task == t {
        seen := true;
        match e.payload {
          case TaskCreated(w, _) => workflow := Some(w);
          case StateChanged(s, _) => state := s;
          case StepSucceeded(step, artifact) => artifacts := artifacts[step := artifact];
          case ApprovalRequested(digest) => requested := Some(digest);
          case _ =>
        }
      }
    }
    assert events[..|events|] == events;
    f := Fold(seen, workflow, state, artifacts, requested);
  }

  datatype Request =
    | StartRequest(workflow: string, inputs: Inputs, answers: Answers)
    | ResumeRequest(task: TaskId, answers: Answers)
    | ApproveRequest(task: TaskId, step: string, approving: Approving)
    | RestartRequest(recordsKept: bool)

  class CompanyService {
    const journal: Journal
    var runner: WorkflowRunner

    ghost function Repr(): set<object>
      reads this
    {
      {this, runner, runner.gateway, runner.gateway.store, journal, journal.ledger}
    }

    ghost predicate Valid()
      reads Repr()
    {
      runner.journal == journal && runner.Valid()
    }

    constructor (cfg: Config, company: string, digest: Hash<Event>, handlers: set<string>)
      requires cfg.Keyed()
      ensures Valid() && journal.cfg == cfg && journal.trace == Start
    {
      var ledger := new Ledger(digest);
      var shared := new Journal(cfg, company, ledger);
      var store := new ApprovalStore();
      var gateway := new Gateway(shared, store);
      var executor := new Executor(shared, handlers);
      journal := shared;
      runner := new WorkflowRunner(gateway, executor);
    }

    /** `task_status`. */
    method TaskStatus(t: TaskId) returns (r: Option<TaskView>)
      requires Valid()
      ensures r.Some? <==> Mentioned(journal.trace, t)
      ensures r.Some? ==> r.value == TaskView(
        if Created(journal.trace, t) then Some(t.workflow) else None,
        StateOf(journal.trace, t), Recorded(journal.trace, t),
        if StateOf(journal.trace, t) == WAITING_FOR_HUMAN then LastRequest(journal.trace, t) else None, true)
    {
      var f := Gather(journal.Read(), t);
      FoldIsHistory(journal.cfg, journal.trace, t);
      if !f.seen {
        return None;
      }
      var chainValid := journal.ledger.VerifyChain(journal.company);
      var waitingOn := if f.state == WAITING_FOR_HUMAN then f.requested else None;
      return Some(TaskView(f.workflow, f.state, f.artifacts, waitingOn, chainValid));
    }

    /** The process dies and starts again. Approval records survive only in Postgres; the in-memory
    map stands for its table as well, since the gateway cannot tell the two stores apart. */
    method Restart(recordsKept: bool)
      requires Valid()
      modifies this, journal
      ensures Valid() && fresh(Repr() - old(Repr()))
      ensures journal.trace == Then(old(journal.trace), Act.Restart(recordsKept))
      ensures runner.gateway.calls == map[]
      ensures runner.gateway.store.byDigest == if recordsKept then old(runner.gateway.store.byDigest) else map[]
    {
      var store := runner.gateway.store;
      ConsistentRestart(journal.cfg, store.byDigest, runner.gateway.calls, journal.trace, recordsKept);
      if !recordsKept {
        store := new ApprovalStore();
      }
      journal.Note(Act.Restart(recordsKept));
      var gateway := new Gateway(journal, store);
      runner := new WorkflowRunner(gateway, runner.executor);
    }

    /** One request. Tasks are resumed and approved only after they were started. */
    method Handle(request: Request)
      requires Valid()
      modifies Repr()
      ensures Valid() && fresh(Repr() - old(Repr())) && Prefix(old(journal.trace), journal.trace)
    {
      match request {
        case StartRequest(workflow, inputs, answers) =>
          var handle := runner.StartTask(workflow, inputs, answers);
        case ResumeRequest(task, answers) =>
          ReadBack(journal.cfg, journal.trace, task);
          if TaskExists(journal.Read(), task) {
            var handle := runner.ResumeTask(task, answers);
          }
        case ApproveRequest(task, step, approving) =>
          ReadBack(journal.cfg, journal.trace, task);
          if TaskExists(journal.Read(), task) {
            var handle := runner.ApproveStep(task, step, approving);
          }
        case RestartRequest(recordsKept) =>
          Restart(recordsKept);
      }
    }

    /** Any sequence of requests, failures and restarts keeps to the protocol, so everything that
    holds of legal histories holds of this service. */
    method Serve(requests: seq<Request>)
      requires Valid()
      modifies Repr()
      ensures Valid() && fresh(Repr() - old(Repr())) && Prefix(old(journal.trace), journal.trace)
      ensures forall d :: Executions(journal.trace, d) <= 1
      ensures forall d :: Calls(journal.trace, d) <= Executions(journal.trace, d) + Interrupted(journal.trace, d) + 1
    {
      for i := 0 to |requests|
        invariant Valid() && fresh(Repr() - old(Repr())) && Prefix(old(journal.trace), journal.trace)
      {
        ghost var before := journal.trace;
        Handle(requests[i]);
        PrefixTransitive(old(journal.trace), before, journal.trace);
      }
      forall d
        ensures Executions(journal.trace, d) <= 1
        ensures Calls(journal.trace, d) <= Executions(journal.trace, d) + Interrupted(journal.trace, d) + 1
      {
        ExactlyOnce(journal.cfg, journal.trace, d);
      }
    }
  }
}
