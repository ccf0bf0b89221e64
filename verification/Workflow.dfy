/** The workflow runner of `comcmd/kernel/workflow.py`, on its in-process path: it works through a
workflow's steps in dependency order, parks at human gates and completes them by quorum. What the
environment answers is an argument of each call; a crash can come at any append, worker run or
handler call. A call that is not cut short does exactly what Runner.dfy says. */
module Workflows {
  import opened Records
  import opened Aggregation
  import opened DependencyOrders
  import opened Protocol
  import opened LedgerReading
  import opened Journals
  import opened Gateways
  import opened GateHistories
  import opened GateRuns
  import opened Executors
  import opened Workers
  import opened Runners

  datatype WorkerResult = WorkerResult(status: Status, artifact: Option<Artifact>, requests: seq<Request>)

  class TaskHandle {
    const task: TaskId
    var state: TaskState
    var artifacts: map<string, Artifact>
    var waiting: Waiting

    constructor (task: TaskId, artifacts: map<string, Artifact>)
      ensures this.task == task && this.artifacts == artifacts && state == READY && waiting == NotWaiting
    {
      this.task, this.artifacts := task, artifacts;
      state, waiting := READY, NotWaiting;
    }
  }

  /** How a step's method reports what `StepFor` says: it goes on, its task stops, or it raises. */
  predicate Follows(x: Stepped, now: GateState, r: Result<bool>, state: TaskState, waiting: Waiting) {
    match r
    case Done(goesOn) => x == if goesOn then GoesOn(now) else Ends(Driven(now, Stops(state, waiting)))
    case Failed(failure) => failure == Crashed || x == Ends(Driven(now, Fails(failure)))
  }

  /** How a method reports what the function for its call says. */
  predicate Comes(run: Driven, now: GateState, r: Outcome, state: TaskState, waiting: Waiting) {
    match r
    case Pass => run == Driven(now, Stops(state, waiting))
    case Fail(failure) => failure == Crashed || run == Driven(now, Fails(failure))
  }

  /** The artifacts in hand are recorded ones. */
  ghost predicate Truthful(tr: Trace, t: TaskId, artifacts: map<string, Artifact>) {
    forall s <- artifacts :: Find(Recorded(tr, t), s) == Some(artifacts[s])
  }

  /** The first `i` steps in order are recorded and in hand. */
  ghost predicate Reached(tr: Trace, t: TaskId, artifacts: map<string, Artifact>, order: seq<string>, i: nat) {
    && RecordedTo(tr, t, order, i) && Truthful(tr, t, artifacts)
    && forall j :: 0 <= j < i ==> order[j] in artifacts
  }

  lemma ReachedNext(cfg: Config, s: GateState, t: TaskId, step: Step, now: GateState, had: map<string, Artifact>,
                    order: seq<string>, i: nat)
    requires Did(cfg, s, t, step, GoesOn(now)) && Reached(s.trace, t, had, order, i) && i < |order|
      && step.id == order[i]
    ensures var v := StepValue(cfg, t, step, Upstream(Recorded(s.trace, t), step.needs));
      && Reached(now.trace, t, had[step.id := v], order, i + 1)
      && Recorded(now.trace, t).Keys == Recorded(s.trace, t).Keys + {order[i]}
      && (had == Recorded(s.trace, t) ==> had[step.id := v] == Recorded(now.trace, t))
  {
  }

  /** The next step in order can be worked on with what is in hand. */
  lemma NextInHand(cfg: Config, tr: Trace, t: TaskId, artifacts: map<string, Artifact>, order: seq<string>, i: nat)
    requires RunOrder(cfg.StepsOf(t)) == Some(order) && Reached(tr, t, artifacts, order, i) && i < |order|
    requires Created(tr, t) && order[i] !in Recorded(tr, t)
    ensures order[i] in ById(cfg.StepsOf(t)) && Next(cfg, tr, t, ById(cfg.StepsOf(t))[order[i]])
    ensures forall n <- ById(cfg.StepsOf(t))[order[i]].needs :: Find(artifacts, n) == Find(Recorded(tr, t), n)
  {
    TurnOf(cfg, tr, t, order, i);
    RunOrderIsRight(cfg.StepsOf(t));
    forall n | n in ById(cfg.StepsOf(t))[order[i]].needs ensures Find(artifacts, n) == Find(Recorded(tr, t), n) {
      assert order[i] in Needs(cfg.StepsOf(t)) && n in order[..i];
      var j :| 0 <= j < i && order[j] == n;
    }
  }

  /** What is recorded after working on the next step in order, with its value put in hand. */
  ghost predicate ReachedBy(cfg: Config, s: GateState, t: TaskId, step: Step, x: Stepped, had: map<string, Artifact>,
                            order: seq<string>, i: nat)
  {
    match x
    case GoesOn(now) =>
      var v := StepValue(cfg, t, step, Upstream(Recorded(s.trace, t), step.needs));
      && i < |order| && Created(now.trace, t) && Reached(now.trace, t, had[step.id := v], order, i + 1)
      && Recorded(now.trace, t).Keys == Recorded(s.trace, t).Keys + {order[i]}
      && (had == Recorded(s.trace, t) ==> had[step.id := v] == Recorded(now.trace, t))
    case Ends(run) => Recorded(run.now.trace, t) == Recorded(s.trace, t)
  }

  lemma StepReaches(cfg: Config, s: GateState, t: TaskId, step: Step, a: Answer, had: map<string, Artifact>,
                    order: seq<string>, i: nat)
    requires Sound(cfg, s) && Next(cfg, s.trace, t, step) && Reached(s.trace, t, had, order, i)
    requires i < |order| && step.id == order[i]
    ensures ReachedBy(cfg, s, t, step, StepFor(cfg, s, t, step, a), had, order, i)
  {
    StepMeans(cfg, s, t, step, a);
    match StepFor(cfg, s, t, step, a)
    case GoesOn(now) => ReachedNext(cfg, s, t, step, now, had, order, i);
    case Ends(run) =>
  }

  lemma TakenIsReached(tr: Trace, t: TaskId, had: map<string, Artifact>, order: seq<string>, i: nat)
    requires Reached(tr, t, had, order, i) && i < |order| && order[i] in Recorded(tr, t)
    ensures Reached(tr, t, if order[i] in had then had else had[order[i] := Recorded(tr, t)[order[i]]], order, i + 1)
  {
  }

  class WorkflowRunner {
    const cfg: Config
    const journal: Journal
    const gateway: Gateway
    const workers: WorkerPool
    const executor: Executor?

    ghost predicate Valid()
      reads this, gateway, journal, journal.ledger, gateway.store
    {
      && gateway.journal == journal && gateway.cfg == cfg && journal.cfg == cfg && workers.journal == journal
      && gateway.Valid()
      && (executor != null ==> executor.journal == journal)
    }

    ghost function Now(): GateState
      reads gateway, gateway.journal, gateway.store
    {
      gateway.Now()
    }

    ghost function Tools(): Handlers
      reads executor
    {
      if executor == null then None else Some(executor.handlers)
    }

    constructor (gateway: Gateway, executor: Executor?)
      requires gateway.Valid() && (executor != null ==> executor.journal == gateway.journal)
      ensures Valid() && this.gateway == gateway && this.executor == executor && journal == gateway.journal
    {
      this.cfg, this.journal, this.gateway, this.executor := gateway.cfg, gateway.journal, gateway, executor;
      workers := new WorkerPool(gateway.journal);
    }

    // ---- Ledger and worker -------------------------------------------------------------------

    /** `_emit`. */
    method Emit(t: TaskId, payload: Payload) returns (r: Outcome)
      requires Valid() && !payload.Receipt? && LegalEvent(cfg, journal.trace, Event(t, payload))
      modifies journal, journal.ledger
      ensures Valid() && Prefix(old(journal.trace), journal.trace)
      ensures r.Pass? ==> Now() == Tell(old(Now()), t, payload)
      ensures r.Fail? ==> r.failure == Crashed
    {
      ConsistentEmit(cfg, gateway.store.byDigest, gateway.calls, journal.trace, Act.Emit(Event(t, payload)));
      r := journal.Append(t, payload);
    }

    /** `worker.run`: the artifact is a function of the envelope, the rest is answered. */
    method RunWorkerOn(t: TaskId, s: string, envelope: Envelope, a: Answer) returns (r: Result<WorkerResult>)
      requires Valid() && Ready(cfg, journal.trace, t, s) && Runs(journal.trace, t, s).Some?
      modifies journal
      ensures Valid() && Prefix(old(journal.trace), journal.trace)
      ensures Now() == Add(old(Now()), RunWorker(t, s))
      ensures r.Done? ==> r.value == WorkerResult(a.status, cfg.work(envelope), a.requests)
      ensures r.Failed? ==> r.failure == Crashed
    {
      InertSound(cfg, Now(), RunWorker(t, s));
      var artifact := workers.Run(t, s, envelope);
      r := if artifact.Failed? then Failed(Crashed) else Done(WorkerResult(a.status, artifact.value, a.requests));
    }

    /** `_set_state`. */
    method SetState(h: TaskHandle) returns (r: Outcome)
      requires Valid() && Created(journal.trace, h.task)
      requires h.state == SUCCEEDED ==> forall s <- ById(cfg.StepsOf(h.task)) :: s in Recorded(journal.trace, h.task)
      modifies journal, journal.ledger
      ensures Valid() && Prefix(old(journal.trace), journal.trace)
      ensures r.Pass? ==> Parked(Publish(old(Now()), h.task, h.state, h.waiting), h)
      ensures r.Fail? ==> r.failure == Crashed
    {
      r := Emit(h.task, StateChanged(h.state, h.waiting));
    }

    // ---- One step ----------------------------------------------------------------------------

    /** The turn of `step` has come, and the handle's artifacts are the recorded ones, as far as it
    needs them. */
    ghost predicate CanWork(h: TaskHandle, step: Step)
      reads this, gateway, journal, journal.ledger, gateway.store, h
    {
      && Valid() && Next(cfg, journal.trace, h.task, step)
      && h.state == READY && h.waiting == NotWaiting
      && (forall n <- step.needs :: Find(h.artifacts, n) == Find(Recorded(journal.trace, h.task), n))
    }

    /** Records a step and its artifact. */
    method Succeed(h: TaskHandle, step: Step, artifact: Artifact) returns (r: Result<bool>)
      requires Valid() && StepDone(cfg, journal.trace, h.task, step.id, artifact)
      modifies h, journal, journal.ledger
      ensures Valid() && Prefix(old(journal.trace), journal.trace)
      ensures h.state == old(h.state) && h.waiting == old(h.waiting)
      ensures r.Failed? ==> r.failure == Crashed
      ensures r.Done? ==>
        && r.value && Now() == Tell(old(Now()), h.task, StepSucceeded(step.id, artifact))
        && h.artifacts == old(h.artifacts)[step.id := artifact]
    {
      var payload := StepSucceeded(step.id, artifact);
      :- Emit(h.task, payload);
      h.artifacts := h.artifacts[step.id := artifact];
      return Done(true);
    }

    /** Publishes the state of a handle whose task goes no further for now. */
    method Park(h: TaskHandle, state: TaskState, waiting: Waiting) returns (r: Result<bool>)
      requires Valid() && Created(journal.trace, h.task) && state != SUCCEEDED
      modifies h, journal, journal.ledger
      ensures Valid() && Prefix(old(journal.trace), journal.trace) && h.artifacts == old(h.artifacts)
      ensures h.state == state && h.waiting == waiting
      ensures r.Failed? ==> r.failure == Crashed
      ensures r.Done? ==> !r.value && Parked(Publish(old(Now()), h.task, state, waiting), h)
    {
      h.state, h.waiting := state, waiting;
      var published := SetState(h);
      return if published.Fail? then Failed(Crashed) else Done(false);
    }

    /** The handle and the ledger say what `run` says. */
    ghost predicate Parked(run: Driven, h: TaskHandle)
      reads gateway, gateway.journal, gateway.store, h
    {
      run == Driven(Now(), Stops(h.state, h.waiting))
    }

    /** step_started. */
    method BeginStep(t: TaskId, step: Step) returns (r: Outcome)
      requires Valid() && Next(cfg, journal.trace, t, step) && !step.kind.HumanGate?
      modifies journal, journal.ledger
      ensures Valid() && Prefix(old(journal.trace), journal.trace)
      ensures r.Pass? ==> Now() == Begin(old(Now()), t, step) && InProgress(cfg, old(Now()), t, step, 0, Now())
      ensures r.Fail? ==> r.failure == Crashed
    {
      BeginMeans(cfg, Now(), t, step);
      r := Emit(t, StepStarted(step.id));
    }

    /** Any intent a worker emits must clear the gateway: it decides on each, in order. */
    method ClearIntents(requests: seq<Request>) returns (r: Outcome)
      requires Valid()
      modifies journal, journal.ledger, gateway, gateway.store
      ensures Valid() && Quiet(old(journal.trace), journal.trace)
      ensures r.Pass? ==> Now() == DecideAll(cfg, old(Now()), requests)
      ensures r.Fail? ==> r.failure == Crashed
    {
      for i := 0 to |requests|
        invariant Valid() && Quiet(old(journal.trace), journal.trace)
        invariant Now() == DecideAll(cfg, old(Now()), requests[..i])
      {
        ghost var before := journal.trace;
        var o := gateway.Decide(requests[i].intent, requests[i].now, requests[i].challenge);
        QuietTransitive(old(journal.trace), before, journal.trace);
        if o.Failed? {
          return Fail(Crashed);
        }
        assert requests[..i + 1][..i] == requests[..i];
      }
      assert requests[..|requests|] == requests;
      return Pass;
    }

    /** `_run_work_step`: the worker runs once, on the step's envelope. */
    method RunWork(t: TaskId, step: Step, up: map<string, Option<Artifact>>, a: Answer)
      returns (r: Result<WorkerResult>)
      requires Valid() && Next(cfg, journal.trace, t, step) && step.kind.Work?
      modifies journal, journal.ledger, gateway, gateway.store
      ensures Valid() && Prefix(old(journal.trace), journal.trace)
      ensures r.Failed? ==> r.failure == Crashed
      ensures r.Done? ==>
        && Now() == WorkRan(cfg, old(Now()), t, step, a.requests)
        && InProgress(cfg, old(Now()), t, step, 1, Now())
        && r.value == WorkerResult(a.status, cfg.work(EnvelopeFor(cfg, t, step, t.inputs, Plain, up)), a.requests)
    {
      ghost var s := Now();
      :- BeginStep(t, step);
      var result := RunWorkerOn(t, step.id, EnvelopeFor(cfg, t, step, t.inputs, Plain, up), a);
      ghost var ran := journal.trace;
      PrefixTransitive(old(journal.trace), Begin(s, t, step).trace, ran);
      if result.Failed? {
        return Failed(Crashed);
      }
      assert RanTrace(Begin(s, t, step).trace, t, step.id, 0) == Begin(s, t, step).trace;
      assert Now() == RanWorkers(Begin(s, t, step), t, step.id, 1);
      var cleared := ClearIntents(result.value.requests);
      QuietKeeps(ran, journal.trace, t, step.id);
      PrefixTransitive(old(journal.trace), ran, journal.trace);
      if cleared.Fail? {
        return Failed(Crashed);
      }
      WorkRanMeans(cfg, s, t, step, a.requests);
      return result;
    }

    /** A work step. Returns whether the task goes on. */
    method DoWork(h: TaskHandle, step: Step, a: Answer) returns (r: Result<bool>)
      requires CanWork(h, step) && step.kind.Work?
      modifies h, journal, journal.ledger, gateway, gateway.store
      ensures Valid() && Prefix(old(journal.trace), journal.trace)
      ensures Follows(WorkFor(cfg, old(Now()), h.task, step, a), Now(), r, h.state, h.waiting)
      ensures r.Done? ==> Kept(h, step, r.value, old(h.artifacts), old(Recorded(journal.trace, h.task)))
    {
      var t, up := h.task, Upstream(h.artifacts, step.needs);
      UpstreamAgrees(h.artifacts, Recorded(journal.trace, t), step.needs);
      var result :- RunWork(t, step, up, a);
      ghost var ran := journal.trace;
      r := FinishWork(h, step, result);
      PrefixTransitive(old(journal.trace), ran, journal.trace);
    }

    /** What becomes of a work step once its worker has run. */
    method FinishWork(h: TaskHandle, step: Step, result: WorkerResult) returns (r: Result<bool>)
      requires Valid() && Ready(cfg, journal.trace, h.task, step.id) && h.state == READY && h.waiting == NotWaiting
      requires result.status == Ok ==> StepDone(cfg, journal.trace, h.task, step.id, OrEmpty(result.artifact))
      modifies h, journal, journal.ledger
      ensures Valid() && Prefix(old(journal.trace), journal.trace)
      ensures Follows(WorkEnds(old(Now()), h.task, step, result.status, result.artifact), Now(), r, h.state, h.waiting)
      ensures r.Done? ==>
        && (r.value ==> h.state == READY && h.waiting == NotWaiting)
        && h.artifacts == if r.value then old(h.artifacts)[step.id := OrEmpty(result.artifact)] else old(h.artifacts)
    {
      match result.status {
        case Ok =>
          r := Succeed(h, step, OrEmpty(result.artifact));
        case Deferred =>
          r := Defer(h, step, result.artifact);
        case _ =>
          var parked := Park(h, FAILED_RETRYABLE, NotWaiting);
          r := Failed(if parked.Failed? then Crashed else StepFailed(step.id));
      }
    }

    /** The handle after a step: its value is in hand and nothing else changed, or nothing changed
    but what it waits for. */
    ghost predicate Kept(h: TaskHandle, step: Step, goesOn: bool, had: map<string, Artifact>,
                         recorded: map<string, Artifact>)
      reads h
    {
      && (goesOn ==> h.state == READY && h.waiting == NotWaiting)
      && h.artifacts ==
           if goesOn then had[step.id := StepValue(cfg, h.task, step, Upstream(recorded, step.needs))] else had
    }

    /** A deferring worker's artifact is written down, and the task parks. */
    method Defer(h: TaskHandle, step: Step, artifact: Option<Artifact>) returns (r: Result<bool>)
      requires Valid() && Ready(cfg, journal.trace, h.task, step.id)
      modifies h, journal, journal.ledger
      ensures Valid() && Prefix(old(journal.trace), journal.trace) && h.artifacts == old(h.artifacts)
      ensures r.Failed? ==> r.failure == Crashed
      ensures r.Done? ==>
        var written :=
          if artifact.Some? then Tell(old(Now()), h.task, ArtifactWritten(step.id, artifact.value)) else old(Now());
        !r.value && Parked(Publish(written, h.task, FAILED_RETRYABLE, OnWorker(step.id, artifact)), h)
    {
      if artifact.Some? {
        var payload := ArtifactWritten(step.id, artifact.value);
        :- Emit(h.task, payload);
      }
      ghost var written := journal.trace;
      r := Park(h, FAILED_RETRYABLE, OnWorker(step.id, artifact));
      PrefixTransitive(old(journal.trace), written, journal.trace);
    }

    /** `pool.map` over the candidates of a fan-out step that was started in state `s`. */
    method CollectCandidates(t: TaskId, step: Step, up: map<string, Option<Artifact>>, ghost s: GateState)
      returns (r: Result<seq<Artifact>>)
      requires Valid() && Sound(cfg, s) && Next(cfg, s.trace, t, step) && step.kind.Fanout? && step.kind.width > 0
      requires Now() == Begin(s, t, step)
      modifies journal
      ensures Valid() && Prefix(old(journal.trace), journal.trace)
      ensures r.Failed? ==> r.failure == Crashed
      ensures r.Done? ==> r.value == Candidates(cfg, t, step, up, step.kind.width, step.kind.width)
      ensures r.Done? ==> Now() == RanWorkers(Begin(s, t, step), t, step.id, step.kind.width)
    {
      BeginMeans(cfg, s, t, step);
      var candidates, k := workers.RunCandidates(t, step, up, step.kind.width);
      RunsMean(cfg, s, t, step, k);
      RunsCount(cfg, old(journal.trace), t, step.id, k);
      r := candidates;
    }

    method AggregateAll(t: TaskId, step: Step, up: map<string, Option<Artifact>>, candidates: seq<Artifact>)
      returns (r: Artifact)
      requires step.kind.Fanout? && step.kind.width > 0
      requires candidates == Candidates(cfg, t, step, up, step.kind.width, step.kind.width)
      ensures r == StepValue(cfg, t, step, up)
    {
      r := Aggregate(candidates, step.kind.how, step.kind.key, step.kind.scoreKey, cfg.show);
      FanoutIsAggregate(cfg, t, step, up);
    }

    /** `_run_fanout`: the runs and the aggregate. */
    method RunFanout(t: TaskId, step: Step, up: map<string, Option<Artifact>>, ghost s: GateState)
      returns (r: Result<Artifact>)
      requires Valid() && Sound(cfg, s) && Next(cfg, s.trace, t, step) && step.kind.Fanout? && step.kind.width > 0
      requires Now() == Begin(s, t, step)
      modifies journal
      ensures Valid() && Prefix(old(journal.trace), journal.trace)
      ensures r.Failed? ==> r.failure == Crashed
      ensures r.Done? ==> r.value == StepValue(cfg, t, step, up)
      ensures r.Done? ==> Now() == RanWorkers(Begin(s, t, step), t, step.id, step.kind.width)
    {
      var candidates := CollectCandidates(t, step, up, s);
      if candidates.Done? {
        var artifact := AggregateAll(t, step, up, candidates.value);
        r := Done(artifact);
      } else {
        r := Failed(Crashed);
      }
    }

    /** A fan-out step. */
    method DoFanout(h: TaskHandle, step: Step, a: Answer) returns (r: Result<bool>)
      requires CanWork(h, step) && step.kind.Fanout?
      modifies h, journal, journal.ledger
      ensures Valid() && Prefix(old(journal.trace), journal.trace)
      ensures Follows(FanoutFor(cfg, old(Now()), h.task, step), Now(), r, h.state, h.waiting)
      ensures r.Done? ==> Kept(h, step, r.value, old(h.artifacts), old(Recorded(journal.trace, h.task)))
    {
      ghost var s := Now();
      var t, up := h.task, Upstream(h.artifacts, step.needs);
      UpstreamAgrees(h.artifacts, Recorded(journal.trace, t), step.needs);
      :- BeginStep(t, step);
      if step.kind.width <= 0 {
        return Failed(NoWorkers);
      }
      var artifact := RunFanout(t, step, up, s);
      ghost var ran := journal.trace;
      PrefixTransitive(old(journal.trace), Begin(s, t, step).trace, ran);
      if artifact.Failed? {
        return Failed(Crashed);
      }
      FanoutDone(cfg, s, t, step);
      r := Succeed(h, step, artifact.value);
      PrefixTransitive(old(journal.trace), ran, journal.trace);
    }

    /** `_run_verify`: the runs of a verify step that was started in state `s`, and the approvals. */
    method RunVerify(t: TaskId, step: Step, up: map<string, Option<Artifact>>, target: Artifact, ghost s: GateState)
      returns (r: Result<nat>)
      requires Valid() && Sound(cfg, s) && Next(cfg, s.trace, t, step) && step.kind.Verify? && step.kind.verifiers > 0
      requires Now() == Begin(s, t, step)
      modifies journal
      ensures Valid() && Prefix(old(journal.trace), journal.trace)
      ensures r.Failed? ==> r.failure == Crashed
      ensures r.Done? ==>
        var m := step.kind.verifiers;
        && r.value == ApprovingVerifiers(cfg, t, step, up, m, m, target)
        && Now() == RanWorkers(Begin(s, t, step), t, step.id, m)
    {
      BeginMeans(cfg, s, t, step);
      var approvals, k := workers.CountApprovals(t, step, up, step.kind.verifiers, target);
      RunsMean(cfg, s, t, step, k);
      RunsCount(cfg, old(journal.trace), t, step.id, k);
      r := approvals;
    }

    /** A verify step. */
    method DoVerify(h: TaskHandle, step: Step, a: Answer) returns (r: Result<bool>)
      requires CanWork(h, step) && step.kind.Verify?
      modifies h, journal, journal.ledger
      ensures Valid() && Prefix(old(journal.trace), journal.trace)
      ensures Follows(VerifyFor(cfg, old(Now()), h.task, step), Now(), r, h.state, h.waiting)
      ensures r.Done? ==> Kept(h, step, r.value, old(h.artifacts), old(Recorded(journal.trace, h.task)))
    {
      ghost var s := Now();
      UpstreamAgrees(h.artifacts, Recorded(journal.trace, h.task), step.needs);
      :- BeginStep(h.task, step);
      if step.needs == [] {
        return Failed(MissingTarget);
      }
      if step.kind.verifiers <= 0 {
        return Failed(NoWorkers);
      }
      r := VerifyTarget(h, step, s);
      PrefixTransitive(old(journal.trace), Begin(s, h.task, step).trace, journal.trace);
    }

    /** The verdict on the first step that a verify step needs. */
    method VerifyTarget(h: TaskHandle, step: Step, ghost s: GateState) returns (r: Result<bool>)
      requires Valid() && Sound(cfg, s) && Next(cfg, s.trace, h.task, step) && step.kind.Verify?
      requires step.kind.verifiers > 0 && step.needs != [] && h.state == READY && h.waiting == NotWaiting
      requires Now() == Begin(s, h.task, step)
      requires Upstream(h.artifacts, step.needs) == Upstream(Recorded(s.trace, h.task), step.needs)
      modifies h, journal, journal.ledger
      ensures Valid() && Prefix(old(journal.trace), journal.trace)
      ensures Follows(VerifyFor(cfg, s, h.task, step), Now(), r, h.state, h.waiting)
      ensures r.Done? ==> Kept(h, step, r.value, old(h.artifacts), Recorded(s.trace, h.task))
    {
      var up, target := Upstream(h.artifacts, step.needs), OrEmpty(Find(h.artifacts, step.needs[0]));
      assert target == TargetArtifact(step, up);
      var approvals := RunVerify(h.task, step, up, target, s);
      ghost var ran := journal.trace;
      if approvals.Failed? {
        return Failed(Crashed);
      }
      r := Conclude(h, step, approvals.value, s);
      PrefixTransitive(old(journal.trace), ran, journal.trace);
    }

    /** The verdict of a verify step that was started in state `s`. */
    method Conclude(h: TaskHandle, step: Step, approvals: nat, ghost s: GateState) returns (r: Result<bool>)
      requires Valid() && Sound(cfg, s) && Next(cfg, s.trace, h.task, step) && step.kind.Verify?
      requires step.kind.verifiers > 0 && step.needs != [] && h.state == READY && h.waiting == NotWaiting
      requires Now() == RanWorkers(Begin(s, h.task, step), h.task, step.id, step.kind.verifiers)
      requires approvals == ApprovalsOf(cfg, h.task, step, Upstream(Recorded(s.trace, h.task), step.needs))
      modifies h, journal, journal.ledger
      ensures Valid() && Prefix(old(journal.trace), journal.trace)
      ensures Follows(VerifyFor(cfg, s, h.task, step), Now(), r, h.state, h.waiting)
      ensures r.Done? ==> Kept(h, step, r.value, old(h.artifacts), Recorded(s.trace, h.task))
    {
      var m, quorum := step.kind.verifiers, VerifyQuorum(step.kind.verifyQuorum);
      if approvals < quorum {
        RunsMean(cfg, s, h.task, step, m);
        r := Park(h, WAITING_FOR_HUMAN, OnVerify(step.id, approvals, m));
      } else {
        VerifyPasses(cfg, s, h.task, step);
        r := Succeed(h, step, Verdicts(step, approvals, m, quorum));
      }
    }

    /** `_gate_intent`, from the ledger and the artifacts in hand. */
    method BuildIntent(h: TaskHandle, gate: Step) returns (intent: ActionIntent)
      requires Valid() && Created(journal.trace, h.task) && gate.kind.HumanGate?
      requires forall n <- gate.needs :: Find(h.artifacts, n) == Find(Recorded(journal.trace, h.task), n)
      ensures Digest(intent) == GateDigest(cfg, journal.trace, h.task, gate)
    {
      ReadBack(cfg, journal.trace, h.task);
      UpstreamAgrees(h.artifacts, Recorded(journal.trace, h.task), gate.needs);
      intent := GateIntent(cfg, h.task, gate, RecordedInputs(journal.Read(), h.task),
          Upstream(h.artifacts, gate.needs));
    }

    /** A human gate: opens an approval and parks the task. */
    method DoGate(h: TaskHandle, step: Step, a: Answer) returns (r: Result<bool>)
      requires CanWork(h, step) && step.kind.HumanGate?
      modifies h, journal, journal.ledger, gateway, gateway.store
      ensures Valid() && Prefix(old(journal.trace), journal.trace)
      ensures Follows(GateFor(cfg, old(Now()), h.task, step, a), Now(), r, h.state, h.waiting)
      ensures r.Done? ==> Kept(h, step, r.value, old(h.artifacts), old(Recorded(journal.trace, h.task)))
    {
      var intent := BuildIntent(h, step);
      var outcome := gateway.Decide(intent, a.now, a.challenge);
      ghost var decided := journal.trace;
      QuietKeeps(old(journal.trace), decided, h.task, step.id);
      if outcome.Failed? {
        return Failed(Crashed);
      }
      r := Park(h, WAITING_FOR_HUMAN, OnGate(step.id, step.kind.policy, Digest(intent)));
      PrefixTransitive(old(journal.trace), decided, journal.trace);
    }

    /** One step that is not recorded yet. */
    method DoStep(h: TaskHandle, step: Step, a: Answer) returns (r: Result<bool>)
      requires CanWork(h, step)
      modifies h, journal, journal.ledger, gateway, gateway.store
      ensures Valid() && Prefix(old(journal.trace), journal.trace)
      ensures Follows(StepFor(cfg, old(Now()), h.task, step, a), Now(), r, h.state, h.waiting)
      ensures r.Done? ==> Kept(h, step, r.value, old(h.artifacts), old(Recorded(journal.trace, h.task)))
    {
      match step.kind
      case HumanGate(_) => r := DoGate(h, step, a);
      case Fanout(_, _, _, _) => r := DoFanout(h, step, a);
      case Verify(_, _) => r := DoVerify(h, step, a);
      case Work => r := DoWork(h, step, a);
    }

    // ---- Whole tasks -------------------------------------------------------------------------

    ghost predicate Driving(h: TaskHandle, order: seq<string>, i: nat)
      reads this, gateway, journal, journal.ledger, gateway.store, h
    {
      && Valid() && Created(journal.trace, h.task) && RunOrder(cfg.StepsOf(h.task)) == Some(order)
      && h.state == READY && h.waiting == NotWaiting
      && Reached(journal.trace, h.task, h.artifacts, order, i)
    }

    ghost predicate AllInHand(h: TaskHandle)
      reads journal, h
    {
      h.artifacts == Recorded(journal.trace, h.task)
    }

    /** `handle.artifacts.setdefault` of a recorded step. */
    method TakeRecorded(h: TaskHandle, s: string)
      requires Valid() && s in Recorded(journal.trace, h.task)
      modifies h
      ensures h.state == old(h.state) && h.waiting == old(h.waiting)
      ensures var had := old(h.artifacts);
        h.artifacts == if s in had then had else had[s := Recorded(journal.trace, h.task)[s]]
    {
      ReadBack(cfg, journal.trace, h.task);
      if s !in h.artifacts {
        h.artifacts := h.artifacts[s := RecordedArtifacts(journal.Read(), h.task)[s]];
      }
    }

    /** Works on the next step in order. */
    method Advance(h: TaskHandle, order: seq<string>, i: nat, a: Answer) returns (r: Result<bool>)
      requires Driving(h, order, i) && i < |order| && order[i] !in Recorded(journal.trace, h.task)
      modifies h, journal, journal.ledger, gateway, gateway.store
      ensures Valid() && Prefix(old(journal.trace), journal.trace)
      ensures order[i] in ById(cfg.StepsOf(h.task))
      ensures var x := StepFor(cfg, old(Now()), h.task, ById(cfg.StepsOf(h.task))[order[i]], a);
        Follows(x, Now(), r, h.state, h.waiting)
      ensures r.Done? && r.value ==>
        && Driving(h, order, i + 1)
        && Recorded(journal.trace, h.task).Keys == old(Recorded(journal.trace, h.task).Keys) + {order[i]}
      ensures r.Done? && !r.value ==> Truthful(journal.trace, h.task, h.artifacts)
      ensures r.Done? && old(AllInHand(h)) ==> AllInHand(h)
    {
      NextInHand(cfg, journal.trace, h.task, h.artifacts, order, i);
      var step := ById(cfg.StepsOf(h.task))[order[i]];
      StepReaches(cfg, Now(), h.task, step, a, h.artifacts, order, i);
      r := DoStep(h, step, a);
    }

    /** One round of the loop in `_drive`; `done` are the recorded steps. */
    method Round(h: TaskHandle, order: seq<string>, i: nat, done: set<string>, answers: Answers)
      returns (r: Result<bool>)
      requires Driving(h, order, i) && i < |order| && done == Recorded(journal.trace, h.task).Keys
      modifies h, journal, journal.ledger, gateway, gateway.store
      ensures Valid() && Prefix(old(journal.trace), journal.trace)
      ensures r.Done? && r.value ==>
        && Driving(h, order, i + 1) && Recorded(journal.trace, h.task).Keys == done + {order[i]}
        && DriveFor(cfg, old(Now()), h.task, order[i..], answers)
             == DriveFor(cfg, Now(), h.task, order[i + 1..], answers)
      ensures r.Failed? || !r.value ==>
        Comes(DriveFor(cfg, old(Now()), h.task, order[i..], answers), Now(), Told(r), h.state, h.waiting)
      ensures r.Done? && !r.value ==> Truthful(journal.trace, h.task, h.artifacts)
      ensures r.Done? && old(AllInHand(h)) ==> AllInHand(h)
    {
      assert order[i..][0] == order[i] && order[i..][1..] == order[i + 1..];
      if order[i] in done {
        TakenIsReached(journal.trace, h.task, h.artifacts, order, i);
        TakeRecorded(h, order[i]);
        return Done(true);
      }
      r := Advance(h, order, i, answers(order[i]));
    }

    static function Told(r: Result<bool>): Outcome {
      if r.Failed? then Fail(r.failure) else Pass
    }

    /** `_drive`, once the steps are in order. */
    method DriveInOrder(h: TaskHandle, order: seq<string>, answers: Answers) returns (r: Outcome)
      requires Driving(h, order, 0)
      modifies h, journal, journal.ledger, gateway, gateway.store
      ensures Valid() && Prefix(old(journal.trace), journal.trace)
      ensures Comes(DriveFor(cfg, old(Now()), h.task, order, answers), Now(), r, h.state, h.waiting)
      ensures r.Pass? ==> Truthful(journal.trace, h.task, h.artifacts)
      ensures r.Pass? && old(AllInHand(h)) ==> AllInHand(h)
    {
      ReadBack(cfg, journal.trace, h.task);
      var done := CompletedSteps(journal.Read(), h.task);
      assert order[0..] == order;
      for i := 0 to |order|
        invariant Driving(h, order, i) && Prefix(old(journal.trace), journal.trace)
        invariant done == Recorded(journal.trace, h.task).Keys
        invariant DriveFor(cfg, old(Now()), h.task, order, answers) == DriveFor(cfg, Now(), h.task, order[i..], answers)
        invariant old(AllInHand(h)) ==> AllInHand(h)
      {
        ghost var before := Now();
        var goesOn := Round(h, order, i, done, answers);
        PrefixTransitive(old(journal.trace), before.trace, journal.trace);
        if goesOn.Failed? || !goesOn.value {
          return Told(goesOn);
        }
        done := done + {order[i]};
      }
      assert order[|order|..] == [];
      ghost var last := Now();
      r := Finish(h, order, answers);
      PrefixTransitive(old(journal.trace), last.trace, journal.trace);
    }

    /** The end of `_drive`. */
    method Finish(h: TaskHandle, order: seq<string>, ghost answers: Answers) returns (r: Outcome)
      requires Driving(h, order, |order|)
      modifies h, journal, journal.ledger
      ensures Valid() && Prefix(old(journal.trace), journal.trace) && h.artifacts == old(h.artifacts)
      ensures Comes(DriveFor(cfg, old(Now()), h.task, [], answers), Now(), r, h.state, h.waiting)
      ensures r.Pass? ==> Truthful(journal.trace, h.task, h.artifacts)
      ensures r.Pass? && old(AllInHand(h)) ==> AllInHand(h)
    {
      RunOrderIsRight(cfg.StepsOf(h.task));
      forall s | s in ById(cfg.StepsOf(h.task)) ensures s in Recorded(journal.trace, h.task) {
        assert s in order;
      }
      h.state := SUCCEEDED;
      r := SetState(h);
    }

    /** `_drive`. */
    method Drive(h: TaskHandle, answers: Answers) returns (r: Outcome)
      requires Valid() && Created(journal.trace, h.task) && h.state == READY && h.waiting == NotWaiting
      requires Truthful(journal.trace, h.task, h.artifacts)
      modifies h, journal, journal.ledger, gateway, gateway.store
      ensures Valid() && Prefix(old(journal.trace), journal.trace)
      ensures Comes(ResumeFor(cfg, old(Now()), h.task, answers), Now(), r, h.state, h.waiting)
      ensures r.Pass? ==> Truthful(journal.trace, h.task, h.artifacts)
      ensures r.Pass? && old(AllInHand(h)) ==> AllInHand(h)
    {
      var steps := cfg.StepsOf(h.task);
      var ordering := InDependencyOrder(Needs(steps), Ids(steps));
      match ordering
      case CycleRaised(_) => return Fail(CycleAtRuntime);
      case UnknownStep(_) => return Fail(MissingStep);
      case Ordered(order) => r := DriveInOrder(h, order, answers);
    }

    // ---- Starting and resuming ---------------------------------------------------------------

    /** A handle that was returned, or what was raised instead. */
    ghost predicate Returned(run: Driven, t: TaskId, r: Result<TaskHandle>)
      reads gateway, gateway.journal, gateway.store
      reads if r.Done? then {r.value} else {}
    {
      match r
      case Done(h) => h.task == t && Comes(run, Now(), Pass, h.state, h.waiting)
      case Failed(failure) => Comes(run, Now(), Fail(failure), READY, NotWaiting)
    }

    /** task_created is idempotent. */
    method CreateOnce(t: TaskId) returns (r: Outcome)
      requires Valid() && t.workflow in cfg.workflows
      modifies journal, journal.ledger
      ensures Valid() && Prefix(old(journal.trace), journal.trace)
      ensures r.Pass? ==> Now() == CreateFor(old(Now()), t) && Created(journal.trace, t)
      ensures r.Fail? ==> r.failure == Crashed && !old(Created(journal.trace, t))
    {
      ReadBack(cfg, journal.trace, t);
      var completed, known := CompletedSteps(journal.Read(), t), TaskExists(journal.Read(), t);
      if completed == {} && !known {
        r := Emit(t, TaskCreated(t.workflow, t.inputs));
        return;
      }
      if completed != {} {
        RecordedMeansCreated(cfg, journal.trace, t);
      }
      return Pass;
    }

    /** Starts a task, or goes on with it when the same one was started before. */
    method StartTask(workflow: string, inputs: Inputs, answers: Answers) returns (r: Result<TaskHandle>)
      requires Valid()
      modifies journal, journal.ledger, gateway, gateway.store
      ensures Valid() && Prefix(old(journal.trace), journal.trace)
      ensures Returned(StartFor(cfg, old(Now()), workflow, inputs, answers), TaskId(workflow, inputs), r)
      ensures r.Done? ==> fresh(r.value) && Truthful(journal.trace, r.value.task, r.value.artifacts)
    {
      if workflow !in cfg.workflows {
        return Failed(UnknownWorkflow);
      }
      var t := TaskId(workflow, inputs);
      var created := CreateOnce(t);
      ghost var begun := journal.trace;
      if created.Fail? {
        return Failed(Crashed);
      }
      var h := new TaskHandle(t, map[]);
      var driven := Drive(h, answers);
      PrefixTransitive(old(journal.trace), begun, journal.trace);
      return if driven.Fail? then Failed(driven.failure) else Done(h);
    }

    /** Goes on with a task from what the ledger says of it, with its own recorded inputs. */
    method ResumeTask(t: TaskId, answers: Answers) returns (r: Result<TaskHandle>)
      requires Valid() && Created(journal.trace, t)
      modifies journal, journal.ledger, gateway, gateway.store
      ensures Valid() && Prefix(old(journal.trace), journal.trace)
      ensures Returned(ResumeFor(cfg, old(Now()), t, answers), t, r)
      ensures r.Done? ==> fresh(r.value) && AllInHand(r.value) && StateOf(journal.trace, t) == r.value.state
      ensures r.Done? ==> Created(journal.trace, t) && Stopped(cfg, journal.trace, t, r.value.state, r.value.waiting)
    {
      ReadBack(cfg, journal.trace, t);
      ResumeMeans(cfg, Now(), t, answers);
      var h := new TaskHandle(t, RecordedArtifacts(journal.Read(), t));
      var driven := Drive(h, answers);
      return if driven.Fail? then Failed(driven.failure) else Done(h);
    }

    // ---- Approving ---------------------------------------------------------------------------

    /** Performs the effect of an authorized gate. Returns whether it was, or had been, performed. */
    method Effect(t: TaskId, s: string, cap: Capability, intent: ActionIntent) returns (r: Result<bool>)
      requires Valid() && executor != null && Created(journal.trace, t) && JustGranted(Now(), cap, intent)
      modifies journal, journal.ledger
      ensures Valid() && Prefix(old(journal.trace), journal.trace)
      ensures r.Failed? ==> r.failure == Crashed
      ensures r.Done? ==>
        && Now() == EffectFor(old(Now()), t, s, executor.handlers, cap, intent)
        && (r.value <==> Performable(Some(executor.handlers), old(journal.trace), intent))
    {
      var result := executor.Execute(cap, intent);
      ghost var ran := journal.trace;
      InertConsistent(cfg, gateway.store.byDigest, gateway.calls, old(journal.trace), ran);
      QuietKeeps(old(journal.trace), ran, t, s);
      if result.Failed? {
        return Failed(Crashed);
      }
      var payload := StepReceipt(s, result.value.executed, result.value.duplicate);
      var told := Emit(t, payload);
      PrefixTransitive(old(journal.trace), ran, journal.trace);
      if told.Fail? {
        return Failed(Crashed);
      }
      return Done(result.value.executed || result.value.duplicate);
    }

    /** Records a gate whose effect was performed, and goes on with its task. */
    method GoOn(t: TaskId, s: string, gate: Step, intent: ActionIntent, after: Answers) returns (r: Result<TaskHandle>)
      requires Valid() && Created(journal.trace, t) && RunOrder(cfg.StepsOf(t)).Some?
      requires FirstById(cfg.StepsOf(t), s) == Some(gate) && gate.kind.HumanGate?
      requires Digest(intent) == GateDigest(cfg, journal.trace, t, gate) && IsExecuted(journal.trace, Digest(intent))
      modifies journal, journal.ledger, gateway, gateway.store
      ensures Valid() && Prefix(old(journal.trace), journal.trace)
      ensures Returned(ResumeFor(cfg, Tell(old(Now()), t, StepSucceeded(s, AUTHORIZED)), t, after), t, r)
      ensures r.Done? ==> fresh(r.value) && AllInHand(r.value)
    {
      var recorded := Emit(t, StepSucceeded(s, AUTHORIZED));
      if recorded.Fail? {
        return Failed(Crashed);
      }
      ghost var before := journal.trace;
      r := ResumeTask(t, after);
      PrefixTransitive(old(journal.trace), before, journal.trace);
    }

    /** Publishes that an authorized gate had no effect. */
    method Hold(h: TaskHandle, waiting: Waiting) returns (r: Result<TaskHandle>)
      requires Valid() && Created(journal.trace, h.task) && AllInHand(h)
      modifies h, journal, journal.ledger
      ensures Valid() && Prefix(old(journal.trace), journal.trace)
      ensures Returned(Publish(old(Now()), h.task, FAILED_RETRYABLE, waiting), h.task, r)
      ensures r.Done? ==> r.value == h && AllInHand(r.value)
    {
      var parked := Park(h, FAILED_RETRYABLE, waiting);
      return if parked.Failed? then Failed(Crashed) else Done(h);
    }

    /** What follows once the quorum is complete. */
    method Commit(h: TaskHandle, s: string, gate: Step, cap: Capability, intent: ActionIntent, after: Answers)
      returns (r: Result<TaskHandle>)
      requires Valid() && Created(journal.trace, h.task) && AllInHand(h) && RunOrder(cfg.StepsOf(h.task)).Some?
      requires FirstById(cfg.StepsOf(h.task), s) == Some(gate) && gate.kind.HumanGate?
      requires Digest(intent) == GateDigest(cfg, journal.trace, h.task, gate) && JustGranted(Now(), cap, intent)
      modifies h, journal, journal.ledger, gateway, gateway.store
      ensures Valid() && Prefix(old(journal.trace), journal.trace)
      ensures Returned(CommitFor(cfg, Tools(), old(Now()), h.task, s, cap, intent, after), h.task, r)
      ensures r.Done? ==> (r.value == h || fresh(r.value)) && AllInHand(r.value)
    {
      if executor == null {
        r := Hold(h, NoExecutor(s));
      } else {
        r := Perform(h, s, gate, cap, intent, after);
      }
    }

    /** Performs the effect, then records the gate or says that its effect was refused. */
    method Perform(h: TaskHandle, s: string, gate: Step, cap: Capability, intent: ActionIntent, after: Answers)
      returns (r: Result<TaskHandle>)
      requires Valid() && executor != null
      requires Created(journal.trace, h.task) && AllInHand(h) && RunOrder(cfg.StepsOf(h.task)).Some?
      requires FirstById(cfg.StepsOf(h.task), s) == Some(gate) && gate.kind.HumanGate?
      requires Digest(intent) == GateDigest(cfg, journal.trace, h.task, gate) && JustGranted(Now(), cap, intent)
      modifies h, journal, journal.ledger, gateway, gateway.store
      ensures Valid() && Prefix(old(journal.trace), journal.trace)
      ensures Returned(PerformFor(cfg, executor.handlers, old(Now()), h.task, s, cap, intent, after), h.task, r)
      ensures r.Done? ==> (r.value == h || fresh(r.value)) && AllInHand(r.value)
    {
      EffectMeans(cfg, Now(), h.task, s, executor.handlers, cap, intent);
      var performed := Effect(h.task, s, cap, intent);
      if performed.Failed? {
        return Failed(Crashed);
      }
      ghost var told := journal.trace;
      r := RecordOrHold(h, s, gate, intent, performed.value, after);
      PrefixTransitive(old(journal.trace), told, journal.trace);
    }

    /** Records the gate or says that its effect was refused. */
    method RecordOrHold(h: TaskHandle, s: string, gate: Step, intent: ActionIntent, performed: bool, after: Answers)
      returns (r: Result<TaskHandle>)
      requires Valid() && Created(journal.trace, h.task) && AllInHand(h) && RunOrder(cfg.StepsOf(h.task)).Some?
      requires FirstById(cfg.StepsOf(h.task), s) == Some(gate) && gate.kind.HumanGate?
      requires Digest(intent) == GateDigest(cfg, journal.trace, h.task, gate)
      requires performed ==> IsExecuted(journal.trace, Digest(intent))
      modifies h, journal, journal.ledger, gateway, gateway.store
      ensures Valid() && Prefix(old(journal.trace), journal.trace)
      ensures performed ==>
        var recorded := Tell(old(Now()), h.task, StepSucceeded(s, AUTHORIZED));
        Returned(ResumeFor(cfg, recorded, h.task, after), h.task, r)
      ensures !performed ==> Returned(Publish(old(Now()), h.task, FAILED_RETRYABLE, EffectRefused(s)), h.task, r)
      ensures r.Done? ==> (r.value == h || fresh(r.value)) && AllInHand(r.value)
    {
      if performed {
        r := GoOn(h.task, s, gate, intent, after);
      } else {
        r := Hold(h, EffectRefused(s));
      }
    }

    /** Submits the assertion. */
    method Ask(h: TaskHandle, gate: Step, intent: ActionIntent, sub: Submission) returns (r: Result<GateOutcome>)
      requires Valid() && Created(journal.trace, h.task) && AllInHand(h) && gate.kind.HumanGate?
      requires Digest(intent) == GateDigest(cfg, journal.trace, h.task, gate)
      modifies journal, journal.ledger, gateway, gateway.store
      ensures Valid() && Prefix(old(journal.trace), journal.trace)
      ensures Created(journal.trace, h.task) && AllInHand(h)
        && Digest(intent) == GateDigest(cfg, journal.trace, h.task, gate)
      ensures r.Done? ==> GateStep(r.value, Now()) == Submitted(cfg, old(Now()), intent, sub)
      ensures r.Done? && r.value.decision == Granted ==>
        r.value.capability.Some? && JustGranted(Now(), r.value.capability.value, intent)
    {
      GrantIsFresh(cfg, Now(), intent, sub);
      r := gateway.SubmitApproval(intent, sub);
      QuietKeeps(old(journal.trace), journal.trace, h.task, gate.id);
    }

    /** The part of `approve_step` that follows the first resume. */
    method AnswerGate(h: TaskHandle, s: string, gate: Step, call: Approving) returns (r: Result<TaskHandle>)
      requires Valid() && Created(journal.trace, h.task) && AllInHand(h) && RunOrder(cfg.StepsOf(h.task)).Some?
      requires FirstById(cfg.StepsOf(h.task), s) == Some(gate) && gate.kind.HumanGate?
      modifies h, journal, journal.ledger, gateway, gateway.store
      ensures Valid() && Prefix(old(journal.trace), journal.trace)
      ensures Returned(AnswerFor(cfg, Tools(), old(Now()), h.task, s, gate, call), h.task, r)
      ensures r.Done? ==> (r.value == h || fresh(r.value)) && AllInHand(r.value)
    {
      var intent := BuildIntent(h, gate);
      var outcome := Ask(h, gate, intent, call.sub);
      ghost var asked := journal.trace;
      if outcome.Failed? {
        return Failed(Crashed);
      }
      if outcome.value.decision != Granted {
        h.state, h.waiting := WAITING_FOR_HUMAN, OnApproval(s);
        return Done(h);
      }
      r := Commit(h, s, gate, outcome.value.capability.value, intent, call.after);
      PrefixTransitive(old(journal.trace), asked, journal.trace);
    }

    /** Submits one approver's assertion for a gate, and goes on with the task when the effect was
    performed. */
    method ApproveStep(t: TaskId, s: string, call: Approving) returns (r: Result<TaskHandle>)
      requires Valid() && Created(journal.trace, t)
      modifies journal, journal.ledger, gateway, gateway.store
      ensures Valid() && Prefix(old(journal.trace), journal.trace)
      ensures Returned(ApproveFor(cfg, Tools(), old(Now()), t, s, call), t, r)
      ensures r.Done? ==> fresh(r.value) && AllInHand(r.value)
    {
      var h :- ResumeTask(t, call.before);
      var gate := FirstById(cfg.StepsOf(t), s);
      if gate.None? || !gate.value.kind.HumanGate? {
        return Failed(NotAGate);
      }
      ghost var resumed := journal.trace;
      r := AnswerGate(h, s, gate.value, call);
      PrefixTransitive(old(journal.trace), resumed, journal.trace);
    }
  }
}
