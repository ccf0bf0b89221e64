/** When a created task can still reach SUCCEEDED, by resumes and approvals from the state it is in
(`comcmd/kernel/workflow.py`), on either approval store. */
module Completions {
  import opened Records
  import opened Aggregation
  import opened DependencyOrders
  import opened Protocol
  import opened Theorems
  import opened Journals
  import opened Gateways
  import opened GateHistories
  import opened Renewals
  import opened Runners
  import opened GateLimits
  import opened Finality
  import opened RunFinality
  import opened Compilation

  /** The runner and `approve_step` find the same declaration of every id, as they do when ids are
  unique. */
  predicate Unambiguous(steps: seq<Step>) {
    forall id <- ById(steps) :: FirstById(steps, id) == Some(ById(steps)[id])
  }

  lemma UnambiguousIsSettled(steps: seq<Step>)
    requires Unambiguous(steps)
    ensures GatesSettled(steps)
  {
    if RunOrder(steps).Some? {
      var order := RunOrder(steps).value;
      RunOrderIsRight(steps);
      forall k | 0 <= k < |order| ensures SettledAt(steps, order, k) {
        assert order[k] in order;
      }
    }
  }

  // ---- What success takes ------------------------------------------------------------------

  lemma {:induction false} SucceededRecords(cfg: Config, tr: Trace, t: TaskId, id: string)
    requires Legal(cfg, tr) && StateOf(tr, t) == SUCCEEDED && id in ById(cfg.StepsOf(t))
    ensures id in Recorded(tr, t)
  {
    if !(tr.act.Emit? && tr.act.event.task == t && tr.act.event.payload.StateChanged?) {
      SucceededRecords(cfg, tr.before, t, id);
    }
  }

  lemma {:induction false} RecordedIsOrdered(cfg: Config, tr: Trace, t: TaskId, id: string)
    requires Legal(cfg, tr) && id in Recorded(tr, t)
    ensures RunOrder(cfg.StepsOf(t)).Some?
  {
    if id in Recorded(tr.before, t) {
      RecordedIsOrdered(cfg, tr.before, t, id);
    }
  }

  lemma SucceededIsOrdered(cfg: Config, tr: Trace, t: TaskId)
    requires Legal(cfg, tr) && StateOf(tr, t) == SUCCEEDED
    ensures RunOrder(cfg.StepsOf(t)).Some?
  {
    var steps := cfg.StepsOf(t);
    if steps == [] {
      assert Ids(steps) == [] && OrderAll(Needs(steps), []) == Ordered([]);
    } else {
      assert steps[0].id in ById(steps);
      SucceededRecords(cfg, tr, t, steps[0].id);
      RecordedIsOrdered(cfg, tr, t, steps[0].id);
    }
  }

  lemma {:induction false} RecordedPassed(cfg: Config, tr: Trace, t: TaskId, id: string)
    requires Legal(cfg, tr) && Unambiguous(cfg.StepsOf(t)) && id in Recorded(tr, t) && id in ById(cfg.StepsOf(t))
    ensures Passed(ById(cfg.StepsOf(t))[id], Recorded(tr, t)[id])
  {
    if !RecordsStep(tr.act, t, id) {
      RecordedPassed(cfg, tr.before, t, id);
    }
  }

  /** A gate that is on record or can be approved. */
  ghost predicate GateOpen(cfg: Config, s: GateState, t: TaskId, id: string)
    requires GateFirst(cfg.StepsOf(t), id)
  {
    var d := GateDigest(cfg, s.trace, t, FirstById(cfg.StepsOf(t), id).value);
    cfg.Approvable(d) && (id in Recorded(s.trace, t) || Lives(cfg, d))
  }

  /** The steps can be ordered, every gate is on record or can be approved, and every verify step passes
  on the values of the steps it needs. */
  ghost predicate Attainable(cfg: Config, s: GateState, t: TaskId) {
    var steps := cfg.StepsOf(t);
    && RunOrder(steps).Some?
    && forall id <- ById(steps) ::
         && (GateFirst(steps, id) ==> GateOpen(cfg, s, t, id))
         && Find(Meaning(cfg, t, RunOrder(steps).value), id).Some?
         && Passed(ById(steps)[id], Meaning(cfg, t, RunOrder(steps).value)[id])
  }

  // ---- Calls in time -----------------------------------------------------------------------

  ghost predicate CallWithin(c: Call, from: real, to: real) {
    match c
    case Renew => false
    case Resume(answers) => AnswersWithin(answers, from, to)
    case Approve(_, call) => ApproveWithin(call, from, to)
  }

  /** No process is replaced, and the clock goes from `since` to `until`. */
  ghost predicate Elapses(calls: seq<Call>, since: real, until: real) {
    if calls == [] then since <= until
    else
      var init, last := calls[..|calls| - 1], calls[|calls| - 1];
      exists mid :: mid <= until && Elapses(init, since, mid) && CallWithin(last, mid, until)
  }

  lemma {:induction false} ElapsesOn(a: seq<Call>, b: seq<Call>, from: real, mid: real, to: real)
    requires Elapses(a, from, mid) && Elapses(b, mid, to)
    ensures Elapses(a + b, from, to)
    decreases |b|
  {
    if b == [] {
      assert a + b == a;
      ElapsesLater(a, from, mid, to);
    } else {
      var init, last := b[..|b| - 1], b[|b| - 1];
      var at :| at <= to && Elapses(init, mid, at) && CallWithin(last, at, to);
      ElapsesOn(a, init, from, mid, at);
      assert (a + b)[..|a + b| - 1] == a + init;
    }
  }

  lemma AnswersLater(answers: Answers, from: real, to: real, later: real)
    requires AnswersWithin(answers, from, to) && to <= later
    ensures AnswersWithin(answers, from, later)
  {
    forall id ensures AnswerWithin(answers(id), from, later) {
      assert AnswerWithin(answers(id), from, to);
    }
  }

  lemma {:induction false} ElapsesLater(calls: seq<Call>, from: real, to: real, later: real)
    requires Elapses(calls, from, to) && to <= later
    ensures Elapses(calls, from, later)
  {
    if calls != [] {
      var init, last := calls[..|calls| - 1], calls[|calls| - 1];
      var mid :| mid <= to && Elapses(init, from, mid) && CallWithin(last, mid, to);
      match last
      case Resume(answers) =>
        AnswersLater(answers, mid, to, later);
        assert CallWithin(last, mid, later);
      case Approve(_, call) =>
        AnswersLater(call.after, call.sub.now, to, later);
        assert CallWithin(last, mid, later);
      case Renew =>
    }
  }

  lemma {:induction false} ApprovalsElapse(id: string, calls: seq<Approving>, now: real)
    requires AllAt(calls, now)
    ensures Elapses(ApprovalCalls(id, calls), now, now)
  {
    if calls != [] {
      var init := calls[..|calls| - 1];
      ApprovalsElapse(id, init, now);
      assert ApprovalCalls(id, calls)[..|calls| - 1] == ApprovalCalls(id, init);
      assert CallWithin(Approve(id, calls[|calls| - 1]), now, now);
    }
  }

  lemma PerformPast(cfg: Config, handlers: Handlers, s: GateState, t: TaskId, c: Call, from: real, to: real)
    requires Past(s.records, from) && from <= to && CallWithin(c, from, to)
    ensures Past(Perform(cfg, handlers, s, t, c).records, to)
  {
    match c
    case Resume(answers) => ResumePast(cfg, s, t, answers, from, to);
    case Approve(id, call) => ApprovePast(cfg, handlers, s, t, id, call, from, to);
  }

  lemma {:induction false} RunPast(cfg: Config, handlers: Handlers, s: GateState, t: TaskId, calls: seq<Call>,
                                   since: real, until: real)
    requires Past(s.records, since) && Elapses(calls, since, until)
    ensures since <= until && Past(Run(cfg, handlers, s, t, calls).records, until)
  {
    if calls != [] {
      var init, last := calls[..|calls| - 1], calls[|calls| - 1];
      var mid :| mid <= until && Elapses(init, since, mid) && CallWithin(last, mid, until);
      RunPast(cfg, handlers, s, t, init, since, mid);
      PerformPast(cfg, handlers, Run(cfg, handlers, s, t, init), t, last, mid, until);
    }
  }

  // ---- Steps that only their approval records ----------------------------------------------

  /** A gate, or a work step whose worker defers. */
  predicate Withheld(cfg: Config, t: TaskId, answers: Answers, x: string) {
    GateLast(cfg.StepsOf(t), x)
    || (x in ById(cfg.StepsOf(t)) && ById(cfg.StepsOf(t))[x].kind.Work? && answers(x).status == Deferred)
  }

  lemma {:induction false} DriveWithholds(cfg: Config, s: GateState, t: TaskId, order: seq<string>, i: nat,
                                              answers: Answers, x: string)
    requires InRun(cfg, s, t) && RunOrder(cfg.StepsOf(t)) == Some(order) && RecordedTo(s.trace, t, order, i)
    requires Withheld(cfg, t, answers, x) && x !in Recorded(s.trace, t)
    ensures x !in Recorded(DriveFor(cfg, s, t, order[i..], answers).now.trace, t)
    decreases |order| - i
  {
    if i < |order| {
      assert order[i..][0] == order[i] && order[i..][1..] == order[i + 1..];
      if order[i] in Recorded(s.trace, t) {
        DriveWithholds(cfg, s, t, order, i + 1, answers, x);
      } else {
        OrderIsDeclared(cfg.StepsOf(t), order, i);
        StepWithholds(cfg, s, t, order, i, answers, x);
        match StepFor(cfg, s, t, ById(cfg.StepsOf(t))[order[i]], answers(order[i]))
        case GoesOn(now) => DriveWithholds(cfg, now, t, order, i + 1, answers, x);
        case Ends(run) =>
      }
    }
  }

  ghost predicate StaysOut(cfg: Config, t: TaskId, order: seq<string>, i: nat, x: string, y: Stepped) {
    match y
    case GoesOn(now) => InRun(cfg, now, t) && RecordedTo(now.trace, t, order, i + 1) && x !in Recorded(now.trace, t)
    case Ends(run) => x !in Recorded(run.now.trace, t)
  }

  lemma StepWithholds(cfg: Config, s: GateState, t: TaskId, order: seq<string>, i: nat, answers: Answers,
                      x: string)
    requires InRun(cfg, s, t) && RunOrder(cfg.StepsOf(t)) == Some(order) && RecordedTo(s.trace, t, order, i)
    requires i < |order| && order[i] in ById(cfg.StepsOf(t)) && order[i] !in Recorded(s.trace, t)
    requires Withheld(cfg, t, answers, x) && x !in Recorded(s.trace, t)
    ensures StaysOut(cfg, t, order, i, x, StepFor(cfg, s, t, ById(cfg.StepsOf(t))[order[i]], answers(order[i])))
  {
    TurnOf(cfg, s.trace, t, order, i);
    StepMeans(cfg, s, t, ById(cfg.StepsOf(t))[order[i]], answers(order[i]));
  }

  lemma ResumeWithholds(cfg: Config, s: GateState, t: TaskId, answers: Answers, x: string)
    requires InRun(cfg, s, t) && Withheld(cfg, t, answers, x) && x !in Recorded(s.trace, t)
    ensures x !in Recorded(ResumeFor(cfg, s, t, answers).now.trace, t)
  {
    if RunOrder(cfg.StepsOf(t)).Some? {
      var order := RunOrder(cfg.StepsOf(t)).value;
      assert order[0..] == order;
      DriveWithholds(cfg, s, t, order, 0, answers, x);
    }
  }

  lemma CommitRecordsNoOther(cfg: Config, handlers: Handlers, s: GateState, t: TaskId, id: string, call: Approving,
                             x: string)
    requires InRun(cfg, s, t) && Asked(cfg, s, t, id, call) && Withheld(cfg, t, call.after, x) && x != id
    requires SubmissionOf(cfg, s, t, id, call).outcome.decision == Granted
    requires x !in Recorded(SubmissionOf(cfg, s, t, id, call).state.trace, t)
    ensures x !in Recorded(ApproveFor(cfg, handlers, s, t, id, call).now.trace, t)
  {
    var step, intent := SubmissionOf(cfg, s, t, id, call), AskedDigest(cfg, s, t, id, call).of;
    AskedMeans(cfg, s, t, id, call);
    GrantedIsCommitted(cfg, handlers, s, t, id, call);
    if handlers.Some? {
      var told := EffectFor(step.state, t, id, handlers.value, step.outcome.capability.value, intent);
      EffectMeans(cfg, step.state, t, id, handlers.value, step.outcome.capability.value, intent);
      if Performable(handlers, step.state.trace, intent) {
        InertSound(cfg, told, Emit(Event(t, StepSucceeded(id, AUTHORIZED))));
        ResumeWithholds(cfg, Tell(told, t, StepSucceeded(id, AUTHORIZED)), t, call.after, x);
      }
    }
  }

  /** Such a step was committed by the call that puts it on record. */
  lemma RecordedByCommit(cfg: Config, handlers: Handlers, s: GateState, t: TaskId, id: string, call: Approving,
                         x: string)
    requires InRun(cfg, s, t) && x !in Recorded(s.trace, t)
    requires Withheld(cfg, t, call.before, x) && Withheld(cfg, t, call.after, x)
    requires x in Recorded(ApproveFor(cfg, handlers, s, t, id, call).now.trace, t)
    ensures x == id && Commits(cfg, handlers, s, t, id, call)
  {
    ResumeWithholds(cfg, s, t, call.before, x);
    ApproveMeans(cfg, handlers, s, t, id, call);
    if Asked(cfg, s, t, id, call) {
      AskedMeans(cfg, s, t, id, call);
      if x != id && SubmissionOf(cfg, s, t, id, call).outcome.decision == Granted {
        CommitRecordsNoOther(cfg, handlers, s, t, id, call, x);
      }
    }
  }

  // ---- What success leaves to be shown -----------------------------------------------------

  /** A gate that a run puts on record could be approved, and its record did not expire at once. */
  lemma {:induction false} RunOpensGate(cfg: Config, handlers: Handlers, s: GateState, t: TaskId, calls: seq<Call>,
                                        x: string, since: real, until: real)
    requires InRun(cfg, s, t) && Past(s.records, since) && Elapses(calls, since, until)
    requires GateFirst(cfg.StepsOf(t), x) && GateLast(cfg.StepsOf(t), x) && x !in Recorded(s.trace, t)
    requires x in Recorded(Run(cfg, handlers, s, t, calls).trace, t)
    ensures GateOpen(cfg, s, t, x)
  {
    var init, last := calls[..|calls| - 1], calls[|calls| - 1];
    var before := Run(cfg, handlers, s, t, init);
    var mid :| mid <= until && Elapses(init, since, mid) && CallWithin(last, mid, until);
    RunBegun(cfg, handlers, s, t, init);
    if x in Recorded(before.trace, t) {
      RunOpensGate(cfg, handlers, s, t, init, x, since, mid);
    } else {
      RunPast(cfg, handlers, s, t, init, since, mid);
      CallOpensGate(cfg, handlers, before, t, last, x, mid, until);
      GateOpensAlike(cfg, s, t, before, x);
    }
  }

  lemma CallOpensGate(cfg: Config, handlers: Handlers, s: GateState, t: TaskId, c: Call, x: string, from: real,
                      to: real)
    requires InRun(cfg, s, t) && Past(s.records, from) && CallWithin(c, from, to)
    requires GateFirst(cfg.StepsOf(t), x) && GateLast(cfg.StepsOf(t), x) && x !in Recorded(s.trace, t)
    requires x in Recorded(Perform(cfg, handlers, s, t, c).trace, t)
    ensures GateOpen(cfg, s, t, x)
  {
    match c
    case Resume(answers) => ResumeWithholds(cfg, s, t, answers, x);
    case Approve(id, call) => ApproveOpensGate(cfg, handlers, s, t, id, call, x, from, to);
    case Renew =>
  }

  lemma ApproveOpensGate(cfg: Config, handlers: Handlers, s: GateState, t: TaskId, id: string, call: Approving,
                         x: string, from: real, to: real)
    requires InRun(cfg, s, t) && Past(s.records, from) && ApproveWithin(call, from, to)
    requires GateFirst(cfg.StepsOf(t), x) && GateLast(cfg.StepsOf(t), x) && x !in Recorded(s.trace, t)
    requires x in Recorded(ApproveFor(cfg, handlers, s, t, id, call).now.trace, t)
    ensures GateOpen(cfg, s, t, x)
  {
    RecordedByCommit(cfg, handlers, s, t, id, call, x);
    CommitShows(cfg, handlers, s, t, id, call, from, to);
  }

  lemma GateOpensAlike(cfg: Config, a: GateState, t: TaskId, b: GateState, x: string)
    requires GateFirst(cfg.StepsOf(t), x) && x !in Recorded(b.trace, t) && GateOpen(cfg, b, t, x)
    ensures GateOpen(cfg, a, t, x)
  {
  }

  lemma SuccessNeeds(cfg: Config, handlers: Handlers, s: GateState, t: TaskId, calls: seq<Call>, since: real,
                     until: real)
    requires Unambiguous(cfg.StepsOf(t)) && InRun(cfg, s, t) && Past(s.records, since) && Elapses(calls, since, until)
    requires StateOf(Run(cfg, handlers, s, t, calls).trace, t) == SUCCEEDED
    ensures Attainable(cfg, s, t)
  {
    var steps, after := cfg.StepsOf(t), Run(cfg, handlers, s, t, calls);
    RunBegun(cfg, handlers, s, t, calls);
    SucceededIsOrdered(cfg, after.trace, t);
    forall id | id in ById(steps)
      ensures GateFirst(steps, id) ==> GateOpen(cfg, s, t, id)
      ensures Find(Meaning(cfg, t, RunOrder(steps).value), id).Some?
      ensures Passed(ById(steps)[id], Meaning(cfg, t, RunOrder(steps).value)[id])
    {
      SucceededRecords(cfg, after.trace, t, id);
      RecordedHasPassed(cfg, after.trace, t, id);
      if GateFirst(steps, id) {
        if id in Recorded(s.trace, t) {
          RecordedGateWasApproved(cfg, s.trace, t, id);
        } else {
          RunOpensGate(cfg, handlers, s, t, calls, id, since, until);
        }
      }
    }
  }

  lemma RecordedHasPassed(cfg: Config, tr: Trace, t: TaskId, id: string)
    requires Legal(cfg, tr) && Unambiguous(cfg.StepsOf(t)) && RunOrder(cfg.StepsOf(t)).Some?
    requires id in Recorded(tr, t) && id in ById(cfg.StepsOf(t))
    ensures var meaning := Meaning(cfg, t, RunOrder(cfg.StepsOf(t)).value);
      id in meaning && meaning[id] == Recorded(tr, t)[id] && Passed(ById(cfg.StepsOf(t))[id], meaning[id])
  {
    UnambiguousIsSettled(cfg.StepsOf(t));
    RunOrderIsRight(cfg.StepsOf(t));
    RecordedIsMeaning(cfg, tr, t, RunOrder(cfg.StepsOf(t)).value, id);
    RecordedPassed(cfg, tr, t, id);
  }

  // ---- Getting there -----------------------------------------------------------------------

  /** Every worker succeeds and emits no intent. */
  function OkAt(now: real): Answers {
    _ => Answer(Ok, [], now, 0)
  }

  /** All tools of the actions have handlers. */
  function AllTools(cfg: Config): Handlers {
    Some(set a | a in cfg.actions :: cfg.actions[a].tool)
  }

  lemma UpstreamMeans(cfg: Config, tr: Trace, t: TaskId, order: seq<string>, needs: seq<string>)
    requires Legal(cfg, tr) && GatesSettled(cfg.StepsOf(t)) && RunOrder(cfg.StepsOf(t)) == Some(order)
    requires forall n <- needs :: n in Recorded(tr, t)
    ensures Upstream(Recorded(tr, t), needs) == Upstream(Meaning(cfg, t, order), needs)
  {
    RunOrderIsRight(cfg.StepsOf(t));
    forall n | n in needs ensures Find(Recorded(tr, t), n) == Find(Meaning(cfg, t, order), n) {
      RecordedIsMeaning(cfg, tr, t, order, n);
    }
    UpstreamAgrees(Recorded(tr, t), Meaning(cfg, t, order), needs);
  }

  /** A step that is no gate is recorded when its worker succeeds. */
  lemma NextPasses(cfg: Config, s: GateState, t: TaskId, order: seq<string>, j: nat, a: Answer)
    requires Compiles(cfg.StepsOf(t)) && Unambiguous(cfg.StepsOf(t)) && Attainable(cfg, s, t)
    requires InRun(cfg, s, t) && RunOrder(cfg.StepsOf(t)) == Some(order) && RecordedTo(s.trace, t, order, j)
    requires j < |order| && order[j] in ById(cfg.StepsOf(t)) && order[j] !in Recorded(s.trace, t)
    requires !GateLast(cfg.StepsOf(t), order[j]) && a.status == Ok
    ensures StepFor(cfg, s, t, ById(cfg.StepsOf(t))[order[j]], a).GoesOn?
  {
    var step := ById(cfg.StepsOf(t))[order[j]];
    CompiledStep(cfg.StepsOf(t), order[j]);
    if step.kind.Verify? {
      TurnOf(cfg, s.trace, t, order, j);
      EnoughVerifiers(cfg, s.trace, t, order, order[j]);
    }
  }

  lemma EnoughVerifiers(cfg: Config, tr: Trace, t: TaskId, order: seq<string>, id: string)
    requires Legal(cfg, tr) && Unambiguous(cfg.StepsOf(t)) && RunOrder(cfg.StepsOf(t)) == Some(order)
    requires id in ById(cfg.StepsOf(t)) && ById(cfg.StepsOf(t))[id].kind.Verify?
    requires ById(cfg.StepsOf(t))[id].kind.verifiers > 0
    requires id in Meaning(cfg, t, order) && Passed(ById(cfg.StepsOf(t))[id], Meaning(cfg, t, order)[id])
    requires forall n <- ById(cfg.StepsOf(t))[id].needs :: n in Recorded(tr, t)
    ensures var step := ById(cfg.StepsOf(t))[id];
      ApprovalsOf(cfg, t, step, Upstream(Recorded(tr, t), step.needs)) >= VerifyQuorum(step.kind.verifyQuorum)
  {
    var step := ById(cfg.StepsOf(t))[id];
    UnambiguousIsSettled(cfg.StepsOf(t));
    UpstreamMeans(cfg, tr, t, order, step.needs);
    RunOrderIsRight(cfg.StepsOf(t));
    MeaningIsFixedPoint(cfg, t, order, id);
    assert Meaning(cfg, t, order)[id] == StepValue(cfg, t, step, Upstream(Meaning(cfg, t, order), step.needs));
    PassedByEnough(cfg, t, step, Upstream(Meaning(cfg, t, order), step.needs));
  }

  lemma PassedByEnough(cfg: Config, t: TaskId, step: Step, up: map<string, Option<Artifact>>)
    requires step.kind.Verify? && step.kind.verifiers > 0 && Passed(step, StepValue(cfg, t, step, up))
    ensures ApprovalsOf(cfg, t, step, up) >= VerifyQuorum(step.kind.verifyQuorum)
  {
    VerdictsAreValue(cfg, t, step, up);
  }

  lemma AttainableLater(cfg: Config, s: GateState, t: TaskId, after: GateState)
    requires Attainable(cfg, s, t) && Prefix(s.trace, after.trace)
    ensures Attainable(cfg, after, t)
  {
    RecordedStays(s.trace, after.trace, t);
  }

  /** The gate whose turn has come can be committed: its own decision is taken at the halt. */
  lemma NextGateCommits(cfg: Config, s: GateState, t: TaskId, order: seq<string>, j: nat, since: real)
    requires Unambiguous(cfg.StepsOf(t)) && Attainable(cfg, s, t) && InRun(cfg, s, t)
    requires RunOrder(cfg.StepsOf(t)) == Some(order) && RecordedTo(s.trace, t, order, j) && j < |order|
    requires order[j] !in Recorded(s.trace, t) && GateLast(cfg.StepsOf(t), order[j])
    ensures Committable(cfg, s, t, order[j], since)
    ensures HaltDigest(cfg, s, t, FirstById(cfg.StepsOf(t), order[j]).value).of.tool in AllTools(cfg).value
  {
    var gate := ById(cfg.StepsOf(t))[order[j]];
    HaltIsLast(cfg, s, t, order, j);
    assert order[j..][0] == order[j];
    GateHasItsTool(cfg, s.trace, t, gate);
  }

  /** What brings the record of steps one step further. */
  ghost predicate Advances(cfg: Config, s: GateState, t: TaskId, calls: seq<Call>, order: seq<string>, j: nat,
                           since: real, until: real)
  {
    && Elapses(calls, since, until) && RecordedTo(Run(cfg, AllTools(cfg), s, t, calls).trace, t, order, j)
  }

  lemma GateAdvances(cfg: Config, s: GateState, t: TaskId, order: seq<string>, j: nat, since: real)
    returns (calls: seq<Call>, until: real)
    requires Unambiguous(cfg.StepsOf(t)) && Attainable(cfg, s, t) && InRun(cfg, s, t)
    requires RunOrder(cfg.StepsOf(t)) == Some(order) && RecordedTo(s.trace, t, order, j) && j < |order|
    requires order[j] !in Recorded(s.trace, t) && GateLast(cfg.StepsOf(t), order[j])
    ensures Advances(cfg, s, t, calls, order, j + 1, since, until)
  {
    NextGateCommits(cfg, s, t, order, j, since);
    var approvals, now := SomeCallsCommit(cfg, AllTools(cfg), s, t, order[j], since);
    calls, until := ApprovalCalls(order[j], approvals), now;
    LastCallRecords(cfg, AllTools(cfg), s, t, order[j], approvals);
    ApprovalsRun(cfg, AllTools(cfg), s, t, order[j], approvals);
    RunBegun(cfg, AllTools(cfg), s, t, calls);
    RecordedStays(s.trace, Run(cfg, AllTools(cfg), s, t, calls).trace, t);
    ApprovalsElapse(order[j], approvals, now);
    ElapsesOn([], calls, since, now, now);
    assert [] + calls == calls;
  }

  lemma WorkAdvances(cfg: Config, s: GateState, t: TaskId, order: seq<string>, j: nat, since: real)
    requires Compiles(cfg.StepsOf(t)) && Unambiguous(cfg.StepsOf(t)) && Attainable(cfg, s, t) && InRun(cfg, s, t)
    requires RunOrder(cfg.StepsOf(t)) == Some(order) && RecordedTo(s.trace, t, order, j) && j < |order|
    requires order[j] in ById(cfg.StepsOf(t)) && order[j] !in Recorded(s.trace, t)
    requires !GateLast(cfg.StepsOf(t), order[j])
    ensures Advances(cfg, s, t, [Resume(OkAt(since))], order, j + 1, since, since)
  {
    var calls := [Resume(OkAt(since))];
    NextPasses(cfg, s, t, order, j, OkAt(since)(order[j]));
    assert order[0..] == order;
    DriveReaches(cfg, s, t, order, 0, j, OkAt(since));
    OnlyCall(cfg, AllTools(cfg), s, t, Resume(OkAt(since)), since);
    PerformBegun(cfg, AllTools(cfg), s, t, Resume(OkAt(since)));
    RecordedStays(s.trace, Run(cfg, AllTools(cfg), s, t, calls).trace, t);
  }

  lemma OnlyCall(cfg: Config, handlers: Handlers, s: GateState, t: TaskId, c: Call, now: real)
    requires CallWithin(c, now, now)
    ensures Run(cfg, handlers, s, t, [c]) == Perform(cfg, handlers, s, t, c) && Elapses([c], now, now)
  {
    assert [c][..0] == [] && Elapses([], now, now);
  }

  lemma {:induction false} Reaches(cfg: Config, s: GateState, t: TaskId, order: seq<string>, j: nat, since: real)
    returns (calls: seq<Call>, until: real)
    requires Compiles(cfg.StepsOf(t)) && Unambiguous(cfg.StepsOf(t)) && Attainable(cfg, s, t) && InRun(cfg, s, t)
    requires RunOrder(cfg.StepsOf(t)) == Some(order) && j <= |order|
    ensures Advances(cfg, s, t, calls, order, j, since, until)
  {
    if j == 0 {
      calls, until := [], since;
    } else {
      var before, mid := Reaches(cfg, s, t, order, j - 1, since);
      var now := Run(cfg, AllTools(cfg), s, t, before);
      RunBegun(cfg, AllTools(cfg), s, t, before);
      AttainableLater(cfg, s, t, now);
      var more, to := ReachesNext(cfg, now, t, order, j - 1, mid);
      calls, until := before + more, to;
      RunAfter(cfg, AllTools(cfg), s, t, before, more);
      ElapsesOn(before, more, since, mid, to);
    }
  }

  lemma NothingAdvances(cfg: Config, s: GateState, t: TaskId, order: seq<string>, j: nat, since: real)
    requires RecordedTo(s.trace, t, order, j) && j < |order| && order[j] in Recorded(s.trace, t)
    ensures Advances(cfg, s, t, [], order, j + 1, since, since)
  {
    assert Run(cfg, AllTools(cfg), s, t, []) == s;
  }

  lemma ReachesNext(cfg: Config, s: GateState, t: TaskId, order: seq<string>, j: nat, since: real)
    returns (calls: seq<Call>, until: real)
    requires Compiles(cfg.StepsOf(t)) && Unambiguous(cfg.StepsOf(t)) && Attainable(cfg, s, t) && InRun(cfg, s, t)
    requires RunOrder(cfg.StepsOf(t)) == Some(order) && RecordedTo(s.trace, t, order, j) && j < |order|
    ensures Advances(cfg, s, t, calls, order, j + 1, since, until)
  {
    OrderIsDeclared(cfg.StepsOf(t), order, j);
    if order[j] in Recorded(s.trace, t) {
      NothingAdvances(cfg, s, t, order, j, since);
      calls, until := [], since;
    } else if GateLast(cfg.StepsOf(t), order[j]) {
      calls, until := GateAdvances(cfg, s, t, order, j, since);
    } else {
      WorkAdvances(cfg, s, t, order, j, since);
      calls, until := [Resume(OkAt(since))], since;
    }
  }

  lemma AllRecordedSucceeds(cfg: Config, s: GateState, t: TaskId, order: seq<string>, now: real)
    requires InRun(cfg, s, t) && RunOrder(cfg.StepsOf(t)) == Some(order) && RecordedTo(s.trace, t, order, |order|)
    ensures StateOf(ResumeFor(cfg, s, t, OkAt(now)).now.trace, t) == SUCCEEDED
  {
    HaltIsLast(cfg, s, t, order, |order|);
    ResumeHalts(cfg, s, t, OkAt(now));
  }

  /** Resumes and approvals from `since` on, in one process, that bring the task to SUCCEEDED. */
  ghost predicate CanSucceed(cfg: Config, s: GateState, t: TaskId, since: real) {
    exists handlers, calls, until ::
      Elapses(calls, since, until) && StateOf(Run(cfg, handlers, s, t, calls).trace, t) == SUCCEEDED
  }

  lemma SuccessIsReached(cfg: Config, s: GateState, t: TaskId, since: real) returns (calls: seq<Call>, until: real)
    requires Compiles(cfg.StepsOf(t)) && Unambiguous(cfg.StepsOf(t)) && Attainable(cfg, s, t) && InRun(cfg, s, t)
    ensures Elapses(calls, since, until) && StateOf(Run(cfg, AllTools(cfg), s, t, calls).trace, t) == SUCCEEDED
  {
    var order := RunOrder(cfg.StepsOf(t)).value;
    var before, mid := Reaches(cfg, s, t, order, |order|, since);
    var now, last := Run(cfg, AllTools(cfg), s, t, before), Resume(OkAt(mid));
    RunBegun(cfg, AllTools(cfg), s, t, before);
    AllRecordedSucceeds(cfg, now, t, order, mid);
    OnlyCall(cfg, AllTools(cfg), now, t, last, mid);
    calls, until := before + [last], mid;
    RunAfter(cfg, AllTools(cfg), s, t, before, [last]);
    ElapsesOn(before, [last], since, mid, mid);
  }

  /** From any sound state of either store, a created task of a compiled workflow can reach SUCCEEDED
  exactly when its steps can be ordered, every gate is on record or can be approved, and every verify
  step passes on the values of the steps it needs. */
  lemma SucceedsIff(cfg: Config, s: GateState, t: TaskId, since: real)
    requires Compiles(cfg.StepsOf(t)) && Unambiguous(cfg.StepsOf(t))
    requires Sound(cfg, s) && Created(s.trace, t) && Past(s.records, since)
    ensures CanSucceed(cfg, s, t, since) <==> Attainable(cfg, s, t)
  {
    if CanSucceed(cfg, s, t, since) {
      var handlers, calls, until :|
        Elapses(calls, since, until) && StateOf(Run(cfg, handlers, s, t, calls).trace, t) == SUCCEEDED;
      SuccessNeeds(cfg, handlers, s, t, calls, since, until);
    }
    if Attainable(cfg, s, t) {
      var calls, until := SuccessIsReached(cfg, s, t, since);
    }
  }
}
