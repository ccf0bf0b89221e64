/** When `approve_step` calls the handler of its gate's intent: for the first time, or again after a
process died between the handler and the receipt (`comcmd/kernel/workflow.py`,
`comcmd/kernel/executor.py`). */
module Reruns {
  import opened Records
  import opened Aggregation
  import opened Protocol
  import opened Journals
  import opened Workers
  import opened Gateways
  import opened GateHistories
  import opened GateRuns
  import opened Renewals
  import opened Executors
  import opened Runners
  import opened GateLimits

  // ---- Resumes cause no effect -------------------------------------------------------------

  lemma {:induction false} RunsAreHarmless(tr: Trace, t: TaskId, id: string, n: nat)
    ensures Harmless(tr, RanTrace(tr, t, id, n))
  {
    if n > 0 {
      RunsAreHarmless(tr, t, id, n - 1);
    }
  }

  function TraceOf(x: Stepped): Trace {
    match x
    case GoesOn(now) => now.trace
    case Ends(run) => run.now.trace
  }

  lemma WorkIsHarmless(cfg: Config, s: GateState, t: TaskId, step: Step, a: Answer)
    requires Sound(cfg, s) && Next(cfg, s.trace, t, step) && step.kind.Work?
    ensures Harmless(s.trace, TraceOf(WorkFor(cfg, s, t, step, a)))
  {
    var up := Upstream(Recorded(s.trace, t), step.needs);
    var after := WorkRan(cfg, s, t, step, a.requests);
    RanIsHarmless(cfg, s, t, step, a.requests);
    EndIsHarmless(after, t, step, a.status, cfg.work(EnvelopeFor(cfg, t, step, t.inputs, Plain, up)));
    HarmlessTransitive(s.trace, after.trace, TraceOf(WorkFor(cfg, s, t, step, a)));
  }

  lemma EndIsHarmless(ran: GateState, t: TaskId, step: Step, status: Status, artifact: Option<Artifact>)
    ensures Harmless(ran.trace, TraceOf(WorkEnds(ran, t, step, status, artifact)))
  {
  }

  lemma RanIsHarmless(cfg: Config, s: GateState, t: TaskId, step: Step, requests: seq<Request>)
    requires Sound(cfg, s) && Next(cfg, s.trace, t, step) && step.kind.Work?
    ensures Harmless(s.trace, WorkRan(cfg, s, t, step, requests).trace)
  {
    var ran := RanWorkers(Begin(s, t, step), t, step.id, 1);
    RunsMean(cfg, s, t, step, 1);
    DecideAllSound(cfg, ran, requests);
    GatedIsHarmless(ran.trace, WorkRan(cfg, s, t, step, requests).trace);
    RunsAreHarmless(Begin(s, t, step).trace, t, step.id, 1);
    assert Harmless(s.trace, Begin(s, t, step).trace);
    HarmlessTransitive(s.trace, Begin(s, t, step).trace, ran.trace);
    HarmlessTransitive(s.trace, ran.trace, WorkRan(cfg, s, t, step, requests).trace);
  }

  lemma PoolIsHarmless(cfg: Config, s: GateState, t: TaskId, step: Step, a: Answer)
    requires step.kind.Fanout? || step.kind.Verify?
    ensures Harmless(s.trace, TraceOf(StepFor(cfg, s, t, step, a)))
  {
    var begun, x := Begin(s, t, step), StepFor(cfg, s, t, step, a);
    assert Harmless(s.trace, begun.trace);
    if RunsOf(step) > 0 {
      var ran := RanWorkers(begun, t, step.id, RunsOf(step));
      RunsAreHarmless(begun.trace, t, step.id, RunsOf(step));
      HarmlessTransitive(s.trace, begun.trace, ran.trace);
      assert TraceOf(x) == begun.trace || Harmless(ran.trace, TraceOf(x));
      if TraceOf(x) != begun.trace {
        HarmlessTransitive(s.trace, ran.trace, TraceOf(x));
      }
    }
  }

  lemma StepIsHarmless(cfg: Config, s: GateState, t: TaskId, step: Step, a: Answer)
    requires Sound(cfg, s) && Next(cfg, s.trace, t, step)
    ensures Harmless(s.trace, TraceOf(StepFor(cfg, s, t, step, a)))
  {
    match step.kind
    case Work => WorkIsHarmless(cfg, s, t, step, a);
    case HumanGate(_) =>
      var decided := Decided(cfg, s, GateDigest(cfg, s.trace, t, step).of, a.now, a.challenge).state;
      DecidedSound(cfg, s, GateDigest(cfg, s.trace, t, step).of, a.now, a.challenge);
      GatedIsHarmless(s.trace, decided.trace);
    case _ => PoolIsHarmless(cfg, s, t, step, a);
  }

  lemma {:induction false} DriveIsHarmless(cfg: Config, s: GateState, t: TaskId, order: seq<string>, i: nat,
                                           answers: Answers)
    requires Sound(cfg, s) && Created(s.trace, t) && RunOrder(cfg.StepsOf(t)) == Some(order)
    requires RecordedTo(s.trace, t, order, i)
    ensures Harmless(s.trace, DriveFor(cfg, s, t, order[i..], answers).now.trace)
    decreases |order| - i
  {
    if i < |order| {
      assert order[i..][0] == order[i] && order[i..][1..] == order[i + 1..];
      if order[i] in Recorded(s.trace, t) {
        DriveIsHarmless(cfg, s, t, order, i + 1, answers);
      } else {
        TurnOf(cfg, s.trace, t, order, i);
        var step := ById(cfg.StepsOf(t))[order[i]];
        StepIsHarmless(cfg, s, t, step, answers(order[i]));
        StepMeans(cfg, s, t, step, answers(order[i]));
        match StepFor(cfg, s, t, step, answers(order[i]))
        case GoesOn(now) =>
          DriveIsHarmless(cfg, now, t, order, i + 1, answers);
          HarmlessTransitive(s.trace, now.trace, DriveFor(cfg, now, t, order[i + 1..], answers).now.trace);
        case Ends(run) =>
      }
    }
  }

  lemma ResumeIsHarmless(cfg: Config, s: GateState, t: TaskId, answers: Answers)
    requires Sound(cfg, s) && Created(s.trace, t)
    ensures Harmless(s.trace, ResumeFor(cfg, s, t, answers).now.trace)
  {
    if RunOrder(cfg.StepsOf(t)).Some? {
      var order := RunOrder(cfg.StepsOf(t)).value;
      assert order[0..] == order;
      DriveIsHarmless(cfg, s, t, order, 0, answers);
    }
  }

  // ---- What one call runs ------------------------------------------------------------------

  /** What the effect of a granted intent does to the calls of the handler of `d`. */
  ghost predicate Counts(before: Trace, after: Trace, d: Digest, runs: bool) {
    && Calls(after, d) == Calls(before, d) + (if runs then 1 else 0)
    && (IsExecuted(after, d) <==> IsExecuted(before, d) || runs)
  }

  lemma ExecutionCounts(tr: Trace, tools: set<string>, cap: Capability, intent: ActionIntent, d: Digest)
    requires cap.digest == Digest(intent) && cap.tool == intent.tool
    ensures Counts(tr, ExecuteFor(tr, tools, cap, intent).trace, d,
                   d == Digest(intent) && !IsExecuted(tr, d) && intent.tool in tools)
  {
    if !IsExecuted(tr, Digest(intent)) && intent.tool in tools {
      var called := Then(tr, CallHandler(Digest(intent)));
      assert Calls(called, d) == Calls(tr, d) + if d == Digest(intent) then 1 else 0;
      assert IsExecuted(called, d) == IsExecuted(tr, d);
    }
  }

  lemma EffectCounts(s: GateState, t: TaskId, id: string, tools: set<string>, cap: Capability, intent: ActionIntent,
                     d: Digest)
    requires JustGranted(s, cap, intent)
    ensures Counts(s.trace, EffectFor(s, t, id, tools, cap, intent).trace, d,
                   d == Digest(intent) && !IsExecuted(s.trace, d) && intent.tool in tools)
  {
    ExecutionCounts(s.trace, tools, cap, intent, d);
  }

  lemma CommitCounts(cfg: Config, handlers: Handlers, s: GateState, t: TaskId, id: string, cap: Capability,
                     intent: ActionIntent, after: Answers, d: Digest)
    requires Sound(cfg, s) && Created(s.trace, t) && JustGranted(s, cap, intent) && RunOrder(cfg.StepsOf(t)).Some?
    requires GateFirst(cfg.StepsOf(t), id)
    requires Digest(intent) == GateDigest(cfg, s.trace, t, FirstById(cfg.StepsOf(t), id).value)
    ensures Counts(s.trace, CommitFor(cfg, handlers, s, t, id, cap, intent, after).now.trace, d,
                   d == Digest(intent) && !IsExecuted(s.trace, d) && Performable(handlers, s.trace, intent))
  {
    if handlers.Some? {
      var told := EffectFor(s, t, id, handlers.value, cap, intent);
      EffectCounts(s, t, id, handlers.value, cap, intent, d);
      EffectMeans(cfg, s, t, id, handlers.value, cap, intent);
      if Performable(handlers, s.trace, intent) {
        TellingCounts(cfg, told, t, id, after, d);
      }
    }
  }

  lemma TellingCounts(cfg: Config, told: GateState, t: TaskId, id: string, answers: Answers, d: Digest)
    requires Sound(cfg, told) && GateExecuted(cfg, told.trace, t, id)
    ensures var now := ResumeFor(cfg, Tell(told, t, StepSucceeded(id, AUTHORIZED)), t, answers).now;
      Counts(told.trace, now.trace, d, false)
  {
    var recorded := Tell(told, t, StepSucceeded(id, AUTHORIZED));
    InertSound(cfg, told, Emit(Event(t, StepSucceeded(id, AUTHORIZED))));
    ResumeIsHarmless(cfg, recorded, t, answers);
    HarmlessKeeps(recorded.trace, ResumeFor(cfg, recorded, t, answers).now.trace, d);
  }

  /** A call runs the handler of `d`. */
  ghost predicate RunsHandler(cfg: Config, handlers: Handlers, s: GateState, t: TaskId, id: string, call: Approving,
                              d: Digest)
  {
    Commits(cfg, handlers, s, t, id, call) && AskedDigest(cfg, s, t, id, call) == d && !IsExecuted(s.trace, d)
  }

  lemma ApproveCounts(cfg: Config, handlers: Handlers, s: GateState, t: TaskId, id: string, call: Approving, d: Digest)
    requires Sound(cfg, s) && Created(s.trace, t)
    ensures Counts(s.trace, ApproveFor(cfg, handlers, s, t, id, call).now.trace, d,
                   RunsHandler(cfg, handlers, s, t, id, call, d))
  {
    if Asked(cfg, s, t, id, call) {
      AskingCounts(cfg, s, t, id, call, d);
      if SubmissionOf(cfg, s, t, id, call).outcome.decision == Granted {
        GrantCounts(cfg, handlers, s, t, id, call, d);
      }
    } else {
      ResumeIsHarmless(cfg, s, t, call.before);
      HarmlessKeeps(s.trace, ResumeFor(cfg, s, t, call.before).now.trace, d);
    }
  }

  /** The resume and the submission run nothing. */
  lemma AskingCounts(cfg: Config, s: GateState, t: TaskId, id: string, call: Approving, d: Digest)
    requires Sound(cfg, s) && Created(s.trace, t) && Asked(cfg, s, t, id, call)
    ensures Counts(s.trace, SubmissionOf(cfg, s, t, id, call).state.trace, d, false)
  {
    var resumed := ResumeFor(cfg, s, t, call.before).now;
    ResumeMeans(cfg, s, t, call.before);
    ResumeIsHarmless(cfg, s, t, call.before);
    HarmlessKeeps(s.trace, resumed.trace, d);
    SubmittedSound(cfg, resumed, AskedDigest(cfg, s, t, id, call).of, call.sub);
    GatedKeeps(resumed.trace, SubmissionOf(cfg, s, t, id, call).state.trace, t, id, d);
  }

  lemma GrantCounts(cfg: Config, handlers: Handlers, s: GateState, t: TaskId, id: string, call: Approving, d: Digest)
    requires Sound(cfg, s) && Created(s.trace, t) && Asked(cfg, s, t, id, call)
    requires SubmissionOf(cfg, s, t, id, call).outcome.decision == Granted
    requires Counts(s.trace, SubmissionOf(cfg, s, t, id, call).state.trace, d, false)
    ensures Counts(s.trace, ApproveFor(cfg, handlers, s, t, id, call).now.trace, d,
                   RunsHandler(cfg, handlers, s, t, id, call, d))
  {
    var step, intent := SubmissionOf(cfg, s, t, id, call), AskedDigest(cfg, s, t, id, call).of;
    AskedMeans(cfg, s, t, id, call);
    GrantIsFresh(cfg, ResumeFor(cfg, s, t, call.before).now, intent, call.sub);
    CommitCounts(cfg, handlers, step.state, t, id, step.outcome.capability.value, intent, call.after, d);
  }

  // ---- When the handler can run, or run again ----------------------------------------------

  /** Some calls of `approve_step` from `since` on run the handler of `d` once more. */
  ghost predicate CanRerun(cfg: Config, s: GateState, t: TaskId, id: string, d: Digest, since: real) {
    exists handlers, calls, until ::
      && Timed(calls, since, until)
      && Calls(ApproveAll(cfg, handlers, s, t, id, calls).trace, d) > Calls(s.trace, d)
  }

  /** Either the handler of `d` has not run, or there is a receipt for it. */
  lemma {:induction false} CallsCount(cfg: Config, handlers: Handlers, s: GateState, t: TaskId, id: string,
                                      calls: seq<Approving>, d: Digest)
    requires Sound(cfg, s) && Created(s.trace, t)
    ensures var after := ApproveAll(cfg, handlers, s, t, id, calls).trace;
      && Calls(after, d) == Calls(s.trace, d) + (if IsExecuted(after, d) && !IsExecuted(s.trace, d) then 1 else 0)
      && (IsExecuted(s.trace, d) ==> IsExecuted(after, d))
  {
    if calls != [] {
      var init, last := calls[..|calls| - 1], calls[|calls| - 1];
      CallsCount(cfg, handlers, s, t, id, init, d);
      ApproveAllSound(cfg, handlers, s, t, id, init);
      ApproveCounts(cfg, handlers, ApproveAll(cfg, handlers, s, t, id, init), t, id, last, d);
    }
  }

  lemma {:induction false} RerunNeeds(cfg: Config, handlers: Handlers, s: GateState, t: TaskId, id: string,
                                      calls: seq<Approving>, d: Digest, since: real, until: real)
    requires Sound(cfg, s) && Created(s.trace, t) && Past(s.records, since) && Timed(calls, since, until)
    requires Calls(ApproveAll(cfg, handlers, s, t, id, calls).trace, d) > Calls(s.trace, d)
    ensures Committable(cfg, s, t, id, since) && !IsExecuted(s.trace, d)
  {
    var init, last := calls[..|calls| - 1], calls[|calls| - 1];
    var before := ApproveAll(cfg, handlers, s, t, id, init);
    var mid :| Timed(init, since, mid) && ApproveWithin(last, mid, until);
    CallsCount(cfg, handlers, s, t, id, calls, d);
    if Calls(before.trace, d) > Calls(s.trace, d) {
      RerunNeeds(cfg, handlers, s, t, id, init, d, since, mid);
    } else {
      ApproveAllSound(cfg, handlers, s, t, id, init);
      CallsCount(cfg, handlers, s, t, id, init, d);
      ApproveCounts(cfg, handlers, before, t, id, last, d);
      CommitNeeds(cfg, handlers, s, t, id, calls, since, until);
    }
  }

  lemma CommitReruns(cfg: Config, handlers: Handlers, s: GateState, t: TaskId, id: string, calls: seq<Approving>,
                     d: Digest)
    requires Sound(cfg, s) && Created(s.trace, t) && CommitsOn(cfg, handlers, s, t, id, d, calls)
    requires !IsExecuted(s.trace, d)
    ensures Calls(ApproveAll(cfg, handlers, s, t, id, calls).trace, d) > Calls(s.trace, d)
  {
    var init, last := calls[..|calls| - 1], calls[|calls| - 1];
    ApproveAllSound(cfg, handlers, s, t, id, init);
    CallsCount(cfg, handlers, s, t, id, init, d);
    ApproveCounts(cfg, handlers, ApproveAll(cfg, handlers, s, t, id, init), t, id, last, d);
  }

  /** From any sound state of either store, `approve_step` can run the handler of the gate's intent, be
  it again after a crash, exactly when the gate can be committed and no receipt says that its effect was
  caused. */
  lemma RerunsIff(cfg: Config, s: GateState, t: TaskId, id: string, since: real)
    requires Sound(cfg, s) && Created(s.trace, t) && Past(s.records, since) && GateFirst(cfg.StepsOf(t), id)
    ensures var d := HaltDigest(cfg, s, t, FirstById(cfg.StepsOf(t), id).value);
      CanRerun(cfg, s, t, id, d, since) <==> Committable(cfg, s, t, id, since) && !IsExecuted(s.trace, d)
  {
    var d := HaltDigest(cfg, s, t, FirstById(cfg.StepsOf(t), id).value);
    if CanRerun(cfg, s, t, id, d, since) {
      var handlers, calls, until :|
        && Timed(calls, since, until)
        && Calls(ApproveAll(cfg, handlers, s, t, id, calls).trace, d) > Calls(s.trace, d);
      RerunNeeds(cfg, handlers, s, t, id, calls, d, since, until);
    }
    if Committable(cfg, s, t, id, since) && !IsExecuted(s.trace, d) {
      var handlers := Some({d.of.tool});
      var calls, now := SomeCallsCommit(cfg, handlers, s, t, id, since);
      TimedAt(calls, since, now);
      CommitReruns(cfg, handlers, s, t, id, calls, d);
    }
  }
}
