/** When a human gate can be committed (`approve_step` of `comcmd/kernel/workflow.py`): whether or not
the steps it needs are recorded, but only through a resume that returns, and only with an approval
record that is of use. */
module GateLimits {
  import opened Records
  import opened Aggregation
  import opened Protocol
  import opened Theorems
  import opened Approvals
  import opened Gateways
  import opened GateHistories
  import opened GateRuns
  import opened Renewals
  import opened Runners

  // ---- Where every resume gets to ----------------------------------------------------------

  /** A resume can stop at this step and record nothing. */
  predicate CanStop(cfg: Config, t: TaskId, recorded: map<string, Artifact>, step: Step) {
    match step.kind
    case Work => true
    case HumanGate(_) => true
    case Fanout(_, _, _, _) => false
    case Verify(m, q) =>
      step.needs != [] && m > 0 && ApprovalsOf(cfg, t, step, Upstream(recorded, step.needs)) < VerifyQuorum(q)
  }

  /** A resume cannot help recording this step and going on. */
  predicate MustPass(cfg: Config, t: TaskId, recorded: map<string, Artifact>, step: Step) {
    match step.kind
    case Fanout(n, _, _, _) => n > 0
    case Verify(m, q) =>
      step.needs != [] && m > 0 && ApprovalsOf(cfg, t, step, Upstream(recorded, step.needs)) >= VerifyQuorum(q)
    case _ => false
  }

  /** The state in which the environment's answers first matter, and the steps that are left then. */
  datatype Halt = Halt(now: GateState, rest: seq<string>)

  const UNASKED := Answer(Error, [], 0.0, 0)

  function HaltFor(cfg: Config, s: GateState, t: TaskId, rest: seq<string>): Halt
    decreases |rest|
  {
    if rest == [] then Halt(s, rest)
    else if rest[0] in Recorded(s.trace, t) then HaltFor(cfg, s, t, rest[1..])
    else if rest[0] !in ById(cfg.StepsOf(t)) then Halt(s, rest)
    else
      var step := ById(cfg.StepsOf(t))[rest[0]];
      if !MustPass(cfg, t, Recorded(s.trace, t), step) then Halt(s, rest)
      else HaltFor(cfg, StepFor(cfg, s, t, step, UNASKED).now, t, rest[1..])
  }

  /** Where a resume gets to, whatever it is answered. */
  function HaltOf(cfg: Config, s: GateState, t: TaskId): Halt {
    if RunOrder(cfg.StepsOf(t)).Some? then HaltFor(cfg, s, t, RunOrder(cfg.StepsOf(t)).value) else Halt(s, [])
  }

  lemma PassIgnoresAnswer(cfg: Config, s: GateState, t: TaskId, step: Step, a: Answer)
    requires MustPass(cfg, t, Recorded(s.trace, t), step)
    ensures var x := StepFor(cfg, s, t, step, a);
      x.GoesOn? && x == StepFor(cfg, s, t, step, UNASKED) && x.now.records == s.records
  {
  }

  /** Everything before is recorded, and the answers matter at the next step. */
  ghost predicate HaltsAt(cfg: Config, s: GateState, t: TaskId, order: seq<string>, k: nat) {
    && RecordedTo(s.trace, t, order, k)
    && (k < |order| ==>
          && order[k] in ById(cfg.StepsOf(t)) && order[k] !in Recorded(s.trace, t)
          && !MustPass(cfg, t, Recorded(s.trace, t), ById(cfg.StepsOf(t))[order[k]]))
  }

  /** `h` lies ahead of `s`. */
  ghost predicate LiesAhead(cfg: Config, s: GateState, t: TaskId, order: seq<string>, h: Halt) {
    && |h.rest| <= |order| && h.rest == order[|order| - |h.rest|..]
    && HaltsAt(cfg, h.now, t, order, |order| - |h.rest|)
    && RunnerStep(cfg, s, t, h.now) && h.now.records == s.records
  }

  lemma OrderIsDeclared(steps: seq<Step>, order: seq<string>, i: nat)
    requires RunOrder(steps) == Some(order) && i < |order|
    ensures order[i] in ById(steps)
  {
    RunOrderIsRight(steps);
    assert order[i] in order;
  }

  lemma AheadComposes(cfg: Config, s: GateState, t: TaskId, order: seq<string>, now: GateState, h: Halt)
    requires RunnerStep(cfg, s, t, now) && now.records == s.records && LiesAhead(cfg, now, t, order, h)
    ensures LiesAhead(cfg, s, t, order, h)
  {
    RunnerStepsCompose(cfg, s, t, now, h.now);
  }

  lemma HaltsHere(cfg: Config, s: GateState, t: TaskId, order: seq<string>, i: nat)
    requires Sound(cfg, s) && Created(s.trace, t) && HaltsAt(cfg, s, t, order, i)
    ensures LiesAhead(cfg, s, t, order, Halt(s, order[i..]))
  {
    assert Prefix(s.trace, s.trace);
  }

  /** A drive gets to the halt, and only then is it answered. */
  ghost predicate Heads(cfg: Config, s: GateState, t: TaskId, order: seq<string>, i: nat, answers: Answers)
    requires i <= |order|
  {
    var h := HaltFor(cfg, s, t, order[i..]);
    && LiesAhead(cfg, s, t, order, h)
    && DriveFor(cfg, s, t, order[i..], answers) == DriveFor(cfg, h.now, t, h.rest, answers)
  }

  lemma {:induction false} HaltMeans(cfg: Config, s: GateState, t: TaskId, order: seq<string>, i: nat, answers: Answers)
    requires Sound(cfg, s) && Created(s.trace, t) && RunOrder(cfg.StepsOf(t)) == Some(order)
    requires RecordedTo(s.trace, t, order, i)
    ensures Heads(cfg, s, t, order, i, answers)
    decreases |order| - i
  {
    if i == |order| {
      assert order[i..] == [];
      HaltsHere(cfg, s, t, order, i);
    } else if order[i] in Recorded(s.trace, t) {
      assert order[i..][0] == order[i] && order[i..][1..] == order[i + 1..];
      HaltMeans(cfg, s, t, order, i + 1, answers);
    } else {
      OrderIsDeclared(cfg.StepsOf(t), order, i);
      if MustPass(cfg, t, Recorded(s.trace, t), ById(cfg.StepsOf(t))[order[i]]) {
        PassMeans(cfg, s, t, order, i, answers(order[i]));
        HaltMeans(cfg, StepFor(cfg, s, t, ById(cfg.StepsOf(t))[order[i]], UNASKED).now, t, order, i + 1, answers);
        PassHeads(cfg, s, t, order, i, answers);
      } else {
        assert order[i..][0] == order[i];
        HaltsHere(cfg, s, t, order, i);
      }
    }
  }

  lemma PassHeads(cfg: Config, s: GateState, t: TaskId, order: seq<string>, i: nat, answers: Answers)
    requires i < |order| && order[i] in ById(cfg.StepsOf(t)) && order[i] !in Recorded(s.trace, t)
    requires MustPass(cfg, t, Recorded(s.trace, t), ById(cfg.StepsOf(t))[order[i]])
    requires var x := StepFor(cfg, s, t, ById(cfg.StepsOf(t))[order[i]], answers(order[i]));
      && x == StepFor(cfg, s, t, ById(cfg.StepsOf(t))[order[i]], UNASKED) && x.GoesOn?
      && RunnerStep(cfg, s, t, x.now) && x.now.records == s.records && Heads(cfg, x.now, t, order, i + 1, answers)
    ensures Heads(cfg, s, t, order, i, answers)
  {
    var now := StepFor(cfg, s, t, ById(cfg.StepsOf(t))[order[i]], UNASKED).now;
    assert order[i..][0] == order[i] && order[i..][1..] == order[i + 1..];
    AheadComposes(cfg, s, t, order, now, HaltFor(cfg, now, t, order[i + 1..]));
  }

  lemma PassMeans(cfg: Config, s: GateState, t: TaskId, order: seq<string>, i: nat, a: Answer)
    requires Sound(cfg, s) && Created(s.trace, t) && RunOrder(cfg.StepsOf(t)) == Some(order)
    requires RecordedTo(s.trace, t, order, i) && i < |order| && order[i] !in Recorded(s.trace, t)
    requires order[i] in ById(cfg.StepsOf(t))
    requires MustPass(cfg, t, Recorded(s.trace, t), ById(cfg.StepsOf(t))[order[i]])
    ensures var x := StepFor(cfg, s, t, ById(cfg.StepsOf(t))[order[i]], a);
      && x == StepFor(cfg, s, t, ById(cfg.StepsOf(t))[order[i]], UNASKED)
      && x.GoesOn? && RunnerStep(cfg, s, t, x.now) && x.now.records == s.records
      && RecordedTo(x.now.trace, t, order, i + 1)
  {
    var step := ById(cfg.StepsOf(t))[order[i]];
    TurnOf(cfg, s.trace, t, order, i);
    PassIgnoresAnswer(cfg, s, t, step, a);
    StepMeans(cfg, s, t, step, a);
  }

  lemma {:induction false} SkipsRecorded(cfg: Config, s: GateState, t: TaskId, order: seq<string>, i: nat, k: nat)
    requires i <= k && RecordedTo(s.trace, t, order, k)
    ensures HaltFor(cfg, s, t, order[i..]) == HaltFor(cfg, s, t, order[k..])
    decreases k - i
  {
    if i < k {
      assert order[i..][0] == order[i] && order[i..][1..] == order[i + 1..];
      SkipsRecorded(cfg, s, t, order, i + 1, k);
    }
  }

  /** A state that halts gets no further. */
  lemma HaltIsLast(cfg: Config, s: GateState, t: TaskId, order: seq<string>, k: nat)
    requires RunOrder(cfg.StepsOf(t)) == Some(order) && HaltsAt(cfg, s, t, order, k)
    ensures HaltOf(cfg, s, t) == Halt(s, order[k..])
  {
    assert order[0..] == order;
    SkipsRecorded(cfg, s, t, order, 0, k);
    if k < |order| {
      assert order[k..][0] == order[k];
    }
  }

  /** A resume first gets to the halt, and only then is it answered. */
  lemma ResumeHalts(cfg: Config, s: GateState, t: TaskId, answers: Answers)
    requires Sound(cfg, s) && Created(s.trace, t) && RunOrder(cfg.StepsOf(t)).Some?
    ensures var h := HaltOf(cfg, s, t);
      && LiesAhead(cfg, s, t, RunOrder(cfg.StepsOf(t)).value, h)
      && ResumeFor(cfg, s, t, answers) == DriveFor(cfg, h.now, t, h.rest, answers)
  {
    var order := RunOrder(cfg.StepsOf(t)).value;
    assert order[0..] == order;
    HaltMeans(cfg, s, t, order, 0, answers);
  }

  // ---- Which resumes can return ------------------------------------------------------------

  predicate CanReturnAt(cfg: Config, t: TaskId, h: Halt) {
    h.rest == [] ||
    (h.rest[0] in ById(cfg.StepsOf(t)) && CanStop(cfg, t, Recorded(h.now.trace, t), ById(cfg.StepsOf(t))[h.rest[0]]))
  }

  /** A resume of the task can return: it comes to a step where it can stop before it comes to one
  that always raises. */
  predicate CanReturn(cfg: Config, s: GateState, t: TaskId) {
    RunOrder(cfg.StepsOf(t)).Some? && CanReturnAt(cfg, t, HaltOf(cfg, s, t))
  }

  /** Every worker defers and emits the intent, and the gateway's clock stands at `now`. */
  function Asking(intent: ActionIntent, now: real): Answers {
    _ => Answer(Deferred, [Request(intent, now, 0)], now, 0)
  }

  /** A resume stops where it has to be answered, and records nothing more. */
  ghost predicate Rests(cfg: Config, s: GateState, t: TaskId, run: Driven) {
    run.end.Stops? && RunnerStep(cfg, s, t, run.now) && Recorded(run.now.trace, t) == Recorded(s.trace, t)
  }

  /** At the halt a decision about `d` can be taken: a worker can emit the intent, or the step is the
  gate whose intent it is. */
  predicate DecidesOn(cfg: Config, t: TaskId, h: Halt, d: Digest) {
    h.rest != [] && h.rest[0] in ById(cfg.StepsOf(t)) &&
    var step := ById(cfg.StepsOf(t))[h.rest[0]];
    step.kind.Work? || (step.kind.HumanGate? && GateDigest(cfg, h.now.trace, t, step) == d)
  }

  lemma {:induction false} WorkRenews(cfg: Config, s: GateState, t: TaskId, step: Step, d: Digest, now: real)
    requires Sound(cfg, s) && Next(cfg, s.trace, t, step) && step.kind.Work? && cfg.Approvable(d) && RightTool(cfg, d)
    ensures var x := StepFor(cfg, s, t, step, Asking(d.of, now)(step.id));
      && x.Ends? && Rests(cfg, s, t, x.run) && Renewed(cfg, s.records, x.run.now.records, d, now, true)
  {
    var ran := RanWorkers(Begin(s, t, step), t, step.id, 1);
    var requests := [Request(d.of, now, 0)];
    StepMeans(cfg, s, t, step, Asking(d.of, now)(step.id));
    RunsMean(cfg, s, t, step, 1);
    DecidedRenews(cfg, ran, d.of, d, now);
    assert requests[..0] == [] && DecideAll(cfg, ran, []) == ran;
    assert DecideAll(cfg, ran, requests) == Decided(cfg, ran, d.of, now, 0).state;
  }

  lemma GateRenews(cfg: Config, s: GateState, t: TaskId, step: Step, d: Digest, now: real)
    requires Sound(cfg, s) && Next(cfg, s.trace, t, step) && step.kind.HumanGate?
    requires cfg.Approvable(d) && RightTool(cfg, d)
    ensures var x := StepFor(cfg, s, t, step, Asking(d.of, now)(step.id));
      && x.Ends? && Rests(cfg, s, t, x.run)
      && Renewed(cfg, s.records, x.run.now.records, d, now, GateDigest(cfg, s.trace, t, step) == d)
  {
    StepMeans(cfg, s, t, step, Asking(d.of, now)(step.id));
    DecidedRenews(cfg, s, GateDigest(cfg, s.trace, t, step).of, d, now);
  }

  lemma VerifyRests(cfg: Config, s: GateState, t: TaskId, step: Step, a: Answer)
    requires Sound(cfg, s) && Next(cfg, s.trace, t, step) && step.kind.Verify?
    requires CanStop(cfg, t, Recorded(s.trace, t), step)
    ensures var x := StepFor(cfg, s, t, step, a);
      x.Ends? && Rests(cfg, s, t, x.run) && x.run.now.records == s.records
  {
    StepMeans(cfg, s, t, step, a);
  }

  /** At a halt that can stop, a resume that asks about `d` does stop, and renews the record of `d` if a
  decision on it can be taken there. */
  lemma HaltRests(cfg: Config, s: GateState, t: TaskId, order: seq<string>, k: nat, d: Digest, now: real)
    requires Sound(cfg, s) && Created(s.trace, t) && RunOrder(cfg.StepsOf(t)) == Some(order)
    requires HaltsAt(cfg, s, t, order, k) && CanReturnAt(cfg, t, Halt(s, order[k..]))
    requires cfg.Approvable(d) && RightTool(cfg, d)
    ensures var run := DriveFor(cfg, s, t, order[k..], Asking(d.of, now));
      && Rests(cfg, s, t, run)
      && Renewed(cfg, s.records, run.now.records, d, now, DecidesOn(cfg, t, Halt(s, order[k..]), d))
  {
    if k == |order| {
      DoneMeans(cfg, s, t, order);
      assert order[k..] == [];
    } else {
      assert order[k..][0] == order[k];
      TurnOf(cfg, s.trace, t, order, k);
      var step := ById(cfg.StepsOf(t))[order[k]];
      if step.kind.Work? {
        WorkRenews(cfg, s, t, step, d, now);
      } else if step.kind.HumanGate? {
        GateRenews(cfg, s, t, step, d, now);
      } else {
        VerifyRests(cfg, s, t, step, Asking(d.of, now)(order[k]));
      }
    }
  }

  /** What such a resume comes to. */
  ghost predicate Asks(cfg: Config, s: GateState, t: TaskId, d: Digest, now: real, run: Driven)
    requires d.of.actionId in cfg.actions
  {
    var h := HaltOf(cfg, s, t);
    && run.end.Stops? && RunnerStep(cfg, s, t, run.now) && Recorded(run.now.trace, t) == Recorded(h.now.trace, t)
    && Renewed(cfg, s.records, run.now.records, d, now, DecidesOn(cfg, t, h, d))
  }

  lemma ResumeAsks(cfg: Config, s: GateState, t: TaskId, d: Digest, now: real)
    requires Sound(cfg, s) && Created(s.trace, t) && CanReturn(cfg, s, t) && cfg.Approvable(d) && RightTool(cfg, d)
    ensures Asks(cfg, s, t, d, now, ResumeFor(cfg, s, t, Asking(d.of, now)))
  {
    var order, h := RunOrder(cfg.StepsOf(t)).value, HaltOf(cfg, s, t);
    var k := |order| - |h.rest|;
    ResumeHalts(cfg, s, t, Asking(d.of, now));
    assert h == Halt(h.now, order[k..]);
    HaltRests(cfg, h.now, t, order, k, d, now);
    RestsAhead(cfg, s, t, h.now, ResumeFor(cfg, s, t, Asking(d.of, now)));
  }

  lemma RestsAhead(cfg: Config, s: GateState, t: TaskId, halt: GateState, run: Driven)
    requires RunnerStep(cfg, s, t, halt) && Rests(cfg, halt, t, run)
    ensures run.end.Stops? && RunnerStep(cfg, s, t, run.now) && Recorded(run.now.trace, t) == Recorded(halt.trace, t)
  {
    RunnerStepsCompose(cfg, s, t, halt, run.now);
  }

  // ---- Resumes that cannot return ----------------------------------------------------------

  lemma RaisesAtOnce(cfg: Config, s: GateState, t: TaskId, step: Step, a: Answer)
    requires !CanStop(cfg, t, Recorded(s.trace, t), step) && !MustPass(cfg, t, Recorded(s.trace, t), step)
    ensures var x := StepFor(cfg, s, t, step, a); x.Ends? && x.run.end.Fails? && x.run.now == Begin(s, t, step)
  {
  }

  lemma HaltRaises(cfg: Config, s: GateState, t: TaskId, order: seq<string>, k: nat, answers: Answers)
    requires Sound(cfg, s) && Created(s.trace, t) && RunOrder(cfg.StepsOf(t)) == Some(order)
    requires HaltsAt(cfg, s, t, order, k) && !CanReturnAt(cfg, t, Halt(s, order[k..]))
    ensures var run := DriveFor(cfg, s, t, order[k..], answers);
      && run.end.Fails? && RunnerStep(cfg, s, t, run.now)
      && Recorded(run.now.trace, t) == Recorded(s.trace, t) && run.now.records == s.records
  {
    assert order[k..][0] == order[k];
    TurnOf(cfg, s.trace, t, order, k);
    RaisesAtOnce(cfg, s, t, ById(cfg.StepsOf(t))[order[k]], answers(order[k]));
    StepMeans(cfg, s, t, ById(cfg.StepsOf(t))[order[k]], answers(order[k]));
  }

  /** A resume that cannot return raises, whatever it is answered, and so does every later one. */
  lemma ResumeRaises(cfg: Config, s: GateState, t: TaskId, answers: Answers)
    requires Sound(cfg, s) && Created(s.trace, t) && !CanReturn(cfg, s, t)
    ensures var run := ResumeFor(cfg, s, t, answers);
      run.end.Fails? && RunnerStep(cfg, s, t, run.now) && !CanReturn(cfg, run.now, t)
  {
    if RunOrder(cfg.StepsOf(t)).Some? {
      var order, h := RunOrder(cfg.StepsOf(t)).value, HaltOf(cfg, s, t);
      var k := |order| - |h.rest|;
      ResumeHalts(cfg, s, t, answers);
      HaltRaises(cfg, h.now, t, order, k, answers);
      RunnerStepsCompose(cfg, s, t, h.now, ResumeFor(cfg, s, t, answers).now);
      HaltIsLast(cfg, ResumeFor(cfg, s, t, answers).now, t, order, k);
    } else {
      ResumeMeans(cfg, s, t, answers);
    }
  }

  /** A resume of a task returns for some answers exactly when its steps can be ordered and it comes to
  a step to stop at before it comes to one that always raises. */
  lemma ReturnsIff(cfg: Config, s: GateState, t: TaskId)
    requires Sound(cfg, s) && Created(s.trace, t)
    ensures (exists answers :: ResumeFor(cfg, s, t, answers).end.Stops?) <==> CanReturn(cfg, s, t)
  {
    if CanReturn(cfg, s, t) {
      DeferredReturns(cfg, s, t);
    } else {
      forall answers ensures ResumeFor(cfg, s, t, answers).end.Fails? {
        ResumeRaises(cfg, s, t, answers);
      }
    }
  }

  /** Every worker defers. */
  function Deferring(now: real): Answers {
    _ => Answer(Deferred, [], now, 0)
  }

  lemma DeferredReturns(cfg: Config, s: GateState, t: TaskId)
    requires Sound(cfg, s) && Created(s.trace, t) && CanReturn(cfg, s, t)
    ensures ResumeFor(cfg, s, t, Deferring(0.0)).end.Stops?
  {
    ResumeHalts(cfg, s, t, Deferring(0.0));
    var h := HaltOf(cfg, s, t);
    if h.rest != [] {
      DeferredStops(cfg, h.now, t, ById(cfg.StepsOf(t))[h.rest[0]], Deferring(0.0)(h.rest[0]));
    }
  }

  lemma DeferredStops(cfg: Config, s: GateState, t: TaskId, step: Step, a: Answer)
    requires CanStop(cfg, t, Recorded(s.trace, t), step) && a.status == Deferred
    ensures StepFor(cfg, s, t, step, a).Ends? && StepFor(cfg, s, t, step, a).run.end.Stops?
  {
  }

  // ---- Calls of approve_step, in time ------------------------------------------------------

  /** Calls of `approve_step` for one gate, each from the state the last one left. */
  function ApproveAll(cfg: Config, handlers: Handlers, s: GateState, t: TaskId, id: string,
                      calls: seq<Approving>): GateState
  {
    if calls == [] then s
    else
      var init, last := calls[..|calls| - 1], calls[|calls| - 1];
      ApproveFor(cfg, handlers, ApproveAll(cfg, handlers, s, t, id, init), t, id, last).now
  }

  predicate AnswerWithin(a: Answer, from: real, to: real) {
    from <= a.now <= to && forall r <- a.requests :: from <= r.now <= to
  }

  ghost predicate AnswersWithin(answers: Answers, from: real, to: real) {
    forall id :: AnswerWithin(answers(id), from, to)
  }

  /** The clock is read by the first resume, then by the submission, then by the second resume. */
  ghost predicate ApproveWithin(call: Approving, from: real, to: real) {
    && AnswersWithin(call.before, from, call.sub.opening) && from <= call.sub.opening <= call.sub.now <= to
    && AnswersWithin(call.after, call.sub.now, to)
  }

  /** The clock goes from `since` to `until` over the calls. */
  ghost predicate Timed(calls: seq<Approving>, since: real, until: real) {
    if calls == [] then since <= until
    else
      var init, last := calls[..|calls| - 1], calls[|calls| - 1];
      exists mid :: Timed(init, since, mid) && ApproveWithin(last, mid, until)
  }

  lemma {:induction false} TimedAt(calls: seq<Approving>, since: real, now: real)
    requires since <= now && forall i :: 0 <= i < |calls| ==> ApproveWithin(calls[i], now, now)
    ensures Timed(calls, since, now)
  {
    if calls != [] {
      TimedAt(calls[..|calls| - 1], since, now);
    }
  }

  // ---- No record comes from the future -----------------------------------------------------

  lemma {:induction false} DecideAllPast(cfg: Config, s: GateState, requests: seq<Request>, to: real)
    requires Past(s.records, to) && forall r <- requests :: r.now <= to
    ensures Past(DecideAll(cfg, s, requests).records, to)
  {
    if requests != [] {
      var init, last := requests[..|requests| - 1], requests[|requests| - 1];
      assert last in requests && forall r <- init :: r in requests;
      DecideAllPast(cfg, s, init, to);
      DecidedPast(cfg, DecideAll(cfg, s, init), last, to);
    }
  }

  function RecordsOf(x: Stepped): ByDigest {
    match x
    case GoesOn(now) => now.records
    case Ends(run) => run.now.records
  }

  lemma StepPast(cfg: Config, s: GateState, t: TaskId, step: Step, a: Answer, from: real, to: real)
    requires Past(s.records, to) && AnswerWithin(a, from, to)
    ensures Past(RecordsOf(StepFor(cfg, s, t, step, a)), to)
  {
    match step.kind
    case HumanGate(_) => DecidedPast(cfg, s, Request(GateDigest(cfg, s.trace, t, step).of, a.now, a.challenge), to);
    case Work => DecideAllPast(cfg, RanWorkers(Begin(s, t, step), t, step.id, 1), a.requests, to);
    case _ =>
  }

  lemma {:induction false} DrivePast(cfg: Config, s: GateState, t: TaskId, rest: seq<string>, answers: Answers,
                                     from: real, to: real)
    requires Past(s.records, to) && AnswersWithin(answers, from, to)
    ensures Past(DriveFor(cfg, s, t, rest, answers).now.records, to)
    decreases |rest|
  {
    if rest != [] {
      if rest[0] in Recorded(s.trace, t) {
        DrivePast(cfg, s, t, rest[1..], answers, from, to);
      } else if rest[0] in ById(cfg.StepsOf(t)) {
        var step := ById(cfg.StepsOf(t))[rest[0]];
        StepPast(cfg, s, t, step, answers(rest[0]), from, to);
        match StepFor(cfg, s, t, step, answers(rest[0]))
        case GoesOn(now) => DrivePast(cfg, now, t, rest[1..], answers, from, to);
        case Ends(run) =>
      }
    }
  }

  lemma ResumePast(cfg: Config, s: GateState, t: TaskId, answers: Answers, from: real, to: real)
    requires Past(s.records, from) && AnswersWithin(answers, from, to) && from <= to
    ensures Past(ResumeFor(cfg, s, t, answers).now.records, to)
  {
    PastLater(s.records, from, to);
    if RunOrder(cfg.StepsOf(t)).Some? {
      DrivePast(cfg, s, t, RunOrder(cfg.StepsOf(t)).value, answers, from, to);
    }
  }

  lemma CommitPast(cfg: Config, handlers: Handlers, s: GateState, t: TaskId, id: string, cap: Capability,
                   intent: ActionIntent, after: Answers, from: real, to: real)
    requires Past(s.records, from) && AnswersWithin(after, from, to) && from <= to
    ensures Past(CommitFor(cfg, handlers, s, t, id, cap, intent, after).now.records, to)
  {
    PastLater(s.records, from, to);
    if handlers.Some? {
      var told := EffectFor(s, t, id, handlers.value, cap, intent);
      ResumePast(cfg, Tell(told, t, StepSucceeded(id, AUTHORIZED)), t, after, from, to);
    }
  }

  lemma ApprovePast(cfg: Config, handlers: Handlers, s: GateState, t: TaskId, id: string, call: Approving, from: real,
                    to: real)
    requires Past(s.records, from) && ApproveWithin(call, from, to)
    ensures Past(ApproveFor(cfg, handlers, s, t, id, call).now.records, to)
  {
    var resumed := ResumeFor(cfg, s, t, call.before);
    ResumePast(cfg, s, t, call.before, from, call.sub.opening);
    PastLater(resumed.now.records, call.sub.opening, to);
    if resumed.end.Stops? && GateFirst(cfg.StepsOf(t), id) {
      var step := SubmissionOf(cfg, s, t, id, call);
      var intent := GateDigest(cfg, resumed.now.trace, t, FirstById(cfg.StepsOf(t), id).value).of;
      SubmittedPast(cfg, resumed.now, intent, call.sub, call.sub.opening);
      PastLater(step.state.records, call.sub.opening, call.sub.now);
      PastLater(step.state.records, call.sub.now, to);
      if step.outcome.capability.Some? {
        CommitPast(cfg, handlers, step.state, t, id, step.outcome.capability.value, intent, call.after,
                   call.sub.now, to);
      }
    }
  }

  lemma {:induction false} ApproveAllPast(cfg: Config, handlers: Handlers, s: GateState, t: TaskId, id: string,
                                          calls: seq<Approving>, since: real, until: real)
    requires Past(s.records, since) && Timed(calls, since, until)
    ensures since <= until && Past(ApproveAll(cfg, handlers, s, t, id, calls).records, until)
  {
    if calls != [] {
      var init, last := calls[..|calls| - 1], calls[|calls| - 1];
      var mid :| Timed(init, since, mid) && ApproveWithin(last, mid, until);
      ApproveAllPast(cfg, handlers, s, t, id, init, since, mid);
      ApprovePast(cfg, handlers, ApproveAll(cfg, handlers, s, t, id, init), t, id, last, mid, until);
    }
  }

  // ---- When a gate can be committed --------------------------------------------------------

  /** The last of the calls commits the gate. */
  ghost predicate CommitsLast(cfg: Config, handlers: Handlers, s: GateState, t: TaskId, id: string,
                              calls: seq<Approving>)
  {
    calls != [] &&
    var init, last := calls[..|calls| - 1], calls[|calls| - 1];
    Commits(cfg, handlers, ApproveAll(cfg, handlers, s, t, id, init), t, id, last)
  }

  /** The digest a call asks the gateway about. */
  function AskedDigest(cfg: Config, s: GateState, t: TaskId, id: string, call: Approving): Digest
    requires GateFirst(cfg.StepsOf(t), id)
  {
    GateDigest(cfg, ResumeFor(cfg, s, t, call.before).now.trace, t, FirstById(cfg.StepsOf(t), id).value)
  }

  /** It does so with the intent of `d`. */
  ghost predicate CommitsOn(cfg: Config, handlers: Handlers, s: GateState, t: TaskId, id: string, d: Digest,
                            calls: seq<Approving>)
  {
    && CommitsLast(cfg, handlers, s, t, id, calls)
    && var init, last := calls[..|calls| - 1], calls[|calls| - 1];
       AskedDigest(cfg, ApproveAll(cfg, handlers, s, t, id, init), t, id, last) == d
  }

  /** With some executor, some calls from `since` on commit the gate. */
  ghost predicate CanCommit(cfg: Config, s: GateState, t: TaskId, id: string, since: real) {
    exists handlers, calls, until :: Timed(calls, since, until) && CommitsLast(cfg, handlers, s, t, id, calls)
  }

  /** The digest of a gate's intent at the halt. */
  function HaltDigest(cfg: Config, s: GateState, t: TaskId, gate: Step): Digest
    requires gate.kind.HumanGate?
  {
    GateDigest(cfg, HaltOf(cfg, s, t).now.trace, t, gate)
  }

  lemma {:induction false} ApproveAllSound(cfg: Config, handlers: Handlers, s: GateState, t: TaskId, id: string,
                                           calls: seq<Approving>)
    requires Sound(cfg, s) && Created(s.trace, t)
    ensures RunnerStep(cfg, s, t, ApproveAll(cfg, handlers, s, t, id, calls))
    ensures !CanReturn(cfg, s, t) ==> !CanReturn(cfg, ApproveAll(cfg, handlers, s, t, id, calls), t)
  {
    if calls != [] {
      var init, last := calls[..|calls| - 1], calls[|calls| - 1];
      var before := ApproveAll(cfg, handlers, s, t, id, init);
      ApproveAllSound(cfg, handlers, s, t, id, init);
      ApproveMeans(cfg, handlers, before, t, id, last);
      RunnerStepsCompose(cfg, s, t, before, ApproveAll(cfg, handlers, s, t, id, calls));
      if !CanReturn(cfg, s, t) {
        ResumeRaises(cfg, before, t, last.before);
      }
    }
  }

  /** What a call that commits shows of the state it starts from. */
  lemma CommitShows(cfg: Config, handlers: Handlers, s: GateState, t: TaskId, id: string, call: Approving, from: real,
                    to: real)
    requires Sound(cfg, s) && Created(s.trace, t) && Commits(cfg, handlers, s, t, id, call)
    requires Past(s.records, from) && ApproveWithin(call, from, to)
    ensures GateFirst(cfg.StepsOf(t), id) && CanReturn(cfg, s, t)
    ensures var d := HaltDigest(cfg, s, t, FirstById(cfg.StepsOf(t), id).value); cfg.Approvable(d) && Lives(cfg, d)
  {
    if !CanReturn(cfg, s, t) {
      ResumeRaises(cfg, s, t, call.before);
    }
    AskedMeans(cfg, s, t, id, call);
    ResumeMeans(cfg, s, t, call.before);
    ResumePast(cfg, s, t, call.before, from, call.sub.opening);
    var resumed := ResumeFor(cfg, s, t, call.before).now;
    var d := GateDigest(cfg, resumed.trace, t, FirstById(cfg.StepsOf(t), id).value);
    GrantIsFresh(cfg, resumed, d.of, call.sub);
    var granted := SubmissionOf(cfg, s, t, id, call).state.trace;
    ApprovalIsQuorate(cfg, granted.before, granted.act, d);
    if !Lives(cfg, d) {
      ShortLived(cfg, resumed, d.of, call.sub);
    }
  }

  // ---- Records that block ------------------------------------------------------------------

  lemma HaltKeeps(cfg: Config, s: GateState, t: TaskId, order: seq<string>, k: nat, d: Digest, answers: Answers)
    requires Sound(cfg, s) && Created(s.trace, t) && RunOrder(cfg.StepsOf(t)) == Some(order)
    requires HaltsAt(cfg, s, t, order, k) && CanReturnAt(cfg, t, Halt(s, order[k..]))
    requires !DecidesOn(cfg, t, Halt(s, order[k..]), d)
    ensures var run := DriveFor(cfg, s, t, order[k..], answers);
      Rests(cfg, s, t, run) && SameAt(s.records, run.now.records, d)
  {
    if k == |order| {
      DoneMeans(cfg, s, t, order);
      assert order[k..] == [];
    } else {
      assert order[k..][0] == order[k];
      TurnOf(cfg, s.trace, t, order, k);
      var step, a := ById(cfg.StepsOf(t))[order[k]], answers(order[k]);
      if step.kind.HumanGate? {
        StepMeans(cfg, s, t, step, a);
        DecidedElsewhere(cfg, s, GateDigest(cfg, s.trace, t, step).of, a.now, a.challenge, d);
      } else {
        VerifyRests(cfg, s, t, step, a);
      }
    }
  }

  /** A spent record that no decision at the halt can replace. */
  ghost predicate Blocked(cfg: Config, s: GateState, t: TaskId, gate: Step, d: Digest, since: real)
    requires gate.kind.HumanGate?
  {
    && Sound(cfg, s) && Created(s.trace, t) && CanReturn(cfg, s, t) && HaltDigest(cfg, s, t, gate) == d
    && Spent(s.records, d, since) && !DecidesOn(cfg, t, HaltOf(cfg, s, t), d)
  }

  lemma BlockedResume(cfg: Config, s: GateState, t: TaskId, gate: Step, d: Digest, since: real, answers: Answers)
    requires gate.kind.HumanGate? && Blocked(cfg, s, t, gate, d, since)
    ensures var run := ResumeFor(cfg, s, t, answers);
      && run.end.Stops? && RunnerStep(cfg, s, t, run.now) && SameAt(s.records, run.now.records, d)
      && Recorded(run.now.trace, t) == Recorded(HaltOf(cfg, s, t).now.trace, t)
  {
    var order, h := RunOrder(cfg.StepsOf(t)).value, HaltOf(cfg, s, t);
    ResumeHalts(cfg, s, t, answers);
    assert h == Halt(h.now, order[|order| - |h.rest|..]);
    HaltKeeps(cfg, h.now, t, order, |order| - |h.rest|, d, answers);
    RestsAhead(cfg, s, t, h.now, ResumeFor(cfg, s, t, answers));
  }

  /** What is recorded at the halt is recorded after it, and no more: the halt stays where it was. */
  lemma HaltStays(cfg: Config, s: GateState, t: TaskId, after: GateState)
    requires Sound(cfg, s) && Created(s.trace, t) && RunOrder(cfg.StepsOf(t)).Some?
    requires Recorded(after.trace, t) == Recorded(HaltOf(cfg, s, t).now.trace, t)
    ensures HaltOf(cfg, after, t) == Halt(after, HaltOf(cfg, s, t).rest)
  {
    var order, h := RunOrder(cfg.StepsOf(t)).value, HaltOf(cfg, s, t);
    var k := HaltPlace(cfg, s, t);
    HaltsAlike(cfg, h.now, after, t, order, k);
    HaltIsLast(cfg, after, t, order, k);
  }

  lemma HaltPlace(cfg: Config, s: GateState, t: TaskId) returns (k: nat)
    requires Sound(cfg, s) && Created(s.trace, t) && RunOrder(cfg.StepsOf(t)).Some?
    ensures var order, h := RunOrder(cfg.StepsOf(t)).value, HaltOf(cfg, s, t);
      k <= |order| && h.rest == order[k..] && HaltsAt(cfg, h.now, t, order, k)
  {
    ResumeHalts(cfg, s, t, Deferring(0.0));
    k := |RunOrder(cfg.StepsOf(t)).value| - |HaltOf(cfg, s, t).rest|;
  }

  lemma HaltsAlike(cfg: Config, a: GateState, b: GateState, t: TaskId, order: seq<string>, k: nat)
    requires HaltsAt(cfg, a, t, order, k) && Recorded(a.trace, t) == Recorded(b.trace, t)
    ensures HaltsAt(cfg, b, t, order, k)
  {
  }

  /** So does everything that depends on it. */
  lemma HaltAlike(cfg: Config, s: GateState, t: TaskId, after: GateState, gate: Step, d: Digest)
    requires Sound(cfg, s) && Created(s.trace, t) && CanReturn(cfg, s, t) && gate.kind.HumanGate?
    requires Recorded(after.trace, t) == Recorded(HaltOf(cfg, s, t).now.trace, t)
    ensures CanReturn(cfg, after, t) && HaltDigest(cfg, after, t, gate) == HaltDigest(cfg, s, t, gate)
    ensures DecidesOn(cfg, t, HaltOf(cfg, after, t), d) <==> DecidesOn(cfg, t, HaltOf(cfg, s, t), d)
  {
    HaltStays(cfg, s, t, after);
    DecidesAlike(cfg, t, HaltOf(cfg, s, t), HaltOf(cfg, after, t), d);
  }

  lemma DecidesAlike(cfg: Config, t: TaskId, a: Halt, b: Halt, d: Digest)
    requires a.rest == b.rest && Recorded(a.now.trace, t) == Recorded(b.now.trace, t)
    ensures DecidesOn(cfg, t, a, d) <==> DecidesOn(cfg, t, b, d)
    ensures CanReturnAt(cfg, t, a) <==> CanReturnAt(cfg, t, b)
  {
  }

  /** Below it nothing is granted, and the record stays spent. */
  lemma BlockedCall(cfg: Config, handlers: Handlers, s: GateState, t: TaskId, id: string, gate: Step, d: Digest,
                    since: real, call: Approving)
    requires FirstById(cfg.StepsOf(t), id) == Some(gate) && gate.kind.HumanGate?
    requires Blocked(cfg, s, t, gate, d, since) && since <= call.sub.now
    ensures !Commits(cfg, handlers, s, t, id, call)
    ensures Blocked(cfg, ApproveFor(cfg, handlers, s, t, id, call).now, t, gate, d, since)
  {
    var resumed, after := ResumeFor(cfg, s, t, call.before).now, ApproveFor(cfg, handlers, s, t, id, call).now;
    BlockedResume(cfg, s, t, gate, d, since, call.before);
    SpentStays(cfg, resumed, d.of, call.sub, since);
    AskedMeans(cfg, s, t, id, call);
    ApproveMeans(cfg, handlers, s, t, id, call);
    HaltAlike(cfg, s, t, after, gate, d);
  }

  lemma {:induction false} BlockedCalls(cfg: Config, handlers: Handlers, s: GateState, t: TaskId, id: string,
                                        gate: Step, d: Digest, calls: seq<Approving>, since: real, until: real)
    requires FirstById(cfg.StepsOf(t), id) == Some(gate) && gate.kind.HumanGate?
    requires Blocked(cfg, s, t, gate, d, since) && Timed(calls, since, until)
    ensures since <= until && Blocked(cfg, ApproveAll(cfg, handlers, s, t, id, calls), t, gate, d, since)
  {
    if calls != [] {
      var init, last := calls[..|calls| - 1], calls[|calls| - 1];
      var mid :| Timed(init, since, mid) && ApproveWithin(last, mid, until);
      BlockedCalls(cfg, handlers, s, t, id, gate, d, init, since, mid);
      BlockedCall(cfg, handlers, ApproveAll(cfg, handlers, s, t, id, init), t, id, gate, d, since, last);
    }
  }

  // ---- Records that serve ------------------------------------------------------------------

  /** A task that has come to its halt, and a gate whose record waits for someone. */
  ghost predicate Parked(cfg: Config, s: GateState, t: TaskId, gate: Step, d: Digest, now: real)
    requires gate.kind.HumanGate?
  {
    && Sound(cfg, s) && Created(s.trace, t) && CanReturn(cfg, s, t) && HaltDigest(cfg, s, t, gate) == d
    && AwaitsOne(s.records, d, now)
  }

  /** A call at `now` in which every worker defers and asks about `d`. */
  function CallAt(d: Digest, sub: Submission, now: real): Approving {
    Approving(Asking(d.of, now), sub, Asking(d.of, now))
  }

  lemma GateHasItsTool(cfg: Config, tr: Trace, t: TaskId, gate: Step)
    requires gate.kind.HumanGate? && cfg.Approvable(GateDigest(cfg, tr, t, gate))
    ensures RightTool(cfg, GateDigest(cfg, tr, t, gate))
  {
  }

  lemma {:induction false} ParkedResume(cfg: Config, s: GateState, t: TaskId, gate: Step, d: Digest, now: real)
    requires gate.kind.HumanGate? && Parked(cfg, s, t, gate, d, now) && cfg.Approvable(d)
    ensures var run := ResumeFor(cfg, s, t, Asking(d.of, now));
      && run.end.Stops? && RunnerStep(cfg, s, t, run.now) && SameAt(s.records, run.now.records, d)
      && Recorded(run.now.trace, t) == Recorded(HaltOf(cfg, s, t).now.trace, t)
  {
    GateHasItsTool(cfg, HaltOf(cfg, s, t).now.trace, t, gate);
    ResumeAsks(cfg, s, t, d, now);
  }

  /** One more eligible approver: the task stays parked with it, or the gate is committed. */
  lemma ParkedCall(cfg: Config, handlers: Handlers, s: GateState, t: TaskId, id: string, gate: Step, d: Digest,
                   p: string, now: real)
    requires FirstById(cfg.StepsOf(t), id) == Some(gate) && gate.kind.HumanGate?
    requires Parked(cfg, s, t, gate, d, now) && cfg.Approvable(d) && handlers.Some? && d.of.tool in handlers.value
    requires p in s.records[d].terms.eligible && p !in s.records[d].approvers
    ensures var call := CallAt(d, Approves(p, now), now);
      var pa, after := s.records[d], ApproveFor(cfg, handlers, s, t, id, call).now;
      && AskedDigest(cfg, s, t, id, call) == d
      && (|pa.approvers| + 1 >= pa.terms.quorum ==> Commits(cfg, handlers, s, t, id, call))
      && (|pa.approvers| + 1 < pa.terms.quorum ==>
            Parked(cfg, after, t, gate, d, now) && after.records[d] == pa.(approvers := pa.approvers + {p}))
  {
    var call, pa := CallAt(d, Approves(p, now), now), s.records[d];
    var resumed := ResumeFor(cfg, s, t, call.before).now;
    ParkedResume(cfg, s, t, gate, d, now);
    OneMoreApproves(cfg, resumed, d, p, now);
    AskedMeans(cfg, s, t, id, call);
    ApproveMeans(cfg, handlers, s, t, id, call);
    if |pa.approvers| + 1 < pa.terms.quorum {
      StillWaits(cfg, s, d, p);
      HaltAlike(cfg, s, t, ApproveFor(cfg, handlers, s, t, id, call).now, gate, d);
    }
  }

  lemma {:induction false} ApproveAllAfter(cfg: Config, handlers: Handlers, s: GateState, t: TaskId, id: string,
                                           a: seq<Approving>, b: seq<Approving>)
    ensures ApproveAll(cfg, handlers, s, t, id, a + b)
         == ApproveAll(cfg, handlers, ApproveAll(cfg, handlers, s, t, id, a), t, id, b)
    decreases |b|
  {
    if b == [] {
      assert a + b == a;
    } else {
      assert (a + b)[..|a + b| - 1] == a + b[..|b| - 1];
      ApproveAllAfter(cfg, handlers, s, t, id, a, b[..|b| - 1]);
    }
  }

  lemma OneCall(cfg: Config, handlers: Handlers, s: GateState, t: TaskId, id: string, call: Approving)
    ensures ApproveAll(cfg, handlers, s, t, id, [call]) == ApproveFor(cfg, handlers, s, t, id, call).now
  {
    assert [call][..0] == [];
  }

  lemma CommitsAfter(cfg: Config, handlers: Handlers, s: GateState, t: TaskId, id: string, first: Approving,
                     more: seq<Approving>)
    requires CommitsLast(cfg, handlers, ApproveFor(cfg, handlers, s, t, id, first).now, t, id, more)
    ensures CommitsLast(cfg, handlers, s, t, id, [first] + more)
    ensures forall d :: CommitsOn(cfg, handlers, ApproveFor(cfg, handlers, s, t, id, first).now, t, id, d, more) ==>
      CommitsOn(cfg, handlers, s, t, id, d, [first] + more)
  {
    var init, calls := more[..|more| - 1], [first] + more;
    OneCall(cfg, handlers, s, t, id, first);
    assert calls[..|calls| - 1] == [first] + init && calls[|calls| - 1] == more[|more| - 1];
    ApproveAllAfter(cfg, handlers, s, t, id, [first], init);
  }

  lemma OnlyCallCommits(cfg: Config, handlers: Handlers, s: GateState, t: TaskId, id: string, call: Approving)
    requires Commits(cfg, handlers, s, t, id, call)
    ensures CommitsOn(cfg, handlers, s, t, id, AskedDigest(cfg, s, t, id, call), [call])
  {
    assert [call][..0] == [] && ApproveAll(cfg, handlers, s, t, id, []) == s;
  }

  /** All workers defer. */
  ghost predicate Patient(call: Approving) {
    forall id :: call.before(id).status == Deferred && call.after(id).status == Deferred
  }

  ghost predicate AllAt(calls: seq<Approving>, now: real) {
    forall i :: 0 <= i < |calls| ==> ApproveWithin(calls[i], now, now) && Patient(calls[i])
  }

  lemma AllAtNext(d: Digest, sub: Submission, more: seq<Approving>, now: real)
    requires sub.opening == sub.now == now && AllAt(more, now)
    ensures AllAt([CallAt(d, sub, now)] + more, now)
  {
  }

  /** Those who can still approve do so, one after another, until the quorum is complete. */
  lemma {:induction false} ParkedCommits(cfg: Config, handlers: Handlers, s: GateState, t: TaskId, id: string,
                                         gate: Step, d: Digest, now: real) returns (calls: seq<Approving>)
    requires FirstById(cfg.StepsOf(t), id) == Some(gate) && gate.kind.HumanGate?
    requires Parked(cfg, s, t, gate, d, now) && cfg.Approvable(d) && handlers.Some? && d.of.tool in handlers.value
    ensures CommitsOn(cfg, handlers, s, t, id, d, calls) && AllAt(calls, now)
    decreases |s.records[d].terms.eligible - s.records[d].approvers|
  {
    var pa := s.records[d];
    var p :| p in pa.terms.eligible && p !in pa.approvers;
    var first := CallAt(d, Approves(p, now), now);
    ParkedCall(cfg, handlers, s, t, id, gate, d, p, now);
    if |pa.approvers| + 1 >= pa.terms.quorum {
      OnlyCallCommits(cfg, handlers, s, t, id, first);
      AllAtNext(d, Approves(p, now), [], now);
      calls := [first] + [];
      assert calls == [first];
    } else {
      StillWaits(cfg, s, d, p);
      var more := ParkedCommits(cfg, handlers, ApproveFor(cfg, handlers, s, t, id, first).now, t, id, gate, d, now);
      CommitsAfter(cfg, handlers, s, t, id, first, more);
      AllAtNext(d, Approves(p, now), more, now);
      calls := [first] + more;
    }
  }

  /** The first call sees to it that there is a record that waits for someone. */
  lemma FirstCallParks(cfg: Config, handlers: Handlers, s: GateState, t: TaskId, id: string, gate: Step, d: Digest,
                       now: real)
    requires Sound(cfg, s) && Created(s.trace, t) && CanReturn(cfg, s, t)
    requires FirstById(cfg.StepsOf(t), id) == Some(gate) && gate.kind.HumanGate?
    requires HaltDigest(cfg, s, t, gate) == d && cfg.Approvable(d) && Lives(cfg, d)
    requires d in s.records ==>
      AwaitsOne(s.records, d, now) || (!Reusable(s.records, d, now) && DecidesOn(cfg, t, HaltOf(cfg, s, t), d))
    ensures Parked(cfg, ApproveFor(cfg, handlers, s, t, id, CallAt(d, Rejects(now), now)).now, t, gate, d, now)
  {
    var call := CallAt(d, Rejects(now), now);
    var resumed := ResumeFor(cfg, s, t, call.before).now;
    GateHasItsTool(cfg, HaltOf(cfg, s, t).now.trace, t, gate);
    ResumeAsks(cfg, s, t, d, now);
    RejectedOpens(cfg, resumed, d, now);
    AskedMeans(cfg, s, t, id, call);
    ApproveMeans(cfg, handlers, s, t, id, call);
    HaltAlike(cfg, s, t, ApproveFor(cfg, handlers, s, t, id, call).now, gate, d);
  }

  /** The condition, at time `since`. */
  predicate Committable(cfg: Config, s: GateState, t: TaskId, id: string, since: real) {
    && GateFirst(cfg.StepsOf(t), id) && CanReturn(cfg, s, t)
    && var d := HaltDigest(cfg, s, t, FirstById(cfg.StepsOf(t), id).value);
       && cfg.Approvable(d) && Lives(cfg, d)
       && (Spent(s.records, d, since) ==> DecidesOn(cfg, t, HaltOf(cfg, s, t), d))
  }

  /** When to start: at once, unless the record at hand has to run out first. */
  function StartTime(rs: ByDigest, d: Digest, since: real): (r: real)
    ensures r >= since
  {
    if Spent(rs, d, since) then IdleTime(rs, d, since) else since
  }

  lemma StartServes(cfg: Config, s: GateState, d: Digest, since: real)
    requires Sound(cfg, s)
    ensures var now := StartTime(s.records, d, since);
      && (d in s.records && !Spent(s.records, d, since) ==> AwaitsOne(s.records, d, now))
      && (Spent(s.records, d, since) ==> !Reusable(s.records, d, now))
  {
    if d in s.records && !s.records[d].used {
      LiveWithin(cfg, s, d);
    }
  }

  /** At one instant, some calls commit a gate that can be committed. */
  lemma SomeCallsCommit(cfg: Config, handlers: Handlers, s: GateState, t: TaskId, id: string, since: real)
    returns (calls: seq<Approving>, now: real)
    requires Sound(cfg, s) && Created(s.trace, t) && Committable(cfg, s, t, id, since)
    requires handlers.Some? && HaltDigest(cfg, s, t, FirstById(cfg.StepsOf(t), id).value).of.tool in handlers.value
    ensures since <= now && AllAt(calls, now)
    ensures CommitsOn(cfg, handlers, s, t, id, HaltDigest(cfg, s, t, FirstById(cfg.StepsOf(t), id).value), calls)
  {
    var gate := FirstById(cfg.StepsOf(t), id).value;
    var d := HaltDigest(cfg, s, t, gate);
    now := StartTime(s.records, d, since);
    StartServes(cfg, s, d, since);
    var first := CallAt(d, Rejects(now), now);
    FirstCallParks(cfg, handlers, s, t, id, gate, d, now);
    var parked := ApproveFor(cfg, handlers, s, t, id, first).now;
    var more := ParkedCommits(cfg, handlers, parked, t, id, gate, d, now);
    CommitsAfter(cfg, handlers, s, t, id, first, more);
    AllAtNext(d, Rejects(now), more, now);
    calls := [first] + more;
  }

  lemma CommitNeeds(cfg: Config, handlers: Handlers, s: GateState, t: TaskId, id: string, calls: seq<Approving>,
                    since: real, until: real)
    requires Sound(cfg, s) && Created(s.trace, t) && Past(s.records, since)
    requires Timed(calls, since, until) && CommitsLast(cfg, handlers, s, t, id, calls)
    ensures Committable(cfg, s, t, id, since)
  {
    var init, last := calls[..|calls| - 1], calls[|calls| - 1];
    var before := ApproveAll(cfg, handlers, s, t, id, init);
    var mid :| Timed(init, since, mid) && ApproveWithin(last, mid, until);
    ApproveAllSound(cfg, handlers, s, t, id, init);
    ApproveAllPast(cfg, handlers, s, t, id, init, since, mid);
    CommitShows(cfg, handlers, before, t, id, last, mid, until);
    var gate := FirstById(cfg.StepsOf(t), id).value;
    var d := HaltDigest(cfg, s, t, gate);
    if Spent(s.records, d, since) && !DecidesOn(cfg, t, HaltOf(cfg, s, t), d) {
      BlockedCalls(cfg, handlers, s, t, id, gate, d, init, since, mid);
      BlockedCall(cfg, handlers, before, t, id, gate, d, since, last);
    }
  }

  /** From any sound state of either store, calls of `approve_step` from `since` on can commit a gate
  exactly when its first declaration is a gate, a resume of the task can return, enough principals are
  eligible to approve the gate's action, a new record does not expire at once, and, where the gate's
  record is spent, a decision at the halt can open a new one. The steps the gate needs do not matter. */
  lemma GateCommitsIff(cfg: Config, s: GateState, t: TaskId, id: string, since: real)
    requires Sound(cfg, s) && Created(s.trace, t) && Past(s.records, since)
    ensures CanCommit(cfg, s, t, id, since) <==> Committable(cfg, s, t, id, since)
  {
    if CanCommit(cfg, s, t, id, since) {
      var handlers, calls, until :| Timed(calls, since, until) && CommitsLast(cfg, handlers, s, t, id, calls);
      CommitNeeds(cfg, handlers, s, t, id, calls, since, until);
    }
    if Committable(cfg, s, t, id, since) {
      var handlers := Some({HaltDigest(cfg, s, t, FirstById(cfg.StepsOf(t), id).value).of.tool});
      var calls, now := SomeCallsCommit(cfg, handlers, s, t, id, since);
      TimedAt(calls, since, now);
    }
  }
}
