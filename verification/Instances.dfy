/** Inputs at which the code does what its documentation does not say: a request for approval that
nobody can meet, a gate committed before a step it needs, and a handle that contradicts the ledger. */
module Instances {
  import opened Records
  import opened DependencyOrders
  import opened Protocol
  import opened Gateways
  import opened GateRuns
  import opened Renewals
  import opened Runners
  import opened GateLimits
  import opened Finality
  import opened RunFinality
  import opened Completions

  // ---- A request that nobody can meet ------------------------------------------------------

  /** One bounded action, with somebody eligible to approve it. */
  function Bounded(): Config {
    Config(map[], map[],
           map["pay" := Action("pay", "bank", BoundedInternal, Some(Approval({"human:board"}, 1, 600.0)))],
           map["pay" := Bounds(Some(1.0), None)], _ => "", _ => None)
  }

  const TOO_MUCH := ActionIntent(TASK, "s", "worker", "pay", "bank", None, Some(5.0), WorkerArgs(map[]))

  /** Beyond its bound the action asks for approval, and no approval is ever accepted. */
  lemma NobodyCanApprove()
    ensures var step := Decided(Bounded(), FRESH, TOO_MUCH, 0.0, 0);
      step.outcome.decision == ApprovalRequired && !CanBeGranted(Bounded(), step.state, TOO_MUCH)
  {
    assert Bounded().Keyed();
    FreshSound(Bounded());
    ApprovableIff(Bounded(), FRESH, TOO_MUCH, 0.0, 0);
  }

  // ---- A gate before a step it needs -------------------------------------------------------

  lemma {:induction false} PatienceWithholds(cfg: Config, handlers: Handlers, s: GateState, t: TaskId, id: string,
                                             calls: seq<Approving>, x: string, now: real)
    requires InRun(cfg, s, t) && AllAt(calls, now) && x != id && x !in Recorded(s.trace, t)
    requires x in ById(cfg.StepsOf(t)) && ById(cfg.StepsOf(t))[x].kind.Work?
    ensures x !in Recorded(ApproveAll(cfg, handlers, s, t, id, calls).trace, t)
  {
    if calls != [] {
      var init, last := calls[..|calls| - 1], calls[|calls| - 1];
      var before := ApproveAll(cfg, handlers, s, t, id, init);
      PatienceWithholds(cfg, handlers, s, t, id, init, x, now);
      ApproveAllSound(cfg, handlers, s, t, id, init);
      assert Patient(last);
      if x in Recorded(ApproveFor(cfg, handlers, before, t, id, last).now.trace, t) {
        RecordedByCommit(cfg, handlers, before, t, id, last, x);
      }
    }
  }

  /** Some calls put the gate on record and leave the step unrecorded. */
  ghost predicate CommitsWithout(cfg: Config, s: GateState, t: TaskId, id: string, x: string, since: real) {
    exists handlers, calls, until ::
      && Timed(calls, since, until)
      && id in Recorded(ApproveAll(cfg, handlers, s, t, id, calls).trace, t)
      && x !in Recorded(ApproveAll(cfg, handlers, s, t, id, calls).trace, t)
  }

  /** A gate that can be committed can be committed before any other step whose worker has not
  succeeded yet, be it one that the gate needs. */
  lemma CommitsBeforeWork(cfg: Config, s: GateState, t: TaskId, id: string, x: string, since: real)
    requires InRun(cfg, s, t) && Committable(cfg, s, t, id, since) && x != id && x !in Recorded(s.trace, t)
    requires x in ById(cfg.StepsOf(t)) && ById(cfg.StepsOf(t))[x].kind.Work?
    ensures CommitsWithout(cfg, s, t, id, x, since)
  {
    var handlers := Some({HaltDigest(cfg, s, t, FirstById(cfg.StepsOf(t), id).value).of.tool});
    var calls, now := SomeCallsCommit(cfg, handlers, s, t, id, since);
    TimedAt(calls, since, now);
    LastCallRecords(cfg, handlers, s, t, id, calls);
    PatienceWithholds(cfg, handlers, s, t, id, calls, x, now);
  }

  /** A gate and the work it needs. */
  function WorkThenGate(): seq<Step> {
    [Step("a", Work, None, [], None), Step("g", HumanGate("pay"), None, ["a"], None)]
  }

  lemma WorkThenGateOrder()
    ensures RunOrder(WorkThenGate()) == Some(["a", "g"])
    ensures ById(WorkThenGate()) == map["a" := WorkThenGate()[0], "g" := WorkThenGate()[1]]
  {
    var steps := WorkThenGate();
    assert steps[..1] == [steps[0]] && steps[..1][..0] == [] && ById(steps[..1]) == map["a" := steps[0]];
    assert ById(steps) == map["a" := steps[0], "g" := steps[1]] && Ids(steps) == ["a", "g"];
    var g := Needs(steps);
    assert g == map["a" := [], "g" := ["a"]] && ["a", "g"][1..] == ["g"] && ["g"][1..] == [] && ["a"][1..] == [];
    assert Visit(g, "a", [], []) == Ordered(["a"]) by { assert [] + ["a"] == ["a"]; }
    assert VisitNeeds(g, ["a"], ["g"], ["a"]) == Ordered(["a"]);
    assert Visit(g, "g", [], ["a"]) == Ordered(["a", "g"]) by { assert [] + ["g"] == ["g"]; }
    assert VisitNeeds(g, ["g"], [], ["a"]) == Ordered(["a", "g"]);
  }

  /** Right after it was created, the gate is committed while the work it needs is unrecorded. */
  lemma GateBeforeItsNeed()
    ensures WorkThenGate()[1].needs == ["a"]
    ensures CommitsWithout(Permissive(WorkThenGate()), CreateFor(FRESH, TASK), TASK, "g", "a", 0.0)
  {
    WorkThenGateOrder();
    GateBeforeFirst(WorkThenGate(), "g");
  }

  /** The first step of the order is work: any gate can be committed before it. */
  predicate StartsWithWork(steps: seq<Step>) {
    RunOrder(steps).Some? && RunOrder(steps).value != [] &&
    var first := RunOrder(steps).value[0];
    first in ById(steps) && ById(steps)[first].kind.Work?
  }

  lemma GateBeforeFirst(steps: seq<Step>, id: string)
    requires StartsWithWork(steps) && GateFirst(steps, id) && id != RunOrder(steps).value[0]
    ensures CommitsWithout(Permissive(steps), CreateFor(FRESH, TASK), TASK, id, RunOrder(steps).value[0], 0.0)
  {
    CreateMeans(Permissive(steps), FRESH, TASK);
    NewGateIsCommittable(steps, id);
    CommitsBeforeWork(Permissive(steps), CreateFor(FRESH, TASK), TASK, id, RunOrder(steps).value[0], 0.0);
  }

  lemma NewGateIsCommittable(steps: seq<Step>, id: string)
    requires StartsWithWork(steps) && GateFirst(steps, id)
    ensures Committable(Permissive(steps), CreateFor(FRESH, TASK), TASK, id, 0.0)
  {
    var cfg, s, order := Permissive(steps), CreateFor(FRESH, TASK), RunOrder(steps).value;
    CreateMeans(cfg, FRESH, TASK);
    HaltIsLast(cfg, s, TASK, order, 0);
    assert order[0..] == order;
    PermissiveApproves(steps, id, s.trace);
  }

  // ---- A handle that contradicts the ledger ------------------------------------------------

  /** Once all steps are recorded, an assertion that is not granted is told WAITING_FOR_HUMAN, and the
  ledger says SUCCEEDED. */
  lemma LateAssertion(cfg: Config, handlers: Handlers, s: GateState, t: TaskId, order: seq<string>, id: string,
                      call: Approving)
    requires InRun(cfg, s, t) && RunOrder(cfg.StepsOf(t)) == Some(order) && RecordedTo(s.trace, t, order, |order|)
    requires Asked(cfg, s, t, id, call) && SubmissionOf(cfg, s, t, id, call).outcome.decision != Granted
    ensures var run := ApproveFor(cfg, handlers, s, t, id, call);
      run.end == Stops(WAITING_FOR_HUMAN, OnApproval(id)) && StateOf(run.now.trace, t) == SUCCEEDED
  {
    HaltIsLast(cfg, s, t, order, |order|);
    ResumeHalts(cfg, s, t, call.before);
    AskedMeans(cfg, s, t, id, call);
    ApproveMeans(cfg, handlers, s, t, id, call);
  }

  /** The two-step workflow that succeeds by itself, and an assertion that the verifier turns down. */
  lemma HandleContradictsLedger(handlers: Handlers)
    ensures var cfg := Permissive(TwiceDeclared());
      var s := StartFor(cfg, FRESH, "w", map[], AllOk()).now;
      var run := ApproveFor(cfg, handlers, s, TASK, "s", Approving(AllOk(), Rejects(0.0), AllOk()));
      run.end == Stops(WAITING_FOR_HUMAN, OnApproval("s")) && StateOf(run.now.trace, TASK) == SUCCEEDED
  {
    var steps, cfg := TwiceDeclared(), Permissive(TwiceDeclared());
    var s, call := StartFor(cfg, FRESH, "w", map[], AllOk()).now, Approving(AllOk(), Rejects(0.0), AllOk());
    TwiceDeclaredOrder();
    StartSucceeds(steps);
    HaltIsLast(cfg, s, TASK, ["s"], 1);
    ResumeHalts(cfg, s, TASK, AllOk());
    RejectionGrantsNothing(cfg, ResumeFor(cfg, s, TASK, AllOk()).now, AskedDigest(cfg, s, TASK, "s", call).of, 0.0);
    LateAssertion(cfg, handlers, s, TASK, ["s"], "s", call);
  }

  lemma RejectionGrantsNothing(cfg: Config, s: GateState, intent: ActionIntent, now: real)
    ensures Submitted(cfg, s, intent, Rejects(now)).outcome.decision != Granted
  {
    if NeedsApproval(cfg, intent) {
      var action := cfg.actions[intent.actionId];
      var tier := Classify(action.risk);
      var begun := if Digest(intent) in s.records then s else OpenFor(s, intent, action, tier, now, 0).state;
      if Digest(intent) in begun.records {
        RejectedOnRecord(begun, intent, tier, now);
      }
    }
  }

  lemma RejectedOnRecord(s: GateState, intent: ActionIntent, tier: Tier, now: real)
    requires Digest(intent) in s.records
    ensures SubmittedTo(s, intent, tier, Rejects(now)).outcome.decision != Granted
  {
  }
}
