/** The workflow checks of `compile_company` (`comcmd/compile/compiler.py`) that the runner relies
on, and what a workflow that passes them can still fail of. */
module Compilation {
  import opened Records
  import opened Graphs
  import opened DependencyOrders
  import opened CycleChecks
  import opened Protocol
  import opened GateHistories
  import opened Gateways
  import opened Runners
  import opened Renewals
  import opened GateLimits

  const MAX_FANOUT := 32
  const MAX_VERIFIERS := 32

  datatype CompileError =
    | FanoutTooNarrow(step: string)
    | FanoutTooWide(step: string)
    | TooFewVerifiers(step: string)
    | TooManyVerifiers(step: string)
    | VerifiesNothing(step: string)
    | QuorumOutOfRange(step: string)
    | UnknownNeed(step: string, need: string)
    | UnboundedCycle(path: seq<string>)

  function QuorumOf(q: Option<int>): int {
    if q.Some? then q.value else 1
  }

  /** `e` is a fault of this step, in a workflow that declares `ids`. */
  predicate FaultOf(step: Step, ids: set<string>, e: CompileError) {
    match e
    case FanoutTooNarrow(s) => s == step.id && step.kind.Fanout? && step.kind.width < 2
    case FanoutTooWide(s) => s == step.id && step.kind.Fanout? && step.kind.width > MAX_FANOUT
    case TooFewVerifiers(s) => s == step.id && step.kind.Verify? && step.kind.verifiers < 1
    case TooManyVerifiers(s) => s == step.id && step.kind.Verify? && step.kind.verifiers > MAX_VERIFIERS
    case VerifiesNothing(s) => s == step.id && step.kind.Verify? && step.needs == []
    case QuorumOutOfRange(s) =>
      && s == step.id && step.kind.Verify? && step.kind.verifiers != 0
      && !(1 <= QuorumOf(step.kind.verifyQuorum) <= step.kind.verifiers)
    case UnknownNeed(s, n) => s == step.id && n in step.needs && n !in ids
    case UnboundedCycle(_) => false
  }

  method CheckStep(step: Step, ids: set<string>) returns (errors: seq<CompileError>)
    ensures forall e :: e in errors <==> FaultOf(step, ids, e)
  {
    errors := [];
    match step.kind {
      case Fanout(width, _, _, _) =>
        if width < 2 {
          errors := errors + [FanoutTooNarrow(step.id)];
        } else if width > MAX_FANOUT {
          errors := errors + [FanoutTooWide(step.id)];
        }
      case Verify(verifiers, verifyQuorum) =>
        if verifiers < 1 {
          errors := errors + [TooFewVerifiers(step.id)];
        } else if verifiers > MAX_VERIFIERS {
          errors := errors + [TooManyVerifiers(step.id)];
        }
        if step.needs == [] {
          errors := errors + [VerifiesNothing(step.id)];
        }
        if verifiers != 0 && !(1 <= QuorumOf(verifyQuorum) <= verifiers) {
          errors := errors + [QuorumOutOfRange(step.id)];
        }
      case _ =>
    }
    ghost var others := errors;
    for i := 0 to |step.needs|
      invariant forall e :: e in errors <==>
        e in others || (e.UnknownNeed? && e.step == step.id && e.need in step.needs[..i] && e.need !in ids)
    {
      if step.needs[i] !in ids {
        errors := errors + [UnknownNeed(step.id, step.needs[i])];
      }
    }
    assert step.needs[..|step.needs|] == step.needs;
  }

  /** The steps with a bound that counts: `any(bound.get(x) for x in cyc)`. */
  function BoundedSteps(steps: seq<Step>): set<string> {
    var byId := ById(steps);
    set s | s in byId && byId[s].loopBound.Some? && byId[s].loopBound.value != 0
  }

  /** `e` is a fault of the workflow. */
  ghost predicate Fault(steps: seq<Step>, e: CompileError) {
    || (exists step <- steps :: FaultOf(step, ById(steps).Keys, e))
    || (e.UnboundedCycle? && e.path in Errors(Needs(steps), Ids(steps), BoundedSteps(steps)))
  }

  lemma NeedsSnoc(steps: seq<Step>, i: nat)
    requires i < |steps|
    ensures Needs(steps[..i + 1]) == Needs(steps[..i])[steps[i].id := steps[i].needs]
  {
    assert steps[..i + 1][..i] == steps[..i];
  }

  /** The loop over a workflow's steps, and the cycle check after it: exactly the faults are
  reported. */
  method CheckWorkflow(steps: seq<Step>) returns (errors: seq<CompileError>)
    ensures forall e :: e in errors <==> Fault(steps, e)
  {
    errors := [];
    var ids, needsGraph: Graph := ById(steps).Keys, map[];
    for i := 0 to |steps|
      invariant forall e :: e in errors <==> exists step <- steps[..i] :: FaultOf(step, ids, e)
      invariant needsGraph == Needs(steps[..i])
    {
      var more := CheckStep(steps[i], ids);
      errors := errors + more;
      NeedsSnoc(steps, i);
      needsGraph := needsGraph[steps[i].id := steps[i].needs];
      assert steps[..i + 1] == steps[..i] + [steps[i]];
    }
    assert steps[..|steps|] == steps;
    IdsAreNodes(steps);
    var cycles := CheckCycles(needsGraph, Ids(steps), BoundedSteps(steps));
    for i := 0 to |cycles|
      invariant forall e :: e in errors <==>
        (exists step <- steps :: FaultOf(step, ids, e)) || (e.UnboundedCycle? && e.path in cycles[..i])
    {
      errors := errors + [UnboundedCycle(cycles[i])];
    }
    assert cycles[..|cycles|] == cycles;
  }

  // ---- What a compiled workflow can fail of ------------------------------------------------

  ghost predicate Compiles(steps: seq<Step>) {
    forall e :: !Fault(steps, e)
  }

  lemma {:induction false} IsDeclared(steps: seq<Step>, s: string)
    requires s in ById(steps)
    ensures ById(steps)[s] in steps
  {
    var init, last := steps[..|steps| - 1], steps[|steps| - 1];
    if s != last.id {
      IsDeclared(init, s);
    }
  }

  lemma CompiledStep(steps: seq<Step>, s: string)
    requires Compiles(steps) && s in ById(steps)
    ensures ById(steps)[s].kind.Fanout? ==> 2 <= ById(steps)[s].kind.width <= MAX_FANOUT
    ensures ById(steps)[s].kind.Verify? ==>
      && ById(steps)[s].needs != []
      && 1 <= VerifyQuorum(ById(steps)[s].kind.verifyQuorum) <= ById(steps)[s].kind.verifiers <= MAX_VERIFIERS
    ensures forall n <- ById(steps)[s].needs :: n in ById(steps)
  {
    IsDeclared(steps, s);
    var step := ById(steps)[s];
    assert forall e :: FaultOf(step, ById(steps).Keys, e) ==> Fault(steps, e);
    assert !FaultOf(step, ById(steps).Keys, FanoutTooNarrow(s)) && !FaultOf(step, ById(steps).Keys, FanoutTooWide(s));
    assert !FaultOf(step, ById(steps).Keys, TooFewVerifiers(s))
        && !FaultOf(step, ById(steps).Keys, TooManyVerifiers(s));
    assert !FaultOf(step, ById(steps).Keys, VerifiesNothing(s))
        && !FaultOf(step, ById(steps).Keys, QuorumOutOfRange(s));
    forall n | n in step.needs ensures n in ById(steps) {
      assert !FaultOf(step, ById(steps).Keys, UnknownNeed(s, n));
    }
  }

  lemma CompiledIsClosed(steps: seq<Step>)
    requires Compiles(steps)
    ensures Closed(Needs(steps))
  {
    var g := Needs(steps);
    forall a, b | a in g && b in g[a] && Edge(g, a, b) ensures b in g {
      CompiledStep(steps, a);
    }
  }

  /** The runner raises on a workflow that compiles exactly when it has a cycle, bounded or not. */
  lemma CompiledRaisesIff(steps: seq<Step>)
    requires Compiles(steps)
    ensures OrderAll(Needs(steps), Ids(steps)).CycleRaised? <==> HasCycle(Needs(steps))
    ensures RunOrder(steps).Some? <==> !HasCycle(Needs(steps))
    ensures HasCycle(Needs(steps)) ==> BoundedSteps(steps) != {}
  {
    CompiledIsClosed(steps);
    IdsAreNodes(steps);
    RaisesIffCycle(Needs(steps), Ids(steps));
    if HasCycle(Needs(steps)) && BoundedSteps(steps) == {} {
      ReportsIffCycle(Needs(steps), Ids(steps));
      var path := Errors(Needs(steps), Ids(steps), {})[0];
      assert Fault(steps, UnboundedCycle(path));
    }
  }

  lemma CompiledStepsSucceed(cfg: Config, after: Trace, t: TaskId, failure: Failure)
    requires Compiles(cfg.StepsOf(t)) && StepFails(cfg, after, t, failure)
    ensures failure.StepFailed?
  {
    var steps := cfg.StepsOf(t);
    match failure
    case NoWorkers =>
      var s :| s in ById(steps) && LacksWorkers(ById(steps)[s]);
      CompiledStep(steps, s);
    case MissingTarget =>
      var s :| s in ById(steps) && LacksTarget(ById(steps)[s]);
      CompiledStep(steps, s);
    case _ =>
  }

  /** Driving a compiled workflow raises, unless it crashes, exactly when the workflow has a cycle, or
  because a worker reports an error. */
  lemma CompiledFailures(cfg: Config, s: GateState, t: TaskId, answers: Answers)
    requires Compiles(cfg.StepsOf(t)) && Sound(cfg, s) && Created(s.trace, t)
    ensures var end := ResumeFor(cfg, s, t, answers).end;
      && (end == Fails(CycleAtRuntime) <==> HasCycle(Needs(cfg.StepsOf(t))))
      && (end.Fails? && end.failure != CycleAtRuntime ==> end.failure.StepFailed?)
  {
    var run := ResumeFor(cfg, s, t, answers);
    ResumeMeans(cfg, s, t, answers);
    CompiledRaisesIff(cfg.StepsOf(t));
    CompiledIsClosed(cfg.StepsOf(t));
    if run.end.Fails? && StepFails(cfg, run.now.trace, t, run.end.failure) {
      CompiledStepsSucceed(cfg, run.now.trace, t, run.end.failure);
    }
  }

  /** A resume of a compiled workflow never comes to a step that always raises. */
  lemma CompiledReturns(cfg: Config, s: GateState, t: TaskId)
    requires Compiles(cfg.StepsOf(t)) && Sound(cfg, s) && Created(s.trace, t) && RunOrder(cfg.StepsOf(t)).Some?
    ensures CanReturn(cfg, s, t)
  {
    var h := HaltOf(cfg, s, t);
    var k := HaltPlace(cfg, s, t);
    if h.rest != [] {
      assert h.rest[0] == RunOrder(cfg.StepsOf(t)).value[k];
      CompiledStep(cfg.StepsOf(t), h.rest[0]);
    }
  }

  /** From any sound state of either store a gate of a compiled workflow can be committed exactly when
  the workflow has no cycle, enough principals are eligible, a new record does not expire at once, and a
  decision at the halt can replace a spent record. */
  lemma CompiledGateCommitsIff(cfg: Config, s: GateState, t: TaskId, id: string, since: real)
    requires Compiles(cfg.StepsOf(t)) && Sound(cfg, s) && Created(s.trace, t) && Past(s.records, since)
    requires GateFirst(cfg.StepsOf(t), id)
    ensures var d := HaltDigest(cfg, s, t, FirstById(cfg.StepsOf(t), id).value);
      CanCommit(cfg, s, t, id, since) <==>
        && !HasCycle(Needs(cfg.StepsOf(t))) && cfg.Approvable(d) && Lives(cfg, d)
        && (Spent(s.records, d, since) ==> DecidesOn(cfg, t, HaltOf(cfg, s, t), d))
  {
    GateCommitsIff(cfg, s, t, id, since);
    CompiledRaisesIff(cfg.StepsOf(t));
    if RunOrder(cfg.StepsOf(t)).Some? {
      CompiledReturns(cfg, s, t);
    }
  }

  // ---- A workflow that compiles and that the runner raises on -------------------------------

  /** Two steps that need each other, the first with a bound. */
  function BoundedPair(): seq<Step> {
    [Step("a", Work, None, ["b"], Some(1)), Step("b", Work, None, ["a"], None)]
  }

  lemma PairById()
    ensures ById(BoundedPair()) == map["a" := BoundedPair()[0], "b" := BoundedPair()[1]]
    ensures Ids(BoundedPair()) == ["a", "b"]
  {
    var steps := BoundedPair();
    assert steps[..1] == [steps[0]] && steps[..1][..0] == [];
    assert ById(steps[..1]) == map["a" := steps[0]];
  }

  lemma PairSearch(g: Graph)
    requires g == map["a" := ["b"], "b" := ["a"]]
    ensures SearchAll(g, ["a", "b"]).backs == [["a", "b", "a"]]
  {
    var s0 := Search([], []);
    var back := s0.(backs := [["a", "b", "a"]]);
    var onB, onA: seq<string> := ["a", "b"], ["a"];
    assert IndexOf(onB, "a") == 0 && StackCycle(onB, "a") == ["a", "b", "a"];
    assert Explore(g, ["a"], onB, s0) == back by { assert ["a"][1..] == [] && Meet(g, "a", onB, s0) == back; }
    assert onA + ["b"] == onB;
    var afterB := back.(finished := ["b"]);
    assert Meet(g, "b", onA, s0) == afterB;
    assert Explore(g, ["b"], onA, s0) == afterB by { assert ["b"][1..] == []; }
    assert [] + ["a"] == onA;
    var afterA := afterB.(finished := ["b", "a"]);
    assert Meet(g, "a", [], s0) == afterA by { assert afterB.finished + ["a"] == ["b", "a"]; }
    assert ["a", "b"][1..] == ["b"] && ["b"][1..] == [];
    assert Meet(g, "b", [], afterA) == afterA;
    assert Explore(g, ["b"], [], afterA) == afterA;
  }

  /** The compiler accepts the pair for its bound; the runner raises on it all the same. */
  lemma BoundedCycleCompiles()
    ensures Compiles(BoundedPair()) && OrderAll(Needs(BoundedPair()), Ids(BoundedPair())).CycleRaised?
  {
    var steps := BoundedPair();
    var g := Needs(steps);
    PairById();
    assert g == map["a" := ["b"], "b" := ["a"]];
    PairSearch(g);
    assert "a" in BoundedSteps(steps) && ["a", "b", "a"][0] == "a";
    assert !Avoids(["a", "b", "a"], BoundedSteps(steps));
    UnboundedSnoc([], ["a", "b", "a"], BoundedSteps(steps));
    assert Errors(g, Ids(steps), BoundedSteps(steps)) == [];
    forall e ensures !Fault(steps, e) {
      forall step | step in steps ensures !FaultOf(step, ById(steps).Keys, e) {}
    }
    var w := ["a", "b", "a"];
    assert Edge(g, "a", "b") && Edge(g, "b", "a") && ClosedWalk(g, w);
    CompiledRaisesIff(steps);
  }
}
