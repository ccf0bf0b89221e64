/** When what is recorded for a step can change. `comcmd/kernel/workflow.py` works with the last
declaration of an id and `approve_step` with the first, and nothing rules out ids declared twice. */
module Finality {
  import opened Records
  import opened Aggregation
  import opened Graphs
  import opened DependencyOrders
  import opened Protocol
  import opened Theorems
  import opened Journals
  import opened Gateways
  import opened GateHistories
  import opened GateRuns
  import opened Runners
  import opened Limits
  import opened Renewals
  import opened GateLimits
  import Compilation

  // ---- Changing a record in hand -----------------------------------------------------------

  /** What was recorded before is recorded alike. */
  ghost predicate Keeps(before: Trace, after: Trace, t: TaskId) {
    forall x <- Recorded(before, t) :: x in Recorded(after, t) && Recorded(after, t)[x] == Recorded(before, t)[x]
  }

  /** Working on a step keeps what was recorded before it. */
  ghost predicate KeptBy(cfg: Config, s: GateState, t: TaskId, order: seq<string>, i: nat, x: Stepped) {
    match x
    case GoesOn(now) =>
      && Sound(cfg, now) && Created(now.trace, t) && RecordedTo(now.trace, t, order, i + 1)
      && Keeps(s.trace, now.trace, t)
    case Ends(run) => Keeps(s.trace, run.now.trace, t)
  }

  lemma StepKeeps(cfg: Config, s: GateState, t: TaskId, order: seq<string>, i: nat, a: Answer)
    requires Sound(cfg, s) && Created(s.trace, t) && RunOrder(cfg.StepsOf(t)) == Some(order)
    requires RecordedTo(s.trace, t, order, i) && i < |order| && order[i] !in Recorded(s.trace, t)
    requires order[i] in ById(cfg.StepsOf(t))
    ensures KeptBy(cfg, s, t, order, i, StepFor(cfg, s, t, ById(cfg.StepsOf(t))[order[i]], a))
  {
    TurnOf(cfg, s.trace, t, order, i);
    StepMeans(cfg, s, t, ById(cfg.StepsOf(t))[order[i]], a);
  }

  lemma {:induction false} DriveKeeps(cfg: Config, s: GateState, t: TaskId, order: seq<string>, i: nat,
                                      answers: Answers)
    requires Sound(cfg, s) && Created(s.trace, t) && RunOrder(cfg.StepsOf(t)) == Some(order)
    requires RecordedTo(s.trace, t, order, i)
    ensures Keeps(s.trace, DriveFor(cfg, s, t, order[i..], answers).now.trace, t)
    decreases |order| - i
  {
    if i < |order| {
      assert order[i..][0] == order[i] && order[i..][1..] == order[i + 1..];
      if order[i] in Recorded(s.trace, t) {
        DriveKeeps(cfg, s, t, order, i + 1, answers);
      } else {
        RunOrderIsRight(cfg.StepsOf(t));
        assert order[i] in order;
        StepKeeps(cfg, s, t, order, i, answers(order[i]));
        match StepFor(cfg, s, t, ById(cfg.StepsOf(t))[order[i]], answers(order[i]))
        case GoesOn(now) => DriveKeeps(cfg, now, t, order, i + 1, answers);
        case Ends(run) =>
      }
    }
  }

  lemma ResumeKeeps(cfg: Config, s: GateState, t: TaskId, answers: Answers)
    requires Sound(cfg, s) && Created(s.trace, t)
    ensures Keeps(s.trace, ResumeFor(cfg, s, t, answers).now.trace, t)
  {
    if RunOrder(cfg.StepsOf(t)).Some? {
      var order := RunOrder(cfg.StepsOf(t)).value;
      assert order[0..] == order;
      DriveKeeps(cfg, s, t, order, 0, answers);
    }
  }

  lemma TellingRecords(cfg: Config, told: GateState, t: TaskId, id: string, answers: Answers)
    requires Sound(cfg, told) && GateExecuted(cfg, told.trace, t, id)
    ensures var now := ResumeFor(cfg, Tell(told, t, StepSucceeded(id, AUTHORIZED)), t, answers).now;
      var after := Recorded(now.trace, t);
      id in after && after[id] == AUTHORIZED
  {
    InertSound(cfg, told, Emit(Event(t, StepSucceeded(id, AUTHORIZED))));
    ResumeKeeps(cfg, Tell(told, t, StepSucceeded(id, AUTHORIZED)), t, answers);
  }

  /** What follows a completed quorum. */
  lemma GrantedIsCommitted(cfg: Config, handlers: Handlers, s: GateState, t: TaskId, id: string, call: Approving)
    requires Sound(cfg, s) && Created(s.trace, t) && Asked(cfg, s, t, id, call)
    requires SubmissionOf(cfg, s, t, id, call).outcome.decision == Granted
    ensures var step, resumed := SubmissionOf(cfg, s, t, id, call), ResumeFor(cfg, s, t, call.before).now;
      var intent := GateDigest(cfg, resumed.trace, t, FirstById(cfg.StepsOf(t), id).value).of;
      && step.outcome.capability.Some? && JustGranted(step.state, step.outcome.capability.value, intent)
      && ApproveFor(cfg, handlers, s, t, id, call)
         == CommitFor(cfg, handlers, step.state, t, id, step.outcome.capability.value, intent, call.after)
  {
    var resumed := ResumeFor(cfg, s, t, call.before).now;
    var intent := GateDigest(cfg, resumed.trace, t, FirstById(cfg.StepsOf(t), id).value).of;
    GrantIsFresh(cfg, resumed, intent, call.sub);
  }

  /** Whatever was recorded for a gate before, committing it records that it was authorized. */
  lemma CommitRecords(cfg: Config, handlers: Handlers, s: GateState, t: TaskId, id: string, call: Approving)
    requires Sound(cfg, s) && Created(s.trace, t) && Commits(cfg, handlers, s, t, id, call)
    ensures var after := Recorded(ApproveFor(cfg, handlers, s, t, id, call).now.trace, t);
      id in after && after[id] == AUTHORIZED
  {
    var resumed, step := ResumeFor(cfg, s, t, call.before).now, SubmissionOf(cfg, s, t, id, call);
    var intent := GateDigest(cfg, resumed.trace, t, FirstById(cfg.StepsOf(t), id).value).of;
    AskedMeans(cfg, s, t, id, call);
    GrantedIsCommitted(cfg, handlers, s, t, id, call);
    var cap := step.outcome.capability.value;
    EffectMeans(cfg, step.state, t, id, handlers.value, cap, intent);
    TellingRecords(cfg, EffectFor(step.state, t, id, handlers.value, cap, intent), t, id, call.after);
  }

  ghost predicate Changed(before: Trace, after: Trace, t: TaskId, s: string)
    requires s in Recorded(before, t)
  {
    s !in Recorded(after, t) || Recorded(after, t)[s] != Recorded(before, t)[s]
  }

  /** Some calls of `approve_step` for the step, from `since` on, change what is recorded for it. */
  ghost predicate CanChange(cfg: Config, s: GateState, t: TaskId, x: string, since: real)
    requires x in Recorded(s.trace, t)
  {
    exists handlers, calls, until ::
      Timed(calls, since, until) && Changed(s.trace, ApproveAll(cfg, handlers, s, t, x, calls).trace, t, x)
  }

  /** In no legal continuation does a record change but by approving its step as a gate. */
  lemma {:induction false} ChangeNeeds(cfg: Config, p: Trace, tr: Trace, t: TaskId, s: string)
    requires Legal(cfg, tr) && Prefix(p, tr) && s in Recorded(p, t) && Changed(p, tr, t, s)
    ensures Recorded(p, t)[s] != AUTHORIZED && GateFirst(cfg.StepsOf(t), s)
    ensures cfg.Approvable(GateDigest(cfg, p, t, FirstById(cfg.StepsOf(t), s).value))
    decreases tr
  {
    RecordedStays(p, tr.before, t);
    if RecordsStep(tr.act, t, s) {
      var gate := FirstById(cfg.StepsOf(t), s).value;
      var e, executed := ExecutionNeedsQuorum(cfg, tr.before, GateDigest(cfg, tr.before, t, gate));
    } else {
      ChangeNeeds(cfg, p, tr.before, t, s);
    }
  }

  /** A call that does not commit its gate changes no record. */
  lemma UncommittedKeeps(cfg: Config, handlers: Handlers, s: GateState, t: TaskId, id: string, call: Approving)
    requires Sound(cfg, s) && Created(s.trace, t) && !Commits(cfg, handlers, s, t, id, call)
    ensures Keeps(s.trace, ApproveFor(cfg, handlers, s, t, id, call).now.trace, t)
  {
    ResumeKeeps(cfg, s, t, call.before);
    ApproveMeans(cfg, handlers, s, t, id, call);
    if Asked(cfg, s, t, id, call) {
      AskedMeans(cfg, s, t, id, call);
    }
  }

  lemma LastCallRecords(cfg: Config, handlers: Handlers, s: GateState, t: TaskId, id: string, calls: seq<Approving>)
    requires Sound(cfg, s) && Created(s.trace, t) && CommitsLast(cfg, handlers, s, t, id, calls)
    ensures var after := Recorded(ApproveAll(cfg, handlers, s, t, id, calls).trace, t);
      id in after && after[id] == AUTHORIZED
  {
    ApproveAllSound(cfg, handlers, s, t, id, calls[..|calls| - 1]);
    var before := ApproveAll(cfg, handlers, s, t, id, calls[..|calls| - 1]);
    CommitRecords(cfg, handlers, before, t, id, calls[|calls| - 1]);
  }

  /** A record that changes was changed by a call that committed its step as a gate. */
  lemma {:induction false} ChangeCommits(cfg: Config, handlers: Handlers, s: GateState, t: TaskId, x: string,
                                         calls: seq<Approving>, since: real, until: real)
    requires Sound(cfg, s) && Created(s.trace, t) && Past(s.records, since) && x in Recorded(s.trace, t)
    requires Timed(calls, since, until)
    requires Changed(s.trace, ApproveAll(cfg, handlers, s, t, x, calls).trace, t, x)
    ensures Recorded(s.trace, t)[x] != AUTHORIZED && Committable(cfg, s, t, x, since)
  {
    var init, last := calls[..|calls| - 1], calls[|calls| - 1];
    var before := ApproveAll(cfg, handlers, s, t, x, init);
    var mid :| Timed(init, since, mid) && ApproveWithin(last, mid, until);
    if Changed(s.trace, before.trace, t, x) {
      ChangeCommits(cfg, handlers, s, t, x, init, since, mid);
    } else {
      ApproveAllSound(cfg, handlers, s, t, x, init);
      if !Commits(cfg, handlers, before, t, x, last) {
        UncommittedKeeps(cfg, handlers, before, t, x, last);
      }
      CommitRecords(cfg, handlers, before, t, x, last);
      CommitNeeds(cfg, handlers, s, t, x, calls, since, until);
    }
  }

  /** From any sound state of either store, calls of `approve_step` from `since` on can change what is
  recorded for a step exactly when it is not a gate's record already and the step can be committed as a
  gate. */
  lemma ChangesIff(cfg: Config, s: GateState, t: TaskId, x: string, since: real)
    requires Sound(cfg, s) && Past(s.records, since) && x in Recorded(s.trace, t)
    ensures CanChange(cfg, s, t, x, since) <==>
      Recorded(s.trace, t)[x] != AUTHORIZED && Committable(cfg, s, t, x, since)
  {
    RecordedNotStuck(cfg, s.trace, t, x);
    if CanChange(cfg, s, t, x, since) {
      var handlers, calls, until :|
        Timed(calls, since, until) && Changed(s.trace, ApproveAll(cfg, handlers, s, t, x, calls).trace, t, x);
      ChangeCommits(cfg, handlers, s, t, x, calls, since, until);
    }
    if Recorded(s.trace, t)[x] != AUTHORIZED && Committable(cfg, s, t, x, since) {
      var handlers := Some({HaltDigest(cfg, s, t, FirstById(cfg.StepsOf(t), x).value).of.tool});
      var calls, now := SomeCallsCommit(cfg, handlers, s, t, x, since);
      TimedAt(calls, since, now);
      LastCallRecords(cfg, handlers, s, t, x, calls);
      assert Changed(s.trace, ApproveAll(cfg, handlers, s, t, x, calls).trace, t, x);
    }
  }

  // ---- Step lists whose records are final --------------------------------------------------

  /** In a legal run, what is recorded for a step changes. */
  ghost predicate Overwritten(cfg: Config, p: Trace, tr: Trace, t: TaskId, s: string) {
    Legal(cfg, tr) && Prefix(p, tr) && s in Recorded(p, t) && Changed(p, tr, t, s)
  }

  /** Whatever the actions, roles and workers, no legal run of these steps changes a record. */
  ghost predicate FinalFor(steps: seq<Step>) {
    forall cfg, p, tr, t, s :: Overwritten(cfg, p, tr, t, s) ==> cfg.StepsOf(t) != steps
  }

  function Policies(steps: seq<Step>): set<string> {
    set step | step in steps && step.kind.HumanGate? :: step.kind.policy
  }

  function RolesOf(steps: seq<Step>): set<string> {
    set step | step in steps && step.runAs.Some? :: step.runAs.value
  }

  const YES: Artifact := map["approve" := Flag(true)]

  /** Every gate asks one principal, and every worker approves. */
  function Permissive(steps: seq<Step>): Config {
    var approval := Approval({"human:board"}, 1, 600.0);
    Config(map["w" := steps], map r | r in RolesOf(steps) :: Role(None, []),
           map a | a in Policies(steps) :: Action(a, "", ExternalReversible, Some(approval)),
           map[], _ => "", _ => Some(YES))
  }

  const TASK := TaskId("w", map[])

  lemma {:induction false} FirstIsStep(steps: seq<Step>, id: string)
    requires FirstById(steps, id).Some?
    ensures FirstById(steps, id).value in steps
  {
    if steps[0].id != id {
      FirstIsStep(steps[1..], id);
    }
  }

  lemma PermissiveApproves(steps: seq<Step>, id: string, tr: Trace)
    requires GateFirst(steps, id)
    ensures var cfg := Permissive(steps);
      cfg.StepsOf(TASK) == steps && cfg.Keyed() && cfg.Approvable(GateDigest(cfg, tr, TASK, FirstById(steps, id).value))
  {
    FirstIsStep(steps, id);
    assert FirstById(steps, id).value.kind.policy in Policies(steps);
  }

  lemma {:induction false} AllApprove(steps: seq<Step>, step: Step, up: map<string, Option<Artifact>>, k: nat, m: int,
                                      target: Artifact)
    ensures ApprovingVerifiers(Permissive(steps), TASK, step, up, k, m, target) == k
  {
    if k > 0 {
      AllApprove(steps, step, up, k - 1, m, target);
    }
  }

  lemma WorksOut(steps: seq<Step>, s: GateState, step: Step, a: Answer)
    requires CanSucceed(step) && a.status == Ok && a.requests == []
    ensures var x := StepFor(Permissive(steps), s, TASK, step, a); x.GoesOn? && x.now.records == s.records
  {
    if step.kind.Verify? {
      var up, m := Upstream(Recorded(s.trace, TASK), step.needs), step.kind.verifiers;
      AllApprove(steps, step, up, m, m, TargetArtifact(step, up));
    }
  }

  /** No step but a gate is worth the artifact of a gate. */
  lemma NotAGatesArtifact(steps: seq<Step>, step: Step, up: map<string, Option<Artifact>>)
    requires !step.kind.HumanGate?
    ensures StepValue(Permissive(steps), TASK, step, up) != AUTHORIZED
  {
    var v := StepValue(Permissive(steps), TASK, step, up);
    assert step.kind.Work? ==> "approve" in v;
    assert step.kind.Fanout? ==> "_candidates" in v;
    assert step.kind.Verify? ==> "verifiers" in v;
  }

  /** Only `id` was recorded, and not as a gate. */
  ghost predicate RecordedAsWork(before: Trace, after: Trace, id: string) {
    && id in Recorded(after, TASK) && Recorded(after, TASK)[id] != AUTHORIZED
    && Recorded(after, TASK) == Recorded(before, TASK)[id := Recorded(after, TASK)[id]]
  }

  lemma NextIsWorked(steps: seq<Step>, s: GateState, order: seq<string>, i: nat, a: Answer)
    requires Sound(Permissive(steps), s) && Created(s.trace, TASK) && RunOrder(steps) == Some(order)
    requires RecordedTo(s.trace, TASK, order, i) && i < |order| && order[i] !in Recorded(s.trace, TASK)
    requires WorkLast(steps, order[i]) && a.status == Ok && a.requests == []
    ensures var x := StepFor(Permissive(steps), s, TASK, ById(steps)[order[i]], a);
      && x.GoesOn? && RunnerStep(Permissive(steps), s, TASK, x.now) && RecordedAsWork(s.trace, x.now.trace, order[i])
      && x.now.records == s.records
  {
    var step := ById(steps)[order[i]];
    TurnOf(Permissive(steps), s.trace, TASK, order, i);
    StepMeans(Permissive(steps), s, TASK, step, a);
    WorksOut(steps, s, step, a);
    NotAGatesArtifact(steps, step, Upstream(Recorded(s.trace, TASK), step.needs));
  }

  lemma OthersUnrecorded(steps: seq<Step>, before: Trace, after: Trace, order: seq<string>, i: nat)
    requires RunOrder(steps) == Some(order) && i < |order| && RecordedAsWork(before, after, order[i])
    requires forall j :: i <= j < |order| ==> order[j] !in Recorded(before, TASK)
    ensures forall j :: i < j < |order| ==> order[j] !in Recorded(after, TASK)
  {
    RunOrderIsRight(steps);
  }

  /** The first `k` steps of the order are recorded and no others. */
  ghost predicate JustTo(cfg: Config, tr: Trace, order: seq<string>, k: nat) {
    && Legal(cfg, tr) && Created(tr, TASK) && RecordedTo(tr, TASK, order, k)
    && forall i :: k <= i < |order| ==> order[i] !in Recorded(tr, TASK)
  }

  /** A new process finds the same on record. */
  lemma RestartedJustTo(steps: seq<Step>, tr: Trace, order: seq<string>, k: nat)
    requires JustTo(Permissive(steps), tr, order, k)
    ensures Sound(Permissive(steps), Restarted(tr)) && JustTo(Permissive(steps), Restarted(tr).trace, order, k)
    ensures Recorded(Restarted(tr).trace, TASK) == Recorded(tr, TASK) && Prefix(tr, Restarted(tr).trace)
  {
    RestartedSound(Permissive(steps), tr);
  }

  /** Working on the next step records it. */
  lemma WorkRecords(steps: seq<Step>, tr: Trace, order: seq<string>, k: nat) returns (after: Trace)
    requires RunOrder(steps) == Some(order) && k < |order| && JustTo(Permissive(steps), tr, order, k)
    requires WorkLast(steps, order[k])
    ensures JustTo(Permissive(steps), after, order, k + 1) && Prefix(tr, after)
    ensures Recorded(after, TASK)[order[k]] != AUTHORIZED
  {
    var cfg, s, a := Permissive(steps), Restarted(tr), Answer(Ok, [], 0.0, 0);
    RestartedJustTo(steps, tr, order, k);
    NextIsWorked(steps, s, order, k, a);
    after := StepFor(cfg, s, TASK, ById(steps)[order[k]], a).now.trace;
    PrefixTransitive(tr, s.trace, after);
    OthersUnrecorded(steps, s.trace, after, order, k);
  }

  /** An effect that can be approved can be executed, and nothing else need happen. */
  lemma Executes(cfg: Config, tr: Trace, d: Digest, t: TaskId) returns (after: Trace)
    requires Legal(cfg, tr) && cfg.Keyed() && cfg.Approvable(d)
    ensures Legal(cfg, after) && Prefix(tr, after) && IsExecuted(after, d)
    ensures Recorded(after, t) == Recorded(tr, t) && Created(after, t) == Created(tr, t)
  {
    after := tr;
    if !IsExecuted(tr, d) {
      var subs := CanAuthorize(cfg, tr, d.of);
      AuthorizedIsQuiet(cfg, tr, d.of, subs);
      CutOffRunsHandler(cfg, tr, d.of, subs);
      var cut := CutOff(cfg, tr, d.of, subs);
      assert Recorded(cut, t) == Recorded(tr, t) && Created(cut, t) == Created(tr, t);
      after := Then(cut, Emit(Event(d.of.task, Receipt(d, Executed, None, Because("executed")))));
    }
  }

  /** Approving a gate records it. */
  lemma GateRecords(steps: seq<Step>, tr: Trace, id: string) returns (after: Trace)
    requires Legal(Permissive(steps), tr) && Created(tr, TASK) && RunOrder(steps).Some? && GateFirst(steps, id)
    ensures Legal(Permissive(steps), after) && Prefix(tr, after) && Created(after, TASK)
    ensures Recorded(after, TASK) == Recorded(tr, TASK)[id := AUTHORIZED]
  {
    var cfg := Permissive(steps);
    PermissiveApproves(steps, id, tr);
    var executed := Executes(cfg, tr, GateDigest(cfg, tr, TASK, FirstById(steps, id).value), TASK);
    after := Then(executed, Emit(Event(TASK, StepSucceeded(id, AUTHORIZED))));
    assert GateExecuted(cfg, executed, TASK, id);
  }

  lemma GateReaches(steps: seq<Step>, tr: Trace, order: seq<string>, k: nat) returns (after: Trace)
    requires RunOrder(steps) == Some(order) && k < |order| && JustTo(Permissive(steps), tr, order, k)
    requires GateFirst(steps, order[k])
    ensures JustTo(Permissive(steps), after, order, k + 1)
  {
    after := GateRecords(steps, tr, order[k]);
    RunOrderIsRight(steps);
  }

  lemma CreationIsLegal(steps: seq<Step>)
    ensures Legal(Permissive(steps), Then(Start, Emit(Event(TASK, TaskCreated("w", map[])))))
  {
    assert Legal(Permissive(steps), Start);
  }

  lemma ReachesNext(steps: seq<Step>, tr: Trace, order: seq<string>, k: nat) returns (after: Trace)
    requires RunOrder(steps) == Some(order) && k < |order| && JustTo(Permissive(steps), tr, order, k)
    requires !Stuck(steps, order[k])
    ensures JustTo(Permissive(steps), after, order, k + 1)
  {
    if GateFirst(steps, order[k]) {
      after := GateReaches(steps, tr, order, k);
    } else {
      after := WorkRecords(steps, tr, order, k);
    }
  }

  lemma {:induction false} Reaches(steps: seq<Step>, order: seq<string>, k: nat) returns (tr: Trace)
    requires RunOrder(steps) == Some(order) && k <= |order| && forall j :: 0 <= j < k ==> !Stuck(steps, order[j])
    ensures JustTo(Permissive(steps), tr, order, k)
  {
    if k == 0 {
      tr := Then(Start, Emit(Event(TASK, TaskCreated("w", map[]))));
      CreationIsLegal(steps);
    } else {
      var before := Reaches(steps, order, k - 1);
      tr := ReachesNext(steps, before, order, k - 1);
    }
  }

  /** An id that can be reached, first declared as a gate and last as work that can succeed, is recorded
  as work, and then overwritten by approving it. */
  lemma UnsettledIsOverwritten(steps: seq<Step>, order: seq<string>, k: nat) returns (p: Trace, tr: Trace)
    requires RunOrder(steps) == Some(order) && k < |order| && !SettledAt(steps, order, k)
    ensures Overwritten(Permissive(steps), p, tr, TASK, order[k])
  {
    var before := Reaches(steps, order, k);
    p := WorkRecords(steps, before, order, k);
    tr := GateRecords(steps, p, order[k]);
  }

  /** The records of a step list are final, under every configuration and in every legal run, exactly
  when its gates are settled. */
  lemma FinalIff(steps: seq<Step>)
    ensures FinalFor(steps) <==> GatesSettled(steps)
  {
    if GatesSettled(steps) {
      forall cfg, p, tr, t, s | Overwritten(cfg, p, tr, t, s) ensures cfg.StepsOf(t) != steps {
        if cfg.StepsOf(t) == steps {
          RecordsAreFinal(cfg, p, tr, t, s);
        }
      }
    } else {
      var order := RunOrder(steps).value;
      var k :| 0 <= k < |order| && !SettledAt(steps, order, k);
      var p, tr := UnsettledIsOverwritten(steps, order, k);
      assert Permissive(steps).StepsOf(TASK) == steps;
    }
  }

  // ---- Unique ids --------------------------------------------------------------------------

  lemma {:induction false} FirstIsAt(steps: seq<Step>, i: nat)
    requires Distinct(Ids(steps)) && i < |steps|
    ensures FirstById(steps, steps[i].id) == Some(steps[i])
  {
    if i > 0 {
      assert Ids(steps)[0] != Ids(steps)[i];
      forall a, b | 0 <= a < b < |steps[1..]| ensures Ids(steps[1..])[a] != Ids(steps[1..])[b] {
        assert Ids(steps)[a + 1] != Ids(steps)[b + 1];
      }
      FirstIsAt(steps[1..], i - 1);
    }
  }

  /** Where ids are unique, the gates are settled. */
  lemma UniqueIdsAreSettled(steps: seq<Step>)
    requires Distinct(Ids(steps))
    ensures GatesSettled(steps)
  {
    forall s | s in ById(steps) ensures FirstById(steps, s) == Some(ById(steps)[s]) {
      Compilation.IsDeclared(steps, s);
      var i :| 0 <= i < |steps| && steps[i] == ById(steps)[s];
      FirstIsAt(steps, i);
    }
  }

  // ---- A task that succeeds and still changes ----------------------------------------------

  const FRESH := GateState(map[], map[], Start, PostgresStores.InMemory)

  function AllOk(): Answers {
    _ => Answer(Ok, [], 0.0, 0)
  }

  ghost predicate AllWork(steps: seq<Step>) {
    forall id <- ById(steps) :: WorkLast(steps, id)
  }

  /** Recorded by working on it. */
  ghost predicate WorkedOn(tr: Trace, x: string) {
    x in Recorded(tr, TASK) && Recorded(tr, TASK)[x] != AUTHORIZED
  }

  /** The first `i` steps of the order were worked on, and no others are recorded. */
  ghost predicate WorkedTo(steps: seq<Step>, s: GateState, order: seq<string>, i: nat) {
    && Sound(Permissive(steps), s) && Created(s.trace, TASK) && s.records == map[] && i <= |order|
    && (forall j :: 0 <= j < i ==> WorkedOn(s.trace, order[j]))
    && forall j :: i <= j < |order| ==> order[j] !in Recorded(s.trace, TASK)
  }

  lemma OthersWorkedOn(before: Trace, after: Trace, order: seq<string>, i: nat)
    requires i < |order| && RecordedAsWork(before, after, order[i])
    requires forall j :: 0 <= j < i ==> WorkedOn(before, order[j])
    ensures forall j :: 0 <= j <= i ==> WorkedOn(after, order[j])
  {
    forall j | 0 <= j <= i ensures WorkedOn(after, order[j]) {
      if j < i {
        assert WorkedOn(before, order[j]);
      }
    }
  }

  lemma OkStep(steps: seq<Step>, s: GateState, order: seq<string>, i: nat)
    requires RunOrder(steps) == Some(order) && AllWork(steps) && WorkedTo(steps, s, order, i)
    requires i < |order| && order[i] in ById(steps)
    ensures var x := StepFor(Permissive(steps), s, TASK, ById(steps)[order[i]], AllOk()(order[i]));
      x.GoesOn? && WorkedTo(steps, x.now, order, i + 1)
  {
    NextIsWorked(steps, s, order, i, AllOk()(order[i]));
    var now := StepFor(Permissive(steps), s, TASK, ById(steps)[order[i]], AllOk()(order[i])).now;
    OthersWorkedOn(s.trace, now.trace, order, i);
    OthersUnrecorded(steps, s.trace, now.trace, order, i);
  }

  lemma AllWorkedSucceeds(steps: seq<Step>, s: GateState, order: seq<string>)
    requires RunOrder(steps) == Some(order) && WorkedTo(steps, s, order, |order|)
    ensures var run := Publish(s, TASK, SUCCEEDED, NotWaiting);
      run.end == Stops(SUCCEEDED, NotWaiting) && WorkedTo(steps, run.now, order, |order|)
  {
    DoneMeans(Permissive(steps), s, TASK, order);
  }

  lemma {:induction false} AllOkSucceeds(steps: seq<Step>, s: GateState, order: seq<string>, i: nat)
    requires RunOrder(steps) == Some(order) && AllWork(steps) && WorkedTo(steps, s, order, i)
    ensures var run := DriveFor(Permissive(steps), s, TASK, order[i..], AllOk());
      run.end == Stops(SUCCEEDED, NotWaiting) && WorkedTo(steps, run.now, order, |order|)
    decreases |order| - i
  {
    if i == |order| {
      AllWorkedSucceeds(steps, s, order);
    } else {
      RunOrderIsRight(steps);
      assert order[i] in order;
      OkStep(steps, s, order, i);
      assert order[i..][1..] == order[i + 1..];
      var now := StepFor(Permissive(steps), s, TASK, ById(steps)[order[i]], AllOk()(order[i])).now;
      AllOkSucceeds(steps, now, order, i + 1);
    }
  }

  lemma StartSucceeds(steps: seq<Step>)
    requires RunOrder(steps).Some? && AllWork(steps)
    ensures var run := StartFor(Permissive(steps), FRESH, "w", map[], AllOk());
      var order := RunOrder(steps).value;
      run.end == Stops(SUCCEEDED, NotWaiting) && WorkedTo(steps, run.now, order, |order|)
  {
    var order := RunOrder(steps).value;
    CreateMeans(Permissive(steps), FRESH, TASK);
    assert order[0..] == order;
    AllOkSucceeds(steps, CreateFor(FRESH, TASK), order, 0);
  }

  /** A start drives such a workflow to SUCCEEDED without asking anybody; whatever it declares first as
  a gate can be overwritten afterwards. */
  lemma SuccessIsNotFinal(steps: seq<Step>, id: string)
    requires RunOrder(steps).Some? && AllWork(steps) && GateFirst(steps, id)
    ensures var run := StartFor(Permissive(steps), FRESH, "w", map[], AllOk());
      run.end == Stops(SUCCEEDED, NotWaiting) && id in Recorded(run.now.trace, TASK)
      && CanChange(Permissive(steps), run.now, TASK, id, 0.0)
  {
    StartSucceeds(steps);
    WorkedCanChange(steps, StartFor(Permissive(steps), FRESH, "w", map[], AllOk()).now, RunOrder(steps).value, id);
  }

  lemma WorkedCanChange(steps: seq<Step>, s: GateState, order: seq<string>, id: string)
    requires RunOrder(steps) == Some(order) && WorkedTo(steps, s, order, |order|) && GateFirst(steps, id)
    ensures id in Recorded(s.trace, TASK) && CanChange(Permissive(steps), s, TASK, id, 0.0)
  {
    PermissiveApproves(steps, id, HaltOf(Permissive(steps), s, TASK).now.trace);
    FirstIsDeclared(steps, id);
    RunOrderIsRight(steps);
    assert id in order;
    HaltIsLast(Permissive(steps), s, TASK, order, |order|);
    ChangesIff(Permissive(steps), s, TASK, id, 0.0);
  }

  /** One id, first a gate and then work. */
  function TwiceDeclared(): seq<Step> {
    [Step("s", HumanGate("pay"), None, [], None), Step("s", Work, None, [], None)]
  }

  lemma TwiceDeclaredOrder()
    ensures RunOrder(TwiceDeclared()) == Some(["s"])
    ensures ById(TwiceDeclared()) == map["s" := TwiceDeclared()[1]]
  {
    var steps := TwiceDeclared();
    assert steps[..1] == [steps[0]] && steps[..1][..0] == [] && ById(steps[..1]) == map["s" := steps[0]];
    assert ById(steps) == map["s" := steps[1]] && Ids(steps) == ["s", "s"];
    var g := Needs(steps);
    assert g == map["s" := []] && ["s", "s"][1..] == ["s"] && ["s"][1..] == [];
    assert Visit(g, "s", [], []) == Ordered(["s"]) by { assert [] + ["s"] == ["s"]; }
    assert VisitNeeds(g, ["s"], [], ["s"]) == Ordered(["s"]);
  }

  lemma TwiceDeclaredIsNotFinal()
    ensures var run := StartFor(Permissive(TwiceDeclared()), FRESH, "w", map[], AllOk());
      run.end == Stops(SUCCEEDED, NotWaiting) && "s" in Recorded(run.now.trace, TASK)
      && CanChange(Permissive(TwiceDeclared()), run.now, TASK, "s", 0.0)
  {
    TwiceDeclaredOrder();
    SuccessIsNotFinal(TwiceDeclared(), "s");
  }
}
