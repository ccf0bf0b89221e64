/** What holds of every legal trace, that is, of every run of the control plane with crashes at
any points: crash equivalence, run safety, quorum before commit, exactly-once effects and the
bounded-auto envelope. */
module Theorems {
  import opened Records
  import opened Aggregation
  import opened Graphs
  import opened Protocol

  lemma {:induction false} LegalPrefix(cfg: Config, p: Trace, tr: Trace)
    requires Legal(cfg, tr) && Prefix(p, tr)
    ensures Legal(cfg, p)
    decreases tr
  {
    if p != tr {
      LegalPrefix(cfg, p, tr.before);
    }
  }

  lemma {:induction false} FirstIsDeclared(steps: seq<Step>, s: string)
    requires FirstById(steps, s).Some?
    ensures s in ById(steps)
    decreases |steps|
  {
    if steps[0].id != s {
      FirstIsDeclared(steps[1..], s);
      var i :| 0 <= i < |steps[1..]| && steps[1..][i].id == s;
      assert steps[i + 1].id == s;
    }
  }

  predicate RecordsStep(act: Act, t: TaskId, s: string) {
    act.Emit? && act.event.task == t && act.event.payload.StepSucceeded? && act.event.payload.step == s
  }

  // ---- Crash equivalence -------------------------------------------------------------------

  lemma DoneCanSucceed(cfg: Config, tr: Trace, t: TaskId, s: string, artifact: Artifact)
    requires StepDone(cfg, tr, t, s, artifact)
    ensures WorkLast(cfg.StepsOf(t), s)
  {
    assert Passed(ById(cfg.StepsOf(t))[s], artifact);
  }

  /** Only ids that are not stuck are ever recorded. */
  lemma {:induction false} RecordedNotStuck(cfg: Config, tr: Trace, t: TaskId, s: string)
    requires Legal(cfg, tr) && s in Recorded(tr, t)
    ensures Created(tr, t) && s in ById(cfg.StepsOf(t)) && !Stuck(cfg.StepsOf(t), s)
  {
    if s in Recorded(tr.before, t) {
      RecordedNotStuck(cfg, tr.before, t, s);
    } else if GateFirst(cfg.StepsOf(t), s) {
      FirstIsDeclared(cfg.StepsOf(t), s);
    } else {
      DoneCanSucceed(cfg, tr.before, t, s, tr.act.event.payload.artifact);
    }
  }

  /** A step that working on it completed is no gate in any of its declarations that count. */
  lemma DoneIsWork(cfg: Config, tr: Trace, t: TaskId, s: string, artifact: Artifact)
    requires Legal(cfg, tr) && GatesSettled(cfg.StepsOf(t)) && StepDone(cfg, tr, t, s, artifact)
    ensures !GateFirst(cfg.StepsOf(t), s)
  {
    DoneCanSucceed(cfg, tr, t, s, artifact);
    var order := RunOrder(cfg.StepsOf(t)).value;
    var k := IndexOf(order, s);
    assert SettledAt(cfg.StepsOf(t), order, k);
    forall j | 0 <= j < k ensures !Stuck(cfg.StepsOf(t), order[j]) {
      RecordedNotStuck(cfg, tr, t, order[j]);
    }
  }

  /** The artifact a step is recorded with, given the artifacts of the steps it needs. */
  function Worth(cfg: Config, t: TaskId, s: string, up: map<string, Option<Artifact>>): Artifact
    requires s in ById(cfg.StepsOf(t))
  {
    if GateFirst(cfg.StepsOf(t), s) then AUTHORIZED else StepValue(cfg, t, ById(cfg.StepsOf(t))[s], up)
  }

  ghost predicate Grounded(cfg: Config, tr: Trace, t: TaskId, s: string)
    requires s in Recorded(tr, t)
  {
    && Created(tr, t) && s in ById(cfg.StepsOf(t))
    && (GateFirst(cfg.StepsOf(t), s) || forall n <- ById(cfg.StepsOf(t))[s].needs :: n in Recorded(tr, t))
    && Recorded(tr, t)[s] == Worth(cfg, t, s, Upstream(Recorded(tr, t), ById(cfg.StepsOf(t))[s].needs))
  }

  /** Recording an id again can only be a gate approved again: nothing recorded ever changes. */
  lemma {:induction false} RecordedOnceAlike(cfg: Config, tr: Trace, t: TaskId, s: string)
    requires Legal(cfg, tr) && GatesSettled(cfg.StepsOf(t))
    requires tr.Then? && RecordsStep(tr.act, t, s) && s in Recorded(tr.before, t)
    ensures Recorded(tr.before, t)[s] == tr.act.event.payload.artifact
    decreases tr, 0
  {
    EverythingGrounded(cfg, tr.before, t, s);
  }

  lemma {:induction false} GroundedStays(cfg: Config, before: Trace, tr: Trace, t: TaskId, s: string)
    requires s in Recorded(before, t) && Grounded(cfg, before, t, s) && Created(tr, t)
    requires forall x <- Recorded(before, t) :: Find(Recorded(tr, t), x) == Find(Recorded(before, t), x)
    ensures s in Recorded(tr, t) && Grounded(cfg, tr, t, s)
  {
    var needs := ById(cfg.StepsOf(t))[s].needs;
    assert Find(Recorded(tr, t), s) == Find(Recorded(before, t), s);
    if !GateFirst(cfg.StepsOf(t), s) {
      forall n | n in needs ensures Find(Recorded(tr, t), n) == Find(Recorded(before, t), n) && n in Recorded(tr, t) {
        assert n in Recorded(before, t);
      }
      UpstreamAgrees(Recorded(tr, t), Recorded(before, t), needs);
    }
  }

  /** A step's artifact, when it is recorded, is computed from what was recorded before. */
  lemma NewlyRecorded(cfg: Config, tr: Trace, t: TaskId, s: string)
    requires Legal(cfg, tr) && GatesSettled(cfg.StepsOf(t)) && tr.Then?
    requires s in Recorded(tr, t) && s !in Recorded(tr.before, t)
    ensures s in ById(cfg.StepsOf(t)) && Created(tr.before, t)
    ensures GateFirst(cfg.StepsOf(t), s) || forall n <- ById(cfg.StepsOf(t))[s].needs :: n in Recorded(tr.before, t)
    ensures Recorded(tr, t)[s] == Worth(cfg, t, s, Upstream(Recorded(tr.before, t), ById(cfg.StepsOf(t))[s].needs))
  {
    RecordedNotStuck(cfg, tr, t, s);
    if StepDone(cfg, tr.before, t, s, tr.act.event.payload.artifact) {
      DoneIsWork(cfg, tr.before, t, s, tr.act.event.payload.artifact);
    }
  }

  /** Each recorded artifact is the value of its step, computed from recorded artifacts. */
  lemma {:induction false} EverythingGrounded(cfg: Config, tr: Trace, t: TaskId, s: string)
    requires Legal(cfg, tr) && GatesSettled(cfg.StepsOf(t)) && s in Recorded(tr, t)
    ensures Grounded(cfg, tr, t, s)
    decreases tr, 1
  {
    forall x | x in Recorded(tr.before, t) ensures Find(Recorded(tr, t), x) == Find(Recorded(tr.before, t), x) {
      if RecordsStep(tr.act, t, x) {
        RecordedOnceAlike(cfg, tr, t, x);
      }
    }
    if s in Recorded(tr.before, t) {
      EverythingGrounded(cfg, tr.before, t, s);
      GroundedStays(cfg, tr.before, tr, t, s);
    } else {
      NewlyRecorded(cfg, tr, t, s);
      if !GateFirst(cfg.StepsOf(t), s) {
        var needs := ById(cfg.StepsOf(t))[s].needs;
        forall n | n in needs ensures Find(Recorded(tr, t), n) == Find(Recorded(tr.before, t), n) {
          assert n in Recorded(tr.before, t);
        }
        UpstreamAgrees(Recorded(tr, t), Recorded(tr.before, t), needs);
      }
    }
  }

  lemma {:induction false} RecordsAreFinal(cfg: Config, p: Trace, tr: Trace, t: TaskId, s: string)
    requires Legal(cfg, tr) && GatesSettled(cfg.StepsOf(t)) && Prefix(p, tr) && s in Recorded(p, t)
    ensures s in Recorded(tr, t) && Recorded(tr, t)[s] == Recorded(p, t)[s]
    decreases tr
  {
    if p != tr {
      RecordsAreFinal(cfg, p, tr.before, t, s);
      if RecordsStep(tr.act, t, s) {
        RecordedOnceAlike(cfg, tr, t, s);
      }
    }
  }

  /** Two runs of the same task, wherever each of them crashed and resumed, record the same
  artifact for every step that both record. */
  lemma {:induction false} RunsAgree(cfg: Config, a: Trace, b: Trace, t: TaskId, s: string)
    requires Legal(cfg, a) && Legal(cfg, b) && GatesSettled(cfg.StepsOf(t))
    requires s in Recorded(a, t) && s in Recorded(b, t)
    ensures Recorded(a, t)[s] == Recorded(b, t)[s]
    decreases a
  {
    EverythingGrounded(cfg, a, t, s);
    EverythingGrounded(cfg, b, t, s);
    var step := ById(cfg.StepsOf(t))[s];
    if s in Recorded(a.before, t) {
      RecordsAreFinal(cfg, a.before, a, t, s);
      RunsAgree(cfg, a.before, b, t, s);
    } else if !GateFirst(cfg.StepsOf(t), s) {
      NewlyRecorded(cfg, a, t, s);
      forall n | n in step.needs ensures Find(Recorded(a.before, t), n) == Find(Recorded(b, t), n) {
        RunsAgree(cfg, a.before, b, t, n);
      }
      UpstreamAgrees(Recorded(a.before, t), Recorded(b, t), step.needs);
    }
  }

  predicate IsSuccess(act: Act, t: TaskId) {
    act.Emit? && act.event.task == t && act.event.payload.StateChanged? && act.event.payload.state == SUCCEEDED
  }

  lemma {:induction false} SuccessRecordsEveryStep(cfg: Config, q: Trace, success: Act, tr: Trace, t: TaskId)
    requires Legal(cfg, tr) && Prefix(Then(q, success), tr) && IsSuccess(success, t)
    ensures forall s <- ById(cfg.StepsOf(t)) :: s in Recorded(q, t)
  {
    LegalPrefix(cfg, Then(q, success), tr);
  }

  /** Crash equivalence: all runs of a task that reach SUCCEEDED have the same artifact map,
  namely that of the run nothing interrupted. */
  lemma {:induction false} CrashEquivalence(cfg: Config, t: TaskId, qa: Trace, sa: Act, a: Trace, qb: Trace, sb: Act,
                                            b: Trace)
    requires Legal(cfg, a) && Legal(cfg, b) && GatesSettled(cfg.StepsOf(t))
    requires Prefix(Then(qa, sa), a) && IsSuccess(sa, t)
    requires Prefix(Then(qb, sb), b) && IsSuccess(sb, t)
    ensures Recorded(a, t) == Recorded(b, t)
    ensures Recorded(a, t).Keys == ById(cfg.StepsOf(t)).Keys
  {
    SuccessKeys(cfg, t, qa, sa, a);
    SuccessKeys(cfg, t, qb, sb, b);
    forall s | s in Recorded(a, t) ensures Recorded(a, t)[s] == Recorded(b, t)[s] {
      RunsAgree(cfg, a, b, t, s);
    }
  }

  lemma {:induction false} SuccessKeys(cfg: Config, t: TaskId, q: Trace, success: Act, tr: Trace)
    requires Legal(cfg, tr) && GatesSettled(cfg.StepsOf(t)) && Prefix(Then(q, success), tr) && IsSuccess(success, t)
    ensures Recorded(tr, t).Keys == ById(cfg.StepsOf(t)).Keys
  {
    SuccessRecordsEveryStep(cfg, q, success, tr, t);
    assert Prefix(q, Then(q, success));
    PrefixTransitive(q, Then(q, success), tr);
    forall s | s in ById(cfg.StepsOf(t)) ensures s in Recorded(tr, t) {
      RecordsAreFinal(cfg, q, tr, t, s);
    }
    forall s | s in Recorded(tr, t) ensures s in ById(cfg.StepsOf(t)) {
      EverythingGrounded(cfg, tr, t, s);
    }
  }

  /** The meaning of a workflow: every step's value, by recursion on what it needs. */
  function Meaning(cfg: Config, t: TaskId, order: seq<string>): map<string, Artifact> {
    if order == [] then map[]
    else
      var m, s, byId := Meaning(cfg, t, order[..|order| - 1]), order[|order| - 1], ById(cfg.StepsOf(t));
      if s in byId then m[s := Worth(cfg, t, s, Upstream(m, byId[s].needs))] else m
  }

  lemma {:induction false} MeaningIsFixedPoint(cfg: Config, t: TaskId, order: seq<string>, s: string)
    requires Distinct(order) && NeedsFirst(Needs(cfg.StepsOf(t)), order) && s in order
    ensures s in ById(cfg.StepsOf(t)) && s in Meaning(cfg, t, order)
    ensures var needs := ById(cfg.StepsOf(t))[s].needs;
            Meaning(cfg, t, order)[s] == Worth(cfg, t, s, Upstream(Meaning(cfg, t, order), needs))
    decreases |order|
  {
    var g, byId := Needs(cfg.StepsOf(t)), ById(cfg.StepsOf(t));
    var init, last := order[..|order| - 1], order[|order| - 1];
    NeedsFirstInit(g, order);
    NeedsWithin(g, order, s);
    var before, after := Meaning(cfg, t, init), Meaning(cfg, t, order);
    assert last !in byId[s].needs by {
      if s != last { NeedsWithin(g, init, s); }
    }
    assert Upstream(after, byId[s].needs) == Upstream(before, byId[s].needs);
    if s != last {
      MeaningIsFixedPoint(cfg, t, init, s);
    }
  }

  lemma {:induction false} MeaningOfNew(cfg: Config, tr: Trace, t: TaskId, order: seq<string>, s: string)
    requires Legal(cfg, tr) && GatesSettled(cfg.StepsOf(t)) && TopologicalOrder(Needs(cfg.StepsOf(t)), order)
    requires tr.Then? && s in Recorded(tr, t) && s !in Recorded(tr.before, t)
    requires forall n <- Recorded(tr.before, t) :: Find(Meaning(cfg, t, order), n) == Some(Recorded(tr.before, t)[n])
    ensures Find(Meaning(cfg, t, order), s) == Some(Recorded(tr, t)[s])
  {
    NewlyRecorded(cfg, tr, t, s);
    assert s in Needs(cfg.StepsOf(t));
    MeaningIsFixedPoint(cfg, t, order, s);
    if !GateFirst(cfg.StepsOf(t), s) {
      UpstreamAgrees(Recorded(tr.before, t), Meaning(cfg, t, order), ById(cfg.StepsOf(t))[s].needs);
    }
  }

  /** Every artifact in every reachable ledger is its step's meaning. */
  lemma {:induction false} RecordedIsMeaning(cfg: Config, tr: Trace, t: TaskId, order: seq<string>, s: string)
    requires Legal(cfg, tr) && GatesSettled(cfg.StepsOf(t)) && TopologicalOrder(Needs(cfg.StepsOf(t)), order)
    requires s in Recorded(tr, t)
    ensures Find(Meaning(cfg, t, order), s) == Some(Recorded(tr, t)[s])
    decreases tr
  {
    forall n | n in Recorded(tr.before, t) ensures Find(Meaning(cfg, t, order), n) == Some(Recorded(tr.before, t)[n]) {
      RecordedIsMeaning(cfg, tr.before, t, order, n);
    }
    if s in Recorded(tr.before, t) {
      RecordsAreFinal(cfg, tr.before, tr, t, s);
    } else {
      MeaningOfNew(cfg, tr, t, order, s);
    }
  }

  // ---- Run safety --------------------------------------------------------------------------

  function Successes(tr: Trace, t: TaskId, s: string): nat {
    if tr.Start? then 0 else Successes(tr.before, t, s) + if RecordsStep(tr.act, t, s) then 1 else 0
  }

  /** A step that is not a gate succeeds at most once per task. */
  lemma {:induction false} AtMostOneSuccess(cfg: Config, tr: Trace, t: TaskId, s: string)
    requires Legal(cfg, tr)
    requires forall gate :: FirstById(cfg.StepsOf(t), s) == Some(gate) ==> !gate.kind.HumanGate?
    ensures Successes(tr, t, s) == if s in Recorded(tr, t) then 1 else 0
  {
    if tr.Then? {
      AtMostOneSuccess(cfg, tr.before, t, s);
    }
  }

  predicate WorksOn(act: Act, t: TaskId, s: string) {
    act == RunWorker(t, s) || (act.Emit? && act.event == Event(t, StepStarted(s)))
  }

  lemma {:induction false} SuccessIsRecorded(p: Trace, success: Act, q: Trace, t: TaskId, s: string)
    requires Prefix(Then(p, success), q) && RecordsStep(success, t, s)
    ensures s in Recorded(q, t)
    decreases q
  {
    if Then(p, success) != q {
      SuccessIsRecorded(p, success, q.before, t, s);
    }
  }

  /** Whenever a step is started or its worker runs, its needs are all recorded, and it has not
  succeeded at any earlier point of any earlier run. */
  lemma {:induction false} WorkOnlyWhenReady(cfg: Config, q: Trace, work: Act, tr: Trace, t: TaskId, s: string,
                                             p: Trace, success: Act)
    requires Legal(cfg, tr) && Prefix(Then(q, work), tr) && WorksOn(work, t, s)
    ensures s in ById(cfg.StepsOf(t)) && forall n <- ById(cfg.StepsOf(t))[s].needs :: n in Recorded(q, t)
    ensures RecordsStep(success, t, s) ==> !Prefix(Then(p, success), q)
  {
    LegalPrefix(cfg, Then(q, work), tr);
    if RecordsStep(success, t, s) && Prefix(Then(p, success), q) {
      SuccessIsRecorded(p, success, q, t, s);
    }
  }

  /** The intent a gate stands for keeps its digest from the moment its needs are recorded. */
  lemma {:induction false} IntentStability(cfg: Config, p: Trace, tr: Trace, t: TaskId, gate: Step)
    requires Legal(cfg, tr) && Prefix(p, tr) && GatesSettled(cfg.StepsOf(t)) && gate.kind.HumanGate?
    requires forall n <- gate.needs :: n in Recorded(p, t)
    ensures Digest(GateIntent(cfg, t, gate, t.inputs, Upstream(Recorded(tr, t), gate.needs)))
         == Digest(GateIntent(cfg, t, gate, t.inputs, Upstream(Recorded(p, t), gate.needs)))
  {
    forall n | n in gate.needs ensures Find(Recorded(tr, t), n) == Find(Recorded(p, t), n) {
      RecordsAreFinal(cfg, p, tr, t, n);
    }
    assert Upstream(Recorded(tr, t), gate.needs) == Upstream(Recorded(p, t), gate.needs);
  }

  // ---- Quorum before commit ----------------------------------------------------------------

  /** The verifier vouched for `p` on `d`, and the record of `d` has not been opened anew since. */
  predicate VouchedSinceOpened(tr: Trace, d: Digest, p: string) {
    && tr.Then?
    && (tr.act == Verified(d, p)
        || (!(tr.act.OpenRecord? && tr.act.digest == d) && VouchedSinceOpened(tr.before, d, p)))
  }

  ghost predicate Quorate(cfg: Config, tr: Trace, d: Digest, approvers: set<string>) {
    && cfg.TierOf(d).Some? && cfg.TierOf(d).value in APPROVAL_TIERS
    && |approvers| >= cfg.Quorum(d) && approvers <= cfg.Eligible(d)
    && (cfg.TierOf(d) == Some(A3) ==> |approvers| >= 2)
    && forall p <- approvers :: VouchedSinceOpened(tr, d, p)
  }

  lemma {:induction false} LiveApproversVouched(cfg: Config, tr: Trace, d: Digest)
    requires Legal(cfg, tr) && Live(tr, d).Some?
    ensures Live(tr, d).value <= cfg.Eligible(d)
    ensures forall p <- Live(tr, d).value :: VouchedSinceOpened(tr, d, p)
    ensures cfg.Eligible(d) != {} && (cfg.TierOf(d) == Some(A3) ==> cfg.Quorum(d) >= 2)
    decreases tr
  {
    if !(tr.act.OpenRecord? && tr.act.digest == d) {
      LiveApproversVouched(cfg, tr.before, d);
      if tr.act.CountApprover? && tr.act.digest == d {
        assert VouchedSinceOpened(tr.before.before, d, tr.act.principal);
      }
    }
  }

  lemma ApprovalIsQuorate(cfg: Config, h: Trace, approval: Act, d: Digest)
    requires Legal(cfg, Then(h, approval)) && IsApproval(approval, d)
    ensures Quorate(cfg, h, d, approval.event.payload.reason.approvers) && cfg.Approvable(d)
  {
    LiveApproversVouched(cfg, h.before, d);
    SubsetSize(approval.event.payload.reason.approvers, cfg.Eligible(d));
  }

  /** Somewhere in `tr` a quorum authorized `d`. */
  ghost predicate AuthorizedByQuorum(cfg: Config, tr: Trace, d: Digest) {
    exists h, approval {:trigger Then(h, approval)} ::
      && Prefix(Then(h, approval), tr) && IsApproval(approval, d)
      && Quorate(cfg, h, d, approval.event.payload.reason.approvers)
  }

  /** An executed effect was authorized by a quorum before it was executed. */
  lemma {:induction false} ExecutionNeedsQuorum(cfg: Config, tr: Trace, d: Digest) returns (e: Trace, executed: Act)
    requires Legal(cfg, tr) && IsExecuted(tr, d)
    ensures Prefix(Then(e, executed), tr) && IsReceipt(executed, d, Executed) && AuthorizedByQuorum(cfg, e, d)
    ensures cfg.Approvable(d)
    decreases tr
  {
    if IsReceipt(tr.act, d, Executed) {
      e, executed := tr.before, tr.act;
      var approved := e.before;
      assert e.act == CallHandler(d) && IsApproval(approved.act, d);
      ApprovalIsQuorate(cfg, approved.before, approved.act, d);
      assert Prefix(Then(approved.before, approved.act), e);
    } else {
      e, executed := ExecutionNeedsQuorum(cfg, tr.before, d);
    }
  }

  /** No commit without quorum: before a gate is recorded, the effect it stands for, digested
  from the artifacts recorded at that time, was executed, and before that authorized by enough
  distinct, eligible principals the verifier vouched for, two at least for tier A3. */
  lemma {:induction false} NoCommitWithoutQuorum(cfg: Config, q: Trace, commit: Act, tr: Trace, t: TaskId, s: string,
                                                 gate: Step)
    returns (e: Trace, executed: Act)
    requires Legal(cfg, tr) && GatesSettled(cfg.StepsOf(t))
    requires FirstById(cfg.StepsOf(t), s) == Some(gate) && gate.kind.HumanGate?
    requires Prefix(Then(q, commit), tr) && RecordsStep(commit, t, s)
    ensures var d := Digest(GateIntent(cfg, t, gate, t.inputs, Upstream(Recorded(q, t), gate.needs)));
            Prefix(Then(e, executed), q) && IsReceipt(executed, d, Executed) && AuthorizedByQuorum(cfg, e, d)
  {
    LegalPrefix(cfg, Then(q, commit), tr);
    if StepDone(cfg, q, t, s, commit.event.payload.artifact) {
      DoneIsWork(cfg, q, t, s, commit.event.payload.artifact);
    }
    var d := Digest(GateIntent(cfg, t, gate, t.inputs, Upstream(Recorded(q, t), gate.needs)));
    e, executed := ExecutionNeedsQuorum(cfg, q, d);
  }

  /** If an action is of no approval tier or cannot find enough approvers, no run ever executes it. */
  lemma UnreachableQuorumNeverExecutes(cfg: Config, tr: Trace, d: Digest)
    requires Legal(cfg, tr) && !cfg.Approvable(d)
    ensures !IsExecuted(tr, d)
  {
    if IsExecuted(tr, d) {
      var e, executed := ExecutionNeedsQuorum(cfg, tr, d);
    }
  }

  /** A gate that nobody can approve keeps its task from ever succeeding. */
  lemma {:induction false} UnapprovableNeverSucceeds(cfg: Config, q: Trace, success: Act, tr: Trace, t: TaskId,
                                                     s: string)
    requires Legal(cfg, tr) && Prefix(Then(q, success), tr) && GateLast(cfg.StepsOf(t), s)
    requires GateFirst(cfg.StepsOf(t), s) ==> !cfg.Approvable(GateDigest(cfg, q, t, FirstById(cfg.StepsOf(t), s).value))
    ensures !IsSuccess(success, t)
  {
    if IsSuccess(success, t) {
      SuccessRecordsEveryStep(cfg, q, success, tr, t);
      assert Prefix(q, Then(q, success));
      PrefixTransitive(q, Then(q, success), tr);
      LegalPrefix(cfg, q, tr);
      RecordedGateWasApproved(cfg, q, t, s);
    }
  }

  /** A step declared last as a gate is recorded only if its first declaration is one too, and its
  action can be approved. */
  lemma {:induction false} RecordedGateWasApproved(cfg: Config, tr: Trace, t: TaskId, s: string)
    requires Legal(cfg, tr) && s in Recorded(tr, t) && GateLast(cfg.StepsOf(t), s)
    ensures GateFirst(cfg.StepsOf(t), s) && cfg.Approvable(GateDigest(cfg, tr, t, FirstById(cfg.StepsOf(t), s).value))
  {
    if s in Recorded(tr.before, t) {
      RecordedGateWasApproved(cfg, tr.before, t, s);
    } else {
      var e, executed := ExecutionNeedsQuorum(cfg, tr.before,
          GateDigest(cfg, tr.before, t, FirstById(cfg.StepsOf(t), s).value));
    }
  }

  // ---- Counting ----------------------------------------------------------------------------

  function Executions(tr: Trace, d: Digest): nat {
    if tr.Start? then 0 else Executions(tr.before, d) + if IsReceipt(tr.act, d, Executed) then 1 else 0
  }

  function Authorizations(tr: Trace, d: Digest): nat {
    if tr.Start? then 0 else Authorizations(tr.before, d) + if IsApproval(tr.act, d) then 1 else 0
  }

  function Opens(tr: Trace, d: Digest): nat {
    if tr.Start? then 0 else Opens(tr.before, d) + if tr.act.OpenRecord? && tr.act.digest == d then 1 else 0
  }

  function Counted(tr: Trace, d: Digest): nat {
    if tr.Start? then 0 else Counted(tr.before, d) + if tr.act.CountApprover? && tr.act.digest == d then 1 else 0
  }

  predicate CallPending(tr: Trace, d: Digest) {
    tr.Then? && tr.act == CallHandler(d)
  }

  /** Handler calls that were cut off before their receipt: something else came next. */
  function Interrupted(tr: Trace, d: Digest): nat {
    if tr.Start? then 0
    else Interrupted(tr.before, d) + if CallPending(tr.before, d) && !IsReceipt(tr.act, d, Executed) then 1 else 0
  }

  /** Exactly once: of the handler calls for a digest at most one gets a receipt, no call comes
  after that one, and every other call was cut off between handler and receipt. */
  lemma {:induction false} ExactlyOnce(cfg: Config, tr: Trace, d: Digest)
    requires Legal(cfg, tr)
    ensures Executions(tr, d) == if IsExecuted(tr, d) then 1 else 0
    ensures Calls(tr, d) == Executions(tr, d) + Interrupted(tr, d) + if CallPending(tr, d) then 1 else 0
    ensures CallPending(tr, d) ==> !IsExecuted(tr, d)
  {
    if tr.Then? {
      ExactlyOnce(cfg, tr.before, d);
    }
  }

  function LiveCount(tr: Trace, d: Digest): nat {
    if Live(tr, d).Some? then |Live(tr, d).value| else 0
  }

  predicate JustRetired(tr: Trace, d: Digest) {
    tr.Then? && tr.act == RetireRecord(d) && Live(tr.before, d).Some?
  }

  /** Records are consumed: handler calls never exceed the approvals of a digest, nor approvals
  the records opened for it, and each approval used up a quorum of counted approvers of its own. */
  lemma {:induction false} ApprovalsAreConsumed(cfg: Config, tr: Trace, d: Digest)
    requires Legal(cfg, tr)
    ensures Calls(tr, d) + (if tr.Then? && IsApproval(tr.act, d) then 1 else 0) <= Authorizations(tr, d)
    ensures Authorizations(tr, d) + (if Live(tr, d).Some? || JustRetired(tr, d) then 1 else 0) <= Opens(tr, d)
    ensures cfg.Quorum(d) * Authorizations(tr, d) + LiveCount(tr, d)
      + (if JustRetired(tr, d) then LiveCount(tr.before, d) else 0)
            <= Counted(tr, d)
  {
    if tr.Then? {
      ApprovalsAreConsumed(cfg, tr.before, d);
      if IsApproval(tr.act, d) {
        assert cfg.Quorum(d) * (Authorizations(tr.before, d) + 1)
            == cfg.Quorum(d) * Authorizations(tr.before, d) + cfg.Quorum(d);
      }
    }
  }

  /** Once a record is retired, or lost, nothing authorizes its digest until a record is opened for
  it anew; and a new record starts without approvers. */
  lemma {:induction false} RetiredUntilReopened(cfg: Config, p: Trace, tr: Trace, d: Digest)
    requires Legal(cfg, tr) && Prefix(p, tr) && Live(p, d).None? && !JustRetired(p, d)
    ensures Opens(tr, d) >= Opens(p, d)
    ensures Opens(tr, d) == Opens(p, d) ==>
      Authorizations(tr, d) == Authorizations(p, d) && Live(tr, d).None? && !JustRetired(tr, d)
    ensures tr != p && tr.act.OpenRecord? && tr.act.digest == d ==> Live(tr, d) == Some({})
    decreases tr
  {
    if p != tr {
      RetiredUntilReopened(cfg, p, tr.before, d);
    }
  }

  /** The bounded-auto envelope: since the gateway started, an A1 action was never authorized
  automatically more often than its bound, and never for more than its amount. */
  lemma {:induction false} EnvelopeRespected(cfg: Config, tr: Trace, actionId: string)
    requires Legal(cfg, tr) && actionId in cfg.bounds && cfg.bounds[actionId].maxCalls.Some?
    ensures Autos(tr, actionId) == 0 || Autos(tr, actionId) <= cfg.bounds[actionId].maxCalls.value
  {
    if tr.Then? {
      EnvelopeRespected(cfg, tr.before, actionId);
    }
  }

  predicate IsAuto(act: Act) {
    act.Emit? && act.event.payload.Receipt? && act.event.payload.verdict == Authorized && act.event.payload.reason.Auto?
  }

  /** Only observing and bounded-internal actions are authorized automatically, only for the tool of
  their policy, and never above a bounded amount. */
  lemma {:induction false} AutoWithinPolicy(cfg: Config, q: Trace, auto: Act, tr: Trace)
    requires Legal(cfg, tr) && Prefix(Then(q, auto), tr) && IsAuto(auto)
    ensures var intent := auto.event.payload.digest.of;
      && intent.actionId in cfg.actions && cfg.actions[intent.actionId].tool == intent.tool
      && (cfg.actions[intent.actionId].risk.Observe? || cfg.actions[intent.actionId].risk.BoundedInternal?)
      && (cfg.actions[intent.actionId].risk.BoundedInternal? && intent.actionId in cfg.bounds
          && cfg.bounds[intent.actionId].maxAmount.Some? && intent.amount.Some? ==>
            intent.amount.value <= cfg.bounds[intent.actionId].maxAmount.value)
  {
    LegalPrefix(cfg, Then(q, auto), tr);
  }
}
