/** The worker runs of fan-out and verify steps (`comcmd/kernel/workflow.py`). Results of the thread
pools come in index order, so the runs are a loop. A run that raises ends its call, after the runs the
pool has already started. */
module Workers {
  import opened Records
  import opened Aggregation
  import opened Protocol
  import opened Journals

  function RanTrace(tr: Trace, t: TaskId, s: string, n: nat): Trace {
    if n == 0 then tr else Then(RanTrace(tr, t, s, n - 1), RunWorker(t, s))
  }

  /** A step stays ready while its worker runs, and the runs are counted. */
  lemma {:induction false} RunsCount(cfg: Config, tr: Trace, t: TaskId, s: string, n: nat)
    requires Ready(cfg, tr, t, s) && Runs(tr, t, s) == Some(0)
    ensures var ran := RanTrace(tr, t, s, n);
      && Ready(cfg, ran, t, s) && Runs(ran, t, s) == Some(n) && Recorded(ran, t) == Recorded(tr, t)
      && Prefix(tr, ran) && Inert(tr, ran)
  {
    if n > 0 {
      RunsCount(cfg, tr, t, s, n - 1);
    }
  }

  // ---- What the runs return ----------------------------------------------------------------

  function Artifacts(cfg: Config, envelopes: seq<Envelope>): (r: seq<Artifact>)
    ensures |r| == |envelopes|
  {
    seq(|envelopes|, i requires 0 <= i < |envelopes| => OrEmpty(cfg.work(envelopes[i])))
  }

  function ForCandidates(cfg: Config, t: TaskId, step: Step, up: map<string, Option<Artifact>>,
                         n: nat): (r: seq<Envelope>)
    ensures |r| == n
  {
    seq(n, i requires 0 <= i < n => EnvelopeFor(cfg, t, step, t.inputs, Candidate(i, n), up))
  }

  lemma CandidatesReturned(cfg: Config, t: TaskId, step: Step, up: map<string, Option<Artifact>>, n: nat)
    ensures Artifacts(cfg, ForCandidates(cfg, t, step, up, n)) == Candidates(cfg, t, step, up, n, n)
  {
  }

  function ForVerifiers(cfg: Config, t: TaskId, step: Step, up: map<string, Option<Artifact>>, m: nat,
                        target: Artifact): (r: seq<Envelope>)
    ensures |r| == m
  {
    seq(m, i requires 0 <= i < m => EnvelopeFor(cfg, t, step, t.inputs, Verifier(i, m, target), up))
  }

  predicate Approves(a: Artifact) {
    Truthy(Get(a, "approve"))
  }

  /** How many of the artifacts approve. */
  function Approving(artifacts: seq<Artifact>): nat {
    if artifacts == [] then 0
    else Approving(artifacts[..|artifacts| - 1]) + if Approves(artifacts[|artifacts| - 1]) then 1 else 0
  }

  lemma {:induction false} VerifiersReturned(cfg: Config, t: TaskId, step: Step, up: map<string, Option<Artifact>>,
                                             k: nat, m: nat, target: Artifact)
    requires k <= m
    ensures Approving(Artifacts(cfg, ForVerifiers(cfg, t, step, up, m, target))[..k])
         == ApprovingVerifiers(cfg, t, step, up, k, m, target)
  {
    if k > 0 {
      var all := Artifacts(cfg, ForVerifiers(cfg, t, step, up, m, target));
      assert all[..k][..k - 1] == all[..k - 1];
      VerifiersReturned(cfg, t, step, up, k - 1, m, target);
    }
  }

  method CountApproving(artifacts: seq<Artifact>) returns (n: nat)
    ensures n == Approving(artifacts)
  {
    n := 0;
    for i := 0 to |artifacts|
      invariant n == Approving(artifacts[..i])
    {
      assert artifacts[..i + 1][..i] == artifacts[..i];
      if Truthy(Get(artifacts[i], "approve")) {
        n := n + 1;
      }
    }
    assert artifacts[..|artifacts|] == artifacts;
  }

  class WorkerPool {
    const journal: Journal

    constructor (journal: Journal)
      ensures this.journal == journal
    {
      this.journal := journal;
    }

    /** `worker.run`: the artifact is a function of the envelope. */
    method Run(t: TaskId, s: string, envelope: Envelope) returns (r: Result<Option<Artifact>>)
      requires journal.Valid() && Ready(journal.cfg, journal.trace, t, s) && Runs(journal.trace, t, s).Some?
      modifies journal
      ensures journal.Valid() && journal.trace == Then(old(journal.trace), RunWorker(t, s))
      ensures r.Done? ==> r.value == journal.cfg.work(envelope)
      ensures r.Failed? ==> r.failure == Crashed
    {
      journal.Note(RunWorker(t, s));
      var raises: bool := *;
      r := if raises then Failed(Crashed) else Done(journal.cfg.work(envelope));
    }

    /** A step that was ready and not run in history `began`, after `n` runs of its worker. */
    ghost predicate Running(began: Trace, t: TaskId, s: string, n: nat)
      reads journal, journal.ledger
    {
      && journal.Valid() && journal.trace == RanTrace(began, t, s, n)
      && Ready(journal.cfg, journal.trace, t, s) && Runs(journal.trace, t, s) == Some(n)
    }

    /** Run number `n`. */
    method RunAgain(ghost began: Trace, t: TaskId, s: string, ghost n: nat, envelope: Envelope)
      returns (r: Result<Artifact>)
      requires Running(began, t, s, n)
      modifies journal
      ensures Running(began, t, s, n + 1)
      ensures r.Done? ==> r.value == OrEmpty(journal.cfg.work(envelope))
      ensures r.Failed? ==> r.failure == Crashed
    {
      var artifact := Run(t, s, envelope);
      r := if artifact.Failed? then Failed(Crashed) else Done(OrEmpty(artifact.value));
    }

    /** The runs the pool has started when run number `from - 1` raised: any number of those that follow. */
    method FinishStarted(ghost began: Trace, t: TaskId, s: string, envelopes: seq<Envelope>, from: nat)
      returns (ghost k: nat)
      requires Running(began, t, s, from) && from <= |envelopes|
      modifies journal
      ensures Running(began, t, s, k) && from <= k <= |envelopes|
    {
      var started: nat :| from <= started <= |envelopes|;
      for i := from to started
        invariant Running(began, t, s, i)
      {
        var artifact := RunAgain(began, t, s, i, envelopes[i]);
      }
      k := started;
    }

    /** One envelope after another, until a run raises; then those already started. */
    method RunAll(ghost began: Trace, t: TaskId, s: string, envelopes: seq<Envelope>)
      returns (r: Result<seq<Artifact>>, ghost k: nat)
      requires Running(began, t, s, 0)
      modifies journal
      ensures Running(began, t, s, k)
      ensures r.Failed? ==> r.failure == Crashed && 0 < k <= |envelopes|
      ensures r.Done? ==> r.value == Artifacts(journal.cfg, envelopes) && k == |envelopes|
    {
      var artifacts: seq<Artifact> := [];
      for i := 0 to |envelopes|
        invariant Running(began, t, s, i)
        invariant |artifacts| == i && forall j :: 0 <= j < i ==> artifacts[j] == OrEmpty(journal.cfg.work(envelopes[j]))
      {
        var artifact := RunAgain(began, t, s, i, envelopes[i]);
        if artifact.Failed? {
          k := FinishStarted(began, t, s, envelopes, i + 1);
          return Failed(Crashed), k;
        }
        artifacts := artifacts + [artifact.value];
      }
      return Done(artifacts), |envelopes|;
    }

    /** The candidates of a fan-out step, in index order. */
    method RunCandidates(t: TaskId, step: Step, up: map<string, Option<Artifact>>, n: int)
      returns (r: Result<seq<Artifact>>, ghost k: nat)
      requires Running(journal.trace, t, step.id, 0) && n > 0
      modifies journal
      ensures Running(old(journal.trace), t, step.id, k)
      ensures r.Failed? ==> r.failure == Crashed
      ensures r.Done? ==> r.value == Candidates(journal.cfg, t, step, up, n, n) && k == n
    {
      r, k := RunAll(journal.trace, t, step.id, ForCandidates(journal.cfg, t, step, up, n));
      CandidatesReturned(journal.cfg, t, step, up, n);
    }

    /** The verifiers of a verify step; counts those that approve. */
    method CountApprovals(t: TaskId, step: Step, up: map<string, Option<Artifact>>, m: int, target: Artifact)
      returns (r: Result<nat>, ghost k: nat)
      requires Running(journal.trace, t, step.id, 0) && m > 0
      modifies journal
      ensures Running(old(journal.trace), t, step.id, k)
      ensures r.Failed? ==> r.failure == Crashed
      ensures r.Done? ==> r.value == ApprovingVerifiers(journal.cfg, t, step, up, m, m, target) && k == m
    {
      var artifacts;
      artifacts, k := RunAll(journal.trace, t, step.id, ForVerifiers(journal.cfg, t, step, up, m, target));
      if artifacts.Failed? {
        return Failed(Crashed), k;
      }
      var approvals := CountApproving(artifacts.value);
      VerifiersReturned(journal.cfg, t, step, up, m, m, target);
      assert artifacts.value[..m] == artifacts.value;
      r := Done(approvals);
    }
  }
}
