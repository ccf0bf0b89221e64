/** One company's ledger as its runner, gateway and executor share it, with the history of what
they did as ghost state. Any append may be cut short by a crash, before or after it commits. */
module Journals {
  import opened Records
  import opened Ledgers
  import opened Protocol

  /** Steps of the gateway and the executor: they record no step and change no task. */
  predicate IsQuiet(act: Act) {
    match act
    case Emit(e) =>
      !e.payload.TaskCreated? && !e.payload.StateChanged? && !e.payload.StepStarted? && !e.payload.StepSucceeded?
    case RunWorker(_, _) => false
    case Restart(_) => false
    case _ => true
  }

  predicate Quiet(p: Trace, tr: Trace) {
    p == tr || (tr.Then? && IsQuiet(tr.act) && Quiet(p, tr.before))
  }

  lemma {:induction false} QuietKeeps(p: Trace, tr: Trace, t: TaskId, s: string)
    requires Quiet(p, tr)
    ensures Recorded(tr, t) == Recorded(p, t) && Created(tr, t) == Created(p, t)
    ensures StateOf(tr, t) == StateOf(p, t) && Runs(tr, t, s) == Runs(p, t, s)
    ensures Prefix(p, tr)
    decreases tr
  {
    if p != tr {
      QuietKeeps(p, tr.before, t, s);
    }
  }

  lemma {:induction false} QuietTransitive(p: Trace, q: Trace, tr: Trace)
    requires Quiet(p, q) && Quiet(q, tr)
    ensures Quiet(p, tr)
    decreases tr
  {
    if q != tr {
      QuietTransitive(p, q, tr.before);
    }
  }

  /** Steps of the gateway alone. */
  predicate IsGateAct(act: Act) {
    match act
    case Emit(e) =>
      e.payload.ApprovalRequested? || e.payload.ApprovalResolved?
      || (e.payload.Receipt? && e.payload.verdict != Executed && e.payload.verdict != Refused)
    case OpenRecord(_, _) => true
    case Verified(_, _) => true
    case CountApprover(_, _) => true
    case RetireRecord(_) => true
    case _ => false
  }

  predicate Gated(p: Trace, tr: Trace) {
    p == tr || (tr.Then? && IsGateAct(tr.act) && Gated(p, tr.before))
  }

  lemma {:induction false} GatedTransitive(p: Trace, q: Trace, tr: Trace)
    requires Gated(p, q) && Gated(q, tr)
    ensures Gated(p, tr)
    decreases tr
  {
    if q != tr {
      GatedTransitive(p, q, tr.before);
    }
  }

  /** The gateway records no step, runs no worker and causes no effect. */
  lemma {:induction false} GatedKeeps(p: Trace, tr: Trace, t: TaskId, s: string, d: Digest)
    requires Gated(p, tr)
    ensures Recorded(tr, t) == Recorded(p, t) && Created(tr, t) == Created(p, t)
    ensures StateOf(tr, t) == StateOf(p, t) && Runs(tr, t, s) == Runs(p, t, s)
    ensures IsExecuted(tr, d) == IsExecuted(p, d) && Calls(tr, d) == Calls(p, d)
    ensures Prefix(p, tr)
    decreases tr
  {
    if p != tr {
      GatedKeeps(p, tr.before, t, s, d);
    }
  }

  /** Steps that cause no effect and do not say that one was caused. */
  predicate IsHarmless(act: Act) {
    match act
    case Emit(e) => e.payload.Receipt? ==> e.payload.verdict != Executed
    case CallHandler(_) => false
    case _ => true
  }

  predicate Harmless(p: Trace, tr: Trace) {
    p == tr || (tr.Then? && IsHarmless(tr.act) && Harmless(p, tr.before))
  }

  lemma {:induction false} HarmlessTransitive(p: Trace, q: Trace, tr: Trace)
    requires Harmless(p, q) && Harmless(q, tr)
    ensures Harmless(p, tr)
    decreases tr
  {
    if q != tr {
      HarmlessTransitive(p, q, tr.before);
    }
  }

  lemma {:induction false} HarmlessKeeps(p: Trace, tr: Trace, d: Digest)
    requires Harmless(p, tr)
    ensures IsExecuted(tr, d) == IsExecuted(p, d) && Calls(tr, d) == Calls(p, d)
    decreases tr
  {
    if p != tr {
      HarmlessKeeps(p, tr.before, d);
    }
  }

  lemma {:induction false} GatedIsHarmless(p: Trace, tr: Trace)
    requires Gated(p, tr)
    ensures Harmless(p, tr)
    decreases tr
  {
    if p != tr {
      GatedIsHarmless(p, tr.before);
    }
  }

  /** Steps that touch no approval record and authorize nothing. */
  predicate IsInert(act: Act) {
    match act
    case Emit(e) => e.payload.Receipt? ==> e.payload.verdict != Authorized
    case RunWorker(_, _) => true
    case CallHandler(_) => true
    case _ => false
  }

  predicate Inert(p: Trace, tr: Trace) {
    p == tr || (tr.Then? && IsInert(tr.act) && Inert(p, tr.before))
  }

  lemma {:induction false} InertKeeps(p: Trace, tr: Trace, d: Digest, actionId: string)
    requires Inert(p, tr)
    ensures Live(tr, d) == Live(p, d) && Autos(tr, actionId) == Autos(p, actionId)
    decreases tr
  {
    if p != tr {
      InertKeeps(p, tr.before, d, actionId);
    }
  }

  lemma {:induction false} ExecutedStays(p: Trace, tr: Trace, d: Digest)
    requires Prefix(p, tr) && IsExecuted(p, d)
    ensures IsExecuted(tr, d)
    decreases tr
  {
    if p != tr {
      ExecutedStays(p, tr.before, d);
    }
  }

  lemma {:induction false} RecordedStays(p: Trace, tr: Trace, t: TaskId)
    requires Prefix(p, tr)
    ensures Recorded(p, t).Keys <= Recorded(tr, t).Keys
    ensures Created(p, t) ==> Created(tr, t)
    decreases tr
  {
    if p != tr {
      RecordedStays(p, tr.before, t);
    }
  }

  class Journal {
    const cfg: Config
    const company: string
    const ledger: Ledger<Event>
    ghost var trace: Trace

    ghost predicate Valid()
      reads this, ledger
    {
      && ledger.Valid()
      && ledger.Events(company) == Log(trace)
      && Legal(cfg, trace)
    }

    constructor (cfg: Config, company: string, ledger: Ledger<Event>)
      requires ledger.Valid() && ledger.Events(company) == []
      ensures this.cfg == cfg && this.company == company && this.ledger == ledger
      ensures Valid() && trace == Start
    {
      this.cfg, this.company, this.ledger := cfg, company, ledger;
      trace := Start;
    }

    method Append(task: TaskId, payload: Payload) returns (r: Outcome)
      requires Valid() && LegalEvent(cfg, trace, Event(task, payload))
      modifies this, ledger
      ensures Valid()
      ensures r.Pass? ==> trace == Then(old(trace), Emit(Event(task, payload)))
      ensures r.Fail? ==>
        && r.failure == Crashed
        && (trace == old(trace) || trace == Then(old(trace), Emit(Event(task, payload))))
    {
      var crashesBefore: bool := *;
      if crashesBefore {
        return Fail(Crashed);
      }
      var row := ledger.Append(company, Event(task, payload));
      trace := Then(trace, Emit(Event(task, payload)));
      var crashesAfter: bool := *;
      r := if crashesAfter then Fail(Crashed) else Pass;
    }

    function Read(): seq<Event>
      reads this, ledger
    {
      ledger.Events(company)
    }

    ghost method Note(act: Act)
      requires Valid() && !act.Emit? && LegalAct(cfg, trace, act)
      modifies this
      ensures Valid() && trace == Then(old(trace), act)
    {
      trace := Then(trace, act);
    }
  }
}
