/** The idempotent executor of `comcmd/kernel/executor.py`: the only place an effect happens. */
module Executors {
  import opened Records
  import opened Protocol
  import opened Journals

  datatype ExecutionOutcome = ExecutionOutcome(executed: bool, duplicate: bool)

  datatype Execution = Execution(outcome: ExecutionOutcome, trace: Trace)

  function RefuseFor(tr: Trace, intent: ActionIntent): Execution {
    var receipt := Receipt(Digest(intent), Refused, None, Because("refused"));
    Execution(ExecutionOutcome(false, false), Then(tr, Emit(Event(intent.task, receipt))))
  }

  /** What an execution that is not cut short does. */
  function ExecuteFor(tr: Trace, handlers: set<string>, cap: Capability, intent: ActionIntent): Execution {
    var d := Digest(intent);
    if cap.digest != d || cap.tool != intent.tool then RefuseFor(tr, intent)
    else if IsExecuted(tr, d) then Execution(ExecutionOutcome(false, true), tr)
    else if intent.tool !in handlers then RefuseFor(tr, intent)
    else
      Execution(ExecutionOutcome(true, false),
                Then(Then(tr, CallHandler(d)),
                     Emit(Event(intent.task, Receipt(d, Executed, None, Because("executed"))))))
  }

  predicate IsExecutionReceipt(e: Event, d: Digest) {
    e.payload.Receipt? && e.payload.verdict == Executed && e.payload.digest == d
  }

  lemma {:induction false} LogShowsExecutions(tr: Trace, d: Digest)
    ensures IsExecuted(tr, d) <==> exists i :: 0 <= i < |Log(tr)| && IsExecutionReceipt(Log(tr)[i], d)
  {
    if tr.Then? {
      LogShowsExecutions(tr.before, d);
      if IsReceipt(tr.act, d, Executed) {
        assert IsExecutionReceipt(Log(tr)[|Log(tr)| - 1], d);
      }
      if i :| 0 <= i < |Log(tr.before)| && IsExecutionReceipt(Log(tr.before)[i], d) {
        assert Log(tr)[i] == Log(tr.before)[i];
      }
    }
  }

  method Search(events: seq<Event>, d: Digest) returns (found: bool)
    ensures found <==> exists i :: 0 <= i < |events| && IsExecutionReceipt(events[i], d)
  {
    for i := 0 to |events|
      invariant forall k :: 0 <= k < i ==> !IsExecutionReceipt(events[k], d)
    {
      if IsExecutionReceipt(events[i], d) {
        return true;
      }
    }
    return false;
  }

  class Executor {
    const journal: Journal
    var handlers: set<string>

    constructor (journal: Journal, handlers: set<string>)
      ensures this.journal == journal && this.handlers == handlers
    {
      this.journal, this.handlers := journal, handlers;
    }

    /** `_prior_execution`. */
    method PriorExecution(intent: ActionIntent) returns (found: bool)
      requires journal.Valid()
      ensures found <==> IsExecuted(journal.trace, Digest(intent))
    {
      var events := journal.Read();
      assert events == Log(journal.trace);
      found := Search(events, Digest(intent));
      LogShowsExecutions(journal.trace, Digest(intent));
    }

    /** The capability is the one the gateway minted just before: its authorization is the last
    thing in the history. A handler that raises is cut short like a crash. */
    method Execute(cap: Capability, intent: ActionIntent) returns (r: Result<ExecutionOutcome>)
      requires journal.Valid()
      requires cap.digest == Digest(intent) ==> journal.trace.Then? && IsApproval(journal.trace.act, cap.digest)
      modifies journal, journal.ledger
      ensures journal.Valid() && Quiet(old(journal.trace), journal.trace) && Inert(old(journal.trace), journal.trace)
      ensures r.Done? ==> Execution(r.value, journal.trace) == ExecuteFor(old(journal.trace), handlers, cap, intent)
    {
      if cap.digest != Digest(intent) || cap.tool != intent.tool {
        r := Refuse(intent);
        return;
      }
      var prior := PriorExecution(intent);
      if prior {
        return Done(ExecutionOutcome(false, true));
      }
      if intent.tool !in handlers {
        r := Refuse(intent);
        return;
      }
      journal.Note(CallHandler(Digest(intent)));
      var handlerRaises: bool := *;
      if handlerRaises {
        return Failed(Crashed);
      }
      :- journal.Append(intent.task, Receipt(Digest(intent), Executed, None, Because("executed")));
      return Done(ExecutionOutcome(true, false));
    }

    method Refuse(intent: ActionIntent) returns (r: Result<ExecutionOutcome>)
      requires journal.Valid()
      modifies journal, journal.ledger
      ensures journal.Valid() && Quiet(old(journal.trace), journal.trace) && Inert(old(journal.trace), journal.trace)
      ensures r.Done? ==> Execution(r.value, journal.trace) == RefuseFor(old(journal.trace), intent)
    {
      var receipt := Receipt(Digest(intent), Refused, None, Because("refused"));
      :- journal.Append(intent.task, receipt);
      return Done(ExecutionOutcome(false, false));
    }
  }
}
