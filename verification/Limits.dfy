/** What "exactly once" leaves open. `comcmd/kernel/executor.py` calls the handler before it writes the
receipt, so a crash between the two lets an approved effect happen again. */
module Limits {
  import opened Records
  import opened Protocol
  import opened Theorems
  import opened Journals
  import opened Gateways
  import opened GateHistories
  import opened GateRuns
  import opened GateStores
  import opened Renewals
  import opened PostgresStores
  import opened Executors

  /** A new process whose approval store starts empty authorizes `intent` by submissions, and its
  executor is cut off between the handler and the receipt. */
  function CutOff(cfg: Config, tr: Trace, intent: ActionIntent, subs: seq<Submission>): Trace {
    Then(SubmitAll(cfg, Restarted(tr), intent, subs).trace, CallHandler(Digest(intent)))
  }

  /** The last submission's outcome. */
  function LastStep(cfg: Config, tr: Trace, intent: ActionIntent, subs: seq<Submission>): GateStep
    requires subs != []
  {
    Submitted(cfg, SubmitAll(cfg, Restarted(tr), intent, subs[..|subs| - 1]), intent, subs[|subs| - 1])
  }

  /** The authorized effect, as far as the executor has a handler for it: all that is missing of a
  complete execution is its receipt. */
  lemma CutOffIsExecution(cfg: Config, tr: Trace, intent: ActionIntent, subs: seq<Submission>, tools: set<string>)
    requires Legal(cfg, tr) && cfg.Keyed() && Grants(cfg, Restarted(tr), intent, subs)
    requires !IsExecuted(tr, Digest(intent)) && intent.tool in tools
    ensures var step := LastStep(cfg, tr, intent, subs);
      && IsGrant(step, intent)
      && ExecuteFor(step.state.trace, tools, step.outcome.capability.value, intent).trace.Then?
      && ExecuteFor(step.state.trace, tools, step.outcome.capability.value, intent).trace.before
           == CutOff(cfg, tr, intent, subs)
  {
    AuthorizedIsQuiet(cfg, tr, intent, subs);
    GrantIsFresh(cfg, SubmitAll(cfg, Restarted(tr), intent, subs[..|subs| - 1]), intent, subs[|subs| - 1]);
  }

  lemma AuthorizedIsQuiet(cfg: Config, tr: Trace, intent: ActionIntent, subs: seq<Submission>)
    requires Legal(cfg, tr) && cfg.Keyed()
    ensures var s := SubmitAll(cfg, Restarted(tr), intent, subs);
      && Sound(cfg, s) && Prefix(tr, s.trace)
      && (forall t :: Recorded(s.trace, t) == Recorded(tr, t) && Created(s.trace, t) == Created(tr, t))
      && (forall d :: IsExecuted(s.trace, d) == IsExecuted(tr, d) && Calls(s.trace, d) == Calls(tr, d))
  {
    var s := SubmitAll(cfg, Restarted(tr), intent, subs);
    RestartedSound(cfg, tr);
    SubmitAllSound(cfg, Restarted(tr), intent, subs);
    forall t ensures Recorded(s.trace, t) == Recorded(tr, t) && Created(s.trace, t) == Created(tr, t) {
      GatedKeeps(Restarted(tr).trace, s.trace, t, "", Digest(intent));
    }
    forall d ensures IsExecuted(s.trace, d) == IsExecuted(tr, d) && Calls(s.trace, d) == Calls(tr, d) {
      GatedKeeps(Restarted(tr).trace, s.trace, intent.task, "", d);
    }
    GatedKeeps(Restarted(tr).trace, s.trace, intent.task, "", Digest(intent));
    PrefixTransitive(tr, Restarted(tr).trace, s.trace);
  }

  lemma CutOffRunsHandler(cfg: Config, tr: Trace, intent: ActionIntent, subs: seq<Submission>)
    requires Legal(cfg, tr) && cfg.Keyed() && Grants(cfg, Restarted(tr), intent, subs)
      && !IsExecuted(tr, Digest(intent))
    ensures var d, after := Digest(intent), CutOff(cfg, tr, intent, subs);
      Legal(cfg, after) && Prefix(tr, after) && Calls(after, d) == Calls(tr, d) + 1 && !IsExecuted(after, d)
  {
    AuthorizedIsQuiet(cfg, tr, intent, subs);
    GrantIsFresh(cfg, SubmitAll(cfg, Restarted(tr), intent, subs[..|subs| - 1]), intent, subs[|subs| - 1]);
  }

  // ---- When the handler can run again ------------------------------------------------------

  /** Some continuation of the history calls the handler of `d` once more. */
  ghost predicate CanRunAgain(cfg: Config, tr: Trace, d: Digest) {
    exists after :: Legal(cfg, after) && Prefix(tr, after) && Calls(after, d) > Calls(tr, d)
  }

  lemma {:induction false} CallNeedsApproval(cfg: Config, tr: Trace, after: Trace, d: Digest)
    requires Legal(cfg, after) && Prefix(tr, after) && Calls(after, d) > Calls(tr, d)
    ensures !IsExecuted(tr, d) && cfg.Approvable(d)
    decreases after
  {
    if after.act == CallHandler(d) {
      var approval := after.before;
      ApprovalIsQuorate(cfg, approval.before, approval.act, d);
      if IsExecuted(tr, d) {
        ExecutedStays(tr, approval, d);
      }
    } else {
      CallNeedsApproval(cfg, tr, after.before, d);
    }
  }

  /** Whatever happened before, the handler of a digest can run again exactly when no receipt says that
  it was executed and enough principals are eligible to approve its action. */
  lemma RunsAgainIff(cfg: Config, tr: Trace, d: Digest)
    requires Legal(cfg, tr) && cfg.Keyed()
    ensures CanRunAgain(cfg, tr, d) <==> !IsExecuted(tr, d) && cfg.Approvable(d)
  {
    if CanRunAgain(cfg, tr, d) {
      var after :| Legal(cfg, after) && Prefix(tr, after) && Calls(after, d) > Calls(tr, d);
      CallNeedsApproval(cfg, tr, after, d);
    }
    if !IsExecuted(tr, d) && cfg.Approvable(d) {
      var subs := CanAuthorize(cfg, tr, d.of);
      CutOffRunsHandler(cfg, tr, d.of, subs);
      assert Calls(CutOff(cfg, tr, d.of, subs), d) > Calls(tr, d);
    }
  }

  // ---- In one process, whatever its store holds --------------------------------------------

  /** Gateway calls from `since` on bring about a grant, and the executor then calls the handler. */
  ghost predicate CanCallHandler(cfg: Config, s: GateState, intent: ActionIntent, since: real) {
    exists calls, until :: Clocked(calls, since, until) && CallsHandlerLast(cfg, s, intent, calls)
  }

  ghost predicate CallsHandlerLast(cfg: Config, s: GateState, intent: ActionIntent, calls: seq<GateCall>) {
    && GrantsLast(cfg, s, intent, calls)
    && var granted := CallAll(cfg, s, calls);
       var cap := Capability(Classify(cfg.actions[intent.actionId].risk), Digest(intent), intent.tool);
       ExecuteFor(granted.trace, {intent.tool}, cap, intent).outcome.executed
  }

  lemma CallsAreQuiet(cfg: Config, s: GateState, calls: seq<GateCall>, d: Digest)
    requires Sound(cfg, s)
    ensures var after := CallAll(cfg, s, calls);
      && SoundStep(cfg, s, after) && IsExecuted(after.trace, d) == IsExecuted(s.trace, d)
      && Calls(after.trace, d) == Calls(s.trace, d)
  {
    CallAllSound(cfg, s, calls);
    GatedKeeps(s.trace, CallAll(cfg, s, calls).trace, d.of.task, "", d);
  }

  /** From any sound state of either store, the gateway and the executor can be brought to call the
  handler of an intent, be it for the first time or again, exactly when no receipt says that it was
  executed and the gateway can be brought to grant it. */
  lemma CallsHandlerIff(cfg: Config, s: GateState, intent: ActionIntent, since: real)
    requires Sound(cfg, s) && Past(s.records, since)
    ensures CanCallHandler(cfg, s, intent, since) <==>
      && !IsExecuted(s.trace, Digest(intent)) && cfg.Approvable(Digest(intent)) && Lives(cfg, Digest(intent))
      && (Spent(s.records, Digest(intent), since) ==> RightTool(cfg, Digest(intent)))
  {
    GrantIff(cfg, s, intent, since);
    if CanCallHandler(cfg, s, intent, since) {
      var calls, until :| Clocked(calls, since, until) && CallsHandlerLast(cfg, s, intent, calls);
      CallsAreQuiet(cfg, s, calls, Digest(intent));
      assert CanGrant(cfg, s, intent, since);
    }
    if !IsExecuted(s.trace, Digest(intent)) && CanGrant(cfg, s, intent, since) {
      var calls, until :| Clocked(calls, since, until) && GrantsLast(cfg, s, intent, calls);
      CallsAreQuiet(cfg, s, calls, Digest(intent));
      assert CallsHandlerLast(cfg, s, intent, calls);
    }
  }

  /** The process dies in the executor, between the handler and the receipt, and a new one starts: it
  finds the approval records again if the store keeps them. */
  function Died(s: GateState, d: Digest): GateState {
    var kept := s.store == Postgres;
    GateState(if kept then s.records else map[], map[], Then(Then(s.trace, CallHandler(d)), Restart(kept)), s.store)
  }

  ghost predicate CutOffAgain(cfg: Config, before: GateState, after: GateState, intent: ActionIntent, since: real,
                              until: real)
  {
    exists calls ::
      && Clocked(calls, since, until) && CallsHandlerLast(cfg, before, intent, calls)
      && after == Died(CallAll(cfg, before, calls), Digest(intent))
  }

  /** What keeps the handler of an intent from running again and again. */
  predicate CanRepeat(cfg: Config, s: GateState, d: Digest, since: real) {
    && !IsExecuted(s.trace, d) && cfg.Approvable(d) && Lives(cfg, d)
    && (s.store == Postgres || Spent(s.records, d, since) ==> RightTool(cfg, d))
  }

  lemma DiesAgain(cfg: Config, s: GateState, intent: ActionIntent, since: real) returns (after: GateState, until: real)
    requires Sound(cfg, s) && Past(s.records, since) && CanRepeat(cfg, s, Digest(intent), since)
    ensures CutOffAgain(cfg, s, after, intent, since, until)
    ensures Sound(cfg, after) && Past(after.records, until) && CanRepeat(cfg, after, Digest(intent), until)
    ensures Calls(after.trace, Digest(intent)) == Calls(s.trace, Digest(intent)) + 1
  {
    var d := Digest(intent);
    var calls, now := GrantsIfApprovable(cfg, s, d, since);
    ClockedAt(calls, since, now);
    until := now;
    CallsAreQuiet(cfg, s, calls, d);
    CallsPast(cfg, s, calls, since, now);
    var granted := CallAll(cfg, s, calls);
    after := Died(granted, d);
    DeathIsSound(cfg, s, intent, calls);
    assert CallsHandlerLast(cfg, s, intent, calls);
  }

  lemma DeathIsSound(cfg: Config, s: GateState, intent: ActionIntent, calls: seq<GateCall>)
    requires Sound(cfg, s) && GrantsLast(cfg, s, intent, calls) && !IsExecuted(s.trace, Digest(intent))
    ensures Sound(cfg, Died(CallAll(cfg, s, calls), Digest(intent)))
  {
    var d, granted, last := Digest(intent), CallAll(cfg, s, calls), calls[|calls| - 1];
    CallsAreQuiet(cfg, s, calls, d);
    GrantIsFresh(cfg, CallAll(cfg, s, calls[..|calls| - 1]), intent, last.sub);
    var called := Then(granted.trace, CallHandler(d));
    assert Inert(granted.trace, called);
    InertConsistent(cfg, granted.records, granted.calls, granted.trace, called);
    ConsistentRestart(cfg, granted.records, granted.calls, called, granted.store == Postgres);
  }

  /** Each state of the run but the first follows by an execution that was granted and then cut off. */
  ghost predicate CutOffRun(cfg: Config, intent: ActionIntent, run: seq<GateState>, times: seq<real>) {
    && |run| == |times|
    && forall i :: 0 <= i < |run| - 1 ==> CutOffAgain(cfg, run[i], run[i + 1], intent, times[i], times[i + 1])
  }

  lemma CutOffOnceMore(cfg: Config, intent: ActionIntent, run: seq<GateState>, times: seq<real>, after: GateState,
                       until: real)
    requires CutOffRun(cfg, intent, run, times) && run != []
    requires CutOffAgain(cfg, run[|run| - 1], after, intent, times[|run| - 1], until)
    ensures CutOffRun(cfg, intent, run + [after], times + [until])
  {
  }

  /** However often the process dies right after the handler, the next quorum lets the handler run
  again, on either store: for every number there is a run with that many calls and no receipt. */
  lemma {:induction false} HandlerRepeats(cfg: Config, s: GateState, intent: ActionIntent, since: real, n: nat)
    returns (run: seq<GateState>, times: seq<real>)
    requires Sound(cfg, s) && Past(s.records, since) && CanRepeat(cfg, s, Digest(intent), since)
    ensures |run| == |times| == n + 1 && run[0] == s && times[0] == since
    ensures CutOffRun(cfg, intent, run, times)
    ensures Sound(cfg, run[n]) && Past(run[n].records, times[n]) && CanRepeat(cfg, run[n], Digest(intent), times[n])
    ensures Calls(run[n].trace, Digest(intent)) == Calls(s.trace, Digest(intent)) + n
  {
    run, times := [s], [since];
    if n > 0 {
      var before, earlier := HandlerRepeats(cfg, s, intent, since, n - 1);
      var after, until := DiesAgain(cfg, before[n - 1], intent, earlier[n - 1]);
      CutOffOnceMore(cfg, intent, before, earlier, after, until);
      run, times := before + [after], earlier + [until];
    }
  }
}
