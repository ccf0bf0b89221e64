/** The default-deny capability gateway of `comcmd/gateway/gate.py`.

The clock reading, the random challenge and the verifier's answer to the assertion are arguments
of each call. The functions say what a call that is not cut short does; the class proves that it
does that, and that wherever a call is cut short it has taken legal steps only. */
module Gateways {
  import opened Records
  import opened Approvals
  import opened PostgresStores
  import opened Protocol
  import opened Journals

  datatype GateDecision = AutoAuthorized | ApprovalRequired | Granted | Denied

  datatype GateOutcome = GateOutcome(
    decision: GateDecision, tier: Tier, capability: Option<Capability>, request: Option<PendingApproval>)

  /** The verifier's answer: whether it approves, and the authenticated approver when known. */
  datatype Decision = Decision(approved: bool, principal: Option<string>)

  /** One approver's assertion: the clock when a record is opened for it and when its expiry is
  checked, the challenge of a new record, and what the verifier makes of the assertion. */
  datatype Submission = Submission(opening: real, now: real, challenge: Challenge, decision: Decision)

  datatype GateState = GateState(records: ByDigest, calls: map<string, nat>, trace: Trace, store: StoreKind)

  datatype GateStep = GateStep(outcome: GateOutcome, state: GateState)

  function Say(tr: Trace, intent: ActionIntent, payload: Payload): Trace {
    Then(tr, Emit(Event(intent.task, payload)))
  }

  function CallsOf(calls: map<string, nat>, actionId: string): nat {
    if actionId in calls then calls[actionId] else 0
  }

  function TermsOf(action: Action, tier: Tier): Terms {
    if action.approval.Some? then
      Terms(tier, TierRequires(tier), action.approval.value.quorum, action.approval.value.roles)
    else Terms(tier, TierRequires(tier), 1, {})
  }

  /** The terms every record of a digest is opened with: an escalated A1 action is treated as A2. */
  function TermsFor(cfg: Config, d: Digest): Terms
    requires d.of.actionId in cfg.actions
  {
    var action := cfg.actions[d.of.actionId];
    TermsOf(action, if Classify(action.risk) == A1 then A2 else Classify(action.risk))
  }

  function Ttl(action: Action): real {
    if action.approval.Some? then action.approval.value.ttl else 600.0
  }

  function Waits(tier: Tier, pa: PendingApproval): GateOutcome {
    GateOutcome(ApprovalRequired, tier, None, Some(pa))
  }

  /** `_deny`. */
  function DenyFor(s: GateState, intent: ActionIntent, tier: Tier, why: string): (r: GateStep)
    ensures r.state.store == s.store
  {
    GateStep(GateOutcome(Denied, tier, None, None),
             s.(trace := Say(s.trace, intent, Receipt(Digest(intent), Deny, Some(tier), Because(why)))))
  }

  /** The request and its receipt. */
  function Announced(tr: Trace, intent: ActionIntent, tier: Tier): Trace {
    var d := Digest(intent);
    Say(Say(tr, intent, ApprovalRequested(d)), intent,
        Receipt(d, RequireApproval, Some(tier), Because("human approval required")))
  }

  /** `_open_approval`. */
  function OpenFor(s: GateState, intent: ActionIntent, action: Action, tier: Tier, now: real,
                   challenge: Challenge): (r: GateStep)
    ensures r.state.store == s.store
  {
    var d, terms := Digest(intent), TermsOf(action, tier);
    if tier == A3 && terms.quorum < 2 then DenyFor(s, intent, tier, "dual control required")
    else if terms.eligible == {} then DenyFor(s, intent, tier, "no eligible approver configured")
    else
      var records := OpenedIn(s.store, s.records, d, terms, Ttl(action), now, challenge);
      var begun := if Reusable(s.records, d, now) then s.trace else Then(s.trace, OpenRecord(d, tier));
      GateStep(Waits(tier, records[d]), s.(records := records, trace := Announced(begun, intent, tier)))
  }

  /** `_auto`. */
  function AutoFor(cfg: Config, s: GateState, intent: ActionIntent, action: Action, tier: Tier, now: real,
                   challenge: Challenge): (r: GateStep)
    ensures r.state.store == s.store
  {
    var count := CallsOf(s.calls, action.id);
    if tier == A1 && action.id in cfg.bounds && !cfg.bounds[action.id].Within(intent.amount, count) then
      OpenFor(s, intent, action, A2, now, challenge)
    else
      GateStep(GateOutcome(AutoAuthorized, tier, Some(Capability(tier, Digest(intent), intent.tool)), None),
               s.(calls := if tier == A1 then s.calls[action.id := count + 1] else s.calls,
                  trace := Say(s.trace, intent, Receipt(Digest(intent), Authorized, Some(tier), Auto))))
  }

  /** `decide` without an assertion. */
  function Decided(cfg: Config, s: GateState, intent: ActionIntent, now: real, challenge: Challenge): (r: GateStep)
    ensures r.state.store == s.store
  {
    if intent.actionId !in cfg.actions then DenyFor(s, intent, A4, "unknown action policy")
    else
      var action := cfg.actions[intent.actionId];
      var tier := Classify(action.risk);
      if action.tool != intent.tool then DenyFor(s, intent, tier, "tool differs from policy")
      else if tier == A4 then DenyFor(s, intent, tier, "prohibited action")
      else if tier in AUTO_TIERS then AutoFor(cfg, s, intent, action, tier, now, challenge)
      else OpenFor(s, intent, action, tier, now, challenge)
  }

  /** What is known once the verifier has answered. */
  function Answered(s: GateState, intent: ActionIntent, decision: Decision): (r: GateState)
    ensures r.store == s.store && r.records == s.records
  {
    var vouched :=
      if decision.approved && decision.principal.Some?
      then Then(s.trace, Verified(Digest(intent), decision.principal.value))
      else s.trace;
    s.(trace := Say(vouched, intent, ApprovalResolved(decision.approved, decision.principal)))
  }

  /** The part of `submit_approval` that follows once an unused, unexpired record is in hand. */
  function Attempt(s: GateState, intent: ActionIntent, tier: Tier, decision: Decision): (r: GateStep)
    requires Digest(intent) in s.records
    ensures r.state.store == s.store
  {
    var d := Digest(intent);
    var pa := s.records[d];
    var resolved := Answered(s, intent, decision);
    if !decision.approved || decision.principal.None? then GateStep(Waits(tier, pa), resolved)
    else
      var p := decision.principal.value;
      if p !in pa.terms.eligible || p in pa.approvers then GateStep(Waits(tier, pa), resolved)
      else
        var counted := pa.(approvers := pa.approvers + {p});
        var after := resolved.(records := Approved(s.records, d, p),
                                    trace := Then(resolved.trace, CountApprover(d, p)));
        if !counted.Satisfied() then GateStep(Waits(tier, counted), after)
        else
          GateStep(GateOutcome(Granted, tier, Some(Capability(tier, d, intent.tool)), Some(counted)),
                   Authorize(after, intent, tier, counted.approvers))
  }

  /** Retires the record of a completed quorum and writes the receipt. */
  function Authorize(s: GateState, intent: ActionIntent, tier: Tier, approvers: set<string>): GateState {
    var d := Digest(intent);
    var receipt := Receipt(d, Authorized, Some(tier), ApprovedBy(approvers));
    s.(records := Retired(s.records, d), trace := Say(Then(s.trace, RetireRecord(d)), intent, receipt))
  }

  /** An expired record is retired and the attempt denied. */
  function ExpireFor(s: GateState, intent: ActionIntent, tier: Tier): (r: GateStep)
    ensures r.state.store == s.store
  {
    var d := Digest(intent);
    var retired := s.(records := Retired(s.records, d), trace := Then(s.trace, RetireRecord(d)));
    DenyFor(retired, intent, tier, "approval expired")
  }

  /** `submit_approval`, with the record in hand. */
  function SubmittedTo(s: GateState, intent: ActionIntent, tier: Tier, sub: Submission): (r: GateStep)
    requires Digest(intent) in s.records
    ensures r.state.store == s.store
  {
    if s.records[Digest(intent)].used then DenyFor(s, intent, tier, "no open approval for this action")
    else if s.records[Digest(intent)].IsExpired(sub.now) then ExpireFor(s, intent, tier)
    else Attempt(s, intent, tier, sub.decision)
  }

  /** `submit_approval`, when the store knows no record: one is opened first. */
  function SubmittedAnew(s: GateState, intent: ActionIntent, action: Action, tier: Tier, sub: Submission): (r: GateStep)
    ensures r.state.store == s.store
  {
    var begun := OpenFor(s, intent, action, tier, sub.opening, sub.challenge);
    if Digest(intent) !in begun.state.records then begun else SubmittedTo(begun.state, intent, tier, sub)
  }

  function Submitted(cfg: Config, s: GateState, intent: ActionIntent, sub: Submission): (r: GateStep)
    ensures r.state.store == s.store
  {
    if intent.actionId !in cfg.actions then DenyFor(s, intent, A4, "unknown action policy")
    else
      var action := cfg.actions[intent.actionId];
      var tier := Classify(action.risk);
      if tier !in APPROVAL_TIERS then DenyFor(s, intent, tier, "action does not use approval")
      else if Digest(intent) in s.records then SubmittedTo(s, intent, tier, sub)
      else SubmittedAnew(s, intent, action, tier, sub)
  }

  /** `decide` with the optional assertion, which is submitted at once when the action asks for
  approval. */
  function DecidedWith(cfg: Config, s: GateState, intent: ActionIntent, now: real, challenge: Challenge,
                       assertion: Option<Submission>): (r: GateStep)
    ensures r.state.store == s.store
  {
    var decided := Decided(cfg, s, intent, now, challenge);
    if assertion.Some? && decided.outcome.decision == ApprovalRequired
       && Classify(cfg.actions[intent.actionId].risk) in APPROVAL_TIERS
    then Submitted(cfg, decided.state, intent, assertion.value)
    else decided
  }

  /** The store's record of `d` is the one the history speaks of. */
  ghost predicate RecordMatches(cfg: Config, records: ByDigest, tr: Trace, d: Digest) {
    && (Live(tr, d).Some? <==> d in records && !records[d].used)
    && (d in records ==>
          && d.of.actionId in cfg.actions && records[d].terms == TermsFor(cfg, d)
          && records[d].ttl == Ttl(cfg.actions[d.of.actionId]))
    && (d in records && !records[d].used ==> Live(tr, d) == Some(records[d].approvers))
  }

  ghost predicate Consistent(cfg: Config, records: ByDigest, calls: map<string, nat>, tr: Trace) {
    && (forall d :: RecordMatches(cfg, records, tr, d))
    && (forall a :: Autos(tr, a) <= CallsOf(calls, a))
    && cfg.Keyed()
  }

  lemma ConsistentEmit(cfg: Config, records: ByDigest, calls: map<string, nat>, tr: Trace, act: Act)
    requires Consistent(cfg, records, calls, tr) && (act.Emit? || act.Verified?)
    requires forall a :: IsBoundedAuto(act, a) ==> Autos(tr, a) < CallsOf(calls, a)
    ensures Consistent(cfg, records, calls, Then(tr, act))
  {
    forall d ensures RecordMatches(cfg, records, Then(tr, act), d) {
      assert RecordMatches(cfg, records, tr, d);
    }
  }

  lemma InertConsistent(cfg: Config, records: ByDigest, calls: map<string, nat>, p: Trace, tr: Trace)
    requires Consistent(cfg, records, calls, p) && Inert(p, tr)
    ensures Consistent(cfg, records, calls, tr)
  {
    forall d ensures RecordMatches(cfg, records, tr, d) {
      assert RecordMatches(cfg, records, p, d);
      InertKeeps(p, tr, d, "");
    }
    forall a ensures Autos(tr, a) <= CallsOf(calls, a) {
      InertKeeps(p, tr, Digest(ActionIntent(TaskId("", map[]), "", "", "", "", None, None, WorkerArgs(map[]))), a);
    }
  }

  lemma ConsistentOpen(cfg: Config, records: ByDigest, calls: map<string, nat>, tr: Trace, pa: PendingApproval,
                       tier: Tier)
    requires Consistent(cfg, records, calls, tr) && pa.approvers == {} && !pa.used
    requires pa.digest.of.actionId in cfg.actions && pa.terms == TermsFor(cfg, pa.digest)
    requires pa.ttl == Ttl(cfg.actions[pa.digest.of.actionId])
    ensures Consistent(cfg, records[pa.digest := pa], calls, Then(tr, OpenRecord(pa.digest, tier)))
  {
    var after := records[pa.digest := pa];
    forall d ensures RecordMatches(cfg, after, Then(tr, OpenRecord(pa.digest, tier)), d) {
      assert RecordMatches(cfg, records, tr, d);
    }
  }

  lemma ConsistentRetire(cfg: Config, records: ByDigest, calls: map<string, nat>, tr: Trace, at: Digest)
    requires Consistent(cfg, records, calls, tr)
    ensures Consistent(cfg, Retired(records, at), calls, Then(tr, RetireRecord(at)))
  {
    forall d ensures RecordMatches(cfg, Retired(records, at), Then(tr, RetireRecord(at)), d) {
      assert RecordMatches(cfg, records, tr, d);
    }
  }

  lemma ConsistentCount(cfg: Config, records: ByDigest, calls: map<string, nat>, tr: Trace, at: Digest, p: string)
    requires Consistent(cfg, records, calls, tr) && at in records && !records[at].used
    ensures Consistent(cfg, Approved(records, at, p), calls, Then(tr, CountApprover(at, p)))
  {
    forall d ensures RecordMatches(cfg, Approved(records, at, p), Then(tr, CountApprover(at, p)), d) {
      assert RecordMatches(cfg, records, tr, d);
    }
  }

  /** A new process: the counters are gone, and so are the records unless the store keeps them. */
  lemma ConsistentRestart(cfg: Config, records: ByDigest, calls: map<string, nat>, tr: Trace, kept: bool)
    requires Consistent(cfg, records, calls, tr)
    ensures Consistent(cfg, if kept then records else map[], map[], Then(tr, Restart(kept)))
  {
    var after := if kept then records else map[];
    forall d ensures RecordMatches(cfg, after, Then(tr, Restart(kept)), d) {
      assert RecordMatches(cfg, records, tr, d);
    }
  }

  class Gateway {
    const cfg: Config
    const journal: Journal
    const store: ApprovalStore
    var calls: map<string, nat>

    ghost predicate Valid()
      reads this, journal, journal.ledger, store
    {
      && journal.Valid() && journal.cfg == cfg
      && Consistent(cfg, store.byDigest, calls, journal.trace)
    }

    constructor (journal: Journal, store: ApprovalStore)
      requires journal.Valid() && Consistent(journal.cfg, store.byDigest, map[], journal.trace)
      ensures Valid() && this.journal == journal && this.store == store && calls == map[]
    {
      this.cfg, this.journal, this.store := journal.cfg, journal, store;
      calls := map[];
    }

    ghost function Now(): GateState
      reads this, journal, store
    {
      GateState(store.byDigest, calls, journal.trace, InMemory)
    }

    /** `_emit`. */
    method Emit(intent: ActionIntent, payload: Payload) returns (r: Outcome)
      requires Valid()
      requires !payload.TaskCreated? && !payload.StateChanged? && !payload.StepStarted? && !payload.StepSucceeded?
      requires LegalEvent(cfg, journal.trace, Event(intent.task, payload))
      requires forall a :: IsBoundedAuto(Act.Emit(Event(intent.task, payload)), a) ==>
        Autos(journal.trace, a) < CallsOf(calls, a)
      modifies journal, journal.ledger
      ensures Valid() && Quiet(old(journal.trace), journal.trace)
      ensures r.Pass? ==> journal.trace == Say(old(journal.trace), intent, payload)
      ensures journal.trace == old(journal.trace) || journal.trace == Say(old(journal.trace), intent, payload)
    {
      ConsistentEmit(cfg, store.byDigest, calls, journal.trace, Act.Emit(Event(intent.task, payload)));
      r := journal.Append(intent.task, payload);
    }

    method Refuse(intent: ActionIntent, tier: Tier, why: string) returns (r: Result<GateOutcome>)
      requires Valid()
      modifies this, journal, journal.ledger, store
      ensures Valid() && Quiet(old(journal.trace), journal.trace)
      ensures r.Done? ==> GateStep(r.value, Now()) == DenyFor(old(Now()), intent, tier, why)
    {
      var receipt := Receipt(Digest(intent), Deny, Some(tier), Because(why));
      :- Emit(intent, receipt);
      return Done(GateOutcome(Denied, tier, None, None));
    }

    method OpenApproval(intent: ActionIntent, action: Action, tier: Tier, now: real, challenge: Challenge)
      returns (r: Result<GateOutcome>)
      requires Valid() && intent.actionId in cfg.actions && action == cfg.actions[intent.actionId]
      requires tier in APPROVAL_TIERS && (tier == Classify(action.risk) || (tier == A2 && Classify(action.risk) == A1))
      modifies this, journal, journal.ledger, store
      ensures Valid() && Quiet(old(journal.trace), journal.trace)
      ensures r.Done? ==> GateStep(r.value, Now()) == OpenFor(old(Now()), intent, action, tier, now, challenge)
    {
      var terms := TermsOf(action, tier);
      if tier == A3 && terms.quorum < 2 {
        r := Refuse(intent, tier, "dual control required");
        return;
      }
      if terms.eligible == {} {
        r := Refuse(intent, tier, "no eligible approver configured");
        return;
      }
      var d := Digest(intent);
      ghost var reused := Reusable(store.byDigest, d, now);
      var pa := store.OpenRecord(d, terms, Ttl(action), now, challenge);
      if !reused {
        ConsistentOpen(cfg, old(store.byDigest), calls, journal.trace, pa, tier);
        journal.Note(OpenRecord(d, tier));
      }
      ghost var begun := journal.trace;
      var announced := Announce(intent, tier);
      QuietTransitive(old(journal.trace), begun, journal.trace);
      if announced.Fail? {
        return Failed(Crashed);
      }
      return Done(Waits(tier, pa));
    }

    /** Publishes the request and writes the receipt. */
    method Announce(intent: ActionIntent, tier: Tier) returns (r: Outcome)
      requires Valid()
      modifies journal, journal.ledger
      ensures Valid() && Quiet(old(journal.trace), journal.trace)
      ensures r.Pass? ==> journal.trace == Announced(old(journal.trace), intent, tier)
    {
      var d := Digest(intent);
      r := Emit(intent, ApprovalRequested(d));
      if r.Fail? {
        return;
      }
      assert Quiet(old(journal.trace), journal.trace);
      r := Emit(intent, Receipt(d, RequireApproval, Some(tier), Because("human approval required")));
    }

    method AutoAuthorize(intent: ActionIntent, action: Action, tier: Tier, now: real, challenge: Challenge)
      returns (r: Result<GateOutcome>)
      requires Valid() && intent.actionId in cfg.actions && action == cfg.actions[intent.actionId]
      requires tier == Classify(action.risk) && tier in AUTO_TIERS && action.tool == intent.tool
      modifies this, journal, journal.ledger, store
      ensures Valid() && Quiet(old(journal.trace), journal.trace)
      ensures r.Done? ==> GateStep(r.value, Now()) == AutoFor(cfg, old(Now()), intent, action, tier, now, challenge)
    {
      if tier == A1 {
        var count := CallsOf(calls, action.id);
        if action.id in cfg.bounds && !cfg.bounds[action.id].Within(intent.amount, count) {
          r := OpenApproval(intent, action, A2, now, challenge);
          return;
        }
        calls := calls[action.id := count + 1];
      }
      :- Emit(intent, Receipt(Digest(intent), Authorized, Some(tier), Auto));
      return Done(GateOutcome(AutoAuthorized, tier, Some(Capability(tier, Digest(intent), intent.tool)), None));
    }

    method Decide(intent: ActionIntent, now: real, challenge: Challenge) returns (r: Result<GateOutcome>)
      requires Valid()
      modifies this, journal, journal.ledger, store
      ensures Valid() && Quiet(old(journal.trace), journal.trace)
      ensures r.Done? ==> GateStep(r.value, Now()) == Decided(cfg, old(Now()), intent, now, challenge)
    {
      if intent.actionId !in cfg.actions {
        r := Refuse(intent, A4, "unknown action policy");
        return;
      }
      var action := cfg.actions[intent.actionId];
      var tier := Classify(action.risk);
      if action.tool != intent.tool {
        r := Refuse(intent, tier, "tool differs from policy");
        return;
      }
      if tier == A4 {
        r := Refuse(intent, tier, "prohibited action");
        return;
      }
      if tier in AUTO_TIERS {
        r := AutoAuthorize(intent, action, tier, now, challenge);
        return;
      }
      r := OpenApproval(intent, action, tier, now, challenge);
    }

    method SubmitApproval(intent: ActionIntent, sub: Submission) returns (r: Result<GateOutcome>)
      requires Valid()
      modifies this, journal, journal.ledger, store
      ensures Valid() && Quiet(old(journal.trace), journal.trace)
      ensures r.Done? ==> GateStep(r.value, Now()) == Submitted(cfg, old(Now()), intent, sub)
    {
      var d := Digest(intent);
      if intent.actionId !in cfg.actions {
        r := Refuse(intent, A4, "unknown action policy");
        return;
      }
      var action := cfg.actions[intent.actionId];
      var tier := Classify(action.risk);
      if tier !in APPROVAL_TIERS {
        r := Refuse(intent, tier, "action does not use approval");
        return;
      }
      var pa := store.Get(d);
      if pa.None? {
        r := SubmitAnew(intent, action, tier, sub);
      } else {
        r := SubmitTo(intent, tier, sub);
      }
    }

    /** Opens a record first. */
    method SubmitAnew(intent: ActionIntent, action: Action, tier: Tier, sub: Submission)
      returns (r: Result<GateOutcome>)
      requires Valid() && intent.actionId in cfg.actions && action == cfg.actions[intent.actionId]
      requires tier in APPROVAL_TIERS && tier == Classify(action.risk) && Digest(intent) !in store.byDigest
      modifies this, journal, journal.ledger, store
      ensures Valid() && Quiet(old(journal.trace), journal.trace)
      ensures r.Done? ==> GateStep(r.value, Now()) == SubmittedAnew(old(Now()), intent, action, tier, sub)
    {
      r := OpenApproval(intent, action, tier, sub.opening, sub.challenge);
      if r.Failed? || r.value.decision == Denied {
        return;
      }
      ghost var ready := journal.trace;
      r := SubmitTo(intent, tier, sub);
      QuietTransitive(old(journal.trace), ready, journal.trace);
    }

    /** What follows once there is a record. */
    method SubmitTo(intent: ActionIntent, tier: Tier, sub: Submission) returns (r: Result<GateOutcome>)
      requires Valid() && Digest(intent) in store.byDigest
      requires cfg.TierOf(Digest(intent)) == Some(tier) && tier in APPROVAL_TIERS
      modifies this, journal, journal.ledger, store
      ensures Valid() && Quiet(old(journal.trace), journal.trace)
      ensures r.Done? ==> GateStep(r.value, Now()) == SubmittedTo(old(Now()), intent, tier, sub)
    {
      var pa := store.Get(Digest(intent));
      if pa.value.used {
        r := Refuse(intent, tier, "no open approval for this action");
      } else if pa.value.IsExpired(sub.now) {
        r := Expire(intent, tier);
      } else {
        r := Count(intent, tier, sub.decision);
      }
    }

    /** `decide` with the optional assertion. */
    method DecideWith(intent: ActionIntent, now: real, challenge: Challenge, assertion: Option<Submission>)
      returns (r: Result<GateOutcome>)
      requires Valid()
      modifies this, journal, journal.ledger, store
      ensures Valid() && Quiet(old(journal.trace), journal.trace)
      ensures r.Done? ==> GateStep(r.value, Now()) == DecidedWith(cfg, old(Now()), intent, now, challenge, assertion)
    {
      r := Decide(intent, now, challenge);
      if assertion.None? || r.Failed? || r.value.decision != ApprovalRequired {
        return;
      }
      if Classify(cfg.actions[intent.actionId].risk) !in APPROVAL_TIERS {
        return;
      }
      ghost var decided := journal.trace;
      r := SubmitApproval(intent, assertion.value);
      QuietTransitive(old(journal.trace), decided, journal.trace);
    }

    /** Retires an expired record. */
    method Expire(intent: ActionIntent, tier: Tier) returns (r: Result<GateOutcome>)
      requires Valid() && Digest(intent) in store.byDigest
      modifies this, journal, journal.ledger, store
      ensures Valid() && Quiet(old(journal.trace), journal.trace)
      ensures r.Done? ==> GateStep(r.value, Now()) == ExpireFor(old(Now()), intent, tier)
    {
      var d := Digest(intent);
      ConsistentRetire(cfg, store.byDigest, calls, journal.trace, d);
      store.Retire(d);
      journal.Note(RetireRecord(d));
      ghost var retired := journal.trace;
      r := Refuse(intent, tier, "approval expired");
      QuietTransitive(old(journal.trace), retired, journal.trace);
    }

    /** Takes down the verifier's answer. */
    method Resolve(intent: ActionIntent, decision: Decision) returns (r: Outcome)
      requires Valid()
      modifies this, journal, journal.ledger, store
      ensures Valid() && Quiet(old(journal.trace), journal.trace) && store.byDigest == old(store.byDigest)
      ensures r.Pass? ==> Now() == Answered(old(Now()), intent, decision)
      ensures r.Pass? && decision.approved && decision.principal.Some? ==>
        && journal.trace.Then? && journal.trace.before.Then?
        && journal.trace.act == Act.Emit(Event(intent.task, ApprovalResolved(true, decision.principal)))
        && journal.trace.before.act == Verified(Digest(intent), decision.principal.value)
    {
      var d := Digest(intent);
      if decision.approved && decision.principal.Some? {
        ConsistentEmit(cfg, store.byDigest, calls, journal.trace, Verified(d, decision.principal.value));
        journal.Note(Verified(d, decision.principal.value));
      }
      r := Emit(intent, ApprovalResolved(decision.approved, decision.principal));
    }

    /** One approver's assertion against the open record; authorizes when it completes the quorum. */
    method Count(intent: ActionIntent, tier: Tier, decision: Decision) returns (r: Result<GateOutcome>)
      requires Valid() && Digest(intent) in store.byDigest && !store.byDigest[Digest(intent)].used
      requires cfg.TierOf(Digest(intent)) == Some(tier) && tier in APPROVAL_TIERS
      modifies this, journal, journal.ledger, store
      ensures Valid() && Quiet(old(journal.trace), journal.trace)
      ensures r.Done? ==> GateStep(r.value, Now()) == Attempt(old(Now()), intent, tier, decision)
    {
      var d := Digest(intent);
      var pa := store.byDigest[d];
      :- Resolve(intent, decision);
      if !decision.approved || decision.principal.None? {
        return Done(Waits(tier, pa));
      }
      var p := decision.principal.value;
      if p !in pa.terms.eligible || p in pa.approvers {
        return Done(Waits(tier, pa));
      }
      assert RecordMatches(cfg, store.byDigest, journal.trace, d);
      ConsistentCount(cfg, store.byDigest, calls, journal.trace, d, p);
      var counted := store.AddApprover(d, p);
      journal.Note(CountApprover(d, p));
      pa := counted.value;
      assert Quiet(old(journal.trace), journal.trace);
      if !pa.Satisfied() {
        return Done(Waits(tier, pa));
      }
      ghost var before := journal.trace;
      var written := Grant(intent, tier, pa.approvers);
      QuietTransitive(old(journal.trace), before, journal.trace);
      if written.Fail? {
        return Failed(Crashed);
      }
      return Done(GateOutcome(Granted, tier, Some(Capability(tier, d, intent.tool)), Some(pa)));
    }

    /** Retires the record of a completed quorum and writes the receipt. */
    method Grant(intent: ActionIntent, tier: Tier, approvers: set<string>) returns (r: Outcome)
      requires Valid() && Digest(intent) in store.byDigest && !store.byDigest[Digest(intent)].used
      requires cfg.TierOf(Digest(intent)) == Some(tier) && tier in APPROVAL_TIERS
      requires approvers == store.byDigest[Digest(intent)].approvers && store.byDigest[Digest(intent)].Satisfied()
      modifies this, journal, journal.ledger, store
      ensures Valid() && Quiet(old(journal.trace), journal.trace)
      ensures r.Pass? ==> Now() == Authorize(old(Now()), intent, tier, approvers)
    {
      var d := Digest(intent);
      assert RecordMatches(cfg, store.byDigest, journal.trace, d);
      ConsistentRetire(cfg, store.byDigest, calls, journal.trace, d);
      store.Retire(d);
      journal.Note(RetireRecord(d));
      assert Quiet(old(journal.trace), journal.trace);
      r := Emit(intent, Receipt(d, Authorized, Some(tier), ApprovedBy(approvers)));
    }
  }
}
