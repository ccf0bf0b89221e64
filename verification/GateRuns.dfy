/** What sequences of gateway calls come to: when a quorum is complete, which requests for approval
can be met, and how often an action is authorized automatically. */
module GateRuns {
  import opened Records
  import opened Approvals
  import opened PostgresStores
  import opened Protocol
  import opened Gateways
  import opened GateHistories

  // ---- One submission ----------------------------------------------------------------------

  /** An assertion that adds an approver to `pa`. */
  predicate Adds(pa: PendingApproval, decision: Decision) {
    decision.approved && decision.principal.Some?
    && decision.principal.value in pa.terms.eligible && decision.principal.value !in pa.approvers
  }

  predicate Completes(pa: PendingApproval, decision: Decision) {
    Adds(pa, decision) && |pa.approvers| + 1 >= pa.terms.quorum
  }

  /** The record once an assertion was counted on it. */
  function CountedOn(pa: PendingApproval, decision: Decision): PendingApproval {
    pa.(approvers := if Adds(pa, decision) then pa.approvers + {decision.principal.value} else pa.approvers,
        used := pa.used || Completes(pa, decision))
  }

  predicate NeedsApproval(cfg: Config, intent: ActionIntent) {
    intent.actionId in cfg.actions && Classify(cfg.actions[intent.actionId].risk) in APPROVAL_TIERS
  }

  predicate IsGrant(step: GateStep, intent: ActionIntent) {
    && step.outcome.decision == Granted
    && step.outcome.capability == Some(Capability(step.outcome.tier, Digest(intent), intent.tool))
    && step.state.trace.Then? && IsApproval(step.state.trace.act, Digest(intent))
  }

  /** What counting one assertion against the record in hand comes to. */
  ghost predicate Counts(s: GateState, intent: ActionIntent, decision: Decision, step: GateStep)
    requires Digest(intent) in s.records
  {
    var pa := s.records[Digest(intent)];
    && (Completes(pa, decision) ==> IsGrant(step, intent))
    && (!Completes(pa, decision) ==> step.outcome.decision == ApprovalRequired)
    && step.state.records == s.records[Digest(intent) := CountedOn(pa, decision)]
  }

  lemma AttemptCounts(s: GateState, intent: ActionIntent, tier: Tier, decision: Decision)
    requires Digest(intent) in s.records
    ensures Counts(s, intent, decision, Attempt(s, intent, tier, decision))
  {
    var pa := s.records[Digest(intent)];
    if Adds(pa, decision) {
      assert |pa.approvers + {decision.principal.value}| == |pa.approvers| + 1;
    }
  }

  /** Against an open record, an assertion is granted exactly when it completes the quorum, and the
  record is then used up; if it only adds an approver, the record stays open with that approver. */
  lemma SubmittedToOpen(cfg: Config, s: GateState, intent: ActionIntent, sub: Submission)
    requires NeedsApproval(cfg, intent) && Digest(intent) in s.records && s.records[Digest(intent)].Open(sub.now)
    ensures Counts(s, intent, sub.decision, Submitted(cfg, s, intent, sub))
  {
    AttemptCounts(s, intent, Classify(cfg.actions[intent.actionId].risk), sub.decision);
  }

  /** A used or expired record grants nothing, and is not opened again by the submission. */
  lemma SubmittedToClosed(cfg: Config, s: GateState, intent: ActionIntent, sub: Submission)
    requires NeedsApproval(cfg, intent) && Digest(intent) in s.records && !s.records[Digest(intent)].Open(sub.now)
    ensures var step := Submitted(cfg, s, intent, sub);
      && step.outcome.decision == Denied
      && step.state.records == s.records[Digest(intent) := s.records[Digest(intent)].(used := true)]
  {
  }

  /** Only a completed quorum grants, and its authorization is then the last thing in the history. */
  lemma {:induction false} GrantIsFresh(cfg: Config, s: GateState, intent: ActionIntent, sub: Submission)
    ensures Submitted(cfg, s, intent, sub).outcome.decision == Granted ==>
      IsGrant(Submitted(cfg, s, intent, sub), intent)
  {
    if NeedsApproval(cfg, intent) {
      var d, action := Digest(intent), cfg.actions[intent.actionId];
      var first := OpenFor(s, intent, action, Classify(action.risk), sub.opening, sub.challenge);
      var o := if d in s.records then s else first.state;
      if d in o.records && o.records[d].Open(sub.now) {
        AttemptCounts(o, intent, Classify(action.risk), sub.decision);
      }
    }
  }

  // ---- Sequences of submissions ------------------------------------------------------------

  function SubmitAll(cfg: Config, s: GateState, intent: ActionIntent, subs: seq<Submission>): GateState {
    if subs == [] then s
    else Submitted(cfg, SubmitAll(cfg, s, intent, subs[..|subs| - 1]), intent, subs[|subs| - 1]).state
  }

  lemma {:induction false} SubmitAllSound(cfg: Config, s: GateState, intent: ActionIntent, subs: seq<Submission>)
    requires Sound(cfg, s)
    ensures SoundStep(cfg, s, SubmitAll(cfg, s, intent, subs))
  {
    if subs != [] {
      var before := SubmitAll(cfg, s, intent, subs[..|subs| - 1]);
      SubmitAllSound(cfg, s, intent, subs[..|subs| - 1]);
      SubmittedSound(cfg, before, intent, subs[|subs| - 1]);
      StepsCompose(cfg, s, before, SubmitAll(cfg, s, intent, subs));
    }
  }

  lemma {:induction false} SubmitAllAfter(cfg: Config, s: GateState, intent: ActionIntent, a: seq<Submission>,
                                          b: seq<Submission>)
    ensures SubmitAll(cfg, s, intent, a + b) == SubmitAll(cfg, SubmitAll(cfg, s, intent, a), intent, b)
    decreases |b|
  {
    if b == [] {
      assert a + b == a;
    } else {
      assert (a + b)[..|a + b| - 1] == a + b[..|b| - 1];
      SubmitAllAfter(cfg, s, intent, a, b[..|b| - 1]);
    }
  }

  /** The eligible principal an assertion vouches for. */
  function VouchedFor(sub: Submission, eligible: set<string>): set<string> {
    if sub.decision.approved && sub.decision.principal.Some? && sub.decision.principal.value in eligible
    then {sub.decision.principal.value} else {}
  }

  /** The eligible principals the verifier vouched for. */
  function Vouchers(subs: seq<Submission>, eligible: set<string>): set<string> {
    if subs == [] then {} else Vouchers(subs[..|subs| - 1], eligible) + VouchedFor(subs[|subs| - 1], eligible)
  }

  function AtLeastOne(quorum: int): int {
    if quorum < 1 then 1 else quorum
  }

  ghost predicate NeverExpires(pa: PendingApproval, subs: seq<Submission>) {
    forall i :: 0 <= i < |subs| ==> !pa.IsExpired(subs[i].now)
  }

  /** The record of `pa` after submissions whose eligible approvers are `vouchers`. */
  ghost predicate HoldsVouchers(pa: PendingApproval, after: PendingApproval, vouchers: set<string>) {
    && after == pa.(used := after.used, approvers := after.approvers)
    && (after.used <==> |vouchers| >= AtLeastOne(pa.terms.quorum))
    && (!after.used ==> after.approvers == vouchers)
  }

  /** The next submission, when the record holds the approvers vouched for so far. */
  lemma NextSubmission(cfg: Config, s: GateState, intent: ActionIntent, sub: Submission, pa: PendingApproval,
                       had: set<string>)
    requires NeedsApproval(cfg, intent) && Digest(intent) in s.records && !pa.IsExpired(sub.now)
    requires HoldsVouchers(pa, s.records[Digest(intent)], had)
    ensures var quorum, has := AtLeastOne(pa.terms.quorum), had + VouchedFor(sub, pa.terms.eligible);
      var step := Submitted(cfg, s, intent, sub);
      && Digest(intent) in step.state.records && HoldsVouchers(pa, step.state.records[Digest(intent)], has)
      && (step.outcome.decision == Granted <==> |had| < quorum <= |has|)
      && (step.outcome.decision == ApprovalRequired <==> |has| < quorum)
      && (step.outcome.decision == Denied <==> quorum <= |had|)
  {
    SubsetSize(had, had + VouchedFor(sub, pa.terms.eligible));
    if s.records[Digest(intent)].used {
      SubmittedToClosed(cfg, s, intent, sub);
    } else {
      SubmittedToOpen(cfg, s, intent, sub);
    }
  }

  /** From a newly opened record that does not expire meanwhile: as long as fewer distinct
  eligible approvers than the quorum asks for were vouched for, the record stays open and holds
  exactly them; afterwards it is used up. */
  lemma {:induction false} RecordHoldsVouchers(cfg: Config, s: GateState, intent: ActionIntent, subs: seq<Submission>)
    requires NeedsApproval(cfg, intent) && Digest(intent) in s.records
    requires var pa := s.records[Digest(intent)]; !pa.used && pa.approvers == {} && NeverExpires(pa, subs)
    ensures var pa, after := s.records[Digest(intent)], SubmitAll(cfg, s, intent, subs).records;
      Digest(intent) in after && HoldsVouchers(pa, after[Digest(intent)], Vouchers(subs, pa.terms.eligible))
  {
    if subs != [] {
      var pa, init := s.records[Digest(intent)], subs[..|subs| - 1];
      RecordHoldsVouchers(cfg, s, intent, init);
      NextSubmission(cfg, SubmitAll(cfg, s, intent, init), intent, subs[|subs| - 1], pa,
                     Vouchers(init, pa.terms.eligible));
    }
  }

  /** The quorum rule: of any sequence of submissions to a newly opened record, exactly the one
  that completes the quorum of distinct, eligible, vouched-for approvers is granted; those before
  it wait, and those after it are denied. */
  lemma QuorumRule(cfg: Config, s: GateState, intent: ActionIntent, subs: seq<Submission>, k: nat)
    requires NeedsApproval(cfg, intent) && Digest(intent) in s.records && k < |subs|
    requires var pa := s.records[Digest(intent)]; !pa.used && pa.approvers == {} && NeverExpires(pa, subs)
    ensures var pa := s.records[Digest(intent)];
      var quorum := AtLeastOne(pa.terms.quorum);
      var had, has := |Vouchers(subs[..k], pa.terms.eligible)|, |Vouchers(subs[..k + 1], pa.terms.eligible)|;
      var decision := Submitted(cfg, SubmitAll(cfg, s, intent, subs[..k]), intent, subs[k]).outcome.decision;
      && (decision == Granted <==> had < quorum <= has)
      && (decision == ApprovalRequired <==> has < quorum)
      && (decision == Denied <==> quorum <= had)
  {
    var pa := s.records[Digest(intent)];
    RecordHoldsVouchers(cfg, s, intent, subs[..k]);
    assert subs[..k + 1][..k] == subs[..k] && subs[..k + 1][k] == subs[k];
    assert !pa.IsExpired(subs[k].now);
    NextSubmission(cfg, SubmitAll(cfg, s, intent, subs[..k]), intent, subs[k], pa,
                   Vouchers(subs[..k], pa.terms.eligible));
  }

  // ---- Which requests for approval can be met ----------------------------------------------

  /** The last of the submissions is granted. */
  ghost predicate Grants(cfg: Config, s: GateState, intent: ActionIntent, subs: seq<Submission>) {
    subs != [] &&
    Submitted(cfg, SubmitAll(cfg, s, intent, subs[..|subs| - 1]), intent, subs[|subs| - 1]).outcome.decision == Granted
  }

  ghost predicate CanBeGranted(cfg: Config, s: GateState, intent: ActionIntent) {
    exists subs :: Grants(cfg, s, intent, subs)
  }

  /** Submissions never change what a record asks for, and count eligible approvers only. */
  lemma {:induction false} TermsAreKept(cfg: Config, s: GateState, intent: ActionIntent, subs: seq<Submission>)
    requires NeedsApproval(cfg, intent) && Digest(intent) in s.records
    requires s.records[Digest(intent)].approvers <= s.records[Digest(intent)].terms.eligible
    ensures var d, after := Digest(intent), SubmitAll(cfg, s, intent, subs).records;
            d in after && after[d].terms == s.records[d].terms && after[d].approvers <= after[d].terms.eligible
  {
    if subs != [] {
      var init, last := subs[..|subs| - 1], subs[|subs| - 1];
      TermsAreKept(cfg, s, intent, init);
      var before := SubmitAll(cfg, s, intent, init);
      if before.records[Digest(intent)].Open(last.now) {
        SubmittedToOpen(cfg, before, intent, last);
      } else {
        SubmittedToClosed(cfg, before, intent, last);
      }
    }
  }

  /** Nothing is granted but to as many eligible approvers as the record asks for. */
  lemma {:induction false} GrantNeedsEligible(cfg: Config, s: GateState, intent: ActionIntent, subs: seq<Submission>)
    requires Digest(intent) in s.records
    requires s.records[Digest(intent)].approvers <= s.records[Digest(intent)].terms.eligible
    requires Grants(cfg, s, intent, subs)
    ensures NeedsApproval(cfg, intent)
    ensures s.records[Digest(intent)].terms.quorum <= |s.records[Digest(intent)].terms.eligible|
  {
    var init, last := subs[..|subs| - 1], subs[|subs| - 1];
    assert NeedsApproval(cfg, intent);
    TermsAreKept(cfg, s, intent, init);
    var before := SubmitAll(cfg, s, intent, init);
    var pa := before.records[Digest(intent)];
    if pa.Open(last.now) {
      SubmittedToOpen(cfg, before, intent, last);
      SubsetSize(pa.approvers + {last.decision.principal.value}, pa.terms.eligible);
    } else {
      SubmittedToClosed(cfg, before, intent, last);
    }
  }

  function Approves(principal: string, now: real): Submission {
    Submission(now, now, 0, Decision(true, Some(principal)))
  }

  /** Each of the submissions adds an approver. */
  ghost predicate EachCounts(subs: seq<Submission>, eligible: set<string>) {
    forall n :: 0 <= n <= |subs| ==> |Vouchers(subs[..n], eligible)| == n
  }

  /** Everyone eligible approves, in some order, until the quorum is complete. */
  lemma {:induction false} Everyone(people: set<string>, eligible: set<string>, now: real)
    returns (subs: seq<Submission>)
    requires people <= eligible
    ensures |subs| == |people| && Vouchers(subs, eligible) == people && EachCounts(subs, eligible)
    ensures forall i :: 0 <= i < |subs| ==> subs[i].now == now
  {
    subs := [];
    if people != {} {
      var p :| p in people;
      var others := Everyone(people - {p}, eligible, now);
      subs := others + [Approves(p, now)];
      OneMore(others, p, eligible, now);
      assert people == (people - {p}) + {p};
    }
  }

  lemma OneMore(others: seq<Submission>, p: string, eligible: set<string>, now: real)
    requires p in eligible && p !in Vouchers(others, eligible) && EachCounts(others, eligible)
    ensures var subs := others + [Approves(p, now)];
      Vouchers(subs, eligible) == Vouchers(others, eligible) + {p} && EachCounts(subs, eligible)
  {
    var subs := others + [Approves(p, now)];
    assert subs[..|subs| - 1] == others && VouchedFor(Approves(p, now), eligible) == {p};
    assert others[..|others|] == others;
    forall k | 0 <= k <= |subs| ensures |Vouchers(subs[..k], eligible)| == k {
      if k < |subs| {
        assert subs[..k] == others[..k];
      } else {
        assert subs[..k] == subs;
      }
    }
  }

  /** When enough principals are eligible, there are submissions that complete the quorum. */
  lemma QuorumCanBeMet(cfg: Config, s: GateState, intent: ActionIntent, now: real) returns (subs: seq<Submission>)
    requires NeedsApproval(cfg, intent) && Digest(intent) in s.records
    requires var pa := s.records[Digest(intent)];
             pa.Open(now) && pa.approvers == {} && pa.terms.eligible != {} && pa.terms.quorum <= |pa.terms.eligible|
    ensures Grants(cfg, s, intent, subs)
  {
    var pa := s.records[Digest(intent)];
    var all := Everyone(pa.terms.eligible, pa.terms.eligible, now);
    var quorum := AtLeastOne(pa.terms.quorum);
    QuorumRule(cfg, s, intent, all, quorum - 1);
    subs := all[..quorum];
    assert subs[..quorum - 1] == all[..quorum - 1];
  }

  /** A new request for approval can be met exactly when the action belongs to an approval tier and
  enough principals are eligible. So an A1 intent that exceeds its bounds opens a request that no
  approval can ever meet. */
  lemma ApprovableIff(cfg: Config, s: GateState, intent: ActionIntent, now: real, challenge: Challenge)
    requires Sound(cfg, s) && Decided(cfg, s, intent, now, challenge).outcome.decision == ApprovalRequired
    requires !Reusable(s.records, Digest(intent), now)
    ensures CanBeGranted(cfg, Decided(cfg, s, intent, now, challenge).state, intent) <==> cfg.Approvable(Digest(intent))
  {
    var d, after := Digest(intent), Decided(cfg, s, intent, now, challenge).state;
    NewRecord(cfg, s, intent, now, challenge);
    if CanBeGranted(cfg, after, intent) {
      var subs: seq<Submission> :| Grants(cfg, after, intent, subs);
      GrantNeedsEligible(cfg, after, intent, subs);
    }
    if cfg.Approvable(d) {
      var subs := QuorumCanBeMet(cfg, after, intent, now + Ttl(cfg.actions[intent.actionId]));
    }
  }

  /** The record a decision opens. */
  lemma NewRecord(cfg: Config, s: GateState, intent: ActionIntent, now: real, challenge: Challenge)
    requires Sound(cfg, s) && Decided(cfg, s, intent, now, challenge).outcome.decision == ApprovalRequired
    requires !Reusable(s.records, Digest(intent), now)
    ensures var d, records := Digest(intent), Decided(cfg, s, intent, now, challenge).state.records;
      && intent.actionId in cfg.actions && d in records
      && records[d] == Fresh(d, TermsFor(cfg, d), Ttl(cfg.actions[intent.actionId]), now, challenge)
      && cfg.Eligible(d) != {} && (cfg.TierOf(d) == Some(A3) ==> cfg.Quorum(d) >= 2)
  {
    var own := Classify(cfg.actions[intent.actionId].risk);
    OpenForNew(cfg, s, intent, if own == A1 then A2 else own, now, challenge);
  }

  lemma OpenForNew(cfg: Config, s: GateState, intent: ActionIntent, tier: Tier, now: real, challenge: Challenge)
    requires Sound(cfg, s) && intent.actionId in cfg.actions
    requires var own := Classify(cfg.actions[intent.actionId].risk); tier == if own == A1 then A2 else own
    requires OpenFor(s, intent, cfg.actions[intent.actionId], tier, now, challenge).outcome.decision == ApprovalRequired
    requires !Reusable(s.records, Digest(intent), now)
    ensures var action, d := cfg.actions[intent.actionId], Digest(intent);
      var records := OpenFor(s, intent, action, tier, now, challenge).state.records;
      && d in records && records[d] == Fresh(d, TermsFor(cfg, d), Ttl(action), now, challenge)
      && cfg.Eligible(d) != {} && (tier == A3 ==> cfg.Quorum(d) >= 2)
  {
    OpenedAlike(cfg, s, s.store, Digest(intent), Ttl(cfg.actions[intent.actionId]), now, challenge);
  }

  // ---- From a store that has lost its records ----------------------------------------------

  /** The gateway of a new process whose approval store starts empty. */
  function Restarted(tr: Trace): GateState {
    GateState(map[], map[], Then(tr, Restart(false)), InMemory)
  }

  lemma RestartedSound(cfg: Config, tr: Trace)
    requires Legal(cfg, tr) && cfg.Keyed()
    ensures Sound(cfg, Restarted(tr))
  {
    NoAutos(tr);
    forall d ensures RecordMatches(cfg, map[], Restarted(tr).trace, d) {}
  }

  lemma NoAutos(tr: Trace)
    ensures forall a :: Autos(Restarted(tr).trace, a) == 0
  {
  }

  /** The first attempt opens the record and is turned down. */
  function TurnedDown(cfg: Config, intent: ActionIntent): Submission {
    var ttl := if intent.actionId in cfg.actions then Ttl(cfg.actions[intent.actionId]) else 0.0;
    Submission(0.0, ttl, 0, Decision(false, None))
  }

  lemma OpenedByAttempt(cfg: Config, s: GateState, intent: ActionIntent)
    requires cfg.Approvable(Digest(intent)) && s.store == InMemory && Digest(intent) !in s.records
    ensures var d, ttl := Digest(intent), Ttl(cfg.actions[intent.actionId]);
      var open := Submitted(cfg, s, intent, TurnedDown(cfg, intent)).state;
      d in open.records && open.records[d] == Fresh(d, TermsFor(cfg, d), ttl, 0.0, 0)
  {
  }

  /** Whatever happened before, in a process whose approval store starts empty an approvable action
  can be authorized by submissions alone. */
  lemma CanAuthorize(cfg: Config, tr: Trace, intent: ActionIntent) returns (subs: seq<Submission>)
    requires Legal(cfg, tr) && cfg.Keyed() && cfg.Approvable(Digest(intent))
    ensures Grants(cfg, Restarted(tr), intent, subs)
  {
    var s, first := Restarted(tr), [TurnedDown(cfg, intent)];
    OpenedByAttempt(cfg, s, intent);
    assert first[..0] == [] && SubmitAll(cfg, s, intent, []) == s;
    var after := SubmitAll(cfg, s, intent, first);
    var more := QuorumCanBeMet(cfg, after, intent, Ttl(cfg.actions[intent.actionId]));
    subs := first + more;
    assert subs[..|subs| - 1] == first + more[..|more| - 1];
    SubmitAllAfter(cfg, s, intent, first, more[..|more| - 1]);
  }

  // ---- Sequences of decisions --------------------------------------------------------------

  datatype Request = Request(intent: ActionIntent, now: real, challenge: Challenge)

  function DecideAll(cfg: Config, s: GateState, requests: seq<Request>): GateState {
    if requests == [] then s
    else
      var before, last := DecideAll(cfg, s, requests[..|requests| - 1]), requests[|requests| - 1];
      Decided(cfg, before, last.intent, last.now, last.challenge).state
  }

  lemma {:induction false} DecideAllSound(cfg: Config, s: GateState, requests: seq<Request>)
    requires Sound(cfg, s)
    ensures SoundStep(cfg, s, DecideAll(cfg, s, requests))
  {
    if requests != [] {
      var before, last := DecideAll(cfg, s, requests[..|requests| - 1]), requests[|requests| - 1];
      DecideAllSound(cfg, s, requests[..|requests| - 1]);
      DecidedSound(cfg, before, last.intent, last.now, last.challenge);
      StepsCompose(cfg, s, before, DecideAll(cfg, s, requests));
    }
  }

  predicate AutoUse(cfg: Config, s: GateState, r: Request, actionId: string) {
    var outcome := Decided(cfg, s, r.intent, r.now, r.challenge).outcome;
    outcome.decision == AutoAuthorized && outcome.tier == A1 && r.intent.actionId == actionId
  }

  /** How many of the requests were authorized automatically as A1 uses of an action. */
  function AutoCount(cfg: Config, s: GateState, requests: seq<Request>, actionId: string): nat {
    if requests == [] then 0
    else
      var init, last := requests[..|requests| - 1], requests[|requests| - 1];
      AutoCount(cfg, s, init, actionId) + if AutoUse(cfg, DecideAll(cfg, s, init), last, actionId) then 1 else 0
  }

  lemma AutoCounts(cfg: Config, s: GateState, r: Request, action: Action, tier: Tier)
    requires tier in AUTO_TIERS
    ensures var step, count := AutoFor(cfg, s, r.intent, action, tier, r.now, r.challenge), CallsOf(s.calls, action.id);
      && (step.outcome.decision == AutoAuthorized && step.outcome.tier == A1 ==>
            && step.state.calls == s.calls[action.id := count + 1]
            && (action.id in cfg.bounds ==> cfg.bounds[action.id].Within(r.intent.amount, count)))
      && (!(step.outcome.decision == AutoAuthorized && step.outcome.tier == A1) ==> step.state.calls == s.calls)
  {
  }

  lemma DecideCounts(cfg: Config, s: GateState, r: Request, actionId: string)
    requires cfg.Keyed()
    ensures var after, count := Decided(cfg, s, r.intent, r.now, r.challenge).state.calls, CallsOf(s.calls, actionId);
      && CallsOf(after, actionId) == count + (if AutoUse(cfg, s, r, actionId) then 1 else 0)
      && (AutoUse(cfg, s, r, actionId) && actionId in cfg.bounds ==>
           cfg.bounds[actionId].Within(r.intent.amount, count))
  {
    if r.intent.actionId in cfg.actions {
      var action := cfg.actions[r.intent.actionId];
      if action.tool == r.intent.tool && Classify(action.risk) in AUTO_TIERS {
        AutoCounts(cfg, s, r, action, Classify(action.risk));
      }
    }
  }

  /** Over any sequence of decisions by one gateway, an action's counter is the number of its
  automatic A1 authorizations, and that never exceeds its bound. */
  lemma {:induction false} CounterIsAutoCount(cfg: Config, s: GateState, requests: seq<Request>, actionId: string)
    requires cfg.Keyed() && s.calls == map[]
    ensures CallsOf(DecideAll(cfg, s, requests).calls, actionId) == AutoCount(cfg, s, requests, actionId)
    ensures actionId in cfg.bounds && cfg.bounds[actionId].maxCalls.Some? ==>
      var count := AutoCount(cfg, s, requests, actionId);
      count == 0 || count <= cfg.bounds[actionId].maxCalls.value
  {
    if requests != [] {
      var init, last := requests[..|requests| - 1], requests[|requests| - 1];
      CounterIsAutoCount(cfg, s, init, actionId);
      DecideCounts(cfg, DecideAll(cfg, s, init), last, actionId);
    }
  }
}
