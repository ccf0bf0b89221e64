/** What an approval record that is used up, expired or full takes to be of use again, on either store
(`comcmd/gateway/gate.py`, `comcmd/gateway/approvals.py`). The clock never runs backwards here. */
module Renewals {
  import opened Records
  import opened Approvals
  import opened Protocol
  import opened Theorems
  import opened Gateways
  import opened GateHistories
  import opened GateRuns
  import opened GateStores

  // ---- Records that are of no use ----------------------------------------------------------

  /** No assertion at `now` or later can complete a quorum on the record of `d`: it is used up,
  expired, or everyone eligible is counted already. */
  predicate Spent(rs: ByDigest, d: Digest, now: real) {
    d in rs && (rs[d].used || rs[d].IsExpired(now) || rs[d].terms.eligible <= rs[d].approvers)
  }

  /** No record was opened after `now`. */
  ghost predicate Past(rs: ByDigest, now: real) {
    forall d <- rs :: rs[d].createdAt <= now
  }

  /** A new record does not expire the moment it is opened. */
  predicate Lives(cfg: Config, d: Digest) {
    d.of.actionId in cfg.actions && Ttl(cfg.actions[d.of.actionId]) >= 0.0
  }

  /** `decide` does not turn the intent down for its tool. */
  predicate RightTool(cfg: Config, d: Digest) {
    d.of.actionId in cfg.actions && cfg.actions[d.of.actionId].tool == d.of.tool
  }

  function NewRecordOf(cfg: Config, d: Digest, now: real): PendingApproval
    requires d.of.actionId in cfg.actions
  {
    Fresh(d, TermsFor(cfg, d), Ttl(cfg.actions[d.of.actionId]), now, 0)
  }

  predicate SameAt(a: ByDigest, b: ByDigest, d: Digest) {
    (d in a <==> d in b) && (d in a ==> a[d] == b[d])
  }

  lemma AttemptSpent(s: GateState, intent: ActionIntent, tier: Tier, decision: Decision)
    requires Digest(intent) in s.records
    requires s.records[Digest(intent)].terms.eligible <= s.records[Digest(intent)].approvers
    ensures Attempt(s, intent, tier, decision).outcome.decision != Granted
    ensures Attempt(s, intent, tier, decision).state.records == s.records
  {
  }

  /** A submission grants nothing on a spent record, and leaves it spent. */
  lemma SpentStays(cfg: Config, s: GateState, intent: ActionIntent, sub: Submission, since: real)
    requires Spent(s.records, Digest(intent), since) && since <= sub.now
    ensures Submitted(cfg, s, intent, sub).outcome.decision != Granted
    ensures Spent(Submitted(cfg, s, intent, sub).state.records, Digest(intent), since)
  {
    if NeedsApproval(cfg, intent) && s.records[Digest(intent)].Open(sub.now) {
      AttemptSpent(s, intent, Classify(cfg.actions[intent.actionId].risk), sub.decision);
    }
  }

  lemma AttemptElsewhere(s: GateState, intent: ActionIntent, tier: Tier, decision: Decision, d: Digest)
    requires Digest(intent) in s.records && d != Digest(intent)
    ensures SameAt(s.records, Attempt(s, intent, tier, decision).state.records, d)
  {
  }

  lemma OpenElsewhere(s: GateState, intent: ActionIntent, action: Action, tier: Tier, now: real, challenge: Challenge,
                      d: Digest)
    requires d != Digest(intent)
    ensures SameAt(s.records, OpenFor(s, intent, action, tier, now, challenge).state.records, d)
  {
  }

  /** Gateway calls for one intent leave the records of others alone. */
  lemma SubmittedElsewhere(cfg: Config, s: GateState, intent: ActionIntent, sub: Submission, d: Digest)
    requires d != Digest(intent)
    ensures SameAt(s.records, Submitted(cfg, s, intent, sub).state.records, d)
  {
    if NeedsApproval(cfg, intent) {
      var action := cfg.actions[intent.actionId];
      var tier := Classify(action.risk);
      OpenElsewhere(s, intent, action, tier, sub.opening, sub.challenge, d);
      var begun := if Digest(intent) in s.records then s
                   else OpenFor(s, intent, action, tier, sub.opening, sub.challenge).state;
      if Digest(intent) in begun.records {
        AttemptElsewhere(begun, intent, tier, sub.decision, d);
      }
    }
  }

  lemma DecidedElsewhere(cfg: Config, s: GateState, intent: ActionIntent, now: real, challenge: Challenge, d: Digest)
    requires d != Digest(intent)
    ensures SameAt(s.records, Decided(cfg, s, intent, now, challenge).state.records, d)
  {
    if intent.actionId in cfg.actions {
      var action := cfg.actions[intent.actionId];
      OpenElsewhere(s, intent, action, A2, now, challenge, d);
      OpenElsewhere(s, intent, action, Classify(action.risk), now, challenge, d);
    }
  }

  lemma DecidedWrongTool(cfg: Config, s: GateState, d: Digest, now: real, challenge: Challenge)
    requires !RightTool(cfg, d)
    ensures Decided(cfg, s, d.of, now, challenge).state.records == s.records
  {
  }

  /** What a decision at `now` does to the record of `d`: one of use stays, another is replaced by a
  new one when the decision is about `d`, and none appears otherwise. */
  ghost predicate Renewed(cfg: Config, before: ByDigest, after: ByDigest, d: Digest, now: real, renews: bool)
    requires d.of.actionId in cfg.actions
  {
    && (Reusable(before, d, now) || !renews ==> SameAt(before, after, d))
    && (!Reusable(before, d, now) && renews ==> d in after && after[d] == NewRecordOf(cfg, d, now))
  }

  lemma DecidedRenews(cfg: Config, s: GateState, intent: ActionIntent, d: Digest, now: real)
    requires Sound(cfg, s) && cfg.Approvable(d) && RightTool(cfg, d)
    ensures Renewed(cfg, s.records, Decided(cfg, s, intent, now, 0).state.records, d, now, intent == d.of)
  {
    if intent == d.of {
      OpenedAlike(cfg, s, s.store, d, Ttl(cfg.actions[d.of.actionId]), now, 0);
    } else {
      DecidedElsewhere(cfg, s, intent, now, 0, d);
    }
  }

  // ---- Approvers one by one ----------------------------------------------------------------

  /** Turned down: it only sees to it that there is a record. */
  function Rejects(now: real): Submission {
    Submission(now, now, 0, Decision(false, None))
  }

  lemma RejectedOpens(cfg: Config, s: GateState, d: Digest, now: real)
    requires Sound(cfg, s) && cfg.Approvable(d) && (d in s.records ==> s.records[d].Open(now)) && Lives(cfg, d)
    ensures var step := Submitted(cfg, s, d.of, Rejects(now));
      && step.outcome.decision != Granted && d in step.state.records
      && step.state.records[d] == if d in s.records then s.records[d] else NewRecordOf(cfg, d, now)
  {
    if d !in s.records {
      OpenedAlike(cfg, s, s.store, d, Ttl(cfg.actions[d.of.actionId]), now, 0);
    }
  }

  /** One more eligible approver: the quorum is complete, or the record stays open with it. */
  lemma OneMoreApproves(cfg: Config, s: GateState, d: Digest, p: string, now: real)
    requires NeedsApproval(cfg, d.of) && d in s.records && s.records[d].Open(now)
    requires p in s.records[d].terms.eligible && p !in s.records[d].approvers
    ensures var pa, step := s.records[d], Submitted(cfg, s, d.of, Approves(p, now));
      && (|pa.approvers| + 1 >= pa.terms.quorum ==> IsGrant(step, d.of))
      && (|pa.approvers| + 1 < pa.terms.quorum ==>
            && step.outcome.decision != Granted
            && step.state.records == s.records[d := pa.(approvers := pa.approvers + {p})])
  {
    SubmittedToOpen(cfg, s, d.of, Approves(p, now));
  }

  /** The record waits for someone who can still approve. */
  predicate AwaitsOne(rs: ByDigest, d: Digest, now: real) {
    d in rs && rs[d].Open(now) && rs[d].approvers < rs[d].terms.eligible
  }

  // ---- Time --------------------------------------------------------------------------------

  lemma PastLater(rs: ByDigest, from: real, to: real)
    requires Past(rs, from) && from <= to
    ensures Past(rs, to)
  {
  }

  lemma OpenPast(s: GateState, intent: ActionIntent, action: Action, tier: Tier, now: real, challenge: Challenge,
                 to: real)
    requires Past(s.records, to) && now <= to
    ensures Past(OpenFor(s, intent, action, tier, now, challenge).state.records, to)
  {
  }

  lemma DecidedPast(cfg: Config, s: GateState, r: Request, to: real)
    requires Past(s.records, to) && r.now <= to
    ensures Past(Decided(cfg, s, r.intent, r.now, r.challenge).state.records, to)
  {
    if r.intent.actionId in cfg.actions {
      var action := cfg.actions[r.intent.actionId];
      OpenPast(s, r.intent, action, A2, r.now, r.challenge, to);
      OpenPast(s, r.intent, action, Classify(action.risk), r.now, r.challenge, to);
    }
  }

  lemma AttemptPast(s: GateState, intent: ActionIntent, tier: Tier, decision: Decision, to: real)
    requires Past(s.records, to) && Digest(intent) in s.records
    ensures Past(Attempt(s, intent, tier, decision).state.records, to)
  {
  }

  lemma SubmittedPast(cfg: Config, s: GateState, intent: ActionIntent, sub: Submission, to: real)
    requires Past(s.records, to) && sub.opening <= to
    ensures Past(Submitted(cfg, s, intent, sub).state.records, to)
  {
    if NeedsApproval(cfg, intent) {
      var action := cfg.actions[intent.actionId];
      var tier := Classify(action.risk);
      OpenPast(s, intent, action, tier, sub.opening, sub.challenge, to);
      var begun := if Digest(intent) in s.records then s
                   else OpenFor(s, intent, action, tier, sub.opening, sub.challenge).state;
      if Digest(intent) in begun.records {
        AttemptPast(begun, intent, tier, sub.decision, to);
      }
    }
  }

  /** A record that has expired when it is opened is never granted. */
  lemma ShortLived(cfg: Config, s: GateState, intent: ActionIntent, sub: Submission)
    requires Sound(cfg, s) && Past(s.records, sub.opening) && sub.opening <= sub.now && !Lives(cfg, Digest(intent))
    ensures Submitted(cfg, s, intent, sub).outcome.decision != Granted
  {
    if NeedsApproval(cfg, intent) {
      var d, action := Digest(intent), cfg.actions[intent.actionId];
      if d in s.records {
        assert RecordMatches(cfg, s.records, s.trace, d);
      } else {
        OpenedAlike(cfg, s, s.store, d, Ttl(action), sub.opening, sub.challenge);
      }
    }
  }

  /** A time from `since` on at which the record is not in use. */
  function IdleTime(rs: ByDigest, d: Digest, since: real): (r: real)
    ensures r >= since && !Reusable(rs, d, r)
  {
    if Reusable(rs, d, since) then rs[d].createdAt + rs[d].ttl + 1.0 else since
  }

  // ---- Which intents the gateway can be brought to grant -----------------------------------

  predicate CallWithin(call: GateCall, from: real, to: real) {
    match call
    case DecideCall(r) => from <= r.now <= to
    case SubmitCall(_, sub) => from <= sub.opening <= sub.now <= to
  }

  /** The clock goes from `since` to `until` over the calls. */
  ghost predicate Clocked(calls: seq<GateCall>, since: real, until: real) {
    if calls == [] then since <= until
    else
      var init, last := calls[..|calls| - 1], calls[|calls| - 1];
      exists mid :: Clocked(init, since, mid) && CallWithin(last, mid, until)
  }

  lemma {:induction false} ClockedAt(calls: seq<GateCall>, since: real, now: real)
    requires since <= now && forall i :: 0 <= i < |calls| ==> CallWithin(calls[i], now, now)
    ensures Clocked(calls, since, now)
  {
    if calls != [] {
      ClockedAt(calls[..|calls| - 1], since, now);
    }
  }

  /** The last call submits an assertion for the intent, and it is granted. */
  ghost predicate GrantsLast(cfg: Config, s: GateState, intent: ActionIntent, calls: seq<GateCall>) {
    calls != [] &&
    var before, last := CallAll(cfg, s, calls[..|calls| - 1]), calls[|calls| - 1];
    last.SubmitCall? && last.intent == intent && Submitted(cfg, before, intent, last.sub).outcome.decision == Granted
  }

  ghost predicate CanGrant(cfg: Config, s: GateState, intent: ActionIntent, since: real) {
    exists calls, until :: Clocked(calls, since, until) && GrantsLast(cfg, s, intent, calls)
  }

  lemma {:induction false} CallsPast(cfg: Config, s: GateState, calls: seq<GateCall>, since: real, until: real)
    requires Past(s.records, since) && Clocked(calls, since, until)
    ensures since <= until && Past(CallAll(cfg, s, calls).records, until)
  {
    if calls != [] {
      var init, last := calls[..|calls| - 1], calls[|calls| - 1];
      var before := CallAll(cfg, s, init);
      var mid :| Clocked(init, since, mid) && CallWithin(last, mid, until);
      CallsPast(cfg, s, init, since, mid);
      PastLater(before.records, mid, until);
      match last
      case DecideCall(r) => DecidedPast(cfg, before, r, until);
      case SubmitCall(intent, sub) => SubmittedPast(cfg, before, intent, sub, until);
    }
  }

  lemma CallStaysSpent(cfg: Config, s: GateState, d: Digest, call: GateCall, since: real, from: real, to: real)
    requires Spent(s.records, d, since) && !RightTool(cfg, d) && since <= from && CallWithin(call, from, to)
    ensures Spent(Called(cfg, s, call).state.records, d, since)
  {
    match call
    case DecideCall(r) =>
      if r.intent == d.of {
        DecidedWrongTool(cfg, s, d, r.now, r.challenge);
      } else {
        DecidedElsewhere(cfg, s, r.intent, r.now, r.challenge, d);
      }
    case SubmitCall(intent, sub) =>
      if intent == d.of {
        SpentStays(cfg, s, intent, sub, since);
      } else {
        SubmittedElsewhere(cfg, s, intent, sub, d);
      }
  }

  lemma {:induction false} CallsStaySpent(cfg: Config, s: GateState, d: Digest, calls: seq<GateCall>, since: real,
                                          until: real)
    requires Spent(s.records, d, since) && !RightTool(cfg, d) && Clocked(calls, since, until)
    ensures since <= until && Spent(CallAll(cfg, s, calls).records, d, since)
  {
    if calls != [] {
      var init, last := calls[..|calls| - 1], calls[|calls| - 1];
      var mid :| Clocked(init, since, mid) && CallWithin(last, mid, until);
      CallsStaySpent(cfg, s, d, init, since, mid);
      CallStaysSpent(cfg, CallAll(cfg, s, init), d, last, since, mid, until);
    }
  }

  lemma GrantedNeeds(cfg: Config, s: GateState, d: Digest, calls: seq<GateCall>, since: real, until: real)
    requires Sound(cfg, s) && Past(s.records, since) && Clocked(calls, since, until) && GrantsLast(cfg, s, d.of, calls)
    ensures cfg.Approvable(d) && Lives(cfg, d) && (Spent(s.records, d, since) ==> RightTool(cfg, d))
  {
    var init, last := calls[..|calls| - 1], calls[|calls| - 1];
    var before := CallAll(cfg, s, init);
    var mid :| Clocked(init, since, mid) && CallWithin(last, mid, until);
    CallAllSound(cfg, s, init);
    CallsPast(cfg, s, init, since, mid);
    GrantIsFresh(cfg, before, d.of, last.sub);
    SubmittedSound(cfg, before, d.of, last.sub);
    var granted := Submitted(cfg, before, d.of, last.sub).state.trace;
    ApprovalIsQuorate(cfg, granted.before, granted.act, d);
    if !Lives(cfg, d) {
      ShortLived(cfg, before, d.of, last.sub);
    }
    if Spent(s.records, d, since) && !RightTool(cfg, d) {
      CallsStaySpent(cfg, s, d, init, since, mid);
      SpentStays(cfg, before, d.of, last.sub, since);
    }
  }

  lemma {:induction false} CallsAfter(cfg: Config, s: GateState, a: seq<GateCall>, b: seq<GateCall>)
    ensures CallAll(cfg, s, a + b) == CallAll(cfg, CallAll(cfg, s, a), b)
    decreases |b|
  {
    if b == [] {
      assert a + b == a;
    } else {
      assert (a + b)[..|a + b| - 1] == a + b[..|b| - 1];
      CallsAfter(cfg, s, a, b[..|b| - 1]);
    }
  }

  lemma GrantsAfter(cfg: Config, s: GateState, intent: ActionIntent, first: GateCall, more: seq<GateCall>)
    requires GrantsLast(cfg, Called(cfg, s, first).state, intent, more)
    ensures GrantsLast(cfg, s, intent, [first] + more)
  {
    var calls, init := [first] + more, more[..|more| - 1];
    assert [first][..0] == [] && CallAll(cfg, s, [first]) == Called(cfg, s, first).state;
    assert calls[..|calls| - 1] == [first] + init;
    CallsAfter(cfg, s, [first], init);
  }

  /** A record that waits for someone can be granted on the spot. */
  lemma {:induction false} WaitingGrants(cfg: Config, s: GateState, d: Digest, now: real) returns (calls: seq<GateCall>)
    requires Sound(cfg, s) && cfg.Approvable(d) && AwaitsOne(s.records, d, now)
    ensures GrantsLast(cfg, s, d.of, calls) && forall i :: 0 <= i < |calls| ==> CallWithin(calls[i], now, now)
    decreases |s.records[d].terms.eligible - s.records[d].approvers|
  {
    var pa := s.records[d];
    var p :| p in pa.terms.eligible && p !in pa.approvers;
    var first, step := SubmitCall(d.of, Approves(p, now)), Submitted(cfg, s, d.of, Approves(p, now));
    OneMoreApproves(cfg, s, d, p, now);
    if |pa.approvers| + 1 >= pa.terms.quorum {
      calls := [first];
      assert calls[..0] == [];
    } else {
      SubmittedSound(cfg, s, d.of, Approves(p, now));
      StillWaits(cfg, s, d, p);
      var more := WaitingGrants(cfg, step.state, d, now);
      GrantsAfter(cfg, s, d.of, first, more);
      calls := [first] + more;
    }
  }

  /** Below the quorum there is always someone left who can approve. */
  lemma StillWaits(cfg: Config, s: GateState, d: Digest, p: string)
    requires Sound(cfg, s) && cfg.Approvable(d) && d in s.records
    requires s.records[d].approvers < s.records[d].terms.eligible && p in s.records[d].terms.eligible
    requires p !in s.records[d].approvers && |s.records[d].approvers| + 1 < s.records[d].terms.quorum
    ensures var pa := s.records[d];
      && pa.approvers + {p} < pa.terms.eligible
      && |pa.terms.eligible - (pa.approvers + {p})| < |pa.terms.eligible - pa.approvers|
  {
    var pa := s.records[d];
    assert RecordMatches(cfg, s.records, s.trace, d);
    assert |pa.approvers + {p}| == |pa.approvers| + 1;
    var left := pa.terms.eligible - pa.approvers;
    assert pa.terms.eligible - (pa.approvers + {p}) == left - {p} && |left - {p}| == |left| - 1;
  }

  lemma GrantsIfApprovable(cfg: Config, s: GateState, d: Digest, since: real) returns (calls: seq<GateCall>, now: real)
    requires Sound(cfg, s) && cfg.Approvable(d) && Lives(cfg, d)
    requires Spent(s.records, d, since) ==> RightTool(cfg, d)
    ensures since <= now && GrantsLast(cfg, s, d.of, calls)
    ensures forall i :: 0 <= i < |calls| ==> CallWithin(calls[i], now, now)
  {
    if Spent(s.records, d, since) {
      now := IdleTime(s.records, d, since);
      var first := DecideCall(Request(d.of, now, 0));
      DecidedRenews(cfg, s, d.of, d, now);
      DecidedSound(cfg, s, d.of, now, 0);
      var more := WaitingGrants(cfg, Called(cfg, s, first).state, d, now);
      GrantsAfter(cfg, s, d.of, first, more);
      calls := [first] + more;
    } else if d in s.records {
      now := since;
      assert RecordMatches(cfg, s.records, s.trace, d);
      LiveWithin(cfg, s, d);
      calls := WaitingGrants(cfg, s, d, since);
    } else {
      now := since;
      var first := SubmitCall(d.of, Rejects(since));
      RejectedOpens(cfg, s, d, since);
      SubmittedSound(cfg, s, d.of, Rejects(since));
      var more := WaitingGrants(cfg, Called(cfg, s, first).state, d, since);
      GrantsAfter(cfg, s, d.of, first, more);
      calls := [first] + more;
    }
  }

  /** Only eligible principals are counted. */
  lemma LiveWithin(cfg: Config, s: GateState, d: Digest)
    requires Sound(cfg, s) && d in s.records && !s.records[d].used
    ensures s.records[d].approvers <= s.records[d].terms.eligible
  {
    assert RecordMatches(cfg, s.records, s.trace, d);
    LiveApproversVouched(cfg, s.trace, d);
  }

  /** From any sound state of either store, gateway calls can bring about a grant exactly when enough
  principals are eligible, a new record does not expire at once, and, where the record at hand is
  spent, `decide` can open a new one. */
  lemma GrantIff(cfg: Config, s: GateState, intent: ActionIntent, since: real)
    requires Sound(cfg, s) && Past(s.records, since)
    ensures CanGrant(cfg, s, intent, since) <==>
      && cfg.Approvable(Digest(intent)) && Lives(cfg, Digest(intent))
      && (Spent(s.records, Digest(intent), since) ==> RightTool(cfg, Digest(intent)))
  {
    var d := Digest(intent);
    if CanGrant(cfg, s, intent, since) {
      var calls, until :| Clocked(calls, since, until) && GrantsLast(cfg, s, intent, calls);
      GrantedNeeds(cfg, s, d, calls, since, until);
    }
    if cfg.Approvable(d) && Lives(cfg, d) && (Spent(s.records, d, since) ==> RightTool(cfg, d)) {
      var calls, now := GrantsIfApprovable(cfg, s, d, since);
      ClockedAt(calls, since, now);
    }
  }
}
