/** Gateway calls that are not cut short: whatever the store, they keep the history legal and the
records consistent with it, and they do nothing that only the runner or the executor does. */
module GateHistories {
  import opened Records
  import opened Approvals
  import opened PostgresStores
  import opened Protocol
  import opened Journals
  import opened Gateways

  ghost predicate Sound(cfg: Config, s: GateState) {
    Legal(cfg, s.trace) && Consistent(cfg, s.records, s.calls, s.trace)
  }

  ghost predicate SoundStep(cfg: Config, s: GateState, after: GateState) {
    Sound(cfg, after) && Gated(s.trace, after.trace) && after.store == s.store
  }

  lemma StepsCompose(cfg: Config, a: GateState, b: GateState, c: GateState)
    requires SoundStep(cfg, a, b) && SoundStep(cfg, b, c)
    ensures SoundStep(cfg, a, c)
  {
    GatedTransitive(a.trace, b.trace, c.trace);
  }

  lemma SaySound(cfg: Config, s: GateState, intent: ActionIntent, payload: Payload)
    requires Sound(cfg, s) && LegalEvent(cfg, s.trace, Event(intent.task, payload))
    requires IsGateAct(Emit(Event(intent.task, payload)))
    requires payload.Receipt? && payload.verdict == Authorized ==> payload.reason.ApprovedBy?
    ensures SoundStep(cfg, s, s.(trace := Say(s.trace, intent, payload)))
  {
    var act := Emit(Event(intent.task, payload));
    ConsistentEmit(cfg, s.records, s.calls, s.trace, act);
    assert Gated(s.trace, Then(s.trace, act));
  }

  lemma DenySound(cfg: Config, s: GateState, intent: ActionIntent, tier: Tier, why: string)
    requires Sound(cfg, s)
    ensures SoundStep(cfg, s, DenyFor(s, intent, tier, why).state)
  {
    SaySound(cfg, s, intent, Receipt(Digest(intent), Deny, Some(tier), Because(why)));
  }

  // ---- Opening -----------------------------------------------------------------------------

  /** With one set of terms per digest, both stores open a record alike. */
  lemma OpenedAlike(cfg: Config, s: GateState, kind: StoreKind, d: Digest, ttl: real, now: real, challenge: Challenge)
    requires Sound(cfg, s) && d.of.actionId in cfg.actions
    ensures OpenedIn(kind, s.records, d, TermsFor(cfg, d), ttl, now, challenge)
         == Opened(s.records, d, TermsFor(cfg, d), ttl, now, challenge)
  {
    assert RecordMatches(cfg, s.records, s.trace, d);
    ReopenAgreesIff(s.records, d, TermsFor(cfg, d), ttl, now, challenge);
  }

  ghost predicate Opens(cfg: Config, intent: ActionIntent, action: Action, tier: Tier) {
    && intent.actionId in cfg.actions && action == cfg.actions[intent.actionId] && tier in APPROVAL_TIERS
    && (tier == Classify(action.risk) || (tier == A2 && Classify(action.risk) == A1))
    && !(tier == A3 && TermsOf(action, tier).quorum < 2) && TermsOf(action, tier).eligible != {}
  }

  /** The record as `open` leaves it, before anything is written. */
  function Begun(cfg: Config, s: GateState, intent: ActionIntent, tier: Tier, now: real,
                 challenge: Challenge): GateState
    requires intent.actionId in cfg.actions
  {
    var d, ttl := Digest(intent), Ttl(cfg.actions[intent.actionId]);
    s.(records := OpenedIn(s.store, s.records, d, TermsFor(cfg, d), ttl, now, challenge),
       trace := if Reusable(s.records, d, now) then s.trace else Then(s.trace, OpenRecord(d, tier)))
  }

  lemma BegunSound(cfg: Config, s: GateState, intent: ActionIntent, action: Action, tier: Tier, now: real,
                   challenge: Challenge)
    requires Sound(cfg, s) && Opens(cfg, intent, action, tier)
    ensures SoundStep(cfg, s, Begun(cfg, s, intent, tier, now, challenge))
    ensures Digest(intent) in Begun(cfg, s, intent, tier, now, challenge).records
  {
    var d := Digest(intent);
    OpenedAlike(cfg, s, s.store, d, Ttl(action), now, challenge);
    if !Reusable(s.records, d, now) {
      ConsistentOpen(cfg, s.records, s.calls, s.trace, Fresh(d, TermsFor(cfg, d), Ttl(action), now, challenge), tier);
    }
  }

  lemma OpenSound(cfg: Config, s: GateState, intent: ActionIntent, action: Action, tier: Tier, now: real,
                  challenge: Challenge)
    requires Sound(cfg, s) && intent.actionId in cfg.actions && action == cfg.actions[intent.actionId]
    requires tier in APPROVAL_TIERS && (tier == Classify(action.risk) || (tier == A2 && Classify(action.risk) == A1))
    ensures SoundStep(cfg, s, OpenFor(s, intent, action, tier, now, challenge).state)
  {
    if Opens(cfg, intent, action, tier) {
      var d, begun := Digest(intent), Begun(cfg, s, intent, tier, now, challenge);
      BegunSound(cfg, s, intent, action, tier, now, challenge);
      var requested := begun.(trace := Say(begun.trace, intent, ApprovalRequested(d)));
      SaySound(cfg, begun, intent, ApprovalRequested(d));
      SaySound(cfg, requested, intent, Receipt(d, RequireApproval, Some(tier), Because("human approval required")));
      var after := OpenFor(s, intent, action, tier, now, challenge).state;
      StepsCompose(cfg, s, begun, requested);
      StepsCompose(cfg, s, requested, after);
    } else if tier == A3 && TermsOf(action, tier).quorum < 2 {
      DenySound(cfg, s, intent, tier, "dual control required");
    } else {
      DenySound(cfg, s, intent, tier, "no eligible approver configured");
    }
  }

  // ---- Deciding ----------------------------------------------------------------------------

  lemma AutoSound(cfg: Config, s: GateState, intent: ActionIntent, action: Action, tier: Tier, now: real,
                  challenge: Challenge)
    requires Sound(cfg, s) && intent.actionId in cfg.actions && action == cfg.actions[intent.actionId]
    requires tier == Classify(action.risk) && tier in AUTO_TIERS && action.tool == intent.tool
    ensures SoundStep(cfg, s, AutoFor(cfg, s, intent, action, tier, now, challenge).state)
  {
    var count := CallsOf(s.calls, action.id);
    if tier == A1 && action.id in cfg.bounds && !cfg.bounds[action.id].Within(intent.amount, count) {
      OpenSound(cfg, s, intent, action, A2, now, challenge);
    } else {
      var act := Emit(Event(intent.task, Receipt(Digest(intent), Authorized, Some(tier), Auto)));
      var calls := if tier == A1 then s.calls[action.id := count + 1] else s.calls;
      assert Autos(s.trace, action.id) <= count;
      assert Consistent(cfg, s.records, calls, s.trace);
      ConsistentEmit(cfg, s.records, calls, s.trace, act);
      assert Gated(s.trace, Then(s.trace, act));
    }
  }

  lemma DecidedSound(cfg: Config, s: GateState, intent: ActionIntent, now: real, challenge: Challenge)
    requires Sound(cfg, s)
    ensures SoundStep(cfg, s, Decided(cfg, s, intent, now, challenge).state)
  {
    if intent.actionId !in cfg.actions {
      DenySound(cfg, s, intent, A4, "unknown action policy");
    } else {
      var action := cfg.actions[intent.actionId];
      var tier := Classify(action.risk);
      if action.tool != intent.tool {
        DenySound(cfg, s, intent, tier, "tool differs from policy");
      } else if tier == A4 {
        DenySound(cfg, s, intent, tier, "prohibited action");
      } else if tier in AUTO_TIERS {
        AutoSound(cfg, s, intent, action, tier, now, challenge);
      } else {
        OpenSound(cfg, s, intent, action, tier, now, challenge);
      }
    }
  }

  // ---- Submitting --------------------------------------------------------------------------

  lemma RetiredSound(cfg: Config, s: GateState, d: Digest)
    requires Sound(cfg, s)
    ensures SoundStep(cfg, s, s.(records := Retired(s.records, d), trace := Then(s.trace, RetireRecord(d))))
  {
    ConsistentRetire(cfg, s.records, s.calls, s.trace, d);
    assert Gated(s.trace, Then(s.trace, RetireRecord(d)));
  }

  lemma ExpireSound(cfg: Config, s: GateState, intent: ActionIntent, tier: Tier)
    requires Sound(cfg, s)
    ensures SoundStep(cfg, s, ExpireFor(s, intent, tier).state)
  {
    var d := Digest(intent);
    var retired := s.(records := Retired(s.records, d), trace := Then(s.trace, RetireRecord(d)));
    RetiredSound(cfg, s, d);
    DenySound(cfg, retired, intent, tier, "approval expired");
    StepsCompose(cfg, s, retired, ExpireFor(s, intent, tier).state);
  }

  lemma AnsweredSound(cfg: Config, s: GateState, intent: ActionIntent, decision: Decision)
    requires Sound(cfg, s)
    ensures SoundStep(cfg, s, Answered(s, intent, decision))
  {
    var vouched := s;
    if decision.approved && decision.principal.Some? {
      var act := Verified(Digest(intent), decision.principal.value);
      vouched := s.(trace := Then(s.trace, act));
      ConsistentEmit(cfg, s.records, s.calls, s.trace, act);
      assert Gated(s.trace, Then(s.trace, act));
    }
    SaySound(cfg, vouched, intent, ApprovalResolved(decision.approved, decision.principal));
    StepsCompose(cfg, s, vouched, Answered(s, intent, decision));
  }

  lemma CountedSound(cfg: Config, s: GateState, intent: ActionIntent, p: string)
    requires Sound(cfg, s) && Digest(intent) in s.records && !s.records[Digest(intent)].used
    requires p in s.records[Digest(intent)].terms.eligible && p !in s.records[Digest(intent)].approvers
    ensures var d, resolved := Digest(intent), Answered(s, intent, Decision(true, Some(p)));
            SoundStep(cfg, s, resolved.(records := Approved(s.records, d, p),
                                        trace := Then(resolved.trace, CountApprover(d, p))))
  {
    var d, resolved := Digest(intent), Answered(s, intent, Decision(true, Some(p)));
    AnsweredSound(cfg, s, intent, Decision(true, Some(p)));
    assert RecordMatches(cfg, resolved.records, resolved.trace, d);
    ConsistentCount(cfg, resolved.records, resolved.calls, resolved.trace, d, p);
    assert Gated(resolved.trace, Then(resolved.trace, CountApprover(d, p)));
    GatedTransitive(s.trace, resolved.trace, Then(resolved.trace, CountApprover(d, p)));
  }

  lemma AuthorizeSound(cfg: Config, s: GateState, intent: ActionIntent, tier: Tier)
    requires Sound(cfg, s) && Digest(intent) in s.records && !s.records[Digest(intent)].used
    requires cfg.TierOf(Digest(intent)) == Some(tier) && tier in APPROVAL_TIERS && s.records[Digest(intent)].Satisfied()
    ensures SoundStep(cfg, s, Authorize(s, intent, tier, s.records[Digest(intent)].approvers))
  {
    var d := Digest(intent);
    var retired := s.(records := Retired(s.records, d), trace := Then(s.trace, RetireRecord(d)));
    assert RecordMatches(cfg, s.records, s.trace, d);
    RetiredSound(cfg, s, d);
    SaySound(cfg, retired, intent, Receipt(d, Authorized, Some(tier), ApprovedBy(s.records[d].approvers)));
    StepsCompose(cfg, s, retired, Authorize(s, intent, tier, s.records[d].approvers));
  }

  lemma AttemptSound(cfg: Config, s: GateState, intent: ActionIntent, tier: Tier, decision: Decision)
    requires Sound(cfg, s) && Digest(intent) in s.records && !s.records[Digest(intent)].used
    requires cfg.TierOf(Digest(intent)) == Some(tier) && tier in APPROVAL_TIERS
    ensures SoundStep(cfg, s, Attempt(s, intent, tier, decision).state)
  {
    var d := Digest(intent);
    var pa := s.records[d];
    AnsweredSound(cfg, s, intent, decision);
    if decision.approved && decision.principal.Some? {
      var p := decision.principal.value;
      if p in pa.terms.eligible && p !in pa.approvers {
        CountedSound(cfg, s, intent, p);
        var resolved := Answered(s, intent, decision);
        var after := resolved.(records := Approved(s.records, d, p),
                                    trace := Then(resolved.trace, CountApprover(d, p)));
        if after.records[d].Satisfied() {
          AuthorizeSound(cfg, after, intent, tier);
          StepsCompose(cfg, s, after, Authorize(after, intent, tier, after.records[d].approvers));
        }
      }
    }
  }

  lemma SubmittedToSound(cfg: Config, s: GateState, intent: ActionIntent, tier: Tier, sub: Submission)
    requires Sound(cfg, s) && Digest(intent) in s.records
    requires cfg.TierOf(Digest(intent)) == Some(tier) && tier in APPROVAL_TIERS
    ensures SoundStep(cfg, s, SubmittedTo(s, intent, tier, sub).state)
  {
    if s.records[Digest(intent)].used {
      DenySound(cfg, s, intent, tier, "no open approval for this action");
    } else if s.records[Digest(intent)].IsExpired(sub.now) {
      ExpireSound(cfg, s, intent, tier);
    } else {
      AttemptSound(cfg, s, intent, tier, sub.decision);
    }
  }

  lemma SubmittedSound(cfg: Config, s: GateState, intent: ActionIntent, sub: Submission)
    requires Sound(cfg, s)
    ensures SoundStep(cfg, s, Submitted(cfg, s, intent, sub).state)
  {
    if intent.actionId !in cfg.actions {
      DenySound(cfg, s, intent, A4, "unknown action policy");
    } else {
      var action := cfg.actions[intent.actionId];
      var tier := Classify(action.risk);
      if tier !in APPROVAL_TIERS {
        DenySound(cfg, s, intent, tier, "action does not use approval");
      } else if Digest(intent) in s.records {
        SubmittedToSound(cfg, s, intent, tier, sub);
      } else {
        var begun := OpenFor(s, intent, action, tier, sub.opening, sub.challenge).state;
        OpenSound(cfg, s, intent, action, tier, sub.opening, sub.challenge);
        if Digest(intent) in begun.records {
          SubmittedToSound(cfg, begun, intent, tier, sub);
          StepsCompose(cfg, s, begun, SubmittedTo(begun, intent, tier, sub).state);
        }
      }
    }
  }
}
