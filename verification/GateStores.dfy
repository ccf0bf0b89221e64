/** The gateway over either approval store (`comcmd/gateway/gate.py`, `comcmd/gateway/stores_pg.py`).

A digest fixes the action it is for, so under one set of policies it is always opened with the same
terms, and the gateway cannot tell the Postgres store from the in-memory one. */
module GateStores {
  import opened Records
  import opened Approvals
  import opened PostgresStores
  import opened Protocol
  import opened Gateways
  import opened GateHistories
  import opened GateRuns

  datatype GateCall =
    | DecideCall(request: Request)
    | SubmitCall(intent: ActionIntent, sub: Submission)

  function Called(cfg: Config, s: GateState, call: GateCall): (r: GateStep)
    ensures r.state.store == s.store
  {
    match call
    case DecideCall(r) => Decided(cfg, s, r.intent, r.now, r.challenge)
    case SubmitCall(intent, sub) => Submitted(cfg, s, intent, sub)
  }

  function CallAll(cfg: Config, s: GateState, calls: seq<GateCall>): GateState {
    if calls == [] then s else Called(cfg, CallAll(cfg, s, calls[..|calls| - 1]), calls[|calls| - 1]).state
  }

  /** What the callers are told, one outcome per call. */
  function Outcomes(cfg: Config, s: GateState, calls: seq<GateCall>): seq<GateOutcome> {
    if calls == [] then []
    else
      var init := calls[..|calls| - 1];
      Outcomes(cfg, s, init) + [Called(cfg, CallAll(cfg, s, init), calls[|calls| - 1]).outcome]
  }

  lemma CalledSound(cfg: Config, s: GateState, call: GateCall)
    requires Sound(cfg, s)
    ensures SoundStep(cfg, s, Called(cfg, s, call).state)
  {
    match call
    case DecideCall(r) => DecidedSound(cfg, s, r.intent, r.now, r.challenge);
    case SubmitCall(intent, sub) => SubmittedSound(cfg, s, intent, sub);
  }

  lemma {:induction false} CallAllSound(cfg: Config, s: GateState, calls: seq<GateCall>)
    requires Sound(cfg, s)
    ensures SoundStep(cfg, s, CallAll(cfg, s, calls))
  {
    if calls != [] {
      var before := CallAll(cfg, s, calls[..|calls| - 1]);
      CallAllSound(cfg, s, calls[..|calls| - 1]);
      CalledSound(cfg, before, calls[|calls| - 1]);
      StepsCompose(cfg, s, before, CallAll(cfg, s, calls));
    }
  }

  // ---- One call on both stores -------------------------------------------------------------

  /** The same outcome, and the same state but for the store. */
  predicate Alike(x: GateStep, y: GateStep) {
    x.outcome == y.outcome && y.state == x.state.(store := y.state.store)
  }

  lemma OpenAlike(cfg: Config, s: GateState, kind: StoreKind, intent: ActionIntent, action: Action, tier: Tier,
                  now: real, challenge: Challenge)
    requires Sound(cfg, s) && intent.actionId in cfg.actions && action == cfg.actions[intent.actionId]
    requires tier in APPROVAL_TIERS && (tier == Classify(action.risk) || (tier == A2 && Classify(action.risk) == A1))
    ensures Alike(OpenFor(s, intent, action, tier, now, challenge),
                  OpenFor(s.(store := kind), intent, action, tier, now, challenge))
  {
    OpenedAlike(cfg, s, s.store, Digest(intent), Ttl(action), now, challenge);
    OpenedAlike(cfg, s, kind, Digest(intent), Ttl(action), now, challenge);
  }

  lemma DecidedAlike(cfg: Config, s: GateState, kind: StoreKind, r: Request)
    requires Sound(cfg, s)
    ensures Alike(Decided(cfg, s, r.intent, r.now, r.challenge),
                  Decided(cfg, s.(store := kind), r.intent, r.now, r.challenge))
  {
    if r.intent.actionId in cfg.actions {
      var action := cfg.actions[r.intent.actionId];
      var tier := Classify(action.risk);
      if tier == A1 {
        OpenAlike(cfg, s, kind, r.intent, action, A2, r.now, r.challenge);
      } else if tier in APPROVAL_TIERS {
        OpenAlike(cfg, s, kind, r.intent, action, tier, r.now, r.challenge);
      }
    }
  }

  lemma AttemptAlike(s: GateState, kind: StoreKind, intent: ActionIntent, tier: Tier, decision: Decision)
    requires Digest(intent) in s.records
    ensures Alike(Attempt(s, intent, tier, decision), Attempt(s.(store := kind), intent, tier, decision))
  {
  }

  lemma SubmittedToAlike(s: GateState, kind: StoreKind, intent: ActionIntent, tier: Tier, sub: Submission)
    requires Digest(intent) in s.records
    ensures Alike(SubmittedTo(s, intent, tier, sub), SubmittedTo(s.(store := kind), intent, tier, sub))
  {
    AttemptAlike(s, kind, intent, tier, sub.decision);
  }

  lemma SubmittedAlike(cfg: Config, s: GateState, kind: StoreKind, intent: ActionIntent, sub: Submission)
    requires Sound(cfg, s)
    ensures Alike(Submitted(cfg, s, intent, sub), Submitted(cfg, s.(store := kind), intent, sub))
  {
    if NeedsApproval(cfg, intent) {
      var action := cfg.actions[intent.actionId];
      var tier := Classify(action.risk);
      if Digest(intent) in s.records {
        SubmittedToAlike(s, kind, intent, tier, sub);
      } else {
        OpenAlike(cfg, s, kind, intent, action, tier, sub.opening, sub.challenge);
        var begun := OpenFor(s, intent, action, tier, sub.opening, sub.challenge).state;
        if Digest(intent) in begun.records {
          SubmittedToAlike(begun, kind, intent, tier, sub);
        }
      }
    }
  }

  lemma CalledAlike(cfg: Config, s: GateState, kind: StoreKind, call: GateCall)
    requires Sound(cfg, s)
    ensures Alike(Called(cfg, s, call), Called(cfg, s.(store := kind), call))
  {
    match call
    case DecideCall(r) => DecidedAlike(cfg, s, kind, r);
    case SubmitCall(intent, sub) => SubmittedAlike(cfg, s, kind, intent, sub);
  }

  /** Whatever is decided and submitted, in any order, the gateway tells its callers the same and
  leaves the same records, counters and history on both stores. */
  lemma {:induction false} SameOnBothStores(cfg: Config, s: GateState, kind: StoreKind, calls: seq<GateCall>)
    requires Sound(cfg, s)
    ensures CallAll(cfg, s.(store := kind), calls) == CallAll(cfg, s, calls).(store := kind)
    ensures Outcomes(cfg, s.(store := kind), calls) == Outcomes(cfg, s, calls)
  {
    if calls != [] {
      var init := calls[..|calls| - 1];
      var before := CallAll(cfg, s, init);
      SameOnBothStores(cfg, s, kind, init);
      CallAllSound(cfg, s, init);
      CalledAlike(cfg, before, kind, calls[|calls| - 1]);
    }
  }

  // ---- The store operations behind the calls -----------------------------------------------

  function OpenOps(intent: ActionIntent, action: Action, tier: Tier, now: real, challenge: Challenge): seq<Operation> {
    var terms := TermsOf(action, tier);
    if (tier == A3 && terms.quorum < 2) || terms.eligible == {} then []
    else [OpenOp(Digest(intent), terms, Ttl(action), now, challenge)]
  }

  function DecideOps(cfg: Config, s: GateState, r: Request): seq<Operation> {
    if r.intent.actionId !in cfg.actions || cfg.actions[r.intent.actionId].tool != r.intent.tool then []
    else
      var action := cfg.actions[r.intent.actionId];
      var tier := Classify(action.risk);
      if tier in APPROVAL_TIERS then OpenOps(r.intent, action, tier, r.now, r.challenge)
      else if tier == A1 && action.id in cfg.bounds
              && !cfg.bounds[action.id].Within(r.intent.amount, CallsOf(s.calls, action.id))
      then OpenOps(r.intent, action, A2, r.now, r.challenge)
      else []
  }

  function AttemptOps(pa: PendingApproval, d: Digest, sub: Submission): seq<Operation> {
    if pa.used then []
    else if pa.IsExpired(sub.now) then [RetireOp(d)]
    else if !Adds(pa, sub.decision) then []
    else if Completes(pa, sub.decision) then [AddOp(d, sub.decision.principal.value), RetireOp(d)]
    else [AddOp(d, sub.decision.principal.value)]
  }

  function SubmitOps(cfg: Config, s: GateState, intent: ActionIntent, sub: Submission): seq<Operation> {
    var d := Digest(intent);
    if !NeedsApproval(cfg, intent) then []
    else if d in s.records then AttemptOps(s.records[d], d, sub)
    else
      var action := cfg.actions[intent.actionId];
      var begun := OpenOps(intent, action, Classify(action.risk), sub.opening, sub.challenge);
      if begun == [] then []
      else
        var record := Fresh(d, TermsOf(action, Classify(action.risk)), Ttl(action), sub.opening, sub.challenge);
        begun + AttemptOps(record, d, sub)
  }

  function OpsOf(cfg: Config, s: GateState, call: GateCall): seq<Operation> {
    match call
    case DecideCall(r) => DecideOps(cfg, s, r)
    case SubmitCall(intent, sub) => SubmitOps(cfg, s, intent, sub)
  }

  function AllOps(cfg: Config, s: GateState, calls: seq<GateCall>): seq<Operation> {
    if calls == [] then []
    else
      var init := calls[..|calls| - 1];
      AllOps(cfg, s, init) + OpsOf(cfg, CallAll(cfg, s, init), calls[|calls| - 1])
  }

  lemma OneOperation(kind: StoreKind, rs: ByDigest, op: Operation)
    ensures OperateAll(kind, rs, [op]) == Operate(kind, rs, op)
  {
    assert [op][..0] == [];
  }

  lemma OpenOperates(s: GateState, intent: ActionIntent, action: Action, tier: Tier, now: real, challenge: Challenge)
    ensures OpenFor(s, intent, action, tier, now, challenge).state.records
         == OperateAll(s.store, s.records, OpenOps(intent, action, tier, now, challenge))
  {
    OneOperation(s.store, s.records, OpenOp(Digest(intent), TermsOf(action, tier), Ttl(action), now, challenge));
  }

  lemma AttemptOperates(s: GateState, intent: ActionIntent, tier: Tier, sub: Submission)
    requires Digest(intent) in s.records
    ensures SubmittedTo(s, intent, tier, sub).state.records
         == OperateAll(s.store, s.records, AttemptOps(s.records[Digest(intent)], Digest(intent), sub))
  {
    var d, pa := Digest(intent), s.records[Digest(intent)];
    OneOperation(s.store, s.records, RetireOp(d));
    if Adds(pa, sub.decision) {
      var add := AddOp(d, sub.decision.principal.value);
      OneOperation(s.store, s.records, add);
      assert |pa.approvers + {sub.decision.principal.value}| == |pa.approvers| + 1;
      assert [add, RetireOp(d)][..1] == [add];
    }
  }

  lemma SubmitOperates(cfg: Config, s: GateState, intent: ActionIntent, sub: Submission)
    ensures Submitted(cfg, s, intent, sub).state.records
      == OperateAll(s.store, s.records, SubmitOps(cfg, s, intent, sub))
  {
    var d := Digest(intent);
    if NeedsApproval(cfg, intent) {
      var action := cfg.actions[intent.actionId];
      var tier := Classify(action.risk);
      if d in s.records {
        AttemptOperates(s, intent, tier, sub);
      } else {
        OpenOperates(s, intent, action, tier, sub.opening, sub.challenge);
        var begun := OpenFor(s, intent, action, tier, sub.opening, sub.challenge).state;
        if d in begun.records {
          AttemptOperates(begun, intent, tier, sub);
          OperateAfter(s.store, s.records, OpenOps(intent, action, tier, sub.opening, sub.challenge),
                       AttemptOps(begun.records[d], d, sub));
        }
      }
    }
  }

  lemma DecideOperates(cfg: Config, s: GateState, r: Request)
    ensures Decided(cfg, s, r.intent, r.now, r.challenge).state.records
         == OperateAll(s.store, s.records, DecideOps(cfg, s, r))
  {
    if r.intent.actionId in cfg.actions {
      var action := cfg.actions[r.intent.actionId];
      var tier := Classify(action.risk);
      OpenOperates(s, r.intent, action, if tier == A1 then A2 else tier, r.now, r.challenge);
    }
  }

  lemma CallOperates(cfg: Config, s: GateState, call: GateCall)
    ensures Called(cfg, s, call).state.records == OperateAll(s.store, s.records, OpsOf(cfg, s, call))
  {
    match call
    case DecideCall(r) => DecideOperates(cfg, s, r);
    case SubmitCall(intent, sub) => SubmitOperates(cfg, s, intent, sub);
  }

  ghost predicate OpensByPolicy(cfg: Config, ops: seq<Operation>) {
    forall op <- ops :: op.OpenOp? ==> op.d.of.actionId in cfg.actions && op.terms == TermsFor(cfg, op.d)
  }

  lemma CallOpensByPolicy(cfg: Config, s: GateState, call: GateCall)
    ensures OpensByPolicy(cfg, OpsOf(cfg, s, call))
  {
  }

  lemma {:induction false} AllOpensByPolicy(cfg: Config, s: GateState, calls: seq<GateCall>)
    ensures OpensByPolicy(cfg, AllOps(cfg, s, calls))
  {
    if calls != [] {
      AllOpensByPolicy(cfg, s, calls[..|calls| - 1]);
      CallOpensByPolicy(cfg, CallAll(cfg, s, calls[..|calls| - 1]), calls[|calls| - 1]);
    }
  }

  lemma {:induction false} CallsOperate(cfg: Config, s: GateState, calls: seq<GateCall>)
    ensures CallAll(cfg, s, calls).records == OperateAll(s.store, s.records, AllOps(cfg, s, calls))
    ensures CallAll(cfg, s, calls).store == s.store
  {
    if calls != [] {
      var init, last := calls[..|calls| - 1], calls[|calls| - 1];
      var before := CallAll(cfg, s, init);
      assert CallAll(cfg, s, calls) == Called(cfg, before, last).state;
      CallsOperate(cfg, s, init);
      CallOperates(cfg, before, last);
      OperateAfter(s.store, s.records, AllOps(cfg, s, init), OpsOf(cfg, before, last));
    }
  }

  /** What gateway calls ask of their store is what both stores agree on: each digest is always
  opened with the same terms, and the records the gateway works with are the ones either store
  holds after the operations the calls performed on it. */
  lemma GatewayUsesStoresAlike(cfg: Config, s: GateState, calls: seq<GateCall>)
    requires s.records == map[]
    ensures SameTerms(AllOps(cfg, s, calls))
    ensures CallAll(cfg, s, calls).records
         == Stored(InMemory, AllOps(cfg, s, calls)) == Stored(Postgres, AllOps(cfg, s, calls))
  {
    var ops := AllOps(cfg, s, calls);
    AllOpensByPolicy(cfg, s, calls);
    forall i, j | 0 <= i < |ops| && 0 <= j < |ops| && ops[i].OpenOp? && ops[j].OpenOp? && ops[i].d == ops[j].d
      ensures ops[i].terms == ops[j].terms
    {
      assert ops[i] in ops && ops[j] in ops;
    }
    StoresAgree(ops);
    CallsOperate(cfg, s, calls);
  }
}
