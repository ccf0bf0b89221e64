/** `PgApprovalStore` of `comcmd/gateway/stores_pg.py`, and how far it refines the in-memory
store. Each statement is one atomic update of the table. */
module PostgresStores {
  import opened Records
  import opened Approvals

  /** A row of the approvals table: arrays where the record has sets. */
  datatype ApprovalRow = ApprovalRow(
    digest: Digest, challenge: Challenge, tier: Tier, required: string, quorum: int,
    eligible: seq<string>, createdAt: real, ttl: real, approvers: seq<string>, used: bool)
  {
    function ToRecord(): PendingApproval {
      PendingApproval(digest, challenge, Terms(tier, required, quorum, (set e | e in eligible)),
                      createdAt, ttl, (set a | a in approvers), used)
    }
  }

  type Table = map<Digest, ApprovalRow>

  /** What `get` and `pending` show of the table. */
  function View(t: Table): ByDigest {
    map d | d in t :: t[d].ToRecord()
  }

  /** ON CONFLICT keeps tier, required, quorum and eligible of the row that is there. */
  function Upserted(t: Table, row: ApprovalRow): Table {
    if row.digest in t then
      t[row.digest := t[row.digest].(challenge := row.challenge, createdAt := row.createdAt,
                                         ttl := row.ttl, approvers := [], used := false)]
    else t[row.digest := row]
  }

  class PgApprovalStore {
    var table: Table

    ghost predicate Valid()
      reads this
    {
      forall d :: d in table ==> table[d].digest == d
    }

    constructor ()
      ensures table == map[] && Valid()
    {
      table := map[];
    }

    method OpenRecord(d: Digest, terms: Terms, eligible: seq<string>, ttl: real, now: real, challenge: Challenge)
      returns (pa: PendingApproval)
      requires Valid() && terms.eligible == set e | e in eligible
      modifies this
      ensures Valid()
      ensures View(table) == PgOpened(old(View(table)), d, terms, ttl, now, challenge)
      ensures d in table && pa == View(table)[d]
    {
      if d in table && !table[d].used && !table[d].ToRecord().IsExpired(now) {
        return table[d].ToRecord();
      }
      var row := ApprovalRow(d, challenge, terms.tier, terms.required, terms.quorum, eligible, now, ttl, [], false);
      assert (set a | a in row.approvers) == {};
      table := Upserted(table, row);
      assert View(table)[d] == PgOpened(old(View(table)), d, terms, ttl, now, challenge)[d];
      pa := table[d].ToRecord();
    }

    method Get(d: Digest) returns (pa: Option<PendingApproval>)
      ensures pa == if d in View(table) then Some(View(table)[d]) else None
    {
      pa := if d in table then Some(table[d].ToRecord()) else None;
    }

    /** `SELECT DISTINCT unnest(approvers || principal)`, in whatever order it comes back. */
    method AddApprover(d: Digest, principal: string) returns (pa: Option<PendingApproval>)
      requires Valid()
      modifies this
      ensures Valid()
      ensures View(table) == Approved(old(View(table)), d, principal)
      ensures pa == if d in View(table) then Some(View(table)[d]) else None
    {
      if d in table {
        var row := table[d];
        var approvers := if principal in row.approvers then row.approvers else row.approvers + [principal];
        assert (set a | a in approvers) == (set a | a in row.approvers) + {principal};
        table := table[d := row.(approvers := approvers)];
      }
      pa := Get(d);
    }

    method ListPending(now: real) returns (pending: set<PendingApproval>)
      ensures pending == Pending(View(table), now)
    {
      var unused := map d | d in table && !table[d].used :: table[d];
      pending := set d | d in unused && !unused[d].ToRecord().IsExpired(now) :: unused[d].ToRecord();
      assert forall d ::
        d in unused && !unused[d].ToRecord().IsExpired(now) <==> d in View(table) && View(table)[d].Open(now);
      assert forall pa <- Pending(View(table), now) :: pa in pending;
    }

    method Retire(d: Digest)
      requires Valid()
      modifies this
      ensures Valid()
      ensures View(table) == Retired(old(View(table)), d)
    {
      if d in table {
        table := table[d := table[d].(used := true)];
      }
    }
  }

  /** `open` as the table's readers see it. */
  function PgOpened(rs: ByDigest, d: Digest, terms: Terms, ttl: real, now: real, challenge: Challenge): ByDigest {
    if Reusable(rs, d, now) then rs
    else if d in rs then rs[d := Fresh(d, rs[d].terms, ttl, now, challenge)]
    else rs[d := Fresh(d, terms, ttl, now, challenge)]
  }

  datatype StoreKind = InMemory | Postgres

  /** `open` of either store. */
  function OpenedIn(kind: StoreKind, rs: ByDigest, d: Digest, terms: Terms, ttl: real, now: real,
                    challenge: Challenge): ByDigest
  {
    match kind
    case InMemory => Opened(rs, d, terms, ttl, now, challenge)
    case Postgres => PgOpened(rs, d, terms, ttl, now, challenge)
  }

  // ---- Refinement --------------------------------------------------------------------------

  datatype Operation =
    | OpenOp(d: Digest, terms: Terms, ttl: real, now: real, challenge: Challenge)
    | AddOp(d: Digest, principal: string)
    | RetireOp(d: Digest)

  function Operate(kind: StoreKind, rs: ByDigest, op: Operation): ByDigest {
    match op
    case OpenOp(d, terms, ttl, now, challenge) => OpenedIn(kind, rs, d, terms, ttl, now, challenge)
    case AddOp(d, p) => Approved(rs, d, p)
    case RetireOp(d) => Retired(rs, d)
  }

  function OperateAll(kind: StoreKind, rs: ByDigest, ops: seq<Operation>): ByDigest {
    if ops == [] then rs else Operate(kind, OperateAll(kind, rs, ops[..|ops| - 1]), ops[|ops| - 1])
  }

  lemma {:induction false} OperateAfter(kind: StoreKind, rs: ByDigest, a: seq<Operation>, b: seq<Operation>)
    ensures OperateAll(kind, rs, a + b) == OperateAll(kind, OperateAll(kind, rs, a), b)
    decreases |b|
  {
    if b == [] {
      assert a + b == a;
    } else {
      assert (a + b)[..|a + b| - 1] == a + b[..|b| - 1];
      OperateAfter(kind, rs, a, b[..|b| - 1]);
    }
  }

  /** What a store of either kind holds after operations on an empty one. */
  function Stored(kind: StoreKind, ops: seq<Operation>): ByDigest {
    OperateAll(kind, map[], ops)
  }

  /** Every digest is always opened with the same terms. */
  ghost predicate SameTerms(ops: seq<Operation>) {
    forall i, j :: 0 <= i < |ops| && 0 <= j < |ops| && ops[i].OpenOp? && ops[j].OpenOp? && ops[i].d == ops[j].d ==>
      ops[i].terms == ops[j].terms
  }

  ghost predicate TermsFrom(ops: seq<Operation>, d: Digest, terms: Terms) {
    exists i :: 0 <= i < |ops| && ops[i].OpenOp? && ops[i].d == d && ops[i].terms == terms
  }

  lemma {:induction false} TermsComeFromOpens(ops: seq<Operation>, d: Digest)
    requires d in Stored(InMemory, ops)
    ensures TermsFrom(ops, d, Stored(InMemory, ops)[d].terms)
  {
    var before, last := ops[..|ops| - 1], ops[|ops| - 1];
    assert ops == before + [last];
    if d in Stored(InMemory, before) && Stored(InMemory, ops)[d].terms == Stored(InMemory, before)[d].terms {
      TermsComeFromOpens(before, d);
      var i :| 0 <= i < |before| && before[i].OpenOp? && before[i].d == d
          && before[i].terms == Stored(InMemory, ops)[d].terms;
      assert ops[i] == before[i];
    } else {
      assert last.OpenOp? && last.d == d;
      assert ops[|ops| - 1] == last;
    }
  }

  /** Whatever is opened, approved and retired, in any order, the table and the in-memory store
  hold the same records, so the same approvals are pending, when no digest changes its terms. */
  lemma {:induction false} StoresAgree(ops: seq<Operation>)
    requires SameTerms(ops)
    ensures Stored(Postgres, ops) == Stored(InMemory, ops)
  {
    if ops != [] {
      var before, last := ops[..|ops| - 1], ops[|ops| - 1];
      assert forall i :: 0 <= i < |before| ==> before[i] == ops[i];
      StoresAgree(before);
      var rs := Stored(InMemory, before);
      if last.OpenOp? && last.d in rs {
        TermsComeFromOpens(before, last.d);
        var i :| 0 <= i < |before| && before[i].OpenOp? && before[i].d == last.d && before[i].terms == rs[last.d].terms;
        assert ops[i].terms == ops[|ops| - 1].terms;
      }
    }
  }

  /** The one place where they part: re-opening a used or expired record with other terms. The
  table then keeps the old terms, and the in-memory store takes the new ones. */
  lemma ReopenAgreesIff(rs: ByDigest, d: Digest, terms: Terms, ttl: real, now: real, challenge: Challenge)
    ensures PgOpened(rs, d, terms, ttl, now, challenge) == Opened(rs, d, terms, ttl, now, challenge) <==>
            (d in rs && !rs[d].Open(now) ==> rs[d].terms == terms)
  {
    var a, b := PgOpened(rs, d, terms, ttl, now, challenge), Opened(rs, d, terms, ttl, now, challenge);
    if a == b && d in rs && !rs[d].Open(now) {
      assert a[d].terms == b[d].terms;
    }
  }
}
