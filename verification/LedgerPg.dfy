/** The concurrent append protocol of `comcmd/kernel/ledger_pg.py`, as a state machine over the
statements that sessions of any number of processes issue in any interleaving.

A transaction takes the advisory lock of its company's hash bucket, reads the newest committed
row, inserts, and commits; it may roll back instead at any point. Row numbers come from a
sequence that never goes back, so rollbacks leave gaps and, across companies, rows need not be
committed in row-number order. */
module PostgresLedgers {
  import opened Ledgers

  type Writer = nat

  datatype Session<B> =
    | Idle
    | Waiting(company: string, event: B)
    | Locked(company: string, event: B)
    | HeadRead(company: string, event: B, prevSeal: Seal)
    | Inserted(row: Row<B>)
  {
    /** The company whose bucket lock this session holds, when it holds one. */
    predicate Holds(c: string) {
      match this
      case Idle => false
      case Waiting(_, _) => false
      case Locked(company, _) => company == c
      case HeadRead(company, _, _) => company == c
      case Inserted(row) => row.company == c
    }
  }

  /** `committed` lists the visible rows in the order their transactions committed. */
  datatype Database<B> = Database(committed: seq<Row<B>>, sessions: map<Writer, Session<B>>, nextSeq: nat) {
    function At(w: Writer): Session<B> {
      if w in sessions then sessions[w] else Idle
    }

    function Set(w: Writer, s: Session<B>): Database<B> {
      this.(sessions := sessions[w := s])
    }
  }

  datatype Statement<B> =
    | Begin(w: Writer, company: string, event: B)
    | AcquireLock(w: Writer)
    | SelectHead(w: Writer)
    | InsertRow(w: Writer)
    | Commit(w: Writer)
    | Rollback(w: Writer)

  /** `hashtext`: companies may share a bucket, which only serializes more. */
  type Bucket = string -> int

  /** `SELECT seal ... WHERE company ORDER BY seq DESC LIMIT 1`, over committed rows. */
  function NewestRow<B>(rows: seq<Row<B>>, company: string): (r: seq<Row<B>>)
    ensures |r| <= 1
  {
    if rows == [] then []
    else
      var newest, last := NewestRow(rows[..|rows| - 1], company), rows[|rows| - 1];
      if last.company == company && (newest == [] || newest[0].seqNo <= last.seqNo) then [last] else newest
  }

  function SelectedSeal<B>(rows: seq<Row<B>>, company: string): Seal {
    var newest := NewestRow(rows, company);
    if newest == [] then GENESIS else newest[0].link.seal
  }

  function InsertBySeq<B>(rows: seq<Row<B>>, row: Row<B>): seq<Row<B>> {
    if rows == [] || rows[|rows| - 1].seqNo <= row.seqNo then rows + [row]
    else InsertBySeq(rows[..|rows| - 1], row) + [rows[|rows| - 1]]
  }

  /** `SELECT ... WHERE company ORDER BY seq ASC`. */
  function Select<B>(rows: seq<Row<B>>, company: string): seq<Row<B>> {
    if rows == [] then []
    else
      var before, last := Select(rows[..|rows| - 1], company), rows[|rows| - 1];
      if last.company == company then InsertBySeq(before, last) else before
  }

  function Links<B>(rows: seq<Row<B>>): (r: seq<Link<B>>)
    ensures |r| == |rows|
  {
    seq(|rows|, i requires 0 <= i < |rows| => rows[i].link)
  }

  ghost predicate Enabled<B>(bucket: Bucket, db: Database<B>, s: Statement<B>) {
    match s
    case Begin(w, _, _) => db.At(w).Idle?
    case AcquireLock(w) =>
      && db.At(w).Waiting?
      && forall v, c :: db.At(v).Holds(c) ==> bucket(c) != bucket(db.At(w).company)
    case SelectHead(w) => db.At(w).Locked?
    case InsertRow(w) => db.At(w).HeadRead?
    case Commit(w) => db.At(w).Inserted?
    case Rollback(w) => !db.At(w).Idle?
  }

  function Apply<B>(h: Hash<B>, db: Database<B>, s: Statement<B>): Database<B> {
    var me := db.At(s.w);
    match s
    case Begin(w, company, event) => db.Set(w, Waiting(company, event))
    case AcquireLock(w) => if me.Waiting? then db.Set(w, Locked(me.company, me.event)) else db
    case SelectHead(w) =>
      if me.Locked? then db.Set(w, HeadRead(me.company, me.event, SelectedSeal(db.committed, me.company))) else db
    case InsertRow(w) =>
      if me.HeadRead? then
        var link := Link(me.event, me.prevSeal, h(me.prevSeal, me.event));
        db.Set(w, Inserted(Row(db.nextSeq, me.company, link))).(nextSeq := db.nextSeq + 1)
      else db
    case Commit(w) => if me.Inserted? then db.Set(w, Idle).(committed := db.committed + [me.row]) else db
    case Rollback(w) => db.Set(w, Idle)
  }

  /** The database after `run`, from an empty table. */
  function After<B>(h: Hash<B>, run: seq<Statement<B>>): Database<B> {
    if run == [] then Database([], map[], 1) else Apply(h, After(h, run[..|run| - 1]), run[|run| - 1])
  }

  /** `run` is an interleaving the lock allows: each statement was possible when it was issued. */
  ghost predicate Interleaving<B>(h: Hash<B>, bucket: Bucket, run: seq<Statement<B>>) {
    run == [] ||
    var before := run[..|run| - 1];
    Interleaving(h, bucket, before) && Enabled(bucket, After(h, before), run[|run| - 1])
  }

  // ---- The invariant -----------------------------------------------------------------------

  ghost predicate Increasing<B>(rows: seq<Row<B>>, bound: nat) {
    && (forall i :: 0 <= i < |rows| ==> rows[i].seqNo < bound)
    && (forall i, j :: 0 <= i < j < |rows| && rows[i].company == rows[j].company ==> rows[i].seqNo < rows[j].seqNo)
  }

  ghost predicate SessionInv<B>(h: Hash<B>, db: Database<B>, s: Session<B>) {
    match s
    case HeadRead(c, _, prevSeal) => prevSeal == Head(Of(db.committed, c))
    case Inserted(row) =>
      && row.link.prevSeal == Head(Of(db.committed, row.company))
      && row.link.seal == h(row.link.prevSeal, row.link.body)
      && row.seqNo < db.nextSeq
      && forall i :: 0 <= i < |db.committed| && db.committed[i].company == row.company ==>
           db.committed[i].seqNo < row.seqNo
    case _ => true
  }

  ghost predicate Inv<B>(h: Hash<B>, bucket: Bucket, db: Database<B>) {
    && Increasing(db.committed, db.nextSeq)
    && (forall c :: Intact(h, Of(db.committed, c)))
    && (forall w :: SessionInv(h, db, db.At(w)))
    && (forall v, w, c, d :: v != w && db.At(v).Holds(c) && db.At(w).Holds(d) ==> bucket(c) != bucket(d))
  }

  lemma {:induction false} NewestIsHead<B>(rows: seq<Row<B>>, company: string, bound: nat)
    requires Increasing(rows, bound)
    ensures NewestRow(rows, company) == [] ==> forall i :: 0 <= i < |rows| ==> rows[i].company != company
    ensures NewestRow(rows, company) != [] ==>
      NewestRow(rows, company)[0] in rows && NewestRow(rows, company)[0].company == company
    ensures SelectedSeal(rows, company) == Head(Of(rows, company))
  {
    if rows != [] {
      NewestIsHead(rows[..|rows| - 1], company, bound);
    }
  }

  lemma CommitKeepsInv<B>(h: Hash<B>, bucket: Bucket, db: Database<B>, w: Writer)
    requires Inv(h, bucket, db) && db.At(w).Inserted?
    ensures Inv(h, bucket, Apply(h, db, Commit(w)))
  {
    var row := db.At(w).row;
    var after := Apply(h, db, Commit(w));
    assert SessionInv(h, db, db.At(w));
    forall c ensures Intact(h, Of(after.committed, c)) {
      OfSnoc(db.committed, row, c);
      IntactSnoc(h, Of(db.committed, row.company), row.link);
    }
    forall v ensures SessionInv(h, after, after.At(v)) {
      if v != w {
        var s := db.At(v);
        assert after.At(v) == s && SessionInv(h, db, s);
        assert db.At(w).Holds(row.company);
        if s.HeadRead? {
          assert db.At(v).Holds(s.company);
          assert bucket(s.company) != bucket(row.company);
          OfSnoc(db.committed, row, s.company);
        }
        if s.Inserted? {
          assert db.At(v).Holds(s.row.company);
          assert bucket(s.row.company) != bucket(row.company);
          OfSnoc(db.committed, row, s.row.company);
        }
      }
    }
    forall u, v, c, d | u != v && after.At(u).Holds(c) && after.At(v).Holds(d) ensures bucket(c) != bucket(d) {
      assert db.At(u).Holds(c) && db.At(v).Holds(d);
    }
  }

  lemma StepKeepsInv<B>(h: Hash<B>, bucket: Bucket, db: Database<B>, s: Statement<B>)
    requires Inv(h, bucket, db) && Enabled(bucket, db, s)
    ensures Inv(h, bucket, Apply(h, db, s))
  {
    if s.Commit? {
      CommitKeepsInv(h, bucket, db, s.w);
    } else {
      var after := Apply(h, db, s);
      assert after.committed == db.committed;
      if s.SelectHead? { NewestIsHead(db.committed, db.At(s.w).company, db.nextSeq); }
      forall v ensures SessionInv(h, after, after.At(v)) {
        assert SessionInv(h, db, db.At(v));
      }
      forall u, v, c, d | u != v && after.At(u).Holds(c) && after.At(v).Holds(d) ensures bucket(c) != bucket(d) {
        if s.AcquireLock? && u == s.w {
          assert db.At(v).Holds(d) && c == db.At(u).company;
        } else if s.AcquireLock? && v == s.w {
          assert db.At(u).Holds(c) && d == db.At(v).company;
        } else {
          assert db.At(u).Holds(c) && db.At(v).Holds(d);
        }
      }
    }
  }

  lemma {:induction false} ReachableInv<B>(h: Hash<B>, bucket: Bucket, run: seq<Statement<B>>)
    requires Interleaving(h, bucket, run)
    ensures Inv(h, bucket, After(h, run))
  {
    if run != [] {
      var before := run[..|run| - 1];
      ReachableInv(h, bucket, before);
      StepKeepsInv(h, bucket, After(h, before), run[|run| - 1]);
    }
  }

  // ---- What readers see --------------------------------------------------------------------

  lemma {:induction false} SelectIsCommitOrder<B>(rows: seq<Row<B>>, c: string, bound: nat)
    requires Increasing(rows, bound)
    ensures forall i :: 0 <= i < |Select(rows, c)| ==> Select(rows, c)[i] in rows && Select(rows, c)[i].company == c
    ensures Links(Select(rows, c)) == Of(rows, c)
  {
    if rows != [] {
      SelectIsCommitOrder(rows[..|rows| - 1], c, bound);
    }
  }

  /** The single-writer ledger run over the same entries: one `Ledger.Append` after another. */
  function Serial<B>(h: Hash<B>, entries: seq<(string, B)>): seq<Row<B>> {
    if entries == [] then []
    else
      var rows, e := Serial(h, entries[..|entries| - 1]), entries[|entries| - 1];
      var prevSeal := HeadSeal(rows, e.0);
      rows + [Row(|rows| + 1, e.0, Link(e.1, prevSeal, h(prevSeal, e.1)))]
  }

  function Entries<B>(rows: seq<Row<B>>): (r: seq<(string, B)>)
    ensures |r| == |rows|
  {
    seq(|rows|, i requires 0 <= i < |rows| => (rows[i].company, rows[i].link.body))
  }

  lemma {:induction false} SerialSameChains<B>(h: Hash<B>, rows: seq<Row<B>>, c: string)
    requires forall d :: Intact(h, Of(rows, d))
    ensures Of(Serial(h, Entries(rows)), c) == Of(rows, c)
  {
    if rows != [] {
      var before, last := rows[..|rows| - 1], rows[|rows| - 1];
      assert rows == before + [last];
      forall d
        ensures Intact(h, Of(before, d))
        ensures last.company == d ==> last.link.prevSeal == Head(Of(before, d))
        ensures last.company == d ==> last.link.seal == h(last.link.prevSeal, last.link.body)
      {
        OfSnoc(before, last, d);
        if last.company == d {
          IntactSnoc(h, Of(before, d), last.link);
        }
      }
      SerialSameChains(h, before, c);
      SerialSameChains(h, before, last.company);
      assert Entries(rows)[..|rows| - 1] == Entries(before);
      var serial := Serial(h, Entries(before));
      OfSnoc(serial, Serial(h, Entries(rows))[|serial|], c);
      OfSnoc(before, last, c);
    }
  }

  // ---- What is published -------------------------------------------------------------------

  /** The call `append(event)` that writer `w` last started in `run`, as a list of at most one. */
  function Begun<B>(run: seq<Statement<B>>, w: Writer): seq<(string, B)> {
    if run == [] then []
    else
      var last := run[|run| - 1];
      if last.Begin? && last.w == w then [(last.company, last.event)] else Begun(run[..|run| - 1], w)
  }

  /** One entry for each COMMIT in `run`: the call that transaction was started for. */
  function Published<B>(run: seq<Statement<B>>): seq<(string, B)> {
    if run == [] then []
    else
      var before, last := run[..|run| - 1], run[|run| - 1];
      if last.Commit? then Published(before) + Begun(before, last.w) else Published(before)
  }

  function Carries<B>(s: Session<B>): seq<(string, B)> {
    match s
    case Idle => []
    case Waiting(c, e) => [(c, e)]
    case Locked(c, e) => [(c, e)]
    case HeadRead(c, e, _) => [(c, e)]
    case Inserted(row) => [(row.company, row.link.body)]
  }

  lemma {:induction false} SessionCarriesItsCall<B>(h: Hash<B>, bucket: Bucket, run: seq<Statement<B>>, w: Writer)
    requires Interleaving(h, bucket, run)
    ensures After(h, run).At(w).Idle? || Carries(After(h, run).At(w)) == Begun(run, w)
  {
    if run != [] {
      SessionCarriesItsCall(h, bucket, run[..|run| - 1], w);
    }
  }

  /** The table holds the committed calls' own events, each once, in commit order, and nothing
  of a transaction that rolled back. */
  lemma {:induction false} CommittedIsPublished<B>(h: Hash<B>, bucket: Bucket, run: seq<Statement<B>>)
    requires Interleaving(h, bucket, run)
    ensures Entries(After(h, run).committed) == Published(run)
  {
    if run != [] {
      var before, last := run[..|run| - 1], run[|run| - 1];
      CommittedIsPublished(h, bucket, before);
      SessionCarriesItsCall(h, bucket, before, last.w);
    }
  }

  /** No interleaving forks a chain: whatever the writers did, what a reader selects for a
  company in row-number order verifies, and is exactly the chain a single writer would have
  produced from the same events in commit order. */
  lemma NoFork<B>(h: Hash<B>, bucket: Bucket, run: seq<Statement<B>>, c: string)
    requires Interleaving(h, bucket, run)
    ensures var committed := After(h, run).committed;
      && Intact(h, Links(Select(committed, c)))
      && Links(Select(committed, c)) == Of(Serial(h, Entries(committed)), c)
  {
    ReachableInv(h, bucket, run);
    var db := After(h, run);
    SelectIsCommitOrder(db.committed, c, db.nextSeq);
    SerialSameChains(h, db.committed, c);
  }
}
