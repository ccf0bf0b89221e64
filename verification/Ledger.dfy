/** The per-company hash-chained event ledger of `comcmd/kernel/ledger.py`.

The seal function is a parameter everywhere. Only the tamper-evidence lemmas need it to be
injective with the genesis seal outside its range, and they say so. */
module Ledgers {

  type Seal = string

  /** `_GENESIS`: the scheme prefix followed by 64 zeros. */
  const GENESIS: Seal := "sha256:0000000000000000000000000000000000000000000000000000000000000000"

  type Hash<!B> = (Seal, B) -> Seal

  /** The columns `verify_chain` selects. The rest of a row is not sealed. */
  datatype Link<B> = Link(body: B, prevSeal: Seal, seal: Seal)

  datatype Row<B> = Row(seqNo: nat, company: string, link: Link<B>)

  predicate Collide<B>(h: Hash<B>, p: Seal, b: B, q: Seal, c: B) {
    h(p, b) == h(q, c)
  }

  ghost predicate CollisionFree<B(!new)>(h: Hash<B>) {
    && (forall p, b, q, c :: Collide(h, p, b, q, c) ==> p == q && b == c)
    && (forall p, b :: h(p, b) != GENESIS)
  }

  function Head<B>(links: seq<Link<B>>): Seal {
    if links == [] then GENESIS else links[|links| - 1].seal
  }

  /** Every link continues the one before it, the first one from genesis, and carries its own seal. */
  predicate Intact<B>(h: Hash<B>, links: seq<Link<B>>) {
    links == [] ||
    var before, last := links[..|links| - 1], links[|links| - 1];
    Intact(h, before) && last.prevSeal == Head(before) && last.seal == h(last.prevSeal, last.body)
  }

  function Bodies<B>(links: seq<Link<B>>): (r: seq<B>)
    ensures |r| == |links| && forall i :: 0 <= i < |r| ==> r[i] == links[i].body
  {
    seq(|links|, i requires 0 <= i < |links| => links[i].body)
  }

  /** What appending `bodies` one after another to an empty company chain produces. */
  function ChainOf<B>(h: Hash<B>, bodies: seq<B>): seq<Link<B>> {
    if bodies == [] then []
    else
      var before := ChainOf(h, bodies[..|bodies| - 1]);
      var body := bodies[|bodies| - 1];
      before + [Link(body, Head(before), h(Head(before), body))]
  }

  lemma IntactSnoc<B>(h: Hash<B>, links: seq<Link<B>>, last: Link<B>)
    ensures Intact(h, links + [last]) <==>
            Intact(h, links) && last.prevSeal == Head(links) && last.seal == h(last.prevSeal, last.body)
  {
    assert (links + [last])[..|links|] == links;
  }

  lemma {:induction false} IntactPrefix<B>(h: Hash<B>, links: seq<Link<B>>, k: nat)
    requires Intact(h, links) && k <= |links|
    ensures Intact(h, links[..k])
  {
    if k < |links| {
      assert links[..|links| - 1][..k] == links[..k];
      IntactPrefix(h, links[..|links| - 1], k);
    } else {
      assert links[..k] == links;
    }
  }

  lemma IntactAt<B>(h: Hash<B>, links: seq<Link<B>>, i: nat)
    requires Intact(h, links) && i < |links|
    ensures links[i].prevSeal == Head(links[..i]) && links[i].seal == h(links[i].prevSeal, links[i].body)
  {
    IntactPrefix(h, links, i + 1);
    assert links[..i + 1][..i] == links[..i];
  }

  /** Verification accepts exactly the chains sequential appends produce: the stored bodies
  determine every stored seal. */
  lemma {:induction false} IntactIsSequential<B>(h: Hash<B>, links: seq<Link<B>>)
    ensures Intact(h, links) <==> links == ChainOf(h, Bodies(links))
  {
    if links != [] {
      var before, last := links[..|links| - 1], links[|links| - 1];
      assert links == before + [last];
      assert Bodies(links)[..|links| - 1] == Bodies(before);
      IntactIsSequential(h, before);
      IntactSnoc(h, before, last);
    }
  }

  lemma {:induction false} SealsDistinct<B(!new)>(h: Hash<B>, links: seq<Link<B>>, i: nat, j: nat)
    requires CollisionFree(h) && Intact(h, links) && i < j < |links|
    ensures links[i].seal != links[j].seal
  {
    // Equal seals would make the predecessors' seals equal as well, down to genesis.
    IntactAt(h, links, i);
    IntactAt(h, links, j);
    assert Collide(h, links[i].prevSeal, links[i].body, links[j].prevSeal, links[j].body)
        <==> links[i].seal == links[j].seal;
    if i > 0 {
      SealsDistinct(h, links, i - 1, j - 1);
    } else {
      IntactAt(h, links, j - 1);
    }
  }

  lemma {:induction false} LastLinkBound<B(!new)>(h: Hash<B>, a: seq<Link<B>>, x: Link<B>, b: seq<Link<B>>, y: Link<B>)
    requires CollisionFree(h) && Intact(h, a + [x]) && Intact(h, b + [y]) && x.seal == y.seal
    ensures x == y && Intact(h, a) && Intact(h, b) && Head(a) == Head(b)
  {
    IntactSnoc(h, a, x);
    IntactSnoc(h, b, y);
    assert Collide(h, x.prevSeal, x.body, y.prevSeal, y.body);
  }

  /** A chain is bound by its head: no two different histories verify up to one head seal. */
  lemma {:induction false} HeadBindsHistory<B(!new)>(h: Hash<B>, a: seq<Link<B>>, b: seq<Link<B>>)
    requires CollisionFree(h) && Intact(h, a) && Intact(h, b)
    requires Head(a) == Head(b)
    ensures a == b
  {
    if a != [] && b != [] {
      var m, n := |a| - 1, |b| - 1;
      assert a == a[..m] + [a[m]] && b == b[..n] + [b[n]];
      LastLinkBound(h, a[..m], a[m], b[..n], b[n]);
      HeadBindsHistory(h, a[..m], b[..n]);
    }
  }

  lemma {:induction false} VerifiedSelectionIsPrefix<B(!new)>(h: Hash<B>, links: seq<Link<B>>, picked: seq<Link<B>>,
                                                       at: nat)
    requires CollisionFree(h) && Intact(h, links) && Intact(h, picked)
    requires picked != [] && at < |links| && links[at] == picked[|picked| - 1]
    ensures picked == links[..at + 1]
  {
    IntactPrefix(h, links, at + 1);
    HeadBindsHistory(h, links[..at + 1], picked);
  }

  /** Rows drawn from an intact chain in any order, with any of them dropped or repeated,
  verify exactly when they are a prefix of it. So deletion of a non-last row, reordering and
  duplication are all detected, and truncation of the tail never is. */
  lemma {:induction false} SelectionVerifiesIffPrefix<B(!new)>(h: Hash<B>, links: seq<Link<B>>, picked: seq<Link<B>>)
    requires CollisionFree(h) && Intact(h, links)
    requires forall k :: 0 <= k < |picked| ==> picked[k] in links
    ensures Intact(h, picked) <==> picked <= links
  {
    if picked <= links {
      assert picked == links[..|picked|];
      IntactPrefix(h, links, |picked|);
    }
    if picked != [] && Intact(h, picked) {
      assert picked[|picked| - 1] in links;
      var at :| 0 <= at < |links| && links[at] == picked[|picked| - 1];
      VerifiedSelectionIsPrefix(h, links, picked, at);
    }
  }

  /** Rewriting one stored body under its stored seal is detected, unless it is the same body. */
  lemma EditedBodyDetected<B(!new)>(h: Hash<B>, links: seq<Link<B>>, at: nat, body: B)
    requires CollisionFree(h) && Intact(h, links) && at < |links|
    ensures Intact(h, links[at := links[at].(body := body)]) <==> body == links[at].body
  {
    var edited := links[at := links[at].(body := body)];
    IntactAt(h, links, at);
    assert Collide(h, links[at].prevSeal, links[at].body, links[at].prevSeal, body) <==>
      links[at].seal == h(links[at].prevSeal, body);
    if Intact(h, edited) {
      IntactAt(h, edited, at);
    }
    if body == links[at].body {
      assert edited == links;
    }
  }

  lemma BodiesSnoc<B>(links: seq<Link<B>>, last: Link<B>)
    ensures Bodies(links + [last]) == Bodies(links) + [last.body]
  {
  }

  lemma {:induction false} ChainHolds<B>(h: Hash<B>, bodies: seq<B>)
    ensures Bodies(ChainOf(h, bodies)) == bodies && Intact(h, ChainOf(h, bodies))
  {
    if bodies != [] {
      var init, body := bodies[..|bodies| - 1], bodies[|bodies| - 1];
      var before := ChainOf(h, init);
      ChainHolds(h, init);
      assert bodies == init + [body];
      IntactSnoc(h, before, Link(body, Head(before), h(Head(before), body)));
      BodiesSnoc(before, Link(body, Head(before), h(Head(before), body)));
    }
  }

  lemma {:induction false} ChainPrefix<B>(h: Hash<B>, bodies: seq<B>, k: nat)
    requires k <= |bodies|
    ensures |ChainOf(h, bodies)| == |bodies| && ChainOf(h, bodies)[..k] == ChainOf(h, bodies[..k])
    decreases |bodies|
  {
    ChainLength(h, bodies);
    if k < |bodies| {
      var init := bodies[..|bodies| - 1];
      ChainPrefix(h, init, k);
      assert init[..k] == bodies[..k];
      assert ChainOf(h, bodies)[..|init|] == ChainOf(h, init);
      assert ChainOf(h, bodies)[..k] == ChainOf(h, init)[..k];
    } else {
      assert bodies[..k] == bodies && ChainOf(h, bodies)[..k] == ChainOf(h, bodies);
    }
  }

  lemma {:induction false} ChainLength<B>(h: Hash<B>, bodies: seq<B>)
    ensures |ChainOf(h, bodies)| == |bodies|
  {
    if bodies != [] {
      ChainLength(h, bodies[..|bodies| - 1]);
    }
  }

  /** A history rewritten at one event and sealed again from there on verifies: only its head seal
  gives it away, and that always does. */
  lemma ResealedVerifies<B(!new)>(h: Hash<B>, links: seq<Link<B>>, at: nat, body: B)
    requires CollisionFree(h) && Intact(h, links) && at < |links|
    ensures var resealed := ChainOf(h, Bodies(links)[at := body]);
      && Intact(h, resealed) && Bodies(resealed) == Bodies(links)[at := body]
      && |resealed| == |links| && resealed[..at] == links[..at]
      && (Head(resealed) == Head(links) <==> body == links[at].body)
  {
    var bodies := Bodies(links)[at := body];
    var resealed := ChainOf(h, bodies);
    ChainHolds(h, bodies);
    IntactIsSequential(h, links);
    ChainPrefix(h, bodies, at);
    ChainPrefix(h, Bodies(links), at);
    assert bodies[..at] == Bodies(links)[..at];
    if body == links[at].body {
      assert bodies == Bodies(links);
    }
    if Head(resealed) == Head(links) {
      HeadBindsHistory(h, resealed, links);
      assert Bodies(resealed)[at] == Bodies(links)[at];
    }
  }

  /** The rows of one company, in sequence order. */
  function Of<B>(rows: seq<Row<B>>, company: string): seq<Link<B>> {
    if rows == [] then []
    else
      var before, last := Of(rows[..|rows| - 1], company), rows[|rows| - 1];
      if last.company == company then before + [last.link] else before
  }

  /** `_head_seal`: the newest row of the company, or genesis. */
  function HeadSeal<B>(rows: seq<Row<B>>, company: string): (r: Seal)
    ensures r == Head(Of(rows, company))
  {
    if rows == [] then GENESIS
    else if rows[|rows| - 1].company == company then rows[|rows| - 1].link.seal
    else HeadSeal(rows[..|rows| - 1], company)
  }

  lemma OfSnoc<B>(rows: seq<Row<B>>, row: Row<B>, company: string)
    ensures Of(rows + [row], company) == Of(rows, company) + if row.company == company then [row.link] else []
  {
    assert (rows + [row])[..|rows|] == rows;
  }

  class Ledger<B> {
    const digest: Hash<B>
    var rows: seq<Row<B>>

    /** Every company's chain verifies, and row numbers count up from one. */
    ghost predicate Valid()
      reads this
    {
      && (forall c :: Intact(digest, Of(rows, c)))
      && (forall i :: 0 <= i < |rows| ==> rows[i].seqNo == i + 1)
    }

    function Events(company: string): seq<B>
      reads this
    {
      Bodies(Of(rows, company))
    }

    constructor (digest: Hash<B>)
      ensures Valid() && rows == [] && this.digest == digest
    {
      this.digest := digest;
      rows := [];
    }

    /** Seals the event onto its company's chain. No other company's chain changes. */
    method Append(company: string, event: B) returns (row: Row<B>)
      requires Valid()
      modifies this
      ensures Valid()
      ensures rows == old(rows) + [row]
      ensures row.company == company && row.link.body == event
      ensures Of(rows, company) == old(Of(rows, company)) + [row.link]
      ensures forall c :: c != company ==> Of(rows, c) == old(Of(rows, c))
      ensures Events(company) == old(Events(company)) + [event]
      ensures forall c :: c != company ==> Events(c) == old(Events(c))
    {
      var prevSeal := HeadSeal(rows, company);
      var seal := digest(prevSeal, event);
      row := Row(|rows| + 1, company, Link(event, prevSeal, seal));
      IntactSnoc(digest, Of(rows, company), row.link);
      forall c ensures Of(rows + [row], c) == Of(rows, c) + if c == company then [row.link] else [] {
        OfSnoc(rows, row, c);
      }
      rows := rows + [row];
    }

    /** Walks the chain from genesis. `links` is the SELECT of one company's rows. */
    method VerifyChain(company: string) returns (ok: bool)
      ensures ok <==> Intact(digest, Of(rows, company))
    {
      var prev := GENESIS;
      var links := Of(rows, company);
      for i := 0 to |links|
        invariant prev == Head(links[..i]) && Intact(digest, links[..i])
      {
        assert links[..i + 1] == links[..i] + [links[i]];
        IntactSnoc(digest, links[..i], links[i]);
        if Intact(digest, links) {
          IntactPrefix(digest, links, i + 1);
        }
        if links[i].prevSeal != prev {
          return false;
        }
        var expected := digest(links[i].prevSeal, links[i].body);
        if expected != links[i].seal {
          return false;
        }
        prev := links[i].seal;
      }
      assert links[..|links|] == links;
      return true;
    }
  }
}
