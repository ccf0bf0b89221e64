/** `_normalize` of `comcmd/compile/compiler.py` and the identity of a revision
(`comcmd/kernel/records.py`): roles, workflows and actions are sorted by id before they are
hashed, so the order they are declared in does not matter. */
module Normalization {

  datatype Item<T> = Item(id: string, body: T)

  /** Strings are compared character by character. */
  predicate AtMost(a: string, b: string) {
    a == [] || (b != [] && (a[0] < b[0] || (a[0] == b[0] && AtMost(a[1..], b[1..]))))
  }

  lemma {:induction false} AtMostTotal(a: string, b: string)
    ensures AtMost(a, b) || AtMost(b, a)
    ensures AtMost(a, b) && AtMost(b, a) ==> a == b
  {
    if a != [] && b != [] {
      AtMostTotal(a[1..], b[1..]);
      assert a == [a[0]] + a[1..] && b == [b[0]] + b[1..];
    }
  }

  lemma {:induction false} AtMostTransitive(a: string, b: string, c: string)
    requires AtMost(a, b) && AtMost(b, c)
    ensures AtMost(a, c)
  {
    if a != [] && a[0] == b[0] == c[0] {
      AtMostTransitive(a[1..], b[1..], c[1..]);
    }
  }

  ghost predicate Ascending<T>(s: seq<Item<T>>) {
    forall i, j :: 0 <= i <= j < |s| ==> AtMost(s[i].id, s[j].id)
  }

  /** `sorted(..., key=id)`: the stable sort. */
  function SortById<T>(s: seq<Item<T>>): (r: seq<Item<T>>)
    ensures Ascending(r)
  {
    if s == [] then [] else Insert(s[0], SortById(s[1..]))
  }

  function Insert<T>(x: Item<T>, s: seq<Item<T>>): (r: seq<Item<T>>)
    requires Ascending(s)
    ensures Ascending(r) && forall y <- r :: y == x || y in s
  {
    if s == [] then
      AtMostTotal(x.id, x.id);
      [x]
    else if AtMost(x.id, s[0].id) then
      FirstIsLeast(x, s);
      PrependAscends(x, s);
      [x] + s
    else
      AtMostTotal(x.id, s[0].id);
      var rest := Insert(x, s[1..]);
      PrependAscends(s[0], rest);
      [s[0]] + rest
  }

  lemma FirstIsLeast<T>(x: Item<T>, s: seq<Item<T>>)
    requires Ascending(s) && s != [] && AtMost(x.id, s[0].id)
    ensures forall y <- s :: AtMost(x.id, y.id)
  {
    forall i | 0 <= i < |s| ensures AtMost(x.id, s[i].id) {
      AtMostTransitive(x.id, s[0].id, s[i].id);
    }
  }

  lemma PrependAscends<T>(x: Item<T>, s: seq<Item<T>>)
    requires Ascending(s) && forall y <- s :: AtMost(x.id, y.id)
    ensures Ascending([x] + s)
  {
    AtMostTotal(x.id, x.id);
  }

  /** The items of one id, in order. */
  function WithId<T>(s: seq<Item<T>>, id: string): (r: seq<Item<T>>)
  {
    if s == [] then [] else (if s[0].id == id then [s[0]] else []) + WithId(s[1..], id)
  }

  lemma {:induction false} InsertKeepsGroups<T>(x: Item<T>, s: seq<Item<T>>, id: string)
    requires Ascending(s)
    ensures WithId(Insert(x, s), id) == (if x.id == id then [x] else []) + WithId(s, id)
  {
    if s != [] && !AtMost(x.id, s[0].id) {
      InsertKeepsGroups(x, s[1..], id);
      var rest := Insert(x, s[1..]);
      assert ([s[0]] + rest)[1..] == rest;
      if x.id == id && s[0].id == id { AtMostTotal(x.id, x.id); }
    } else {
      assert ([x] + s)[1..] == s;
    }
  }

  ghost predicate SameGroups<T>(a: seq<Item<T>>, b: seq<Item<T>>) {
    forall id :: WithId(a, id) == WithId(b, id)
  }

  /** Sorting is stable: it keeps the items of each id, and their order. */
  lemma {:induction false} SortKeepsGroups<T>(s: seq<Item<T>>, id: string)
    ensures WithId(SortById(s), id) == WithId(s, id)
  {
    if s != [] {
      SortKeepsGroups(s[1..], id);
      InsertKeepsGroups(s[0], SortById(s[1..]), id);
    }
  }

  lemma {:induction false} GroupMembers<T>(s: seq<Item<T>>, id: string)
    ensures forall x <- WithId(s, id) :: x in s && x.id == id
    ensures forall x <- s :: x.id == id ==> x in WithId(s, id)
  {
    if s != [] {
      GroupMembers(s[1..], id);
    }
  }

  lemma NonEmptyGroups<T>(a: seq<Item<T>>, b: seq<Item<T>>)
    requires SameGroups(a, b) && b != []
    ensures a != []
  {
    assert WithId(a, b[0].id) == WithId(b, b[0].id);
  }

  lemma {:induction false} NoGroup<T>(s: seq<Item<T>>, id: string)
    requires forall x <- s :: x.id != id
    ensures WithId(s, id) == []
  {
    if s != [] {
      NoGroup(s[1..], id);
    }
  }

  /** Ascending sequences with the same groups are the same. */
  lemma {:induction false} GroupsDetermine<T>(a: seq<Item<T>>, b: seq<Item<T>>)
    requires Ascending(a) && Ascending(b) && SameGroups(a, b)
    ensures a == b
    decreases |a|
  {
    if b != [] {
      NonEmptyGroups(a, b);
    }
    if a != [] {
      var id := a[0].id;
      assert WithId(a, id) == WithId(b, id) && a[0] in WithId(a, id);
      GroupMembers(b, id);
      assert b != [] && a[0] in b;
      assert WithId(a, b[0].id) == WithId(b, b[0].id) && b[0] in WithId(b, b[0].id);
      GroupMembers(a, b[0].id);
      assert b[0] in a;
      FirstIsLeastOfAll(a, b[0]);
      FirstIsLeastOfAll(b, a[0]);
      AtMostTotal(a[0].id, b[0].id);
      forall i ensures WithId(a[1..], i) == WithId(b[1..], i) {
        assert WithId(a, i) == WithId(b, i);
        assert a[0].id == id && b[0].id == id;
        assert i != id ==> WithId(a, i) == WithId(a[1..], i) && WithId(b, i) == WithId(b[1..], i);
        assert i == id ==> WithId(a, i)[1..] == WithId(a[1..], i) && WithId(b, i)[1..] == WithId(b[1..], i);
      }
      assert WithId(a, id)[0] == a[0] && WithId(b, id)[0] == b[0];
      GroupsDetermine(a[1..], b[1..]);
      assert a == [a[0]] + a[1..] && b == [b[0]] + b[1..];
    }
  }

  lemma FirstIsLeastOfAll<T>(s: seq<Item<T>>, y: Item<T>)
    requires Ascending(s) && y in s
    ensures AtMost(s[0].id, y.id)
  {
    var i :| 0 <= i < |s| && s[i] == y;
    assert AtMost(s[0].id, s[i].id);
  }

  /** Two declaration orders sort to the same body exactly when the items that share an id come in
  the same order in both. */
  lemma {:induction false} SortAgreesIff<T>(a: seq<Item<T>>, b: seq<Item<T>>)
    ensures SortById(a) == SortById(b) <==> SameGroups(a, b)
  {
    forall id ensures WithId(SortById(a), id) == WithId(a, id) && WithId(SortById(b), id) == WithId(b, id) {
      SortKeepsGroups(a, id);
      SortKeepsGroups(b, id);
    }
    if SortById(a) == SortById(b) {
      forall id ensures WithId(a, id) == WithId(b, id) {
        assert WithId(SortById(a), id) == WithId(a, id);
      }
    }
    if SameGroups(a, b) {
      GroupsDetermine(SortById(a), SortById(b));
    }
  }

  predicate DistinctIds<T>(s: seq<Item<T>>) {
    forall i, j :: 0 <= i < j < |s| ==> s[i].id != s[j].id
  }

  lemma {:induction false} GroupOfDistinct<T>(s: seq<Item<T>>, x: Item<T>)
    requires DistinctIds(s) && x in s
    ensures WithId(s, x.id) == [x]
  {
    if s[0] == x {
      forall y | y in s[1..] ensures y.id != x.id {
        var i :| 0 <= i < |s[1..]| && s[1..][i] == y;
        assert s[0].id != s[i + 1].id;
      }
      NoGroup(s[1..], x.id);
    } else {
      GroupOfDistinct(s[1..], x);
    }
  }

  lemma NonEmpty<T>(p: seq<T>, q: seq<T>)
    requires p != [] && forall x <- p :: x in q
    ensures q != []
  {
    assert p[0] in q;
  }

  /** With distinct ids, every permutation sorts to the same body. */
  lemma PermutationsAgree<T>(a: seq<Item<T>>, b: seq<Item<T>>)
    requires DistinctIds(a) && DistinctIds(b) && forall x :: x in a <==> x in b
    ensures SortById(a) == SortById(b)
  {
    forall id ensures WithId(a, id) == WithId(b, id) {
      GroupMembers(a, id);
      GroupMembers(b, id);
      if WithId(b, id) != [] {
        NonEmpty(WithId(b, id), WithId(a, id));
      }
      if WithId(a, id) != [] {
        GroupOfDistinct(a, WithId(a, id)[0]);
        GroupOfDistinct(b, WithId(a, id)[0]);
      }
    }
    SortAgreesIff(a, b);
  }

  // ---- Revisions ---------------------------------------------------------------------------

  /** A company: the three collections that are sorted, and everything else. */
  datatype Company<T> = Company(roles: seq<Item<T>>, workflows: seq<Item<T>>, actions: seq<Item<T>>, rest: T)

  function Normalized<T>(c: Company<T>): Company<T> {
    Company(SortById(c.roles), SortById(c.workflows), SortById(c.actions), c.rest)
  }

  /** `content_id("rev", ...)`: collision-free, so it is the name, the number and the body. */
  datatype RevisionId<T> = RevisionId(company: string, revision: int, compiled: Company<T>)

  function Revision<T>(name: string, revision: int, c: Company<T>): RevisionId<T> {
    RevisionId(name, revision, Normalized(c))
  }

  /** Two companies have one revision id exactly when they differ at most in how roles, workflows
  and actions of different ids are interleaved. */
  lemma SameRevisionIff<T>(name: string, revision: int, a: Company<T>, b: Company<T>)
    ensures Revision(name, revision, a) == Revision(name, revision, b)
       <==>
         && a.rest == b.rest && SameGroups(a.roles, b.roles)
         && SameGroups(a.workflows, b.workflows) && SameGroups(a.actions, b.actions)
  {
    SortAgreesIff(a.roles, b.roles);
    SortAgreesIff(a.workflows, b.workflows);
    SortAgreesIff(a.actions, b.actions);
  }
}
