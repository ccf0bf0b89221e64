/** Dependency graphs: each step id maps to the ids it needs. */
module Graphs {

  type Graph = map<string, seq<string>>

  predicate Edge(g: Graph, a: string, b: string) {
    a in g && b in g[a]
  }

  /** Consecutive ids are linked by needs. */
  predicate Walk(g: Graph, w: seq<string>) {
    forall i :: 0 < i < |w| ==> Edge(g, w[i - 1], w[i])
  }

  predicate ClosedWalk(g: Graph, w: seq<string>) {
    |w| >= 2 && w[0] == w[|w| - 1] && Walk(g, w)
  }

  ghost predicate HasCycle(g: Graph) {
    exists w :: ClosedWalk(g, w)
  }

  /** A cycle none of whose steps is in `bounded`. */
  ghost predicate HasCycleAvoiding(g: Graph, bounded: set<string>) {
    exists w :: ClosedWalk(g, w) && forall x <- w :: x !in bounded
  }

  /** Every needed id is itself a step. */
  ghost predicate Closed(g: Graph) {
    forall a, b {:trigger Edge(g, a, b)} :: a in g && b in g[a] && Edge(g, a, b) ==> b in g
  }

  predicate Distinct(s: seq<string>) {
    forall i, j :: 0 <= i < j < |s| ==> s[i] != s[j]
  }

  /** Each listed id comes after every id it needs. */
  ghost predicate NeedsFirst(g: Graph, order: seq<string>) {
    forall i :: 0 <= i < |order| ==> order[i] in g && forall d <- g[order[i]] :: d in order[..i]
  }

  /** Every step exactly once, needs first. */
  ghost predicate TopologicalOrder(g: Graph, order: seq<string>) {
    && Distinct(order)
    && (forall x :: x in order <==> x in g)
    && NeedsFirst(g, order)
  }

  function IndexOf(s: seq<string>, x: string): (r: nat)
    requires x in s
    ensures r < |s| && s[r] == x && forall k :: 0 <= k < r ==> s[k] != x
  {
    if s[0] == x then 0 else 1 + IndexOf(s[1..], x)
  }

  lemma NeedsFirstInit(g: Graph, order: seq<string>)
    requires Distinct(order) && NeedsFirst(g, order) && order != []
    ensures var init, last := order[..|order| - 1], order[|order| - 1];
            && Distinct(init) && NeedsFirst(g, init)
            && last !in init && last in g && (forall d <- g[last] :: d in init)
            && (forall x :: x in order <==> x in init || x == last)
  {
    var init, last := order[..|order| - 1], order[|order| - 1];
    assert order == init + [last];
    assert forall i :: 0 <= i < |init| ==> init[..i] == order[..i] && init[i] == order[i];
    assert order[..|init|] == init;
  }

  lemma NeedsWithin(g: Graph, order: seq<string>, s: string)
    requires NeedsFirst(g, order) && s in order
    ensures s in g && forall d <- g[s] :: d in order
  {
    var i :| 0 <= i < |order| && order[i] == s;
    assert forall d <- g[order[i]] :: d in order[..i];
  }

  /** Every edge of the walk leads to a strictly earlier place in `order`. */
  predicate Descends(order: seq<string>, w: seq<string>) {
    && (forall x <- w :: x in order)
    && (forall k :: 0 < k < |w| ==> IndexOf(order, w[k]) < IndexOf(order, w[k - 1]))
  }

  lemma {:induction false} RankDrops(order: seq<string>, w: seq<string>, i: nat)
    requires Descends(order, w) && i < |w|
    ensures IndexOf(order, w[i]) + i <= IndexOf(order, w[0])
  {
    if i > 0 {
      RankDrops(order, w, i - 1);
    }
  }

  lemma DescentIsOpen(g: Graph, order: seq<string>, w: seq<string>)
    requires Descends(order, w)
    ensures !ClosedWalk(g, w)
  {
    if |w| >= 2 {
      RankDrops(order, w, |w| - 1);
    }
  }

  lemma NeedsRankEarlier(g: Graph, order: seq<string>, a: string, d: string)
    requires NeedsFirst(g, order) && a in order && Edge(g, a, d)
    ensures d in order && IndexOf(order, d) < IndexOf(order, a)
  {
    var i := IndexOf(order, a);
    assert order[i] == a && d in order[..i];
    var k :| 0 <= k < i && order[..i][k] == d;
    assert order[k] == d;
  }

  lemma ClosedWalkNode(g: Graph, w: seq<string>, x: string)
    requires ClosedWalk(g, w) && x in w
    ensures x in g
  {
    var i :| 0 <= i < |w| && w[i] == x;
    if i + 1 < |w| { assert Edge(g, w[i], w[i + 1]); } else { assert Edge(g, w[0], w[1]); }
  }

  /** A graph that can be listed needs-first has no cycle. */
  lemma OrderedIsAcyclic(g: Graph, order: seq<string>)
    requires TopologicalOrder(g, order)
    ensures !HasCycle(g)
  {
    if w :| ClosedWalk(g, w) {
      forall x | x in w ensures x in order {
        ClosedWalkNode(g, w, x);
      }
      forall k | 0 < k < |w| ensures IndexOf(order, w[k]) < IndexOf(order, w[k - 1]) {
        NeedsRankEarlier(g, order, w[k - 1], w[k]);
      }
      DescentIsOpen(g, order, w);
    }
  }

  /** The ids a depth-first search can still enter: its termination measure. */
  function Unstacked(g: Graph, stack: seq<string>): set<string> {
    g.Keys - set x | x in stack
  }

  /** `stack` is a walk, and its top needs each of `next`. */
  ghost predicate Path(g: Graph, stack: seq<string>, next: seq<string>) {
    Walk(g, stack) && (stack == [] || forall d <- next :: Edge(g, stack[|stack| - 1], d))
  }

  lemma WalkSuffix(g: Graph, w: seq<string>, from: nat, next: string)
    requires Walk(g, w) && from < |w| && Edge(g, w[|w| - 1], next)
    ensures Walk(g, w[from..] + [next])
  {
    var s := w[from..] + [next];
    forall i | 0 < i < |s| ensures Edge(g, s[i - 1], s[i]) {
      if i < |s| - 1 { assert s[i - 1] == w[from + i - 1] && s[i] == w[from + i]; }
    }
  }
}
