/** When the compiler's check meets its own description, "reject any dependency cycle that isn't
made finite by an explicit bound" (`comcmd/compile/compiler.py`).

It looks at one cycle per back edge, the one along its search stack, so a `loopBound` on a longer
way round can hide an unbounded shortcut. Whether that can happen depends only on which steps are
bounded and on which of them is declared first. */
module LoopBounds {
  import opened Graphs
  import opened CycleChecks

  ghost predicate Describes(g: Graph, ids: seq<string>) {
    forall x :: x in g <==> x in ids
  }

  /** Whatever the steps need of each other, errors are reported exactly for unbounded cycles. */
  ghost predicate Exact(ids: seq<string>, bounded: set<string>) {
    forall g: Graph :: Describes(g, ids) ==> (Errors(g, ids, bounded) != [] <==> HasCycleAvoiding(g, bounded))
  }

  predicate OnlyFirstBounded(ids: seq<string>, bounded: set<string>) {
    forall x <- ids :: x in bounded ==> x == ids[0]
  }

  predicate AtMostOneUnbounded(ids: seq<string>, bounded: set<string>) {
    forall x, y | x in ids && y in ids :: x !in bounded && y !in bounded ==> x == y
  }

  // ---- Sufficiency -------------------------------------------------------------------------

  ghost predicate RootTargeted(s: Search, root: string) {
    forall c <- s.backs :: c != [] && (root in c ==> c[|c| - 1] == root)
  }

  ghost predicate RootFirst(stack: seq<string>, needs: seq<string>, s: Search, root: string) {
    && RootTargeted(s, root)
    && (root in stack ==> stack[0] == root)
    && (root in stack || root in s.finished || (stack == [] && needs != [] && needs[0] == root))
  }

  lemma {:induction false} ExploreRoot(g: Graph, needs: seq<string>, stack: seq<string>, s: Search, root: string)
    requires SearchInv(g, s) && StackInv(g, stack, needs, s) && RootFirst(stack, needs, s, root) && root in g
    ensures RootTargeted(Explore(g, needs, stack, s), root)
    ensures root in stack || root in Explore(g, needs, stack, s).finished
    decreases Unstacked(g, stack), 1, |needs|
  {
    if needs != [] {
      assert needs[0] in needs && forall d <- needs[1..] :: d in needs;
      MeetMeans(g, needs[0], stack, s);
      MeetRoot(g, needs[0], stack, s, root);
      ExploreRoot(g, needs[1..], stack, Meet(g, needs[0], stack, s), root);
    }
  }

  lemma {:induction false} MeetRoot(g: Graph, dep: string, stack: seq<string>, s: Search, root: string)
    requires SearchInv(g, s) && StackInv(g, stack, [dep], s) && RootFirst(stack, [dep], s, root) && root in g
    ensures RootTargeted(Meet(g, dep, stack, s), root)
    ensures root in stack || root in Meet(g, dep, stack, s).finished
    decreases Unstacked(g, stack), 0, 0
  {
    if dep in stack {
      var i, cyc := IndexOf(stack, dep), StackCycle(stack, dep);
      if root in stack[i..] {
        var k :| 0 <= k < |stack| - i && stack[i..][k] == root;
        assert stack[0] == stack[i + k] && i == 0;
      }
    } else if dep !in s.finished && dep in g {
      var here := stack + [dep];
      assert dep in Unstacked(g, stack) && dep !in Unstacked(g, here);
      PushKeepsPath(g, stack, dep);
      assert root in here ==> here[0] == root;
      assert dep in here && forall x <- stack :: x in here;
      ExploreRoot(g, g[dep], here, s, root);
      ExploreMeans(g, g[dep], here, s);
      var inner := Explore(g, g[dep], here, s);
      assert inner.finished <= inner.finished + [dep];
    }
  }

  lemma OnlyFirstBoundedIsExact(g: Graph, ids: seq<string>, bounded: set<string>)
    requires Describes(g, ids) && OnlyFirstBounded(ids, bounded)
    ensures Errors(g, ids, bounded) == [] ==> !HasCycleAvoiding(g, bounded)
  {
    if Errors(g, ids, bounded) == [] {
      if ids != [] {
        ExploreRoot(g, ids, [], Search([], []), ids[0]);
      }
      SearchAllMeans(g, ids);
      var s := SearchAll(g, ids);
      forall c | c in s.backs ensures c != [] && c[|c| - 1] in bounded {
        assert c !in Errors(g, ids, bounded);
        var x :| x in c && x in bounded;
        ClosedWalkNode(g, c, x);
      }
      BackTargetsCutCycles(g, ids, bounded);
    }
  }

  /** The only cycle one unbounded step can be on alone is its own self-loop, and a self-loop is
  its own stack cycle. */
  lemma OneUnboundedIsExact(g: Graph, ids: seq<string>, bounded: set<string>)
    requires Describes(g, ids) && AtMostOneUnbounded(ids, bounded)
    ensures Errors(g, ids, bounded) == [] ==> !HasCycleAvoiding(g, bounded)
  {
    if w :| ClosedWalk(g, w) && forall x <- w :: x !in bounded {
      SearchAllMeans(g, ids);
      var s, u := SearchAll(g, ids), w[0];
      assert w[0] in w && w[1] in w && Edge(g, w[0], w[1]);
      ClosedWalkNode(g, w, w[0]);
      ClosedWalkNode(g, w, w[1]);
      var i := IndexOf(s.finished, u);
      assert Accounted(g, s, u, s.finished[..i]) by { assert Accounted(g, s, s.finished[i], s.finished[..i]); }
      var c :| c in s.backs && |c| >= 2 && c[|c| - 2] == u && c[|c| - 1] == u;
      assert c[..|c| - 1][0] == c[..|c| - 1][|c| - 2];
      assert c == [u, u];
      assert c in Errors(g, ids, bounded);
    }
  }

  // ---- Necessity ---------------------------------------------------------------------------

  /** a needs [b, c], b needs [c], c needs [a]: the search reaches c through b, so the only back
  edge it sees, c to a, closes the long way round. */
  ghost predicate Shortcut(g: Graph, a: string, b: string, c: string) {
    && a != b && b != c && a != c
    && a in g && b in g && c in g
    && g[a] == [b, c] && g[b] == [c] && g[c] == [a]
  }

  lemma ShortcutIsUnboundedCycle(g: Graph, a: string, b: string, c: string, bounded: set<string>)
    requires Shortcut(g, a, b, c) && a !in bounded && c !in bounded
    ensures HasCycleAvoiding(g, bounded)
  {
    var w := [a, c, a];
    assert ClosedWalk(g, w) by { assert Edge(g, a, c) && Edge(g, c, a); }
    assert forall x <- w :: x == a || x == c;
  }

  lemma MeetShortcut(g: Graph, a: string, b: string, c: string, stack: seq<string>, s: Search)
    requires Shortcut(g, a, b, c)
    requires a !in stack && b !in stack && c !in stack
    requires a !in s.finished && b !in s.finished && c !in s.finished
    ensures Meet(g, a, stack, s) == Search(s.finished + [c, b, a], s.backs + [[a, b, c, a]])
  {
    var sa, sb, sc := stack + [a], stack + [a] + [b], stack + [a] + [b] + [c];
    assert sc[|stack|] == a && a in sc && forall k :: 0 <= k < |stack| ==> sc[k] != a by {
      forall k | 0 <= k < |stack| ensures sc[k] != a { assert stack[k] in stack; }
    }
    var i := IndexOf(sc, a);
    assert i == |stack| && StackCycle(sc, a) == [a, b, c, a];
    var t := s.(backs := s.backs + [[a, b, c, a]]);
    assert Meet(g, a, sc, s) == t;
    ExploreOne(g, a, sc, s);
    var tc := t.(finished := t.finished + [c]);
    assert c !in sb && Meet(g, c, sb, s) == tc;
    ExploreOne(g, c, sb, s);
    var tb := tc.(finished := tc.finished + [b]);
    assert b !in sa && Meet(g, b, sa, s) == tb;
    assert c in tb.finished && c !in sa && Meet(g, c, sa, tb) == tb;
    assert [b, c][1..] == [c];
    ExploreOne(g, c, sa, tb);
    assert Explore(g, [b, c], sa, s) == tb;
    assert tb.finished + [a] == s.finished + [c, b, a];
  }

  lemma ExploreOne(g: Graph, dep: string, stack: seq<string>, s: Search)
    ensures Explore(g, [dep], stack, s) == Meet(g, dep, stack, s)
  {
    assert [dep][1..] == [];
  }

  /** Roots that are finished already, or need nothing, close no cycle. */
  lemma {:induction false} LeafRoots(g: Graph, roots: seq<string>, s: Search)
    requires forall x <- roots :: x in g && (x in s.finished || g[x] == [])
    ensures var t := Explore(g, roots, [], s);
            t.backs == s.backs && forall x :: x in t.finished <==> x in s.finished || x in roots
  {
    if roots != [] {
      var x := roots[0];
      assert x in roots && forall y <- roots[1..] :: y in roots;
      if x !in s.finished {
        assert Explore(g, g[x], [] + [x], s) == s;
      }
      LeafRoots(g, roots[1..], Meet(g, x, [], s));
      assert forall y :: y in roots <==> y == x || y in roots[1..];
    }
  }

  function ShortcutGraph(ids: seq<string>, a: string, b: string, c: string): Graph {
    map x | x in ids :: if x == a then [b, c] else if x == b then [c] else if x == c then [a] else []
  }

  /** The first step is unbounded, and a later one is bounded. */
  lemma LaterBoundHidesCycle(ids: seq<string>, bounded: set<string>, b: string, c: string)
    requires Distinct(ids) && b in ids && c in ids && ids[0] != c
    requires ids[0] !in bounded && b in bounded && c !in bounded
    ensures !Exact(ids, bounded)
  {
    var a, s0 := ids[0], Search([], []);
    var g := ShortcutGraph(ids, a, b, c);
    MeetShortcut(g, a, b, c, [], s0);
    var t := Meet(g, a, [], s0);
    assert forall x <- ids[1..] :: x in ids;
    LeafRoots(g, ids[1..], t);
    HiddenCycle(g, ids, bounded, a, b, c);
  }

  lemma HiddenCycle(g: Graph, ids: seq<string>, bounded: set<string>, a: string, b: string, c: string)
    requires Describes(g, ids) && Shortcut(g, a, b, c)
    requires a !in bounded && b in bounded && c !in bounded
    requires SearchAll(g, ids).backs == [[a, b, c, a]]
    ensures !Exact(ids, bounded)
  {
    assert [a, b, c, a][1] == b && !Avoids([a, b, c, a], bounded);
    UnboundedSnoc([], [a, b, c, a], bounded);
    assert Errors(g, ids, bounded) == [];
    ShortcutIsUnboundedCycle(g, a, b, c, bounded);
  }

  /** The first step is bounded, and so is another one. */
  lemma SecondBoundHidesCycle(ids: seq<string>, bounded: set<string>, a: string, b: string, c: string)
    requires Distinct(ids) && a in ids && b in ids && c in ids && a != c
    requires ids[0] in bounded && ids[0] != b && a !in bounded && b in bounded && c !in bounded
    ensures !Exact(ids, bounded)
  {
    var root, rest, s0 := ids[0], ids[1..], Search([], []);
    var g := ShortcutGraph(ids, a, b, c)[root := [a]];
    MeetShortcut(g, a, b, c, [root], s0);
    ExploreOne(g, a, [root], s0);
    var t := Meet(g, root, [], s0);
    assert [] + [root] == [root];
    assert t == Search([c, b, a, root], [[a, b, c, a]]);
    assert forall x <- rest :: x in ids && x in g;
    LeafRoots(g, rest, t);
    HiddenCycle(g, ids, bounded, a, b, c);
  }

  /** The exact scope of the check: it is right about every workflow over these steps if and only
  if no step but the first carries a bound, or at most one step carries none. */
  lemma ExactIff(ids: seq<string>, bounded: set<string>)
    requires Distinct(ids)
    ensures Exact(ids, bounded) <==> OnlyFirstBounded(ids, bounded) || AtMostOneUnbounded(ids, bounded)
  {
    if OnlyFirstBounded(ids, bounded) || AtMostOneUnbounded(ids, bounded) {
      forall g: Graph | Describes(g, ids)
        ensures Errors(g, ids, bounded) != [] <==> HasCycleAvoiding(g, bounded)
      {
        if OnlyFirstBounded(ids, bounded) {
          OnlyFirstBoundedIsExact(g, ids, bounded);
        } else {
          OneUnboundedIsExact(g, ids, bounded);
        }
        if Errors(g, ids, bounded) != [] {
          ReportsAreReal(g, ids, bounded, Errors(g, ids, bounded)[0]);
        }
      }
    } else {
      var b :| b in ids && b in bounded && b != ids[0];
      var x, y :| x in ids && y in ids && x !in bounded && y !in bounded && x != y;
      if ids[0] in bounded {
        SecondBoundHidesCycle(ids, bounded, x, b, y);
      } else {
        var c := if x == ids[0] then y else x;
        LaterBoundHidesCycle(ids, bounded, b, c);
      }
    }
  }
}
