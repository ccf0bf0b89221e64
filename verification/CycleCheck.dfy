/** `_check_cycles` of `comcmd/compile/compiler.py`: the compiler's three-colour search for
dependency cycles that no `loopBound` makes finite. */
module CycleChecks {
  import opened Graphs
  import opened DependencyOrders

  /** `finished` lists the BLACK ids in the order they turned black; the GREY ids are the ones on
  the stack. `backs` holds, for every edge found to lead back to a GREY id, the stack's cycle. */
  datatype Search = Search(finished: seq<string>, backs: seq<seq<string>>)

  function StackCycle(stack: seq<string>, dep: string): seq<string>
    requires dep in stack
  {
    stack[IndexOf(stack, dep)..] + [dep]
  }

  function Explore(g: Graph, needs: seq<string>, stack: seq<string>, s: Search): Search
    decreases Unstacked(g, stack), 1, |needs|
  {
    if needs == [] then s
    else Explore(g, needs[1..], stack, Meet(g, needs[0], stack, s))
  }

  /** One needed id: GREY closes a cycle, WHITE is visited, BLACK and unknown are passed over. */
  function Meet(g: Graph, dep: string, stack: seq<string>, s: Search): Search
    decreases Unstacked(g, stack), 0, 0
  {
    if dep in stack then s.(backs := s.backs + [StackCycle(stack, dep)])
    else if dep in s.finished || dep !in g then s
    else
      assert dep in Unstacked(g, stack);
      var inner := Explore(g, g[dep], stack + [dep], s);
      inner.(finished := inner.finished + [dep])
  }

  function SearchAll(g: Graph, ids: seq<string>): Search {
    Explore(g, ids, [], Search([], []))
  }

  predicate Avoids(walk: seq<string>, bounded: set<string>) {
    forall x <- walk :: x !in bounded
  }

  /** E-CYCLE-UNBOUNDED is reported for the cycles without a bounded step. */
  function Unbounded(backs: seq<seq<string>>, bounded: set<string>): (r: seq<seq<string>>)
    ensures forall c :: c in r <==> c in backs && Avoids(c, bounded)
  {
    if backs == [] then []
    else
      var before, c := Unbounded(backs[..|backs| - 1], bounded), backs[|backs| - 1];
      if Avoids(c, bounded) then before + [c] else before
  }

  lemma UnboundedSnoc(backs: seq<seq<string>>, c: seq<string>, bounded: set<string>)
    ensures Unbounded(backs + [c], bounded) == Unbounded(backs, bounded) + if Avoids(c, bounded) then [c] else []
  {
    assert (backs + [c])[..|backs|] == backs;
  }

  function Errors(g: Graph, ids: seq<string>, bounded: set<string>): seq<seq<string>> {
    Unbounded(SearchAll(g, ids).backs, bounded)
  }

  // ---- The in-place search -----------------------------------------------------------------

  datatype Color = WHITE | GREY | BLACK

  class Checker {
    const g: Graph
    const bounded: set<string>
    var color: map<string, Color>
    var errors: seq<seq<string>>
    ghost var search: Search

    constructor (g: Graph, bounded: set<string>)
      ensures this.g == g && this.bounded == bounded
      ensures Valid([]) && search == Search([], []) && errors == []
    {
      this.g, this.bounded := g, bounded;
      color := map id | id in g :: WHITE;
      errors := [];
      search := Search([], []);
    }

    ghost predicate Valid(stack: seq<string>)
      reads this
    {
      && color.Keys == g.Keys
      && (forall x <- stack :: x in g)
      && (forall x :: x in g ==>
           (color[x] == GREY <==> x in stack) && (color[x] == BLACK <==> x in search.finished))
      && errors == Unbounded(search.backs, bounded)
    }

    /** A back edge: its cycle is an error unless one of its steps is bounded. */
    method Report(stack: seq<string>, dep: string)
      requires Valid(stack) && dep in stack
      modifies this
      ensures Valid(stack) && search == old(search.(backs := search.backs + [StackCycle(stack, dep)]))
    {
      var cyc := StackCycle(stack, dep);
      if Avoids(cyc, bounded) {
        errors := errors + [cyc];
      }
      UnboundedSnoc(search.backs, cyc, bounded);
      search := search.(backs := search.backs + [cyc]);
    }

    method Visit(sid: string, stack: seq<string>)
      requires Valid(stack) && sid in g && color[sid] == WHITE
      modifies this
      ensures Valid(stack)
      ensures search == Meet(g, sid, stack, old(search))
      decreases Unstacked(g, stack)
    {
      color := color[sid := GREY];
      var here := stack + [sid];
      var needs := g[sid];
      ghost var before := search;
      for i := 0 to |needs|
        invariant Valid(here)
        invariant Explore(g, needs, here, before) == Explore(g, needs[i..], here, search)
      {
        var dep := needs[i];
        assert needs[i..][1..] == needs[i + 1..];
        if dep in color && color[dep] == GREY {
          Report(here, dep);
        } else if dep in color && color[dep] == WHITE {
          assert sid in Unstacked(g, stack) && sid !in Unstacked(g, here);
          Visit(dep, here);
        }
      }
      color := color[sid := BLACK];
      search := search.(finished := search.finished + [sid]);
    }
  }

  /** The loop over `needs_graph`, whose keys come in order of first declaration. */
  method CheckCycles(g: Graph, ids: seq<string>, bounded: set<string>) returns (errors: seq<seq<string>>)
    requires forall x <- ids :: x in g
    ensures errors == Errors(g, ids, bounded)
  {
    var checker := new Checker(g, bounded);
    for i := 0 to |ids|
      invariant checker.Valid([]) && checker.g == g && checker.bounded == bounded
      invariant SearchAll(g, ids) == Explore(g, ids[i..], [], checker.search)
    {
      assert ids[i..][1..] == ids[i + 1..];
      if checker.color[ids[i]] == WHITE {
        checker.Visit(ids[i], []);
      }
    }
    return checker.errors;
  }

  // ---- What the search means ---------------------------------------------------------------

  ghost predicate Recorded(s: Search, a: string, d: string) {
    exists c <- s.backs :: |c| >= 2 && c[|c| - 2] == a && c[|c| - 1] == d
  }

  ghost predicate Accounted(g: Graph, s: Search, a: string, earlier: seq<string>) {
    a in g && forall d <- g[a] :: d in g ==> d in earlier || Recorded(s, a, d)
  }

  ghost predicate SearchInv(g: Graph, s: Search) {
    && Distinct(s.finished)
    && (forall i :: 0 <= i < |s.finished| ==> Accounted(g, s, s.finished[i], s.finished[..i]))
    && (forall c <- s.backs :: ClosedWalk(g, c) && Distinct(c[..|c| - 1]))
  }

  ghost predicate StackInv(g: Graph, stack: seq<string>, needs: seq<string>, s: Search) {
    && Path(g, stack, needs) && Distinct(stack)
    && (forall x <- stack :: x in g && x !in s.finished)
  }

  ghost predicate Grows(s: Search, t: Search) {
    s.finished <= t.finished && s.backs <= t.backs
  }

  lemma RecordedGrows(s: Search, t: Search, a: string, d: string)
    requires Grows(s, t) && Recorded(s, a, d)
    ensures Recorded(t, a, d)
  {
    var c :| c in s.backs && |c| >= 2 && c[|c| - 2] == a && c[|c| - 1] == d;
    var i :| 0 <= i < |s.backs| && s.backs[i] == c;
    assert t.backs[i] == c;
  }

  lemma AccountedGrows(g: Graph, s: Search, t: Search)
    requires SearchInv(g, s) && Grows(s, t)
    ensures forall i :: 0 <= i < |s.finished| ==> Accounted(g, t, t.finished[i], t.finished[..i])
  {
    forall i | 0 <= i < |s.finished| ensures Accounted(g, t, t.finished[i], t.finished[..i]) {
      assert t.finished[..i] == s.finished[..i];
      assert Accounted(g, s, s.finished[i], s.finished[..i]);
      forall d | d in g[t.finished[i]] && d in g && d !in t.finished[..i] ensures Recorded(t, t.finished[i], d) {
        RecordedGrows(s, t, t.finished[i], d);
      }
    }
  }

  lemma BackEdgeCloses(g: Graph, stack: seq<string>, dep: string)
    requires Path(g, stack, [dep]) && Distinct(stack) && (forall x <- stack :: x in g) && dep in stack
    ensures var cyc := StackCycle(stack, dep);
      && ClosedWalk(g, cyc) && Distinct(cyc[..|cyc| - 1])
      && cyc[|cyc| - 2] == stack[|stack| - 1] && cyc[|cyc| - 1] == dep
  {
    var i, cyc := IndexOf(stack, dep), StackCycle(stack, dep);
    assert dep in [dep];
    WalkSuffix(g, stack, i, dep);
    assert cyc[..|cyc| - 1] == stack[i..];
  }

  lemma BackEdge(g: Graph, stack: seq<string>, dep: string, s: Search)
    requires SearchInv(g, s) && StackInv(g, stack, [dep], s) && dep in stack
    ensures var t := s.(backs := s.backs + [StackCycle(stack, dep)]);
            SearchInv(g, t) && Recorded(t, stack[|stack| - 1], dep)
  {
    var cyc := StackCycle(stack, dep);
    var t := s.(backs := s.backs + [cyc]);
    BackEdgeCloses(g, stack, dep);
    assert t.backs[|s.backs|] == cyc;
    AccountedGrows(g, s, t);
  }

  /** `needs` are settled: each is finished, or its edge from the top of the stack is recorded. */
  ghost predicate Settled(g: Graph, needs: seq<string>, stack: seq<string>, s: Search) {
    forall d <- needs :: d in g ==> d in s.finished || (stack != [] && Recorded(s, stack[|stack| - 1], d))
  }

  lemma SettledGrows(g: Graph, needs: seq<string>, stack: seq<string>, s: Search, t: Search)
    requires Settled(g, needs, stack, s) && Grows(s, t)
    ensures Settled(g, needs, stack, t)
  {
    forall d | d in needs && d in g && d !in t.finished ensures stack != [] && Recorded(t, stack[|stack| - 1], d) {
      RecordedGrows(s, t, stack[|stack| - 1], d);
    }
  }

  lemma {:induction false} ExploreMeans(g: Graph, needs: seq<string>, stack: seq<string>, s: Search)
    requires SearchInv(g, s) && StackInv(g, stack, needs, s)
    ensures var t := Explore(g, needs, stack, s);
            SearchInv(g, t) && Grows(s, t) && StackInv(g, stack, needs, t) && Settled(g, needs, stack, t)
    decreases Unstacked(g, stack), 1, |needs|
  {
    if needs != [] {
      var dep, rest := needs[0], needs[1..];
      assert dep in needs && forall d <- rest :: d in needs;
      assert forall d <- needs :: d == dep || d in rest;
      var next := Meet(g, dep, stack, s);
      MeetMeans(g, dep, stack, s);
      ExploreMeans(g, rest, stack, next);
      SettledGrows(g, [dep], stack, next, Explore(g, rest, stack, next));
      assert dep in [dep];
    }
  }

  lemma {:induction false} MeetMeans(g: Graph, dep: string, stack: seq<string>, s: Search)
    requires SearchInv(g, s) && StackInv(g, stack, [dep], s)
    ensures var t := Meet(g, dep, stack, s);
            SearchInv(g, t) && Grows(s, t) && StackInv(g, stack, [dep], t) && Settled(g, [dep], stack, t)
    decreases Unstacked(g, stack), 0, 0
  {
    if dep in stack {
      BackEdge(g, stack, dep, s);
    } else if dep !in s.finished && dep in g {
      var here := stack + [dep];
      assert dep in Unstacked(g, stack) && dep !in Unstacked(g, here);
      PushKeepsPath(g, stack, dep);
      ExploreMeans(g, g[dep], here, s);
      Finish(g, stack, dep, Explore(g, g[dep], here, s));
    }
  }

  lemma PushKeepsPath(g: Graph, stack: seq<string>, dep: string)
    requires Path(g, stack, [dep]) && dep in g
    ensures Path(g, stack + [dep], g[dep])
  {
    assert dep in [dep];
    if stack != [] { WalkSuffix(g, stack, 0, dep); assert stack[0..] == stack; }
  }

  lemma FinishedAccounted(g: Graph, stack: seq<string>, dep: string, s: Search)
    requires dep in g && Settled(g, g[dep], stack + [dep], s)
    ensures Accounted(g, s.(finished := s.finished + [dep]), dep, s.finished)
  {
    forall d | d in g[dep] && d in g && d !in s.finished ensures Recorded(s.(finished := s.finished + [dep]), dep, d) {
      assert Recorded(s, dep, d);
      RecordedGrows(s, s.(finished := s.finished + [dep]), dep, d);
    }
  }

  lemma {:induction false} Finish(g: Graph, stack: seq<string>, dep: string, s: Search)
    requires SearchInv(g, s) && dep in g && StackInv(g, stack + [dep], g[dep], s)
    requires Settled(g, g[dep], stack + [dep], s)
    ensures var t := s.(finished := s.finished + [dep]);
            SearchInv(g, t) && forall x <- stack :: x !in t.finished
  {
    var t := s.(finished := s.finished + [dep]);
    OntoStack(stack, dep);
    AccountedGrows(g, s, t);
    FinishedAccounted(g, stack, dep, s);
    forall i | 0 <= i < |t.finished| ensures Accounted(g, t, t.finished[i], t.finished[..i]) {
      if i == |s.finished| {
        assert t.finished[..i] == s.finished;
      }
    }
  }

  lemma OntoStack(stack: seq<string>, dep: string)
    requires Distinct(stack + [dep])
    ensures dep in stack + [dep] && dep !in stack && forall x <- stack :: x in stack + [dep]
  {
    var here := stack + [dep];
    forall x | x in stack ensures x in here && x != dep {
      var i :| 0 <= i < |stack| && stack[i] == x;
      assert here[i] == x && here[|stack|] == dep;
    }
  }

  lemma SearchAllMeans(g: Graph, ids: seq<string>)
    requires forall x :: x in ids <==> x in g
    ensures SearchInv(g, SearchAll(g, ids))
    ensures forall x :: x in g <==> x in SearchAll(g, ids).finished
  {
    ExploreMeans(g, ids, [], Search([], []));
    var s := SearchAll(g, ids);
    forall x | x in s.finished ensures x in g {
      var i :| 0 <= i < |s.finished| && s.finished[i] == x;
      assert Accounted(g, s, s.finished[i], s.finished[..i]);
    }
  }

  /** Every reported path is a real cycle of the workflow, with no bounded step on it. */
  lemma ReportsAreReal(g: Graph, ids: seq<string>, bounded: set<string>, c: seq<string>)
    requires forall x :: x in ids <==> x in g
    requires c in Errors(g, ids, bounded)
    ensures ClosedWalk(g, c) && Avoids(c, bounded)
  {
    SearchAllMeans(g, ids);
  }

  lemma {:induction false} EdgeRanksEarlier(g: Graph, s: Search, targets: set<string>, a: string, d: string)
    requires SearchInv(g, s) && forall c <- s.backs :: c[|c| - 1] in targets
    requires a in s.finished && Edge(g, a, d) && d in g && d !in targets
    ensures d in s.finished && IndexOf(s.finished, d) < IndexOf(s.finished, a)
  {
    var i := IndexOf(s.finished, a);
    assert Accounted(g, s, s.finished[i], s.finished[..i]);
    var j :| 0 <= j < i && s.finished[..i][j] == d;
    assert s.finished[j] == d;
  }

  /** When every recorded back edge leads to a step of `targets`, all cycles meet `targets`. */
  lemma BackTargetsCutCycles(g: Graph, ids: seq<string>, targets: set<string>)
    requires forall x :: x in ids <==> x in g
    requires forall c <- SearchAll(g, ids).backs :: c != [] && c[|c| - 1] in targets
    ensures !HasCycleAvoiding(g, targets)
  {
    SearchAllMeans(g, ids);
    var s := SearchAll(g, ids);
    if w :| ClosedWalk(g, w) && forall x <- w :: x !in targets {
      forall x | x in w ensures x in s.finished {
        ClosedWalkNode(g, w, x);
      }
      forall k | 0 < k < |w| ensures IndexOf(s.finished, w[k]) < IndexOf(s.finished, w[k - 1]) {
        assert w[k] in w && w[k] in g && Edge(g, w[k - 1], w[k]);
        EdgeRanksEarlier(g, s, targets, w[k - 1], w[k]);
      }
      DescentIsOpen(g, s.finished, w);
    }
  }

  /** With no bounded step the compiler reports an error exactly when there is a cycle. */
  lemma ReportsIffCycle(g: Graph, ids: seq<string>)
    requires forall x :: x in ids <==> x in g
    ensures Errors(g, ids, {}) != [] <==> HasCycle(g)
  {
    var errors := Errors(g, ids, {});
    assert forall w :: ClosedWalk(g, w) ==> forall x <- w :: x !in {};
    assert forall c <- SearchAll(g, ids).backs :: Avoids(c, {}) && c in errors;
    if errors != [] {
      ReportsAreReal(g, ids, {}, errors[0]);
    } else {
      BackTargetsCutCycles(g, ids, {});
    }
  }

  /** The compiler and the runner agree: with all needs known and no `loopBound`, the compiler
  rejects the workflow exactly when the runner would raise on it. */
  lemma CompilerAgreesWithRunner(g: Graph, ids: seq<string>)
    requires Closed(g) && forall x :: x in ids <==> x in g
    ensures Errors(g, ids, {}) != [] <==> OrderAll(g, ids).CycleRaised?
    ensures Errors(g, ids, {}) == [] <==> OrderAll(g, ids).Ordered?
  {
    ReportsIffCycle(g, ids);
    RaisesIffCycle(g, ids);
  }
}
