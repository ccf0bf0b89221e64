/** `WorkflowRunner._in_dependency_order` (`comcmd/kernel/workflow.py`): the runner's
path-stack depth-first ordering of a workflow's steps. */
module DependencyOrders {
  import opened Graphs

  datatype Ordering =
    | Ordered(order: seq<string>)
    | CycleRaised(path: seq<string>)   // WorkflowError, with the path in its message
    | UnknownStep(id: string)          // KeyError from by_id

  function Visit(g: Graph, sid: string, stack: seq<string>, order: seq<string>): Ordering
    decreases Unstacked(g, stack), 0, 0
  {
    if sid in order then Ordered(order)
    else if sid in stack then CycleRaised(stack + [sid])
    else if sid !in g then UnknownStep(sid)
    else
      assert sid in Unstacked(g, stack);
      match VisitNeeds(g, g[sid], stack + [sid], order)
      case Ordered(o) => Ordered(o + [sid])
      case raised => raised
  }

  function VisitNeeds(g: Graph, needs: seq<string>, stack: seq<string>, order: seq<string>): Ordering
    decreases Unstacked(g, stack), 1, |needs|
  {
    if needs == [] then Ordered(order)
    else
      match Visit(g, needs[0], stack, order)
      case Ordered(o) => VisitNeeds(g, needs[1..], stack, o)
      case raised => raised
  }

  /** The whole ordering: visit every listed id from an empty stack. */
  function OrderAll(g: Graph, ids: seq<string>): Ordering {
    VisitNeeds(g, ids, [], [])
  }

  // ---- The in-place traversal --------------------------------------------------------------

  class Traversal {
    const g: Graph
    var seen: set<string>
    var ordered: seq<string>

    constructor (g: Graph)
      ensures this.g == g && seen == {} && ordered == []
    {
      this.g := g;
      seen, ordered := {}, [];
    }

    ghost predicate Valid()
      reads this
    {
      seen == set x | x in ordered
    }

    method VisitStep(sid: string, stack: seq<string>) returns (r: Ordering)
      requires Valid()
      modifies this
      ensures Valid()
      ensures r == Visit(g, sid, stack, old(ordered))
      ensures r.Ordered? ==> ordered == r.order
      decreases Unstacked(g, stack), 0
    {
      if sid in seen {
        return Ordered(ordered);
      }
      if sid in stack {
        return CycleRaised(stack + [sid]);
      }
      if sid !in g {
        return UnknownStep(sid);
      }
      assert sid in Unstacked(g, stack);
      var needs := g[sid];
      ghost var before := ordered;
      for i := 0 to |needs|
        invariant Valid()
        invariant VisitNeeds(g, needs, stack + [sid], before) == VisitNeeds(g, needs[i..], stack + [sid], ordered)
      {
        var d := VisitStep(needs[i], stack + [sid]);
        if !d.Ordered? {
          return d;
        }
        assert needs[i..][1..] == needs[i + 1..];
      }
      seen := seen + {sid};
      ordered := ordered + [sid];
      return Ordered(ordered);
    }
  }

  /** `for s in steps: visit(s["id"], ())`, returning the ordered ids or what was raised. */
  method InDependencyOrder(g: Graph, ids: seq<string>) returns (r: Ordering)
    ensures r == OrderAll(g, ids)
  {
    var t := new Traversal(g);
    for i := 0 to |ids|
      invariant t.Valid() && t.g == g
      invariant OrderAll(g, ids) == VisitNeeds(g, ids[i..], [], t.ordered)
    {
      var d := t.VisitStep(ids[i], []);
      if !d.Ordered? {
        return d;
      }
      assert ids[i..][1..] == ids[i + 1..];
    }
    return Ordered(t.ordered);
  }

  // ---- What the ordering means -------------------------------------------------------------

  ghost predicate Raised(g: Graph, r: Ordering, ids: seq<string>) {
    match r
    case Ordered(_) => true
    case CycleRaised(path) => exists i :: 0 <= i < |path| - 1 && ClosedWalk(g, path[i..])
    case UnknownStep(x) => x !in g && (x in ids || exists a :: Edge(g, a, x))
  }

  ghost predicate Extends(g: Graph, from: seq<string>, stack: seq<string>, ids: seq<string>, to: seq<string>) {
    && from <= to && Distinct(to) && NeedsFirst(g, to)
    && (forall x <- stack :: x in to ==> x in from)
    && (forall x <- ids :: x in to)
  }

  lemma {:induction false} VisitMeans(g: Graph, sid: string, stack: seq<string>, order: seq<string>)
    requires Distinct(order) && NeedsFirst(g, order) && Path(g, stack, [sid])
    ensures Raised(g, Visit(g, sid, stack, order), [sid])
    ensures Visit(g, sid, stack, order).Ordered? ==> Extends(g, order, stack, [sid], Visit(g, sid, stack, order).order)
    decreases Unstacked(g, stack), 0, 0
  {
    if sid in order {
    } else if sid in stack {
      var i := IndexOf(stack, sid);
      assert sid in [sid];
      WalkSuffix(g, stack, i, sid);
      assert (stack + [sid])[i..] == stack[i..] + [sid];
    } else if sid in g {
      assert sid in Unstacked(g, stack);
      assert Path(g, stack + [sid], g[sid]) by {
        assert sid in [sid];
        if stack != [] { WalkSuffix(g, stack, 0, sid); assert stack[0..] == stack; }
      }
      VisitNeedsMeans(g, g[sid], stack + [sid], order);
      var inner := VisitNeeds(g, g[sid], stack + [sid], order);
      if inner.Ordered? {
        assert sid in stack + [sid];
        assert forall i :: 0 <= i <= |inner.order| ==> (inner.order + [sid])[..i] == inner.order[..i];
      }
    }
  }

  lemma {:induction false} VisitNeedsMeans(g: Graph, needs: seq<string>, stack: seq<string>, order: seq<string>)
    requires Distinct(order) && NeedsFirst(g, order) && Path(g, stack, needs)
    ensures Raised(g, VisitNeeds(g, needs, stack, order), if stack == [] then needs else [])
    ensures VisitNeeds(g, needs, stack, order).Ordered? ==>
      Extends(g, order, stack, needs, VisitNeeds(g, needs, stack, order).order)
    decreases Unstacked(g, stack), 1, |needs|
  {
    if needs != [] {
      assert needs[0] in needs && forall d <- needs[1..] :: d in needs;
      assert forall d <- needs :: d == needs[0] || d in needs[1..];
      VisitMeans(g, needs[0], stack, order);
      var first := Visit(g, needs[0], stack, order);
      match first
      case Ordered(o) =>
        VisitNeedsMeans(g, needs[1..], stack, o);
        assert needs[0] in [needs[0]] && needs[0] in o;
      case UnknownStep(x) =>
        if x == needs[0] && stack != [] { assert Edge(g, stack[|stack| - 1], x); }
      case CycleRaised(_) =>
    }
  }

  /** On a workflow whose steps are `ids`, the ordering lists every step once, needs first;
  or it raises, and then the needs really contain a cycle or an unknown id. */
  lemma OrderingIsRight(g: Graph, ids: seq<string>)
    requires forall x :: x in ids <==> x in g
    ensures match OrderAll(g, ids)
            case Ordered(order) => TopologicalOrder(g, order) && Closed(g) && !HasCycle(g)
            case CycleRaised(path) => exists i :: 0 <= i < |path| - 1 && ClosedWalk(g, path[i..])
            case UnknownStep(x) => x !in g && exists a :: Edge(g, a, x)
  {
    VisitNeedsMeans(g, ids, [], []);
    var r := OrderAll(g, ids);
    if r.Ordered? {
      forall x ensures x in r.order <==> x in g {}
      OrderedIsAcyclic(g, r.order);
      assert NeedsFirst(g, r.order);
    }
  }

  /** With all needs known, the runner raises exactly when the needs contain a cycle. */
  lemma RaisesIffCycle(g: Graph, ids: seq<string>)
    requires Closed(g) && forall x :: x in ids <==> x in g
    ensures OrderAll(g, ids).CycleRaised? <==> HasCycle(g)
    ensures OrderAll(g, ids).Ordered? <==> !HasCycle(g)
  {
    OrderingIsRight(g, ids);
  }
}
