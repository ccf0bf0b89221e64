/** `aggregate` of `comcmd/kernel/aggregate.py`: one artifact out of many candidates. */
module Aggregation {
  import opened Rounding

  datatype Value =
    | Null
    | Flag(b: bool)
    | Number(n: real)
    | Text(s: string)
    | Tally(counts: map<string, nat>)
    | Opaque(tag: int)

  /** A worker's typed output: a dictionary. */
  type Artifact = map<string, Value>

  datatype How = First | Best | Majority

  datatype Score = MinusInfinity | Finite(r: real) {
    predicate Less(other: Score) {
      other.Finite? && (MinusInfinity? || r < other.r)
    }
  }

  function Get(c: Artifact, key: string): Value {
    if key in c then c[key] else Null
  }

  function Labels(candidates: seq<Artifact>, key: string): (r: seq<Value>)
    ensures |r| == |candidates| && forall i :: 0 <= i < |r| ==> r[i] == Get(candidates[i], key)
  {
    seq(|candidates|, i requires 0 <= i < |candidates| => Get(candidates[i], key))
  }

  function ScoreOf(c: Artifact, scoreKey: string): Score {
    if scoreKey in c && c[scoreKey].Number? then Finite(c[scoreKey].n) else MinusInfinity
  }

  function Count(labels: seq<Value>, v: Value): nat {
    multiset(labels)[v]
  }

  /** Index of the first greatest element. */
  function FirstMax(s: seq<Score>): (r: nat)
    requires s != []
    ensures r < |s|
    ensures forall j :: 0 <= j < |s| ==> !s[r].Less(s[j])
    ensures forall j :: 0 <= j < r ==> s[j].Less(s[r])
  {
    if |s| == 1 then 0
    else
      var before := FirstMax(s[..|s| - 1]);
      assert forall j :: 0 <= j < |s| - 1 ==> s[..|s| - 1][j] == s[j];
      if s[before].Less(s[|s| - 1]) then |s| - 1 else before
  }

  function VotesFor(labels: seq<Value>): (r: seq<Score>)
    ensures |r| == |labels| && forall i :: 0 <= i < |r| ==> r[i] == Finite(Count(labels, labels[i]) as real)
  {
    seq(|labels|, i requires 0 <= i < |labels| => Finite(Count(labels, labels[i]) as real))
  }

  /** Position of the winning candidate of a majority vote. */
  function Winner(labels: seq<Value>): (r: nat)
    requires labels != []
    ensures r < |labels|
    ensures forall j :: 0 <= j < |labels| ==> Count(labels, labels[j]) <= Count(labels, labels[r])
    ensures forall j :: 0 <= j < r ==> Count(labels, labels[j]) < Count(labels, labels[r])
  {
    var votes := VotesFor(labels);
    var r := FirstMax(votes);
    assert forall j :: 0 <= j < |labels| ==> !votes[r].Less(votes[j]);
    assert forall j :: 0 <= j < r ==> votes[j].Less(votes[r]);
    r
  }

  /** The different labels, in the order in which they first appear. */
  function FirstSeen(labels: seq<Value>): (r: seq<Value>)
    ensures forall v :: v in r <==> v in labels
  {
    if labels == [] then []
    else
      var before, v := FirstSeen(labels[..|labels| - 1]), labels[|labels| - 1];
      assert labels == labels[..|labels| - 1] + [v];
      if v in before then before else before + [v]
  }

  /** `{str(k): v for k, v in votes.items()}`: equal renderings overwrite each other. */
  function VoteTable(order: seq<Value>, labels: seq<Value>, show: Value -> string): map<string, nat> {
    if order == [] then map[]
    else
      var v := order[|order| - 1];
      VoteTable(order[..|order| - 1], labels, show)[show(v) := Count(labels, v)]
  }

  function Stamp(winner: Artifact, votes: map<string, nat>, thousandths: nat, n: nat): Artifact {
    var agreement := Number(thousandths as real / 1000.0);
    winner["_votes" := Tally(votes)]["_agreement" := agreement]["_candidates" := Number(n as real)]
  }

  function Aggregated(candidates: seq<Artifact>, how: How, key: string, scoreKey: string,
                      show: Value -> string): Artifact
  {
    var n := |candidates|;
    if n == 0 then Stamp(map[], map[], 0, 0)
    else
      match how
      case First => Stamp(candidates[0], map[], 1000, n)
      case Best =>
        var scores := seq(n, i requires 0 <= i < n => ScoreOf(candidates[i], scoreKey));
        Stamp(candidates[FirstMax(scores)], map[], 1000, n)
      case Majority =>
        var labels := Labels(candidates, key);
        var w := Winner(labels);
        Stamp(candidates[w], VoteTable(FirstSeen(labels), labels, show), Thousandths(Count(labels, labels[w]), n), n)
  }

  // ---- The loops ---------------------------------------------------------------------------

  lemma CountSnoc(labels: seq<Value>, i: nat, v: Value)
    requires i < |labels|
    ensures Count(labels[..i + 1], v) == Count(labels[..i], v) + if labels[i] == v then 1 else 0
    ensures labels[..i + 1] == labels[..i] + [labels[i]]
    ensures FirstSeen(labels[..i + 1]) == FirstSeen(labels[..i]) + if labels[i] in labels[..i] then [] else [labels[i]]
  {
    assert labels[..i + 1] == labels[..i] + [labels[i]];
    assert labels[..i + 1][..i] == labels[..i];
  }

  /** Of two different labels, the one listed earlier in `FirstSeen` also appears earlier. */
  lemma {:induction false} FirstSeenOrder(labels: seq<Value>, i: nat, j: nat, at: nat)
    requires i < j < |FirstSeen(labels)| && at < |labels| && labels[at] == FirstSeen(labels)[j]
    ensures FirstSeen(labels)[i] in labels[..at] && FirstSeen(labels)[i] != FirstSeen(labels)[j]
  {
    var m := |labels| - 1;
    assert labels == labels[..m] + [labels[m]];
    assert labels[..m][..at] == labels[..at];
    if at < m {
      assert labels[at] in labels[..m];
      if j < |FirstSeen(labels[..m])| {
        FirstSeenOrder(labels[..m], i, j, at);
      }
    } else if j < |FirstSeen(labels[..m])| {
      var k :| 0 <= k < m && labels[..m][k] == FirstSeen(labels[..m])[j];
      FirstSeenOrder(labels[..m], i, j, k);
      assert forall x <- labels[..k] :: x in labels[..m];
      assert labels[..m][..k] == labels[..k];
    }
  }

  method CountVotes(labels: seq<Value>) returns (votes: map<Value, nat>)
    ensures forall v :: v in votes <==> v in labels
    ensures forall v :: v in votes ==> votes[v] == Count(labels, v)
  {
    votes := map[];
    for i := 0 to |labels|
      invariant forall v :: v in votes <==> v in labels[..i]
      invariant forall v :: v in votes ==> votes[v] == Count(labels[..i], v)
    {
      var v := labels[i];
      forall u ensures Count(labels[..i + 1], u) == Count(labels[..i], u) + if v == u then 1 else 0 {
        CountSnoc(labels, i, u);
      }
      assert v in multiset(labels[..i]) <==> v in labels[..i];
      assert labels[..i + 1] == labels[..i] + [v];
      votes := votes[v := (if v in votes then votes[v] else 0) + 1];
    }
    assert labels[..|labels|] == labels;
  }

  method InFirstSeenOrder(labels: seq<Value>) returns (order: seq<Value>)
    ensures order == FirstSeen(labels)
  {
    order := [];
    for i := 0 to |labels|
      invariant order == FirstSeen(labels[..i])
    {
      CountSnoc(labels, i, labels[i]);
      if labels[i] !in order {
        order := order + [labels[i]];
      }
    }
    assert labels[..|labels|] == labels;
  }

  /** A label met before `w` was seen before the label of `w`. */
  lemma MetEarlier(labels: seq<Value>, best: nat, w: nat, j: nat) returns (k: nat)
    requires j < w < |labels| && best < |FirstSeen(labels)|
    requires labels[w] == FirstSeen(labels)[best] && labels[w] !in labels[..w]
    ensures k < best && FirstSeen(labels)[k] == labels[j]
  {
    assert labels[j] in FirstSeen(labels);
    k :| 0 <= k < |FirstSeen(labels)| && FirstSeen(labels)[k] == labels[j];
    assert labels[..w][j] == labels[j] && labels[..w][..j] == labels[..j];
    if k > best {
      FirstSeenOrder(labels, best, k, j);
    }
  }

  /** The first candidate with the first-seen of the most voted labels is the winner. */
  lemma {:induction false} FirstOfBestIsWinner(labels: seq<Value>, best: nat, w: nat)
    requires w < |labels| && best < |FirstSeen(labels)|
    requires labels[w] == FirstSeen(labels)[best] && labels[w] !in labels[..w]
    requires forall j :: 0 <= j < |FirstSeen(labels)| ==>
      Count(labels, FirstSeen(labels)[j]) <= Count(labels, labels[w])
    requires forall j :: 0 <= j < best ==> Count(labels, FirstSeen(labels)[j]) < Count(labels, labels[w])
    ensures w == Winner(labels)
  {
    forall j | 0 <= j < |labels| ensures Count(labels, labels[j]) <= Count(labels, labels[w]) {
      assert labels[j] in FirstSeen(labels);
    }
    forall j | 0 <= j < w ensures Count(labels, labels[j]) < Count(labels, labels[w]) {
      var k := MetEarlier(labels, best, w, j);
    }
  }

  /** `max(order, key=lambda v: (votes[v], -order.index(v)))`. */
  method MostVoted(order: seq<Value>, votes: map<Value, nat>) returns (best: nat)
    requires order != [] && forall v <- order :: v in votes
    ensures best < |order|
    ensures forall j :: 0 <= j < |order| ==> votes[order[j]] <= votes[order[best]]
    ensures forall j :: 0 <= j < best ==> votes[order[j]] < votes[order[best]]
  {
    best := 0;
    for k := 1 to |order|
      invariant best < k
      invariant forall j :: 0 <= j < k ==> votes[order[j]] <= votes[order[best]]
      invariant forall j :: 0 <= j < best ==> votes[order[j]] < votes[order[best]]
    {
      if votes[order[k]] > votes[order[best]] {
        best := k;
      }
    }
  }

  /** `next(c for c in candidates if c.get(key) == best_val)`. */
  method FirstWith(labels: seq<Value>, v: Value) returns (w: nat)
    requires v in labels
    ensures w < |labels| && labels[w] == v && v !in labels[..w]
  {
    w := 0;
    assert labels[..|labels|] == labels;
    while labels[w] != v
      invariant w < |labels| && v !in labels[..w]
      decreases |labels| - w
    {
      assert labels[..w + 1] == labels[..w] + [labels[w]];
      w := w + 1;
    }
  }

  /** The first candidate with the label that is elected, and how many agree on it. */
  method Elect(labels: seq<Value>) returns (w: nat, order: seq<Value>, agreeing: nat)
    requires labels != []
    ensures w == Winner(labels) && order == FirstSeen(labels) && agreeing == Count(labels, labels[w])
  {
    var votes := CountVotes(labels);
    order := InFirstSeenOrder(labels);
    assert labels[0] in order;
    var best := MostVoted(order, votes);
    w := FirstWith(labels, order[best]);
    FirstOfBestIsWinner(labels, best, w);
    agreeing := votes[labels[w]];
  }

  method Aggregate(candidates: seq<Artifact>, how: How, key: string, scoreKey: string, show: Value -> string)
    returns (r: Artifact)
    ensures r == Aggregated(candidates, how, key, scoreKey, show)
  {
    var n := |candidates|;
    if n == 0 {
      return Stamp(map[], map[], 0, 0);
    }
    match how
    case First =>
      r := Stamp(candidates[0], map[], 1000, n);
    case Best =>
      var scores := seq(n, i requires 0 <= i < n => ScoreOf(candidates[i], scoreKey));
      r := Stamp(candidates[FirstMax(scores)], map[], 1000, n);
    case Majority =>
      var labels := Labels(candidates, key);
      var w, order, agreeing := Elect(labels);
      r := Stamp(candidates[w], VoteTable(order, labels, show), Thousandths(agreeing, n), n);
  }

  // ---- Properties --------------------------------------------------------------------------

  function Sum(order: seq<Value>, labels: seq<Value>): nat {
    if order == [] then 0 else Sum(order[..|order| - 1], labels) + Count(labels, order[|order| - 1])
  }

  lemma {:induction false} SumSnoc(order: seq<Value>, labels: seq<Value>, v: Value)
    requires forall i, j :: 0 <= i < j < |order| ==> order[i] != order[j]
    ensures Sum(order, labels + [v]) == Sum(order, labels) + if v in order then 1 else 0
  {
    if order != [] {
      var init, last := order[..|order| - 1], order[|order| - 1];
      assert order == init + [last];
      assert last !in init;
      SumSnoc(init, labels, v);
    }
  }

  lemma {:induction false} FirstSeenDistinct(labels: seq<Value>, i: nat, j: nat)
    requires i < j < |FirstSeen(labels)|
    ensures FirstSeen(labels)[i] != FirstSeen(labels)[j]
  {
    assert FirstSeen(labels)[j] in labels;
    var k :| 0 <= k < |labels| && labels[k] == FirstSeen(labels)[j];
    FirstSeenOrder(labels, i, j, k);
  }

  /** No vote is lost or counted twice. */
  lemma {:induction false} TallySumsToCandidates(labels: seq<Value>)
    ensures Sum(FirstSeen(labels), labels) == |labels|
  {
    if labels != [] {
      var before, v := labels[..|labels| - 1], labels[|labels| - 1];
      assert labels == before + [v];
      var order := FirstSeen(before);
      TallySumsToCandidates(before);
      forall i, j | 0 <= i < j < |order| ensures order[i] != order[j] { FirstSeenDistinct(before, i, j); }
      SumSnoc(order, before, v);
      if v !in before {
        assert (order + [v])[..|order|] == order;
        assert v !in multiset(before);
      }
    }
  }

  /** Completion order does not matter: the agreement is the same for every permutation of the
  candidates' labels, and so is the winning label when it has strictly the most votes. */
  lemma MajorityIgnoresOrder(a: seq<Value>, b: seq<Value>)
    requires a != [] && multiset(a) == multiset(b)
    ensures |a| == |b|
    ensures Count(a, a[Winner(a)]) == Count(b, b[Winner(b)])
    ensures (forall v <- a :: v != a[Winner(a)] ==> Count(a, v) < Count(a, a[Winner(a)])) ==>
      a[Winner(a)] == b[Winner(b)]
  {
    assert |a| == |multiset(a)| && |b| == |multiset(b)|;
    var u, v := a[Winner(a)], b[Winner(b)];
    assert u in multiset(b) && v in multiset(a);
    var i :| 0 <= i < |b| && b[i] == u;
    var j :| 0 <= j < |a| && a[j] == v;
  }
}
