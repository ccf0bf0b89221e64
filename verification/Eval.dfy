/** The evaluation gate of `comcmd/eval/harness.py`: promote a variant workflow only when it was
measured to beat the baseline. Arithmetic is exact; the source rounds binary floats. */
module Evaluation {
  import opened Rounding
  import opened Aggregation

  /** What `_run_one` returns for one scenario, beside the wall-clock time. */
  datatype RunOutcome = RunOutcome(artifacts: map<string, Artifact>, calls: nat, denies: nat)

  datatype Metrics = Metrics(scenarios: nat, successes: nat, cost: nat, denies: nat) {
    /** In thousandths. */
    function SuccessRate(): nat {
      if scenarios == 0 then 0 else Thousandths(successes, scenarios)
    }
  }

  predicate Satisfies(art: Artifact, expected: map<string, Value>) {
    forall k <- expected :: Get(art, k) == expected[k]
  }

  predicate Matches(run: RunOutcome, expected: map<string, Value>) {
    exists step <- run.artifacts :: Satisfies(run.artifacts[step], expected)
  }

  function Total(s: seq<nat>): nat {
    if s == [] then 0 else Total(s[..|s| - 1]) + s[|s| - 1]
  }

  ghost function Succeeding(runs: seq<RunOutcome>, expected: seq<map<string, Value>>): set<nat>
    requires |runs| == |expected|
  {
    set i: nat | i < |runs| && Matches(runs[i], expected[i])
  }

  function Costs(runs: seq<RunOutcome>): seq<nat> {
    seq(|runs|, i requires 0 <= i < |runs| => runs[i].calls)
  }

  function Denials(runs: seq<RunOutcome>): seq<nat> {
    seq(|runs|, i requires 0 <= i < |runs| => runs[i].denies)
  }

  method Measure(runs: seq<RunOutcome>, expected: seq<map<string, Value>>) returns (m: Metrics)
    requires |runs| == |expected|
    ensures m.scenarios == |runs|
    ensures m.successes == |Succeeding(runs, expected)| <= |runs|
    ensures m.cost == Total(Costs(runs)) && m.denies == Total(Denials(runs))
  {
    m := Metrics(|runs|, 0, 0, 0);
    ghost var done: set<nat> := {};
    for i := 0 to |runs|
      invariant m.scenarios == |runs|
      invariant done == set k: nat | k < i && Matches(runs[k], expected[k])
      invariant m.successes == |done| <= i
      invariant m.cost == Total(Costs(runs)[..i]) && m.denies == Total(Denials(runs)[..i])
    {
      assert Costs(runs)[..i + 1][..i] == Costs(runs)[..i];
      assert Denials(runs)[..i + 1][..i] == Denials(runs)[..i];
      m := m.(cost := m.cost + runs[i].calls, denies := m.denies + runs[i].denies);
      if Matches(runs[i], expected[i]) {
        m := m.(successes := m.successes + 1);
        done := done + {i};
      }
    }
    assert Costs(runs)[..|runs|] == Costs(runs) && Denials(runs)[..|runs|] == Denials(runs);
    assert done == Succeeding(runs, expected);
  }

  datatype Ratio = Finitely(r: real) | Infinite {
    predicate AtMost(other: Ratio) {
      other.Infinite? || (Finitely? && r <= other.r)
    }
  }

  /** Infinite when the baseline was free. */
  function CostRatio(baseline: nat, variant: nat): Ratio {
    if baseline == 0 then Infinite else Finitely(variant as real / baseline as real)
  }

  /** The verdict. */
  predicate Promotes(base: Metrics, variant: Metrics, maxCostRatio: Ratio) {
    && variant.SuccessRate() > base.SuccessRate()
    && variant.denies <= base.denies
    && CostRatio(base.cost, variant.cost).AtMost(maxCostRatio)
  }

  // ---- What rounding does to the comparison ------------------------------------------------

  lemma SmallMultiple(n: nat, k: int)
    requires n > 0 && n * k < n
    ensures k <= 0
  {
    assert k >= 1 ==> n * k >= n * 1;
  }

  /** Multiples of n that lie within n / 2 of a and b come in the order of a and b. */
  lemma {:induction false} NearestOrdered(x: int, y: int, n: int, a: int, b: int)
    requires n > 0 && a < b && -n <= 2 * (a - x * n) && 2 * (b - y * n) <= n
    ensures x <= y
  {
    assert n * (x - y) == x * n - y * n;
    SmallMultiple(n, x - y);
  }

  lemma {:induction false} RoundDivMonotone(a: nat, b: nat, n: nat)
    requires n > 0 && a <= b
    ensures RoundDiv(a, n) <= RoundDiv(b, n)
  {
    if a < b {
      RoundDivNearest(a, n);
      RoundDivNearest(b, n);
      NearestOrdered(RoundDiv(a, n), RoundDiv(b, n), n, a, b);
    }
  }

  lemma {:induction false} RatesSeparate(s: nat, t: nat, n: nat)
    requires 0 < n <= 1000 && s < t
    ensures Thousandths(s, n) < Thousandths(t, n)
  {
    if n < 1000 {
      RoundDivNearest(1000 * s, n);
      RoundDivNearest(1000 * t, n);
      NearestSeparate(RoundDiv(1000 * s, n), RoundDiv(1000 * t, n), n, s, t);
    } else {
      WholeThousandths(s);
      WholeThousandths(t);
    }
  }

  lemma NearestSeparate(x: int, y: int, n: int, s: int, t: int)
    requires 0 < n < 1000 && s < t && -n <= 2 * (1000 * s - x * n) && 2 * (1000 * t - y * n) <= n
    ensures x < y
  {
    assert (x + 1) * n == x * n + n;
    NearestOrdered(x + 1, y, n, 1000 * s + n, 1000 * t);
  }

  lemma WholeThousandths(s: nat)
    ensures Thousandths(s, 1000) == s
  {
    assert 1000 * s / 1000 == s && 1000 * s % 1000 == 0;
  }

  ghost predicate Faithful(n: nat)
    requires n > 0
  {
    forall s: nat, t: nat | s <= n && t <= n :: Thousandths(s, n) > Thousandths(t, n) <==> s > t
  }

  lemma {:induction false} FaithfulRatesClimb(n: nat, s: nat)
    requires n > 0 && Faithful(n) && s <= n
    ensures Thousandths(s, n) >= s
  {
    if s > 0 {
      FaithfulRatesClimb(n, s - 1);
      assert s > s - 1;
    }
  }

  lemma {:induction false} FullRate(n: nat)
    requires n > 0
    ensures Thousandths(n, n) == 1000
  {
    assert 1000 * n / n == 1000 && 1000 * n % n == 0 by {
      assert 1000 * n == n * 1000;
      DivExact(1000, n);
    }
  }

  lemma {:induction false} DivExact(q: nat, n: nat)
    requires n > 0
    ensures q * n / n == q && q * n % n == 0
  {
    var d, m := q * n / n, q * n % n;
    assert q * n == d * n + m;
    assert n * (q - d) == m && n * (d - q) == -m;
    SmallMultiple(n, q - d);
    SmallMultiple(n, d - q);
  }

  /** Three decimals tell every two success counts over n scenarios apart exactly when n does not
  exceed 1000. */
  lemma RoundingFaithfulIff(n: nat)
    requires n > 0
    ensures Faithful(n) <==> n <= 1000
  {
    if n <= 1000 {
      forall s: nat, t: nat | s <= n && t <= n ensures Thousandths(s, n) > Thousandths(t, n) <==> s > t {
        if s > t { RatesSeparate(t, s, n); }
        if s < t { RatesSeparate(s, t, n); }
      }
    } else if Faithful(n) {
      FaithfulRatesClimb(n, n);
      FullRate(n);
    }
  }

  /** Over the same scenarios a promoted variant has strictly more successes, however many
  scenarios there are; and up to 1000 scenarios rounding never withholds a promotion: the
  verdict is the comparison of the exact counts. */
  lemma {:induction false} PromotionBound(base: Metrics, variant: Metrics, maxCostRatio: Ratio)
    requires base.scenarios == variant.scenarios
    ensures Promotes(base, variant, maxCostRatio) ==> variant.successes > base.successes
    ensures 0 < base.scenarios <= 1000 && base.successes <= base.scenarios && variant.successes <= base.scenarios ==>
      (Promotes(base, variant, maxCostRatio) <==>
        && variant.successes > base.successes
        && variant.denies <= base.denies
        && CostRatio(base.cost, variant.cost).AtMost(maxCostRatio))
  {
    var n := base.scenarios;
    if n > 0 {
      if variant.successes <= base.successes {
        RoundDivMonotone(1000 * variant.successes, 1000 * base.successes, n);
      } else if n <= 1000 {
        RatesSeparate(base.successes, variant.successes, n);
      }
    }
  }

  method Evaluate(baseline: seq<RunOutcome>, variant: seq<RunOutcome>, expected: seq<map<string, Value>>,
                  maxCostRatio: Ratio)
    returns (promote: bool)
    requires |baseline| == |variant| == |expected|
    ensures promote ==> |Succeeding(variant, expected)| > |Succeeding(baseline, expected)|
    ensures promote ==> Total(Denials(variant)) <= Total(Denials(baseline))
    ensures 0 < |expected| <= 1000 ==>
      (promote <==>
        && |Succeeding(variant, expected)| > |Succeeding(baseline, expected)|
        && Total(Denials(variant)) <= Total(Denials(baseline))
        && CostRatio(Total(Costs(baseline)), Total(Costs(variant))).AtMost(maxCostRatio))
  {
    var base := Measure(baseline, expected);
    var measured := Measure(variant, expected);
    promote := Promotes(base, measured, maxCostRatio);
    PromotionBound(base, measured, maxCostRatio);
  }
}
