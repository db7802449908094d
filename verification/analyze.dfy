/**
 * The statistical estimators run over the merged daily table: Bernoulli
 * moments of the infection indicator I and the vaccination rate V, the
 * split of the rows at a vaccination threshold, Binomial moments per week or
 * month, and the two-sample proportion z-test.
 *
 * `sqrt` and the standard normal CDF are numerical library routines; they
 * enter as function parameters and nothing is assumed about them beyond
 * what a lemma states in its own `requires`.
 */
module Analyze {
  import opened Common
  import opened Resample

  /** One row of the merged table: its day, the indicator I and the rate V. */
  datatype Obs = Obs(day: int, i: real, v: real)

  /* ---------------------------------------------------------------------- */
  /* Column sums and means                                                   */
  /* ---------------------------------------------------------------------- */

  function SumI(rows: seq<Obs>): real
  {
    if |rows| == 0 then 0.0 else SumI(rows[..|rows| - 1]) + rows[|rows| - 1].i
  }

  function SumV(rows: seq<Obs>): real
  {
    if |rows| == 0 then 0.0 else SumV(rows[..|rows| - 1]) + rows[|rows| - 1].v
  }

  /** The number of rows with I = 1. */
  function CountInfected(rows: seq<Obs>): (n: real)
    ensures 0.0 <= n <= |rows| as real
  {
    if |rows| == 0 then 0.0 else CountInfected(rows[..|rows| - 1]) + (if rows[|rows| - 1].i == 1.0 then 1.0 else 0.0)
  }

  /** pandas `df["I"].mean()`: NaN (`None`) on an empty table. */
  function MeanI(rows: seq<Obs>): (r: Option<real>)
    ensures r.None? <==> |rows| == 0
    ensures r.Some? ==> r.value * |rows| as real == SumI(rows)
  {
    if |rows| == 0 then None else Some(SumI(rows) / |rows| as real)
  }

  function MeanV(rows: seq<Obs>): (r: Option<real>)
    ensures r.None? <==> |rows| == 0
    ensures r.Some? ==> r.value * |rows| as real == SumV(rows)
  {
    if |rows| == 0 then None else Some(SumV(rows) / |rows| as real)
  }

  /** Every I is 0 or 1, as the cleaning step produces it. */
  ghost predicate Binary(rows: seq<Obs>)
  {
    forall k :: 0 <= k < |rows| ==> rows[k].i == 0.0 || rows[k].i == 1.0
  }

  /** Every V lies in [0, 1]; the cleaning step does not guarantee this. */
  ghost predicate RatesInUnitInterval(rows: seq<Obs>)
  {
    forall k :: 0 <= k < |rows| ==> 0.0 <= rows[k].v <= 1.0
  }

  lemma {:induction false} BinarySumIsCount(rows: seq<Obs>)
    requires Binary(rows)
    ensures SumI(rows) == CountInfected(rows)
    decreases |rows|
  {
    if |rows| > 0 {
      BinarySumIsCount(rows[..|rows| - 1]);
    }
  }

  lemma {:induction false} RateSumBounds(rows: seq<Obs>)
    requires RatesInUnitInterval(rows)
    ensures 0.0 <= SumV(rows) <= |rows| as real
    decreases |rows|
  {
    if |rows| > 0 {
      RateSumBounds(rows[..|rows| - 1]);
    }
  }

  /** p (1 - p) of a probability is at most 1/4, reached at p = 1/2. */
  lemma {:induction false} BernoulliVarianceBound(p: real)
    requires 0.0 <= p <= 1.0
    ensures 0.0 <= p * (1.0 - p) <= 0.25
  {
    assert p * (1.0 - p) == 0.25 - (p - 0.5) * (p - 0.5);
    MulNonNegative(p, 1.0 - p);
  }

  /** A share p of n items whose total x lies in [0, n] is a probability. */
  lemma {:induction false} ShareIsProbability(p: real, n: nat, x: real)
    requires n > 0 && p * n as real == x && 0.0 <= x <= n as real
    ensures 0.0 <= p <= 1.0
  {
    if p > 1.0 {
      assert p * n as real > n as real;
    }
  }

  lemma {:induction false} MulNonNegative(a: real, b: real)
    requires 0.0 <= a && 0.0 <= b
    ensures 0.0 <= a * b
  {
  }

  /* ---------------------------------------------------------------------- */
  /* Bernoulli parameters                                                    */
  /* ---------------------------------------------------------------------- */

  datatype Bernoulli = Bernoulli(pI: real, pV: real, varI: real, varV: real, stdI: real, stdV: real)

  /** `calculate_bernoulli_parameters`; `None` where pandas yields NaN throughout. */
  function BernoulliParameters(rows: seq<Obs>, sqrt: real -> real): (r: Option<Bernoulli>)
    ensures r.None? <==> |rows| == 0
    ensures r.Some? ==> r.value.pI * |rows| as real == SumI(rows)
    ensures r.Some? ==> r.value.pV * |rows| as real == SumV(rows)
    ensures r.Some? ==> r.value.varI == r.value.pI * (1.0 - r.value.pI) && r.value.varV == r.value.pV * (1.0 - r.value.pV)
    ensures r.Some? ==> r.value.stdI == sqrt(r.value.varI) && r.value.stdV == sqrt(r.value.varV)
  {
    match (MeanI(rows), MeanV(rows))
    case (Some(pI), Some(pV)) =>
      var varI := pI * (1.0 - pI);
      var varV := pV * (1.0 - pV);
      Some(Bernoulli(pI, pV, varI, varV, sqrt(varI), sqrt(varV)))
    case _ => None
  }

  /** On a 0/1 indicator, p_I is the fraction of infected rows... */
  lemma {:induction false} ShareOfInfectedRows(rows: seq<Obs>)
    requires Binary(rows)
    requires |rows| > 0
    ensures MeanI(rows).value * |rows| as real == CountInfected(rows)
  {
    BinarySumIsCount(rows);
  }

  /** ... so it lies in [0, 1]... */
  lemma {:induction false} BernoulliOfIndicator(rows: seq<Obs>, sqrt: real -> real)
    requires Binary(rows)
    requires |rows| > 0
    ensures BernoulliParameters(rows, sqrt).Some?
    ensures 0.0 <= BernoulliParameters(rows, sqrt).value.pI <= 1.0
  {
    var b := BernoulliParameters(rows, sqrt).value;
    assert b.pI * |rows| as real == SumI(rows);
    assert 0.0 <= SumI(rows) <= |rows| as real by {
      BinarySumIsCount(rows);
    }
    ShareIsProbability(b.pI, |rows|, SumI(rows));
  }

  /** ... and its variance p_I (1 - p_I) lies in [0, 1/4]. */
  lemma {:induction false} BernoulliVarianceOfIndicator(rows: seq<Obs>, sqrt: real -> real)
    requires Binary(rows)
    requires |rows| > 0
    ensures BernoulliParameters(rows, sqrt).Some?
    ensures 0.0 <= BernoulliParameters(rows, sqrt).value.varI <= 0.25
  {
    var b := BernoulliParameters(rows, sqrt).value;
    BernoulliOfIndicator(rows, sqrt);
    assert b.varI == b.pI * (1.0 - b.pI);
    BernoulliVarianceBound(b.pI);
  }

  /** The same bounds for p_V hold only when every rate is in [0, 1]. */
  lemma {:induction false} BernoulliOfRates(rows: seq<Obs>, sqrt: real -> real)
    requires RatesInUnitInterval(rows)
    requires |rows| > 0
    ensures BernoulliParameters(rows, sqrt).Some?
    ensures 0.0 <= BernoulliParameters(rows, sqrt).value.pV <= 1.0
    ensures 0.0 <= BernoulliParameters(rows, sqrt).value.varV <= 0.25
  {
    var b := BernoulliParameters(rows, sqrt).value;
    assert b.pV * |rows| as real == SumV(rows);
    RateSumBounds(rows);
    ShareIsProbability(b.pV, |rows|, SumV(rows));
    assert b.varV == b.pV * (1.0 - b.pV);
    BernoulliVarianceBound(b.pV);
  }

  /* ---------------------------------------------------------------------- */
  /* Threshold partition                                                     */
  /* ---------------------------------------------------------------------- */

  /** `df[df["vaccination_rate"] >= threshold]`, in table order. */
  function AtLeast(rows: seq<Obs>, t: real): (r: seq<Obs>)
    ensures |r| <= |rows|
    ensures forall k :: 0 <= k < |r| ==> r[k].v >= t
  {
    if |rows| == 0 then []
    else
      var last := rows[|rows| - 1];
      AtLeast(rows[..|rows| - 1], t) + (if last.v >= t then [last] else [])
  }

  /** `df[df["vaccination_rate"] < threshold]`, in table order. */
  function Below(rows: seq<Obs>, t: real): (r: seq<Obs>)
    ensures |r| <= |rows|
    ensures forall k :: 0 <= k < |r| ==> r[k].v < t
  {
    if |rows| == 0 then []
    else
      var last := rows[|rows| - 1];
      Below(rows[..|rows| - 1], t) + (if last.v < t then [last] else [])
  }

  /**
   * The two groups split the table: every row lands in exactly one of them
   * (a rate equal to the threshold counts as high), so their sizes, their
   * rows and their infection totals add up to the table's.
   */
  lemma {:induction false} PartitionSplitsRows(rows: seq<Obs>, t: real)
    ensures |AtLeast(rows, t)| + |Below(rows, t)| == |rows|
    ensures SumI(AtLeast(rows, t)) + SumI(Below(rows, t)) == SumI(rows)
    decreases |rows|
  {
    if |rows| > 0 {
      var n := |rows| - 1;
      var last := rows[n];
      PartitionSplitsRows(rows[..n], t);
      var h, l := AtLeast(rows[..n], t), Below(rows[..n], t);
      if last.v >= t {
        assert AtLeast(rows, t) == h + [last];
        assert Below(rows, t) == l;
        SumIAppend(h, last);
      } else {
        assert AtLeast(rows, t) == h;
        assert Below(rows, t) == l + [last];
        SumIAppend(l, last);
      }
    }
  }

  /** Together the two groups are a permutation of the table. */
  lemma {:induction false} PartitionPermutesRows(rows: seq<Obs>, t: real)
    ensures multiset(AtLeast(rows, t)) + multiset(Below(rows, t)) == multiset(rows)
    decreases |rows|
  {
    if |rows| > 0 {
      PartitionPermutesRows(rows[..|rows| - 1], t);
      PartitionStep(rows, t);
    }
  }

  /** The last row joins exactly one group. */
  lemma {:induction false} PartitionStep(rows: seq<Obs>, t: real)
    requires |rows| > 0
    requires multiset(AtLeast(rows[..|rows| - 1], t)) + multiset(Below(rows[..|rows| - 1], t)) == multiset(rows[..|rows| - 1])
    ensures multiset(AtLeast(rows, t)) + multiset(Below(rows, t)) == multiset(rows)
  {
    var n := |rows| - 1;
    var last := rows[n];
    var h, l := AtLeast(rows[..n], t), Below(rows[..n], t);
    assert multiset(rows) == multiset(rows[..n]) + multiset{last} by {
      assert rows == rows[..n] + [last];
    }
    if last.v >= t {
      assert multiset(AtLeast(rows, t)) == multiset(h) + multiset{last} by {
        assert AtLeast(rows, t) == h + [last];
      }
      assert Below(rows, t) == l;
      JoinOneGroup(multiset(h), multiset(l), multiset(rows[..n]), last, multiset(AtLeast(rows, t)), multiset(rows));
    } else {
      assert multiset(Below(rows, t)) == multiset(l) + multiset{last} by {
        assert Below(rows, t) == l + [last];
      }
      assert AtLeast(rows, t) == h;
      JoinOneGroup(multiset(l), multiset(h), multiset(rows[..n]), last, multiset(Below(rows, t)), multiset(rows));
    }
  }

  /** Adding one element to one side of a split adds it to the whole. */
  lemma {:induction false} JoinOneGroup(a: multiset<Obs>, b: multiset<Obs>, whole: multiset<Obs>, x: Obs,
                                        a2: multiset<Obs>, whole2: multiset<Obs>)
    requires a + b == whole && a2 == a + multiset{x} && whole2 == whole + multiset{x}
    ensures a2 + b == whole2 && b + a2 == whole2
  {
  }

  /** The high group holds exactly the rows at or above the threshold, the low group the rest. */
  lemma {:induction false} PartitionMembership(rows: seq<Obs>, t: real)
    ensures forall o :: o in AtLeast(rows, t) <==> o in rows && o.v >= t
    ensures forall o :: o in Below(rows, t) <==> o in rows && o.v < t
    decreases |rows|
  {
    if |rows| > 0 {
      var n := |rows| - 1;
      PartitionMembership(rows[..n], t);
      assert rows == rows[..n] + [rows[n]];
    }
  }

  lemma {:induction false} SumIAppend(rows: seq<Obs>, o: Obs)
    ensures SumI(rows + [o]) == SumI(rows) + o.i
  {
    assert (rows + [o])[..|rows|] == rows;
  }

  /** Each group of a 0/1 indicator keeps it. */
  lemma {:induction false} PartitionKeepsBinary(rows: seq<Obs>, t: real)
    requires Binary(rows)
    ensures Binary(AtLeast(rows, t)) && Binary(Below(rows, t))
  {
    var h, l := AtLeast(rows, t), Below(rows, t);
    PartitionMembership(rows, t);
    forall k | 0 <= k < |h|
      ensures h[k].i == 0.0 || h[k].i == 1.0
    {
      assert h[k] in rows;
    }
    forall k | 0 <= k < |l|
      ensures l[k].i == 0.0 || l[k].i == 1.0
    {
      assert l[k] in rows;
    }
  }

  /* ---------------------------------------------------------------------- */
  /* Conditional probabilities                                               */
  /* ---------------------------------------------------------------------- */

  datatype Conditional = Conditional(
    pHigh: Option<real>, pLow: Option<real>, difference: Option<real>,
    nHigh: nat, nLow: nat, seHigh: real, seLow: real, threshold: real)

  /** The approximate standard error of a group's mean; 0 for an empty group. */
  function GroupError(p: Option<real>, n: nat, sqrt: real -> real): (se: real)
    ensures n == 0 || p.None? ==> se == 0.0
    ensures n > 0 && p.Some? ==> se == sqrt(p.value * (1.0 - p.value) / n as real)
  {
    if n > 0 && p.Some? then sqrt(p.value * (1.0 - p.value) / n as real) else 0.0
  }

  /** The conditional summary of two given groups of rows. */
  function GroupSummary(high: seq<Obs>, low: seq<Obs>, t: real, sqrt: real -> real): (r: Conditional)
    ensures r.nHigh == |high| && r.nLow == |low|
    ensures r.pHigh.None? <==> |high| == 0
    ensures r.pLow.None? <==> |low| == 0
    ensures r.pHigh.Some? ==> r.pHigh.value * |high| as real == SumI(high)
    ensures r.pLow.Some? ==> r.pLow.value * |low| as real == SumI(low)
    ensures r.difference.Some? <==> |high| > 0 && |low| > 0
    ensures r.difference.Some? ==> r.difference.value == r.pHigh.value - r.pLow.value
    ensures |high| == 0 ==> r.seHigh == 0.0
    ensures |low| == 0 ==> r.seLow == 0.0
    ensures r.seHigh == GroupError(r.pHigh, |high|, sqrt) && r.seLow == GroupError(r.pLow, |low|, sqrt)
    ensures r.threshold == t
  {
    var pHigh, pLow := MeanI(high), MeanI(low);
    var difference := if pHigh.Some? && pLow.Some? then Some(pHigh.value - pLow.value) else None;
    Conditional(pHigh, pLow, difference, |high|, |low|,
                GroupError(pHigh, |high|, sqrt), GroupError(pLow, |low|, sqrt), t)
  }

  /** A non-empty group's standard error is `sqrt` of p(1 - p)/n, with p its infection rate. */
  lemma {:induction false} GroupErrorOfNonEmptyGroups(high: seq<Obs>, low: seq<Obs>, t: real, sqrt: real -> real)
    ensures var r := GroupSummary(high, low, t, sqrt);
      |high| > 0 ==> r.pHigh.Some? && r.seHigh == sqrt(r.pHigh.value * (1.0 - r.pHigh.value) / |high| as real)
    ensures var r := GroupSummary(high, low, t, sqrt);
      |low| > 0 ==> r.pLow.Some? && r.seLow == sqrt(r.pLow.value * (1.0 - r.pLow.value) / |low| as real)
  {
    var r := GroupSummary(high, low, t, sqrt);
    if |high| > 0 {
      GroupErrorOfRate(r.pHigh, |high|, sqrt);
    }
    if |low| > 0 {
      GroupErrorOfRate(r.pLow, |low|, sqrt);
    }
  }

  /** `GroupError` of a present rate and a positive size. */
  lemma {:induction false} GroupErrorOfRate(p: Option<real>, n: nat, sqrt: real -> real)
    requires p.Some? && n > 0
    ensures GroupError(p, n, sqrt) == sqrt(p.value * (1.0 - p.value) / n as real)
  {
  }

  /**
   * `calculate_conditional_probabilities`: the infection rate of the rows at
   * or above the threshold and of those below it.
   */
  function ConditionalProbabilities(rows: seq<Obs>, t: real, sqrt: real -> real): (r: Conditional)
    ensures r.nHigh + r.nLow == |rows|
    ensures r == GroupSummary(AtLeast(rows, t), Below(rows, t), t, sqrt)
  {
    PartitionSplitsRows(rows, t);
    GroupSummary(AtLeast(rows, t), Below(rows, t), t, sqrt)
  }

  /** A worked example: I = [1, 1, 0, 1], V = [0.3, 0.6, 0.6, 0.8], threshold 0.5. */
  function ExampleRows(): seq<Obs>
  {
    [Obs(0, 1.0, 0.3), Obs(1, 1.0, 0.6), Obs(2, 0.0, 0.6), Obs(3, 1.0, 0.8)]
  }

  lemma {:induction false} ExamplePartition()
    ensures AtLeast(ExampleRows(), 0.5) == ExampleRows()[1..]
    ensures Below(ExampleRows(), 0.5) == ExampleRows()[..1]
  {
    var rows := ExampleRows();
    var r1, r2, r3 := rows[..1], rows[..2], rows[..3];
    assert r1[..0] == [] && r2[..1] == r1 && r3[..2] == r2 && rows[..3] == r3;
    assert AtLeast(r1, 0.5) == [] && Below(r1, 0.5) == r1;
    assert AtLeast(r2, 0.5) == [rows[1]] && Below(r2, 0.5) == r1;
    assert AtLeast(r3, 0.5) == [rows[1], rows[2]] && Below(r3, 0.5) == r1;
  }

  lemma {:induction false} ConditionalExample(sqrt: real -> real)
    ensures ConditionalProbabilities(ExampleRows(), 0.5, sqrt).pHigh == Some(2.0 / 3.0)
    ensures ConditionalProbabilities(ExampleRows(), 0.5, sqrt).pLow == Some(1.0)
    ensures ConditionalProbabilities(ExampleRows(), 0.5, sqrt).difference == Some(-1.0 / 3.0)
  {
    var rows := ExampleRows();
    ExamplePartition();
    var high, low := rows[1..], rows[..1];
    assert high[..2][..1] == [rows[1]] && high[..2] == [rows[1], rows[2]] && [rows[1]][..0] == [];
    assert SumI([rows[1]]) == 1.0;
    assert SumI(high[..2]) == 1.0;
    assert SumI(high) == 2.0;
    assert low[..0] == [];
    assert SumI(low) == 1.0;
  }

  /* ---------------------------------------------------------------------- */
  /* Binomial parameters                                                     */
  /* ---------------------------------------------------------------------- */

  /** Trials per period: 30 for a month (an approximation), 7 otherwise. */
  function NTrials(period: string): (n: nat)
    ensures n == 7 || n == 30
    ensures n == 30 <==> period == "M" || period == "ME"
  {
    if period == "W" then 7
    else if period == "M" || period == "ME" then 30
    else 7
  }

  /** The resampling alias used for a period: "M" is passed on as "ME". */
  function AliasFor(period: string): (alias: string)
    ensures ParseAlias(alias) == ParseAlias(period)
  {
    if period == "W" then "W"
    else if period == "M" || period == "ME" then "ME"
    else period
  }

  /** The day column and the I column as resampling input. */
  function Days(rows: seq<Obs>): (ds: seq<int>)
    ensures |ds| == |rows|
    ensures forall k :: 0 <= k < |rows| ==> ds[k] == rows[k].day
  {
    seq(|rows|, k requires 0 <= k < |rows| => rows[k].day)
  }

  function ICells(rows: seq<Obs>): (cs: seq<Option<real>>)
    ensures |cs| == |rows|
    ensures forall k :: 0 <= k < |rows| ==> cs[k] == Some(rows[k].i)
  {
    seq(|rows|, k requires 0 <= k < |rows| => Some(rows[k].i))
  }

  lemma {:induction false} ICellsSum(rows: seq<Obs>)
    ensures SumPresent(ICells(rows)) == SumI(rows)
    decreases |rows|
  {
    if |rows| > 0 {
      var n := |rows| - 1;
      assert ICells(rows)[..n] == ICells(rows[..n]);
      ICellsSum(rows[..n]);
    }
  }

  /** The squared deviations of the present cells from `mu`. */
  function SquaredDeviations(xs: seq<Option<real>>, mu: real): (s: real)
    ensures s >= 0.0
  {
    if |xs| == 0 then 0.0
    else
      var rest := SquaredDeviations(xs[..|xs| - 1], mu);
      match xs[|xs| - 1]
      case None => rest
      case Some(x) => rest + (x - mu) * (x - mu)
  }

  /** pandas `Series.var()` (ddof = 1): NaN with fewer than two present cells. */
  function SampleVariance(xs: seq<Option<real>>): (r: Option<real>)
    ensures r.None? <==> CountPresent(xs) < 2.0
    ensures r.Some? ==> r.value >= 0.0
    ensures r.Some? ==> r.value * (CountPresent(xs) - 1.0) == SquaredDeviations(xs, SumPresent(xs) / CountPresent(xs))
  {
    var m := CountPresent(xs);
    if m < 2.0 then None
    else
      var d := SquaredDeviations(xs, SumPresent(xs) / m);
      var q := m - 1.0;
      NonNegativeQuotient(d, q);
      Some(d / q)
  }

  lemma {:induction false} NonNegativeQuotient(d: real, q: real)
    requires d >= 0.0 && q > 0.0
    ensures d / q >= 0.0
  {
  }

  /** Deviations from a value every present cell equals vanish. */
  lemma {:induction false} ConstantHasNoDeviation(xs: seq<Option<real>>, c: real)
    requires forall k :: 0 <= k < |xs| && xs[k].Some? ==> xs[k].value == c
    ensures SquaredDeviations(xs, c) == 0.0
    ensures SumPresent(xs) == c * CountPresent(xs)
    decreases |xs|
  {
    if |xs| > 0 {
      ConstantHasNoDeviation(xs[..|xs| - 1], c);
    }
  }

  lemma {:induction false} DivideProduct(c: real, m: real)
    requires m > 0.0
    ensures (c * m) / m == c
  {
  }

  lemma {:induction false} ZeroQuotient(d: real, q: real)
    requires d == 0.0 && q != 0.0
    ensures d / q == 0.0
  {
  }

  /** A column that never varies has sample variance 0. */
  lemma {:induction false} ConstantColumnHasZeroVariance(xs: seq<Option<real>>, c: real)
    requires forall k :: 0 <= k < |xs| && xs[k].Some? ==> xs[k].value == c
    requires CountPresent(xs) >= 2.0
    ensures SampleVariance(xs) == Some(0.0)
  {
    var m := CountPresent(xs);
    ConstantHasNoDeviation(xs, c);
    DivideProduct(c, m);
    var mean := SumPresent(xs) / m;
    assert mean == c;
    var d, q := SquaredDeviations(xs, mean), m - 1.0;
    assert d == 0.0;
    assert SampleVariance(xs) == Some(d / q);
    ZeroQuotient(d, q);
  }

  /** `a - b` of two values that may be NaN. */
  function Difference(a: Option<real>, b: Option<real>): (r: Option<real>)
    ensures r.Some? <==> a.Some? && b.Some?
    ensures r.Some? ==> r.value + b.value == a.value
  {
    if a.Some? && b.Some? then Some(a.value - b.value) else None
  }

  datatype Binomial = Binomial(
    period: string, nTrials: nat, pI: Option<real>,
    expectedMean: Option<real>, expectedVariance: Option<real>,
    actualMean: Option<real>, actualVariance: Option<real>,
    meanDifference: Option<real>, varianceDifference: Option<real>)

  /** The number of infected days in each period (`resample(p)["I"].sum()`). */
  function PeriodCounts(rows: seq<Obs>, period: string): (r: seq<Option<real>>)
    requires ParseAlias(period).Some?
    ensures |r| == Span(KeysOf(ParseAlias(period).value, Days(rows)))
  {
    ResampleColumn(ParseAlias(period).value, Days(rows), ICells(rows), SumAgg)
  }

  /** The number of days in each period that the table covers. */
  function PeriodSizes(rows: seq<Obs>, period: string): (r: seq<Option<real>>)
    requires ParseAlias(period).Some?
    ensures |r| == |PeriodCounts(rows, period)|
  {
    ResampleColumn(ParseAlias(period).value, Days(rows), ICells(rows), CountAgg)
  }

  /**
   * The Binomial(n, p) moments next to the mean and variance of the
   * observed per-period counts `actual`.
   */
  function BinomialSummary(period: string, n: nat, pI: Option<real>, actual: seq<Option<real>>): (b: Binomial)
    ensures b.period == period && b.nTrials == n && b.pI == pI
    ensures b.expectedMean.Some? <==> pI.Some?
    ensures b.expectedVariance.Some? <==> pI.Some?
    ensures pI.Some? ==> b.expectedMean.value == n as real * pI.value
    ensures pI.Some? ==> b.expectedVariance.value == n as real * pI.value * (1.0 - pI.value)
    ensures b.actualMean == Apply(MeanAgg, actual)
    ensures b.actualVariance == SampleVariance(actual)
    ensures b.meanDifference == Difference(b.actualMean, b.expectedMean)
    ensures b.varianceDifference == Difference(b.actualVariance, b.expectedVariance)
  {
    var expectedMean := if pI.Some? then Some(n as real * pI.value) else None;
    var expectedVariance := if pI.Some? then Some(n as real * pI.value * (1.0 - pI.value)) else None;
    var actualMean := Apply(MeanAgg, actual);
    var actualVariance := SampleVariance(actual);
    Binomial(period, n, pI, expectedMean, expectedVariance, actualMean, actualVariance,
             Difference(actualMean, expectedMean), Difference(actualVariance, expectedVariance))
  }

  /**
   * `calculate_binomial_parameters`: the summary over the per-period sums of
   * I, which are returned too.
   */
  function BinomialParameters(rows: seq<Obs>, period: string): (r: Result<(Binomial, seq<Option<real>>)>)
    ensures r.Failure? <==> ParseAlias(period).None?
    ensures r.Failure? ==> r.error == UnsupportedAlias(period)
    ensures r.Success? ==> r.value.1 == PeriodCounts(rows, period)
    ensures r.Success? ==> r.value.0 == BinomialSummary(period, NTrials(period), MeanI(rows), r.value.1)
  {
    match ParseAlias(AliasFor(period))
    case None => Failure(UnsupportedAlias(period))
    case Some(_) =>
      var actual := PeriodCounts(rows, period);
      Success((BinomialSummary(period, NTrials(period), MeanI(rows), actual), actual))
  }

  /** The per-period counts add up to the number of infected days. */
  lemma {:induction false} PeriodCountsAddUp(rows: seq<Obs>, period: string)
    requires ParseAlias(period).Some?
    ensures SumPresent(PeriodCounts(rows, period)) == SumI(rows)
  {
    var p := ParseAlias(period).value;
    ResamplePreservesTotals(p, Days(rows), ICells(rows));
    ICellsSum(rows);
  }

  lemma {:induction false} ExpectedMomentsBound(n: real, p: real, e: real, v: real)
    requires n >= 0.0 && 0.0 <= p <= 1.0
    requires e == n * p && v == n * p * (1.0 - p)
    ensures 0.0 <= e <= n
    ensures 0.0 <= v <= n / 4.0
  {
    BernoulliVarianceBound(p);
    assert n * p * (1.0 - p) == n * (p * (1.0 - p));
    MulNonNegative(n, p * (1.0 - p));
    MulNonNegative(n, 0.25 - p * (1.0 - p));
    MulNonNegative(n, p);
    MulNonNegative(n, 1.0 - p);
  }

  /**
   * On a 0/1 indicator the expected count per period lies in [0, n] and its
   * variance in [0, n/4].
   */
  lemma {:induction false} BinomialMomentsOfIndicator(rows: seq<Obs>, period: string)
    requires Binary(rows)
    requires |rows| > 0
    requires ParseAlias(period).Some?
    ensures BinomialParameters(rows, period).Success?
    ensures var b := BinomialParameters(rows, period).value.0;
      && 0.0 <= b.expectedMean.value <= b.nTrials as real
      && 0.0 <= b.expectedVariance.value <= b.nTrials as real / 4.0
  {
    ProbabilityOfIndicator(rows);
    var actual := BinomialParameters(rows, period).value.1;
    BinomialSummaryOfProbability(period, NTrials(period), MeanI(rows), actual);
  }

  lemma {:induction false} BinomialSummaryOfProbability(period: string, n: nat, pI: Option<real>, actual: seq<Option<real>>)
    requires pI.Some? && 0.0 <= pI.value <= 1.0
    ensures var b := BinomialSummary(period, n, pI, actual);
      && 0.0 <= b.expectedMean.value <= n as real
      && 0.0 <= b.expectedVariance.value <= n as real / 4.0
  {
    var b := BinomialSummary(period, n, pI, actual);
    var m, p := n as real, pI.value;
    var e, v := b.expectedMean.value, b.expectedVariance.value;
    ExpectedMomentsBound(m, p, e, v);
  }

  /** The mean of a 0/1 indicator over a non-empty table is a probability. */
  lemma {:induction false} ProbabilityOfIndicator(rows: seq<Obs>)
    requires Binary(rows)
    requires |rows| > 0
    ensures 0.0 <= MeanI(rows).value <= 1.0
  {
    var pI := MeanI(rows).value;
    assert pI * |rows| as real == SumI(rows);
    assert 0.0 <= SumI(rows) <= |rows| as real by {
      BinarySumIsCount(rows);
    }
    ShareIsProbability(pI, |rows|, SumI(rows));
  }

  /** Each observed period count of a 0/1 indicator lies between 0 and the rows it covers. */
  lemma {:induction false} PeriodCountsAreBounded(rows: seq<Obs>, period: string, j: nat)
    requires Binary(rows)
    requires ParseAlias(period).Some?
    requires j < |PeriodCounts(rows, period)|
    ensures PeriodCounts(rows, period)[j].Some? && PeriodSizes(rows, period)[j].Some?
    ensures 0.0 <= PeriodCounts(rows, period)[j].value <= PeriodSizes(rows, period)[j].value
  {
    var p := ParseAlias(period).value;
    assert Indicator(ICells(rows));
    ResampledIndicatorSumAtMostCount(p, Days(rows), ICells(rows), j);
  }

  lemma {:induction false} AllPresentCount(xs: seq<Option<real>>)
    requires forall k :: 0 <= k < |xs| ==> xs[k].Some?
    ensures CountPresent(xs) == |xs| as real
    decreases |xs|
  {
    if |xs| > 0 {
      AllPresentCount(xs[..|xs| - 1]);
    }
  }

  /** Every period of a `sum` resampling has a value. */
  lemma {:induction false} SummedPeriodsArePresent(p: Period, days: seq<int>, vals: seq<Option<real>>)
    requires |days| == |vals|
    ensures CountPresent(ResampleColumn(p, days, vals, SumAgg)) == |ResampleColumn(p, days, vals, SumAgg)| as real
  {
    var actual := ResampleColumn(p, days, vals, SumAgg);
    var ks := KeysOf(p, days);
    forall k | 0 <= k < |actual|
      ensures actual[k].Some?
    {
      BinsAt(ks, vals, SumAgg, MinOf(ks), Span(ks), k);
    }
    AllPresentCount(actual);
  }

  lemma {:induction false} WholePeriodArithmetic(a: real, e: real, p: real, s: real, m: real, n: real)
    requires m > 0.0 && n > 0.0
    requires a * m == s && p * (n * m) == s && e == n * p
    ensures a == e
  {
    assert a * m == e * m;
  }

  /**
   * When the table consists of whole periods of exactly n days each, the
   * observed mean count per period `actual` equals the Binomial expectation
   * n p_I, where p_I is the table's mean of I (p_I times the row count is
   * the sum of I, as `MeanI` states).
   */
  lemma {:induction false} WholePeriodsMeetExpectation(rows: seq<Obs>, period: string, actual: seq<Option<real>>, pI: real)
    requires ParseAlias(period).Some?
    requires actual == PeriodCounts(rows, period)
    requires pI * |rows| as real == SumI(rows)
    requires |actual| > 0
    requires |rows| as real == NTrials(period) as real * |actual| as real
    ensures Apply(MeanAgg, actual) == Some(NTrials(period) as real * pI)
  {
    PeriodSumsOfIndicator(rows, period, actual);
    MeanOfWholePeriods(rows, period, actual, pI);
  }

  /** The same statement once the counts are known to be present and to add up. */
  lemma {:induction false} MeanOfWholePeriods(rows: seq<Obs>, period: string, actual: seq<Option<real>>, pI: real)
    requires pI * |rows| as real == SumI(rows)
    requires |actual| > 0
    requires |rows| as real == NTrials(period) as real * |actual| as real
    requires CountPresent(actual) == |actual| as real
    requires SumPresent(actual) == SumI(rows)
    ensures Apply(MeanAgg, actual) == Some(NTrials(period) as real * pI)
  {
    WholePeriodMean(actual, NTrials(period) as real, pI, SumI(rows), |rows| as real);
  }

  /** Every period has a count, and the counts add up to the infected days. */
  lemma {:induction false} PeriodSumsOfIndicator(rows: seq<Obs>, period: string, actual: seq<Option<real>>)
    requires ParseAlias(period).Some?
    requires actual == PeriodCounts(rows, period)
    ensures CountPresent(actual) == |actual| as real
    ensures SumPresent(actual) == SumI(rows)
  {
    var p := ParseAlias(period).value;
    SummedPeriodsArePresent(p, Days(rows), ICells(rows));
    ResamplePreservesTotals(p, Days(rows), ICells(rows));
    ICellsSum(rows);
  }

  /** The counts-level step: a total s spread over m present periods and over n m days. */
  lemma {:induction false} WholePeriodMean(actual: seq<Option<real>>, n: real, pI: real, s: real, size: real)
    requires n > 0.0 && |actual| > 0
    requires CountPresent(actual) == |actual| as real
    requires SumPresent(actual) == s
    requires pI * size == s && size == n * |actual| as real
    ensures Apply(MeanAgg, actual) == Some(n * pI)
  {
    var m := |actual| as real;
    MeanTimesCount(actual);
    var mean := Apply(MeanAgg, actual);
    assert mean.value * m == s;
    WholePeriodArithmetic(mean.value, n * pI, pI, s, m, n);
  }

  /* ---------------------------------------------------------------------- */
  /* Two-sample proportion z-test                                            */
  /* ---------------------------------------------------------------------- */

  datatype ZTest = ZTest(
    nHigh: nat, nLow: nat, pHigh: real, pLow: real, difference: real,
    pooled: real, seSquared: real, se: real, z: real, pValue: real, significant: bool)

  function RealAbs(x: real): (r: real)
    ensures r >= 0.0 && (r == x || r == -x)
  {
    if x < 0.0 then -x else x
  }

  /** The share `x / n` of a group, 0 for an empty one. */
  function Proportion(x: real, n: nat): (p: real)
    ensures n == 0 ==> p == 0.0
    ensures n > 0 ==> p * n as real == x
  {
    if n > 0 then x / n as real else 0.0
  }

  lemma {:induction false} ProportionIsProbability(x: real, n: nat)
    requires 0.0 <= x <= n as real
    ensures 0.0 <= Proportion(x, n) <= 1.0
  {
    if n > 0 {
      ShareIsProbability(Proportion(x, n), n, x);
    }
  }

  lemma {:induction false} QuotientSign(d: real, se: real, z: real)
    ensures se > 0.0 && z == d / se ==> z * se == d && (z > 0.0 <==> d > 0.0) && (z < 0.0 <==> d < 0.0)
  {
  }

  /** The steps after the standard error: statistic, p-value, verdict. */
  function Finish(n1: nat, n2: nat, x1: real, x2: real, seSquared: real, se: real, cdf: real -> real): (r: ZTest)
    ensures r.nHigh == n1 && r.nLow == n2 && r.seSquared == seSquared && r.se == se
    ensures r.difference == r.pHigh - r.pLow
    ensures r.pHigh == Proportion(x1, n1) && r.pLow == Proportion(x2, n2)
    ensures r.pooled == Proportion(x1 + x2, n1 + n2)
    ensures se > 0.0 ==> r.z * se == r.difference
    ensures se > 0.0 ==> (r.z > 0.0 <==> r.difference > 0.0) && (r.z < 0.0 <==> r.difference < 0.0)
    ensures se <= 0.0 ==> r.z == 0.0 && r.pValue == 1.0 && !r.significant
    ensures se > 0.0 ==> r.pValue == 2.0 * (1.0 - cdf(RealAbs(r.z)))
    ensures r.significant <==> r.pValue < 0.05
  {
    var p1, p2 := Proportion(x1, n1), Proportion(x2, n2);
    var pooled := Proportion(x1 + x2, n1 + n2);
    var z := if se > 0.0 then (p1 - p2) / se else 0.0;
    QuotientSign(p1 - p2, se, z);
    var pValue := if se > 0.0 then 2.0 * (1.0 - cdf(RealAbs(z))) else 1.0;
    ZTest(n1, n2, p1, p2, p1 - p2, pooled, seSquared, se, z, pValue, pValue < 0.05)
  }

  /**
   * The two-proportion z-test on group sizes `n1`, `n2` and infection
   * totals `x1`, `x2`, with the degenerate cases resolved the way the
   * source resolves the empty table: if either group is empty there is no
   * standard error, z = 0 and the p-value is 1.
   */
  function ProportionTest(n1: nat, n2: nat, x1: real, x2: real, sqrt: real -> real, cdf: real -> real): (r: ZTest)
    ensures r.nHigh == n1 && r.nLow == n2 && r.difference == r.pHigh - r.pLow
    ensures r.pHigh == Proportion(x1, n1) && r.pLow == Proportion(x2, n2)
    ensures r.pooled == Proportion(x1 + x2, n1 + n2)
    ensures n1 > 0 && n2 > 0 ==>
      r.seSquared == r.pooled * (1.0 - r.pooled) * (1.0 / n1 as real + 1.0 / n2 as real) && r.se == sqrt(r.seSquared)
    ensures n1 == 0 || n2 == 0 ==> r.se == 0.0 && r.z == 0.0 && r.pValue == 1.0 && !r.significant
    ensures r.se > 0.0 ==> r.z * r.se == r.difference
    ensures r.se > 0.0 ==> (r.z > 0.0 <==> r.difference > 0.0) && (r.z < 0.0 <==> r.difference < 0.0)
    ensures r.se <= 0.0 ==> r.z == 0.0 && r.pValue == 1.0 && !r.significant
    ensures r.se > 0.0 ==> r.pValue == 2.0 * (1.0 - cdf(RealAbs(r.z)))
    ensures r.significant <==> r.pValue < 0.05
  {
    var pooled := Proportion(x1 + x2, n1 + n2);
    var seSquared := if n1 > 0 && n2 > 0 then pooled * (1.0 - pooled) * (1.0 / n1 as real + 1.0 / n2 as real) else 0.0;
    var se := if n1 > 0 && n2 > 0 then sqrt(seSquared) else 0.0;
    Finish(n1, n2, x1, x2, seSquared, se, cdf)
  }

  /**
   * The same test as the source writes it: the standard error is guarded
   * only by `n1 + n2 > 0`, so `1/n1 + 1/n2` divides by zero when exactly
   * one group is empty.
   */
  function ProportionTestAsWritten(n1: nat, n2: nat, x1: real, x2: real, sqrt: real -> real, cdf: real -> real): (r: Result<ZTest>)
    ensures r.Failure? <==> n1 + n2 > 0 && (n1 == 0 || n2 == 0)
    ensures r.Failure? ==> r.error == DivisionByZero
  {
    var pooled := Proportion(x1 + x2, n1 + n2);
    if n1 + n2 > 0 then
      if n1 == 0 || n2 == 0 then Failure(DivisionByZero)
      else
        var seSquared := pooled * (1.0 - pooled) * (1.0 / n1 as real + 1.0 / n2 as real);
        Success(Finish(n1, n2, x1, x2, seSquared, sqrt(seSquared), cdf))
    else Success(Finish(n1, n2, x1, x2, 0.0, 0.0, cdf))
  }

  /** Wherever the source does not raise, it computes what the corrected test does. */
  lemma {:induction false} AsWrittenAgreesWhenDefined(n1: nat, n2: nat, x1: real, x2: real, sqrt: real -> real, cdf: real -> real)
    ensures ProportionTestAsWritten(n1, n2, x1, x2, sqrt, cdf).Success? ==>
      ProportionTestAsWritten(n1, n2, x1, x2, sqrt, cdf).value == ProportionTest(n1, n2, x1, x2, sqrt, cdf)
  {
  }

  /**
   * With infection totals that are counts (0 <= x <= n) both shares and the
   * pooled share are probabilities, so `sqrt` is never applied to a
   * negative number.
   */
  lemma {:induction false} ProportionTestOfCounts(n1: nat, n2: nat, x1: real, x2: real, sqrt: real -> real, cdf: real -> real)
    requires 0.0 <= x1 <= n1 as real && 0.0 <= x2 <= n2 as real
    ensures var r := ProportionTest(n1, n2, x1, x2, sqrt, cdf);
      && 0.0 <= r.pHigh <= 1.0 && 0.0 <= r.pLow <= 1.0 && 0.0 <= r.pooled <= 1.0 && r.seSquared >= 0.0
  {
    var r := ProportionTest(n1, n2, x1, x2, sqrt, cdf);
    ProportionIsProbability(x1, n1);
    ProportionIsProbability(x2, n2);
    ProportionIsProbability(x1 + x2, n1 + n2);
    if n1 > 0 && n2 > 0 {
      BernoulliVarianceBound(r.pooled);
      var w := 1.0 / n1 as real + 1.0 / n2 as real;
      assert w > 0.0;
      MulNonNegative(r.pooled * (1.0 - r.pooled), w);
    }
  }

  /**
   * When none or all of the rows are infected the pooled share is 0 or 1,
   * the standard error vanishes, and the test reports z = 0, p = 1.
   */
  lemma {:induction false} UniformOutcomeIsNotSignificant(n1: nat, n2: nat, x1: real, x2: real, sqrt: real -> real, cdf: real -> real)
    requires sqrt(0.0) == 0.0
    requires x1 + x2 == 0.0 || x1 + x2 == (n1 + n2) as real
    ensures ProportionTest(n1, n2, x1, x2, sqrt, cdf).seSquared == 0.0
    ensures ProportionTest(n1, n2, x1, x2, sqrt, cdf).z == 0.0
    ensures ProportionTest(n1, n2, x1, x2, sqrt, cdf).pValue == 1.0
    ensures !ProportionTest(n1, n2, x1, x2, sqrt, cdf).significant
  {
    var r := ProportionTest(n1, n2, x1, x2, sqrt, cdf);
    if n1 > 0 && n2 > 0 {
      assert r.pooled * (n1 + n2) as real == x1 + x2;
      PooledIsZeroOrOne(r.pooled, (n1 + n2) as real, x1 + x2);
      assert r.pooled * (1.0 - r.pooled) == 0.0;
    }
  }

  lemma {:induction false} PooledIsZeroOrOne(p: real, n: real, x: real)
    requires n > 0.0 && p * n == x && (x == 0.0 || x == n)
    ensures p == 0.0 || p == 1.0
  {
    if x == 0.0 {
      assert p == 0.0;
    } else {
      assert (p - 1.0) * n == 0.0;
    }
  }

  /** `perform_statistical_tests` on the table, corrected for one-sided data. */
  function StatisticalTests(rows: seq<Obs>, t: real, sqrt: real -> real, cdf: real -> real): (r: ZTest)
    ensures r.nHigh + r.nLow == |rows|
    ensures r == ProportionTest(|AtLeast(rows, t)|, |Below(rows, t)|, SumI(AtLeast(rows, t)), SumI(Below(rows, t)), sqrt, cdf)
  {
    var high, low := AtLeast(rows, t), Below(rows, t);
    PartitionSplitsRows(rows, t);
    ProportionTest(|high|, |low|, SumI(high), SumI(low), sqrt, cdf)
  }

  /** `perform_statistical_tests` as written. */
  function StatisticalTestsAsWritten(rows: seq<Obs>, t: real, sqrt: real -> real, cdf: real -> real): (r: Result<ZTest>)
    ensures r.Failure? <==> |rows| > 0 && (|AtLeast(rows, t)| == 0 || |Below(rows, t)| == 0)
    ensures r.Failure? ==> r.error == DivisionByZero
    ensures r.Success? ==> r.value == StatisticalTests(rows, t, sqrt, cdf)
  {
    var high, low := AtLeast(rows, t), Below(rows, t);
    PartitionSplitsRows(rows, t);
    AsWrittenAgreesWhenDefined(|high|, |low|, SumI(high), SumI(low), sqrt, cdf);
    ProportionTestAsWritten(|high|, |low|, SumI(high), SumI(low), sqrt, cdf)
  }

  /**
   * A single row above the threshold: the source raises, the corrected test
   * reports no evidence (z = 0, p = 1).
   */
  lemma {:induction false} OneSidedTableRaises(sqrt: real -> real, cdf: real -> real)
    ensures StatisticalTestsAsWritten([Obs(0, 1.0, 0.8)], 0.5, sqrt, cdf) == Failure(DivisionByZero)
    ensures StatisticalTests([Obs(0, 1.0, 0.8)], 0.5, sqrt, cdf).z == 0.0
    ensures StatisticalTests([Obs(0, 1.0, 0.8)], 0.5, sqrt, cdf).pValue == 1.0
    ensures CompleteAnalysisAsWritten([Obs(0, 1.0, 0.8)], sqrt, cdf) == Failure(DivisionByZero)
  {
    var rows := [Obs(0, 1.0, 0.8)];
    assert rows[..0] == [];
    assert AtLeast(rows, 0.5) == rows;
    assert Below(rows, 0.5) == [];
  }

  /** On a 0/1 indicator the test of the table is well formed. */
  lemma {:induction false} TestOfIndicatorIsWellFormed(rows: seq<Obs>, t: real, sqrt: real -> real, cdf: real -> real)
    requires Binary(rows)
    ensures var r := StatisticalTests(rows, t, sqrt, cdf);
      && 0.0 <= r.pHigh <= 1.0 && 0.0 <= r.pLow <= 1.0 && 0.0 <= r.pooled <= 1.0 && r.seSquared >= 0.0
  {
    var high, low := AtLeast(rows, t), Below(rows, t);
    PartitionKeepsBinary(rows, t);
    assert 0.0 <= SumI(high) <= |high| as real by {
      BinarySumIsCount(high);
    }
    assert 0.0 <= SumI(low) <= |low| as real by {
      BinarySumIsCount(low);
    }
    ProportionTestOfCounts(|high|, |low|, SumI(high), SumI(low), sqrt, cdf);
  }

  /** A table where no row or every row is infected shows no significant difference. */
  lemma {:induction false} UniformTableIsNotSignificant(rows: seq<Obs>, t: real, sqrt: real -> real, cdf: real -> real)
    requires sqrt(0.0) == 0.0
    requires SumI(rows) == 0.0 || SumI(rows) == |rows| as real
    ensures StatisticalTests(rows, t, sqrt, cdf).z == 0.0
    ensures StatisticalTests(rows, t, sqrt, cdf).pValue == 1.0
    ensures !StatisticalTests(rows, t, sqrt, cdf).significant
  {
    var high, low := AtLeast(rows, t), Below(rows, t);
    PartitionSplitsRows(rows, t);
    UniformOutcomeIsNotSignificant(|high|, |low|, SumI(high), SumI(low), sqrt, cdf);
  }

  /**
   * The conditional probabilities and the z-test compute each group's rate
   * independently (a mean of I, a sum over a count); they agree, with the
   * test's 0 standing where a group is empty and the mean is NaN.
   */
  lemma {:induction false} ConditionalAgreesWithTest(rows: seq<Obs>, t: real, sqrt: real -> real, cdf: real -> real,
                                                     cond: Conditional, test: ZTest)
    requires ConditionalProbabilities(rows, t, sqrt) == cond
    requires StatisticalTests(rows, t, sqrt, cdf) == test
    ensures test.pHigh == OrZero(cond.pHigh) && test.pLow == OrZero(cond.pLow)
    ensures test.nHigh == cond.nHigh && test.nLow == cond.nLow
  {
    var high, low := AtLeast(rows, t), Below(rows, t);
    assert cond == GroupSummary(high, low, t, sqrt);
    assert cond.pHigh == MeanI(high) && cond.pLow == MeanI(low);
    assert test.pHigh == Proportion(SumI(high), |high|) && test.pLow == Proportion(SumI(low), |low|);
  }

  /* ---------------------------------------------------------------------- */
  /* The complete analysis                                                   */
  /* ---------------------------------------------------------------------- */

  datatype Report = Report(
    bernoulli: Option<Bernoulli>, conditional: Conditional,
    binomialWeekly: Binomial, tests: ZTest, weeklyActual: seq<Option<real>>)

  /**
   * `run_complete_analysis`: Bernoulli moments, conditional probabilities
   * at 0.5, weekly Binomial moments and the z-test at 0.5, collected.
   */
  function CompleteAnalysis(rows: seq<Obs>, sqrt: real -> real, cdf: real -> real): (r: Report)
    ensures r.bernoulli.None? <==> |rows| == 0
    ensures r.conditional.threshold == 0.5 && r.conditional.nHigh + r.conditional.nLow == |rows|
    ensures r.binomialWeekly.period == "W" && r.binomialWeekly.nTrials == 7
    ensures r.binomialWeekly.pI == MeanI(rows)
    ensures r.tests.nHigh + r.tests.nLow == |rows|
  {
    assert ParseAlias("W") == Some(Weekly);
    var binomial := BinomialParameters(rows, "W").value;
    Report(BernoulliParameters(rows, sqrt), ConditionalProbabilities(rows, 0.5, sqrt),
           binomial.0, StatisticalTests(rows, 0.5, sqrt, cdf), binomial.1)
  }

  /**
   * `run_complete_analysis` as written: the z-test step raises
   * `ZeroDivisionError` when the rows all fall on one side of 0.5, and the
   * whole analysis fails with it; otherwise it is the corrected analysis.
   */
  function CompleteAnalysisAsWritten(rows: seq<Obs>, sqrt: real -> real, cdf: real -> real): (r: Result<Report>)
    ensures r.Failure? <==> |rows| > 0 && (|AtLeast(rows, 0.5)| == 0 || |Below(rows, 0.5)| == 0)
    ensures r.Failure? ==> r.error == DivisionByZero
    ensures r.Success? ==> r.value == CompleteAnalysis(rows, sqrt, cdf)
  {
    assert ParseAlias("W") == Some(Weekly);
    var binomial := BinomialParameters(rows, "W").value;
    var tests := StatisticalTestsAsWritten(rows, 0.5, sqrt, cdf);
    if tests.Failure? then Failure(tests.error)
    else
      Success(Report(BernoulliParameters(rows, sqrt), ConditionalProbabilities(rows, 0.5, sqrt),
                     binomial.0, tests.value, binomial.1))
  }

  /** The weekly counts the analysis returns add up to the table's infected days. */
  lemma {:induction false} CompleteAnalysisCounts(rows: seq<Obs>, sqrt: real -> real, cdf: real -> real)
    ensures SumPresent(CompleteAnalysis(rows, sqrt, cdf).weeklyActual) == SumI(rows)
  {
    assert ParseAlias("W") == Some(Weekly);
    PeriodCountsAddUp(rows, "W");
  }
}
