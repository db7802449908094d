/**
 * pandas time resampling over day numbers (days since 1970-01-01, a
 * Thursday). A period assigns every day a bin key; `resample(...).agg(...)`
 * yields one row per key from the smallest to the largest key that occurs,
 * empty bins included, labelled by the bin's last day.
 */
module Resample {
  import opened Common

  /** The frequency aliases the model covers: "D", "W" (= W-SUN) and "M"/"ME". */
  datatype Period = Daily | Weekly | MonthEnd

  function ParseAlias(alias: string): (r: Option<Period>)
    ensures r == Some(Weekly) <==> alias == "W"
    ensures r == Some(MonthEnd) <==> alias == "M" || alias == "ME"
    ensures r == Some(Daily) <==> alias == "D"
  {
    if alias == "D" then Some(Daily)
    else if alias == "W" then Some(Weekly)
    else if alias == "M" || alias == "ME" then Some(MonthEnd)
    else None
  }

  /* ---------------------------------------------------------------------- */
  /* Calendar                                                                */
  /* ---------------------------------------------------------------------- */

  /**
   * Proleptic Gregorian (year, month, day) of a day number, by the era
   * decomposition of H. Hinnant's `civil_from_days`.
   */
  function CivilFromDays(days: int): (int, int, int)
  {
    var z := days + 719468;
    var era := z / 146097;
    var doe := z % 146097;
    var yoe := (doe - doe / 1460 + doe / 36524 - doe / 146096) / 365;
    var doy := doe - (365 * yoe + yoe / 4 - yoe / 100);
    var mp := (5 * doy + 2) / 153;
    var d := doy - (153 * mp + 2) / 5 + 1;
    var m := if mp < 10 then mp + 3 else mp - 9;
    (yoe + era * 400 + (if m <= 2 then 1 else 0), m, d)
  }

  /** Day number of a proleptic Gregorian date (`days_from_civil`). */
  function DaysFromCivil(y: int, m: int, d: int): int
  {
    var y' := if m <= 2 then y - 1 else y;
    var era := y' / 400;
    var yoe := y' % 400;
    var doy := (153 * (if m > 2 then m - 3 else m + 9) + 2) / 5 + d - 1;
    var doe := yoe * 365 + yoe / 4 - yoe / 100 + doy;
    era * 146097 + doe - 719468
  }

  /** First and last day of the analysis window, 2020-01-01 and 2022-12-31. */
  const WindowStart: int := 18262
  const WindowEnd: int := 19357

  lemma {:induction false} WindowStartIs2020January1()
    ensures DaysFromCivil(2020, 1, 1) == WindowStart
  {
  }

  lemma {:induction false} WindowEndIs2022December31()
    ensures DaysFromCivil(2022, 12, 31) == WindowEnd
  {
  }

  /* ---------------------------------------------------------------------- */
  /* Bins                                                                    */
  /* ---------------------------------------------------------------------- */

  /** Day 3 (1970-01-04) was a Sunday. */
  predicate WeekdayIsSunday(day: int)
  {
    day % 7 == 3
  }

  /**
   * The bin a day falls in: the day itself, its Monday-to-Sunday week, or its
   * calendar month (counted as year * 12 + month - 1).
   */
  function BinKey(p: Period, day: int): int
  {
    match p
    case Daily => day
    case Weekly => (day + 3) / 7
    case MonthEnd => MonthIndex(day)
  }

  /** Calendar month of a day, counted as year * 12 + month - 1. */
  function MonthIndex(day: int): int
  {
    var (y, m, _) := CivilFromDays(day);
    y * 12 + m - 1
  }

  /** Day number of the last day of a calendar month. */
  function MonthEndDay(month: int): int
  {
    var next := month + 1;
    DaysFromCivil(next / 12, next % 12 + 1, 1) - 1
  }

  /** The date pandas puts on a bin: its last day (Sunday, month end). */
  function BinLabel(p: Period, key: int): int
  {
    match p
    case Daily => key
    case Weekly => 7 * key + 3
    case MonthEnd => MonthEndDay(key)
  }

  lemma {:induction false} WeeklyBinIsMondayToSunday(day: int)
    ensures WeekdayIsSunday(BinLabel(Weekly, BinKey(Weekly, day)))
    ensures day <= BinLabel(Weekly, BinKey(Weekly, day)) <= day + 6
    ensures BinKey(Weekly, BinLabel(Weekly, BinKey(Weekly, day))) == BinKey(Weekly, day)
  {
  }

  lemma {:induction false} WeeklyLabelsIncrease(k1: int, k2: int)
    requires k1 < k2
    ensures BinLabel(Weekly, k1) + 7 <= BinLabel(Weekly, k2)
  {
  }

  function MinOf(xs: seq<int>): (m: int)
    requires |xs| > 0
    ensures m in xs
    ensures forall i :: 0 <= i < |xs| ==> m <= xs[i]
  {
    if |xs| == 1 then xs[0]
    else
      var m := MinOf(xs[..|xs| - 1]);
      assert xs[..|xs| - 1][0] == xs[0];
      if xs[|xs| - 1] < m then xs[|xs| - 1] else m
  }

  function MaxOf(xs: seq<int>): (m: int)
    requires |xs| > 0
    ensures m in xs
    ensures forall i :: 0 <= i < |xs| ==> xs[i] <= m
  {
    if |xs| == 1 then xs[0]
    else
      var m := MaxOf(xs[..|xs| - 1]);
      assert xs[..|xs| - 1][0] == xs[0];
      if xs[|xs| - 1] > m then xs[|xs| - 1] else m
  }

  /** The bin key of every row. */
  function KeysOf(p: Period, days: seq<int>): (ks: seq<int>)
    ensures |ks| == |days|
    ensures forall i :: 0 <= i < |days| ==> ks[i] == BinKey(p, days[i])
  {
    seq(|days|, i requires 0 <= i < |days| => BinKey(p, days[i]))
  }

  /** The number of bins pandas emits: every key from the smallest to the largest. */
  function Span(ks: seq<int>): (n: nat)
    ensures |ks| == 0 <==> n == 0
    ensures |ks| > 0 ==> forall i :: 0 <= i < |ks| ==> MinOf(ks) <= ks[i] < MinOf(ks) + n
    ensures |ks| > 0 ==> MinOf(ks) + n - 1 in ks
  {
    if |ks| == 0 then 0 else MaxOf(ks) - MinOf(ks) + 1
  }

  /** The cells of the rows whose key is `k`, in row order. */
  function BinOf<T>(ks: seq<int>, vals: seq<T>, k: int): (b: seq<T>)
    requires |ks| == |vals|
  {
    if |ks| == 0 then []
    else
      var n := |ks| - 1;
      BinOf(ks[..n], vals[..n], k) + (if ks[n] == k then [vals[n]] else [])
  }

  /* ---------------------------------------------------------------------- */
  /* Aggregations                                                            */
  /* ---------------------------------------------------------------------- */

  datatype Agg = SumAgg | MeanAgg | CountAgg | MaxAgg | MinAgg

  /** The pandas name of an aggregation, as it appears in column names. */
  function AggName(a: Agg): string
  {
    match a
    case SumAgg => "sum"
    case MeanAgg => "mean"
    case CountAgg => "count"
    case MaxAgg => "max"
    case MinAgg => "min"
  }

  function MaxPresent(xs: seq<Option<real>>): (r: Option<real>)
    ensures r.None? <==> forall i :: 0 <= i < |xs| ==> xs[i].None?
    ensures r.Some? ==> exists i :: 0 <= i < |xs| && xs[i] == r
    ensures r.Some? ==> forall i :: 0 <= i < |xs| && xs[i].Some? ==> xs[i].value <= r.value
  {
    if |xs| == 0 then None
    else
      var n := |xs| - 1;
      var m := MaxPresent(xs[..n]);
      assert forall i :: 0 <= i < n ==> xs[..n][i] == xs[i];
      match xs[n]
      case None => m
      case Some(x) => if m.None? || m.value < x then xs[n] else m
  }

  function MinPresent(xs: seq<Option<real>>): (r: Option<real>)
    ensures r.None? <==> forall i :: 0 <= i < |xs| ==> xs[i].None?
    ensures r.Some? ==> exists i :: 0 <= i < |xs| && xs[i] == r
    ensures r.Some? ==> forall i :: 0 <= i < |xs| && xs[i].Some? ==> r.value <= xs[i].value
  {
    if |xs| == 0 then None
    else
      var n := |xs| - 1;
      var m := MinPresent(xs[..n]);
      assert forall i :: 0 <= i < n ==> xs[..n][i] == xs[i];
      match xs[n]
      case None => m
      case Some(x) => if m.None? || x < m.value then xs[n] else m
  }

  /**
   * One aggregation over the cells of one bin, with pandas' treatment of
   * missing cells: `sum` of nothing is 0, `count` counts present cells, and
   * `mean`, `max`, `min` of nothing are NaN.
   */
  function Apply(a: Agg, xs: seq<Option<real>>): (r: Option<real>)
    ensures a == SumAgg || a == CountAgg ==> r.Some?
    ensures a == CountAgg ==> r == Some(CountPresent(xs))
    ensures a == MeanAgg || a == MaxAgg || a == MinAgg ==> (r.None? <==> CountPresent(xs) == 0.0)
  {
    CountPresentZero(xs);
    match a
    case SumAgg => Some(SumPresent(xs))
    case MeanAgg =>
      if CountPresent(xs) == 0.0 then None
      else Some(SumPresent(xs) / CountPresent(xs))
    case CountAgg => Some(CountPresent(xs))
    case MaxAgg => MaxPresent(xs)
    case MinAgg => MinPresent(xs)
  }

  /** A mean times the number of cells it averages is their sum. */
  lemma {:induction false} MeanTimesCount(xs: seq<Option<real>>)
    requires CountPresent(xs) != 0.0
    ensures Apply(MeanAgg, xs).Some?
    ensures Apply(MeanAgg, xs).value * CountPresent(xs) == SumPresent(xs)
  {
  }

  /** The aggregated values of bins `lo`, `lo + 1`, ..., `lo + n - 1`. */
  function Bins(ks: seq<int>, vals: seq<Option<real>>, a: Agg, lo: int, n: nat): (r: seq<Option<real>>)
    requires |ks| == |vals|
    ensures |r| == n
  {
    if n == 0 then []
    else Bins(ks, vals, a, lo, n - 1) + [Apply(a, BinOf(ks, vals, lo + n - 1))]
  }

  lemma {:induction false} BinsAt(ks: seq<int>, vals: seq<Option<real>>, a: Agg, lo: int, n: nat, j: nat)
    requires |ks| == |vals|
    requires j < n
    ensures Bins(ks, vals, a, lo, n)[j] == Apply(a, BinOf(ks, vals, lo + j))
    decreases n
  {
    var prev := Bins(ks, vals, a, lo, n - 1);
    var last := Apply(a, BinOf(ks, vals, lo + n - 1));
    assert Bins(ks, vals, a, lo, n) == prev + [last];
    if j < n - 1 {
      BinsAt(ks, vals, a, lo, n - 1, j);
      assert (prev + [last])[j] == prev[j];
    }
  }

  /** `series.resample(p).agg(a)`: one value per bin, empty bins included. */
  function ResampleColumn(p: Period, days: seq<int>, vals: seq<Option<real>>, a: Agg): (r: seq<Option<real>>)
    requires |days| == |vals|
    ensures |r| == Span(KeysOf(p, days))
  {
    var ks := KeysOf(p, days);
    if |ks| == 0 then [] else Bins(ks, vals, a, MinOf(ks), Span(ks))
  }

  /** The bin labels of a resampled column, oldest first. */
  function Labels(p: Period, days: seq<int>): (r: seq<int>)
    ensures |r| == Span(KeysOf(p, days))
    ensures |days| > 0 ==> forall j :: 0 <= j < |r| ==> r[j] == BinLabel(p, MinOf(KeysOf(p, days)) + j)
  {
    var ks := KeysOf(p, days);
    if |ks| == 0 then []
    else
      var lo := MinOf(ks);
      seq(Span(ks), j => BinLabel(p, lo + j))
  }

  /* ---------------------------------------------------------------------- */
  /* Properties                                                              */
  /* ---------------------------------------------------------------------- */

  /** Weekly labels are Sundays, one week apart, oldest first, and every day lies in the week its label ends. */
  lemma {:induction false} WeeklyLabelsAscend(days: seq<int>)
    ensures StrictlyAscending(Labels(Weekly, days))
  {
    var ls := Labels(Weekly, days);
    if |days| > 0 {
      var lo := MinOf(KeysOf(Weekly, days));
      forall i, j | 0 <= i < j < |ls|
        ensures ls[i] < ls[j]
      {
        WeeklyLabelsIncrease(lo + i, lo + j);
      }
    }
  }

  lemma {:induction false} WeeklyLabelsAreSundays(days: seq<int>)
    ensures forall j :: 0 <= j < |Labels(Weekly, days)| ==> WeekdayIsSunday(Labels(Weekly, days)[j])
  {
    var ls := Labels(Weekly, days);
    if |days| > 0 {
      var lo := MinOf(KeysOf(Weekly, days));
      forall j | 0 <= j < |ls|
        ensures WeekdayIsSunday(ls[j])
      {
        assert ls[j] == 7 * (lo + j) + 3;
      }
    }
  }

  /** Every day falls in the week that ends on one of the labels, at most six days later. */
  lemma {:induction false} WeeklyLabelsCoverDays(days: seq<int>)
    ensures forall i :: 0 <= i < |days| ==>
      exists j :: 0 <= j < |Labels(Weekly, days)| && days[i] <= Labels(Weekly, days)[j] <= days[i] + 6
  {
    var ls := Labels(Weekly, days);
    if |days| > 0 {
      var ks := KeysOf(Weekly, days);
      var lo := MinOf(ks);
      forall i | 0 <= i < |days|
        ensures exists j :: 0 <= j < |ls| && days[i] <= ls[j] <= days[i] + 6
      {
        var j := ks[i] - lo;
        WeeklyBinIsMondayToSunday(days[i]);
        assert ls[j] == BinLabel(Weekly, ks[i]);
      }
    }
  }

  lemma {:induction false} SumPresentSingle(x: Option<real>)
    ensures SumPresent([x]) == OrZero(x)
    ensures CountPresent([x]) == if x.Some? then 1.0 else 0.0
  {
    assert [x][..0] == [];
  }

  /** The last row adds its cell to the sum and count of the bin it falls in. */
  lemma {:induction false} BinOfLast(ks: seq<int>, vals: seq<Option<real>>, k: int)
    requires |ks| == |vals| > 0
    ensures SumPresent(BinOf(ks, vals, k)) == SumPresent(BinOf(ks[..|ks| - 1], vals[..|ks| - 1], k))
      + (if ks[|ks| - 1] == k then OrZero(vals[|ks| - 1]) else 0.0)
    ensures CountPresent(BinOf(ks, vals, k)) == CountPresent(BinOf(ks[..|ks| - 1], vals[..|ks| - 1], k))
      + (if ks[|ks| - 1] == k && vals[|ks| - 1].Some? then 1.0 else 0.0)
  {
    var m := |ks| - 1;
    var before := BinOf(ks[..m], vals[..m], k);
    var extra: seq<Option<real>> := if ks[m] == k then [vals[m]] else [];
    assert BinOf(ks, vals, k) == before + extra;
    SumPresentAppend(before, extra);
    SumPresentSingle(vals[m]);
    assert extra == [] ==> SumPresent(extra) == 0.0 && CountPresent(extra) == 0.0;
  }

  /** The sum of the sums of bins `lo` .. `lo + n - 1`. */
  function BinsTotal(ks: seq<int>, vals: seq<Option<real>>, lo: int, n: nat): real
    requires |ks| == |vals|
  {
    if n == 0 then 0.0 else BinsTotal(ks, vals, lo, n - 1) + SumPresent(BinOf(ks, vals, lo + n - 1))
  }

  /** The sum of the counts of bins `lo` .. `lo + n - 1`. */
  function BinsCount(ks: seq<int>, vals: seq<Option<real>>, lo: int, n: nat): real
    requires |ks| == |vals|
  {
    if n == 0 then 0.0 else BinsCount(ks, vals, lo, n - 1) + CountPresent(BinOf(ks, vals, lo + n - 1))
  }

  /** The sum of `f` over `lo` .. `lo + n - 1`. */
  function RangeTotal(f: int -> real, lo: int, n: nat): real
  {
    if n == 0 then 0.0 else RangeTotal(f, lo, n - 1) + f(lo + n - 1)
  }

  /** Adding `c` at one point adds `c` to every range that contains the point. */
  lemma {:induction false} RangeTotalBump(f: int -> real, g: int -> real, key: int, c: real, lo: int, n: nat)
    requires forall k :: f(k) == g(k) + (if k == key then c else 0.0)
    ensures RangeTotal(f, lo, n) == RangeTotal(g, lo, n) + (if lo <= key < lo + n then c else 0.0)
    decreases n
  {
    if n > 0 {
      RangeTotalBump(f, g, key, c, lo, n - 1);
      assert f(lo + n - 1) == g(lo + n - 1) + (if lo + n - 1 == key then c else 0.0);
    }
  }

  /** Bin `k`'s sum. */
  function BinSum(ks: seq<int>, vals: seq<Option<real>>): int -> real
    requires |ks| == |vals|
  {
    k => SumPresent(BinOf(ks, vals, k))
  }

  /** Bin `k`'s count. */
  function BinCount(ks: seq<int>, vals: seq<Option<real>>): int -> real
    requires |ks| == |vals|
  {
    k => CountPresent(BinOf(ks, vals, k))
  }

  /** `BinsTotal` and `BinsCount` are range totals of the per-bin sums and counts. */
  lemma {:induction false} BinsTotalIsRangeTotal(ks: seq<int>, vals: seq<Option<real>>, lo: int, n: nat)
    requires |ks| == |vals|
    ensures BinsTotal(ks, vals, lo, n) == RangeTotal(BinSum(ks, vals), lo, n)
    ensures BinsCount(ks, vals, lo, n) == RangeTotal(BinCount(ks, vals), lo, n)
    decreases n
  {
    if n > 0 {
      BinsTotalIsRangeTotal(ks, vals, lo, n - 1);
    }
  }

  /** The last row adds its cell to the bin total of every range of bins that holds its key. */
  lemma {:induction false} BinsTotalLast(ks: seq<int>, vals: seq<Option<real>>, lo: int, n: nat)
    requires |ks| == |vals| > 0
    ensures BinsTotal(ks, vals, lo, n) == BinsTotal(ks[..|ks| - 1], vals[..|ks| - 1], lo, n)
      + (if lo <= ks[|ks| - 1] < lo + n then OrZero(vals[|ks| - 1]) else 0.0)
  {
    var m := |ks| - 1;
    forall k ensures BinSum(ks, vals)(k) == BinSum(ks[..m], vals[..m])(k) + (if k == ks[m] then OrZero(vals[m]) else 0.0) {
      BinOfLast(ks, vals, k);
    }
    BinsTotalIsRangeTotal(ks, vals, lo, n);
    BinsTotalIsRangeTotal(ks[..m], vals[..m], lo, n);
    RangeTotalBump(BinSum(ks, vals), BinSum(ks[..m], vals[..m]), ks[m], OrZero(vals[m]), lo, n);
  }

  /** The last row adds one to the bin count of every range of bins that holds its key, when it is present. */
  lemma {:induction false} BinsCountLast(ks: seq<int>, vals: seq<Option<real>>, lo: int, n: nat)
    requires |ks| == |vals| > 0
    ensures BinsCount(ks, vals, lo, n) == BinsCount(ks[..|ks| - 1], vals[..|ks| - 1], lo, n)
      + (if lo <= ks[|ks| - 1] < lo + n then (if vals[|ks| - 1].Some? then 1.0 else 0.0) else 0.0)
  {
    var m := |ks| - 1;
    var c := if vals[m].Some? then 1.0 else 0.0;
    forall k ensures BinCount(ks, vals)(k) == BinCount(ks[..m], vals[..m])(k) + (if k == ks[m] then c else 0.0) {
      BinOfLast(ks, vals, k);
    }
    BinsTotalIsRangeTotal(ks, vals, lo, n);
    BinsTotalIsRangeTotal(ks[..m], vals[..m], lo, n);
    RangeTotalBump(BinCount(ks, vals), BinCount(ks[..m], vals[..m]), ks[m], c, lo, n);
  }


  lemma {:induction false} BinsTotalOfNothing(vals: seq<Option<real>>, lo: int, n: nat)
    requires |vals| == 0
    ensures BinsTotal([], vals, lo, n) == 0.0
    ensures BinsCount([], vals, lo, n) == 0.0
    decreases n
  {
    if n > 0 {
      BinsTotalOfNothing(vals, lo, n - 1);
    }
  }

  /** Every row whose key is in range is counted in exactly one bin. */
  lemma {:induction false} BinsTotalAll(ks: seq<int>, vals: seq<Option<real>>, lo: int, n: nat)
    requires |ks| == |vals|
    requires forall i :: 0 <= i < |ks| ==> lo <= ks[i] < lo + n
    ensures BinsTotal(ks, vals, lo, n) == SumPresent(vals)
    ensures BinsCount(ks, vals, lo, n) == CountPresent(vals)
    decreases |ks|
  {
    if |ks| == 0 {
      BinsTotalOfNothing(vals, lo, n);
    } else {
      var m := |ks| - 1;
      BinsTotalAll(ks[..m], vals[..m], lo, n);
      BinsTotalLast(ks, vals, lo, n);
      BinsCountLast(ks, vals, lo, n);
    }
  }

  lemma {:induction false} BinsSumIsTotal(ks: seq<int>, vals: seq<Option<real>>, lo: int, n: nat)
    requires |ks| == |vals|
    ensures SumPresent(Bins(ks, vals, SumAgg, lo, n)) == BinsTotal(ks, vals, lo, n)
    ensures SumPresent(Bins(ks, vals, CountAgg, lo, n)) == BinsCount(ks, vals, lo, n)
    decreases n
  {
    if n > 0 {
      var b := BinOf(ks, vals, lo + n - 1);
      var x := Apply(SumAgg, b);
      var c := Apply(CountAgg, b);
      assert Bins(ks, vals, SumAgg, lo, n) == Bins(ks, vals, SumAgg, lo, n - 1) + [x];
      assert Bins(ks, vals, CountAgg, lo, n) == Bins(ks, vals, CountAgg, lo, n - 1) + [c];
      BinsSumIsTotal(ks, vals, lo, n - 1);
      SumPresentAppend(Bins(ks, vals, SumAgg, lo, n - 1), [x]);
      SumPresentAppend(Bins(ks, vals, CountAgg, lo, n - 1), [c]);
      SumPresentSingle(x);
      SumPresentSingle(c);
    }
  }

  /**
   * Resampling with `sum` neither loses nor invents anything: the bin sums
   * add up to the column's sum, and the bin counts to its count.
   */
  lemma {:induction false} ResamplePreservesTotals(p: Period, days: seq<int>, vals: seq<Option<real>>)
    requires |days| == |vals|
    ensures SumPresent(ResampleColumn(p, days, vals, SumAgg)) == SumPresent(vals)
    ensures SumPresent(ResampleColumn(p, days, vals, CountAgg)) == CountPresent(vals)
  {
    var ks := KeysOf(p, days);
    if |ks| > 0 {
      BinsTotalAll(ks, vals, MinOf(ks), Span(ks));
      BinsSumIsTotal(ks, vals, MinOf(ks), Span(ks));
    }
  }

  /** A 0/1 column: every present cell is 0 or 1. */
  ghost predicate Indicator(xs: seq<Option<real>>)
  {
    forall i :: 0 <= i < |xs| && xs[i].Some? ==> xs[i].value == 0.0 || xs[i].value == 1.0
  }

  lemma {:induction false} IndicatorSumAtMostCount(xs: seq<Option<real>>)
    requires Indicator(xs)
    ensures 0.0 <= SumPresent(xs) <= CountPresent(xs)
    decreases |xs|
  {
    if |xs| > 0 {
      IndicatorSumAtMostCount(xs[..|xs| - 1]);
    }
  }

  lemma {:induction false} BinOfKeepsIndicator(ks: seq<int>, vals: seq<Option<real>>, k: int)
    requires |ks| == |vals|
    requires Indicator(vals)
    ensures Indicator(BinOf(ks, vals, k))
    decreases |ks|
  {
    if |ks| > 0 {
      var n := |ks| - 1;
      BinOfKeepsIndicator(ks[..n], vals[..n], k);
    }
  }

  /** The sum and the count of one bin, as `Bins` lists them. */
  lemma {:induction false} BinSumAndCount(ks: seq<int>, vals: seq<Option<real>>, lo: int, n: nat, j: nat)
    requires |ks| == |vals|
    requires j < n
    ensures Bins(ks, vals, SumAgg, lo, n)[j] == Some(SumPresent(BinOf(ks, vals, lo + j)))
    ensures Bins(ks, vals, CountAgg, lo, n)[j] == Some(CountPresent(BinOf(ks, vals, lo + j)))
  {
    BinsAt(ks, vals, SumAgg, lo, n, j);
    BinsAt(ks, vals, CountAgg, lo, n, j);
  }

  /** For a 0/1 column, each bin's sum lies between 0 and its count. */
  lemma {:induction false} ResampledIndicatorSumAtMostCount(p: Period, days: seq<int>, vals: seq<Option<real>>, j: int)
    requires |days| == |vals|
    requires Indicator(vals)
    requires 0 <= j < Span(KeysOf(p, days))
    ensures ResampleColumn(p, days, vals, SumAgg)[j].Some?
    ensures ResampleColumn(p, days, vals, CountAgg)[j].Some?
    ensures 0.0 <= ResampleColumn(p, days, vals, SumAgg)[j].value
             <= ResampleColumn(p, days, vals, CountAgg)[j].value
  {
    var ks := KeysOf(p, days);
    assert ResampleColumn(p, days, vals, SumAgg) == Bins(ks, vals, SumAgg, MinOf(ks), Span(ks));
    assert ResampleColumn(p, days, vals, CountAgg) == Bins(ks, vals, CountAgg, MinOf(ks), Span(ks));
    BinsIndicatorSumAtMostCount(ks, vals, MinOf(ks), Span(ks), j);
  }

  /** For a 0/1 column, each bin's sum lies between 0 and its count, on bins `lo` .. `lo + n - 1`. */
  lemma {:induction false} BinsIndicatorSumAtMostCount(ks: seq<int>, vals: seq<Option<real>>, lo: int, n: nat, j: nat)
    requires |ks| == |vals|
    requires Indicator(vals)
    requires j < n
    ensures Bins(ks, vals, SumAgg, lo, n)[j].Some? && Bins(ks, vals, CountAgg, lo, n)[j].Some?
    ensures 0.0 <= Bins(ks, vals, SumAgg, lo, n)[j].value <= Bins(ks, vals, CountAgg, lo, n)[j].value
  {
    var b := BinOf(ks, vals, lo + j);
    BinSumAndCount(ks, vals, lo, n, j);
    BinOfKeepsIndicator(ks, vals, lo + j);
    IndicatorSumAtMostCount(b);
  }
}
