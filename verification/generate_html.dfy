/**
 * The data behind the dashboard's charts: weekly case series from the OWID,
 * WHO and New York Times tables, reconciled onto one list of dates by
 * nearest-date matching, plus the summary numbers the page shows.
 */
module Chart {
  import opened Common
  import opened Resample
  import Analyze
  import Process

  /* ---------------------------------------------------------------------- */
  /* Cumulative to incremental counts                                        */
  /* ---------------------------------------------------------------------- */

  /** pandas `Series.diff()`: the first cell, and any cell next to a gap, is NaN. */
  function Diff(cs: seq<Option<real>>): (r: seq<Option<real>>)
    ensures |r| == |cs|
  {
    seq(|cs|, i requires 0 <= i < |cs| =>
      if i > 0 && cs[i].Some? && cs[i - 1].Some? then Some(cs[i].value - cs[i - 1].value) else None)
  }

  /** `clip(lower=0)`: negative values become 0, NaN stays NaN. */
  function ClipAtZero(x: Option<real>): (r: Option<real>)
    ensures r.Some? <==> x.Some?
    ensures r.Some? ==> r.value >= 0.0 && r.value >= x.value
  {
    if x.Some? then Some(MaxReal(x.value, 0.0)) else None
  }

  /**
   * `cases.diff().fillna(cases.iloc[0]).clip(lower=0)`: every NaN of the
   * difference, not only the first, takes the first cumulative count, and an
   * empty column has no first count.
   */
  function Increments(cs: seq<Option<real>>): (r: Result<seq<Option<real>>>)
    ensures r.Failure? <==> |cs| == 0
    ensures r.Failure? ==> r.error == IndexOutOfBounds
    ensures r.Success? ==> |r.value| == |cs|
    ensures r.Success? ==> forall i :: 0 <= i < |cs| && r.value[i].Some? ==> r.value[i].value >= 0.0
  {
    if |cs| == 0 then Failure(IndexOutOfBounds)
    else
      var d := Diff(cs);
      Success(seq(|cs|, i requires 0 <= i < |cs| => ClipAtZero(if d[i].Some? then d[i] else cs[0])))
  }

  /** A cumulative column with no gaps. */
  function Present(cs: seq<real>): (r: seq<Option<real>>)
    ensures |r| == |cs|
    ensures forall i :: 0 <= i < |cs| ==> r[i] == Some(cs[i])
  {
    seq(|cs|, i requires 0 <= i < |cs| => Some(cs[i]))
  }

  /**
   * Without gaps the increments are the first count and then the day-to-day
   * differences, each raised to 0 if negative.
   */
  lemma {:induction false} IncrementsOfPresent(cs: seq<real>)
    requires |cs| > 0
    ensures Increments(Present(cs)).Success?
    ensures Increments(Present(cs)).value[0] == Some(MaxReal(cs[0], 0.0))
    ensures forall i :: 0 < i < |cs| ==> Increments(Present(cs)).value[i] == Some(MaxReal(cs[i] - cs[i - 1], 0.0))
  {
  }

  /** The counts 10, 10, 15, 12 become 10, 0, 5, 0: the drop to 12 is clipped. */
  lemma {:induction false} IncrementsExample()
    ensures Increments(Present([10.0, 10.0, 15.0, 12.0])) == Success(Present([10.0, 0.0, 5.0, 0.0]))
  {
    var cs := [10.0, 10.0, 15.0, 12.0];
    IncrementsOfPresent(cs);
    var r := Increments(Present(cs)).value;
    assert r == Present([10.0, 0.0, 5.0, 0.0]);
  }

  ghost predicate NonDecreasing(cs: seq<real>)
  {
    forall i :: 0 < i < |cs| ==> cs[i - 1] <= cs[i]
  }

  /**
   * For a non-negative, never decreasing cumulative column, adding up the
   * increments of the first i + 1 days gives back the count of day i.
   */
  lemma {:induction false} IncrementsAddUpToCumulative(cs: seq<real>, i: nat)
    requires |cs| > 0 && NonDecreasing(cs) && cs[0] >= 0.0
    requires i < |cs|
    ensures SumPresent(Increments(Present(cs)).value[..i + 1]) == cs[i]
    decreases i
  {
    IncrementsOfPresent(cs);
    var r := Increments(Present(cs)).value;
    if i == 0 {
      assert r[..1] == [r[0]];
      SumPresentSingle(r[0]);
    } else {
      IncrementsAddUpToCumulative(cs, i - 1);
      assert r[..i + 1][..i] == r[..i];
      assert r[i] == Some(cs[i] - cs[i - 1]);
    }
  }

  /* ---------------------------------------------------------------------- */
  /* Nearest-date matching                                                   */
  /* ---------------------------------------------------------------------- */

  /** The closest source date seen so far and its value. */
  datatype Candidate = Candidate(distance: nat, value: real)

  /**
   * The scan of `match_weekly_value`: over the source in dict order, a date
   * within 7 days replaces the current best only when strictly closer.
   */
  function Nearest(d: int, src: seq<(int, real)>): Option<Candidate>
  {
    if |src| == 0 then None
    else
      var n := |src| - 1;
      var best := Nearest(d, src[..n]);
      var distance := Abs(src[n].0 - d);
      if distance <= 7 && (best.None? || distance < best.value.distance)
      then Some(Candidate(distance, src[n].1))
      else best
  }

  /**
   * The scan finds nothing exactly when no source date is within 7 days;
   * otherwise it finds the value of the first source date of least distance.
   */
  lemma {:induction false} NearestIsFirstClosest(d: int, src: seq<(int, real)>)
    ensures Nearest(d, src).None? <==> forall j :: 0 <= j < |src| ==> Abs(src[j].0 - d) > 7
    ensures Nearest(d, src).Some? ==>
              exists j :: 0 <= j < |src| && Abs(src[j].0 - d) == Nearest(d, src).value.distance <= 7
                && src[j].1 == Nearest(d, src).value.value
                && forall i :: 0 <= i < j ==> Abs(src[i].0 - d) > Nearest(d, src).value.distance
    ensures Nearest(d, src).Some? ==>
              forall i :: 0 <= i < |src| ==> Nearest(d, src).value.distance <= Abs(src[i].0 - d) || Abs(src[i].0 - d) > 7
    decreases |src|
  {
    if |src| > 0 {
      var n := |src| - 1;
      var prefix := src[..n];
      NearestIsFirstClosest(d, prefix);
      assert forall i :: 0 <= i < n ==> prefix[i] == src[i];
      var best := Nearest(d, prefix);
      if best.Some? && Nearest(d, src) == best {
        var j :| 0 <= j < n && Abs(prefix[j].0 - d) == best.value.distance <= 7
                 && prefix[j].1 == best.value.value
                 && forall i :: 0 <= i < j ==> Abs(prefix[i].0 - d) > best.value.distance;
        assert src[j] == prefix[j];
      }
    }
  }

  /**
   * `match_weekly_value`: the stored value of the date itself when it is a
   * key with a non-zero value, and otherwise the value of the nearest source
   * date within 7 days, if there is one.
   */
  function MatchWeekly(d: int, src: seq<(int, real)>): real
  {
    var exact := Lookup(src, d);
    var got := if exact.Some? then exact.value else 0.0;
    if got == 0.0 || exact.None? then
      var best := Nearest(d, src);
      if best.Some? then best.value.value else got
    else got
  }

  /** A date that is a key gets its own value back, a stored 0.0 included. */
  lemma {:induction false} MatchOfKey(d: int, src: seq<(int, real)>)
    requires UniqueKeys(src) && Lookup(src, d).Some?
    ensures MatchWeekly(d, src) == Lookup(src, d).value
  {
    var k := Find(src, d).value;
    NearestIsFirstClosest(d, src);
    assert Abs(src[k].0 - d) == 0;
    var best := Nearest(d, src);
    var j :| 0 <= j < |src| && Abs(src[j].0 - d) == best.value.distance <= 7
             && src[j].1 == best.value.value
             && forall i :: 0 <= i < j ==> Abs(src[i].0 - d) > best.value.distance;
    assert best.value.distance == 0;
    assert src[j].0 == src[k].0;
    assert j == k;
  }

  /**
   * A date that is not a key gets 0.0 when no source date is within 7 days,
   * and otherwise the value of a source date within 7 days at least distance,
   * the first such in dict order.
   */
  lemma {:induction false} MatchOffKey(d: int, src: seq<(int, real)>)
    requires Lookup(src, d).None?
    ensures (forall j :: 0 <= j < |src| ==> Abs(src[j].0 - d) > 7) ==> MatchWeekly(d, src) == 0.0
    ensures (exists j :: 0 <= j < |src| && Abs(src[j].0 - d) <= 7) ==>
              exists j :: 0 <= j < |src| && Abs(src[j].0 - d) <= 7 && MatchWeekly(d, src) == src[j].1
                && (forall i :: 0 <= i < |src| && Abs(src[i].0 - d) <= 7 ==> Abs(src[j].0 - d) <= Abs(src[i].0 - d))
                && (forall i :: 0 <= i < j ==> Abs(src[i].0 - d) > Abs(src[j].0 - d))
  {
    NearestIsFirstClosest(d, src);
  }

  /* ---------------------------------------------------------------------- */
  /* Base dates                                                              */
  /* ---------------------------------------------------------------------- */

  /** Some date of `xs` lies within 7 days of `d`. */
  predicate Near(d: int, xs: seq<int>)
  {
    exists i :: 0 <= i < |xs| && Abs(xs[i] - d) <= 7
  }

  /**
   * The dates the three-source chart is drawn on. With all three sources,
   * every date of any source that has a date within 7 days in each of them;
   * otherwise the fallbacks of the OWID and NYT sources.
   */
  function BaseDates(owid: seq<int>, nyt: seq<int>, who: seq<int>): (r: seq<int>)
  {
    if |owid| > 0 && |nyt| > 0 && |who| > 0 then
      Filter(SortedSet(owid + nyt + who), d => Near(d, owid) && Near(d, nyt) && Near(d, who))
    else if |owid| > 0 && |nyt| > 0 then SortedSet(Filter(owid, d => d in nyt))
    else if |owid| > 0 then SortByKey(owid, d => d)
    else if |nyt| > 0 then SortByKey(nyt, d => d)
    else []
  }

  /**
   * With all three sources the base dates ascend strictly and are exactly
   * the dates of the union that have a date within 7 days in every source.
   */
  lemma {:induction false} BaseDatesOfThreeSources(owid: seq<int>, nyt: seq<int>, who: seq<int>)
    requires |owid| > 0 && |nyt| > 0 && |who| > 0
    ensures StrictlyAscending(BaseDates(owid, nyt, who))
    ensures forall d :: d in BaseDates(owid, nyt, who) <==>
              (d in owid || d in nyt || d in who) && Near(d, owid) && Near(d, nyt) && Near(d, who)
  {
    var keep := d => Near(d, owid) && Near(d, nyt) && Near(d, who);
    var all := SortedSet(owid + nyt + who);
    FilterKeepsStrictOrder(all, keep);
    assert forall d :: d in owid + nyt + who <==> d in owid || d in nyt || d in who;
  }

  /**
   * The fallbacks: OWID and NYT give their common dates in ascending order;
   * OWID alone, or with WHO only, gives the OWID dates sorted; NYT alone gives
   * the NYT dates sorted; WHO alone or nothing gives no dates.
   */
  lemma {:induction false} BaseDatesFallbacks(owid: seq<int>, nyt: seq<int>, who: seq<int>)
    ensures |owid| > 0 && |nyt| > 0 && |who| == 0 ==>
              StrictlyAscending(BaseDates(owid, nyt, who)) &&
              forall d :: d in BaseDates(owid, nyt, who) <==> d in owid && d in nyt
    ensures |owid| > 0 && |nyt| == 0 ==>
              Ascending(BaseDates(owid, nyt, who)) && multiset(BaseDates(owid, nyt, who)) == multiset(owid)
    ensures |owid| == 0 && |nyt| > 0 ==>
              Ascending(BaseDates(owid, nyt, who)) && multiset(BaseDates(owid, nyt, who)) == multiset(nyt)
    ensures |owid| == 0 && |nyt| == 0 ==> BaseDates(owid, nyt, who) == []
  {
  }

  /* ---------------------------------------------------------------------- */
  /* Weekly series of the three sources                                      */
  /* ---------------------------------------------------------------------- */

  /** One row of the New York Times national table: a cumulative case count. */
  datatype NytRow = NytRow(date: int, cases: Option<real>)

  /** A date series and its values, as two aligned lists. */
  type Series = (seq<int>, seq<real>)

  predicate InWindow(day: int)
  {
    WindowStart <= day <= WindowEnd
  }

  /** The OWID United States rows inside the window, in date order. */
  function OwidWindow(rows: seq<Process.OwidRow>): (kept: seq<Process.OwidRow>)
    ensures forall o :: o in kept <==> o in rows && o.location == "United States" && InWindow(o.date)
    ensures forall i, j :: 0 <= i < j < |kept| ==> kept[i].date <= kept[j].date
  {
    var us := Filter(rows, (o: Process.OwidRow) => o.location == "United States");
    var sorted := SortByKey(us, (o: Process.OwidRow) => o.date);
    forall o ensures o in sorted <==> o in us {
      PermutationKeepsMembers(sorted, us, o);
    }
    FilterKeepsOrderBy(sorted, (o: Process.OwidRow) => InWindow(o.date), (o: Process.OwidRow) => o.date);
    Filter(sorted, (o: Process.OwidRow) => InWindow(o.date))
  }

  /**
   * A table's columns are `MapRows` projections of its rows: here the OWID
   * dates and new cases, below the WHO, NYT and merged columns alike.
   */
  function OwidDays(rows: seq<Process.OwidRow>): (days: seq<int>)
  {
    MapRows(rows, (row: Process.OwidRow) => row.date)
  }

  function OwidCases(rows: seq<Process.OwidRow>): (cases: seq<Option<real>>)
  {
    MapRows(rows, (row: Process.OwidRow) => row.newCases)
  }

  /**
   * The OWID weekly series: the window's new cases summed per week, weeks
   * without a reported value at zero. A table without a date column (`None`)
   * gives no series.
   */
  function OwidSeries(table: Option<seq<Process.OwidRow>>): (r: Series)
    ensures |r.0| == |r.1|
    ensures table.None? ==> r == ([], [])
  {
    match table
    case None => ([], [])
    case Some(rows) =>
      var kept := OwidWindow(rows);
      (Labels(Weekly, OwidDays(kept)), Process.FillZero(ResampleColumn(Weekly, OwidDays(kept), OwidCases(kept), SumAgg)))
  }

  /** The weekly OWID series loses no case: its values add up to the new cases in the window. */
  lemma {:induction false} OwidSeriesKeepsCases(rows: seq<Process.OwidRow>)
    ensures Sum(OwidSeries(Some(rows)).1) == SumPresent(OwidCases(OwidWindow(rows)))
  {
    var kept := OwidWindow(rows);
    WeeklySumKeepsTotal(OwidDays(kept), OwidCases(kept));
  }

  /** The WHO United States rows inside the window, in date order. */
  function WhoWindow(rows: seq<Process.WhoRow>): (kept: seq<Process.WhoRow>)
    ensures forall w :: w in kept <==> w in rows && w.country == "United States of America" && InWindow(w.date)
    ensures forall i, j :: 0 <= i < j < |kept| ==> kept[i].date <= kept[j].date
  {
    var us := Filter(rows, (w: Process.WhoRow) => w.country == "United States of America");
    var sorted := SortByKey(us, (w: Process.WhoRow) => w.date);
    forall w ensures w in sorted <==> w in us {
      PermutationKeepsMembers(sorted, us, w);
    }
    FilterKeepsOrderBy(sorted, (w: Process.WhoRow) => InWindow(w.date), (w: Process.WhoRow) => w.date);
    Filter(sorted, (w: Process.WhoRow) => InWindow(w.date))
  }

  function WhoDays(rows: seq<Process.WhoRow>): (days: seq<int>)
  {
    MapRows(rows, (row: Process.WhoRow) => row.date)
  }

  function WhoCases(rows: seq<Process.WhoRow>): (cases: seq<Option<real>>)
  {
    MapRows(rows, (row: Process.WhoRow) => row.newCases)
  }

  /** The WHO series: already weekly, so only its gaps are zero-filled. */
  function WhoSeries(table: Option<seq<Process.WhoRow>>): (r: Series)
    ensures |r.0| == |r.1|
    ensures table.None? ==> r == ([], [])
  {
    match table
    case None => ([], [])
    case Some(rows) =>
      var kept := WhoWindow(rows);
      (WhoDays(kept), Process.FillZero(WhoCases(kept)))
  }

  /**
   * Every WHO series date is the date of a United States row inside the
   * window, in order, and the series adds up to the cases reported there.
   */
  lemma {:induction false} WhoSeriesOfWindow(rows: seq<Process.WhoRow>, s: Series)
    requires WhoSeries(Some(rows)) == s
    ensures forall k :: 0 <= k < |s.0| ==>
      InWindow(s.0[k]) && exists w :: w in rows && w.country == "United States of America" && w.date == s.0[k]
    ensures forall i, j :: 0 <= i < j < |s.0| ==> s.0[i] <= s.0[j]
    ensures Sum(s.1) == SumPresent(WhoCases(WhoWindow(rows)))
  {
    var kept := WhoWindow(rows);
    assert s.0 == WhoDays(kept);
    assert s.1 == Process.FillZero(WhoCases(kept));
    forall k | 0 <= k < |s.0|
      ensures InWindow(s.0[k])
      ensures exists w :: w in rows && w.country == "United States of America" && w.date == s.0[k]
    {
      assert kept[k] in kept;
    }
    Process.FillZeroKeepsSum(WhoCases(kept));
  }

  /** The NYT rows inside the window, in date order. */
  function NytWindow(rows: seq<NytRow>): (kept: seq<NytRow>)
    ensures forall n :: n in kept <==> n in rows && InWindow(n.date)
    ensures forall i, j :: 0 <= i < j < |kept| ==> kept[i].date <= kept[j].date
  {
    var sorted := SortByKey(rows, (n: NytRow) => n.date);
    forall n ensures n in sorted <==> n in rows {
      PermutationKeepsMembers(sorted, rows, n);
    }
    FilterKeepsOrderBy(sorted, (n: NytRow) => InWindow(n.date), (n: NytRow) => n.date);
    Filter(sorted, (n: NytRow) => InWindow(n.date))
  }

  function NytDays(rows: seq<NytRow>): (days: seq<int>)
  {
    MapRows(rows, (row: NytRow) => row.date)
  }

  function NytCounts(rows: seq<NytRow>): (counts: seq<Option<real>>)
  {
    MapRows(rows, (row: NytRow) => row.cases)
  }

  /**
   * The NYT weekly series: the window's cumulative counts turned into daily
   * increments and summed per week. With a date column but no row in the
   * window there is no first count to fill the first difference with.
   */
  function NytSeries(table: Option<seq<NytRow>>): (r: Result<Series>)
    ensures r.Success? ==> |r.value.0| == |r.value.1|
    ensures table.None? ==> r == Success(([], []))
    ensures r.Failure? <==> table.Some? && |NytWindow(table.value)| == 0
  {
    match table
    case None => Success(([], []))
    case Some(rows) =>
      var kept := NytWindow(rows);
      var increments := Increments(NytCounts(kept));
      if increments.Failure? then Failure(increments.error)
      else Success((Labels(Weekly, NytDays(kept)), Process.FillZero(ResampleColumn(Weekly, NytDays(kept), increments.value, SumAgg))))
  }

  /** The weekly NYT series adds up to the last cumulative count when the counts never fall. */
  lemma {:induction false} NytSeriesKeepsCases(rows: seq<NytRow>, counts: seq<real>, s: Series)
    requires |counts| > 0 && Present(counts) == NytCounts(NytWindow(rows))
    requires NonDecreasing(counts) && counts[0] >= 0.0
    requires NytSeries(Some(rows)) == Success(s)
    ensures Sum(s.1) == counts[|counts| - 1]
  {
    var kept := NytWindow(rows);
    assert s.1 == Process.FillZero(ResampleColumn(Weekly, NytDays(kept), Increments(Present(counts)).value, SumAgg));
    WeeklyIncrementsKeepTotal(NytDays(kept), counts);
  }

  /** The weekly sums of the increments of a non-decreasing count add up to its last value. */
  lemma {:induction false} WeeklyIncrementsKeepTotal(days: seq<int>, counts: seq<real>)
    requires |days| == |counts| > 0
    requires NonDecreasing(counts) && counts[0] >= 0.0
    ensures Sum(Process.FillZero(ResampleColumn(Weekly, days, Increments(Present(counts)).value, SumAgg))) == counts[|counts| - 1]
  {
    var out := Increments(Present(counts)).value;
    IncrementsAddUpToCumulative(counts, |counts| - 1);
    assert out[..|counts|] == out;
    WeeklySumKeepsTotal(days, out);
  }

  /** Summing a daily column per week and zero-filling the empty weeks keeps its total. */
  lemma {:induction false} WeeklySumKeepsTotal(days: seq<int>, vals: seq<Option<real>>)
    requires |days| == |vals|
    ensures Sum(Process.FillZero(ResampleColumn(Weekly, days, vals, SumAgg))) == SumPresent(vals)
  {
    ResamplePreservesTotals(Weekly, days, vals);
    Process.FillZeroKeepsSum(ResampleColumn(Weekly, days, vals, SumAgg));
  }

  function Zip(xs: seq<int>, ys: seq<real>): (r: seq<(int, real)>)
    requires |xs| == |ys|
    ensures |r| == |xs|
    ensures forall k :: 0 <= k < |xs| ==> r[k] == (xs[k], ys[k])
  {
    seq(|xs|, k requires 0 <= k < |xs| => (xs[k], ys[k]))
  }

  /** Python `dict(zip(dates, values)) if dates else {}`. */
  function SourceDict(s: Series): (d: seq<(int, real)>)
    requires |s.0| == |s.1|
    ensures UniqueKeys(d)
    ensures forall k :: Lookup(d, k) == LastValue(Zip(s.0, s.1), k)
  {
    if |s.0| > 0 then FromPairs(Zip(s.0, s.1)) else []
  }

  /** A source's dict is empty exactly when the source has no dates. */
  lemma {:induction false} SourceDictIsEmptyWithoutDates(s: Series)
    requires |s.0| == |s.1|
    ensures |SourceDict(s)| == 0 <==> |s.0| == 0
  {
    if |s.0| > 0 {
      var ps := Zip(s.0, s.1);
      var k := ps[|ps| - 1].0;
      assert LastValue(ps, k).Some?;
      assert Lookup(SourceDict(s), k).Some?;
    }
  }

  /* ---------------------------------------------------------------------- */
  /* The chart data                                                          */
  /* ---------------------------------------------------------------------- */

  /** The most comparison rows the chart shows. */
  const MaxComparisonRows: nat := 200

  /** The chart dict's blocks; dates stay day numbers and labels are left to the page. */
  datatype Coverage = Coverage(start: int, end: int, totalDays: nat)
  datatype Timeline = Timeline(dates: seq<int>, rates: seq<real>)
  datatype Comparison = Comparison(dates: seq<int>, owid: seq<real>, who: seq<real>, nyt: seq<real>)
  datatype Stats = Stats(highVax: real, lowVax: real, newCasesMean: Option<real>, pI: Option<real>, pI0: Option<real>)
  datatype ChartData = ChartData(coverage: Coverage, timeline: Timeline, comparison: Comparison, stats: Stats)

  /** `group['I'].mean() if len(group) > 0 else 0`. */
  function GroupMeanOrZero(group: seq<Analyze.Obs>): (p: real)
    ensures |group| > 0 ==> p * |group| as real == Analyze.SumI(group)
    ensures |group| == 0 ==> p == 0.0
  {
    if |group| > 0 then Analyze.MeanI(group).value else 0.0
  }

  function NewCases(rows: seq<Process.Merged>): (cs: seq<real>)
  {
    MapRows(rows, (row: Process.Merged) => row.newCases)
  }

  /** The mean of the merged new cases; NaN (`None`) for an empty table. */
  function MeanNewCases(rows: seq<Process.Merged>): (m: Option<real>)
    ensures m.None? <==> |rows| == 0
    ensures m.Some? ==> m.value * |rows| as real == Sum(NewCases(rows))
  {
    if |rows| == 0 then None else Some(Sum(NewCases(rows)) / |rows| as real)
  }

  function MergedDays(rows: seq<Process.Merged>): (days: seq<int>)
  {
    MapRows(rows, (row: Process.Merged) => row.date)
  }

  function MergedRates(rows: seq<Process.Merged>): (rates: seq<real>)
  {
    MapRows(rows, (row: Process.Merged) => row.vaccinationRate)
  }

  /** The first and last day of the merged table and its length. */
  function CoverageOf(rows: seq<Process.Merged>): (c: Coverage)
    requires |rows| > 0
    ensures c.totalDays == |rows|
    ensures forall k :: 0 <= k < |rows| ==> c.start <= rows[k].date <= c.end
    ensures exists k :: 0 <= k < |rows| && rows[k].date == c.start
    ensures exists k :: 0 <= k < |rows| && rows[k].date == c.end
  {
    var days := MergedDays(rows);
    var c := Coverage(MinOf(days), MaxOf(days), |rows|);
    forall k | 0 <= k < |rows|
      ensures c.start <= rows[k].date <= c.end
    {
      assert days[k] == rows[k].date;
    }
    var i :| 0 <= i < |days| && days[i] == c.start;
    var j :| 0 <= j < |days| && days[j] == c.end;
    assert rows[i].date == c.start && rows[j].date == c.end;
    c
  }

  function TimelineOf(rows: seq<Process.Merged>): (t: Timeline)
    ensures |t.dates| == |t.rates| == |rows|
    ensures forall k :: 0 <= k < |rows| ==> t.dates[k] == rows[k].date && t.rates[k] == rows[k].vaccinationRate
  {
    Timeline(MergedDays(rows), MergedRates(rows))
  }

  /** The value each source shows against each comparison date. */
  function Column(dates: seq<int>, dict: seq<(int, real)>): (vs: seq<real>)
    ensures |vs| == |dates| && forall k :: 0 <= k < |dates| ==> vs[k] == MatchWeekly(dates[k], dict)
  {
    seq(|dates|, k requires 0 <= k < |dates| => MatchWeekly(dates[k], dict))
  }

  /** The WHO column is all zeros when WHO contributes no dates. */
  function WhoColumn(dates: seq<int>, dict: seq<(int, real)>): (vs: seq<real>)
    ensures |vs| == |dates|
    ensures |dict| == 0 ==> forall k :: 0 <= k < |dates| ==> vs[k] == 0.0
    ensures |dict| > 0 ==> vs == Column(dates, dict)
  {
    if |dict| > 0 then Column(dates, dict) else seq(|dates|, _ => 0.0)
  }

  /** The side-by-side comparison of the three weekly series over the first 200 base dates. */
  function ComparisonOf(o: Series, w: Series, n: Series): (c: Comparison)
    requires |o.0| == |o.1| && |w.0| == |w.1| && |n.0| == |n.1|
    ensures |c.owid| == |c.who| == |c.nyt| == |c.dates|
    ensures var base := BaseDates(o.0, n.0, w.0);
            |c.dates| == (if |base| < MaxComparisonRows then |base| else MaxComparisonRows) && c.dates == base[..|c.dates|]
  {
    var dates := Take(BaseDates(o.0, n.0, w.0), MaxComparisonRows);
    Comparison(dates, Column(dates, SourceDict(o)), WhoColumn(dates, SourceDict(w)), Column(dates, SourceDict(n)))
  }

  /**
   * Each source's value against a comparison date is its weekly match there;
   * a WHO series with no date shows zeros throughout.
   */
  lemma {:induction false} ComparisonMatches(o: Series, w: Series, n: Series, c: Comparison)
    requires |o.0| == |o.1| && |w.0| == |w.1| && |n.0| == |n.1|
    requires ComparisonOf(o, w, n) == c
    ensures forall k :: 0 <= k < |c.dates| ==>
      c.owid[k] == MatchWeekly(c.dates[k], SourceDict(o)) && c.nyt[k] == MatchWeekly(c.dates[k], SourceDict(n))
    ensures |w.0| == 0 ==> forall k :: 0 <= k < |c.who| ==> c.who[k] == 0.0
    ensures |w.0| > 0 ==> forall k :: 0 <= k < |c.dates| ==> c.who[k] == MatchWeekly(c.dates[k], SourceDict(w))
  {
    SourceDictIsEmptyWithoutDates(w);
  }

  /** The conditional rates, the mean of new cases and the overall probability of infection. */
  function StatsOf(rows: seq<Process.Merged>): (s: Stats)
    ensures s.newCasesMean == MeanNewCases(rows)
    ensures s.pI.Some? <==> |rows| > 0
    ensures s.pI0.Some? <==> s.pI.Some?
    ensures s.pI.Some? ==> s.pI.value + s.pI0.value == 1.0
  {
    var obs := Process.Observations(rows);
    var pI := Analyze.MeanI(obs);
    Stats(GroupMeanOrZero(Analyze.AtLeast(obs, 0.5)), GroupMeanOrZero(Analyze.Below(obs, 0.5)),
          MeanNewCases(rows), pI, if pI.Some? then Some(1.0 - pI.value) else None)
  }

  /**
   * The statistics block agrees with the conditional-probability analysis
   * at threshold 0.5: an empty group shows 0 where the analysis has no value.
   */
  lemma {:induction false} StatsAgreeWithAnalysis(rows: seq<Process.Merged>, sqrt: real -> real, s: Stats, cond: Analyze.Conditional)
    requires StatsOf(rows) == s
    requires Analyze.ConditionalProbabilities(Process.Observations(rows), 0.5, sqrt) == cond
    ensures s.highVax == OrZero(cond.pHigh) && s.lowVax == OrZero(cond.pLow)
  {
    var obs := Process.Observations(rows);
    var high, low := Analyze.AtLeast(obs, 0.5), Analyze.Below(obs, 0.5);
    assert cond == Analyze.GroupSummary(high, low, 0.5, sqrt);
    assert cond.pHigh == Analyze.MeanI(high) && cond.pLow == Analyze.MeanI(low);
    assert s.highVax == GroupMeanOrZero(high) && s.lowVax == GroupMeanOrZero(low);
  }

  /**
   * Over an indicator that is 0 or 1 on every row, as the cleaned and merged
   * tables give, every probability the chart shows lies in [0, 1].
   */
  lemma {:induction false} StatsInUnitInterval(rows: seq<Process.Merged>)
    requires |rows| > 0
    requires Analyze.Binary(Process.Observations(rows))
    ensures 0.0 <= StatsOf(rows).highVax <= 1.0 && 0.0 <= StatsOf(rows).lowVax <= 1.0
    ensures StatsOf(rows).pI.Some? && 0.0 <= StatsOf(rows).pI.value <= 1.0
    ensures StatsOf(rows).pI0.Some? && 0.0 <= StatsOf(rows).pI0.value <= 1.0
  {
    var obs := Process.Observations(rows);
    var high, low := Analyze.AtLeast(obs, 0.5), Analyze.Below(obs, 0.5);
    Analyze.PartitionKeepsBinary(obs, 0.5);
    if |high| > 0 {
      Analyze.ProbabilityOfIndicator(high);
    }
    if |low| > 0 {
      Analyze.ProbabilityOfIndicator(low);
    }
    Analyze.ProbabilityOfIndicator(obs);
  }

  /**
   * `prepare_chart_data` over the merged daily table and the three raw
   * tables. It fails where the code raises: on the NYT fill of an empty
   * window, and on the coverage dates of an empty table.
   */
  function PrepareChart(rows: seq<Process.Merged>, owid: Option<seq<Process.OwidRow>>,
                        who: Option<seq<Process.WhoRow>>, nyt: Option<seq<NytRow>>): (r: Result<ChartData>)
    ensures r.Failure? <==> NytSeries(nyt).Failure? || |rows| == 0
    ensures r.Failure? && NytSeries(nyt).Success? ==> r.error == NoCoverage
    ensures r.Success? ==> r.value.coverage.totalDays == |rows| == |r.value.timeline.dates|
    ensures r.Success? ==> |r.value.comparison.dates| <= MaxComparisonRows
  {
    var nytSeries := NytSeries(nyt);
    if nytSeries.Failure? then Failure(nytSeries.error)
    else if |rows| == 0 then Failure(NoCoverage)
    else
      Success(ChartData(CoverageOf(rows), TimelineOf(rows),
                        ComparisonOf(OwidSeries(owid), WhoSeries(who), nytSeries.value), StatsOf(rows)))
  }

  /** The chart of the cleaned and merged OWID and WHO tables shows probabilities only. */
  lemma {:induction false} ChartOfPipelineIsProbabilistic(owidRaw: seq<Process.OwidRow>, whoClean: seq<Process.WhoClean>,
                                                          owid: Option<seq<Process.OwidRow>>, who: Option<seq<Process.WhoRow>>,
                                                          nyt: Option<seq<NytRow>>, c: ChartData)
    requires PrepareChart(Process.Merge(Process.CleanOwid(owidRaw), whoClean), owid, who, nyt) == Success(c)
    ensures 0.0 <= c.stats.highVax <= 1.0 && 0.0 <= c.stats.lowVax <= 1.0
    ensures c.stats.pI.Some? && 0.0 <= c.stats.pI.value <= 1.0
  {
    var rows := Process.Merge(Process.CleanOwid(owidRaw), whoClean);
    Process.MergedIndicatorIsBinary(owidRaw, whoClean);
    StatsInUnitInterval(rows);
  }
}
