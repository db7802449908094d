/**
 * Data preparation: choosing one country's rows from the OWID and WHO
 * tables, cleaning each table (forward-filled vaccinations, zero-filled
 * cases, the vaccination rate, the infection indicator I), joining them on
 * the date, and aggregating a cleaned table by week or month.
 */
module Process {
  import opened Common
  import opened Resample
  import Analyze

  /* ---------------------------------------------------------------------- */
  /* Raw rows and the country filter                                         */
  /* ---------------------------------------------------------------------- */

  /** One row of the OWID table, reduced to the columns the cleaning reads. */
  datatype OwidRow = OwidRow(
    location: string, date: int,
    newCases: Option<real>, peopleVaccinated: Option<real>, population: Option<real>)

  /** One row of the WHO table (`Country`, `Date_reported`, `New_cases`). */
  datatype WhoRow = WhoRow(country: string, date: int, newCases: Option<real>)

  /**
   * The names under which a country appears in the OWID and the WHO table:
   * the United States is spelled differently by the two sources.
   */
  function CountryNames(country: string): (r: (string, string))
    ensures country == "United States" || country == "USA" ==>
              r == ("United States", "United States of America")
    ensures country != "United States" && country != "USA" ==> r == (country, country)
  {
    var mapping := [("United States", ("United States", "United States of America")),
                    ("USA", ("United States", "United States of America"))];
    match Lookup(mapping, country)
    case Some(names) => names
    case None => (country, country)
  }

  /** `filter_country_data`: the OWID and WHO rows of one country, order kept. */
  function FilterCountry(owid: seq<OwidRow>, who: seq<WhoRow>, country: string): (r: (seq<OwidRow>, seq<WhoRow>))
    ensures forall o :: o in r.0 <==> o in owid && o.location == CountryNames(country).0
    ensures forall w :: w in r.1 <==> w in who && w.country == CountryNames(country).1
    ensures forall o :: multiset(r.0)[o] == if o.location == CountryNames(country).0 then multiset(owid)[o] else 0
    ensures forall w :: multiset(r.1)[w] == if w.country == CountryNames(country).1 then multiset(who)[w] else 0
  {
    var (owidName, whoName) := CountryNames(country);
    (Filter(owid, (o: OwidRow) => o.location == owidName),
     Filter(who, (w: WhoRow) => w.country == whoName))
  }

  /** Both spellings of the United States select the same rows of each table. */
  lemma {:induction false} UnitedStatesAliases(owid: seq<OwidRow>, who: seq<WhoRow>)
    ensures FilterCountry(owid, who, "USA") == FilterCountry(owid, who, "United States")
    ensures forall w :: w in FilterCountry(owid, who, "USA").1 ==> w.country == "United States of America"
  {
  }

  /* ---------------------------------------------------------------------- */
  /* Forward fill                                                            */
  /* ---------------------------------------------------------------------- */

  /** The most recent present cell of a column, if there is one. */
  function LastPresent(ys: seq<Option<real>>): Option<real>
  {
    if |ys| == 0 then None
    else if ys[|ys| - 1].Some? then ys[|ys| - 1]
    else LastPresent(ys[..|ys| - 1])
  }

  /**
   * `LastPresent` finds a present cell, after which every cell is missing,
   * and finds none only in a column without any present cell.
   */
  lemma {:induction false} LastPresentIsLatest(ys: seq<Option<real>>)
    ensures LastPresent(ys).None? <==> forall j :: 0 <= j < |ys| ==> ys[j].None?
    ensures LastPresent(ys).Some? ==>
              exists j :: 0 <= j < |ys| && ys[j] == LastPresent(ys) && forall k :: j < k < |ys| ==> ys[k].None?
    decreases |ys|
  {
    if |ys| > 0 {
      var n := |ys| - 1;
      if ys[n].None? {
        var prefix := ys[..n];
        LastPresentIsLatest(prefix);
        assert forall j :: 0 <= j < n ==> prefix[j] == ys[j];
        if LastPresent(prefix).Some? {
          var j :| 0 <= j < n && prefix[j] == LastPresent(prefix) && forall k :: j < k < n ==> prefix[k].None?;
          assert ys[j] == LastPresent(ys);
        }
      }
    }
  }

  /** pandas `Series.ffill()`: each missing cell takes the last present cell above it. */
  function ForwardFill(xs: seq<Option<real>>): (r: seq<Option<real>>)
    ensures |r| == |xs|
    ensures forall i :: 0 <= i < |xs| && xs[i].Some? ==> r[i] == xs[i]
  {
    if |xs| == 0 then []
    else
      var n := |xs| - 1;
      var prev := ForwardFill(xs[..n]);
      prev + [if xs[n].Some? || n == 0 then xs[n] else prev[n - 1]]
  }

  lemma {:induction false} ForwardFillStep(xs: seq<Option<real>>, prefix: seq<Option<real>>)
    requires |xs| > 0 && prefix == xs[..|xs| - 1]
    requires forall i :: 0 <= i < |prefix| ==> ForwardFill(prefix)[i] == LastPresent(prefix[..i + 1])
    ensures forall i :: 0 <= i < |xs| ==> ForwardFill(xs)[i] == LastPresent(xs[..i + 1])
  {
    var n := |xs| - 1;
    var prev := ForwardFill(prefix);
    forall i | 0 <= i < |xs|
      ensures ForwardFill(xs)[i] == LastPresent(xs[..i + 1])
    {
      if i < n {
        assert prefix[..i + 1] == xs[..i + 1];
        assert ForwardFill(xs)[i] == prev[i];
      } else {
        assert xs[..i + 1] == xs;
        if xs[n].None? && n > 0 {
          assert prefix[..n] == prefix;
          assert ForwardFill(xs)[n] == prev[n - 1];
        }
      }
    }
  }

  /** Every forward-filled cell is the last present cell at or above its row. */
  lemma {:induction false} ForwardFillIsLastPresent(xs: seq<Option<real>>)
    ensures forall i :: 0 <= i < |xs| ==> ForwardFill(xs)[i] == LastPresent(xs[..i + 1])
    decreases |xs|
  {
    if |xs| > 0 {
      ForwardFillIsLastPresent(xs[..|xs| - 1]);
      ForwardFillStep(xs, xs[..|xs| - 1]);
    }
  }

  /**
   * Forward fill in the terms of the cleaning step: a missing cell stays
   * missing exactly when nothing above it is present, and otherwise takes the
   * value of the nearest present cell above it.
   */
  lemma {:induction false} ForwardFillGaps(xs: seq<Option<real>>, i: int)
    requires 0 <= i < |xs|
    ensures ForwardFill(xs)[i].None? <==> forall j :: 0 <= j <= i ==> xs[j].None?
    ensures ForwardFill(xs)[i].Some? ==>
              exists j :: 0 <= j <= i && xs[j] == ForwardFill(xs)[i] && forall k :: j < k <= i ==> xs[k].None?
  {
    ForwardFillIsLastPresent(xs);
    var ys := xs[..i + 1];
    LastPresentIsLatest(ys);
    assert forall j :: 0 <= j <= i ==> ys[j] == xs[j];
  }

  /** pandas `fillna(0)` on a real column. */
  function FillZero(xs: seq<Option<real>>): (r: seq<real>)
    ensures |r| == |xs|
    ensures forall i :: 0 <= i < |xs| && xs[i].Some? ==> r[i] == xs[i].value
    ensures forall i :: 0 <= i < |xs| && xs[i].None? ==> r[i] == 0.0
  {
    seq(|xs|, i requires 0 <= i < |xs| => OrZero(xs[i]))
  }

  /** Zero-filling a column does not change its pandas sum. */
  lemma {:induction false} FillZeroKeepsSum(xs: seq<Option<real>>)
    ensures Sum(FillZero(xs)) == SumPresent(xs)
    decreases |xs|
  {
    if |xs| > 0 {
      var n := |xs| - 1;
      FillZeroKeepsSum(xs[..n]);
      assert FillZero(xs)[..n] == FillZero(xs[..n]);
    }
  }

  /* ---------------------------------------------------------------------- */
  /* Cleaning                                                                */
  /* ---------------------------------------------------------------------- */

  /**
   * `(new_cases > 0).astype(int)`. A missing count compares false, so it
   * gives 0.
   */
  function InfectionIndicator(cases: Option<real>): (i: real)
    ensures i == 0.0 || i == 1.0
    ensures i == 1.0 <==> cases.Some? && cases.value > 0.0
  {
    if cases.Some? && cases.value > 0.0 then 1.0 else 0.0
  }

  /**
   * `people_vaccinated / population` with a missing quotient filled with 0.
   * A zero population is treated like a missing one (see README).
   */
  function VaccinationRate(vaccinated: Option<real>, population: Option<real>): (r: real)
    ensures vaccinated.None? || population.None? ==> r == 0.0
    ensures vaccinated.Some? && population.Some? && population.value != 0.0 ==>
              r * population.value == vaccinated.value
  {
    if vaccinated.Some? && population.Some? && population.value != 0.0
    then vaccinated.value / population.value
    else 0.0
  }

  /**
   * The rate is not clipped: it is never negative for non-negative counts,
   * and it is at most 1 exactly when no more people are vaccinated than live
   * in the country.
   */
  lemma {:induction false} VaccinationRateBounds(vaccinated: real, population: real)
    requires vaccinated >= 0.0 && population > 0.0
    ensures VaccinationRate(Some(vaccinated), Some(population)) >= 0.0
    ensures VaccinationRate(Some(vaccinated), Some(population)) <= 1.0 <==> vaccinated <= population
  {
    var r := VaccinationRate(Some(vaccinated), Some(population));
    assert r * population == vaccinated;
    if r > 1.0 {
      assert r * population > 1.0 * population;
    }
    if vaccinated > population {
      assert r * population > 1.0 * population;
    }
  }

  /** One row of the cleaned OWID table. */
  datatype OwidClean = OwidClean(
    date: int, newCases: real, peopleVaccinated: Option<real>, population: Option<real>,
    vaccinationRate: real, i: real)

  /** One row of the cleaned WHO table. */
  datatype WhoClean = WhoClean(date: int, newCases: Option<real>, i: real)

  function PeopleVaccinated(rows: seq<OwidRow>): (c: seq<Option<real>>)
    ensures |c| == |rows|
    ensures forall k :: 0 <= k < |rows| ==> c[k] == rows[k].peopleVaccinated
  {
    seq(|rows|, k requires 0 <= k < |rows| => rows[k].peopleVaccinated)
  }

  /** `clean_owid_data`, row order kept. */
  function CleanOwid(rows: seq<OwidRow>): (r: seq<OwidClean>)
    ensures |r| == |rows|
    ensures forall k :: 0 <= k < |rows| ==> r[k].date == rows[k].date && r[k].population == rows[k].population
    ensures forall k :: 0 <= k < |rows| && rows[k].newCases.Some? ==> r[k].newCases == rows[k].newCases.value
    ensures forall k :: 0 <= k < |rows| && rows[k].newCases.None? ==> r[k].newCases == 0.0
    ensures forall k :: 0 <= k < |rows| && rows[k].peopleVaccinated.Some? ==>
              r[k].peopleVaccinated == rows[k].peopleVaccinated
    ensures forall k :: 0 <= k < |rows| ==>
              r[k].vaccinationRate == VaccinationRate(r[k].peopleVaccinated, r[k].population)
    ensures forall k :: 0 <= k < |rows| ==> (r[k].i == 1.0 <==> r[k].newCases > 0.0)
    ensures forall k :: 0 <= k < |rows| ==> r[k].i == 0.0 || r[k].i == 1.0
  {
    var filled := ForwardFill(PeopleVaccinated(rows));
    seq(|rows|, k requires 0 <= k < |rows| =>
      var cases := OrZero(rows[k].newCases);
      OwidClean(rows[k].date, cases, filled[k], rows[k].population,
                VaccinationRate(filled[k], rows[k].population), InfectionIndicator(Some(cases))))
  }

  /**
   * The people-vaccinated column of the cleaned table is the raw column
   * forward-filled: a row keeps the most recent count at or above it, and
   * stays missing (with rate 0) while no count has been reported yet.
   */
  lemma {:induction false} CleanOwidCarriesVaccinations(rows: seq<OwidRow>, k: int)
    requires 0 <= k < |rows|
    ensures CleanOwid(rows)[k].peopleVaccinated == LastPresent(PeopleVaccinated(rows)[..k + 1])
    ensures CleanOwid(rows)[k].peopleVaccinated.None? <==> forall j :: 0 <= j <= k ==> rows[j].peopleVaccinated.None?
    ensures CleanOwid(rows)[k].peopleVaccinated.None? ==> CleanOwid(rows)[k].vaccinationRate == 0.0
  {
    var c := PeopleVaccinated(rows);
    ForwardFillIsLastPresent(c);
    ForwardFillGaps(c, k);
  }

  /** `clean_who_data`, row order kept; the case counts are not filled. */
  function CleanWho(rows: seq<WhoRow>): (r: seq<WhoClean>)
    ensures |r| == |rows|
    ensures forall k :: 0 <= k < |rows| ==> r[k].date == rows[k].date && r[k].newCases == rows[k].newCases
    ensures forall k :: 0 <= k < |rows| ==> (r[k].i == 1.0 <==> rows[k].newCases.Some? && rows[k].newCases.value > 0.0)
    ensures forall k :: 0 <= k < |rows| ==> r[k].i == 0.0 || r[k].i == 1.0
  {
    seq(|rows|, k requires 0 <= k < |rows| =>
      WhoClean(rows[k].date, rows[k].newCases, InfectionIndicator(rows[k].newCases)))
  }

  /* ---------------------------------------------------------------------- */
  /* Merge                                                                   */
  /* ---------------------------------------------------------------------- */

  /**
   * One row of the merged table: the OWID columns, `I_owid`, `I_who`, and the
   * combined `I`.
   */
  datatype Merged = Merged(
    date: int, vaccinationRate: real, iOwid: real, newCases: real, peopleVaccinated: Option<real>,
    iWho: real, i: real)

  /**
   * The row `pd.merge` builds from an OWID row and a WHO row of the same
   * date; both tables carry `I`, so the combined `I` is `I_owid`.
   */
  function Join(o: OwidClean, w: WhoClean): (m: Merged)
    ensures m.date == o.date && m.iOwid == o.i && m.iWho == w.i && m.i == o.i
    ensures m.vaccinationRate == o.vaccinationRate && m.newCases == o.newCases
  {
    Merged(o.date, o.vaccinationRate, o.i, o.newCases, o.peopleVaccinated, w.i, o.i)
  }

  /** The merged rows one OWID row contributes: one per WHO row of its date, in WHO order. */
  function Matches(o: OwidClean, who: seq<WhoClean>): (r: seq<Merged>)
    ensures forall m :: m in r <==> exists w :: w in who && w.date == o.date && m == Join(o, w)
    ensures forall m :: m in r ==> m.date == o.date
  {
    if |who| == 0 then []
    else
      var n := |who| - 1;
      assert who == who[..n] + [who[n]];
      Matches(o, who[..n]) + (if who[n].date == o.date then [Join(o, who[n])] else [])
  }

  /**
   * `merge_datasets`: the inner join on the date, in the order of the OWID
   * rows (`how="inner"` keeps the order of the left keys).
   */
  function Merge(owid: seq<OwidClean>, who: seq<WhoClean>): (r: seq<Merged>)
    ensures forall m :: m in r <==> exists o, w :: o in owid && w in who && o.date == w.date && m == Join(o, w)
    ensures forall m :: m in r ==> m.i == m.iOwid
  {
    if |owid| == 0 then []
    else
      var n := |owid| - 1;
      assert owid == owid[..n] + [owid[n]];
      Merge(owid[..n], who) + Matches(owid[n], who)
  }

  ghost predicate UniqueOwidDates(rows: seq<OwidClean>)
  {
    forall i, j :: 0 <= i < j < |rows| ==> rows[i].date != rows[j].date
  }

  ghost predicate UniqueWhoDates(rows: seq<WhoClean>)
  {
    forall i, j :: 0 <= i < j < |rows| ==> rows[i].date != rows[j].date
  }

  ghost predicate UniqueMergedDates(rows: seq<Merged>)
  {
    forall i, j :: 0 <= i < j < |rows| ==> rows[i].date != rows[j].date
  }

  /** A date is in the merged table exactly when it is in both tables. */
  lemma {:induction false} MergedDatesAreCommonDates(owid: seq<OwidClean>, who: seq<WhoClean>, d: int)
    ensures (exists m :: m in Merge(owid, who) && m.date == d) <==>
            (exists o :: o in owid && o.date == d) && (exists w :: w in who && w.date == d)
  {
    var r := Merge(owid, who);
    if (exists o :: o in owid && o.date == d) && (exists w :: w in who && w.date == d) {
      var o :| o in owid && o.date == d;
      var w :| w in who && w.date == d;
      assert Join(o, w) in r;
    }
  }

  lemma {:induction false} NoMatchesWithoutDate(o: OwidClean, who: seq<WhoClean>)
    requires forall j :: 0 <= j < |who| ==> who[j].date != o.date
    ensures Matches(o, who) == []
    decreases |who|
  {
    if |who| > 0 {
      NoMatchesWithoutDate(o, who[..|who| - 1]);
    }
  }

  /** With at most one WHO row per date, an OWID row contributes at most one merged row. */
  lemma {:induction false} MatchesOfUniqueDates(o: OwidClean, who: seq<WhoClean>)
    requires UniqueWhoDates(who)
    ensures |Matches(o, who)| <= 1
    decreases |who|
  {
    if |who| > 0 {
      var n := |who| - 1;
      if who[n].date == o.date {
        NoMatchesWithoutDate(o, who[..n]);
      } else {
        MatchesOfUniqueDates(o, who[..n]);
      }
    }
  }

  /**
   * With unique dates in both tables the merged dates are unique too, and
   * each merged row carries the OWID row of its date: its `I` and its rate.
   */
  lemma {:induction false} MergeOfUniqueDates(owid: seq<OwidClean>, who: seq<WhoClean>)
    requires UniqueOwidDates(owid) && UniqueWhoDates(who)
    ensures UniqueMergedDates(Merge(owid, who))
    ensures forall m, o :: m in Merge(owid, who) && o in owid && o.date == m.date ==>
              m.i == o.i && m.vaccinationRate == o.vaccinationRate
    decreases |owid|
  {
    if |owid| > 0 {
      var n := |owid| - 1;
      var prev := Merge(owid[..n], who);
      var last := Matches(owid[n], who);
      MergeOfUniqueDates(owid[..n], who);
      MatchesOfUniqueDates(owid[n], who);
      MergeStep(owid, who, prev, last);
    }
  }

  lemma {:induction false} MergeStep(owid: seq<OwidClean>, who: seq<WhoClean>, prev: seq<Merged>, last: seq<Merged>)
    requires |owid| > 0 && UniqueOwidDates(owid)
    requires prev == Merge(owid[..|owid| - 1], who) && last == Matches(owid[|owid| - 1], who)
    requires UniqueMergedDates(prev) && |last| <= 1
    requires forall m, o :: m in prev && o in owid[..|owid| - 1] && o.date == m.date ==>
               m.i == o.i && m.vaccinationRate == o.vaccinationRate
    ensures UniqueMergedDates(Merge(owid, who))
    ensures forall m, o :: m in Merge(owid, who) && o in owid && o.date == m.date ==>
              m.i == o.i && m.vaccinationRate == o.vaccinationRate
  {
    var n := |owid| - 1;
    var r := Merge(owid, who);
    assert r == prev + last;
    assert forall m :: m in prev ==> m.date != owid[n].date by {
      forall m | m in prev
        ensures m.date != owid[n].date
      {
        var o, w :| o in owid[..n] && w in who && o.date == w.date && m == Join(o, w);
        var j :| 0 <= j < n && owid[..n][j] == o;
        assert owid[j].date != owid[n].date;
      }
    }
    forall i, j | 0 <= i < j < |r|
      ensures r[i].date != r[j].date
    {
      if j < |prev| {
        assert r[i] == prev[i] && r[j] == prev[j];
      } else {
        assert r[j] == last[j - |prev|];
        assert r[j].date == owid[n].date by { assert last[j - |prev|] in last; }
        assert i < |prev|;
        assert r[i] in prev by { assert r[i] == prev[i]; }
      }
    }
    forall m, o | m in r && o in owid && o.date == m.date
      ensures m.i == o.i && m.vaccinationRate == o.vaccinationRate
    {
      assert o in owid[..n] || o == owid[n];
      if m !in last {
        assert m in prev;
        if o == owid[n] {
          assert m.date != owid[n].date;
        }
      }
    }
  }

  /** The analysis reads the merged table as (date, I, vaccination_rate) rows. */
  function Observations(rows: seq<Merged>): (obs: seq<Analyze.Obs>)
    ensures |obs| == |rows|
    ensures forall k :: 0 <= k < |rows| ==> obs[k] == Analyze.Obs(rows[k].date, rows[k].i, rows[k].vaccinationRate)
  {
    seq(|rows|, k requires 0 <= k < |rows| => Analyze.Obs(rows[k].date, rows[k].i, rows[k].vaccinationRate))
  }

  /** The infection indicator of the cleaned OWID table survives the join as a 0/1 column. */
  lemma {:induction false} MergedIndicatorIsBinary(owid: seq<OwidRow>, who: seq<WhoClean>)
    ensures Analyze.Binary(Observations(Merge(CleanOwid(owid), who)))
  {
    var clean := CleanOwid(owid);
    var r := Merge(clean, who);
    forall k | 0 <= k < |r|
      ensures r[k].i == 0.0 || r[k].i == 1.0
    {
      assert r[k] in r;
      var o, w :| o in clean && w in who && o.date == w.date && r[k] == Join(o, w);
      var j :| 0 <= j < |clean| && clean[j] == o;
    }
  }

  /* ---------------------------------------------------------------------- */
  /* Aggregation by period                                                   */
  /* ---------------------------------------------------------------------- */

  /** A table indexed by date: named real columns, one cell per date. */
  datatype Frame = Frame(dates: seq<int>, columns: seq<(string, seq<Option<real>>)>)

  ghost predicate WellFormed(f: Frame)
  {
    UniqueKeys(f.columns) && forall j :: 0 <= j < |f.columns| ==> |f.columns[j].1| == |f.dates|
  }

  predicate HasColumn(f: Frame, name: string)
  {
    Lookup(f.columns, name).Some?
  }

  /** The cells of a column of the frame (all missing for an absent column). */
  function CellsOf(f: Frame, name: string): (c: seq<Option<real>>)
    requires WellFormed(f)
    ensures |c| == |f.dates|
  {
    match Find(f.columns, name)
    case Some(j) => f.columns[j].1
    case None => seq(|f.dates|, _ => None)
  }

  /** The cleaned OWID table as a frame (the columns the aggregation can use). */
  function OwidFrame(rows: seq<OwidClean>): (f: Frame)
    ensures WellFormed(f)
  {
    var n := |rows|;
    Frame(seq(n, k requires 0 <= k < n => rows[k].date),
      [("I", seq(n, k requires 0 <= k < n => Some(rows[k].i))),
       ("new_cases", seq(n, k requires 0 <= k < n => Some(rows[k].newCases))),
       ("people_vaccinated", seq(n, k requires 0 <= k < n => rows[k].peopleVaccinated)),
       ("vaccination_rate", seq(n, k requires 0 <= k < n => Some(rows[k].vaccinationRate)))])
  }

  /** The cleaned WHO table as a frame. */
  function WhoFrame(rows: seq<WhoClean>): (f: Frame)
    ensures WellFormed(f)
  {
    var n := |rows|;
    Frame(seq(n, k requires 0 <= k < n => rows[k].date),
      [("I", seq(n, k requires 0 <= k < n => Some(rows[k].i))),
       ("new_cases", seq(n, k requires 0 <= k < n => rows[k].newCases))])
  }

  /**
   * The OWID frame has all four columns the aggregation looks for, the WHO
   * frame only `I` and `new_cases`; both carry their table's `I` values.
   */
  lemma {:induction false} CleanedFrameColumns(owid: seq<OwidClean>, who: seq<WhoClean>)
    ensures HasColumn(OwidFrame(owid), "I") && HasColumn(OwidFrame(owid), "vaccination_rate")
    ensures HasColumn(OwidFrame(owid), "new_cases") && HasColumn(OwidFrame(owid), "people_vaccinated")
    ensures forall k :: 0 <= k < |owid| ==> CellsOf(OwidFrame(owid), "I")[k] == Some(owid[k].i)
    ensures HasColumn(WhoFrame(who), "I") && HasColumn(WhoFrame(who), "new_cases")
    ensures !HasColumn(WhoFrame(who), "vaccination_rate") && !HasColumn(WhoFrame(who), "people_vaccinated")
    ensures forall k :: 0 <= k < |who| ==> CellsOf(WhoFrame(who), "I")[k] == Some(who[k].i)
  {
    var o, w := OwidFrame(owid), WhoFrame(who);
    FindPresent(o.columns, 1, "new_cases");
    FindPresent(o.columns, 2, "people_vaccinated");
    FindPresent(o.columns, 3, "vaccination_rate");
    FindPresent(w.columns, 1, "new_cases");
  }

  /** The aggregations `aggregate_by_period` asks for, per column, in dict order. */
  type Plan = seq<(string, seq<Agg>)>

  /** The columns that get a fixed list of aggregations when present. */
  function ExtraColumns(): seq<string>
  {
    ["vaccination_rate", "new_cases", "people_vaccinated"]
  }

  /** `if name in df.columns: cols_to_agg[name] = aggs`. */
  function AddIfPresent(plan: Plan, f: Frame, name: string, aggs: seq<Agg>): (r: Plan)
    requires UniqueKeys(plan)
    ensures UniqueKeys(r)
  {
    if HasColumn(f, name) then Put(plan, name, aggs) else plan
  }

  /** A column is planned after the step iff it was before or it is the present column added. */
  lemma {:induction false} AddIfPresentKey(plan: Plan, f: Frame, name: string, aggs: seq<Agg>, c: string)
    requires UniqueKeys(plan)
    ensures Lookup(AddIfPresent(plan, f, name, aggs), c).Some? <==>
              Lookup(plan, c).Some? || (c == name && HasColumn(f, name))
  {
  }

  /**
   * `cols_to_agg`: the primary column with sum, mean and count, then the
   * vaccination rate, the new cases and the vaccinated count with their own
   * lists. A later entry for the same name replaces the list in place.
   */
  function AggregationPlan(f: Frame, column: string): (plan: Plan)
    ensures UniqueKeys(plan)
  {
    var p0 := AddIfPresent([], f, column, [SumAgg, MeanAgg, CountAgg]);
    var p1 := AddIfPresent(p0, f, "vaccination_rate", [MeanAgg, MaxAgg, MinAgg]);
    var p2 := AddIfPresent(p1, f, "new_cases", [SumAgg, MeanAgg, MaxAgg]);
    AddIfPresent(p2, f, "people_vaccinated", [MeanAgg, MaxAgg])
  }

  /**
   * The plan names exactly the present columns among the primary column and
   * the three fixed ones.
   */
  lemma {:induction false} AggregationPlanColumns(f: Frame, column: string)
    ensures forall c :: Lookup(AggregationPlan(f, column), c).Some? <==>
              HasColumn(f, c) && (c == column || c in ExtraColumns())
  {
    var p0 := AddIfPresent([], f, column, [SumAgg, MeanAgg, CountAgg]);
    var p1 := AddIfPresent(p0, f, "vaccination_rate", [MeanAgg, MaxAgg, MinAgg]);
    var p2 := AddIfPresent(p1, f, "new_cases", [SumAgg, MeanAgg, MaxAgg]);
    var p3 := AddIfPresent(p2, f, "people_vaccinated", [MeanAgg, MaxAgg]);
    assert AggregationPlan(f, column) == p3;
    forall c
      ensures Lookup(p3, c).Some? <==> HasColumn(f, c) && (c == column || c in ExtraColumns())
    {
      AddIfPresentKey([], f, column, [SumAgg, MeanAgg, CountAgg], c);
      AddIfPresentKey(p0, f, "vaccination_rate", [MeanAgg, MaxAgg, MinAgg], c);
      AddIfPresentKey(p1, f, "new_cases", [SumAgg, MeanAgg, MaxAgg], c);
      AddIfPresentKey(p2, f, "people_vaccinated", [MeanAgg, MaxAgg], c);
      assert c in ExtraColumns() <==> c == "vaccination_rate" || c == "new_cases" || c == "people_vaccinated";
    }
  }

  /**
   * The primary column comes first, and each column has its own list of
   * aggregations; a primary column that is one of the fixed ones takes the
   * fixed list.
   */
  lemma {:induction false} AggregationPlanLists(f: Frame, column: string)
    ensures HasColumn(f, column) ==> |AggregationPlan(f, column)| > 0 && AggregationPlan(f, column)[0].0 == column
    ensures HasColumn(f, column) && column !in ExtraColumns() ==>
              AggregationPlan(f, column)[0].1 == [SumAgg, MeanAgg, CountAgg]
    ensures HasColumn(f, "vaccination_rate") ==>
              Lookup(AggregationPlan(f, column), "vaccination_rate") == Some([MeanAgg, MaxAgg, MinAgg])
    ensures HasColumn(f, "new_cases") ==> Lookup(AggregationPlan(f, column), "new_cases") == Some([SumAgg, MeanAgg, MaxAgg])
    ensures HasColumn(f, "people_vaccinated") ==> Lookup(AggregationPlan(f, column), "people_vaccinated") == Some([MeanAgg, MaxAgg])
  {
    var p0 := AddIfPresent([], f, column, [SumAgg, MeanAgg, CountAgg]);
    var p1 := AddIfPresent(p0, f, "vaccination_rate", [MeanAgg, MaxAgg, MinAgg]);
    var p2 := AddIfPresent(p1, f, "new_cases", [SumAgg, MeanAgg, MaxAgg]);
    var p3 := AddIfPresent(p2, f, "people_vaccinated", [MeanAgg, MaxAgg]);
    assert AggregationPlan(f, column) == p3;
  }

  /**
   * The flattened name of a `(column, aggregation)` column header:
   * `column_aggregation`, or the bare column when the second part is empty
   * (the `("date", "")` header left by `reset_index`).
   */
  function FlattenName(column: string, agg: string): (name: string)
    ensures agg == "" ==> name == column
    ensures agg != "" ==> |name| == |column| + 1 + |agg| && name[..|column|] == column
    ensures agg != "" ==> name[|column|] == '_' && name[|column| + 1..] == agg
  {
    if agg == "" then column else column + "_" + agg
  }

  /**
   * Flattening loses nothing for pandas' aggregation names, which contain no
   * underscore: the header can be read back from the flattened name.
   */
  lemma {:induction false} FlattenNameIsInjective(c1: string, a1: string, c2: string, a2: string)
    requires a1 != "" && a2 != "" && '_' !in a1 && '_' !in a2
    requires FlattenName(c1, a1) == FlattenName(c2, a2)
    ensures c1 == c2 && a1 == a2
  {
    var s := FlattenName(c1, a1);
    assert |c1| == |c2|;
    assert c1 == s[..|c1|] && c2 == s[..|c2|];
  }

  lemma {:induction false} AggNamesHaveNoUnderscore(a: Agg)
    ensures AggName(a) != "" && '_' !in AggName(a)
  {
  }

  /** The flattened columns of one plan entry, in the order of its aggregations. */
  function EntryColumns(f: Frame, p: Period, column: string, aggs: seq<Agg>): (r: seq<(string, seq<Option<real>>)>)
    requires WellFormed(f)
    ensures |r| == |aggs|
  {
    var cells := CellsOf(f, column);
    seq(|aggs|, j requires 0 <= j < |aggs| =>
      (FlattenName(column, AggName(aggs[j])), ResampleColumn(p, f.dates, cells, aggs[j])))
  }

  /** `resample(p).agg(plan)` with flattened headers: plan entry by plan entry. */
  function AggregatedColumns(f: Frame, p: Period, plan: Plan): (r: seq<(string, seq<Option<real>>)>)
    requires WellFormed(f)
  {
    if |plan| == 0 then []
    else EntryColumns(f, p, plan[0].0, plan[0].1) + AggregatedColumns(f, p, plan[1..])
  }

  /**
   * `aggregate_by_period`. "D" hands the table back; "W" and "M"/"ME"
   * resample with one flattened column per requested aggregation, the bin
   * labels becoming the date column; with nothing to aggregate only the
   * dates remain. Any other alias fails with `UnsupportedAlias` once there
   * is something to aggregate.
   */
  function AggregateByPeriod(f: Frame, period: string, column: string): (r: Result<Frame>)
    requires WellFormed(f)
    ensures period == "D" ==> r == Success(f)
    ensures period != "D" && |AggregationPlan(f, column)| == 0 ==> r == Success(Frame(f.dates, []))
    ensures r.Failure? <==> ParseAlias(period).None? && |AggregationPlan(f, column)| > 0
    ensures r.Failure? ==> r.error == UnsupportedAlias(period)
  {
    var plan := AggregationPlan(f, column);
    var alias := ParseAlias(period);
    if period == "D" then Success(f)
    else if |plan| == 0 then Success(Frame(f.dates, []))
    else if alias.None? then Failure(UnsupportedAlias(period))
    else Success(Frame(Labels(alias.value, f.dates), AggregatedColumns(f, alias.value, plan)))
  }

  /**
   * Aggregating by week or month gives the primary column (when it is not one
   * of the fixed columns) its `_sum`, `_mean` and `_count` columns, each the
   * resampled primary column, and they are found under those names.
   */
  lemma {:induction false} PrimaryColumnsAfterAggregation(f: Frame, period: string, column: string)
    requires WellFormed(f) && HasColumn(f, column) && column !in ExtraColumns()
    requires period != "D" && ParseAlias(period).Some?
    ensures AggregateByPeriod(f, period, column).Success?
    ensures AggregateByPeriod(f, period, column).value.dates == Labels(ParseAlias(period).value, f.dates)
    ensures Lookup(AggregateByPeriod(f, period, column).value.columns, FlattenName(column, "sum"))
              == Some(ResampleColumn(ParseAlias(period).value, f.dates, CellsOf(f, column), SumAgg))
    ensures Lookup(AggregateByPeriod(f, period, column).value.columns, FlattenName(column, "mean"))
              == Some(ResampleColumn(ParseAlias(period).value, f.dates, CellsOf(f, column), MeanAgg))
    ensures Lookup(AggregateByPeriod(f, period, column).value.columns, FlattenName(column, "count"))
              == Some(ResampleColumn(ParseAlias(period).value, f.dates, CellsOf(f, column), CountAgg))
  {
    var p := ParseAlias(period).value;
    var plan := AggregationPlan(f, column);
    AggregationPlanLists(f, column);
    AggregateShape(f, period, column);
    var cols := AggregatedColumns(f, p, plan);
    FirstThreeColumns(f, p, column, plan);
    LookupFirstThree(cols, column);
  }

  lemma {:induction false} AggregateShape(f: Frame, period: string, column: string)
    requires WellFormed(f) && |AggregationPlan(f, column)| > 0
    requires period != "D" && ParseAlias(period).Some?
    ensures AggregateByPeriod(f, period, column) ==
              Success(Frame(Labels(ParseAlias(period).value, f.dates),
                            AggregatedColumns(f, ParseAlias(period).value, AggregationPlan(f, column))))
  {
  }

  lemma {:induction false} FirstThreeColumns(f: Frame, p: Period, column: string, plan: Plan)
    requires WellFormed(f) && |plan| > 0 && plan[0] == (column, [SumAgg, MeanAgg, CountAgg])
    ensures |AggregatedColumns(f, p, plan)| >= 3
    ensures AggregatedColumns(f, p, plan)[0] == (FlattenName(column, "sum"), ResampleColumn(p, f.dates, CellsOf(f, column), SumAgg))
    ensures AggregatedColumns(f, p, plan)[1] == (FlattenName(column, "mean"), ResampleColumn(p, f.dates, CellsOf(f, column), MeanAgg))
    ensures AggregatedColumns(f, p, plan)[2] == (FlattenName(column, "count"), ResampleColumn(p, f.dates, CellsOf(f, column), CountAgg))
  {
    var first := EntryColumns(f, p, column, [SumAgg, MeanAgg, CountAgg]);
    var cols := AggregatedColumns(f, p, plan);
    assert cols == first + AggregatedColumns(f, p, plan[1..]);
    assert cols[0] == first[0] && cols[1] == first[1] && cols[2] == first[2];
  }

  lemma {:induction false} LookupFirstThree<V>(cols: seq<(string, V)>, column: string)
    requires |cols| >= 3
    requires cols[0].0 == FlattenName(column, "sum") && cols[1].0 == FlattenName(column, "mean")
    requires cols[2].0 == FlattenName(column, "count")
    ensures Lookup(cols, FlattenName(column, "sum")) == Some(cols[0].1)
    ensures Lookup(cols, FlattenName(column, "mean")) == Some(cols[1].1)
    ensures Lookup(cols, FlattenName(column, "count")) == Some(cols[2].1)
  {
    FindFirst(cols, 0, FlattenName(column, "sum"));
    FindFirst(cols, 1, FlattenName(column, "mean"));
    FindFirst(cols, 2, FlattenName(column, "count"));
  }

  /**
   * For a 0/1 primary column `I`, weekly or monthly aggregation keeps the
   * total: the bin sums add up to the sum of `I`; and no bin's sum exceeds its
   * count of days.
   */
  lemma {:induction false} IndicatorTotalsAfterAggregation(f: Frame, period: string, g: Frame)
    requires WellFormed(f) && HasColumn(f, "I") && Indicator(CellsOf(f, "I"))
    requires period != "D" && AggregateByPeriod(f, period, "I") == Success(g)
    ensures Lookup(g.columns, "I_sum").Some? && Lookup(g.columns, "I_count").Some?
    ensures |Lookup(g.columns, "I_sum").value| == |Lookup(g.columns, "I_count").value| == |g.dates|
    ensures SumPresent(Lookup(g.columns, "I_sum").value) == SumPresent(CellsOf(f, "I"))
    ensures SumPresent(Lookup(g.columns, "I_count").value) == CountPresent(CellsOf(f, "I"))
    ensures forall j :: 0 <= j < |g.dates| ==>
              Lookup(g.columns, "I_sum").value[j].Some? && Lookup(g.columns, "I_count").value[j].Some? &&
              0.0 <= Lookup(g.columns, "I_sum").value[j].value <= Lookup(g.columns, "I_count").value[j].value
  {
    AggregatedIndicatorColumns(f, period, g);
    var sums, counts := Lookup(g.columns, "I_sum").value, Lookup(g.columns, "I_count").value;
    IndicatorBins(ParseAlias(period).value, f.dates, CellsOf(f, "I"), sums, counts);
  }

  lemma {:induction false} AggregatedIndicatorColumns(f: Frame, period: string, g: Frame)
    requires WellFormed(f) && HasColumn(f, "I")
    requires period != "D" && AggregateByPeriod(f, period, "I") == Success(g)
    ensures ParseAlias(period).Some?
    ensures g.dates == Labels(ParseAlias(period).value, f.dates)
    ensures Lookup(g.columns, "I_sum") == Some(ResampleColumn(ParseAlias(period).value, f.dates, CellsOf(f, "I"), SumAgg))
    ensures Lookup(g.columns, "I_count") == Some(ResampleColumn(ParseAlias(period).value, f.dates, CellsOf(f, "I"), CountAgg))
  {
    PrimaryColumnsAfterAggregation(f, period, "I");
    IndicatorColumnNames();
  }

  lemma {:induction false} IndicatorColumnNames()
    ensures FlattenName("I", "sum") == "I_sum" && FlattenName("I", "count") == "I_count"
    ensures "I" !in ExtraColumns()
  {
  }

  lemma {:induction false} IndicatorBins(p: Period, days: seq<int>, cells: seq<Option<real>>,
                                         sums: seq<Option<real>>, counts: seq<Option<real>>)
    requires |days| == |cells| && Indicator(cells)
    requires sums == ResampleColumn(p, days, cells, SumAgg) && counts == ResampleColumn(p, days, cells, CountAgg)
    ensures SumPresent(sums) == SumPresent(cells) && SumPresent(counts) == CountPresent(cells)
    ensures |sums| == |counts| == |Labels(p, days)|
    ensures forall j :: 0 <= j < |sums| ==> sums[j].Some? && counts[j].Some? && 0.0 <= sums[j].value <= counts[j].value
  {
    ResamplePreservesTotals(p, days, cells);
    forall j | 0 <= j < |sums|
      ensures sums[j].Some? && counts[j].Some? && 0.0 <= sums[j].value <= counts[j].value
    {
      ResampledIndicatorSumAtMostCount(p, days, cells, j);
    }
  }

  /** The cleaned tables' `I` columns are 0/1 columns, so the totals above apply to both. */
  lemma {:induction false} CleanedIndicatorColumns(owid: seq<OwidRow>, who: seq<WhoRow>)
    ensures Indicator(CellsOf(OwidFrame(CleanOwid(owid)), "I"))
    ensures Indicator(CellsOf(WhoFrame(CleanWho(who)), "I"))
  {
    CleanedFrameColumns(CleanOwid(owid), CleanWho(who));
  }
}
