/** Daily time series: one row per calendar day with at least one won
    impression, carrying that day's impressions, spend and mean win price,
    left-joined with the day's clicks and conversions (zero when there are
    none), and the day's CTR, CPC and CPA. */
module TimeSeries {
  import opened GroupBy
  import opened Records
  import opened Ratios

  datatype DailyRow = DailyRow(
    date: int,
    impressions: nat,
    spend: real,
    avgCpm: real,
    clicks: nat,
    clickCost: real,
    conversions: nat,
    conversionValue: real,
    ctr: real,
    cpc: real,
    cpa: real)

  function DaySpend(r: DailyRow): real { r.spend }
  function DayImpressions(r: DailyRow): real { r.impressions as real }

  /** Each impression counts once. */
  function One(i: Impression): real { 1.0 }

  /** The derived columns of a day: the mean win price, CTR (unguarded, a day
      has at least one impression), and CPC and CPA, zero on a day without
      clicks or conversions. */
  predicate DerivedFacts(r: DailyRow, winPriceSum: real)
  {
    && r.impressions >= 1
    && r.avgCpm * (r.impressions as real) == winPriceSum
    && r.ctr * (r.impressions as real) == (r.clicks as real) * 100.0
    && (r.clicks > 0 ==> r.cpc * (r.clicks as real) == r.spend)
    && (r.clicks == 0 ==> r.cpc == 0.0)
    && (r.conversions > 0 ==> r.cpa * (r.conversions as real) == r.spend)
    && (r.conversions == 0 ==> r.cpa == 0.0)
  }

  function DeriveDay(date: int, impressions: nat, spend: real, winPriceSum: real, clicks: nat,
                     clickCost: real, conversions: nat, conversionValue: real): (r: DailyRow)
    requires impressions >= 1
    ensures r.date == date && r.impressions == impressions && r.spend == spend
    ensures r.clicks == clicks && r.clickCost == clickCost
    ensures r.conversions == conversions && r.conversionValue == conversionValue
    ensures DerivedFacts(r, winPriceSum)
  {
    var n := impressions as real;
    DailyRow(date, impressions, spend, Quotient(winPriceSum, n), clicks, clickCost,
             conversions, conversionValue,
             Percent(clicks as real, n),
             SafeDiv(spend, clicks as real),
             SafeDiv(spend, conversions as real))
  }

  /** What a day's row promises about the events of that day. */
  predicate DayFacts(r: DailyRow, won: seq<Impression>, clicks: seq<Click>, conversions: seq<Conversion>)
  {
    && r.impressions == |Members(won, ImpDate, r.date)|
    && r.spend == GroupTotal(won, ImpDate, ImpressionSpend, r.date)
    && r.clicks == |Members(clicks, ClickDate, r.date)|
    && r.clickCost == GroupTotal(clicks, ClickDate, ClickCost, r.date)
    && r.conversions == |Members(conversions, ConversionDate, r.date)|
    && r.conversionValue == GroupTotal(conversions, ConversionDate, ConversionValue, r.date)
    && DerivedFacts(r, GroupTotal(won, ImpDate, WinPrice, r.date))
  }

  /** The row of one day with won impressions. */
  function Day(won: seq<Impression>, clicks: seq<Click>, conversions: seq<Conversion>, date: int)
    : (r: DailyRow)
    requires Members(won, ImpDate, date) != []
    ensures r.date == date
    ensures DayFacts(r, won, clicks, conversions)
  {
    var group := Members(won, ImpDate, date);
    var clickGroup := Members(clicks, ClickDate, date);
    var conversionGroup := Members(conversions, ConversionDate, date);
    DeriveDay(date, |group|, Total(group, ImpressionSpend), Total(group, WinPrice),
              |clickGroup|, Total(clickGroup, ClickCost),
              |conversionGroup|, Total(conversionGroup, ConversionValue))
  }

  /** The rows of the first `n` days of `ds`. */
  function Days(won: seq<Impression>, clicks: seq<Click>, conversions: seq<Conversion>, ds: seq<int>, n: nat)
    : (rows: seq<DailyRow>)
    requires n <= |ds|
    requires forall d :: d in ds ==> Members(won, ImpDate, d) != []
    ensures |rows| == n
    ensures forall j :: 0 <= j < n ==> rows[j].date == ds[j] && DayFacts(rows[j], won, clicks, conversions)
  {
    if n == 0 then []
    else
      assert ds[n - 1] in ds;
      Days(won, clicks, conversions, ds, n - 1) + [Day(won, clicks, conversions, ds[n - 1])]
  }

  predicate HasDay(rows: seq<DailyRow>, date: int)
  {
    exists r :: r in rows && r.date == date
  }

  predicate Increasing(s: seq<int>)
  {
    forall i, j :: 0 <= i < j < |s| ==> s[i] < s[j]
  }

  /** `x` put into its place in an increasing list that lacks it. */
  function Insert(s: seq<int>, x: int): (r: seq<int>)
    requires Increasing(s) && x !in s
    ensures Increasing(r)
    ensures |r| == |s| + 1
    ensures forall y :: y in r <==> y in s || y == x
  {
    if |s| == 0 then [x]
    else if x < s[0] then [x] + s
    else
      assert forall y :: y in s <==> y == s[0] || y in s[1..] by {
        assert s == [s[0]] + s[1..];
      }
      assert Increasing(s[1..]);
      var rest := Insert(s[1..], x);
      assert forall j :: 0 <= j < |rest| ==> s[0] < rest[j] by {
        forall j | 0 <= j < |rest| ensures s[0] < rest[j] {
          assert rest[j] in rest;
          if rest[j] != x {
            var k :| 0 <= k < |s[1..]| && s[1..][k] == rest[j];
            assert s[k + 1] == rest[j];
          }
        }
      }
      var r := [s[0]] + rest;
      assert forall i, j :: 0 < i < j < |r| ==> r[i] == rest[i - 1] && r[j] == rest[j - 1];
      r
  }

  /** The days of a grouped table in ascending order, as `groupby` sorts its
      index. */
  function SortDates(ks: seq<int>): (r: seq<int>)
    requires NoDuplicates(ks)
    ensures Increasing(r)
    ensures |r| == |ks|
    ensures forall y :: y in r <==> y in ks
  {
    if |ks| == 0 then []
    else
      var init := ks[..|ks| - 1];
      assert forall y :: y in ks <==> y in init || y == ks[|ks| - 1] by {
        assert ks == init + [ks[|ks| - 1]];
      }
      Insert(SortDates(init), ks[|ks| - 1])
  }

  /** `prepare_time_series_data`: exactly one row per day on which an
      impression was won, in ascending date order; a day with clicks or
      conversions but no won impression has no row. */
  function PrepareTimeSeriesData(imps: seq<Impression>, clicks: seq<Click>, conversions: seq<Conversion>)
    : (rows: seq<DailyRow>)
    ensures forall d :: HasDay(rows, d) <==> exists i :: i in imps && i.outcome.Won? && DateOf(i.timestamp) == d
    ensures forall j, k :: 0 <= j < k < |rows| ==> rows[j].date < rows[k].date
    ensures forall r :: r in rows ==> DayFacts(r, WonImpressions(imps), clicks, conversions)
  {
    var won := WonImpressions(imps);
    var ds := SortDates(GroupKeys(won, ImpDate));
    var rows := Days(won, clicks, conversions, ds, |ds|);
    DaysCoverDates(imps, clicks, conversions, ds, rows);
    rows
  }

  lemma DaysCoverDates(imps: seq<Impression>, clicks: seq<Click>, conversions: seq<Conversion>,
                       ds: seq<int>, rows: seq<DailyRow>)
    requires forall d :: d in ds <==> Members(WonImpressions(imps), ImpDate, d) != []
    requires |rows| == |ds|
    requires forall j :: 0 <= j < |rows| ==> rows[j].date == ds[j]
    ensures forall d :: HasDay(rows, d) <==> exists i :: i in imps && i.outcome.Won? && DateOf(i.timestamp) == d
  {
    var won := WonImpressions(imps);
    forall d ensures HasDay(rows, d) <==> exists i :: i in imps && i.outcome.Won? && DateOf(i.timestamp) == d {
      if HasDay(rows, d) {
        var r :| r in rows && r.date == d;
        var j :| 0 <= j < |rows| && rows[j] == r;
        assert ds[j] in ds;
        var i := Members(won, ImpDate, d)[0];
        assert i in Members(won, ImpDate, d);
      }
      if exists i :: i in imps && i.outcome.Won? && DateOf(i.timestamp) == d {
        var i :| i in imps && i.outcome.Won? && DateOf(i.timestamp) == d;
        assert i in Members(won, ImpDate, d);
        var j :| 0 <= j < |ds| && ds[j] == d;
        assert rows[j] in rows;
      }
    }
  }

  /** Summed over the days, spend is the total won spend and the impression
      counts add up to the number of won impressions. */
  lemma DailyTotals(imps: seq<Impression>, clicks: seq<Click>, conversions: seq<Conversion>)
    ensures Total(PrepareTimeSeriesData(imps, clicks, conversions), DaySpend) == TotalWonSpend(imps)
    ensures Total(PrepareTimeSeriesData(imps, clicks, conversions), DayImpressions)
         == |WonImpressions(imps)| as real
  {
    var won := WonImpressions(imps);
    var ks := GroupKeys(won, ImpDate);
    var ds := SortDates(ks);
    var rows := PrepareTimeSeriesData(imps, clicks, conversions);
    assert rows == Days(won, clicks, conversions, ds, |ds|);
    TotalOfGroupRows(won, ImpDate, ImpressionSpend, ds, rows, DaySpend);
    SumGroupsReorder(won, ImpDate, ImpressionSpend, ds, ks);
    Partition(won, ImpDate, ImpressionSpend);
    forall j | 0 <= j < |ds| ensures DayImpressions(rows[j]) == GroupTotal(won, ImpDate, One, ds[j]) {
      CountTotal(Members(won, ImpDate, ds[j]));
    }
    TotalOfGroupRows(won, ImpDate, One, ds, rows, DayImpressions);
    SumGroupsReorder(won, ImpDate, One, ds, ks);
    Partition(won, ImpDate, One);
    CountTotal(won);
  }

  /** Counting is summing ones. */
  lemma {:induction false} CountTotal(xs: seq<Impression>)
    ensures Total(xs, One) == |xs| as real
  {
    if |xs| > 0 {
      CountTotal(xs[..|xs| - 1]);
    }
  }
}
