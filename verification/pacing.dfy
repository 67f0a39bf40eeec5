/** Pacing: for every campaign that won at least one impression, the share of
    budget spent against the share of campaign time with delivery, a three-way
    status, and a linear run-rate forecast. Campaign order is kept. */
module Pacing {
  import opened GroupBy
  import opened Records
  import opened Ratios

  datatype PacingStatus = Ahead | Behind | OnPace

  /** Ten percentage points either side of the time share is on pace; the
      boundary itself is on pace. */
  function Classify(budgetSpentPct: real, timeElapsedPct: real): (s: PacingStatus)
    ensures s == Ahead <==> budgetSpentPct > timeElapsedPct + 10.0
    ensures s == Behind <==> budgetSpentPct < timeElapsedPct - 10.0
    ensures s == OnPace <==> timeElapsedPct - 10.0 <= budgetSpentPct <= timeElapsedPct + 10.0
  {
    if budgetSpentPct > timeElapsedPct + 10.0 then Ahead
    else if budgetSpentPct < timeElapsedPct - 10.0 then Behind
    else OnPace
  }

  function Rank(s: PacingStatus): int
  {
    match s
    case Behind => 0
    case OnPace => 1
    case Ahead => 2
  }

  /** Spending more, at the same elapsed time, never moves a campaign from
      ahead towards behind. */
  lemma ClassifyMonotone(budgetLow: real, budgetHigh: real, timeElapsedPct: real)
    requires budgetLow <= budgetHigh
    ensures Rank(Classify(budgetLow, timeElapsedPct)) <= Rank(Classify(budgetHigh, timeElapsedPct))
  {
  }

  datatype PacingRow = PacingRow(
    campaignId: string,
    campaignName: string,
    budgetTotal: real,
    budgetDaily: real,
    totalSpend: real,
    avgDailySpend: real,
    forecastedSpend: real,
    budgetSpentPct: real,
    timeElapsedPct: real,
    status: PacingStatus,
    daysActive: nat,
    totalDays: int)

  /** The derived columns of a pacing row. */
  predicate DerivedFacts(r: PacingRow)
  {
    && r.daysActive >= 1
    && (r.budgetTotal > 0.0 ==> r.budgetSpentPct * r.budgetTotal == r.totalSpend * 100.0)
    && (r.budgetTotal <= 0.0 ==> r.budgetSpentPct == 0.0)
    && (r.totalDays > 0 ==> r.timeElapsedPct * (r.totalDays as real) == (r.daysActive as real) * 100.0)
    && (r.totalDays <= 0 ==> r.timeElapsedPct == 0.0)
    && (r.status == Ahead <==> r.budgetSpentPct > r.timeElapsedPct + 10.0)
    && (r.status == Behind <==> r.budgetSpentPct < r.timeElapsedPct - 10.0)
    && (r.status == OnPace <==> r.timeElapsedPct - 10.0 <= r.budgetSpentPct <= r.timeElapsedPct + 10.0)
    && r.avgDailySpend * (r.daysActive as real) == r.totalSpend
    && r.forecastedSpend * (r.daysActive as real) == r.totalSpend * (r.totalDays as real)
  }

  lemma ForecastRunRate(avg: real, total: real, active: nat, days: int)
    requires active >= 1
    requires avg * (active as real) == total
    ensures (avg * (days as real)) * (active as real) == total * (days as real)
  {
  }

  function DeriveRow(c: Campaign, totalSpend: real, daysActive: nat): (r: PacingRow)
    requires daysActive >= 1
    ensures r.campaignId == c.campaignId && r.campaignName == c.name
    ensures r.budgetTotal == c.budgetTotal && r.budgetDaily == c.budgetDaily
    ensures r.totalSpend == totalSpend && r.daysActive == daysActive
    ensures r.totalDays == c.endDate - c.startDate + 1
    ensures DerivedFacts(r)
  {
    var totalDays := c.endDate - c.startDate + 1;
    var budgetPct := SafePercent(totalSpend, c.budgetTotal);
    var timePct := SafePercent(daysActive as real, totalDays as real);
    var avg := SafeDiv(totalSpend, daysActive as real);
    ForecastRunRate(avg, totalSpend, daysActive, totalDays);
    PacingRow(c.campaignId, c.name, c.budgetTotal, c.budgetDaily, totalSpend, avg,
              avg * (totalDays as real), budgetPct, timePct, Classify(budgetPct, timePct),
              daysActive, totalDays)
  }

  /** The pacing row of one delivering campaign: spend summed day by day over
      its won impressions, and the number of distinct days with delivery. */
  function CampaignPacing(imps: seq<Impression>, c: Campaign): (r: PacingRow)
    requires WonOf(imps, c.campaignId) != []
    ensures r.campaignId == c.campaignId && r.campaignName == c.name
    ensures r.budgetTotal == c.budgetTotal && r.budgetDaily == c.budgetDaily
    ensures r.totalSpend == Total(WonOf(imps, c.campaignId), ImpressionSpend)
    ensures r.daysActive == |KeySet(WonOf(imps, c.campaignId), ImpDate)|
    ensures r.daysActive <= |WonOf(imps, c.campaignId)|
    ensures r.totalDays == c.endDate - c.startDate + 1
    ensures DerivedFacts(r)
  {
    var group := WonOf(imps, c.campaignId);
    var dates := GroupKeys(group, ImpDate);
    Partition(group, ImpDate, ImpressionSpend);
    GroupKeysCount(group, ImpDate);
    assert group[0] in Members(group, ImpDate, ImpDate(group[0]));
    DeriveRow(c, SumGroups(group, ImpDate, ImpressionSpend, dates), |dates|)
  }

  /** The campaigns the pacing loop does not skip, in input order. */
  function Delivering(imps: seq<Impression>, cs: seq<Campaign>): (ds: seq<Campaign>)
    ensures |ds| <= |cs|
    ensures forall c :: c in ds <==> c in cs && Delivered(imps, c.campaignId)
    ensures forall c :: c in ds ==> WonOf(imps, c.campaignId) != []
  {
    if |cs| == 0 then []
    else
      var c := cs[|cs| - 1];
      DeliveredIffWonOf(imps, c.campaignId);
      assert cs == cs[..|cs| - 1] + [c];
      var rest := Delivering(imps, cs[..|cs| - 1]);
      if WonOf(imps, c.campaignId) == [] then rest else rest + [c]
  }

  /** Filtering campaigns one list at a time gives the same result as
      filtering their concatenation: the filter keeps relative order. */
  lemma {:induction false} DeliveringAppend(imps: seq<Impression>, a: seq<Campaign>, b: seq<Campaign>)
    ensures Delivering(imps, a + b) == Delivering(imps, a) + Delivering(imps, b)
    decreases |b|
  {
    if |b| == 0 {
      assert a + b == a;
    } else {
      assert (a + b)[..|a + b| - 1] == a + b[..|b| - 1];
      DeliveringAppend(imps, a, b[..|b| - 1]);
    }
  }

  /** `calculate_pacing_analysis`: one row per delivering campaign, in the
      order the campaigns are given. */
  function CalculatePacingAnalysis(imps: seq<Impression>, cs: seq<Campaign>): (rows: seq<PacingRow>)
    ensures |rows| == |Delivering(imps, cs)|
    ensures forall j :: 0 <= j < |rows| ==> rows[j].campaignId == Delivering(imps, cs)[j].campaignId
  {
    var ds := Delivering(imps, cs);
    seq(|ds|, j requires 0 <= j < |ds| => CampaignPacing(imps, ds[j]))
  }

  /** What a pacing row promises about its campaign's won impressions. */
  ghost predicate DeliveryFacts(r: PacingRow, imps: seq<Impression>)
  {
    && Delivered(imps, r.campaignId)
    && r.totalSpend == Total(WonOf(imps, r.campaignId), ImpressionSpend)
    && r.daysActive == |KeySet(WonOf(imps, r.campaignId), ImpDate)|
    && r.daysActive <= |WonOf(imps, r.campaignId)|
  }

  /** Every pacing row belongs to a listed campaign that delivered, sums that
      campaign's won spend over its distinct delivery days, and carries the
      derived columns. */
  lemma PacingRowsFacts(imps: seq<Impression>, cs: seq<Campaign>)
    ensures forall r :: r in CalculatePacingAnalysis(imps, cs) ==>
              DeliveryFacts(r, imps) && DerivedFacts(r)
    ensures forall r :: r in CalculatePacingAnalysis(imps, cs) ==>
              exists c :: c in cs && c.campaignId == r.campaignId && c.name == r.campaignName
                && r.budgetTotal == c.budgetTotal && r.budgetDaily == c.budgetDaily
                && r.totalDays == c.endDate - c.startDate + 1
  {
    var rows := CalculatePacingAnalysis(imps, cs);
    var ds := Delivering(imps, cs);
    forall r | r in rows
      ensures DeliveryFacts(r, imps) && DerivedFacts(r)
      ensures exists c :: c in cs && c.campaignId == r.campaignId && c.name == r.campaignName
                && r.budgetTotal == c.budgetTotal && r.budgetDaily == c.budgetDaily
                && r.totalDays == c.endDate - c.startDate + 1
    {
      var j :| 0 <= j < |rows| && rows[j] == r;
      assert ds[j] in ds;
      assert r == CampaignPacing(imps, ds[j]);
      DeliveredIffWonOf(imps, r.campaignId);
    }
  }

  /** Budget 10000 over 10 days, 5000 spent on 3 distinct days: 50% of the
      budget against 30% of the time, so the campaign is ahead. */
  lemma AheadScenario(imps: seq<Impression>, c: Campaign)
    requires WonOf(imps, c.campaignId) != []
    requires c.budgetTotal == 10000.0 && c.endDate - c.startDate + 1 == 10
    requires Total(WonOf(imps, c.campaignId), ImpressionSpend) == 5000.0
    requires |KeySet(WonOf(imps, c.campaignId), ImpDate)| == 3
    ensures CampaignPacing(imps, c).budgetSpentPct == 50.0
    ensures CampaignPacing(imps, c).timeElapsedPct == 30.0
    ensures CampaignPacing(imps, c).status == Ahead
  {
  }

  /** A campaign that has delivered on every one of its days is forecast to
      spend exactly what it has spent. */
  lemma ForecastOnceEveryDayDelivered(r: PacingRow)
    requires DerivedFacts(r)
    requires r.daysActive == r.totalDays
    ensures r.forecastedSpend == r.totalSpend
  {
    ZeroProduct(r.forecastedSpend - r.totalSpend, r.daysActive as real);
  }
}
