/** Basic campaign performance metrics: one row per campaign that won at least
    one impression, with spend, eCPM, clicks, CTR, conversions, CPC, CPA,
    ROAS and conversion rate, joined with the campaign's attributes. */
module BasicMetrics {
  import opened GroupBy
  import opened Records
  import opened Ratios

  datatype MetricsRow = MetricsRow(
    campaignId: string,
    totalSpendRaw: real,      // sum of win prices (CPM) of the won impressions
    avgCpm: real,
    impressionsServed: nat,
    firstImpression: int,
    lastImpression: int,
    spend: real,
    ecpm: real,
    clicks: nat,
    clickSpend: real,
    conversions: nat,
    conversionValue: real,
    ctr: real,
    cpc: real,
    cpa: real,
    roas: real,
    conversionRate: real,
    campaign: Option<Campaign>)  // left join: None when the id is not among the campaigns

  /** Batch-level CPM-to-spend conversion: the summed win price of a campaign
      times its impression count, over a thousand. */
  function BatchSpend(winPriceSum: real, served: nat): real
  {
    winPriceSum * (served as real) / 1000.0
  }

  /** eCPM recovers the summed win price from the batch-level spend (and not
      the mean win price), whenever at least one impression was served. */
  lemma EcpmIsWinPriceSum(winPriceSum: real, served: nat)
    requires served >= 1
    ensures BatchSpend(winPriceSum, served) / ((served as real) / 1000.0) == winPriceSum
  {
    var n := served as real;
    assert (winPriceSum * n / 1000.0) == winPriceSum * (n / 1000.0);
  }

  /** What a row promises about the won impressions of its campaign. */
  predicate DeliveryFacts(r: MetricsRow, imps: seq<Impression>)
  {
    var group := WonOf(imps, r.campaignId);
    && r.impressionsServed == |group| >= 1
    && r.totalSpendRaw == Total(group, WinPrice)
    && r.firstImpression == Least(group, ImpTimestamp)
    && r.lastImpression == Greatest(group, ImpTimestamp)
  }

  /** A row's first and last timestamps bracket every won impression of its
      campaign, and each is the timestamp of one of them. */
  lemma DeliveryWindow(r: MetricsRow, imps: seq<Impression>)
    requires DeliveryFacts(r, imps)
    ensures forall i :: i in WonOf(imps, r.campaignId) ==> r.firstImpression <= i.timestamp <= r.lastImpression
    ensures exists i :: i in WonOf(imps, r.campaignId) && i.timestamp == r.firstImpression
    ensures exists i :: i in WonOf(imps, r.campaignId) && i.timestamp == r.lastImpression
  {
    var group := WonOf(imps, r.campaignId);
    var lo := Least(group, ImpTimestamp);
    var hi := Greatest(group, ImpTimestamp);
    assert forall i :: i in group ==> lo <= ImpTimestamp(i) <= hi;
    var a :| a in group && ImpTimestamp(a) == lo;
    var b :| b in group && ImpTimestamp(b) == hi;
  }

  /** What a row promises about the clicks and conversions of its campaign. */
  predicate EngagementFacts(r: MetricsRow, clicks: seq<Click>, conversions: seq<Conversion>)
  {
    && r.clicks == |Members(clicks, ClickCampaign, r.campaignId)|
    && r.clickSpend == GroupTotal(clicks, ClickCampaign, ClickCost, r.campaignId)
    && r.conversions == |Members(conversions, ConversionCampaign, r.campaignId)|
    && r.conversionValue == GroupTotal(conversions, ConversionCampaign, ConversionValue, r.campaignId)
  }

  /** The derived columns of a row: batch-level spend, eCPM equal to the summed
      win price, and the ratios, each zero when its denominator is not positive
      (CTR needs no guard: a row has at least one impression). */
  predicate DerivedFacts(r: MetricsRow)
  {
    && r.impressionsServed >= 1
    && r.avgCpm * (r.impressionsServed as real) == r.totalSpendRaw
    && r.spend == r.totalSpendRaw * (r.impressionsServed as real) / 1000.0
    && r.ecpm == r.totalSpendRaw
    && r.ctr * (r.impressionsServed as real) == (r.clicks as real) * 100.0
    && (r.clicks > 0 ==> r.cpc * (r.clicks as real) == r.spend)
    && (r.clicks == 0 ==> r.cpc == 0.0)
    && (r.conversions > 0 ==> r.cpa * (r.conversions as real) == r.spend)
    && (r.conversions == 0 ==> r.cpa == 0.0)
    && (r.spend > 0.0 ==> r.roas * r.spend == r.conversionValue)
    && (r.spend <= 0.0 ==> r.roas == 0.0)
    && (r.clicks > 0 ==> r.conversionRate * (r.clicks as real) == (r.conversions as real) * 100.0)
    && (r.clicks == 0 ==> r.conversionRate == 0.0)
  }

  /** Everything a row promises about the campaign it describes. */
  predicate RowFacts(r: MetricsRow, imps: seq<Impression>, clicks: seq<Click>,
                     conversions: seq<Conversion>, campaigns: seq<Campaign>)
  {
    && DeliveryFacts(r, imps)
    && EngagementFacts(r, clicks, conversions)
    && DerivedFacts(r)
    && r.campaign == FindCampaign(campaigns, r.campaignId)
  }

  /** A row from its aggregated columns: batch-level spend, eCPM and the
      guarded ratios are derived here. */
  function DeriveRow(campaignId: string, winPriceSum: real, served: nat, first: int, last: int,
                     clicks: nat, clickSpend: real, conversions: nat, conversionValue: real,
                     campaign: Option<Campaign>): (r: MetricsRow)
    requires served >= 1
    ensures r.campaignId == campaignId && r.totalSpendRaw == winPriceSum
    ensures r.impressionsServed == served && r.firstImpression == first && r.lastImpression == last
    ensures r.clicks == clicks && r.clickSpend == clickSpend
    ensures r.conversions == conversions && r.conversionValue == conversionValue
    ensures r.campaign == campaign
    ensures DerivedFacts(r)
  {
    var n := served as real;
    var spend := BatchSpend(winPriceSum, served);
    var ecpm := spend / (n / 1000.0);
    EcpmIsWinPriceSum(winPriceSum, served);
    MetricsRow(
      campaignId, winPriceSum, Quotient(winPriceSum, n), served, first, last,
      spend, ecpm,
      clicks, clickSpend, conversions, conversionValue,
      Percent(clicks as real, n),
      SafeDiv(spend, clicks as real),
      SafeDiv(spend, conversions as real),
      SafeDiv(conversionValue, spend),
      SafePercent(conversions as real, clicks as real),
      campaign)
  }

  /** The metrics row of one campaign, built from its won impressions and
      from all of its clicks and conversions. */
  function CampaignRow(imps: seq<Impression>, clicks: seq<Click>, conversions: seq<Conversion>,
                       campaigns: seq<Campaign>, campaignId: string): (r: MetricsRow)
    requires WonOf(imps, campaignId) != []
    ensures r.campaignId == campaignId
    ensures RowFacts(r, imps, clicks, conversions, campaigns)
  {
    var group := WonOf(imps, campaignId);
    var clickGroup := Members(clicks, ClickCampaign, campaignId);
    var conversionGroup := Members(conversions, ConversionCampaign, campaignId);
    DeriveRow(
      campaignId, Total(group, WinPrice), |group|,
      Least(group, ImpTimestamp), Greatest(group, ImpTimestamp),
      |clickGroup|, Total(clickGroup, ClickCost),
      |conversionGroup|, Total(conversionGroup, ConversionValue),
      FindCampaign(campaigns, campaignId))
  }

  predicate HasRow(rows: seq<MetricsRow>, campaignId: string)
  {
    exists r :: r in rows && r.campaignId == campaignId
  }

  /** `calculate_basic_metrics`: exactly one row per campaign with a won
      impression, each carrying the facts of `RowFacts`. Clicks and
      conversions of campaigns without a won impression are dropped. */
  function CalculateBasicMetrics(imps: seq<Impression>, clicks: seq<Click>,
                                 conversions: seq<Conversion>, campaigns: seq<Campaign>)
    : (rows: seq<MetricsRow>)
    ensures forall id :: HasRow(rows, id) <==> Delivered(imps, id)
    ensures forall j, k :: 0 <= j < k < |rows| ==> rows[j].campaignId != rows[k].campaignId
    ensures forall r :: r in rows ==> RowFacts(r, imps, clicks, conversions, campaigns)
  {
    var ids := GroupKeys(WonImpressions(imps), ImpCampaign);
    var rows := CampaignRows(imps, clicks, conversions, campaigns, ids);
    RowsMatchDelivery(imps, rows);
    RowsHaveFacts(imps, clicks, conversions, campaigns, ids);
    rows
  }

  /** The rows of the campaigns `ids`, in that order. */
  function CampaignRows(imps: seq<Impression>, clicks: seq<Click>, conversions: seq<Conversion>,
                        campaigns: seq<Campaign>, ids: seq<string>): (rows: seq<MetricsRow>)
    requires forall id :: id in ids ==> WonOf(imps, id) != []
    ensures |rows| == |ids|
    ensures forall j :: 0 <= j < |ids| ==> rows[j].campaignId == ids[j]
  {
    seq(|ids|, j requires 0 <= j < |ids| => CampaignRow(imps, clicks, conversions, campaigns, ids[j]))
  }

  /** Every row of `CampaignRows` is the row of its campaign, and so carries
      that campaign's facts. */
  lemma RowsHaveFacts(imps: seq<Impression>, clicks: seq<Click>, conversions: seq<Conversion>,
                      campaigns: seq<Campaign>, ids: seq<string>)
    requires forall id :: id in ids ==> WonOf(imps, id) != []
    ensures forall r :: r in CampaignRows(imps, clicks, conversions, campaigns, ids) ==>
              RowFacts(r, imps, clicks, conversions, campaigns)
  {
    var rows := CampaignRows(imps, clicks, conversions, campaigns, ids);
    forall r | r in rows ensures RowFacts(r, imps, clicks, conversions, campaigns) {
      var j :| 0 <= j < |rows| && rows[j] == r;
      assert ids[j] in ids;
      assert r == CampaignRow(imps, clicks, conversions, campaigns, ids[j]);
    }
  }

  lemma RowsMatchDelivery(imps: seq<Impression>, rows: seq<MetricsRow>)
    requires |rows| == |GroupKeys(WonImpressions(imps), ImpCampaign)|
    requires forall j :: 0 <= j < |rows| ==> rows[j].campaignId == GroupKeys(WonImpressions(imps), ImpCampaign)[j]
    ensures forall id :: HasRow(rows, id) <==> Delivered(imps, id)
    ensures forall j, k :: 0 <= j < k < |rows| ==> rows[j].campaignId != rows[k].campaignId
  {
    var ids := GroupKeys(WonImpressions(imps), ImpCampaign);
    forall id ensures HasRow(rows, id) <==> Delivered(imps, id) {
      DeliveredIffWonOf(imps, id);
      if id in ids {
        var j :| 0 <= j < |ids| && ids[j] == id;
        assert rows[j] in rows;
      }
      if HasRow(rows, id) {
        var r :| r in rows && r.campaignId == id;
        var j :| 0 <= j < |rows| && rows[j] == r;
        assert ids[j] in ids;
      }
    }
  }

  /** A campaign that has clicks or conversions but no won impression gets
      no row at all. */
  lemma UndeliveredCampaignVanishes(imps: seq<Impression>, clicks: seq<Click>,
                                    conversions: seq<Conversion>, campaigns: seq<Campaign>, id: string)
    requires forall i :: i in imps && i.outcome.Won? ==> i.campaignId != id
    ensures forall r :: r in CalculateBasicMetrics(imps, clicks, conversions, campaigns) ==> r.campaignId != id
  {
    var rows := CalculateBasicMetrics(imps, clicks, conversions, campaigns);
    assert !Delivered(imps, id);
    assert !HasRow(rows, id);
  }

  /** A delivering campaign without clicks or conversions reports zeros for
      every click- and conversion-based metric. */
  lemma NoEngagementGivesZeros(r: MetricsRow, imps: seq<Impression>, clicks: seq<Click>,
                               conversions: seq<Conversion>, campaigns: seq<Campaign>)
    requires RowFacts(r, imps, clicks, conversions, campaigns)
    requires forall c :: c in clicks ==> c.campaignId != r.campaignId
    requires forall v :: v in conversions ==> v.campaignId != r.campaignId
    ensures r.clicks == 0 && r.ctr == 0.0 && r.cpc == 0.0 && r.conversionRate == 0.0
    ensures r.conversions == 0 && r.cpa == 0.0 && r.roas == 0.0
  {
    assert Members(clicks, ClickCampaign, r.campaignId) == [];
    assert Members(conversions, ConversionCampaign, r.campaignId) == [];
    ZeroEngagement(r);
  }

  lemma ZeroEngagement(r: MetricsRow)
    requires DerivedFacts(r)
    requires r.clicks == 0 && r.conversions == 0 && r.conversionValue == 0.0
    ensures r.ctr == 0.0 && r.cpc == 0.0 && r.conversionRate == 0.0
    ensures r.cpa == 0.0 && r.roas == 0.0
  {
    ZeroProduct(r.ctr, r.impressionsServed as real);
    if r.spend > 0.0 {
      ZeroProduct(r.roas, r.spend);
    }
  }

  /** Converting each win price to spend and summing is converting the sum. */
  lemma {:induction false} SpendIsScaledWinPrice(xs: seq<Impression>)
    ensures Total(xs, ImpressionSpend) * 1000.0 == Total(xs, WinPrice)
  {
    if |xs| > 0 {
      SpendIsScaledWinPrice(xs[..|xs| - 1]);
    }
  }

  /** As written, a row's spend is its impression count times the spend of its
      won impressions (one thousandth of each win price), and its eCPM is the
      impression count times the mean win price: both grow with the square of
      delivery. Every row qualifies: `RowFacts` gives its raw total as the win
      price sum of `WonOf(imps, r.campaignId)`. */
  lemma BatchSpendOvercounts(r: MetricsRow, group: seq<Impression>)
    requires DerivedFacts(r)
    requires r.totalSpendRaw == Total(group, WinPrice)
    ensures r.spend == (r.impressionsServed as real) * Total(group, ImpressionSpend)
    ensures r.ecpm == (r.impressionsServed as real) * r.avgCpm
  {
    SpendIsScaledWinPrice(group);
    Overcount(r, Total(group, ImpressionSpend));
  }

  lemma Overcount(r: MetricsRow, spendSum: real)
    requires DerivedFacts(r)
    requires spendSum * 1000.0 == r.totalSpendRaw
    ensures r.spend == (r.impressionsServed as real) * spendSum
    ensures r.ecpm == (r.impressionsServed as real) * r.avgCpm
  {
  }

  /** Two won impressions at a win price of 1000: the campaign spent 2.0
      (1.0 each), but the row reports 4.0 and an eCPM of 2000. */
  lemma BatchSpendExample()
    ensures BatchSpend(2000.0, 2) == 4.0
    ensures BatchSpend(2000.0, 2) / (2.0 / 1000.0) == 2000.0
    ensures PerImpressionSpend(2000.0) == 2.0
  {
  }

  /** The evidently intended spend of a campaign: each won impression costs
      its win price over a thousand, as in every other table. */
  function PerImpressionSpend(winPriceSum: real): real
  {
    winPriceSum / 1000.0
  }

  /** The evidently intended eCPM: spend per thousand impressions. */
  function IntendedEcpm(r: MetricsRow): (e: real)
    requires r.impressionsServed >= 1
    ensures e * (r.impressionsServed as real) == PerImpressionSpend(r.totalSpendRaw) * 1000.0
  {
    Quotient(PerImpressionSpend(r.totalSpendRaw), (r.impressionsServed as real) / 1000.0)
  }

  function IntendedSpend(r: MetricsRow): real
  {
    PerImpressionSpend(r.totalSpendRaw)
  }

  /** With the intended spend a row's spend is that of its won impressions,
      its eCPM is the mean win price, and the rows add up to the total won
      spend that the revenue, pacing and time-series tables report. */
  lemma IntendedSpendAgrees(imps: seq<Impression>, clicks: seq<Click>,
                            conversions: seq<Conversion>, campaigns: seq<Campaign>)
    ensures forall r :: r in CalculateBasicMetrics(imps, clicks, conversions, campaigns) ==>
              IntendedSpend(r) == Total(WonOf(imps, r.campaignId), ImpressionSpend)
              && IntendedEcpm(r) == r.avgCpm
    ensures Total(CalculateBasicMetrics(imps, clicks, conversions, campaigns), IntendedSpend) == TotalWonSpend(imps)
  {
    var rows := CalculateBasicMetrics(imps, clicks, conversions, campaigns);
    var won := WonImpressions(imps);
    var ids := GroupKeys(won, ImpCampaign);
    RowsFollowIndex(imps, clicks, conversions, campaigns);
    forall r | r in rows
      ensures IntendedSpend(r) == Total(WonOf(imps, r.campaignId), ImpressionSpend)
      ensures IntendedEcpm(r) == r.avgCpm
    {
      RowIntended(r, imps, clicks, conversions, campaigns);
    }
    forall j | 0 <= j < |ids| ensures IntendedSpend(rows[j]) == GroupTotal(won, ImpCampaign, ImpressionSpend, ids[j]) {
      assert rows[j] in rows;
    }
    TotalOfGroupRows(won, ImpCampaign, ImpressionSpend, ids, rows, IntendedSpend);
    Partition(won, ImpCampaign, ImpressionSpend);
  }

  /** The rows are listed in the order of the group index. */
  lemma RowsFollowIndex(imps: seq<Impression>, clicks: seq<Click>,
                        conversions: seq<Conversion>, campaigns: seq<Campaign>)
    ensures |CalculateBasicMetrics(imps, clicks, conversions, campaigns)| == |GroupKeys(WonImpressions(imps), ImpCampaign)|
    ensures forall j :: 0 <= j < |GroupKeys(WonImpressions(imps), ImpCampaign)| ==>
              CalculateBasicMetrics(imps, clicks, conversions, campaigns)[j].campaignId
              == GroupKeys(WonImpressions(imps), ImpCampaign)[j]
  {
  }

  lemma RowIntended(r: MetricsRow, imps: seq<Impression>, clicks: seq<Click>,
                    conversions: seq<Conversion>, campaigns: seq<Campaign>)
    requires RowFacts(r, imps, clicks, conversions, campaigns)
    ensures IntendedSpend(r) == Total(WonOf(imps, r.campaignId), ImpressionSpend)
    ensures IntendedEcpm(r) == r.avgCpm
  {
    var group := WonOf(imps, r.campaignId);
    SpendIsScaledWinPrice(group);
    IntendedFromDerived(r);
  }

  lemma IntendedFromDerived(r: MetricsRow)
    requires DerivedFacts(r)
    ensures IntendedSpend(r) * 1000.0 == r.totalSpendRaw
    ensures IntendedEcpm(r) == r.avgCpm
  {
    MeanFromEcpm(IntendedEcpm(r), r.avgCpm, r.impressionsServed, r.totalSpendRaw);
  }

  lemma MeanFromEcpm(e: real, mean: real, served: nat, winPriceSum: real)
    requires served >= 1
    requires e * (served as real) == winPriceSum / 1000.0 * 1000.0
    requires mean * (served as real) == winPriceSum
    ensures e == mean
  {
    ZeroProduct(e - mean, served as real);
  }
}
