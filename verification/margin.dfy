/** Buy-side versus sell-side margin: each won impression is sold at its win
    price and bought at a random 70-80% of it; the lines are summed per
    campaign. The random fractions are an input, one per won impression in
    order. */
module MarginAnalysis {
  import opened GroupBy
  import opened Records
  import opened Ratios

  datatype MarginLine = MarginLine(
    campaignId: string,
    buyCost: real,
    sellRevenue: real,
    margin: real,
    marginPct: real)

  function LineCampaign(l: MarginLine): string { l.campaignId }
  function LineBuy(l: MarginLine): real { l.buyCost }
  function LineSell(l: MarginLine): real { l.sellRevenue }
  function LineMargin(l: MarginLine): real { l.margin }
  function LinePct(l: MarginLine): real { l.marginPct }

  /** What every margin line satisfies for a positive win price. */
  predicate LineFacts(l: MarginLine)
  {
    && l.buyCost <= l.sellRevenue
    && l.margin == l.sellRevenue - l.buyCost
    && l.margin >= 0.0
    && 20.0 < l.marginPct <= 30.0
  }

  /** Keeping the share `1 - f` of a positive price is a margin of
      `(1 - f) * 100` percent. */
  lemma KeptShare(sell: real, f: real, margin: real, pct: real)
    requires sell > 0.0
    requires margin == sell - sell * f
    requires pct * sell == margin * 100.0
    ensures pct == (1.0 - f) * 100.0
  {
    assert (pct - (1.0 - f) * 100.0) * sell == 0.0;
    ZeroProduct(pct - (1.0 - f) * 100.0, sell);
  }

  /** One won impression priced at buy fraction `f`. */
  function Line(i: Impression, f: real): (l: MarginLine)
    requires i.winPrice > 0.0 && ValidShare(f)
    ensures l.campaignId == i.campaignId && l.sellRevenue == i.winPrice
    ensures l.buyCost == i.winPrice * f
    ensures l.marginPct == (1.0 - f) * 100.0
    ensures LineFacts(l)
  {
    var sell := i.winPrice;
    var buy := sell * f;
    var margin := sell - buy;
    var pct := Percent(margin, sell);
    KeptShare(sell, f, margin, pct);
    MarginLine(i.campaignId, buy, sell, margin, pct)
  }

  function MarginLines(won: seq<Impression>, fractions: seq<real>): (lines: seq<MarginLine>)
    requires |fractions| == |won|
    requires forall j :: 0 <= j < |fractions| ==> ValidShare(fractions[j])
    requires forall i :: i in won ==> i.winPrice > 0.0
    ensures |lines| == |won|
    ensures forall j :: 0 <= j < |won| ==>
              && lines[j].campaignId == won[j].campaignId && lines[j].sellRevenue == won[j].winPrice
              && lines[j].buyCost == won[j].winPrice * fractions[j]
              && lines[j].marginPct == (1.0 - fractions[j]) * 100.0
    ensures forall l :: l in lines ==> LineFacts(l)
  {
    seq(|won|, j requires 0 <= j < |won| => Line(won[j], fractions[j]))
  }

  datatype MarginRow = MarginRow(
    campaignId: string,
    totalBuyCost: real,
    totalSellRevenue: real,
    totalMargin: real,
    avgMarginPct: real,
    impressions: nat,
    marginPerImpression: real,
    campaign: Option<Campaign>)

  /** What a campaign's margin row promises. */
  predicate RowFacts(r: MarginRow)
  {
    && r.impressions >= 1
    && r.totalMargin == r.totalSellRevenue - r.totalBuyCost
    && r.totalBuyCost <= r.totalSellRevenue
    && r.totalMargin >= 0.0
    && 20.0 < r.avgMarginPct <= 30.0
    && r.marginPerImpression * (r.impressions as real) == r.totalMargin
  }

  /** The mean of `n` values lying in (lo, hi] lies in (lo, hi]. */
  lemma MeanWithin(total: real, n: nat, lo: real, hi: real)
    requires n >= 1
    requires lo * (n as real) < total <= hi * (n as real)
    ensures lo < total / (n as real) <= hi
  {
    var m := total / (n as real);
    assert total == m * (n as real);
  }

  function DeriveRow(campaignId: string, buy: real, sell: real, margin: real, pctSum: real,
                     n: nat, campaign: Option<Campaign>): (r: MarginRow)
    requires n >= 1
    requires margin == sell - buy && buy <= sell
    requires 20.0 * (n as real) < pctSum <= 30.0 * (n as real)
    ensures r.campaignId == campaignId && r.totalBuyCost == buy && r.totalSellRevenue == sell
    ensures r.impressions == n && r.campaign == campaign
    ensures r.totalMargin == margin && r.avgMarginPct == pctSum / (r.impressions as real)
    ensures RowFacts(r)
  {
    MeanWithin(pctSum, n, 20.0, 30.0);
    MarginRow(campaignId, buy, sell, margin, pctSum / (n as real), n,
              Quotient(margin, n as real), campaign)
  }

  /** The margin row of one campaign, from the margin lines of its won
      impressions. */
  function CampaignMargin(lines: seq<MarginLine>, campaigns: seq<Campaign>, campaignId: string)
    : (r: MarginRow)
    requires forall l :: l in lines ==> LineFacts(l)
    requires Members(lines, LineCampaign, campaignId) != []
    ensures r.campaignId == campaignId
    ensures r.impressions == |Members(lines, LineCampaign, campaignId)|
    ensures r.totalSellRevenue == GroupTotal(lines, LineCampaign, LineSell, campaignId)
    ensures LineTotals(r, lines)
    ensures r.campaign == FindCampaign(campaigns, campaignId)
    ensures RowFacts(r)
  {
    var group := Members(lines, LineCampaign, campaignId);
    GroupSums(group);
    var r := DeriveRow(campaignId, Total(group, LineBuy), Total(group, LineSell), Total(group, LineMargin),
                       Total(group, LinePct), |group|, FindCampaign(campaigns, campaignId));
    r
  }

  /** A row's buy cost and margin are the sums over its campaign's lines, and
      its mean margin percentage is the mean over those lines. */
  predicate LineTotals(r: MarginRow, lines: seq<MarginLine>)
  {
    && r.impressions >= 1
    && r.totalBuyCost == GroupTotal(lines, LineCampaign, LineBuy, r.campaignId)
    && r.totalMargin == GroupTotal(lines, LineCampaign, LineMargin, r.campaignId)
    && r.avgMarginPct == GroupTotal(lines, LineCampaign, LinePct, r.campaignId) / (r.impressions as real)
  }

  /** Summing lines keeps the line facts: the margin is sell minus buy, buy
      stays within sell, and the percentages sum to between 20 and 30 per line. */
  lemma GroupSums(group: seq<MarginLine>)
    requires forall l :: l in group ==> LineFacts(l)
    ensures Total(group, LineMargin) == Total(group, LineSell) - Total(group, LineBuy)
    ensures Total(group, LineBuy) <= Total(group, LineSell)
    ensures |group| > 0 ==> 20.0 * (|group| as real) < Total(group, LinePct)
    ensures Total(group, LinePct) <= 30.0 * (|group| as real)
  {
    TotalDifference(group, LineSell, LineBuy, LineMargin);
    TotalMono(group, LineBuy, LineSell);
    TotalWithin(group, LinePct, 20.0, 30.0);
  }

  predicate HasRow(rows: seq<MarginRow>, campaignId: string)
  {
    exists r :: r in rows && r.campaignId == campaignId
  }

  /** What a campaign's margin row promises about that campaign's won
      impressions. */
  predicate CampaignFacts(r: MarginRow, imps: seq<Impression>, campaigns: seq<Campaign>)
  {
    && r.impressions == |WonOf(imps, r.campaignId)|
    && r.totalSellRevenue == Total(WonOf(imps, r.campaignId), WinPrice)
    && r.campaign == FindCampaign(campaigns, r.campaignId)
  }

  /** `calculate_margin_analysis`: one row per campaign with a won impression;
      its impression count and sell revenue are those of the campaign's won
      impressions, its buy cost, margin and mean margin percentage come from
      that campaign's margin lines, and its margin figures satisfy `RowFacts`. */
  function CalculateMarginAnalysis(imps: seq<Impression>, campaigns: seq<Campaign>, fractions: seq<real>)
    : (rows: seq<MarginRow>)
    requires |fractions| == |WonImpressions(imps)|
    requires forall j :: 0 <= j < |fractions| ==> ValidShare(fractions[j])
    requires forall i :: i in imps && i.outcome.Won? ==> i.winPrice > 0.0
    ensures forall id :: HasRow(rows, id) <==> Delivered(imps, id)
    ensures forall j, k :: 0 <= j < k < |rows| ==> rows[j].campaignId != rows[k].campaignId
    ensures forall r :: r in rows ==> RowFacts(r) && CampaignFacts(r, imps, campaigns)
    ensures forall r :: r in rows ==> LineTotals(r, MarginLines(WonImpressions(imps), fractions))
  {
    var lines := MarginLines(WonImpressions(imps), fractions);
    var ids := GroupKeys(lines, LineCampaign);
    var rows := MarginRows(lines, campaigns, ids);
    MarginRowsCover(imps, campaigns, fractions, rows);
    MarginRowsFacts(imps, campaigns, fractions, ids);
    rows
  }

  /** The rows of the campaigns `ids`, in that order. */
  function MarginRows(lines: seq<MarginLine>, campaigns: seq<Campaign>, ids: seq<string>)
    : (rows: seq<MarginRow>)
    requires forall l :: l in lines ==> LineFacts(l)
    requires forall id :: id in ids ==> Members(lines, LineCampaign, id) != []
    ensures |rows| == |ids|
    ensures forall j :: 0 <= j < |ids| ==> rows[j].campaignId == ids[j]
  {
    seq(|ids|, j requires 0 <= j < |ids| => CampaignMargin(lines, campaigns, ids[j]))
  }

  /** Rows laid out along the campaign index of the margin lines cover
      exactly the delivering campaigns, each once. */
  lemma MarginRowsCover(imps: seq<Impression>, campaigns: seq<Campaign>, fractions: seq<real>,
                        rows: seq<MarginRow>)
    requires |fractions| == |WonImpressions(imps)|
    requires forall j :: 0 <= j < |fractions| ==> ValidShare(fractions[j])
    requires forall i :: i in imps && i.outcome.Won? ==> i.winPrice > 0.0
    requires |rows| == |GroupKeys(MarginLines(WonImpressions(imps), fractions), LineCampaign)|
    requires forall j :: 0 <= j < |rows| ==>
               rows[j].campaignId == GroupKeys(MarginLines(WonImpressions(imps), fractions), LineCampaign)[j]
    ensures forall id :: HasRow(rows, id) <==> Delivered(imps, id)
    ensures forall j, k :: 0 <= j < k < |rows| ==> rows[j].campaignId != rows[k].campaignId
  {
    var lines := MarginLines(WonImpressions(imps), fractions);
    var ids := GroupKeys(lines, LineCampaign);
    LinesFollowImpressions(imps, fractions);
    forall id ensures HasRow(rows, id) <==> Delivered(imps, id) {
      DeliveredIffWonOf(imps, id);
      if id in ids {
        var j :| 0 <= j < |ids| && ids[j] == id;
        assert rows[j] in rows;
      }
      if HasRow(rows, id) {
        var r :| r in rows && r.campaignId == id;
        var j :| 0 <= j < |rows| && rows[j] == r;
        assert ids[j] in ids;
      }
    }
  }

  /** Every margin row carries the margin facts, the facts of its campaign's
      won impressions, and the sums of its campaign's margin lines. */
  lemma MarginRowsFacts(imps: seq<Impression>, campaigns: seq<Campaign>, fractions: seq<real>, ids: seq<string>)
    requires |fractions| == |WonImpressions(imps)|
    requires forall j :: 0 <= j < |fractions| ==> ValidShare(fractions[j])
    requires forall i :: i in imps && i.outcome.Won? ==> i.winPrice > 0.0
    requires forall id :: id in ids ==> Members(MarginLines(WonImpressions(imps), fractions), LineCampaign, id) != []
    ensures forall r :: r in MarginRows(MarginLines(WonImpressions(imps), fractions), campaigns, ids) ==>
              RowFacts(r) && CampaignFacts(r, imps, campaigns)
    ensures forall r :: r in MarginRows(MarginLines(WonImpressions(imps), fractions), campaigns, ids) ==>
              LineTotals(r, MarginLines(WonImpressions(imps), fractions))
  {
    var lines := MarginLines(WonImpressions(imps), fractions);
    var rows := MarginRows(lines, campaigns, ids);
    LinesFollowImpressions(imps, fractions);
    forall r | r in rows ensures RowFacts(r) && CampaignFacts(r, imps, campaigns) && LineTotals(r, lines) {
      var j :| 0 <= j < |rows| && rows[j] == r;
      assert ids[j] in ids;
      assert r == CampaignMargin(lines, campaigns, ids[j]);
    }
  }

  /** Grouping the margin lines by campaign sees the same impressions and the
      same sell revenue as grouping the won impressions. */
  lemma LinesFollowImpressions(imps: seq<Impression>, fractions: seq<real>)
    requires |fractions| == |WonImpressions(imps)|
    requires forall j :: 0 <= j < |fractions| ==> ValidShare(fractions[j])
    requires forall i :: i in imps && i.outcome.Won? ==> i.winPrice > 0.0
    ensures forall id ::
              && |Members(MarginLines(WonImpressions(imps), fractions), LineCampaign, id)| == |WonOf(imps, id)|
              && GroupTotal(MarginLines(WonImpressions(imps), fractions), LineCampaign, LineSell, id)
                 == Total(WonOf(imps, id), WinPrice)
  {
    var won := WonImpressions(imps);
    var lines := MarginLines(won, fractions);
    forall id ensures |Members(lines, LineCampaign, id)| == |WonOf(imps, id)|
                   && GroupTotal(lines, LineCampaign, LineSell, id) == Total(WonOf(imps, id), WinPrice)
    {
      GroupTransfer(won, ImpCampaign, WinPrice, lines, LineCampaign, LineSell, id);
    }
  }

  /** Summed over all campaigns, the margin rows add up to the margin of all
      won impressions: the per-campaign grouping partitions the margin lines. */
  lemma MarginPartition(won: seq<Impression>, fractions: seq<real>)
    requires |fractions| == |won|
    requires forall j :: 0 <= j < |fractions| ==> ValidShare(fractions[j])
    requires forall i :: i in won ==> i.winPrice > 0.0
    ensures SumGroups(MarginLines(won, fractions), LineCampaign, LineMargin,
                      GroupKeys(MarginLines(won, fractions), LineCampaign))
         == Total(MarginLines(won, fractions), LineSell) - Total(MarginLines(won, fractions), LineBuy)
  {
    var lines := MarginLines(won, fractions);
    Partition(lines, LineCampaign, LineMargin);
    TotalDifference(lines, LineSell, LineBuy, LineMargin);
  }
}
