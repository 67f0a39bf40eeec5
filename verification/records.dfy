/** The record model the metrics engine consumes: advertisers, campaigns,
    impressions, clicks and conversions, each a flat immutable row. Creatives
    are generated too but never read by the engine, so they are not modelled.

    Instants are whole seconds on a common epoch; a calendar date is a day
    number. Money is exact `real`. */
module Records {
  import opened GroupBy

  datatype Option<T> = None | Some(value: T)

  datatype AuctionOutcome = Won | Lost

  datatype Advertiser = Advertiser(advertiserId: string, name: string, industry: string)

  datatype Campaign = Campaign(
    campaignId: string,
    name: string,
    advertiserId: string,
    startDate: int,
    endDate: int,
    budgetTotal: real,
    budgetDaily: real,
    objective: string,
    status: string)

  datatype Impression = Impression(
    timestamp: int,
    campaignId: string,
    publisherId: string,
    deviceType: string,
    geoCountry: string,
    auctionType: string,
    winPrice: real,
    outcome: AuctionOutcome)

  datatype Click = Click(clickId: string, timestamp: int, campaignId: string, cost: real)

  datatype Conversion = Conversion(conversionId: string, timestamp: int, campaignId: string, value: real)

  const SecondsPerDay: int := 86400

  /** The calendar date of an instant (`timestamp.dt.date`): whole days,
      rounded towards the past also before the epoch. */
  function DateOf(timestamp: int): (d: int)
    ensures d * SecondsPerDay <= timestamp < (d + 1) * SecondsPerDay
  {
    timestamp / SecondsPerDay
  }

  // Column accessors, named so that every grouping and sum refers to the
  // same function value.
  function OutcomeOf(i: Impression): AuctionOutcome { i.outcome }
  function ImpCampaign(i: Impression): string { i.campaignId }
  function ImpDate(i: Impression): int { DateOf(i.timestamp) }
  function ImpTimestamp(i: Impression): int { i.timestamp }
  function WinPrice(i: Impression): real { i.winPrice }
  function DeviceOf(i: Impression): string { i.deviceType }
  function AuctionOf(i: Impression): string { i.auctionType }
  function CountryOf(i: Impression): string { i.geoCountry }
  function ClickCampaign(c: Click): string { c.campaignId }
  function ClickDate(c: Click): int { DateOf(c.timestamp) }
  function ClickCost(c: Click): real { c.cost }
  function ConversionCampaign(v: Conversion): string { v.campaignId }
  function ConversionDate(v: Conversion): int { DateOf(v.timestamp) }
  function ConversionValue(v: Conversion): real { v.value }
  function CampaignIdOf(c: Campaign): string { c.campaignId }
  function AdvertiserIdOf(a: Advertiser): string { a.advertiserId }

  /** Per-impression spend: the win price is a CPM, so one impression costs a
      thousandth of it. */
  function ImpressionSpend(i: Impression): (s: real)
    ensures s * 1000.0 == i.winPrice
  {
    i.winPrice / 1000.0
  }

  /** The impressions the exchange won; every aggregation starts here. */
  function WonImpressions(imps: seq<Impression>): (won: seq<Impression>)
    ensures forall i :: i in won <==> i in imps && i.outcome.Won?
  {
    Members(imps, OutcomeOf, AuctionOutcome.Won)
  }

  /** The won impressions of one campaign. */
  function WonOf(imps: seq<Impression>, campaignId: string): seq<Impression>
  {
    Members(WonImpressions(imps), ImpCampaign, campaignId)
  }

  /** A campaign delivered when at least one of its impressions was won. */
  predicate Delivered(imps: seq<Impression>, campaignId: string)
  {
    exists i :: i in imps && i.outcome.Won? && i.campaignId == campaignId
  }

  lemma DeliveredIffWonOf(imps: seq<Impression>, campaignId: string)
    ensures Delivered(imps, campaignId) <==> WonOf(imps, campaignId) != []
  {
    var g := WonOf(imps, campaignId);
    if Delivered(imps, campaignId) {
      var i :| i in imps && i.outcome.Won? && i.campaignId == campaignId;
      assert i in g;
    }
    if g != [] {
      assert g[0] in g;
    }
  }

  /** Total won spend at the per-impression CPM convention. */
  function TotalWonSpend(imps: seq<Impression>): real
  {
    Total(WonImpressions(imps), ImpressionSpend)
  }

  /** A draw of `np.random.uniform(0.7, 0.8)`, the share of a price bought
      in or paid out: the half-open interval [0.7, 0.8). */
  predicate ValidShare(f: real)
  {
    0.7 <= f < 0.8
  }

  predicate UniqueCampaignIds(cs: seq<Campaign>)
  {
    forall j, k :: 0 <= j < k < |cs| ==> cs[j].campaignId != cs[k].campaignId
  }

  predicate UniqueAdvertiserIds(ads: seq<Advertiser>)
  {
    forall j, k :: 0 <= j < k < |ads| ==> ads[j].advertiserId != ads[k].advertiserId
  }

  /** Left-join lookup (`campaigns_df.set_index('campaign_id')`): the first
      campaign with the id, or `None` when there is none. */
  function FindCampaign(cs: seq<Campaign>, campaignId: string): (r: Option<Campaign>)
    ensures r.None? <==> forall c :: c in cs ==> c.campaignId != campaignId
    ensures r.Some? ==> r.value in cs && r.value.campaignId == campaignId
  {
    if |cs| == 0 then None
    else if cs[0].campaignId == campaignId then Some(cs[0])
    else FindCampaign(cs[1..], campaignId)
  }

  /** With unique ids a key matches at most one row, so an inner join on it
      never duplicates a record. */
  lemma {:induction false} UniqueKeyMatchesAtMostOnce<T(!new)>(xs: seq<T>, key: T -> string, k: string)
    requires forall j, l :: 0 <= j < l < |xs| ==> key(xs[j]) != key(xs[l])
    ensures |Members(xs, key, k)| <= 1
    decreases |xs|
  {
    if |xs| > 0 {
      var init, x := xs[..|xs| - 1], xs[|xs| - 1];
      UniqueKeyMatchesAtMostOnce(init, key, k);
      if key(x) == k {
        assert forall y :: y in init ==> key(y) != k;
      }
    }
  }
}
