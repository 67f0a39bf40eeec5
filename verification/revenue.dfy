/** Revenue by channel: won spend (per-impression CPM convention) grouped
    independently by device, auction type, country and advertiser industry,
    the four tables concatenated in that order and tagged with their
    dimension. */
module RevenueByChannel {
  import opened GroupBy
  import opened Records

  datatype ChannelType = Device | Auction | Geo | Industry

  datatype RevenueRow = RevenueRow(channel: string, revenue: real, channelType: ChannelType)

  function RowRevenue(r: RevenueRow): real { r.revenue }
  function RowType(r: RevenueRow): ChannelType { r.channelType }

  /** One row per distinct key with that key's summed value, tagged `tag`. */
  function GroupRows<T(!new)>(xs: seq<T>, key: T -> string, val: T -> real, tag: ChannelType)
    : seq<RevenueRow>
  {
    var ks := GroupKeys(xs, key);
    seq(|ks|, j requires 0 <= j < |ks| => RevenueRow(ks[j], GroupTotal(xs, key, val, ks[j]), tag))
  }

  lemma GroupRowsChannels<T(!new)>(xs: seq<T>, key: T -> string, val: T -> real, tag: ChannelType)
    ensures forall ch :: (exists r :: r in GroupRows(xs, key, val, tag) && r.channel == ch)
                         <==> Members(xs, key, ch) != []
    ensures forall j, k :: 0 <= j < k < |GroupRows(xs, key, val, tag)| ==>
              GroupRows(xs, key, val, tag)[j].channel != GroupRows(xs, key, val, tag)[k].channel
  {
    var ks := GroupKeys(xs, key);
    var rows := GroupRows(xs, key, val, tag);
    forall ch ensures (exists r :: r in rows && r.channel == ch) <==> ch in ks {
      if ch in ks {
        var j :| 0 <= j < |ks| && ks[j] == ch;
        assert rows[j] in rows;
      }
    }
  }

  lemma GroupRowsTotal<T(!new)>(xs: seq<T>, key: T -> string, val: T -> real, tag: ChannelType)
    ensures Total(GroupRows(xs, key, val, tag), RowRevenue) == Total(xs, val)
  {
    var ks := GroupKeys(xs, key);
    TotalOfGroupRows(xs, key, val, ks, GroupRows(xs, key, val, tag), RowRevenue);
    Partition(xs, key, val);
  }

  /** One dimension's table: one row per distinct key with that key's summed
      value, all tagged `tag`; the table's revenue adds up to the total. */
  function ChannelTable<T(!new)>(xs: seq<T>, key: T -> string, val: T -> real, tag: ChannelType)
    : (rows: seq<RevenueRow>)
    ensures Tagged(rows, tag)
    ensures forall r :: r in rows ==> r.revenue == GroupTotal(xs, key, val, r.channel)
    ensures forall ch :: (exists r :: r in rows && r.channel == ch) <==> Members(xs, key, ch) != []
    ensures DistinctChannels(rows)
    ensures Total(rows, RowRevenue) == Total(xs, val)
  {
    GroupRowsChannels(xs, key, val, tag);
    GroupRowsTotal(xs, key, val, tag);
    GroupRows(xs, key, val, tag)
  }

  /** A won impression joined to an advertiser industry. */
  datatype IndustrySpend = IndustrySpend(industry: string, spend: real)

  function IndustryOf(x: IndustrySpend): string { x.industry }
  function JoinedSpend(x: IndustrySpend): real { x.spend }

  /** The industries an impression joins to through the two inner merges
      (impression to campaign on campaign id, campaign to advertiser on
      advertiser id): one entry per matching (campaign, advertiser) pair. */
  function JoinIndustries(cs: seq<Campaign>, ads: seq<Advertiser>): (r: seq<string>)
    decreases |cs|
  {
    if |cs| == 0 then []
    else
      var matches := Members(ads, AdvertiserIdOf, cs[|cs| - 1].advertiserId);
      JoinIndustries(cs[..|cs| - 1], ads) + seq(|matches|, j requires 0 <= j < |matches| => matches[j].industry)
  }

  function ImpressionIndustries(i: Impression, cs: seq<Campaign>, ads: seq<Advertiser>): seq<string>
  {
    JoinIndustries(Members(cs, CampaignIdOf, i.campaignId), ads)
  }

  /** `won.merge(campaigns).merge(advertisers)` projected to (industry, spend). */
  function IndustryJoin(won: seq<Impression>, cs: seq<Campaign>, ads: seq<Advertiser>): seq<IndustrySpend>
  {
    if |won| == 0 then []
    else
      var i := won[|won| - 1];
      var inds := ImpressionIndustries(i, cs, ads);
      IndustryJoin(won[..|won| - 1], cs, ads)
        + seq(|inds|, j requires 0 <= j < |inds| => IndustrySpend(inds[j], ImpressionSpend(i)))
  }

  predicate Tagged(rows: seq<RevenueRow>, tag: ChannelType)
  {
    forall r :: r in rows ==> r.channelType == tag
  }

  predicate DistinctChannels(rows: seq<RevenueRow>)
  {
    forall j, k :: 0 <= j < k < |rows| ==> rows[j].channel != rows[k].channel
  }

  /** The four per-dimension tables, in output order. */
  function ChannelTables(imps: seq<Impression>, cs: seq<Campaign>, ads: seq<Advertiser>)
    : (parts: seq<seq<RevenueRow>>)
    ensures |parts| == 4
    ensures forall i, r :: 0 <= i < |parts| && r in parts[i] ==> TypeRank(r.channelType) == i
    ensures forall i :: 0 <= i < |parts| ==> DistinctChannels(parts[i])
    ensures parts[0] == ChannelTable(WonImpressions(imps), DeviceOf, ImpressionSpend, Device)
    ensures parts[1] == ChannelTable(WonImpressions(imps), AuctionOf, ImpressionSpend, Auction)
    ensures parts[2] == ChannelTable(WonImpressions(imps), CountryOf, ImpressionSpend, Geo)
    ensures parts[3] == ChannelTable(IndustryJoin(WonImpressions(imps), cs, ads), IndustryOf, JoinedSpend, Industry)
  {
    var won := WonImpressions(imps);
    var device := ChannelTable(won, DeviceOf, ImpressionSpend, Device);
    var auction := ChannelTable(won, AuctionOf, ImpressionSpend, Auction);
    var geo := ChannelTable(won, CountryOf, ImpressionSpend, Geo);
    var industry := ChannelTable(IndustryJoin(won, cs, ads), IndustryOf, JoinedSpend, Industry);
    TablesInOrder(device, auction, geo, industry);
    [device, auction, geo, industry]
  }

  lemma TablesInOrder(device: seq<RevenueRow>, auction: seq<RevenueRow>, geo: seq<RevenueRow>,
                      industry: seq<RevenueRow>)
    requires Tagged(device, Device) && Tagged(auction, Auction) && Tagged(geo, Geo) && Tagged(industry, Industry)
    ensures forall i, r :: 0 <= i < 4 && r in [device, auction, geo, industry][i] ==>
              TypeRank(r.channelType) == i
  {
    var parts := [device, auction, geo, industry];
    forall i, r: RevenueRow | 0 <= i < 4 && r in parts[i] ensures TypeRank(r.channelType) == i {
      if i == 0 { assert r in device; }
      else if i == 1 { assert r in auction; }
      else if i == 2 { assert r in geo; }
      else { assert r in industry; }
    }
  }

  /** Position of a dimension in the concatenated table. */
  function TypeRank(t: ChannelType): nat
  {
    match t
    case Device => 0
    case Auction => 1
    case Geo => 2
    case Industry => 3
  }

  /** `calculate_revenue_by_channel`: the device rows, then the auction rows,
      then the geo rows, then the industry rows; within a dimension no channel
      is listed twice. */
  function CalculateRevenueByChannel(imps: seq<Impression>, cs: seq<Campaign>, ads: seq<Advertiser>)
    : (rows: seq<RevenueRow>)
    ensures forall j, k :: 0 <= j < k < |rows| ==> TypeRank(rows[j].channelType) <= TypeRank(rows[k].channelType)
    ensures forall j, k :: 0 <= j < k < |rows| && rows[j].channelType == rows[k].channelType ==>
              rows[j].channel != rows[k].channel
  {
    var parts := ChannelTables(imps, cs, ads);
    FlattenOrdered(parts);
    Flatten(parts)
  }

  /** Concatenating tables whose `i`-th one holds only rows of rank `i` lists
      the rows by rank, and keeps each table's channels distinct. */
  lemma {:induction false} FlattenOrdered(parts: seq<seq<RevenueRow>>)
    requires forall i, r :: 0 <= i < |parts| && r in parts[i] ==> TypeRank(r.channelType) == i
    requires forall i :: 0 <= i < |parts| ==> DistinctChannels(parts[i])
    ensures forall r :: r in Flatten(parts) ==> TypeRank(r.channelType) < |parts|
    ensures forall j, k :: 0 <= j < k < |Flatten(parts)| ==>
              TypeRank(Flatten(parts)[j].channelType) <= TypeRank(Flatten(parts)[k].channelType)
    ensures forall j, k :: 0 <= j < k < |Flatten(parts)| && Flatten(parts)[j].channelType == Flatten(parts)[k].channelType ==>
              Flatten(parts)[j].channel != Flatten(parts)[k].channel
    decreases |parts|
  {
    if |parts| > 0 {
      var n := |parts| - 1;
      var head, last := Flatten(parts[..n]), parts[n];
      FlattenOrdered(parts[..n]);
      var all := head + last;
      assert Flatten(parts) == all;
      forall j, k | 0 <= j < k < |all|
        ensures TypeRank(all[j].channelType) <= TypeRank(all[k].channelType)
        ensures all[j].channelType == all[k].channelType ==> all[j].channel != all[k].channel
      {
        if k >= |head| {
          assert all[k] == last[k - |head|] && all[k] in last;
          if j >= |head| {
            assert all[j] == last[j - |head|];
            assert DistinctChannels(parts[n]);
          } else {
            assert all[j] == head[j] && all[j] in head;
          }
        } else {
          assert all[j] == head[j] && all[k] == head[k];
        }
      }
    }
  }

  /** Sum of the revenue column over the rows of one dimension. */
  function ChannelRevenue(rows: seq<RevenueRow>, tag: ChannelType): real
  {
    Total(Members(rows, RowType, tag), RowRevenue)
  }

  /** The rows of one dimension, picked out of a concatenation in which
      only the `i`-th part carries that dimension. */
  lemma PickTable(parts: seq<seq<RevenueRow>>, i: nat, tag: ChannelType)
    requires i < |parts|
    requires forall r :: r in parts[i] ==> r.channelType == tag
    requires forall j, r :: 0 <= j < |parts| && j != i && r in parts[j] ==> r.channelType != tag
    ensures Members(Flatten(parts), RowType, tag) == parts[i]
    decreases |parts|
  {
    var n := |parts| - 1;
    var init := parts[..n];
    MembersAppend(Flatten(init), parts[n], RowType, tag);
    if i == n {
      MembersAll(parts[n], RowType, tag);
      NoneOfTag(init, tag);
    } else {
      PickTable(init, i, tag);
    }
  }

  lemma {:induction false} NoneOfTag(parts: seq<seq<RevenueRow>>, tag: ChannelType)
    requires forall j, r :: 0 <= j < |parts| && r in parts[j] ==> r.channelType != tag
    ensures Members(Flatten(parts), RowType, tag) == []
    decreases |parts|
  {
    if |parts| > 0 {
      var n := |parts| - 1;
      NoneOfTag(parts[..n], tag);
      MembersAppend(Flatten(parts[..n]), parts[n], RowType, tag);
    }
  }

  /** The rows of dimension `tag` in `rows` are the grouped table of `xs` by
      `key`: a row for exactly the values that occur, each carrying its summed
      value. */
  ghost predicate DimensionRows<T(!new)>(rows: seq<RevenueRow>, tag: ChannelType, xs: seq<T>,
                                          key: T -> string, val: T -> real)
  {
    && (forall r :: r in rows && r.channelType == tag ==> r.revenue == GroupTotal(xs, key, val, r.channel))
    && (forall ch :: (exists r :: r in rows && r.channelType == tag && r.channel == ch)
                     <==> Members(xs, key, ch) != [])
  }

  /** A table stacked where no other part carries its dimension keeps its rows'
      channels and revenues, and its revenue total. */
  lemma TableInStack<T(!new)>(parts: seq<seq<RevenueRow>>, i: nat, tag: ChannelType, xs: seq<T>,
                              key: T -> string, val: T -> real)
    requires i < |parts|
    requires parts[i] == ChannelTable(xs, key, val, tag)
    requires forall j, r :: 0 <= j < |parts| && j != i && r in parts[j] ==> r.channelType != tag
    ensures DimensionRows(Flatten(parts), tag, xs, key, val)
    ensures ChannelRevenue(Flatten(parts), tag) == Total(xs, val)
  {
    var rows := Flatten(parts);
    PickTable(parts, i, tag);
    assert forall r :: r in rows && r.channelType == tag <==> r in parts[i];
  }

  /** `calculate_revenue_by_channel` row by row: the device, auction, geo and
      industry rows are exactly the grouped tables of won spend by device
      type, auction type, country and (through the two merges) industry. */
  lemma StackedTables(imps: seq<Impression>, cs: seq<Campaign>, ads: seq<Advertiser>)
    ensures DimensionRows(CalculateRevenueByChannel(imps, cs, ads), Device, WonImpressions(imps), DeviceOf, ImpressionSpend)
    ensures DimensionRows(CalculateRevenueByChannel(imps, cs, ads), Auction, WonImpressions(imps), AuctionOf, ImpressionSpend)
    ensures DimensionRows(CalculateRevenueByChannel(imps, cs, ads), Geo, WonImpressions(imps), CountryOf, ImpressionSpend)
    ensures DimensionRows(CalculateRevenueByChannel(imps, cs, ads), Industry,
                          IndustryJoin(WonImpressions(imps), cs, ads), IndustryOf, JoinedSpend)
  {
    var parts := ChannelTables(imps, cs, ads);
    var won := WonImpressions(imps);
    TableInStack(parts, 0, Device, won, DeviceOf, ImpressionSpend);
    TableInStack(parts, 1, Auction, won, AuctionOf, ImpressionSpend);
    TableInStack(parts, 2, Geo, won, CountryOf, ImpressionSpend);
    TableInStack(parts, 3, Industry, IndustryJoin(won, cs, ads), IndustryOf, JoinedSpend);
  }

  /** Concatenation of tables (`pd.concat(..., ignore_index=True)`). */
  function Flatten(parts: seq<seq<RevenueRow>>): seq<RevenueRow>
  {
    if |parts| == 0 then [] else Flatten(parts[..|parts| - 1]) + parts[|parts| - 1]
  }

  /** Device, auction and geo revenue each add up to the total won spend: the
      three groupings partition the same spend. Industry revenue adds up to
      the spend of the impressions the two inner merges keep. */
  lemma ChannelTotals(imps: seq<Impression>, cs: seq<Campaign>, ads: seq<Advertiser>)
    ensures ChannelRevenue(CalculateRevenueByChannel(imps, cs, ads), Device) == TotalWonSpend(imps)
    ensures ChannelRevenue(CalculateRevenueByChannel(imps, cs, ads), Auction) == TotalWonSpend(imps)
    ensures ChannelRevenue(CalculateRevenueByChannel(imps, cs, ads), Geo) == TotalWonSpend(imps)
    ensures ChannelRevenue(CalculateRevenueByChannel(imps, cs, ads), Industry)
         == Total(IndustryJoin(WonImpressions(imps), cs, ads), JoinedSpend)
  {
    var parts := ChannelTables(imps, cs, ads);
    var won := WonImpressions(imps);
    TableInStack(parts, 0, Device, won, DeviceOf, ImpressionSpend);
    TableInStack(parts, 1, Auction, won, AuctionOf, ImpressionSpend);
    TableInStack(parts, 2, Geo, won, CountryOf, ImpressionSpend);
    TableInStack(parts, 3, Industry, IndustryJoin(won, cs, ads), IndustryOf, JoinedSpend);
  }

  /** An impression whose campaign is among the campaigns and whose campaign's
      advertiser is among the advertisers: both inner merges keep it. */
  predicate Resolves(i: Impression, cs: seq<Campaign>, ads: seq<Advertiser>)
  {
    exists c :: c in cs && c.campaignId == i.campaignId && AdvertiserKnown(c, ads)
  }

  predicate AdvertiserKnown(c: Campaign, ads: seq<Advertiser>)
  {
    exists a :: a in ads && a.advertiserId == c.advertiserId
  }

  /** With unique ids an impression joins to at most one industry, and to
      exactly one when it resolves. */
  lemma ImpressionIndustriesAtMostOne(i: Impression, cs: seq<Campaign>, ads: seq<Advertiser>)
    requires UniqueCampaignIds(cs) && UniqueAdvertiserIds(ads)
    ensures |ImpressionIndustries(i, cs, ads)| <= 1
    ensures Resolves(i, cs, ads) ==> |ImpressionIndustries(i, cs, ads)| == 1
  {
    var ms := Members(cs, CampaignIdOf, i.campaignId);
    UniqueKeyMatchesAtMostOnce(cs, CampaignIdOf, i.campaignId);
    if |ms| == 1 {
      var c := ms[0];
      assert ms[..0] == [];
      var matches := Members(ads, AdvertiserIdOf, c.advertiserId);
      UniqueKeyMatchesAtMostOnce(ads, AdvertiserIdOf, c.advertiserId);
      assert JoinIndustries(ms, ads) == JoinIndustries([], ads) + seq(|matches|, j requires 0 <= j < |matches| => matches[j].industry);
      if Resolves(i, cs, ads) {
        var c' :| c' in cs && c'.campaignId == i.campaignId && AdvertiserKnown(c', ads);
        assert c' in ms;
        assert c' == c;
        var a :| a in ads && a.advertiserId == c.advertiserId;
        assert a in matches;
      }
    } else {
      assert ms == [];
      assert !Resolves(i, cs, ads);
    }
  }

  /** The industry join keeps each won impression's spend at most once, and
      exactly once when it resolves. */
  lemma {:induction false} IndustryJoinBounded(won: seq<Impression>, cs: seq<Campaign>, ads: seq<Advertiser>)
    requires UniqueCampaignIds(cs) && UniqueAdvertiserIds(ads)
    requires forall i :: i in won ==> i.winPrice >= 0.0
    ensures Total(IndustryJoin(won, cs, ads), JoinedSpend) <= Total(won, ImpressionSpend)
    ensures (forall i :: i in won ==> Resolves(i, cs, ads)) ==>
              Total(IndustryJoin(won, cs, ads), JoinedSpend) == Total(won, ImpressionSpend)
    decreases |won|
  {
    if |won| > 0 {
      var init, i := won[..|won| - 1], won[|won| - 1];
      assert forall x :: x in init ==> x in won;
      assert i in won;
      IndustryJoinBounded(init, cs, ads);
      var inds := ImpressionIndustries(i, cs, ads);
      var extra := seq(|inds|, j requires 0 <= j < |inds| => IndustrySpend(inds[j], ImpressionSpend(i)));
      TotalAppend(IndustryJoin(init, cs, ads), extra, JoinedSpend);
      ImpressionIndustriesAtMostOne(i, cs, ads);
      if |inds| == 1 {
        assert extra[..0] == [];
        assert Total(extra, JoinedSpend) == ImpressionSpend(i);
      } else {
        assert extra == [];
      }
    }
  }

  /** Industry revenue never exceeds total won spend once campaign and
      advertiser ids are unique and win prices are not negative, and equals
      it when every won impression's campaign and advertiser resolve. */
  lemma IndustryRevenueBounded(imps: seq<Impression>, cs: seq<Campaign>, ads: seq<Advertiser>)
    requires UniqueCampaignIds(cs) && UniqueAdvertiserIds(ads)
    requires forall i :: i in imps && i.outcome.Won? ==> i.winPrice >= 0.0
    ensures ChannelRevenue(CalculateRevenueByChannel(imps, cs, ads), Industry) <= TotalWonSpend(imps)
    ensures (forall i :: i in imps && i.outcome.Won? ==> Resolves(i, cs, ads)) ==>
              ChannelRevenue(CalculateRevenueByChannel(imps, cs, ads), Industry) == TotalWonSpend(imps)
  {
    ChannelTotals(imps, cs, ads);
    IndustryJoinBounded(WonImpressions(imps), cs, ads);
  }
}
