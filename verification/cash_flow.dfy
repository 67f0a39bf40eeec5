/** Cash flow: receivables (what advertisers owe, per advertiser and month)
    and payables (what is owed to publishers, per publisher and month), each
    with a due date after month end, days outstanding against today, an aging
    bucket and a payment status. The calendar (which month a timestamp falls
    in, the last day of a month), today's date and the random draws (payout
    fractions, payment statuses) are parameters. */
module CashFlow {
  import opened GroupBy
  import opened Records
  import opened Display

  /** Payment terms, in days after the last day of the month. */
  const ReceivableTermDays := 45
  const PayableTermDays := 30

  datatype Aging = Current | Days30 | Days60 | Days90Plus

  /** Not yet due is current; then buckets up to 30, up to 60, and beyond. */
  function AgingOf(daysOutstanding: int): (a: Aging)
    ensures a == Current <==> daysOutstanding <= 0
    ensures a == Days30 <==> 1 <= daysOutstanding <= 30
    ensures a == Days60 <==> 31 <= daysOutstanding <= 60
    ensures a == Days90Plus <==> daysOutstanding > 60
  {
    if daysOutstanding <= 0 then Current
    else if daysOutstanding <= 30 then Days30
    else if daysOutstanding <= 60 then Days60
    else Days90Plus
  }

  function AgingRank(a: Aging): int
  {
    match a
    case Current => 0
    case Days30 => 1
    case Days60 => 2
    case Days90Plus => 3
  }

  /** An older balance never falls into a younger bucket. */
  lemma AgingMonotone(d1: int, d2: int)
    requires d1 <= d2
    ensures AgingRank(AgingOf(d1)) <= AgingRank(AgingOf(d2))
  {
  }

  datatype PaymentStatus = Paid | Outstanding

  /** One row of either ledger. */
  datatype LedgerRow = LedgerRow(
    party: string,
    partyName: string,
    month: int,
    amount: real,
    dueDate: int,
    daysOutstanding: int,
    aging: Aging,
    status: PaymentStatus,
    outstandingAmount: real)

  function RowAmount(r: LedgerRow): real { r.amount }

  /** The dating and settlement columns of a ledger row with the given
      payment terms. */
  predicate Settled(r: LedgerRow, termDays: int, today: int, monthEnd: int -> int)
  {
    && r.dueDate == monthEnd(r.month) + termDays
    && r.daysOutstanding == today - r.dueDate
    && r.aging == AgingOf(r.daysOutstanding)
    && (r.status == Outstanding ==> r.outstandingAmount == r.amount)
    && (r.status == Paid ==> r.outstandingAmount == 0.0)
  }

  function Settle(party: string, partyName: string, month: int, amount: real, termDays: int,
                  today: int, monthEnd: int -> int, outstanding: bool): (r: LedgerRow)
    ensures r.party == party && r.partyName == partyName && r.month == month && r.amount == amount
    ensures r.status == Outstanding <==> outstanding
    ensures Settled(r, termDays, today, monthEnd)
  {
    var due := monthEnd(month) + termDays;
    var days := today - due;
    LedgerRow(party, partyName, month, amount, due, days, AgingOf(days),
              if outstanding then Outstanding else Paid,
              if outstanding then amount else 0.0)
  }

  /** A settled row's outstanding amount is all of its amount or none of it,
      so it lies between zero and the amount when the amount is not negative. */
  lemma OutstandingAllOrNothing(r: LedgerRow, termDays: int, today: int, monthEnd: int -> int)
    requires Settled(r, termDays, today, monthEnd)
    ensures r.outstandingAmount == 0.0 || r.outstandingAmount == r.amount
    ensures r.amount >= 0.0 ==> 0.0 <= r.outstandingAmount <= r.amount
  {
  }

  /** A spend amount attributed to a party (advertiser or publisher) in a
      month. */
  datatype Entry = Entry(party: string, month: int, amount: real)

  function EntryKey(e: Entry): (string, int) { (e.party, e.month) }
  function EntryAmount(e: Entry): real { e.amount }

  // ---------------------------------------------------------------- receivables

  /** The entries one won impression contributes through the inner merge with
      the campaigns: one per campaign carrying its campaign id. */
  function ImpressionEntries(i: Impression, cs: seq<Campaign>, monthOf: int -> int): (es: seq<Entry>)
    ensures |es| == |Members(cs, CampaignIdOf, i.campaignId)|
    ensures forall e :: e in es ==> e.month == monthOf(i.timestamp) && e.amount == ImpressionSpend(i)
    ensures forall e :: e in es ==> exists c :: c in cs && c.campaignId == i.campaignId && c.advertiserId == e.party
    ensures forall c :: c in cs && c.campaignId == i.campaignId ==>
              Entry(c.advertiserId, monthOf(i.timestamp), ImpressionSpend(i)) in es
  {
    var ms := Members(cs, CampaignIdOf, i.campaignId);
    var es := seq(|ms|, j requires 0 <= j < |ms| => Entry(ms[j].advertiserId, monthOf(i.timestamp), ImpressionSpend(i)));
    MatchesGiveEntries(i, cs, monthOf, es);
    es
  }

  lemma MatchesGiveEntries(i: Impression, cs: seq<Campaign>, monthOf: int -> int, es: seq<Entry>)
    requires |es| == |Members(cs, CampaignIdOf, i.campaignId)|
    requires forall j :: 0 <= j < |es| ==>
               es[j] == Entry(Members(cs, CampaignIdOf, i.campaignId)[j].advertiserId, monthOf(i.timestamp), ImpressionSpend(i))
    ensures forall e :: e in es ==> exists c :: c in cs && c.campaignId == i.campaignId && c.advertiserId == e.party
    ensures forall c :: c in cs && c.campaignId == i.campaignId ==>
              Entry(c.advertiserId, monthOf(i.timestamp), ImpressionSpend(i)) in es
  {
    var ms := Members(cs, CampaignIdOf, i.campaignId);
    forall e | e in es ensures exists c :: c in cs && c.campaignId == i.campaignId && c.advertiserId == e.party {
      var j :| 0 <= j < |es| && es[j] == e;
      assert ms[j] in ms;
    }
    forall c | c in cs && c.campaignId == i.campaignId
      ensures Entry(c.advertiserId, monthOf(i.timestamp), ImpressionSpend(i)) in es
    {
      assert c in ms;
      var j :| 0 <= j < |ms| && ms[j] == c;
      assert es[j] in es;
    }
  }

  /** The entry is the spend of one of the won impressions, attributed to the
      advertiser of a campaign carrying the impression's campaign id. */
  predicate EntryFrom(e: Entry, won: seq<Impression>, cs: seq<Campaign>, monthOf: int -> int)
  {
    exists i, c :: i in won && c in cs && c.campaignId == i.campaignId
      && e == Entry(c.advertiserId, monthOf(i.timestamp), ImpressionSpend(i))
  }

  /** Every pair of a won impression and a campaign carrying its campaign id
      yields an entry. */
  predicate EntriesComplete(es: seq<Entry>, won: seq<Impression>, cs: seq<Campaign>, monthOf: int -> int)
  {
    forall i, c :: i in won && c in cs && c.campaignId == i.campaignId ==>
      Entry(c.advertiserId, monthOf(i.timestamp), ImpressionSpend(i)) in es
  }

  /** Won impressions merged with the campaigns on campaign id, projected to
      (advertiser, month, spend): the entries are exactly those of the
      matching (impression, campaign) pairs. */
  function AdvertiserEntries(won: seq<Impression>, cs: seq<Campaign>, monthOf: int -> int): (es: seq<Entry>)
    ensures forall e :: e in es ==> EntryFrom(e, won, cs, monthOf)
    ensures EntriesComplete(es, won, cs, monthOf)
  {
    if |won| == 0 then []
    else
      var init, i := won[..|won| - 1], won[|won| - 1];
      var rest := AdvertiserEntries(init, cs, monthOf);
      var mine := ImpressionEntries(i, cs, monthOf);
      AdvertiserEntriesStep(won, cs, monthOf, rest, mine);
      rest + mine
  }

  lemma AdvertiserEntriesStep(won: seq<Impression>, cs: seq<Campaign>, monthOf: int -> int,
                              rest: seq<Entry>, mine: seq<Entry>)
    requires |won| > 0
    requires forall e :: e in rest ==> EntryFrom(e, won[..|won| - 1], cs, monthOf)
    requires EntriesComplete(rest, won[..|won| - 1], cs, monthOf)
    requires mine == ImpressionEntries(won[|won| - 1], cs, monthOf)
    ensures forall e :: e in rest + mine ==> EntryFrom(e, won, cs, monthOf)
    ensures EntriesComplete(rest + mine, won, cs, monthOf)
  {
    var init, i := won[..|won| - 1], won[|won| - 1];
    assert i in won;
    forall e | e in rest + mine ensures EntryFrom(e, won, cs, monthOf) {
      if e in rest {
        var i', c :| i' in init && c in cs && c.campaignId == i'.campaignId
          && e == Entry(c.advertiserId, monthOf(i'.timestamp), ImpressionSpend(i'));
        var k :| 0 <= k < |init| && init[k] == i';
        assert won[k] == i';
      } else {
        var c :| c in cs && c.campaignId == i.campaignId && c.advertiserId == e.party;
      }
    }
    forall i', c | i' in won && c in cs && c.campaignId == i'.campaignId
      ensures Entry(c.advertiserId, monthOf(i'.timestamp), ImpressionSpend(i')) in rest + mine
    {
      var k :| 0 <= k < |won| && won[k] == i';
      if k < |init| {
        assert init[k] == i';
        assert Entry(c.advertiserId, monthOf(i'.timestamp), ImpressionSpend(i')) in rest;
      } else {
        assert Entry(c.advertiserId, monthOf(i'.timestamp), ImpressionSpend(i')) in mine;
      }
    }
  }

  predicate CampaignKnown(i: Impression, cs: seq<Campaign>)
  {
    exists c :: c in cs && c.campaignId == i.campaignId
  }

  /** With unique campaign ids every won impression's spend enters the
      receivables at most once, and exactly once when its campaign is known. */
  lemma {:induction false} AdvertiserEntriesTotal(won: seq<Impression>, cs: seq<Campaign>, monthOf: int -> int)
    requires UniqueCampaignIds(cs)
    requires forall i :: i in won ==> i.winPrice >= 0.0
    ensures Total(AdvertiserEntries(won, cs, monthOf), EntryAmount) <= Total(won, ImpressionSpend)
    ensures (forall i :: i in won ==> CampaignKnown(i, cs)) ==>
              Total(AdvertiserEntries(won, cs, monthOf), EntryAmount) == Total(won, ImpressionSpend)
    decreases |won|
  {
    if |won| > 0 {
      var init, i := won[..|won| - 1], won[|won| - 1];
      assert forall x :: x in init ==> x in won;
      assert i in won;
      AdvertiserEntriesTotal(init, cs, monthOf);
      var mine := ImpressionEntries(i, cs, monthOf);
      TotalAppend(AdvertiserEntries(init, cs, monthOf), mine, EntryAmount);
      UniqueKeyMatchesAtMostOnce(cs, CampaignIdOf, i.campaignId);
      if |mine| == 1 {
        assert mine[0] in mine;
        assert mine[..0] == [];
        assert Total(mine, EntryAmount) == ImpressionSpend(i);
      } else {
        assert mine == [];
        assert Members(cs, CampaignIdOf, i.campaignId) == [];
        assert !CampaignKnown(i, cs);
      }
    }
  }

  /** One entry per (party, month) group, carrying the group's summed amount,
      in first-appearance order. */
  function GroupEntries(es: seq<Entry>): (gs: seq<Entry>)
    ensures |gs| == |GroupKeys(es, EntryKey)|
    ensures forall j :: 0 <= j < |gs| ==> EntryKey(gs[j]) == GroupKeys(es, EntryKey)[j]
    ensures forall g :: g in gs ==> g.amount == GroupTotal(es, EntryKey, EntryAmount, EntryKey(g))
  {
    var ks := GroupKeys(es, EntryKey);
    seq(|ks|, j requires 0 <= j < |ks| => Entry(ks[j].0, ks[j].1, GroupTotal(es, EntryKey, EntryAmount, ks[j])))
  }

  /** A grouped entry merged with the advertisers on advertiser id. */
  datatype NamedEntry = NamedEntry(party: string, partyName: string, month: int, amount: real)

  /** Every advertiser listing with the group's id names a copy of the group. */
  predicate EveryListingNamed(g: Entry, ads: seq<Advertiser>, ns: seq<NamedEntry>)
  {
    forall a :: a in ads && a.advertiserId == g.party ==> NamedEntry(g.party, a.name, g.month, g.amount) in ns
  }

  function NameEntry(g: Entry, ads: seq<Advertiser>): (ns: seq<NamedEntry>)
    ensures |ns| == |Members(ads, AdvertiserIdOf, g.party)|
    ensures forall n :: n in ns ==> n.party == g.party && n.month == g.month && n.amount == g.amount
    ensures forall n :: n in ns ==> exists a :: a in ads && a.advertiserId == g.party && a.name == n.partyName
    ensures EveryListingNamed(g, ads, ns)
  {
    var ms := Members(ads, AdvertiserIdOf, g.party);
    var ns := seq(|ms|, j requires 0 <= j < |ms| => NamedEntry(g.party, ms[j].name, g.month, g.amount));
    assert forall n :: n in ns ==> exists j :: 0 <= j < |ms| && n.partyName == ms[j].name;
    forall a | a in ads && a.advertiserId == g.party ensures NamedEntry(g.party, a.name, g.month, g.amount) in ns {
      assert a in ms;
      var j :| 0 <= j < |ms| && ms[j] == a;
      assert ns[j] in ns;
    }
    ns
  }

  /** The named entry comes from one of the grouped entries. */
  predicate NamedFrom(n: NamedEntry, gs: seq<Entry>)
  {
    exists g :: g in gs && n.party == g.party && n.month == g.month && n.amount == g.amount
  }

  /** The named entry carries the name of an advertiser with its id. */
  predicate NamedBy(n: NamedEntry, ads: seq<Advertiser>)
  {
    exists a :: a in ads && a.advertiserId == n.party && a.name == n.partyName
  }

  predicate HasNamed(ns: seq<NamedEntry>, party: string, month: int)
  {
    exists n :: n in ns && n.party == party && n.month == month
  }

  /** `merge(advertisers, on='advertiser_id')`: inner, so a group whose
      advertiser is unknown disappears. */
  function NameEntries(gs: seq<Entry>, ads: seq<Advertiser>): (ns: seq<NamedEntry>)
    ensures forall n :: n in ns ==> NamedFrom(n, gs) && NamedBy(n, ads)
    ensures forall g :: g in gs && AdvertiserListed(g.party, ads) ==> HasNamed(ns, g.party, g.month)
  {
    if |gs| == 0 then []
    else
      var g := gs[|gs| - 1];
      var init := gs[..|gs| - 1];
      var rest := NameEntries(init, ads);
      var mine := NameEntry(g, ads);
      NameEntriesStep(gs, ads, rest, mine);
      rest + mine
  }

  lemma NameEntriesStep(gs: seq<Entry>, ads: seq<Advertiser>, rest: seq<NamedEntry>, mine: seq<NamedEntry>)
    requires |gs| > 0
    requires forall n :: n in rest ==> NamedFrom(n, gs[..|gs| - 1]) && NamedBy(n, ads)
    requires forall g :: g in gs[..|gs| - 1] && AdvertiserListed(g.party, ads) ==> HasNamed(rest, g.party, g.month)
    requires mine == NameEntry(gs[|gs| - 1], ads)
    ensures forall n :: n in rest + mine ==> NamedFrom(n, gs) && NamedBy(n, ads)
    ensures forall g :: g in gs && AdvertiserListed(g.party, ads) ==> HasNamed(rest + mine, g.party, g.month)
  {
    var last := gs[|gs| - 1];
    assert gs == gs[..|gs| - 1] + [last];
    forall n | n in rest + mine ensures NamedFrom(n, gs) && NamedBy(n, ads) {
      if n in rest {
        var g :| g in gs[..|gs| - 1] && n.party == g.party && n.month == g.month && n.amount == g.amount;
        assert g in gs;
      } else {
        assert n in mine;
        assert last in gs;
      }
    }
    forall g | g in gs && AdvertiserListed(g.party, ads) ensures HasNamed(rest + mine, g.party, g.month) {
      if g in gs[..|gs| - 1] {
        var n :| n in rest && n.party == g.party && n.month == g.month;
        assert n in rest + mine;
      } else {
        assert g == last;
        var a :| a in ads && a.advertiserId == g.party;
        assert a in Members(ads, AdvertiserIdOf, g.party);
        assert mine[0] in rest + mine;
      }
    }
  }

  predicate AdvertiserListed(advertiserId: string, ads: seq<Advertiser>)
  {
    exists a :: a in ads && a.advertiserId == advertiserId
  }

  /** What a receivable row promises about the entries it was grouped from
      and the advertiser it was named after. */
  predicate ReceivableFacts(r: LedgerRow, es: seq<Entry>, ads: seq<Advertiser>, today: int,
                            monthEnd: int -> int)
  {
    && Settled(r, ReceivableTermDays, today, monthEnd)
    && Members(es, EntryKey, (r.party, r.month)) != []
    && r.amount == GroupTotal(es, EntryKey, EntryAmount, (r.party, r.month))
    && exists a :: a in ads && a.advertiserId == r.party && a.name == r.partyName
  }

  predicate HasLedgerRow(rows: seq<LedgerRow>, party: string, month: int)
  {
    exists r :: r in rows && r.party == party && r.month == month
  }

  /** The receivable row made from a named group. */
  predicate ReceivableRowOf(r: LedgerRow, n: NamedEntry, today: int, monthEnd: int -> int)
  {
    && r.party == n.party && r.partyName == n.partyName && r.month == n.month && r.amount == n.amount
    && Settled(r, ReceivableTermDays, today, monthEnd)
  }

  function ReceivableRow(n: NamedEntry, today: int, monthEnd: int -> int, outstanding: bool): (r: LedgerRow)
    ensures ReceivableRowOf(r, n, today, monthEnd)
    ensures r.status == Outstanding <==> outstanding
  {
    Settle(n.party, n.partyName, n.month, n.amount, ReceivableTermDays, today, monthEnd, outstanding)
  }

  /** The rows of the first `n` named groups; the `j`-th row's payment status
      is the `j`-th draw. */
  function ReceivableRows(ns: seq<NamedEntry>, today: int, monthEnd: int -> int, outstanding: nat -> bool, n: nat)
    : (rows: seq<LedgerRow>)
    requires n <= |ns|
    ensures |rows| == n
    ensures forall j :: 0 <= j < n ==> ReceivableRowOf(rows[j], ns[j], today, monthEnd)
    ensures forall j :: 0 <= j < n ==> (rows[j].status == Outstanding <==> outstanding(j))
  {
    if n == 0 then []
    else ReceivableRows(ns, today, monthEnd, outstanding, n - 1) + [ReceivableRow(ns[n - 1], today, monthEnd, outstanding(n - 1))]
  }

  /** Receivable rows: won spend per (advertiser, month), named from the
      advertisers, due 45 days after month end. Exactly the (advertiser, month)
      groups whose advertiser is listed get a row. */
  function Receivables(won: seq<Impression>, cs: seq<Campaign>, ads: seq<Advertiser>, today: int,
                       monthOf: int -> int, monthEnd: int -> int, outstanding: nat -> bool)
    : (rows: seq<LedgerRow>)
    ensures forall r :: r in rows ==> ReceivableFacts(r, AdvertiserEntries(won, cs, monthOf), ads, today, monthEnd)
    ensures forall adv, m :: Members(AdvertiserEntries(won, cs, monthOf), EntryKey, (adv, m)) != [] ==>
              (AdvertiserListed(adv, ads) <==> HasLedgerRow(rows, adv, m))
    ensures forall j :: 0 <= j < |rows| ==> (rows[j].status == Outstanding <==> outstanding(j))
  {
    var es := AdvertiserEntries(won, cs, monthOf);
    var gs := GroupEntries(es);
    var ns := NameEntries(gs, ads);
    var rows := ReceivableRows(ns, today, monthEnd, outstanding, |ns|);
    ReceivableRowsFollowGroups(es, gs, ads, ns, rows, today, monthEnd);
    ReceivableRowsCoverGroups(es, gs, ads, ns, rows, today, monthEnd);
    rows
  }

  lemma ReceivableRowsFollowGroups(es: seq<Entry>, gs: seq<Entry>, ads: seq<Advertiser>, ns: seq<NamedEntry>,
                                   rows: seq<LedgerRow>, today: int, monthEnd: int -> int)
    requires |gs| == |GroupKeys(es, EntryKey)|
    requires forall j :: 0 <= j < |gs| ==> EntryKey(gs[j]) == GroupKeys(es, EntryKey)[j]
    requires forall g :: g in gs ==> g.amount == GroupTotal(es, EntryKey, EntryAmount, EntryKey(g))
    requires forall n :: n in ns ==> NamedFrom(n, gs) && NamedBy(n, ads)
    requires |rows| == |ns|
    requires forall j :: 0 <= j < |ns| ==> ReceivableRowOf(rows[j], ns[j], today, monthEnd)
    ensures forall r :: r in rows ==> ReceivableFacts(r, es, ads, today, monthEnd)
  {
    forall r | r in rows ensures ReceivableFacts(r, es, ads, today, monthEnd) {
      var j :| 0 <= j < |rows| && rows[j] == r;
      assert ns[j] in ns;
      var g :| g in gs && ns[j].party == g.party && ns[j].month == g.month && ns[j].amount == g.amount;
      var k :| 0 <= k < |gs| && gs[k] == g;
      assert EntryKey(g) == GroupKeys(es, EntryKey)[k];
      assert EntryKey(g) == (r.party, r.month);
    }
  }

  lemma ReceivableRowsCoverGroups(es: seq<Entry>, gs: seq<Entry>, ads: seq<Advertiser>,
                                  ns: seq<NamedEntry>, rows: seq<LedgerRow>, today: int, monthEnd: int -> int)
    requires |gs| == |GroupKeys(es, EntryKey)|
    requires forall j :: 0 <= j < |gs| ==> EntryKey(gs[j]) == GroupKeys(es, EntryKey)[j]
    requires forall n :: n in ns ==> NamedBy(n, ads)
    requires forall g :: g in gs && AdvertiserListed(g.party, ads) ==> HasNamed(ns, g.party, g.month)
    requires |rows| == |ns|
    requires forall j :: 0 <= j < |ns| ==> ReceivableRowOf(rows[j], ns[j], today, monthEnd)
    ensures forall adv, m :: Members(es, EntryKey, (adv, m)) != [] ==>
              (AdvertiserListed(adv, ads) <==> HasLedgerRow(rows, adv, m))
  {
    forall adv, m | Members(es, EntryKey, (adv, m)) != []
      ensures AdvertiserListed(adv, ads) <==> HasLedgerRow(rows, adv, m)
    {
      if AdvertiserListed(adv, ads) {
        var ks := GroupKeys(es, EntryKey);
        var k :| 0 <= k < |ks| && ks[k] == (adv, m);
        assert EntryKey(gs[k]) == (adv, m);
        assert gs[k] in gs;
        var n :| n in ns && n.party == adv && n.month == m;
        var j :| 0 <= j < |ns| && ns[j] == n;
        assert rows[j] in rows;
      }
      if HasLedgerRow(rows, adv, m) {
        var r :| r in rows && r.party == adv && r.month == m;
        var j :| 0 <= j < |rows| && rows[j] == r;
        assert ns[j] in ns;
        assert NamedBy(ns[j], ads);
      }
    }
  }

  /** Receivables in terms of the won impressions: a won impression whose
      campaign is listed under a listed advertiser puts a row on that
      advertiser's month, and every row is the month of such an impression. */
  lemma ReceivablesFollowImpressions(won: seq<Impression>, cs: seq<Campaign>, ads: seq<Advertiser>, today: int,
                                     monthOf: int -> int, monthEnd: int -> int, outstanding: nat -> bool)
    ensures forall i, c :: i in won && c in cs && c.campaignId == i.campaignId && AdvertiserListed(c.advertiserId, ads) ==>
              HasLedgerRow(Receivables(won, cs, ads, today, monthOf, monthEnd, outstanding), c.advertiserId, monthOf(i.timestamp))
    ensures forall r :: r in Receivables(won, cs, ads, today, monthOf, monthEnd, outstanding) ==>
              AdvertiserListed(r.party, ads) &&
              exists i, c :: i in won && c in cs && c.campaignId == i.campaignId
                && c.advertiserId == r.party && monthOf(i.timestamp) == r.month
  {
    var es := AdvertiserEntries(won, cs, monthOf);
    var rows := Receivables(won, cs, ads, today, monthOf, monthEnd, outstanding);
    forall i, c | i in won && c in cs && c.campaignId == i.campaignId && AdvertiserListed(c.advertiserId, ads)
      ensures HasLedgerRow(rows, c.advertiserId, monthOf(i.timestamp))
    {
      var e := Entry(c.advertiserId, monthOf(i.timestamp), ImpressionSpend(i));
      assert e in es;
      assert e in Members(es, EntryKey, (c.advertiserId, monthOf(i.timestamp)));
    }
    forall r | r in rows
      ensures AdvertiserListed(r.party, ads)
      ensures exists i, c :: i in won && c in cs && c.campaignId == i.campaignId
                && c.advertiserId == r.party && monthOf(i.timestamp) == r.month
    {
      assert ReceivableFacts(r, es, ads, today, monthEnd);
      var e := Members(es, EntryKey, (r.party, r.month))[0];
      assert e in Members(es, EntryKey, (r.party, r.month));
      assert EntryFrom(e, won, cs, monthOf);
    }
  }

  /** No two entries share an (party, month) pair. */
  predicate DistinctKeys(es: seq<Entry>)
  {
    forall j, k :: 0 <= j < k < |es| ==> (es[j].party, es[j].month) != (es[k].party, es[k].month)
  }

  predicate DistinctNamedKeys(ns: seq<NamedEntry>)
  {
    forall j, k :: 0 <= j < k < |ns| ==> (ns[j].party, ns[j].month) != (ns[k].party, ns[k].month)
  }

  predicate DistinctRowKeys(rows: seq<LedgerRow>)
  {
    forall j, k :: 0 <= j < k < |rows| ==> (rows[j].party, rows[j].month) != (rows[k].party, rows[k].month)
  }

  /** Entries named from the earlier groups never carry the last group's key. */
  lemma EarlierGroupsDiffer(gs: seq<Entry>, ads: seq<Advertiser>)
    requires |gs| > 0 && DistinctKeys(gs)
    ensures forall n :: n in NameEntries(gs[..|gs| - 1], ads) ==>
      (n.party, n.month) != (gs[|gs| - 1].party, gs[|gs| - 1].month)
  {
    var g, init := gs[|gs| - 1], gs[..|gs| - 1];
    forall n | n in NameEntries(init, ads) ensures (n.party, n.month) != (g.party, g.month) {
      assert NamedFrom(n, init);
      var g' :| g' in init && n.party == g'.party && n.month == g'.month && n.amount == g'.amount;
      var k :| 0 <= k < |init| && init[k] == g';
      assert gs[k] == g';
    }
  }

  /** With unique advertiser ids the inner merge names each group at most
      once, so distinct groups stay distinct. */
  lemma {:induction false} NameEntriesDistinct(gs: seq<Entry>, ads: seq<Advertiser>)
    requires UniqueAdvertiserIds(ads)
    requires DistinctKeys(gs)
    ensures DistinctNamedKeys(NameEntries(gs, ads))
    decreases |gs|
  {
    if |gs| > 0 {
      var g, init := gs[|gs| - 1], gs[..|gs| - 1];
      NameEntriesDistinct(init, ads);
      var rest, mine := NameEntries(init, ads), NameEntry(g, ads);
      UniqueKeyMatchesAtMostOnce(ads, AdvertiserIdOf, g.party);
      EarlierGroupsDiffer(gs, ads);
      var ns := rest + mine;
      forall j, k | 0 <= j < k < |ns| ensures (ns[j].party, ns[j].month) != (ns[k].party, ns[k].month) {
        if k >= |rest| {
          assert ns[k] == mine[k - |rest|] && ns[k] in mine;
          assert j < |rest|;
          assert ns[j] == rest[j] && ns[j] in rest;
        } else {
          assert ns[j] == rest[j] && ns[k] == rest[k];
        }
      }
    }
  }

  /** With unique advertiser ids, no (advertiser, month) pair has two
      receivable rows: the group index is duplicate-free and the merge keeps
      each group at most once. */
  lemma ReceivablesDistinct(won: seq<Impression>, cs: seq<Campaign>, ads: seq<Advertiser>, today: int,
                            monthOf: int -> int, monthEnd: int -> int, outstanding: nat -> bool)
    requires UniqueAdvertiserIds(ads)
    ensures DistinctRowKeys(Receivables(won, cs, ads, today, monthOf, monthEnd, outstanding))
  {
    var es := AdvertiserEntries(won, cs, monthOf);
    var ks := GroupKeys(es, EntryKey);
    var gs := GroupEntries(es);
    var ns := NameEntries(gs, ads);
    var rows := Receivables(won, cs, ads, today, monthOf, monthEnd, outstanding);
    assert rows == ReceivableRows(ns, today, monthEnd, outstanding, |ns|);
    assert DistinctKeys(gs) by {
      forall j, k | 0 <= j < k < |gs| ensures (gs[j].party, gs[j].month) != (gs[k].party, gs[k].month) {
        assert EntryKey(gs[j]) == ks[j] && EntryKey(gs[k]) == ks[k];
      }
    }
    NameEntriesDistinct(gs, ads);
    forall j, k | 0 <= j < k < |rows| ensures (rows[j].party, rows[j].month) != (rows[k].party, rows[k].month) {
      assert ReceivableRowOf(rows[j], ns[j], today, monthEnd) && ReceivableRowOf(rows[k], ns[k], today, monthEnd);
    }
  }

  function NamedAmount(n: NamedEntry): real { n.amount }

  /** With unique advertiser ids and every group's advertiser listed, naming
      the groups neither drops nor duplicates an amount. */
  lemma {:induction false} NameEntriesTotal(gs: seq<Entry>, ads: seq<Advertiser>)
    requires UniqueAdvertiserIds(ads)
    requires forall g :: g in gs ==> AdvertiserListed(g.party, ads)
    ensures Total(NameEntries(gs, ads), NamedAmount) == Total(gs, EntryAmount)
    decreases |gs|
  {
    if |gs| > 0 {
      var g, init := gs[|gs| - 1], gs[..|gs| - 1];
      assert forall x :: x in init ==> x in gs;
      NameEntriesTotal(init, ads);
      TotalAppend(NameEntries(init, ads), NameEntry(g, ads), NamedAmount);
      assert g in gs;
      NameEntryOnce(g, ads);
    }
  }

  /** A listed advertiser with a unique id names a group exactly once. */
  lemma NameEntryOnce(g: Entry, ads: seq<Advertiser>)
    requires UniqueAdvertiserIds(ads)
    requires AdvertiserListed(g.party, ads)
    ensures Total(NameEntry(g, ads), NamedAmount) == g.amount
  {
    var mine := NameEntry(g, ads);
    UniqueKeyMatchesAtMostOnce(ads, AdvertiserIdOf, g.party);
    var a :| a in ads && a.advertiserId == g.party;
    assert a in Members(ads, AdvertiserIdOf, g.party);
    assert mine[0] in mine;
    assert mine[..0] == [];
  }

  /** Every grouped entry's advertiser is the advertiser of a listed campaign. */
  lemma GroupsListed(won: seq<Impression>, cs: seq<Campaign>, ads: seq<Advertiser>, monthOf: int -> int)
    requires forall c :: c in cs ==> AdvertiserListed(c.advertiserId, ads)
    ensures forall g :: g in GroupEntries(AdvertiserEntries(won, cs, monthOf)) ==> AdvertiserListed(g.party, ads)
  {
    var es := AdvertiserEntries(won, cs, monthOf);
    var gs := GroupEntries(es);
    var ks := GroupKeys(es, EntryKey);
    forall g | g in gs ensures AdvertiserListed(g.party, ads) {
      var k :| 0 <= k < |gs| && gs[k] == g;
      assert ks[k] in ks;
      var e := Members(es, EntryKey, ks[k])[0];
      assert e in Members(es, EntryKey, ks[k]);
      assert EntryFrom(e, won, cs, monthOf);
    }
  }

  /** The receivable amounts add up to all merged spend when every campaign's
      advertiser is listed once; with unique campaign ids, every won
      impression's campaign known and prices not negative, that is the total
      won spend. */
  lemma ReceivablesAccount(won: seq<Impression>, cs: seq<Campaign>, ads: seq<Advertiser>, today: int,
                           monthOf: int -> int, monthEnd: int -> int, outstanding: nat -> bool)
    requires UniqueAdvertiserIds(ads)
    requires forall c :: c in cs ==> AdvertiserListed(c.advertiserId, ads)
    ensures Total(Receivables(won, cs, ads, today, monthOf, monthEnd, outstanding), RowAmount)
         == Total(AdvertiserEntries(won, cs, monthOf), EntryAmount)
    ensures UniqueCampaignIds(cs) && (forall i :: i in won ==> i.winPrice >= 0.0 && CampaignKnown(i, cs)) ==>
              Total(Receivables(won, cs, ads, today, monthOf, monthEnd, outstanding), RowAmount)
              == Total(won, ImpressionSpend)
  {
    var es := AdvertiserEntries(won, cs, monthOf);
    var ks := GroupKeys(es, EntryKey);
    var gs := GroupEntries(es);
    var ns := NameEntries(gs, ads);
    var rows := Receivables(won, cs, ads, today, monthOf, monthEnd, outstanding);
    assert rows == ReceivableRows(ns, today, monthEnd, outstanding, |ns|);
    TotalPointwise(rows, RowAmount, ns, NamedAmount);
    GroupsListed(won, cs, ads, monthOf);
    NameEntriesTotal(gs, ads);
    forall j | 0 <= j < |ks| ensures EntryAmount(gs[j]) == GroupTotal(es, EntryKey, EntryAmount, ks[j]) {
      assert gs[j] in gs;
    }
    TotalOfGroupRows(es, EntryKey, EntryAmount, ks, gs, EntryAmount);
    Partition(es, EntryKey, EntryAmount);
    if UniqueCampaignIds(cs) && (forall i :: i in won ==> i.winPrice >= 0.0 && CampaignKnown(i, cs)) {
      AdvertiserEntriesTotal(won, cs, monthOf);
    }
  }

  // ------------------------------------------------------------------- payables

  /** A won impression's spend and the share of it paid out to its publisher. */
  datatype Payout = Payout(publisherId: string, month: int, spend: real, payout: real)

  function PayoutKey(p: Payout): (string, int) { (p.publisherId, p.month) }
  function PayoutAmount(p: Payout): real { p.payout }
  function PayoutSpend(p: Payout): real { p.spend }

  /** Paying out a share in [0.7, 0.8) of a spend that is not negative pays at
      most the spend and nothing negative. */
  lemma ShareWithinSpend(spend: real, f: real)
    requires ValidShare(f)
    ensures spend >= 0.0 ==> 0.0 <= spend * f <= spend
  {
  }

  /** One won impression's payout, at share `share` of its spend. */
  function PayoutOf(i: Impression, monthOf: int -> int, share: real): (p: Payout)
    requires ValidShare(share)
    ensures p.publisherId == i.publisherId && p.month == monthOf(i.timestamp)
    ensures p.spend == ImpressionSpend(i)
    ensures p.payout == p.spend * share
    ensures p.spend >= 0.0 ==> 0.0 <= p.payout <= p.spend
  {
    ShareWithinSpend(ImpressionSpend(i), share);
    Payout(i.publisherId, monthOf(i.timestamp), ImpressionSpend(i), ImpressionSpend(i) * share)
  }

  /** The payout of every won impression, each at its own drawn share. */
  function Payouts(won: seq<Impression>, monthOf: int -> int, shares: seq<real>): (ps: seq<Payout>)
    requires |shares| == |won|
    requires forall j :: 0 <= j < |shares| ==> ValidShare(shares[j])
    ensures |ps| == |won|
    ensures forall j :: 0 <= j < |won| ==>
              && ps[j].publisherId == won[j].publisherId
              && ps[j].month == monthOf(won[j].timestamp)
              && ps[j].spend == ImpressionSpend(won[j])
              && ps[j].payout == ps[j].spend * shares[j]
              && (ps[j].spend >= 0.0 ==> 0.0 <= ps[j].payout <= ps[j].spend)
  {
    seq(|won|, j requires 0 <= j < |won| => PayoutOf(won[j], monthOf, shares[j]))
  }

  /** What a payable row promises about the payouts it was grouped from. */
  predicate PayableFacts(r: LedgerRow, ps: seq<Payout>, today: int, monthEnd: int -> int)
  {
    && Settled(r, PayableTermDays, today, monthEnd)
    && Members(ps, PayoutKey, (r.party, r.month)) != []
    && r.amount == GroupTotal(ps, PayoutKey, PayoutAmount, (r.party, r.month))
    && PublisherName(r.party) == Some(r.partyName)
  }

  /** The payable row of group `key` of the payouts. */
  predicate PayableRowOf(r: LedgerRow, key: (string, int), ps: seq<Payout>, today: int, monthEnd: int -> int)
  {
    && (r.party, r.month) == key
    && r.amount == GroupTotal(ps, PayoutKey, PayoutAmount, key)
    && PublisherName(r.party) == Some(r.partyName)
    && Settled(r, PayableTermDays, today, monthEnd)
  }

  function PayableRow(ps: seq<Payout>, key: (string, int), today: int, monthEnd: int -> int, outstanding: bool)
    : (r: LedgerRow)
    requires '_' in key.0
    ensures PayableRowOf(r, key, ps, today, monthEnd)
    ensures r.status == Outstanding <==> outstanding
  {
    Settle(key.0, PublisherName(key.0).value, key.1, GroupTotal(ps, PayoutKey, PayoutAmount, key),
           PayableTermDays, today, monthEnd, outstanding)
  }

  /** The rows of the first `n` groups `ks`; the `j`-th row's payment status is
      the `j`-th draw. */
  function PayableRowsUpTo(ps: seq<Payout>, ks: seq<(string, int)>, today: int, monthEnd: int -> int,
                           outstanding: nat -> bool, n: nat): (rows: seq<LedgerRow>)
    requires n <= |ks|
    requires forall k :: k in ks ==> '_' in k.0
    ensures |rows| == n
    ensures forall j :: 0 <= j < n ==> PayableRowOf(rows[j], ks[j], ps, today, monthEnd)
    ensures forall j :: 0 <= j < n ==> (rows[j].status == Outstanding <==> outstanding(j))
  {
    if n == 0 then []
    else
      assert ks[n - 1] in ks;
      PayableRowsUpTo(ps, ks, today, monthEnd, outstanding, n - 1) + [PayableRow(ps, ks[n - 1], today, monthEnd, outstanding(n - 1))]
  }

  /** One payable row per (publisher, month) group, in first-appearance order. */
  function PayableRows(ps: seq<Payout>, today: int, monthEnd: int -> int, outstanding: nat -> bool)
    : (rows: seq<LedgerRow>)
    requires forall p :: p in ps ==> '_' in p.publisherId
    ensures |rows| == |GroupKeys(ps, PayoutKey)|
    ensures forall j :: 0 <= j < |rows| ==> (rows[j].party, rows[j].month) == GroupKeys(ps, PayoutKey)[j]
    ensures forall r :: r in rows ==> PayableFacts(r, ps, today, monthEnd)
    ensures forall j :: 0 <= j < |rows| ==> (rows[j].status == Outstanding <==> outstanding(j))
  {
    var ks := GroupKeys(ps, PayoutKey);
    KeysNamed(ps);
    var rows := PayableRowsUpTo(ps, ks, today, monthEnd, outstanding, |ks|);
    PayableRowsFacts(ps, rows, today, monthEnd);
    rows
  }

  lemma KeysNamed(ps: seq<Payout>)
    requires forall p :: p in ps ==> '_' in p.publisherId
    ensures forall k :: k in GroupKeys(ps, PayoutKey) ==> '_' in k.0
  {
    forall k | k in GroupKeys(ps, PayoutKey) ensures '_' in k.0 {
      assert Members(ps, PayoutKey, k)[0] in ps;
    }
  }

  lemma PayableRowsFacts(ps: seq<Payout>, rows: seq<LedgerRow>, today: int, monthEnd: int -> int)
    requires |rows| == |GroupKeys(ps, PayoutKey)|
    requires forall j :: 0 <= j < |rows| ==> PayableRowOf(rows[j], GroupKeys(ps, PayoutKey)[j], ps, today, monthEnd)
    ensures forall r :: r in rows ==> PayableFacts(r, ps, today, monthEnd)
  {
    var ks := GroupKeys(ps, PayoutKey);
    forall r | r in rows ensures PayableFacts(r, ps, today, monthEnd) {
      var j :| 0 <= j < |rows| && rows[j] == r;
      assert ks[j] in ks;
    }
  }

  /** Payable rows: payouts per (publisher, month), due 30 days after month
      end, exactly one row per group. `None` when a publisher id of a won
      impression has no underscore to take a display name from. */
  function Payables(won: seq<Impression>, today: int, monthOf: int -> int, monthEnd: int -> int,
                    shares: seq<real>, outstanding: nat -> bool): (rows: Option<seq<LedgerRow>>)
    requires |shares| == |won|
    requires forall j :: 0 <= j < |shares| ==> ValidShare(shares[j])
    ensures rows.None? <==> exists i :: i in won && '_' !in i.publisherId
    ensures rows.Some? ==> forall r :: r in rows.value ==> PayableFacts(r, Payouts(won, monthOf, shares), today, monthEnd)
    ensures rows.Some? ==> forall pub, m ::
              HasLedgerRow(rows.value, pub, m) <==> Members(Payouts(won, monthOf, shares), PayoutKey, (pub, m)) != []
    ensures rows.Some? ==> forall j, k :: 0 <= j < k < |rows.value| ==>
              (rows.value[j].party, rows.value[j].month) != (rows.value[k].party, rows.value[k].month)
    ensures rows.Some? ==> forall j :: 0 <= j < |rows.value| ==> (rows.value[j].status == Outstanding <==> outstanding(j))
  {
    if exists i :: i in won && '_' !in i.publisherId then None
    else
      var ps := Payouts(won, monthOf, shares);
      assert forall p :: p in ps ==> '_' in p.publisherId by {
        forall p | p in ps ensures '_' in p.publisherId {
          var j :| 0 <= j < |ps| && ps[j] == p;
          assert won[j] in won;
        }
      }
      var rows := PayableRows(ps, today, monthEnd, outstanding);
      PayableRowsCoverGroups(ps, rows);
      Some(rows)
  }

  lemma PayableRowsCoverGroups(ps: seq<Payout>, rows: seq<LedgerRow>)
    requires |rows| == |GroupKeys(ps, PayoutKey)|
    requires forall j :: 0 <= j < |rows| ==> (rows[j].party, rows[j].month) == GroupKeys(ps, PayoutKey)[j]
    ensures forall pub, m :: HasLedgerRow(rows, pub, m) <==> Members(ps, PayoutKey, (pub, m)) != []
    ensures forall j, k :: 0 <= j < k < |rows| ==> (rows[j].party, rows[j].month) != (rows[k].party, rows[k].month)
  {
    var ks := GroupKeys(ps, PayoutKey);
    forall pub, m ensures HasLedgerRow(rows, pub, m) <==> Members(ps, PayoutKey, (pub, m)) != [] {
      if HasLedgerRow(rows, pub, m) {
        var r :| r in rows && r.party == pub && r.month == m;
        var j :| 0 <= j < |rows| && rows[j] == r;
        assert ks[j] in ks;
      }
      if Members(ps, PayoutKey, (pub, m)) != [] {
        var j :| 0 <= j < |ks| && ks[j] == (pub, m);
        assert rows[j] in rows;
      }
    }
  }

  /** The payable amounts add up to all payouts, and each is at most the spend
      of its (publisher, month) group when win prices are not negative. */
  lemma PayablesAccount(won: seq<Impression>, today: int, monthOf: int -> int, monthEnd: int -> int,
                        shares: seq<real>, outstanding: nat -> bool)
    requires |shares| == |won|
    requires forall j :: 0 <= j < |shares| ==> ValidShare(shares[j])
    requires Payables(won, today, monthOf, monthEnd, shares, outstanding).Some?
    ensures Total(Payables(won, today, monthOf, monthEnd, shares, outstanding).value, RowAmount)
         == Total(Payouts(won, monthOf, shares), PayoutAmount)
    ensures (forall i :: i in won ==> i.winPrice >= 0.0) ==>
              forall r :: r in Payables(won, today, monthOf, monthEnd, shares, outstanding).value ==>
                r.amount <= GroupTotal(Payouts(won, monthOf, shares), PayoutKey, PayoutSpend, (r.party, r.month))
  {
    var ps := Payouts(won, monthOf, shares);
    var ks := GroupKeys(ps, PayoutKey);
    var rows := Payables(won, today, monthOf, monthEnd, shares, outstanding).value;
    assert rows == PayableRows(ps, today, monthEnd, outstanding);
    forall j | 0 <= j < |ks| ensures RowAmount(rows[j]) == GroupTotal(ps, PayoutKey, PayoutAmount, ks[j]) {
      assert rows[j] in rows;
    }
    TotalOfGroupRows(ps, PayoutKey, PayoutAmount, ks, rows, RowAmount);
    Partition(ps, PayoutKey, PayoutAmount);
    if forall i :: i in won ==> i.winPrice >= 0.0 {
      PayoutsWithinSpend(won, monthOf, shares);
      forall r | r in rows
        ensures r.amount <= GroupTotal(ps, PayoutKey, PayoutSpend, (r.party, r.month))
      {
        TotalMono(Members(ps, PayoutKey, (r.party, r.month)), PayoutAmount, PayoutSpend);
      }
    }
  }

  lemma PayoutsWithinSpend(won: seq<Impression>, monthOf: int -> int, shares: seq<real>)
    requires |shares| == |won|
    requires forall j :: 0 <= j < |shares| ==> ValidShare(shares[j])
    requires forall i :: i in won ==> i.winPrice >= 0.0
    ensures forall p :: p in Payouts(won, monthOf, shares) ==> p.payout <= p.spend
  {
    var ps := Payouts(won, monthOf, shares);
    forall p | p in ps ensures p.payout <= p.spend {
      var j :| 0 <= j < |ps| && ps[j] == p;
      assert won[j] in won;
    }
  }

  // ------------------------------------------------------------------ together

  /** `calculate_cash_flow_analysis`: receivables and payables, or `None` where
      the source raises because a publisher id has no underscore. */
  function CalculateCashFlowAnalysis(imps: seq<Impression>, cs: seq<Campaign>, ads: seq<Advertiser>,
                                     today: int, monthOf: int -> int, monthEnd: int -> int,
                                     shares: seq<real>, receivableOutstanding: nat -> bool,
                                     payableOutstanding: nat -> bool)
    : (r: Option<(seq<LedgerRow>, seq<LedgerRow>)>)
    requires |shares| == |WonImpressions(imps)|
    requires forall j :: 0 <= j < |shares| ==> ValidShare(shares[j])
    ensures r.None? <==> exists i :: i in imps && i.outcome.Won? && '_' !in i.publisherId
    ensures r.Some? ==>
              && r.value.0 == Receivables(WonImpressions(imps), cs, ads, today, monthOf, monthEnd, receivableOutstanding)
              && Some(r.value.1) == Payables(WonImpressions(imps), today, monthOf, monthEnd, shares, payableOutstanding)
  {
    var won := WonImpressions(imps);
    var receivables := Receivables(won, cs, ads, today, monthOf, monthEnd, receivableOutstanding);
    var payables := Payables(won, today, monthOf, monthEnd, shares, payableOutstanding);
    if payables.None? then None else Some((receivables, payables.value))
  }
}
