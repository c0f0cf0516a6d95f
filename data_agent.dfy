/** The numeric summary of the data agent (src/agents/data_agent.py): daily
    ROAS trend, per-campaign rollup with a minimum-impressions filter, top and
    bottom campaigns by ROAS, and each campaign's share of total spend. */
module DataAgent {
  import opened Wrappers
  import opened Sequences
  import opened DataLoader

  /** One record of `_campaign_performance`. */
  datatype CampaignStats = CampaignStats(campaign: string, impressions: int, clicks: int,
                                         spend: real, revenue: real, ctr: real, roas: real)

  /** One record of `_compute_roas_trend`. */
  datatype TrendPoint = TrendPoint(date: DateCell, spend: real, revenue: real, roas: real)

  /** One entry of `_spend_distribution`. */
  datatype SpendShare = SpendShare(campaign: string, spend: real, sharePct: real)

  /** The five keys of the `summary` dict. */
  datatype Summary = Summary(roasTrend: seq<TrendPoint>,
                             campaignPerformance: seq<CampaignStats>,
                             topCampaigns: seq<CampaignStats>,
                             bottomCampaigns: seq<CampaignStats>,
                             spendDistribution: seq<SpendShare>)

  /** `load_and_prepare`'s result: a dict whose single key is `summary`. */
  datatype Prepared = Prepared(summary: Summary)

  /** How many campaigns `_top_campaigns` and `_bottom_campaigns` keep. */
  const RankedCount: nat := 5

  function Min(a: int, b: int): int {
    if a <= b then a else b
  }

  // ---------------------------------------------------------------------
  // Column sums (pandas "sum" aggregation)
  // ---------------------------------------------------------------------

  function TotalImpressions(rows: seq<Row>): int {
    if rows == [] then 0 else TotalImpressions(rows[..|rows| - 1]) + rows[|rows| - 1].impressions
  }

  function TotalClicks(rows: seq<Row>): int {
    if rows == [] then 0 else TotalClicks(rows[..|rows| - 1]) + rows[|rows| - 1].clicks
  }

  function TotalSpend(rows: seq<Row>): real {
    if rows == [] then 0.0 else TotalSpend(rows[..|rows| - 1]) + rows[|rows| - 1].spend
  }

  function TotalRevenue(rows: seq<Row>): real {
    if rows == [] then 0.0 else TotalRevenue(rows[..|rows| - 1]) + rows[|rows| - 1].revenue
  }

  // ---------------------------------------------------------------------
  // Groups
  // ---------------------------------------------------------------------

  function CampaignNames(rows: seq<Row>): seq<string> {
    seq(|rows|, i requires 0 <= i < |rows| => rows[i].campaign)
  }

  /** The group keys of `groupby("campaign_name")`, one per distinct campaign. */
  function Campaigns(rows: seq<Row>): seq<string> {
    Distinct(CampaignNames(rows))
  }

  /** The rows of one campaign's group. */
  function OfCampaign(rows: seq<Row>, name: string): (r: seq<Row>)
    ensures forall x :: x in r <==> x in rows && x.campaign == name
  {
    if rows == [] then []
    else
      var last := rows[|rows| - 1];
      assert rows == rows[..|rows| - 1] + [last];
      var kept := OfCampaign(rows[..|rows| - 1], name);
      if last.campaign == name then kept + [last] else kept
  }

  /** A campaign's group holds every copy of each of its rows, so duplicate rows count in its sums. */
  lemma {:induction false} OfCampaignCounts(rows: seq<Row>, name: string)
    ensures forall y :: multiset(OfCampaign(rows, name))[y] == if y.campaign == name then multiset(rows)[y] else 0
  {
    if rows != [] {
      var init := rows[..|rows| - 1];
      assert rows == init + [rows[|rows| - 1]];
      OfCampaignCounts(init, name);
    }
  }

  /** The dates `groupby("date")` groups on: every date present in a row (NaT rows are dropped). */
  function PresentDates(rows: seq<Row>): (r: seq<DateCell>)
    ensures forall d :: d in r <==> d != NaT && exists x :: x in rows && x.date == d
  {
    if rows == [] then []
    else
      var last := rows[|rows| - 1];
      assert rows == rows[..|rows| - 1] + [last];
      var kept := PresentDates(rows[..|rows| - 1]);
      if last.date != NaT then kept + [last.date] else kept
  }

  function TrendDates(rows: seq<Row>): seq<DateCell> {
    Distinct(PresentDates(rows))
  }

  /** The rows of one date's group. */
  function OnDate(rows: seq<Row>, d: DateCell): (r: seq<Row>)
    ensures forall x :: x in r <==> x in rows && x.date == d
  {
    if rows == [] then []
    else
      var last := rows[|rows| - 1];
      assert rows == rows[..|rows| - 1] + [last];
      var kept := OnDate(rows[..|rows| - 1], d);
      if last.date == d then kept + [last] else kept
  }

  /** A date's group holds every copy of each of its rows, so duplicate rows count in its sums. */
  lemma {:induction false} OnDateCounts(rows: seq<Row>, d: DateCell)
    ensures forall y :: multiset(OnDate(rows, d))[y] == if y.date == d then multiset(rows)[y] else 0
  {
    if rows != [] {
      var init := rows[..|rows| - 1];
      assert rows == init + [rows[|rows| - 1]];
      OnDateCounts(init, d);
    }
  }

  // ---------------------------------------------------------------------
  // _compute_roas_trend
  // ---------------------------------------------------------------------

  function TrendPointFor(rows: seq<Row>, d: DateCell): TrendPoint {
    var group := OnDate(rows, d);
    var spend := TotalSpend(group);
    var revenue := TotalRevenue(group);
    TrendPoint(d, spend, revenue, SafeDiv(revenue, Number(spend)))
  }

  function RoasTrend(rows: seq<Row>): seq<TrendPoint> {
    var ds := TrendDates(rows);
    seq(|ds|, i requires 0 <= i < |ds| => TrendPointFor(rows, ds[i]))
  }

  /** One trend record per distinct date present in the rows, holding that
      date's summed spend and revenue and their guarded ratio. */
  lemma RoasTrendSpec(rows: seq<Row>)
    ensures var trend := RoasTrend(rows);
            && (forall i, j :: 0 <= i < j < |trend| ==> trend[i].date != trend[j].date)
            && (forall p :: p in trend ==>
                  && p.date != NaT
                  && (exists x :: x in rows && x.date == p.date)
                  && p.spend == TotalSpend(OnDate(rows, p.date))
                  && p.revenue == TotalRevenue(OnDate(rows, p.date))
                  && p.roas == SafeDiv(p.revenue, Number(p.spend)))
            && (forall x :: x in rows && x.date != NaT ==> exists p :: p in trend && p.date == x.date)
  {
    var trend := RoasTrend(rows);
    var ds := TrendDates(rows);
    forall p | p in trend
      ensures p.date != NaT && (exists x :: x in rows && x.date == p.date)
    {
      var i :| 0 <= i < |trend| && trend[i] == p;
      assert ds[i] in PresentDates(rows);
    }
    forall x | x in rows && x.date != NaT
      ensures exists p :: p in trend && p.date == x.date
    {
      assert x.date in PresentDates(rows);
      var i :| 0 <= i < |ds| && ds[i] == x.date;
      assert trend[i] in trend;
    }
  }

  // ---------------------------------------------------------------------
  // _campaign_performance
  // ---------------------------------------------------------------------

  function CampaignRecord(rows: seq<Row>, name: string): CampaignStats {
    var group := OfCampaign(rows, name);
    var impressions := TotalImpressions(group);
    var clicks := TotalClicks(group);
    var spend := TotalSpend(group);
    var revenue := TotalRevenue(group);
    CampaignStats(name, impressions, clicks, spend, revenue,
                  SafeDiv(clicks as real, Number(impressions as real)),
                  SafeDiv(revenue, Number(spend)))
  }

  /** The grouped frame before the minimum-impressions filter. */
  function GroupByCampaign(rows: seq<Row>): seq<CampaignStats> {
    var ns := Campaigns(rows);
    seq(|ns|, i requires 0 <= i < |ns| => CampaignRecord(rows, ns[i]))
  }

  /** `grouped[grouped["impressions"] >= min_impressions]`. */
  function KeepLarge(stats: seq<CampaignStats>, minImpressions: int): (r: seq<CampaignStats>)
    ensures forall s :: s in r <==> s in stats && s.impressions >= minImpressions
  {
    if stats == [] then []
    else
      var last := stats[|stats| - 1];
      assert stats == stats[..|stats| - 1] + [last];
      var kept := KeepLarge(stats[..|stats| - 1], minImpressions);
      if last.impressions >= minImpressions then kept + [last] else kept
  }

  function CampaignPerformance(rows: seq<Row>, minImpressions: int): seq<CampaignStats> {
    KeepLarge(GroupByCampaign(rows), minImpressions)
  }

  predicate UniqueCampaigns(stats: seq<CampaignStats>) {
    forall i, j :: 0 <= i < j < |stats| ==> stats[i].campaign != stats[j].campaign
  }

  /** A campaign record is the sums over that campaign's rows, with CTR and ROAS
      computed from the sums. */
  predicate Aggregates(rows: seq<Row>, s: CampaignStats) {
    var group := OfCampaign(rows, s.campaign);
    && s.impressions == TotalImpressions(group)
    && s.clicks == TotalClicks(group)
    && s.spend == TotalSpend(group)
    && s.revenue == TotalRevenue(group)
    && s.ctr == SafeDiv(s.clicks as real, Number(s.impressions as real))
    && s.roas == SafeDiv(s.revenue, Number(s.spend))
  }

  lemma {:induction false} KeepLargeUnique(stats: seq<CampaignStats>, minImpressions: int)
    requires UniqueCampaigns(stats)
    ensures UniqueCampaigns(KeepLarge(stats, minImpressions))
  {
    if stats != [] {
      var init := stats[..|stats| - 1];
      var last := stats[|stats| - 1];
      KeepLargeUnique(init, minImpressions);
      var kept := KeepLarge(init, minImpressions);
      forall s | s in kept ensures s.campaign != last.campaign {
        var k :| 0 <= k < |init| && init[k] == s;
        assert stats[k] == s;
      }
    }
  }

  /** At most one record per campaign; a record is present exactly for the
      campaigns whose summed impressions reach the minimum; each record holds
      the sums and guarded ratios of its campaign. */
  lemma CampaignPerformanceSpec(rows: seq<Row>, minImpressions: int)
    ensures var perf := CampaignPerformance(rows, minImpressions);
            && UniqueCampaigns(perf)
            && (forall s :: s in perf ==>
                  s.campaign in CampaignNames(rows) && s.impressions >= minImpressions && Aggregates(rows, s))
            && (forall n :: n in CampaignNames(rows) && TotalImpressions(OfCampaign(rows, n)) >= minImpressions
                  ==> CampaignRecord(rows, n) in perf)
  {
    var grouped := GroupByCampaign(rows);
    var ns := Campaigns(rows);
    assert UniqueCampaigns(grouped);
    KeepLargeUnique(grouped, minImpressions);
    forall n | n in CampaignNames(rows) && TotalImpressions(OfCampaign(rows, n)) >= minImpressions
      ensures CampaignRecord(rows, n) in CampaignPerformance(rows, minImpressions)
    {
      var i :| 0 <= i < |ns| && ns[i] == n;
      assert grouped[i] == CampaignRecord(rows, n);
    }
  }

  // ---------------------------------------------------------------------
  // _top_campaigns and _bottom_campaigns
  // ---------------------------------------------------------------------

  /** `x` may precede `y` in `sorted(..., key=roas, reverse=descending)`. */
  predicate Before(x: CampaignStats, y: CampaignStats, descending: bool) {
    if descending then x.roas >= y.roas else x.roas <= y.roas
  }

  predicate SortedBy(s: seq<CampaignStats>, descending: bool) {
    forall i, j :: 0 <= i < j < |s| ==> Before(s[i], s[j], descending)
  }

  /** Inserts `x` before the first element it may precede, so that equal keys keep their order. */
  function Insert(x: CampaignStats, t: seq<CampaignStats>, descending: bool): (r: seq<CampaignStats>)
    ensures |r| == |t| + 1
    ensures multiset(r) == multiset(t) + multiset{x}
  {
    if t == [] || Before(x, t[0], descending) then [x] + t
    else
      assert t == [t[0]] + t[1..];
      [t[0]] + Insert(x, t[1..], descending)
  }

  lemma {:induction false} InsertSorted(x: CampaignStats, t: seq<CampaignStats>, descending: bool)
    requires SortedBy(t, descending)
    ensures SortedBy(Insert(x, t, descending), descending)
  {
    if t != [] && !Before(x, t[0], descending) {
      var rest := Insert(x, t[1..], descending);
      InsertSorted(x, t[1..], descending);
      var r := Insert(x, t, descending);
      assert r == [t[0]] + rest;
      forall j | 1 <= j < |r| ensures Before(t[0], r[j], descending) {
        assert r[j] == rest[j - 1];
        assert rest[j - 1] in multiset(rest);
        assert rest[j - 1] == x || rest[j - 1] in multiset(t[1..]);
      }
    }
  }

  /** Python's stable `sorted` by ROAS, ascending or descending. */
  function SortByRoas(s: seq<CampaignStats>, descending: bool): (r: seq<CampaignStats>)
    ensures |r| == |s|
    ensures multiset(r) == multiset(s)
    ensures SortedBy(r, descending)
  {
    if s == [] then []
    else
      assert s == [s[0]] + s[1..];
      var sortedTail := SortByRoas(s[1..], descending);
      InsertSorted(s[0], sortedTail, descending);
      Insert(s[0], sortedTail, descending)
  }

  /** `sorted(perf, key=roas, reverse=descending)[:5]`. */
  function Extremes(perf: seq<CampaignStats>, descending: bool): seq<CampaignStats> {
    SortByRoas(perf, descending)[..Min(RankedCount, |perf|)]
  }

  function TopCampaigns(rows: seq<Row>, minImpressions: int): seq<CampaignStats> {
    Extremes(CampaignPerformance(rows, minImpressions), true)
  }

  function BottomCampaigns(rows: seq<Row>, minImpressions: int): seq<CampaignStats> {
    Extremes(CampaignPerformance(rows, minImpressions), false)
  }

  /** The first `min(5, |perf|)` records in ROAS order, drawn from `perf`, and
      every record left out ranks no higher than every record kept. */
  lemma {:induction false} ExtremesSpec(perf: seq<CampaignStats>, descending: bool)
    ensures var r := Extremes(perf, descending);
            && |r| == Min(RankedCount, |perf|)
            && SortedBy(r, descending)
            && multiset(r) <= multiset(perf)
            && (forall x, y :: x in multiset(perf) - multiset(r) && y in r ==> Before(y, x, descending))
  {
    var sorted := SortByRoas(perf, descending);
    SortedPrefix(sorted, Min(RankedCount, |perf|), descending);
  }

  /** A prefix of a sorted sequence is sorted, and nothing left after it ranks
      above anything in it. */
  lemma {:induction false} SortedPrefix(s: seq<CampaignStats>, k: nat, descending: bool)
    requires SortedBy(s, descending)
    requires k <= |s|
    ensures SortedBy(s[..k], descending)
    ensures multiset(s[..k]) <= multiset(s)
    ensures forall x, y :: x in multiset(s) - multiset(s[..k]) && y in s[..k] ==> Before(y, x, descending)
  {
    var r, rest := s[..k], s[k..];
    assert s == r + rest;
    assert multiset(s) == multiset(r) + multiset(rest);
    forall x, y | x in multiset(s) - multiset(r) && y in r
      ensures Before(y, x, descending)
    {
      assert x in rest;
      var j :| 0 <= j < |rest| && rest[j] == x;
      var i :| 0 <= i < |r| && r[i] == y;
      assert s[i] == y && s[k + j] == x;
    }
  }

  /** `_top_campaigns`: `min(5, |perf|)` records of non-increasing ROAS, drawn
      from the campaign performance, none of the others having a higher ROAS. */
  lemma TopCampaignsSpec(rows: seq<Row>, minImpressions: int)
    ensures var perf := CampaignPerformance(rows, minImpressions);
            var top := TopCampaigns(rows, minImpressions);
            && |top| == Min(RankedCount, |perf|)
            && (forall i, j :: 0 <= i < j < |top| ==> top[i].roas >= top[j].roas)
            && multiset(top) <= multiset(perf)
            && (forall x, y :: x in multiset(perf) - multiset(top) && y in top ==> x.roas <= y.roas)
  {
    ExtremesSpec(CampaignPerformance(rows, minImpressions), true);
  }

  /** `_bottom_campaigns`: `min(5, |perf|)` records of non-decreasing ROAS, drawn
      from the campaign performance, none of the others having a lower ROAS. */
  lemma BottomCampaignsSpec(rows: seq<Row>, minImpressions: int)
    ensures var perf := CampaignPerformance(rows, minImpressions);
            var bottom := BottomCampaigns(rows, minImpressions);
            && |bottom| == Min(RankedCount, |perf|)
            && (forall i, j :: 0 <= i < j < |bottom| ==> bottom[i].roas <= bottom[j].roas)
            && multiset(bottom) <= multiset(perf)
            && (forall x, y :: x in multiset(perf) - multiset(bottom) && y in bottom ==> x.roas >= y.roas)
  {
    ExtremesSpec(CampaignPerformance(rows, minImpressions), false);
  }

  // ---------------------------------------------------------------------
  // _spend_distribution
  // ---------------------------------------------------------------------

  function CampaignSpend(rows: seq<Row>, name: string): real {
    TotalSpend(OfCampaign(rows, name))
  }

  /** The sum of the grouped spend Series over the keys `ns`. */
  function SpendOver(rows: seq<Row>, ns: seq<string>): real {
    if ns == [] then 0.0 else SpendOver(rows, ns[..|ns| - 1]) + CampaignSpend(rows, ns[|ns| - 1])
  }

  function ShareOf(v: real, total: real): real {
    if total > 0.0 then v / total * 100.0 else 0.0
  }

  function SpendDistribution(rows: seq<Row>): seq<SpendShare> {
    var ns := Campaigns(rows);
    var total := SpendOver(rows, ns);
    seq(|ns|, i requires 0 <= i < |ns| =>
          SpendShare(ns[i], CampaignSpend(rows, ns[i]), ShareOf(CampaignSpend(rows, ns[i]), total)))
  }

  function SumSpends(d: seq<SpendShare>): real {
    if d == [] then 0.0 else SumSpends(d[..|d| - 1]) + d[|d| - 1].spend
  }

  function SumShares(d: seq<SpendShare>): real {
    if d == [] then 0.0 else SumShares(d[..|d| - 1]) + d[|d| - 1].sharePct
  }

  /** Adding one row to the frame adds its spend to the grouped total, once, if its campaign is a key. */
  lemma {:induction false} SpendOverAddRow(rows: seq<Row>, x: Row, ns: seq<string>)
    requires NoDuplicates(ns)
    ensures SpendOver(rows + [x], ns) == SpendOver(rows, ns) + (if x.campaign in ns then x.spend else 0.0)
  {
    if ns != [] {
      var init := ns[..|ns| - 1];
      var n := ns[|ns| - 1];
      assert ns == init + [n];
      assert NoDuplicates(init);
      SpendOverAddRow(rows, x, init);
      assert (rows + [x])[..|rows|] == rows;
      assert OfCampaign(rows + [x], n) == if x.campaign == n then OfCampaign(rows, n) + [x] else OfCampaign(rows, n);
      assert CampaignSpend(rows + [x], n) == CampaignSpend(rows, n) + (if x.campaign == n then x.spend else 0.0);
    }
  }

  /** Summing the per-campaign spends over a duplicate-free key list that covers
      every row's campaign gives the total spend of the rows. */
  lemma {:induction false} SpendOverIsTotal(rows: seq<Row>, ns: seq<string>)
    requires NoDuplicates(ns)
    requires forall x :: x in rows ==> x.campaign in ns
    ensures SpendOver(rows, ns) == TotalSpend(rows)
  {
    if rows == [] {
      SpendOverEmpty(ns);
    } else {
      var init := rows[..|rows| - 1];
      var x := rows[|rows| - 1];
      assert rows == init + [x];
      SpendOverIsTotal(init, ns);
      SpendOverAddRow(init, x, ns);
    }
  }

  lemma {:induction false} SpendOverEmpty(ns: seq<string>)
    ensures SpendOver([], ns) == 0.0
  {
    if ns != [] {
      SpendOverEmpty(ns[..|ns| - 1]);
    }
  }

  lemma {:induction false} SumSpendsPrefix(rows: seq<Row>, k: nat)
    requires k <= |SpendDistribution(rows)|
    ensures SumSpends(SpendDistribution(rows)[..k]) == SpendOver(rows, Campaigns(rows)[..k])
  {
    var d := SpendDistribution(rows);
    var ns := Campaigns(rows);
    if k > 0 {
      SumSpendsPrefix(rows, k - 1);
      assert d[..k][..k - 1] == d[..k - 1];
      assert ns[..k][..k - 1] == ns[..k - 1];
    }
  }

  lemma {:induction false} SumSharesPrefix(d: seq<SpendShare>, total: real, k: nat)
    requires total > 0.0
    requires k <= |d|
    requires forall i :: 0 <= i < |d| ==> d[i].sharePct == d[i].spend / total * 100.0
    ensures SumShares(d[..k]) == SumSpends(d[..k]) / total * 100.0
  {
    if k > 0 {
      SumSharesPrefix(d, total, k - 1);
      assert d[..k][..k - 1] == d[..k - 1];
      var a := SumSpends(d[..k - 1]);
      var v := d[k - 1].spend;
      assert (a + v) / total * 100.0 == a / total * 100.0 + v / total * 100.0;
    }
  }

  /** The entries of the distribution: one per distinct campaign of the rows,
      holding its summed spend. */
  lemma SpendDistributionEntries(rows: seq<Row>)
    ensures var d := SpendDistribution(rows);
            && (forall i, j :: 0 <= i < j < |d| ==> d[i].campaign != d[j].campaign)
            && (forall s :: s in d ==> s.campaign in CampaignNames(rows) && s.spend == CampaignSpend(rows, s.campaign))
            && (forall n :: n in CampaignNames(rows) ==> exists s :: s in d && s.campaign == n)
  {
    var d := SpendDistribution(rows);
    var ns := Campaigns(rows);
    forall s | s in d ensures s.campaign in CampaignNames(rows) && s.spend == CampaignSpend(rows, s.campaign) {
      var i :| 0 <= i < |d| && d[i] == s;
      assert ns[i] in ns;
    }
    forall n | n in CampaignNames(rows) ensures exists s :: s in d && s.campaign == n {
      var i :| 0 <= i < |ns| && ns[i] == n;
      assert d[i] in d;
    }
  }

  /** The total the shares are taken of is the total spend of all rows. */
  lemma {:induction false} SpendDistributionTotal(rows: seq<Row>)
    ensures SpendOver(rows, Campaigns(rows)) == TotalSpend(rows)
    ensures SumSpends(SpendDistribution(rows)) == TotalSpend(rows)
  {
    var d := SpendDistribution(rows);
    var ns := Campaigns(rows);
    forall x | x in rows ensures x.campaign in ns {
      var i :| 0 <= i < |rows| && rows[i] == x;
      assert CampaignNames(rows)[i] == x.campaign;
    }
    SpendOverIsTotal(rows, ns);
    SumSpendsPrefix(rows, |d|);
    assert d[..|d|] == d;
    assert ns[..|ns|] == ns;
  }

  /** Each share is spend/total*100 when the total spend is positive and 0 otherwise. */
  lemma SpendDistributionShares(rows: seq<Row>)
    ensures var total := TotalSpend(rows);
            forall s :: s in SpendDistribution(rows) ==>
              s.sharePct == if total > 0.0 then s.spend / total * 100.0 else 0.0
  {
    SpendDistributionTotal(rows);
  }

  lemma {:induction false} SharesOfTotalSumTo100(d: seq<SpendShare>, total: real)
    requires total > 0.0
    requires SumSpends(d) == total
    requires forall i :: 0 <= i < |d| ==> d[i].sharePct == d[i].spend / total * 100.0
    ensures SumShares(d) == 100.0
  {
    SumSharesPrefix(d, total, |d|);
    assert d[..|d|] == d;
    assert total / total == 1.0;
  }

  /** Over exact reals, a positive total spend gives shares that add up to 100. */
  lemma SpendSharesSumTo100(rows: seq<Row>)
    requires TotalSpend(rows) > 0.0
    ensures SumShares(SpendDistribution(rows)) == 100.0
  {
    var d := SpendDistribution(rows);
    var total := TotalSpend(rows);
    SpendDistributionTotal(rows);
    forall i | 0 <= i < |d| ensures d[i].sharePct == d[i].spend / total * 100.0 {
      assert d[i].sharePct == ShareOf(d[i].spend, SpendOver(rows, Campaigns(rows)));
    }
    SharesOfTotalSumTo100(d, total);
  }

  // ---------------------------------------------------------------------
  // load_and_prepare
  // ---------------------------------------------------------------------

  function Summarize(rows: seq<Row>, minImpressions: int): Summary {
    Summary(RoasTrend(rows),
            CampaignPerformance(rows, minImpressions),
            TopCampaigns(rows, minImpressions),
            BottomCampaigns(rows, minImpressions),
            SpendDistribution(rows))
  }

  /** `load_and_prepare(days)`: reads the configured dataset (raising when the
      path does not exist), keeps the trailing window and summarises it. */
  function LoadAndPrepare(config: Config, files: map<string, seq<Row>>, parse: string -> Option<int>,
                          now: int, days: int): (r: Result<Prepared, Exception>)
    ensures r.Ok? <==> DatasetPath(config.data) in files
    ensures r.Err? ==> r.error == FileNotFoundError(DatasetPath(config.data))
    ensures r.Ok? ==>
              r.value.summary == Summarize(LastNDays(files[DatasetPath(config.data)], days, now, parse), config.data.minImpressions)
  {
    var raw :- ReadDataset(config, files);
    Ok(Prepared(Summarize(LastNDays(raw, days, now, parse), config.data.minImpressions)))
  }

  /** The cross-field invariants of a summary: the ranked lists are drawn from
      the campaign performance, are ordered by ROAS and have the right length. */
  predicate WellFormed(s: Summary) {
    var perf := s.campaignPerformance;
    && UniqueCampaigns(perf)
    && |s.topCampaigns| == Min(RankedCount, |perf|)
    && |s.bottomCampaigns| == Min(RankedCount, |perf|)
    && multiset(s.topCampaigns) <= multiset(perf)
    && multiset(s.bottomCampaigns) <= multiset(perf)
    && SortedBy(s.topCampaigns, true)
    && SortedBy(s.bottomCampaigns, false)
    && (forall i, j :: 0 <= i < j < |s.roasTrend| ==> s.roasTrend[i].date != s.roasTrend[j].date)
    && (forall i, j :: 0 <= i < j < |s.spendDistribution| ==>
          s.spendDistribution[i].campaign != s.spendDistribution[j].campaign)
  }

  lemma SummarizeWellFormed(rows: seq<Row>, minImpressions: int)
    ensures WellFormed(Summarize(rows, minImpressions))
  {
    CampaignPerformanceSpec(rows, minImpressions);
    ExtremesSpec(CampaignPerformance(rows, minImpressions), true);
    ExtremesSpec(CampaignPerformance(rows, minImpressions), false);
    RoasTrendSpec(rows);
    SpendDistributionEntries(rows);
  }
}
