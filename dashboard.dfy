/**
 * The executive dashboard (app.py): the channel filter, the blended
 * metrics, the daily and per-channel group-bys, and the budget simulator's
 * linear revenue projection.
 */
module Dashboard {
  import opened Records
  import opened Aggregate

  /**
   * The sidebar channel filter: no channel selected shows every row; a
   * selection keeps exactly the rows of the selected channels, in order.
   */
  function FilterChannels(df: seq<Record>, channels: seq<string>): (filtered: seq<Record>)
    ensures channels == [] ==> filtered == df
    ensures channels != [] ==> IsSubsequence(filtered, df)
    ensures channels != [] ==>
      forall x :: multiset(filtered)[x] == if x.channel in channels then multiset(df)[x] else 0
  {
    SelectIn(df, channels, ChannelOf)
  }

  /** The widget's default, every distinct channel, shows the same rows as no selection. */
  lemma DefaultSelectionIsAll(df: seq<Record>)
    ensures FilterChannels(df, DistinctChannels(df)) == FilterChannels(df, [])
  {
    SelectCovering(df, DistinctChannels(df), ChannelOf);
  }

  /** Revenue per unit of spend over all filtered rows; 0 when nothing was spent. */
  function BlendedRoas(t: Totals): (roas: real)
    ensures t.spend > 0.0 ==> roas * t.spend == t.revenue
    ensures t.spend <= 0.0 ==> roas == 0.0
  {
    if t.spend > 0.0 then t.revenue / t.spend else 0.0
  }

  /** Spend per conversion over all filtered rows; 0 when there were no conversions. */
  function BlendedCpa(t: Totals): (cpa: real)
    ensures t.conversions > 0 ==> cpa * t.conversions as real == t.spend
    ensures t.conversions <= 0 ==> cpa == 0.0
  {
    if t.conversions > 0 then t.spend / t.conversions as real else 0.0
  }

  /** The four headline metrics of the executive summary. */
  datatype Summary = Summary(totalSpend: real, totalRevenue: real, totalConversions: int, roas: real, cpa: real)

  /**
   * The headline metrics: the three column sums of the filtered rows, and
   * blended ROAS and CPA, each 0 where its denominator is not positive.
   */
  function ExecutiveSummary(filtered: seq<Record>): (s: Summary)
    ensures var t := TotalsOf(filtered);
      s.totalSpend == t.spend && s.totalRevenue == t.revenue && s.totalConversions == t.conversions
    ensures s.totalSpend > 0.0 ==> s.roas * s.totalSpend == s.totalRevenue
    ensures s.totalSpend <= 0.0 ==> s.roas == 0.0
    ensures s.totalConversions > 0 ==> s.cpa * s.totalConversions as real == s.totalSpend
    ensures s.totalConversions <= 0 ==> s.cpa == 0.0
  {
    var t := TotalsOf(filtered);
    Summary(t.spend, t.revenue, t.conversions, BlendedRoas(t), BlendedCpa(t))
  }

  /** On rows with non-negative measures every headline metric is non-negative. */
  lemma SummaryNonNegative(filtered: seq<Record>)
    requires NonNegative(filtered)
    ensures var s := ExecutiveSummary(filtered);
      s.totalSpend >= 0.0 && s.totalRevenue >= 0.0 && s.totalConversions >= 0 &&
      s.roas >= 0.0 && s.cpa >= 0.0
  {
    var t := TotalsOf(filtered);
    if t.spend > 0.0 {
      QuotientNonNegative(t.revenue, t.spend);
    }
    if t.conversions > 0 {
      QuotientNonNegative(t.spend, t.conversions as real);
    }
  }

  lemma QuotientNonNegative(a: real, b: real)
    requires a >= 0.0 && b > 0.0
    ensures a / b >= 0.0
  {
  }

  /** Spend and revenue per date, one group per date shown. */
  function DailyTrend(filtered: seq<Record>): (daily: seq<Group<string>>)
    ensures DistinctKeys(daily)
    ensures KeysOf(daily) == RowKeys(filtered, DateOf)
    ensures forall i :: 0 <= i < |daily| ==>
      daily[i].totals == TotalsOf(RowsOf(filtered, DateOf, daily[i].key))
    ensures SumGroups(daily).spend == ExecutiveSummary(filtered).totalSpend
    ensures SumGroups(daily).revenue == ExecutiveSummary(filtered).totalRevenue
  {
    GroupBy(filtered, DateOf)
  }

  /** Spend, revenue and conversions per channel, one group per channel shown. */
  function ChannelTotals(filtered: seq<Record>): (perChannel: seq<Group<string>>)
    ensures DistinctKeys(perChannel)
    ensures KeysOf(perChannel) == RowKeys(filtered, ChannelOf)
    ensures forall i :: 0 <= i < |perChannel| ==>
      perChannel[i].totals == TotalsOf(RowsOf(filtered, ChannelOf, perChannel[i].key))
    ensures SumGroups(perChannel).spend == ExecutiveSummary(filtered).totalSpend
    ensures SumGroups(perChannel).revenue == ExecutiveSummary(filtered).totalRevenue
    ensures SumGroups(perChannel).conversions == ExecutiveSummary(filtered).totalConversions
  {
    GroupBy(filtered, ChannelOf)
  }

  /**
   * The channel performance table: the per-channel sums, to which the ROAS
   * and CPA columns are then added in place, without a zero guard.
   */
  method ChannelPerformance(filtered: seq<Record>) returns (perf: RatioTable<string>)
    ensures fresh(perf)
    ensures perf.groups == ChannelTotals(filtered)
    ensures |perf.roas| == |perf.groups| && |perf.cpa| == |perf.groups|
    ensures forall i :: 0 <= i < |perf.groups| ==>
      perf.roas[i] == GroupRoas(perf.groups[i]) && perf.cpa[i] == GroupCpa(perf.groups[i])
  {
    perf := new RatioTable(ChannelTotals(filtered));
    perf.AssignRoas();
    perf.AssignCpa();
  }

  /**
   * `set_index(key)[column].to_dict()`: each key mapped to its column value.
   * A ratio pandas would compute as inf or NaN is None.
   */
  function ToDict(groups: seq<Group<string>>, column: seq<Option<real>>): (m: map<string, Option<real>>)
    requires |column| == |groups|
    ensures forall k :: k in m <==> exists i :: 0 <= i < |groups| && groups[i].key == k
    ensures DistinctKeys(groups) ==> forall i :: 0 <= i < |groups| ==> m[groups[i].key] == column[i]
  {
    if groups == [] then map[]
    else
      var n := |groups| - 1;
      var m := ToDict(groups[..n], column[..n]);
      assert forall i :: 0 <= i < n ==> groups[..n][i] == groups[i];
      m[groups[n].key := column[n]]
  }

  /** The three slider values of the budget simulator. */
  datatype Budget = Budget(google: int, facebook: int, tiktok: int)

  /** The budget the projection is compared against. */
  const Baseline := Budget(15000, 10000, 5000)

  /** The revenue goal of the progress bar. */
  const RevenueGoal := 200000.0

  /** `roas_map.get(channel, 0)` */
  function Get(roasMap: map<string, Option<real>>, channel: string): (roas: Option<real>)
    ensures channel in roasMap ==> roas == roasMap[channel]
    ensures channel !in roasMap ==> roas == Some(0.0)
  {
    if channel in roasMap then roasMap[channel] else Some(0.0)
  }

  /** `budget * roas`; None where the ratio was inf or NaN. */
  function Times(budget: int, roas: Option<real>): Option<real> {
    if roas.Some? then Some(budget as real * roas.value) else None
  }

  /** Sum of budget * ROAS over the three paid channels; None if any ROAS is undefined. */
  function Projected(roasMap: map<string, Option<real>>, b: Budget): (total: Option<real>)
    ensures total.Some? <==> ProjectionDefined(roasMap)
    ensures total.Some? ==> total.value == Revenue(b, RatesOf(roasMap))
  {
    var g := Times(b.google, Get(roasMap, "Google Search"));
    var f := Times(b.facebook, Get(roasMap, "Facebook Ads"));
    var t := Times(b.tiktok, Get(roasMap, "TikTok Ads"));
    if g.Some? && f.Some? && t.Some? then Some(g.value + f.value + t.value) else None
  }

  /** Every ROAS the projection reads is defined (a finite number in pandas). */
  predicate ProjectionDefined(roasMap: map<string, Option<real>>) {
    Get(roasMap, "Google Search").Some? && Get(roasMap, "Facebook Ads").Some? && Get(roasMap, "TikTok Ads").Some?
  }

  /** `min(1.0, total_pred_rev / 200000)`, the progress bar value. */
  function ClampedProgress(totalPredRev: real): (progress: real)
    ensures progress <= 1.0
    ensures totalPredRev <= RevenueGoal ==> progress == totalPredRev / RevenueGoal
    ensures totalPredRev >= RevenueGoal ==> progress == 1.0
  {
    if 1.0 <= totalPredRev / RevenueGoal then 1.0 else totalPredRev / RevenueGoal
  }

  /** The simulator's outputs. */
  datatype Projection = Projection(
    totalPredRev: real,
    totalNewBudget: int,
    currentRevEst: real,
    deltaRev: real,
    progress: real)

  /** The ROAS of the three paid channels as the simulator reads them. */
  datatype Rates = Rates(google: real, facebook: real, tiktok: real)

  function RatesOf(roasMap: map<string, Option<real>>): Rates
    requires ProjectionDefined(roasMap)
  {
    Rates(Get(roasMap, "Google Search").value, Get(roasMap, "Facebook Ads").value, Get(roasMap, "TikTok Ads").value)
  }

  /** Linear revenue of a budget split at the given rates. */
  function Revenue(b: Budget, r: Rates): real {
    b.google as real * r.google + b.facebook as real * r.facebook + b.tiktok as real * r.tiktok
  }

  /** Channel by channel difference of two budgets. */
  function Change(b: Budget, from: Budget): Budget {
    Budget(b.google - from.google, b.facebook - from.facebook, b.tiktok - from.tiktok)
  }

  /**
   * The budget simulator: projected revenue at the chosen budgets and at
   * the baseline budgets, their difference, and the progress bar value.
   */
  function Simulate(roasMap: map<string, Option<real>>, b: Budget): (p: Option<Projection>)
    ensures p.Some? <==> ProjectionDefined(roasMap)
    ensures p.Some? ==>
      p.value.totalPredRev == Revenue(b, RatesOf(roasMap)) &&
      p.value.currentRevEst == Revenue(Baseline, RatesOf(roasMap)) &&
      p.value.deltaRev == Revenue(Change(b, Baseline), RatesOf(roasMap)) &&
      p.value.totalNewBudget == b.google + b.facebook + b.tiktok
    ensures p.Some? ==> p.value.progress <= 1.0
    ensures p.Some? && p.value.totalPredRev <= RevenueGoal ==> p.value.progress == p.value.totalPredRev / RevenueGoal
    ensures p.Some? && p.value.totalPredRev >= RevenueGoal ==> p.value.progress == 1.0
  {
    var total := Projected(roasMap, b);
    var current := Projected(roasMap, Baseline);
    if total.Some? && current.Some? then
      RevenueLinear(b, Baseline, RatesOf(roasMap));
      Some(Projection(total.value, b.google + b.facebook + b.tiktok, current.value,
                      total.value - current.value, ClampedProgress(total.value)))
    else
      None
  }

  /** The projection is linear in the budget: a difference of projections is the projection of the difference. */
  lemma RevenueLinear(b: Budget, c: Budget, r: Rates)
    ensures Revenue(b, r) - Revenue(c, r) == Revenue(Change(b, c), r)
  {
    ScaleDifference(b.google, c.google, r.google);
    ScaleDifference(b.facebook, c.facebook, r.facebook);
    ScaleDifference(b.tiktok, c.tiktok, r.tiktok);
  }

  lemma ScaleDifference(x: int, y: int, r: real)
    ensures x as real * r - y as real * r == (x - y) as real * r
  {
  }

  /** At the baseline budgets the projection shows no change against the baseline. */
  lemma BaselineHasNoDelta(roasMap: map<string, Option<real>>)
    requires ProjectionDefined(roasMap)
    ensures Simulate(roasMap, Baseline).Some?
    ensures Simulate(roasMap, Baseline).value.deltaRev == 0.0
  {
  }

  /** The three channels that have a budget slider. */
  const PaidChannels := ["Google Search", "Facebook Ads", "TikTok Ads"]

  /** The budget with the slider of `channel` moved to `amount`. */
  function WithBudget(b: Budget, channel: string, amount: int): Budget
    requires channel in PaidChannels
  {
    if channel == "Google Search" then b.(google := amount)
    else if channel == "Facebook Ads" then b.(facebook := amount)
    else b.(tiktok := amount)
  }

  /** A channel missing from the ROAS map contributes nothing, whatever its budget. */
  lemma MissingChannelIgnored(roasMap: map<string, Option<real>>, b: Budget, channel: string, amount: int)
    requires channel in PaidChannels && channel !in roasMap
    ensures Simulate(roasMap, WithBudget(b, channel, amount)).Some? == Simulate(roasMap, b).Some?
    ensures Simulate(roasMap, b).Some? ==>
      Simulate(roasMap, WithBudget(b, channel, amount)).value.totalPredRev == Simulate(roasMap, b).value.totalPredRev
  {
    var c := WithBudget(b, channel, amount);
    if ProjectionDefined(roasMap) {
      var r := RatesOf(roasMap);
      if channel == "Google Search" {
        assert r.google == 0.0;
      } else if channel == "Facebook Ads" {
        assert r.facebook == 0.0;
      } else {
        assert r.tiktok == 0.0;
      }
      assert Revenue(c, r) == Revenue(b, r);
    }
  }

  /** With non-negative ROAS everywhere, raising any budget never lowers the projection. */
  lemma ProjectionMonotone(roasMap: map<string, Option<real>>, b: Budget, c: Budget)
    requires ProjectionDefined(roasMap)
    requires var r := RatesOf(roasMap); r.google >= 0.0 && r.facebook >= 0.0 && r.tiktok >= 0.0
    requires b.google <= c.google && b.facebook <= c.facebook && b.tiktok <= c.tiktok
    ensures Simulate(roasMap, b).value.totalPredRev <= Simulate(roasMap, c).value.totalPredRev
  {
    var r := RatesOf(roasMap);
    assert Simulate(roasMap, b).value.totalPredRev == Revenue(b, r);
    assert Simulate(roasMap, c).value.totalPredRev == Revenue(c, r);
    RevenueMonotone(b, c, r);
  }

  /** At non-negative rates, projected revenue grows with every budget. */
  lemma RevenueMonotone(b: Budget, c: Budget, r: Rates)
    requires r.google >= 0.0 && r.facebook >= 0.0 && r.tiktok >= 0.0
    requires b.google <= c.google && b.facebook <= c.facebook && b.tiktok <= c.tiktok
    ensures Revenue(b, r) <= Revenue(c, r)
  {
    ScaleMonotone(b.google, c.google, r.google);
    ScaleMonotone(b.facebook, c.facebook, r.facebook);
    ScaleMonotone(b.tiktok, c.tiktok, r.tiktok);
  }

  lemma ScaleMonotone(x: int, y: int, r: real)
    requires x <= y && r >= 0.0
    ensures x as real * r <= y as real * r
  {
    ScaleDifference(y, x, r);
  }

  /** The keys of `to_dict()` are the keys of the table. */
  lemma ToDictKeys(groups: seq<Group<string>>, column: seq<Option<real>>)
    requires |column| == |groups|
    ensures ToDict(groups, column).Keys == KeysOf(groups)
  {
    forall k ensures k in ToDict(groups, column) <==> k in KeysOf(groups) {
      KeysOfIndex(groups, k);
    }
  }

  /**
   * The ROAS map read by the simulator, built from the channel performance
   * table: it has an entry for exactly the channels present after filtering.
   */
  function RoasMap(filtered: seq<Record>): (m: map<string, Option<real>>)
    ensures m.Keys == RowKeys(filtered, ChannelOf)
    ensures var perf := ChannelTotals(filtered);
      forall i :: 0 <= i < |perf| ==> perf[i].key in m && m[perf[i].key] == GroupRoas(perf[i])
  {
    var perf := ChannelTotals(filtered);
    var m := ToDict(perf, RoasColumn(perf));
    ToDictKeys(perf, RoasColumn(perf));
    m
  }

  /** A channel left out of a non-empty selection adds nothing to the projection. */
  lemma DeselectedChannelIgnored(df: seq<Record>, channels: seq<string>, b: Budget, channel: string, amount: int)
    requires channel in PaidChannels && channels != [] && channel !in channels
    ensures var m := RoasMap(FilterChannels(df, channels));
      Simulate(m, WithBudget(b, channel, amount)).Some? == Simulate(m, b).Some?
    ensures var m := RoasMap(FilterChannels(df, channels));
      Simulate(m, b).Some? ==>
        Simulate(m, WithBudget(b, channel, amount)).value.totalPredRev == Simulate(m, b).value.totalPredRev
  {
    var filtered := FilterChannels(df, channels);
    var m := RoasMap(filtered);
    forall r | r in filtered ensures r.channel != channel {
      assert multiset(filtered)[r] > 0;
    }
    MissingChannelIgnored(m, b, channel, amount);
  }

  /**
   * The whole page for one choice of channels and budgets: filter, headline
   * metrics, daily trend, channel table with its ratio columns, and the
   * simulator fed from that table.
   */
  method Overview(df: seq<Record>, channels: seq<string>, b: Budget)
    returns (summary: Summary, daily: seq<Group<string>>, perf: RatioTable<string>, projection: Option<Projection>)
    ensures summary == ExecutiveSummary(FilterChannels(df, channels))
    ensures daily == DailyTrend(FilterChannels(df, channels))
    ensures fresh(perf) && perf.groups == ChannelTotals(FilterChannels(df, channels))
    ensures |perf.roas| == |perf.groups| && |perf.cpa| == |perf.groups|
    ensures forall i :: 0 <= i < |perf.groups| ==>
      perf.roas[i] == GroupRoas(perf.groups[i]) && perf.cpa[i] == GroupCpa(perf.groups[i])
    ensures projection == Simulate(ToDict(perf.groups, perf.roas), b)
    ensures projection == Simulate(RoasMap(FilterChannels(df, channels)), b)
  {
    var filtered := FilterChannels(df, channels);
    summary := ExecutiveSummary(filtered);
    daily := DailyTrend(filtered);
    perf := ChannelPerformance(filtered);
    var roasMap := ToDict(perf.groups, perf.roas);
    assert roasMap == RoasMap(filtered) by {
      RoasMapFromTable(filtered, perf.roas);
    }
    projection := Simulate(roasMap, b);
  }

  /** Reading the ROAS column back from the table gives the ROAS map. */
  lemma RoasMapFromTable(filtered: seq<Record>, roas: seq<Option<real>>)
    requires |roas| == |ChannelTotals(filtered)|
    requires forall i :: 0 <= i < |roas| ==> roas[i] == GroupRoas(ChannelTotals(filtered)[i])
    ensures ToDict(ChannelTotals(filtered), roas) == RoasMap(filtered)
  {
    var perf := ChannelTotals(filtered);
    assert roas == RoasColumn(perf);
  }
}
