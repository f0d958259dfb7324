/**
 * The campaign deep-dive page: sums per (campaign name, channel), the ROAS
 * and CPA columns added to that table in place, and the two top-5 tables.
 */
module CampaignDeepDive {
  import opened Records
  import opened Aggregate
  import opened Ranking

  /** The group key of the page: campaign name and channel together. */
  datatype CampaignKey = CampaignKey(campaignName: string, channel: string)

  function CampaignKeyOf(r: Record): CampaignKey {
    CampaignKey(r.campaignName, r.channel)
  }

  /** The number of rows each ranking table shows. */
  const TopCount := 5

  /**
   * Spend, revenue, conversions and impressions summed per (campaign name,
   * channel): one group for each pair present, each holding the sums over
   * exactly its rows, the groups together summing to the grand totals.
   */
  function CampaignAgg(df: seq<Record>): (agg: seq<Group<CampaignKey>>)
    ensures DistinctKeys(agg)
    ensures KeysOf(agg) == RowKeys(df, CampaignKeyOf)
    ensures forall i :: 0 <= i < |agg| ==>
      agg[i].totals == TotalsOf(RowsOf(df, CampaignKeyOf, agg[i].key))
    ensures SumGroups(agg) == TotalsOf(df)
  {
    GroupBy(df, CampaignKeyOf)
  }

  /** Every group spent something, so its ROAS is a number. */
  ghost predicate AllSpent(agg: seq<Group<CampaignKey>>) {
    forall i :: 0 <= i < |agg| ==> agg[i].totals.spend != 0.0
  }

  /** Every group converted something, so its CPA is a number. */
  ghost predicate AllConverted(agg: seq<Group<CampaignKey>>) {
    forall i :: 0 <= i < |agg| ==> agg[i].totals.conversions != 0
  }

  /** `camp_agg[['campaign_name', 'channel', 'ROAS']]` */
  function RoasScores(agg: seq<Group<CampaignKey>>): (s: seq<Scored<CampaignKey>>)
    requires AllSpent(agg)
    ensures |s| == |agg|
    ensures forall i :: 0 <= i < |agg| ==> s[i].key == agg[i].key && Some(s[i].value) == GroupRoas(agg[i])
  {
    seq(|agg|, i requires 0 <= i < |agg| => Scored(agg[i].key, GroupRoas(agg[i]).value))
  }

  /** `camp_agg[['campaign_name', 'channel', 'CPA']]` */
  function CpaScores(agg: seq<Group<CampaignKey>>): (s: seq<Scored<CampaignKey>>)
    requires AllConverted(agg)
    ensures |s| == |agg|
    ensures forall i :: 0 <= i < |agg| ==> s[i].key == agg[i].key && Some(s[i].value) == GroupCpa(agg[i])
  {
    seq(|agg|, i requires 0 <= i < |agg| => Scored(agg[i].key, GroupCpa(agg[i]).value))
  }

  /**
   * Top ROAS campaigns: up to five groups, highest ROAS first, each group
   * shown at most as often as in the table and with its own ROAS, and no group left out has a higher ROAS than one shown.
   */
  function TopRoas(agg: seq<Group<CampaignKey>>): (top: seq<Scored<CampaignKey>>)
    requires AllSpent(agg)
    ensures |top| == Min(TopCount, |agg|)
    ensures NonIncreasing(top)
    ensures multiset(top) <= multiset(RoasScores(agg))
    ensures forall s :: s in top ==> exists i :: 0 <= i < |agg| && s.key == agg[i].key && Some(s.value) == GroupRoas(agg[i])
    ensures forall i, y :: 0 <= i < |top| && y in multiset(RoasScores(agg)) - multiset(top) ==> y.value <= top[i].value
  {
    var scores := RoasScores(agg);
    var top := TopN(scores, TopCount);
    FromScores(top, scores);
    top
  }

  /**
   * Highest CPA campaigns: up to five groups, highest CPA first, each group
   * shown at most as often as in the table and with its own CPA, and no group left out has a higher CPA than one shown.
   */
  function TopCpa(agg: seq<Group<CampaignKey>>): (top: seq<Scored<CampaignKey>>)
    requires AllConverted(agg)
    ensures |top| == Min(TopCount, |agg|)
    ensures NonIncreasing(top)
    ensures multiset(top) <= multiset(CpaScores(agg))
    ensures forall s :: s in top ==> exists i :: 0 <= i < |agg| && s.key == agg[i].key && Some(s.value) == GroupCpa(agg[i])
    ensures forall i, y :: 0 <= i < |top| && y in multiset(CpaScores(agg)) - multiset(top) ==> y.value <= top[i].value
  {
    var scores := CpaScores(agg);
    var top := TopN(scores, TopCount);
    FromScores(top, scores);
    top
  }

  /** What a sub-multiset of the scores holds is some entry of the scores. */
  lemma FromScores(top: seq<Scored<CampaignKey>>, scores: seq<Scored<CampaignKey>>)
    requires multiset(top) <= multiset(scores)
    ensures forall s :: s in top ==> exists i :: 0 <= i < |scores| && scores[i] == s
  {
    forall s | s in top ensures exists i :: 0 <= i < |scores| && scores[i] == s {
      assert s in multiset(top);
      assert s in multiset(scores);
      assert s in scores;
    }
  }

  /**
   * The page: aggregate, add the ratio columns in place, then rank. The
   * ranking reads the table and leaves it as it was.
   */
  method DeepDive(df: seq<Record>) returns (campAgg: RatioTable<CampaignKey>, topRoas: seq<Scored<CampaignKey>>, topCpa: seq<Scored<CampaignKey>>)
    requires AllSpent(CampaignAgg(df)) && AllConverted(CampaignAgg(df))
    ensures fresh(campAgg)
    ensures campAgg.groups == CampaignAgg(df)
    ensures |campAgg.roas| == |campAgg.groups| && |campAgg.cpa| == |campAgg.groups|
    ensures forall i :: 0 <= i < |campAgg.groups| ==>
      campAgg.roas[i] == GroupRoas(campAgg.groups[i]) && campAgg.cpa[i] == GroupCpa(campAgg.groups[i])
    ensures topRoas == TopRoas(campAgg.groups) && topCpa == TopCpa(campAgg.groups)
  {
    campAgg := new RatioTable(CampaignAgg(df));
    campAgg.AssignRoas();
    campAgg.AssignCpa();
    topRoas, topCpa := Rank(campAgg);
  }

  /** Both rankings, read off the table's columns; the table is not modified. */
  method Rank(campAgg: RatioTable<CampaignKey>) returns (topRoas: seq<Scored<CampaignKey>>, topCpa: seq<Scored<CampaignKey>>)
    requires AllSpent(campAgg.groups) && AllConverted(campAgg.groups)
    requires |campAgg.roas| == |campAgg.groups| && |campAgg.cpa| == |campAgg.groups|
    requires forall i :: 0 <= i < |campAgg.groups| ==>
      campAgg.roas[i] == GroupRoas(campAgg.groups[i]) && campAgg.cpa[i] == GroupCpa(campAgg.groups[i])
    ensures topRoas == TopRoas(campAgg.groups) && topCpa == TopCpa(campAgg.groups)
  {
    var groups, roas, cpa := campAgg.groups, campAgg.roas, campAgg.cpa;
    var roasView := seq(|groups|, i requires 0 <= i < |groups| => Scored(groups[i].key, roas[i].value));
    var cpaView := seq(|groups|, i requires 0 <= i < |groups| => Scored(groups[i].key, cpa[i].value));
    assert roasView == RoasScores(groups);
    assert cpaView == CpaScores(groups);
    topRoas := TopN(roasView, TopCount);
    topCpa := TopN(cpaView, TopCount);
  }
}
