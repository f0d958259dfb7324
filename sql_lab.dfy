/**
 * The raw-data browser of the SQL lab page: an optional channel selection,
 * then an optional campaign selection, and the count of rows shown.
 */
module SqlLab {
  import opened Records

  /** A row passes both selections; an empty selection lets every row pass. */
  ghost predicate Matches(r: Record, selChannel: seq<string>, selCampaign: seq<string>) {
    (selChannel == [] || r.channel in selChannel) &&
    (selCampaign == [] || r.campaignName in selCampaign)
  }

  /**
   * The rows the browser shows: with nothing selected every row; otherwise
   * exactly the rows matching every non-empty selection, each as often as
   * in the table and in the table's order.
   */
  function Browse(fullDf: seq<Record>, selChannel: seq<string>, selCampaign: seq<string>): (shown: seq<Record>)
    ensures selChannel == [] && selCampaign == [] ==> shown == fullDf
    ensures IsSubsequence(shown, fullDf)
    ensures forall x :: multiset(shown)[x] == if Matches(x, selChannel, selCampaign) then multiset(fullDf)[x] else 0
    ensures |shown| <= |fullDf|
  {
    var byChannel := SelectIn(fullDf, selChannel, ChannelOf);
    var shown := SelectIn(byChannel, selCampaign, CampaignNameOf);
    if selChannel == [] && selCampaign == [] then
      SubsequenceOfSelf(fullDf);
      shown
    else if selChannel == [] || selCampaign == [] then
      shown
    else
      BrowseIsOneFilter(fullDf, selChannel, selCampaign, r => Matches(r, selChannel, selCampaign));
      shown
  }

  /** The row count in the caption is the length of what is shown, never more than the table. */
  function ShownCount(fullDf: seq<Record>, selChannel: seq<string>, selCampaign: seq<string>): (n: nat)
    ensures n == |Browse(fullDf, selChannel, selCampaign)|
    ensures n <= |fullDf|
    ensures n == |fullDf| <==> Browse(fullDf, selChannel, selCampaign) == fullDf
  {
    var shown := Browse(fullDf, selChannel, selCampaign);
    if |shown| == |fullDf| then
      SubsequenceSameLength(shown, fullDf);
      |shown|
    else
      |shown|
  }

  /**
   * With both selections non-empty, the two filters in a row keep the same
   * rows, in the same order, as one filter by "channel selected and
   * campaign selected".
   */
  lemma BrowseIsOneFilter(fullDf: seq<Record>, selChannel: seq<string>, selCampaign: seq<string>, both: Record -> bool)
    requires selChannel != [] && selCampaign != []
    requires forall r :: both(r) == (r.channel in selChannel && r.campaignName in selCampaign)
    ensures SelectIn(SelectIn(fullDf, selChannel, ChannelOf), selCampaign, CampaignNameOf) == Filter(fullDf, both)
  {
    var p := (r: Record) => r.channel in selChannel;
    var q := (r: Record) => r.campaignName in selCampaign;
    SelectInIsFilter(fullDf, selChannel, ChannelOf, p);
    SelectInIsFilter(Filter(fullDf, p), selCampaign, CampaignNameOf, q);
    FilterFilter(fullDf, p, q, both);
  }
}
