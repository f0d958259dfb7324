/**
 * The synthetic data generator: one Record per (day, campaign) over the
 * first quarter of 2025, built from fixed per-channel parameter ranges and
 * uniformly drawn samples.
 *
 * The calendar is an input: `dates[d]` is the ISO date string of day d and
 * `weekdays[d]` its day of the week (Monday = 0). The random source is an
 * input too: `draws[d][c]` holds, in call order, the values that the
 * `random.uniform` calls return while campaign c's row of day d is built,
 * each within the bounds of its call.
 */
module DataGen {
  import opened Records

  /** Days from 2025-01-01 (inclusive) to 2025-04-01 (exclusive). */
  const Days: nat := 31 + 28 + 31

  datatype Range = Range(lo: real, hi: real)

  predicate Within(u: real, r: Range) { r.lo <= u <= r.hi }

  /** Cost per click, conversion rate and average order value of a channel. */
  datatype ChannelParams = ChannelParams(cpc: Range, cr: Range, aov: Range)

  const Channels: map<string, ChannelParams> := map[
    "Google Search" := ChannelParams(Range(1.5, 4.0), Range(0.05, 0.12), Range(80.0, 150.0)),
    "Facebook Ads" := ChannelParams(Range(0.5, 1.5), Range(0.02, 0.05), Range(40.0, 90.0)),
    "TikTok Ads" := ChannelParams(Range(0.1, 0.4), Range(0.005, 0.02), Range(20.0, 50.0)),
    "Email" := ChannelParams(Range(0.0, 0.0), Range(0.08, 0.15), Range(50.0, 100.0))
  ]

  datatype Campaign = Campaign(id: string, channel: string, name: string)

  const Campaigns: seq<Campaign> := [
    Campaign("CMP-001", "Google Search", "Credit Cards Generic"),
    Campaign("CMP-002", "Google Search", "Travel Rewards"),
    Campaign("CMP-003", "Facebook Ads", "Retargeting - Site Visitors"),
    Campaign("CMP-004", "Facebook Ads", "Lookalike - Top Spenders"),
    Campaign("CMP-005", "TikTok Ads", "Viral Creative V1"),
    Campaign("CMP-006", "TikTok Ads", "Influencer Collab"),
    Campaign("CMP-007", "Email", "Weekly Newsletter")
  ]

  /** Range of the impression variation and of Email's click variation. */
  const Variation := Range(0.8, 1.2)
  /** Range of the click-through rate of the paid channels. */
  const PaidCtr := Range(0.01, 0.03)

  /**
   * The samples one row draws, in call order. Email: click variation,
   * conversion rate, order value. Other channels: impression variation,
   * click-through rate, cost per click, conversion rate, order value.
   */
  ghost predicate DrawsFit(channel: string, u: seq<real>) {
    channel in Channels &&
    var p := Channels[channel];
    if channel == "Email" then
      |u| == 3 && Within(u[0], Variation) && Within(u[1], p.cr) && Within(u[2], p.aov)
    else
      |u| == 5 && Within(u[0], Variation) && Within(u[1], PaidCtr) &&
      Within(u[2], p.cpc) && Within(u[3], p.cr) && Within(u[4], p.aov)
  }

  ghost predicate DayDrawsFit(dayDraws: seq<seq<real>>) {
    |dayDraws| == |Campaigns| &&
    forall c :: 0 <= c < |Campaigns| ==> DrawsFit(Campaigns[c].channel, dayDraws[c])
  }

  ghost predicate ValidDraws(draws: seq<seq<seq<real>>>) {
    |draws| == Days && forall d :: 0 <= d < Days ==> DayDrawsFit(draws[d])
  }

  ghost predicate HasCents(x: real) {
    (x * 100.0).Floor as real == x * 100.0
  }

  /**
   * `round(x, 2)` on an exact value: the nearest multiple of 0.01, a tie
   * going to the even number of cents.
   */
  function Round2(x: real): (r: real)
    ensures HasCents(r)
    ensures -0.005 <= r - x <= 0.005
    ensures x >= 0.0 ==> r >= 0.0
  {
    var n := (x * 100.0).Floor;
    var frac := x * 100.0 - n as real;
    var cents := if frac > 0.5 then n + 1 else if frac < 0.5 then n else if n % 2 == 0 then n else n + 1;
    assert (cents as real / 100.0) * 100.0 == cents as real;
    cents as real / 100.0
  }

  /** Values already in whole cents are left as they are. */
  lemma Round2Cents(k: int)
    ensures Round2(k as real / 100.0) == k as real / 100.0
  {
    assert (k as real / 100.0) * 100.0 == k as real;
  }

  /** Weekend volume multiplier. */
  function Seasonality(weekday: int): (s: real)
    ensures s == 1.2 <==> weekday >= 5
    ensures s == 1.0 <==> weekday < 5
  {
    if weekday >= 5 then 1.2 else 1.0
  }

  /** Base impression volume of a paid channel. */
  function PaidBase(channel: string): int {
    if channel == "TikTok Ads" then 50000 else 10000
  }

  /** Python's `int(x)`: truncation toward zero. */
  function Int(x: real): (n: int)
    ensures x >= 0.0 ==> 0 <= n && n as real <= x < n as real + 1.0
    ensures x < 0.0 ==> n <= 0 && n as real - 1.0 < x <= n as real
  {
    if x >= 0.0 then x.Floor else -((-x).Floor)
  }

  /** `int(n * a * b)`, a volume scaled by two factors. */
  function Volume(n: int, a: real, b: real): int {
    Int(n as real * a * b)
  }

  /** `int(n * f)`, a count scaled by a rate. */
  function Count(n: int, f: real): int {
    Int(n as real * f)
  }

  /** `round(n * price, 2)`, an amount for `n` units. */
  function Amount(n: int, price: real): real {
    Round2(n as real * price)
  }

  /** The row built for campaign `camp` on a day, from that row's samples `u`. */
  function Row(date: string, weekday: int, camp: Campaign, u: seq<real>): (r: Record)
    requires DrawsFit(camp.channel, u)
    ensures r.date == date && r.campaignId == camp.id && r.campaignName == camp.name && r.channel == camp.channel
  {
    if camp.channel == "Email" then
      var imps := 20000;
      var clicks := Volume(imps, 0.20, u[0]);
      var conversions := Count(clicks, u[1]);
      Record(date, camp.id, camp.name, camp.channel, imps, clicks,
             Round2(50.0), conversions, Amount(conversions, u[2]))
    else
      var imps := Volume(PaidBase(camp.channel), u[0], Seasonality(weekday));
      var clicks := Count(imps, u[1]);
      var conversions := Count(clicks, u[3]);
      Record(date, camp.id, camp.name, camp.channel, imps, clicks,
             Amount(clicks, u[2]), conversions, Amount(conversions, u[4]))
  }

  /** The rows of one day for the first `c` campaigns. */
  function DayRows(date: string, weekday: int, dayDraws: seq<seq<real>>, c: nat): seq<Record>
    requires DayDrawsFit(dayDraws) && c <= |Campaigns|
  {
    if c == 0 then []
    else DayRows(date, weekday, dayDraws, c - 1) + [Row(date, weekday, Campaigns[c - 1], dayDraws[c - 1])]
  }

  /** The rows of the first `n` days, day by day. */
  function Generated(dates: seq<string>, weekdays: seq<int>, draws: seq<seq<seq<real>>>, n: nat): seq<Record>
    requires |dates| == Days && |weekdays| == Days && ValidDraws(draws) && n <= Days
  {
    if n == 0 then []
    else Generated(dates, weekdays, draws, n - 1) + DayRows(dates[n - 1], weekdays[n - 1], draws[n - 1], |Campaigns|)
  }

  /**
   * `generate_data()`: for each day, for each campaign in order, draw the
   * samples and append the row.
   */
  method GenerateData(dates: seq<string>, weekdays: seq<int>, draws: seq<seq<seq<real>>>) returns (data: seq<Record>)
    requires |dates| == Days && |weekdays| == Days && ValidDraws(draws)
    ensures data == Generated(dates, weekdays, draws, Days)
    ensures |data| == Days * |Campaigns| == 630
    ensures forall r :: r in data ==> WellFormed(r)
  {
    data := [];
    for day := 0 to Days
      invariant data == Generated(dates, weekdays, draws, day)
    {
      var dateStr := dates[day];
      var isWeekend := weekdays[day] >= 5;
      var seasonality := if isWeekend then 1.2 else 1.0;
      for c := 0 to |Campaigns|
        invariant data == Generated(dates, weekdays, draws, day) + DayRows(dateStr, weekdays[day], draws[day], c)
      {
        var row := BuildRow(dateStr, weekdays[day], seasonality, Campaigns[c], draws[day][c]);
        data := data + [row];
      }
    }
    GeneratedLength(dates, weekdays, draws, Days);
    GeneratedWellFormed(dates, weekdays, draws);
  }

  /**
   * One iteration of the inner loop: draws campaign `camp`'s samples in
   * call order and builds its row.
   */
  method BuildRow(date: string, ghost weekday: int, seasonality: real, camp: Campaign, samples: seq<real>) returns (row: Record)
    requires DrawsFit(camp.channel, samples)
    requires seasonality == Seasonality(weekday)
    ensures row == Row(date, weekday, camp, samples)
  {
    var Campaign(campId, channel, campName) := camp;
    var next := 0;
    var imps: int;
    if channel == "TikTok Ads" {
      var base := 50000;
      var variation := samples[next];
      next := next + 1;
      imps := Int(base as real * variation * seasonality);
      VolumeIs(base, variation, seasonality);
    } else if channel == "Email" {
      imps := 20000;
    } else {
      var base := 10000;
      var variation := samples[next];
      next := next + 1;
      imps := Int(base as real * variation * seasonality);
      VolumeIs(base, variation, seasonality);
    }
    var clicks: int;
    var cost: real;
    if channel == "Email" {
      var ctr := 0.20;
      clicks := Int(imps as real * ctr * samples[next]);
      VolumeIs(imps, ctr, samples[next]);
      next := next + 1;
      cost := 50.0;
    } else {
      var ctr := samples[next];
      next := next + 1;
      clicks := Int(imps as real * ctr);
      CountIs(imps, ctr);
      var cpc := samples[next];
      next := next + 1;
      cost := clicks as real * cpc;
      AmountIs(clicks, cpc);
    }
    var cr := samples[next];
    next := next + 1;
    var conversions := Int(clicks as real * cr);
    CountIs(clicks, cr);
    var aov := samples[next];
    var revenue := conversions as real * aov;
    AmountIs(conversions, aov);
    row := Record(date, campId, campName, channel, imps, clicks, Round2(cost), conversions, Round2(revenue));
  }

  /** Unfoldings of `Volume`, `Count` and `Amount` for the step-by-step builder above. */
  lemma VolumeIs(n: int, a: real, b: real)
    ensures Volume(n, a, b) == Int(n as real * a * b)
  {
  }

  lemma CountIs(n: int, f: real)
    ensures Count(n, f) == Int(n as real * f)
  {
  }

  lemma AmountIs(n: int, price: real)
    ensures Amount(n, price) == Round2(n as real * price)
  {
  }

  /** The record invariants every generated row satisfies. */
  ghost predicate WellFormed(r: Record) {
    0 <= r.clicks <= r.impressions &&
    0 <= r.conversions <= r.clicks &&
    0.0 <= r.spend && HasCents(r.spend) &&
    0.0 <= r.revenue && HasCents(r.revenue)
  }

  /** Every channel's cost-per-click and order-value ranges start at or above 0, and its conversion rate stays below 1. */
  lemma ChannelRangesSane(channel: string)
    requires channel in Channels
    ensures var p := Channels[channel];
      0.0 <= p.cpc.lo && 0.0 <= p.aov.lo && 0.0 <= p.cr.lo && p.cr.hi < 1.0
  {
  }

  lemma FloorMonotone(x: real, y: real)
    requires x <= y
    ensures x.Floor <= y.Floor
  {
  }

  /** A count scaled by a rate in [0, 1] stays between 0 and that count. */
  lemma CountBounds(n: int, f: real)
    requires 0 <= n && 0.0 <= f <= 1.0
    ensures 0 <= Count(n, f) <= n
  {
    var x := n as real * f;
    assert x <= n as real * 1.0;
    assert 0.0 <= x;
    assert Int(x) as real <= x;
  }

  /** A volume scaled by non-negative factors is non-negative. */
  lemma VolumeNonNegative(n: int, a: real, b: real)
    requires 0 <= n && 0.0 <= a && 0.0 <= b
    ensures 0 <= Volume(n, a, b)
  {
    assert 0.0 <= n as real * a;
    assert 0.0 <= n as real * a * b;
  }

  /** The amount for a non-negative count at a non-negative price is non-negative, in cents. */
  lemma AmountNonNegative(n: int, price: real)
    requires 0 <= n && 0.0 <= price
    ensures 0.0 <= Amount(n, price) && HasCents(Amount(n, price))
  {
    assert 0.0 <= n as real * price;
  }

  /** Every row satisfies the record invariants, whatever the samples. */
  lemma RowWellFormed(date: string, weekday: int, camp: Campaign, u: seq<real>)
    requires DrawsFit(camp.channel, u)
    ensures WellFormed(Row(date, weekday, camp, u))
  {
    if camp.channel == "Email" {
      EmailRowWellFormed(date, weekday, camp, u);
    } else {
      PaidRowWellFormed(date, weekday, camp, u);
    }
  }

  /** An Email row's clicks are 20000 × 0.20 × a variation in [0.8, 1.2], truncated. */
  lemma EmailRowWellFormed(date: string, weekday: int, camp: Campaign, u: seq<real>)
    requires camp.channel == "Email" && DrawsFit(camp.channel, u)
    ensures WellFormed(Row(date, weekday, camp, u))
    ensures 3200 <= Row(date, weekday, camp, u).clicks <= 4800
  {
    var r := Row(date, weekday, camp, u);
    ChannelRangesSane(camp.channel);
    var x := 20000.0 * 0.20 * u[0];
    assert 0.0 <= x <= 20000.0;
    assert r.clicks == Volume(20000, 0.20, u[0]) == x.Floor;
    CountBounds(r.clicks, u[1]);
    AmountNonNegative(r.conversions, u[2]);
    Round2Cents(5000);
  }

  /**
   * A paid row's clicks are at most 3% of its impressions, and its
   * conversion rate is below 1: some click goes unconverted.
   */
  lemma PaidRowWellFormed(date: string, weekday: int, camp: Campaign, u: seq<real>)
    requires camp.channel != "Email" && DrawsFit(camp.channel, u)
    ensures WellFormed(Row(date, weekday, camp, u))
    ensures var r := Row(date, weekday, camp, u); r.clicks as real <= r.impressions as real * 0.03
    ensures var r := Row(date, weekday, camp, u); r.clicks > 0 ==> r.conversions < r.clicks
  {
    var r := Row(date, weekday, camp, u);
    ChannelRangesSane(camp.channel);
    VolumeNonNegative(PaidBase(camp.channel), u[0], Seasonality(weekday));
    CountBounds(r.impressions, u[1]);
    CountBounds(r.clicks, u[3]);
    AmountNonNegative(r.clicks, u[2]);
    AmountNonNegative(r.conversions, u[4]);
    ScaledBelow(r.impressions, u[1], 0.03);
    if r.clicks > 0 {
      ScaledBelow(r.clicks, u[3], Channels[camp.channel].cr.hi);
      assert r.clicks as real * Channels[camp.channel].cr.hi < r.clicks as real;
    }
  }

  /** A non-negative count scaled by at most `hi` is at most `count * hi`, truncated or not. */
  lemma ScaledBelow(n: int, f: real, hi: real)
    requires 0 <= n && 0.0 <= f <= hi
    ensures Count(n, f) as real <= n as real * hi
  {
    var x := n as real * f;
    assert 0.0 <= x <= n as real * hi;
    assert Int(x) as real <= x;
  }

  /** Email rows have a fixed volume of 20000 impressions and a flat spend of 50. */
  lemma EmailRowFixed(date: string, weekday: int, camp: Campaign, u: seq<real>)
    requires camp.channel == "Email" && DrawsFit(camp.channel, u)
    ensures Row(date, weekday, camp, u).impressions == 20000
    ensures Row(date, weekday, camp, u).spend == 50.0
  {
    Round2Cents(5000);
  }

  /** Paid-channel impressions lie between base * 0.8 and base * 1.2 * 1.2, truncated. */
  lemma PaidImpressionBounds(date: string, weekday: int, camp: Campaign, u: seq<real>)
    requires camp.channel != "Email" && DrawsFit(camp.channel, u)
    ensures var base := PaidBase(camp.channel) as real;
      (base * 0.8).Floor <= Row(date, weekday, camp, u).impressions <= (base * 1.2 * 1.2).Floor
  {
    var base := PaidBase(camp.channel) as real;
    var s := Seasonality(weekday);
    var x := base * u[0] * s;
    assert base * 0.8 <= base * u[0] <= base * 1.2;
    assert base * u[0] <= x <= base * u[0] * 1.2;
    FloorMonotone(base * 0.8, x);
    FloorMonotone(x, base * 1.2 * 1.2);
  }

  lemma {:induction false} DayRowsLength(date: string, weekday: int, dayDraws: seq<seq<real>>, c: nat)
    requires DayDrawsFit(dayDraws) && c <= |Campaigns|
    ensures |DayRows(date, weekday, dayDraws, c)| == c
  {
    if c > 0 {
      DayRowsLength(date, weekday, dayDraws, c - 1);
    }
  }

  lemma {:induction false} DayRowsAt(date: string, weekday: int, dayDraws: seq<seq<real>>, c: nat, j: nat)
    requires DayDrawsFit(dayDraws) && j < c <= |Campaigns|
    ensures |DayRows(date, weekday, dayDraws, c)| == c
    ensures DayRows(date, weekday, dayDraws, c)[j] == Row(date, weekday, Campaigns[j], dayDraws[j])
  {
    var prev := DayRows(date, weekday, dayDraws, c - 1);
    DayRowsLength(date, weekday, dayDraws, c - 1);
    assert DayRows(date, weekday, dayDraws, c) == prev + [Row(date, weekday, Campaigns[c - 1], dayDraws[c - 1])];
    if j < c - 1 {
      DayRowsAt(date, weekday, dayDraws, c - 1, j);
    }
  }

  /** `Days` × `len(CAMPAIGNS)` rows in all: one per day per campaign. */
  lemma {:induction false} GeneratedLength(dates: seq<string>, weekdays: seq<int>, draws: seq<seq<seq<real>>>, n: nat)
    requires |dates| == Days && |weekdays| == Days && ValidDraws(draws) && n <= Days
    ensures |Generated(dates, weekdays, draws, n)| == n * |Campaigns|
  {
    if n > 0 {
      GeneratedLength(dates, weekdays, draws, n - 1);
      DayRowsLength(dates[n - 1], weekdays[n - 1], draws[n - 1], |Campaigns|);
    }
  }

  /**
   * Rows are ordered day-major, then in campaign order: row d * 7 + c is
   * campaign c's row of day d.
   */
  lemma {:induction false} GeneratedAt(dates: seq<string>, weekdays: seq<int>, draws: seq<seq<seq<real>>>, n: nat, d: nat, c: nat)
    requires |dates| == Days && |weekdays| == Days && ValidDraws(draws) && n <= Days
    requires d < n && c < |Campaigns|
    ensures |Generated(dates, weekdays, draws, n)| == n * |Campaigns|
    ensures Generated(dates, weekdays, draws, n)[d * |Campaigns| + c] ==
      Row(dates[d], weekdays[d], Campaigns[c], draws[d][c])
  {
    GeneratedLength(dates, weekdays, draws, n);
    GeneratedLength(dates, weekdays, draws, n - 1);
    if d < n - 1 {
      GeneratedAt(dates, weekdays, draws, n - 1, d, c);
    } else {
      DayRowsAt(dates[n - 1], weekdays[n - 1], draws[n - 1], |Campaigns|, c);
    }
  }

  /** Row i of the output is campaign i % 7's row of day i / 7. */
  lemma GeneratedRow(dates: seq<string>, weekdays: seq<int>, draws: seq<seq<seq<real>>>, i: nat)
    requires |dates| == Days && |weekdays| == Days && ValidDraws(draws)
    requires i < Days * |Campaigns|
    ensures |Generated(dates, weekdays, draws, Days)| == Days * |Campaigns|
    ensures var d, c := i / |Campaigns|, i % |Campaigns|;
      Generated(dates, weekdays, draws, Days)[i] == Row(dates[d], weekdays[d], Campaigns[c], draws[d][c])
  {
    var k := |Campaigns|;
    assert k == 7;
    var d, c := i / k, i % k;
    assert d * k + c == i;
    GeneratedAt(dates, weekdays, draws, Days, d, c);
  }

  /** Every generated row satisfies the record invariants. */
  lemma GeneratedWellFormed(dates: seq<string>, weekdays: seq<int>, draws: seq<seq<seq<real>>>)
    requires |dates| == Days && |weekdays| == Days && ValidDraws(draws)
    ensures forall r :: r in Generated(dates, weekdays, draws, Days) ==> WellFormed(r)
  {
    var data := Generated(dates, weekdays, draws, Days);
    GeneratedLength(dates, weekdays, draws, Days);
    forall r | r in data ensures WellFormed(r) {
      var i :| 0 <= i < |data| && data[i] == r;
      GeneratedRow(dates, weekdays, draws, i);
      var d, c := i / |Campaigns|, i % |Campaigns|;
      RowWellFormed(dates[d], weekdays[d], Campaigns[c], draws[d][c]);
    }
  }

  /** The campaign ids of the configuration table are pairwise distinct. */
  lemma CampaignIdsDistinct()
    ensures forall a, b :: 0 <= a < b < |Campaigns| ==> Campaigns[a].id != Campaigns[b].id
  {
  }

  /**
   * No (date, campaign_id) pair repeats, provided the calendar gives every
   * day its own date string.
   */
  lemma GeneratedKeysUnique(dates: seq<string>, weekdays: seq<int>, draws: seq<seq<seq<real>>>)
    requires |dates| == Days && |weekdays| == Days && ValidDraws(draws)
    requires forall d, e :: 0 <= d < e < Days ==> dates[d] != dates[e]
    ensures var data := Generated(dates, weekdays, draws, Days);
      forall i, j :: 0 <= i < j < |data| ==>
        data[i].date != data[j].date || data[i].campaignId != data[j].campaignId
  {
    var data := Generated(dates, weekdays, draws, Days);
    GeneratedLength(dates, weekdays, draws, Days);
    CampaignIdsDistinct();
    forall i, j | 0 <= i < j < |data|
      ensures data[i].date != data[j].date || data[i].campaignId != data[j].campaignId
    {
      GeneratedRow(dates, weekdays, draws, i);
      GeneratedRow(dates, weekdays, draws, j);
      var k := |Campaigns|;
      if i / k == j / k {
        assert i % k != j % k;
      }
    }
  }

  /** Every row's campaign id, channel and name are one entry of the configuration table. */
  lemma GeneratedFromCampaigns(dates: seq<string>, weekdays: seq<int>, draws: seq<seq<seq<real>>>)
    requires |dates| == Days && |weekdays| == Days && ValidDraws(draws)
    ensures var data := Generated(dates, weekdays, draws, Days);
      forall i :: 0 <= i < |data| ==>
        Campaign(data[i].campaignId, data[i].channel, data[i].campaignName) in Campaigns
  {
    var data := Generated(dates, weekdays, draws, Days);
    GeneratedLength(dates, weekdays, draws, Days);
    forall i | 0 <= i < |data|
      ensures Campaign(data[i].campaignId, data[i].channel, data[i].campaignName) in Campaigns
    {
      GeneratedRow(dates, weekdays, draws, i);
      var c := i % |Campaigns|;
      assert Campaign(data[i].campaignId, data[i].channel, data[i].campaignName) == Campaigns[c];
    }
  }

  /** A campaign id always comes with the same channel and campaign name. */
  lemma CampaignChannelFixed(dates: seq<string>, weekdays: seq<int>, draws: seq<seq<seq<real>>>)
    requires |dates| == Days && |weekdays| == Days && ValidDraws(draws)
    ensures var data := Generated(dates, weekdays, draws, Days);
      forall i, j :: 0 <= i < |data| && 0 <= j < |data| && data[i].campaignId == data[j].campaignId ==>
        data[i].channel == data[j].channel && data[i].campaignName == data[j].campaignName
  {
    var data := Generated(dates, weekdays, draws, Days);
    GeneratedLength(dates, weekdays, draws, Days);
    CampaignIdsDistinct();
    forall i, j | 0 <= i < |data| && 0 <= j < |data| && data[i].campaignId == data[j].campaignId
      ensures data[i].channel == data[j].channel && data[i].campaignName == data[j].campaignName
    {
      GeneratedRow(dates, weekdays, draws, i);
      GeneratedRow(dates, weekdays, draws, j);
      var a, b := i % |Campaigns|, j % |Campaigns|;
      assert Campaigns[a].id == Campaigns[b].id;
      assert a == b;
    }
  }

  /** In the output, every Email row has 20000 impressions and a spend of 50, whatever was drawn. */
  lemma GeneratedEmailFixed(dates: seq<string>, weekdays: seq<int>, draws: seq<seq<seq<real>>>)
    requires |dates| == Days && |weekdays| == Days && ValidDraws(draws)
    ensures var data := Generated(dates, weekdays, draws, Days);
      forall i :: 0 <= i < |data| && data[i].channel == "Email" ==>
        data[i].impressions == 20000 && data[i].spend == 50.0
  {
    var data := Generated(dates, weekdays, draws, Days);
    GeneratedLength(dates, weekdays, draws, Days);
    forall i | 0 <= i < |data| && data[i].channel == "Email"
      ensures data[i].impressions == 20000 && data[i].spend == 50.0
    {
      GeneratedRow(dates, weekdays, draws, i);
      var d, c := i / |Campaigns|, i % |Campaigns|;
      EmailRowFixed(dates[d], weekdays[d], Campaigns[c], draws[d][c]);
    }
  }
}
