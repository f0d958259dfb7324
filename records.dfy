/**
 * The marketing_performance table: one Record per campaign per day, and the
 * row-level operations the dashboard pages apply to it (boolean-mask
 * filtering, `isin` selections, column sums, `unique`).
 */
module Records {

  datatype Option<T> = None | Some(value: T)

  /** One row of marketing_performance. Money is exact; counts are integers. */
  datatype Record = Record(
    date: string,
    campaignId: string,
    campaignName: string,
    channel: string,
    impressions: int,
    clicks: int,
    spend: real,
    conversions: int,
    revenue: real)

  function ChannelOf(r: Record): string { r.channel }
  function CampaignNameOf(r: Record): string { r.campaignName }
  function DateOf(r: Record): string { r.date }

  /** `s` is obtained from `t` by deleting elements, keeping the order of the rest. */
  ghost predicate IsSubsequence<T>(s: seq<T>, t: seq<T>)
    decreases |t|
  {
    if s == [] then true
    else if t == [] then false
    else if s[|s| - 1] == t[|t| - 1] then IsSubsequence(s[..|s| - 1], t[..|t| - 1])
    else IsSubsequence(s, t[..|t| - 1])
  }

  /** Every sequence is a subsequence of itself. */
  lemma {:induction false} SubsequenceOfSelf<T>(s: seq<T>)
    ensures IsSubsequence(s, s)
    decreases |s|
  {
    if s != [] {
      SubsequenceOfSelf(s[..|s| - 1]);
    }
  }

  /** A subsequence is never longer than its sequence. */
  lemma {:induction false} SubsequenceLengthLe<T>(a: seq<T>, c: seq<T>)
    requires IsSubsequence(a, c)
    ensures |a| <= |c|
    decreases |c|
  {
    if a != [] {
      if a[|a| - 1] == c[|c| - 1] {
        SubsequenceLengthLe(a[..|a| - 1], c[..|c| - 1]);
      } else {
        SubsequenceLengthLe(a, c[..|c| - 1]);
      }
    }
  }

  /** A subsequence as long as the sequence is the sequence itself. */
  lemma {:induction false} SubsequenceSameLength<T>(a: seq<T>, c: seq<T>)
    requires IsSubsequence(a, c) && |a| == |c|
    ensures a == c
    decreases |c|
  {
    if a != [] {
      if a[|a| - 1] == c[|c| - 1] {
        SubsequenceSameLength(a[..|a| - 1], c[..|c| - 1]);
        assert a == a[..|a| - 1] + [a[|a| - 1]];
        assert c == c[..|c| - 1] + [c[|c| - 1]];
      } else {
        SubsequenceLengthLe(a, c[..|c| - 1]);
      }
    }
  }

  /**
   * `df[mask]`: the rows for which `keep` holds, in their original order,
   * each as often as it occurs in `rows`, and nothing else.
   */
  function Filter(rows: seq<Record>, keep: Record -> bool): (kept: seq<Record>)
    ensures |kept| <= |rows|
    ensures forall x :: multiset(kept)[x] == if keep(x) then multiset(rows)[x] else 0
    ensures IsSubsequence(kept, rows)
  {
    if rows == [] then []
    else
      var init, last := rows[..|rows| - 1], rows[|rows| - 1];
      assert rows == init + [last];
      var k := Filter(init, keep);
      if keep(last) then
        assert (k + [last])[..|k|] == k;
        k + [last]
      else
        assert k != [] ==> k[|k| - 1] in multiset(k);
        k
  }

  lemma {:induction false} FilterKeepsAll(rows: seq<Record>, keep: Record -> bool)
    requires forall r :: r in rows ==> keep(r)
    ensures Filter(rows, keep) == rows
  {
    if rows != [] {
      var init, last := rows[..|rows| - 1], rows[|rows| - 1];
      assert rows == init + [last];
      assert keep(last);
      forall r | r in init ensures keep(r) {
        assert r in rows;
      }
      FilterKeepsAll(init, keep);
    }
  }

  lemma {:induction false} FilterKeepsNone(rows: seq<Record>, keep: Record -> bool)
    requires forall r :: r in rows ==> !keep(r)
    ensures Filter(rows, keep) == []
  {
    if rows != [] {
      var init := rows[..|rows| - 1];
      assert forall r :: r in init ==> r in rows;
      FilterKeepsNone(init, keep);
    }
  }

  /** Filtering twice is filtering once by the conjunction, in the same order. */
  lemma {:induction false} FilterFilter(rows: seq<Record>, p: Record -> bool, q: Record -> bool, both: Record -> bool)
    requires forall r :: both(r) == (p(r) && q(r))
    ensures Filter(Filter(rows, p), q) == Filter(rows, both)
  {
    if rows != [] {
      var init, last := rows[..|rows| - 1], rows[|rows| - 1];
      FilterFilter(init, p, q, both);
      var k := Filter(init, p);
      if p(last) {
        assert (k + [last])[..|k|] == k;
      }
    }
  }

  /** Filters by predicates that agree on every row give the same rows. */
  lemma {:induction false} FilterAgree(rows: seq<Record>, p: Record -> bool, q: Record -> bool)
    requires forall r :: r in rows ==> p(r) == q(r)
    ensures Filter(rows, p) == Filter(rows, q)
  {
    if rows != [] {
      var init := rows[..|rows| - 1];
      assert forall r :: r in init ==> r in rows;
      FilterAgree(init, p, q);
    }
  }

  /**
   * `if selected: df = df[field(df).isin(selected)]`: an empty selection
   * keeps every row; a non-empty one keeps exactly the rows whose field is
   * selected, in order.
   */
  function SelectIn(rows: seq<Record>, selected: seq<string>, field: Record -> string): (shown: seq<Record>)
    ensures |shown| <= |rows|
    ensures selected == [] ==> shown == rows
    ensures selected != [] ==> IsSubsequence(shown, rows)
    ensures selected != [] ==>
      forall x :: multiset(shown)[x] == if field(x) in selected then multiset(rows)[x] else 0
  {
    if selected == [] then rows else Filter(rows, r => field(r) in selected)
  }

  /** A selection that covers the field of every row keeps every row. */
  lemma SelectCovering(rows: seq<Record>, selected: seq<string>, field: Record -> string)
    requires forall r :: r in rows ==> field(r) in selected
    ensures SelectIn(rows, selected, field) == rows
  {
    if selected != [] {
      FilterKeepsAll(rows, r => field(r) in selected);
    }
  }

  /** A non-empty selection is the filter by membership of the field in it. */
  lemma SelectInIsFilter(rows: seq<Record>, selected: seq<string>, field: Record -> string, keep: Record -> bool)
    requires selected != []
    requires forall r :: keep(r) == (field(r) in selected)
    ensures SelectIn(rows, selected, field) == Filter(rows, keep)
  {
    FilterAgree(rows, r => field(r) in selected, keep);
  }

  /** The four summed measures of a set of rows. */
  datatype Totals = Totals(spend: real, revenue: real, conversions: int, impressions: int)
  {
    function Plus(r: Record): Totals {
      Totals(spend + r.spend, revenue + r.revenue, conversions + r.conversions, impressions + r.impressions)
    }
  }

  const NoTotals := Totals(0.0, 0.0, 0, 0)

  /** Column sums `df[['spend', 'revenue', 'conversions', 'impressions']].sum()`. */
  function TotalsOf(rows: seq<Record>): (t: Totals)
    ensures rows == [] ==> t == NoTotals
    ensures NonNegative(rows) ==> t.spend >= 0.0 && t.revenue >= 0.0 && t.conversions >= 0 && t.impressions >= 0
  {
    if rows == [] then NoTotals
    else
      var init := rows[..|rows| - 1];
      assert forall r :: r in init ==> r in rows;
      TotalsOf(init).Plus(rows[|rows| - 1])
  }

  function AddTotals(a: Totals, b: Totals): Totals {
    Totals(a.spend + b.spend, a.revenue + b.revenue, a.conversions + b.conversions, a.impressions + b.impressions)
  }

  /** Sums split over concatenation. */
  lemma {:induction false} TotalsOfAppend(xs: seq<Record>, ys: seq<Record>)
    ensures TotalsOf(xs + ys) == AddTotals(TotalsOf(xs), TotalsOf(ys))
    decreases |ys|
  {
    if ys == [] {
      assert xs + ys == xs;
    } else {
      var init, last := ys[..|ys| - 1], ys[|ys| - 1];
      var zs := xs + ys;
      assert zs[..|zs| - 1] == xs + init;
      assert zs[|zs| - 1] == last;
      assert TotalsOf(zs) == TotalsOf(xs + init).Plus(last);
      assert TotalsOf(ys) == TotalsOf(init).Plus(last);
      TotalsOfAppend(xs, init);
    }
  }

  ghost predicate NonNegative(rows: seq<Record>) {
    forall r :: r in rows ==> r.spend >= 0.0 && r.revenue >= 0.0 && r.conversions >= 0 && r.impressions >= 0
  }

  /** `df['channel'].unique()`: each channel once, in order of first appearance. */
  function DistinctChannels(rows: seq<Record>): (u: seq<string>)
    ensures forall i, j :: 0 <= i < j < |u| ==> u[i] != u[j]
    ensures forall r :: r in rows ==> r.channel in u
    ensures forall c :: c in u ==> exists r :: r in rows && r.channel == c
  {
    if rows == [] then []
    else
      var init, last := rows[..|rows| - 1], rows[|rows| - 1];
      assert rows == init + [last];
      var u := DistinctChannels(init);
      if last.channel in u then u else u + [last.channel]
  }
}
