/**
 * `df.groupby(key).agg(sum).reset_index()` and the per-group ratio columns
 * that the dashboard pages add to the aggregated table.
 */
module Aggregate {
  import opened Records

  /** One row of an aggregated table: a group key and the sums over its rows. */
  datatype Group<K> = Group(key: K, totals: Totals)

  ghost predicate DistinctKeys<K>(gs: seq<Group<K>>) {
    forall i, j :: 0 <= i < j < |gs| ==> gs[i].key != gs[j].key
  }

  ghost function KeysOf<K>(gs: seq<Group<K>>): set<K> {
    if gs == [] then {} else {gs[0].key} + KeysOf(gs[1..])
  }

  ghost function RowKeys<K>(rows: seq<Record>, key: Record -> K): set<K> {
    set r | r in rows :: key(r)
  }

  /** The rows that fall into the group with key `k`, in order. */
  function RowsOf<K(==)>(rows: seq<Record>, key: Record -> K, k: K): seq<Record> {
    Filter(rows, r => key(r) == k)
  }

  /** Sum of the groups' totals. */
  function SumGroups<K>(gs: seq<Group<K>>): Totals {
    if gs == [] then NoTotals else AddTotals(gs[0].totals, SumGroups(gs[1..]))
  }

  /** Adds row `r` to the group keyed `k`, opening that group at the end if it is new. */
  function AddRow<K(==)>(gs: seq<Group<K>>, k: K, r: Record): (gs': seq<Group<K>>)
    ensures |gs'| == if k in KeysOf(gs) then |gs| else |gs| + 1
    ensures KeysOf(gs') == KeysOf(gs) + {k}
    ensures forall i :: 0 <= i < |gs| ==> gs'[i].key == gs[i].key
    ensures k !in KeysOf(gs) ==> gs'[|gs|] == Group(k, NoTotals.Plus(r))
  {
    if gs == [] then [Group(k, NoTotals.Plus(r))]
    else if gs[0].key == k then [Group(k, gs[0].totals.Plus(r))] + gs[1..]
    else
      var rest := AddRow(gs[1..], k, r);
      assert ([gs[0]] + rest)[1..] == rest;
      [gs[0]] + rest
  }

  lemma {:induction false} KeysOfIndex<K>(gs: seq<Group<K>>, k: K)
    ensures k in KeysOf(gs) <==> exists i :: 0 <= i < |gs| && gs[i].key == k
  {
    if gs != [] {
      KeysOfIndex(gs[1..], k);
      if k in KeysOf(gs[1..]) {
        var i :| 0 <= i < |gs[1..]| && gs[1..][i].key == k;
        assert gs[i + 1].key == k;
      }
      if gs[0].key != k && exists i :: 0 <= i < |gs| && gs[i].key == k {
        var i :| 0 <= i < |gs| && gs[i].key == k;
        assert gs[1..][i - 1].key == k;
      }
    }
  }

  /** Adding a row updates only the group keyed `k` and keeps keys distinct. */
  lemma AddRowGroups<K>(gs: seq<Group<K>>, k: K, r: Record)
    requires DistinctKeys(gs)
    ensures DistinctKeys(AddRow(gs, k, r))
    ensures forall i :: 0 <= i < |gs| ==>
      AddRow(gs, k, r)[i].totals == if gs[i].key == k then gs[i].totals.Plus(r) else gs[i].totals
  {
    AddRowDistinct(gs, k, r);
    AddRowTotals(gs, k, r);
  }

  lemma {:induction false} AddRowDistinct<K>(gs: seq<Group<K>>, k: K, r: Record)
    requires DistinctKeys(gs)
    ensures DistinctKeys(AddRow(gs, k, r))
  {
    var gs' := AddRow(gs, k, r);
    if gs != [] && gs[0].key != k {
      var rest := AddRow(gs[1..], k, r);
      assert gs' == [gs[0]] + rest;
      AddRowDistinct(gs[1..], k, r);
      forall j | 0 < j < |gs'| ensures gs'[j].key != gs[0].key {
        assert gs'[j] == rest[j - 1];
        if j - 1 < |gs| - 1 {
          assert rest[j - 1].key == gs[j].key;
        } else {
          KeysOfIndex(gs[1..], k);
        }
      }
    } else if gs != [] {
      assert forall i :: 0 < i < |gs| ==> gs[0].key != gs[i].key;
    }
  }

  lemma {:induction false} AddRowTotals<K>(gs: seq<Group<K>>, k: K, r: Record)
    requires DistinctKeys(gs)
    ensures forall i :: 0 <= i < |gs| ==>
      AddRow(gs, k, r)[i].totals == if gs[i].key == k then gs[i].totals.Plus(r) else gs[i].totals
  {
    if gs != [] && gs[0].key != k {
      var rest := AddRow(gs[1..], k, r);
      assert AddRow(gs, k, r) == [gs[0]] + rest;
      AddRowTotals(gs[1..], k, r);
      assert forall i :: 0 < i < |gs| ==> gs[1..][i - 1] == gs[i];
    } else if gs != [] {
      assert forall i :: 0 < i < |gs| ==> gs[0].key != gs[i].key;
    }
  }

  /** Adding a row adds its measures to the sum of all groups. */
  lemma {:induction false} AddRowSum<K>(gs: seq<Group<K>>, k: K, r: Record)
    ensures SumGroups(AddRow(gs, k, r)) == SumGroups(gs).Plus(r)
  {
    if gs != [] && gs[0].key != k {
      AddRowSum(gs[1..], k, r);
      var rest := AddRow(gs[1..], k, r);
      assert ([gs[0]] + rest)[1..] == rest;
    } else if gs != [] {
      assert ([Group(k, gs[0].totals.Plus(r))] + gs[1..])[1..] == gs[1..];
    }
  }

  ghost predicate SumsMatch<K>(rows: seq<Record>, key: Record -> K, gs: seq<Group<K>>) {
    forall i :: 0 <= i < |gs| ==> gs[i].totals == TotalsOf(RowsOf(rows, key, gs[i].key))
  }

  /**
   * Group-by with summed measures: one group per distinct key, each holding
   * the sums over exactly its rows, and the groups together summing to the
   * column totals. Groups appear in order of first appearance of their key.
   */
  function GroupBy<K(==)>(rows: seq<Record>, key: Record -> K): (gs: seq<Group<K>>)
    ensures DistinctKeys(gs)
    ensures KeysOf(gs) == RowKeys(rows, key)
    ensures SumsMatch(rows, key, gs)
    ensures SumGroups(gs) == TotalsOf(rows)
  {
    if rows == [] then []
    else
      var gs := GroupBy(rows[..|rows| - 1], key);
      GroupByStep(rows, key, gs);
      AddRow(gs, key(rows[|rows| - 1]), rows[|rows| - 1])
  }

  /** The inductive step of GroupBy: absorbing the last row keeps every property. */
  lemma GroupByStep<K>(rows: seq<Record>, key: Record -> K, gs: seq<Group<K>>)
    requires rows != []
    requires var init := rows[..|rows| - 1];
      DistinctKeys(gs) && KeysOf(gs) == RowKeys(init, key) &&
      SumsMatch(init, key, gs) && SumGroups(gs) == TotalsOf(init)
    ensures var gs' := AddRow(gs, key(rows[|rows| - 1]), rows[|rows| - 1]);
      DistinctKeys(gs') && KeysOf(gs') == RowKeys(rows, key) &&
      SumsMatch(rows, key, gs') && SumGroups(gs') == TotalsOf(rows)
  {
    var init, last := rows[..|rows| - 1], rows[|rows| - 1];
    var k, gs' := key(last), AddRow(gs, key(last), last);
    assert rows == init + [last];
    RowKeysSnoc(init, last, key);
    AddRowGroups(gs, k, last);
    AddRowSum(gs, k, last);
    forall i | 0 <= i < |gs'|
      ensures gs'[i].totals == TotalsOf(RowsOf(rows, key, gs'[i].key))
    {
      RowsOfSnoc(init, last, key, gs'[i].key);
      if i == |gs| {
        RowsOfAbsent(init, key, k);
      }
    }
  }

  lemma RowKeysSnoc<K>(init: seq<Record>, last: Record, key: Record -> K)
    ensures RowKeys(init + [last], key) == RowKeys(init, key) + {key(last)}
  {
    var rows := init + [last];
    forall x | x in RowKeys(rows, key) ensures x in RowKeys(init, key) + {key(last)} {
      var r :| r in rows && key(r) == x;
      if r != last { assert r in init; }
    }
    forall x | x in RowKeys(init, key) ensures x in RowKeys(rows, key) {
      var r :| r in init && key(r) == x;
      assert r in rows;
    }
    assert last in rows;
  }

  lemma RowsOfSnoc<K>(init: seq<Record>, last: Record, key: Record -> K, g: K)
    ensures var mine := RowsOf(init, key, g);
      RowsOf(init + [last], key, g) == (if key(last) == g then mine + [last] else mine) &&
      TotalsOf(RowsOf(init + [last], key, g)) == if key(last) == g then TotalsOf(mine).Plus(last) else TotalsOf(mine)
  {
    var rows, mine := init + [last], RowsOf(init, key, g);
    assert rows[..|rows| - 1] == init;
    assert (mine + [last])[..|mine|] == mine;
  }

  lemma RowsOfAbsent<K>(rows: seq<Record>, key: Record -> K, k: K)
    requires k !in RowKeys(rows, key)
    ensures RowsOf(rows, key, k) == []
  {
    forall r | r in rows ensures key(r) != k {
      assert key(r) in RowKeys(rows, key);
    }
    FilterKeepsNone(rows, r => key(r) == k);
  }

  /** `revenue / spend` per group; None where pandas would produce inf or NaN. */
  function GroupRoas<K>(g: Group<K>): (roas: Option<real>)
    ensures roas.Some? <==> g.totals.spend != 0.0
    ensures roas.Some? ==> roas.value * g.totals.spend == g.totals.revenue
  {
    if g.totals.spend != 0.0 then Some(g.totals.revenue / g.totals.spend) else None
  }

  /** `spend / conversions` per group; None where pandas would produce inf or NaN. */
  function GroupCpa<K>(g: Group<K>): (cpa: Option<real>)
    ensures cpa.Some? <==> g.totals.conversions != 0
    ensures cpa.Some? ==> cpa.value * g.totals.conversions as real == g.totals.spend
  {
    if g.totals.conversions != 0 then Some(g.totals.spend / g.totals.conversions as real) else None
  }

  function RoasColumn<K>(gs: seq<Group<K>>): seq<Option<real>> {
    seq(|gs|, i requires 0 <= i < |gs| => GroupRoas(gs[i]))
  }

  function CpaColumn<K>(gs: seq<Group<K>>): seq<Option<real>> {
    seq(|gs|, i requires 0 <= i < |gs| => GroupCpa(gs[i]))
  }

  /**
   * An aggregated table after `reset_index()`, to which the pages assign the
   * ROAS and CPA columns in place. The columns are empty until assigned.
   */
  class RatioTable<K> {
    var groups: seq<Group<K>>
    var roas: seq<Option<real>>
    var cpa: seq<Option<real>>

    constructor (groups: seq<Group<K>>)
      ensures this.groups == groups && roas == [] && cpa == []
    {
      this.groups := groups;
      roas := [];
      cpa := [];
    }

    /** `table['ROAS'] = table['revenue'] / table['spend']` */
    method AssignRoas()
      modifies this`roas
      ensures |roas| == |groups|
      ensures forall i :: 0 <= i < |groups| ==> roas[i] == GroupRoas(groups[i])
    {
      roas := RoasColumn(groups);
    }

    /** `table['CPA'] = table['spend'] / table['conversions']` */
    method AssignCpa()
      modifies this`cpa
      ensures |cpa| == |groups|
      ensures forall i :: 0 <= i < |groups| ==> cpa[i] == GroupCpa(groups[i])
    {
      cpa := CpaColumn(groups);
    }
  }
}
