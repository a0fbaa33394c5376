/** The per-farm profit summary of the dashboard: the query

      SELECT Tambak, SUM(Produksi_kg), SUM(Biaya), SUM(Pendapatan),
             SUM(Pendapatan) - SUM(Biaya) AS Laba_Bersih
      FROM df GROUP BY Tambak ORDER BY Laba_Bersih DESC

    stated over an already-parsed table. `IsSummaryOf` is what the query
    means; `Aggregate` is one evaluation of it (groups in order of first
    appearance, then a stable sort on net profit), and `AggregateIsSummary`
    proves that the evaluation meets the meaning.
 */
module Aggregation {

  /** One row of the uploaded sheet, reduced to the four columns the query reads
      (Tambak, Produksi_kg, Biaya, Pendapatan). */
  datatype Record = Record(farm: string, production: int, cost: int, revenue: int)

  /** One row of the query's result. */
  datatype Summary = Summary(
    farm: string,
    totalProduction: int,   // Total_Produksi
    totalCost: int,         // Total_Biaya
    totalRevenue: int,      // Total_Pendapatan
    netProfit: int)         // Laba_Bersih

  /** The quantities that are summed, per record and per summary row. */
  datatype Measure = Production | Cost | Revenue | NetProfit

  function Amount(r: Record, m: Measure): int {
    match m
    case Production => r.production
    case Cost => r.cost
    case Revenue => r.revenue
    case NetProfit => r.revenue - r.cost
  }

  function Total(s: Summary, m: Measure): int {
    match m
    case Production => s.totalProduction
    case Cost => s.totalCost
    case Revenue => s.totalRevenue
    case NetProfit => s.netProfit
  }

  // ---------------------------------------------------------------------------
  // What the query means
  // ---------------------------------------------------------------------------

  /** SUM of measure `m` over exactly the rows whose Tambak is `farm`. */
  function FarmTotal(rows: seq<Record>, farm: string, m: Measure): int {
    if rows == [] then 0
    else (if rows[0].farm == farm then Amount(rows[0], m) else 0) + FarmTotal(rows[1..], farm, m)
  }

  /** SUM of measure `m` over the whole table. */
  function GrandTotal(rows: seq<Record>, m: Measure): int {
    if rows == [] then 0 else Amount(rows[0], m) + GrandTotal(rows[1..], m)
  }

  /** The distinct Tambak values of the table. */
  function FarmsOf(rows: seq<Record>): set<string> {
    set r | r in rows :: r.farm
  }

  /** The Tambak values that appear in a summary. */
  function FarmsListed(s: seq<Summary>): set<string> {
    set x | x in s :: x.farm
  }

  predicate NoDuplicates(fs: seq<string>) {
    forall i, j :: 0 <= i < j < |fs| ==> fs[i] != fs[j]
  }

  predicate DistinctFarmRows(s: seq<Summary>) {
    forall i, j :: 0 <= i < j < |s| ==> s[i].farm != s[j].farm
  }

  /** ORDER BY Laba_Bersih DESC. */
  predicate SortedByProfit(s: seq<Summary>) {
    forall i, j :: 0 <= i < j < |s| ==> s[i].netProfit >= s[j].netProfit
  }

  /** `x` is the result row of the query for the farm it names. */
  predicate IsFarmSummary(rows: seq<Record>, x: Summary) {
    && x.totalProduction == FarmTotal(rows, x.farm, Production)
    && x.totalCost == FarmTotal(rows, x.farm, Cost)
    && x.totalRevenue == FarmTotal(rows, x.farm, Revenue)
    && x.netProfit == x.totalRevenue - x.totalCost
  }

  /** `s` is a correct answer to the query over `rows`: one row per distinct
      farm and no other, the sums of exactly that farm's rows, sorted by net
      profit, non-increasing. The order of rows with equal profit is left open,
      as it is in SQL. */
  predicate IsSummaryOf(rows: seq<Record>, s: seq<Summary>) {
    && SortedByProfit(s)
    && DistinctFarmRows(s)
    && FarmsListed(s) == FarmsOf(rows)
    && forall i :: 0 <= i < |s| ==> IsFarmSummary(rows, s[i])
  }

  // ---------------------------------------------------------------------------
  // One evaluation of the query
  // ---------------------------------------------------------------------------

  /** The group keys, each once, in order of first appearance. */
  function DistinctFarms(rows: seq<Record>): (fs: seq<string>)
    ensures NoDuplicates(fs)
    ensures forall f :: f in fs <==> f in FarmsOf(rows)
  {
    if rows == [] then []
    else
      var init := rows[..|rows| - 1];
      var f := rows[|rows| - 1].farm;
      assert rows == init + [rows[|rows| - 1]];
      var fs := DistinctFarms(init);
      if f in fs then fs else fs + [f]
  }

  /** The result row of one group. */
  function SummaryOf(rows: seq<Record>, farm: string): Summary {
    var cost := FarmTotal(rows, farm, Cost);
    var revenue := FarmTotal(rows, farm, Revenue);
    Summary(farm, FarmTotal(rows, farm, Production), cost, revenue, revenue - cost)
  }

  function SummariesOf(rows: seq<Record>, fs: seq<string>): (s: seq<Summary>)
    ensures |s| == |fs|
    ensures forall i :: 0 <= i < |fs| ==> s[i].farm == fs[i] && IsFarmSummary(rows, s[i])
  {
    if fs == [] then [] else [SummaryOf(rows, fs[0])] + SummariesOf(rows, fs[1..])
  }

  /** Inserts `x` before the first row whose profit is not larger, so that
      rows of equal profit keep their relative order. */
  function InsertByProfit(x: Summary, t: seq<Summary>): (r: seq<Summary>)
    ensures multiset(r) == multiset(t) + multiset{x}
  {
    if t == [] || x.netProfit >= t[0].netProfit then [x] + t
    else
      assert t == [t[0]] + t[1..];
      [t[0]] + InsertByProfit(x, t[1..])
  }

  /** Stable insertion sort on net profit, largest first; a permutation of its input. */
  function SortByProfit(s: seq<Summary>): (r: seq<Summary>)
    ensures multiset(r) == multiset(s)
  {
    if s == [] then []
    else
      assert s == [s[0]] + s[1..];
      InsertByProfit(s[0], SortByProfit(s[1..]))
  }

  lemma {:induction false} InsertKeepsSorted(x: Summary, t: seq<Summary>)
    requires SortedByProfit(t)
    ensures SortedByProfit(InsertByProfit(x, t))
  {
    if t != [] && x.netProfit < t[0].netProfit {
      InsertKeepsSorted(x, t[1..]);
      var rest := InsertByProfit(x, t[1..]);
      forall k | 0 <= k < |rest| ensures t[0].netProfit >= rest[k].netProfit {
        assert rest[k] in multiset(rest);
        if rest[k] != x {
          assert rest[k] in multiset(t[1..]);
          var j :| 0 <= j < |t[1..]| && t[1..][j] == rest[k];
          assert t[j + 1] == rest[k];
        }
      }
    }
  }

  /** The sort's result is ordered by net profit, non-increasing. */
  lemma {:induction false} SortIsSorted(s: seq<Summary>)
    ensures SortedByProfit(SortByProfit(s))
  {
    if s != [] {
      SortIsSorted(s[1..]);
      InsertKeepsSorted(s[0], SortByProfit(s[1..]));
    }
  }

  /** Rows related by a permutation name the same farms. */
  lemma PermutationKeepsFarms(a: seq<Summary>, b: seq<Summary>)
    requires multiset(a) == multiset(b)
    ensures FarmsListed(a) == FarmsListed(b)
  {
    assert forall y :: y in a <==> y in multiset(a);
    assert forall y :: y in b <==> y in multiset(b);
  }

  /** The first row's farm does not occur again in a farm-distinct summary. */
  lemma HeadFarmNotInTail(s: seq<Summary>)
    requires s != [] && DistinctFarmRows(s)
    ensures s[0].farm !in FarmsListed(s[1..])
  {
  }

  lemma {:induction false} InsertKeepsDistinctFarms(x: Summary, t: seq<Summary>)
    requires DistinctFarmRows(t) && x.farm !in FarmsListed(t)
    ensures DistinctFarmRows(InsertByProfit(x, t))
  {
    if t != [] && x.netProfit < t[0].netProfit {
      assert t == [t[0]] + t[1..];
      assert FarmsListed(t[1..]) <= FarmsListed(t) by {
        assert forall y :: y in t[1..] ==> y in t;
      }
      InsertKeepsDistinctFarms(x, t[1..]);
      var rest := InsertByProfit(x, t[1..]);
      PermutationKeepsFarms(rest, t[1..] + [x]);
      HeadFarmNotInTail(t);
      assert t[0].farm !in FarmsListed(rest) by {
        assert forall y :: y in t[1..] + [x] <==> y in t[1..] || y == x;
        assert t[0].farm != x.farm by { assert t[0] in t; }
      }
      forall k | 0 <= k < |rest| ensures rest[k].farm != t[0].farm {
        assert rest[k] in rest;
      }
    } else {
      forall k | 0 <= k < |t| ensures t[k].farm != x.farm {
        assert t[k] in t;
      }
    }
  }

  lemma {:induction false} SortKeepsDistinctFarms(s: seq<Summary>)
    requires DistinctFarmRows(s)
    ensures DistinctFarmRows(SortByProfit(s))
  {
    if s != [] {
      SortKeepsDistinctFarms(s[1..]);
      HeadFarmNotInTail(s);
      PermutationKeepsFarms(SortByProfit(s[1..]), s[1..]);
      InsertKeepsDistinctFarms(s[0], SortByProfit(s[1..]));
    }
  }

  /** GROUP BY Tambak, then ORDER BY Laba_Bersih DESC. */
  function Aggregate(rows: seq<Record>): seq<Summary> {
    SortByProfit(SummariesOf(rows, DistinctFarms(rows)))
  }

  // ---------------------------------------------------------------------------
  // Properties
  // ---------------------------------------------------------------------------

  /** The evaluation answers the query: sorted, one row per farm of the input
      and no other, each row holding exactly its farm's sums. */
  lemma AggregateIsSummary(rows: seq<Record>)
    ensures IsSummaryOf(rows, Aggregate(rows))
  {
    var fs := DistinctFarms(rows);
    var g := SummariesOf(rows, fs);
    var s := Aggregate(rows);
    assert DistinctFarmRows(g) by {
      forall i, j | 0 <= i < j < |g| ensures g[i].farm != g[j].farm {
        assert g[i].farm == fs[i] && g[j].farm == fs[j];
      }
    }
    assert FarmsListed(g) == FarmsOf(rows) by {
      forall f | f in FarmsOf(rows) ensures f in FarmsListed(g) {
        var i :| 0 <= i < |fs| && fs[i] == f;
        assert g[i] in g;
      }
    }
    SortIsSorted(g);
    SortKeepsDistinctFarms(g);
    PermutationKeepsFarms(s, g);
    forall i | 0 <= i < |s| ensures IsFarmSummary(rows, s[i]) {
      assert s[i] in multiset(g);
      var k :| 0 <= k < |g| && g[k] == s[i];
    }
  }

  /** Exactly one summary row per distinct Tambak value of the input. */
  lemma {:induction false} OneRowPerFarm(rows: seq<Record>, s: seq<Summary>)
    requires IsSummaryOf(rows, s)
    ensures |s| == |FarmsOf(rows)|
  {
    DistinctRowsCount(s);
  }

  lemma {:induction false} DistinctRowsCount(s: seq<Summary>)
    requires DistinctFarmRows(s)
    ensures |FarmsListed(s)| == |s|
  {
    if s != [] {
      DistinctRowsCount(s[1..]);
      assert FarmsListed(s) == {s[0].farm} + FarmsListed(s[1..]) by {
        assert forall y :: y in s <==> y == s[0] || y in s[1..];
      }
      HeadFarmNotInTail(s);
    }
  }

  /** The summary is empty exactly when the table has no rows. */
  lemma SummaryEmptyIffNoRows(rows: seq<Record>, s: seq<Summary>)
    requires IsSummaryOf(rows, s)
    ensures s == [] <==> rows == []
  {
    if rows != [] {
      assert rows[0].farm in FarmsOf(rows);
    }
    if s != [] {
      assert s[0].farm in FarmsListed(s);
    }
  }

  /** Any two correct answers differ only in the order of their rows: the
      query fixes the result up to the order of rows of equal profit. */
  lemma SummaryUniqueUpToOrder(rows: seq<Record>, s1: seq<Summary>, s2: seq<Summary>)
    requires IsSummaryOf(rows, s1) && IsSummaryOf(rows, s2)
    ensures multiset(s1) == multiset(s2)
  {
    forall x ensures x in s1 <==> x in s2 {
      if x in s1 {
        SameRowForSameFarm(rows, s1, s2, x);
      }
      if x in s2 {
        SameRowForSameFarm(rows, s2, s1, x);
      }
    }
    forall x ensures multiset(s1)[x] == multiset(s2)[x] {
      DistinctMultiplicity(s1, x);
      DistinctMultiplicity(s2, x);
    }
  }

  lemma SameRowForSameFarm(rows: seq<Record>, s1: seq<Summary>, s2: seq<Summary>, x: Summary)
    requires IsSummaryOf(rows, s1) && IsSummaryOf(rows, s2) && x in s1
    ensures x in s2
  {
    var i :| 0 <= i < |s1| && s1[i] == x;
    assert x.farm in FarmsListed(s2);
    var y :| y in s2 && y.farm == x.farm;
    var j :| 0 <= j < |s2| && s2[j] == y;
    assert IsFarmSummary(rows, s1[i]) && IsFarmSummary(rows, s2[j]);
  }

  lemma {:induction false} DistinctMultiplicity(s: seq<Summary>, x: Summary)
    requires DistinctFarmRows(s)
    ensures multiset(s)[x] == if x in s then 1 else 0
  {
    if s != [] {
      assert s == [s[0]] + s[1..];
      DistinctMultiplicity(s[1..], x);
      if x == s[0] {
        HeadFarmNotInTail(s);
        assert x !in s[1..];
      }
    }
  }

  /** Laba_Bersih of a farm is also the sum, over that farm's rows, of each
      row's revenue minus its cost. */
  lemma {:induction false} NetProfitIsSumOfRowProfits(rows: seq<Record>, farm: string)
    ensures FarmTotal(rows, farm, NetProfit)
         == FarmTotal(rows, farm, Revenue) - FarmTotal(rows, farm, Cost)
  {
    if rows != [] {
      NetProfitIsSumOfRowProfits(rows[1..], farm);
    }
  }

  /** Sum of measure `m` down a column of the summary. */
  function Column(s: seq<Summary>, m: Measure): int {
    if s == [] then 0 else Total(s[0], m) + Column(s[1..], m)
  }

  /** Sum over the farms `fs` of each farm's total. */
  function FarmsColumn(rows: seq<Record>, fs: seq<string>, m: Measure): int {
    if fs == [] then 0 else FarmTotal(rows, fs[0], m) + FarmsColumn(rows, fs[1..], m)
  }

  /** No row is lost or counted twice: every column of the summary adds up
      to the same column of the input table. */
  lemma AggregateConservesTotals(rows: seq<Record>, m: Measure)
    ensures Column(Aggregate(rows), m) == GrandTotal(rows, m)
  {
    var fs := DistinctFarms(rows);
    SortKeepsColumn(SummariesOf(rows, fs), m);
    GroupColumn(rows, fs, m);
    PartitionTotal(rows, fs, m);
  }

  lemma {:induction false} InsertKeepsColumn(x: Summary, t: seq<Summary>, m: Measure)
    ensures Column(InsertByProfit(x, t), m) == Total(x, m) + Column(t, m)
  {
    if t != [] && x.netProfit < t[0].netProfit {
      InsertKeepsColumn(x, t[1..], m);
      assert ([t[0]] + InsertByProfit(x, t[1..]))[1..] == InsertByProfit(x, t[1..]);
    } else {
      assert ([x] + t)[1..] == t;
    }
  }

  lemma {:induction false} SortKeepsColumn(s: seq<Summary>, m: Measure)
    ensures Column(SortByProfit(s), m) == Column(s, m)
  {
    if s != [] {
      SortKeepsColumn(s[1..], m);
      InsertKeepsColumn(s[0], SortByProfit(s[1..]), m);
    }
  }

  lemma {:induction false} GroupColumn(rows: seq<Record>, fs: seq<string>, m: Measure)
    ensures Column(SummariesOf(rows, fs), m) == FarmsColumn(rows, fs, m)
  {
    if fs != [] {
      GroupColumn(rows, fs[1..], m);
      NetProfitIsSumOfRowProfits(rows, fs[0]);
      assert SummariesOf(rows, fs)[1..] == SummariesOf(rows, fs[1..]);
    }
  }

  /** Splitting off the first row of the table from every farm's total. */
  lemma {:induction false} PeelFirstRow(rows: seq<Record>, fs: seq<string>, m: Measure)
    requires rows != [] && NoDuplicates(fs)
    ensures FarmsColumn(rows, fs, m)
         == (if rows[0].farm in fs then Amount(rows[0], m) else 0) + FarmsColumn(rows[1..], fs, m)
  {
    if fs != [] {
      assert NoDuplicates(fs[1..]);
      PeelFirstRow(rows, fs[1..], m);
      assert rows[0].farm == fs[0] ==> rows[0].farm !in fs[1..];
      assert forall f :: f in fs <==> f == fs[0] || f in fs[1..];
    }
  }

  lemma {:induction false} PartitionTotal(rows: seq<Record>, fs: seq<string>, m: Measure)
    requires NoDuplicates(fs)
    requires forall f :: f in FarmsOf(rows) ==> f in fs
    ensures FarmsColumn(rows, fs, m) == GrandTotal(rows, m)
  {
    if rows == [] {
      EmptyTableColumn(fs, m);
    } else {
      assert rows[0].farm in FarmsOf(rows);
      PeelFirstRow(rows, fs, m);
      assert FarmsOf(rows[1..]) <= FarmsOf(rows) by {
        assert forall r :: r in rows[1..] ==> r in rows;
      }
      PartitionTotal(rows[1..], fs, m);
    }
  }

  lemma {:induction false} EmptyTableColumn(fs: seq<string>, m: Measure)
    ensures FarmsColumn([], fs, m) == 0
  {
    if fs != [] {
      EmptyTableColumn(fs[1..], m);
    }
  }
}
