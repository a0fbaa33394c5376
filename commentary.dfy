/** The rule-based insight: the first row of the sorted summary is reported as
    the most profitable farm, the last row as the least profitable one, with
    both net profits and their difference. */
module Commentary {
  import opened Aggregation
  import Rupiah

  /** The five values the insight's three bullet lines interpolate. */
  datatype Insight = Insight(
    bestFarm: string, bestProfit: int,
    worstFarm: string, worstProfit: int,
    gap: int)

  /** `summary.iloc[0]` and `summary.iloc[-1]`; there is no first row of an
      empty summary, so the caller must supply at least one. */
  function RuleBased(summary: seq<Summary>): (r: Insight)
    requires summary != []
    ensures r.bestFarm == summary[0].farm && r.bestProfit == summary[0].netProfit
    ensures r.worstFarm == summary[|summary| - 1].farm
    ensures r.worstProfit == summary[|summary| - 1].netProfit
    ensures r.gap == r.bestProfit - r.worstProfit
    ensures SortedByProfit(summary) ==>
              && 0 <= r.gap
              && forall i :: 0 <= i < |summary| ==>
                   r.worstProfit <= summary[i].netProfit <= r.bestProfit
    ensures |summary| == 1 ==> r.bestFarm == r.worstFarm && r.gap == 0
  {
    var top := summary[0];
    var bottom := summary[|summary| - 1];
    Insight(top.farm, top.netProfit, bottom.farm, bottom.netProfit,
            top.netProfit - bottom.netProfit)
  }

  /** Net profit of one farm over the whole table. */
  function FarmProfit(rows: seq<Record>, farm: string): int {
    FarmTotal(rows, farm, Revenue) - FarmTotal(rows, farm, Cost)
  }

  /** Read against the input table: the reported best farm is a farm of the
      table whose profit no other farm exceeds, the reported worst farm one
      whose profit no farm falls below, and with a single farm both name it. */
  lemma InsightOfTable(rows: seq<Record>, s: seq<Summary>)
    requires IsSummaryOf(rows, s) && rows != []
    ensures s != []
    ensures var r := RuleBased(s);
      && r.bestFarm in FarmsOf(rows) && r.worstFarm in FarmsOf(rows)
      && r.bestProfit == FarmProfit(rows, r.bestFarm)
      && r.worstProfit == FarmProfit(rows, r.worstFarm)
      && (forall f :: f in FarmsOf(rows) ==>
            r.worstProfit <= FarmProfit(rows, f) <= r.bestProfit)
      && (|FarmsOf(rows)| == 1 ==> r.bestFarm == r.worstFarm && r.gap == 0)
  {
    SummaryEmptyIffNoRows(rows, s);
    OneRowPerFarm(rows, s);
    var r := RuleBased(s);
    assert s[0] in s && s[|s| - 1] in s;
    assert IsFarmSummary(rows, s[0]) && IsFarmSummary(rows, s[|s| - 1]);
    forall f | f in FarmsOf(rows)
      ensures r.worstProfit <= FarmProfit(rows, f) <= r.bestProfit
    {
      assert f in FarmsListed(s);
      var y :| y in s && y.farm == f;
      var i :| 0 <= i < |s| && s[i] == y;
      assert IsFarmSummary(rows, s[i]);
    }
  }

  /** The worked example: farm A (revenue 200, cost 50) and farm B (revenue
      90, cost 60) give the summary [A: 150, B: 30] and an insight reporting
      A at Rp 150, B at Rp 30 and a difference of Rp 120. */
  lemma TwoFarmExample()
    ensures var rows := [Record("A", 100, 50, 200), Record("B", 80, 60, 90)];
      && Aggregate(rows) == [Summary("A", 100, 50, 200, 150), Summary("B", 80, 60, 90, 30)]
      && RuleBased(Aggregate(rows)) == Insight("A", 150, "B", 30, 120)
      && Rupiah.FormatAmount(120) == "120"
  {
    var rows := [Record("A", 100, 50, 200), Record("B", 80, 60, 90)];
    assert rows[..1] == [rows[0]];
    assert [rows[0]][..0] == [];
    assert DistinctFarms(rows) == ["A", "B"];
    assert rows[1..] == [rows[1]];
    assert SummaryOf(rows, "A") == Summary("A", 100, 50, 200, 150);
    assert SummaryOf(rows, "B") == Summary("B", 80, 60, 90, 30);
  }
}
