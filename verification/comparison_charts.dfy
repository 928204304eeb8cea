/**
 * The revenue/cost comparison view: a placeholder when there is no revenue
 * data (whatever the cost data), otherwise the two year-to-date totals, the
 * net profit and the profit margin; a three-column bar chart with one series
 * per total; a pie of the first eight revenue records with shortened labels
 * and a fixed colour cycle; and a details list of the first six records.
 */
module ComparisonCharts {
  import opened Types
  import opened Aggregate

  datatype PieSlice = PieSlice(name: string, value: real, color: string)

  datatype ComparisonView =
    | NoComparisonData
    | ComparisonOverview(
        totalRevenue: real,
        totalCost: real,
        netProfit: real,
        profitMargin: real,
        revenueBars: seq<real>,
        costBars: seq<real>,
        profitBars: seq<real>,
        distribution: seq<PieSlice>,
        details: seq<FinancialData>)

  /** The colours of the distribution pie, used in turn. */
  const Palette: seq<string> :=
    ["#52c41a", "#1890ff", "#722ed1", "#13c2c2", "#faad14", "#f5222d", "#eb2f96", "#fa8c16"]

  const PieSlices: nat := 8
  const DetailRows: nat := 6
  const LabelLength: nat := 10

  /**
   * A name longer than ten characters is cut to its first ten followed by
   * "..."; a shorter one is kept whole.
   */
  function Truncate(name: string): (r: string)
    ensures |name| <= LabelLength ==> r == name
    ensures |name| > LabelLength ==> |r| == LabelLength + 3 && r[..LabelLength] == name[..LabelLength] && r[LabelLength..] == "..."
    ensures |r| <= LabelLength + 3
  {
    if |name| > LabelLength then name[..LabelLength] + "..." else name
  }

  /** No colour occurs twice in the palette. */
  lemma PaletteDistinct()
    ensures |Palette| == PieSlices
    ensures forall i, j :: 0 <= i < j < |Palette| ==> Palette[i] != Palette[j]
  {
    forall i, j | 0 <= i < j < |Palette|
      ensures Palette[i] != Palette[j]
    {
      assert Palette[i][1..3] != Palette[j][1..3] || Palette[i][3..] != Palette[j][3..];
    }
  }

  /**
   * `revenueData.slice(0, 8).map((item, index) => ({ name, value, itemStyle: { color } }))`:
   * one slice per record among the first eight, in order, coloured by
   * position, so no two slices share a colour.
   */
  function Distribution(data: seq<FinancialData>): (r: seq<PieSlice>)
    ensures |r| == if |data| < PieSlices then |data| else PieSlices
    ensures forall i :: 0 <= i < |r| ==>
              && r[i].name == Truncate(data[i].businessSegment)
              && r[i].value == data[i].yearToDateRevenue
              && r[i].color == Palette[i % 8]
    ensures forall i, j :: 0 <= i < j < |r| ==> r[i].color != r[j].color
  {
    PaletteDistinct();
    assert forall i :: 0 <= i < PieSlices ==> i % 8 == i;
    var first := Take(data, PieSlices);
    seq(|first|, i requires 0 <= i < |first| =>
      PieSlice(Truncate(first[i].businessSegment), first[i].yearToDateRevenue, Palette[i % 8]))
  }

  /** `revenueData.slice(0, 6)`: the completion details list the first six records, in order. */
  function Details(data: seq<FinancialData>): (r: seq<FinancialData>)
    ensures |r| == if |data| < DetailRows then |data| else DetailRows
    ensures forall i :: 0 <= i < |r| ==> r[i] == data[i]
  {
    Take(data, DetailRows)
  }

  /**
   * The view is the placeholder exactly when there is no revenue data. Then:
   * net profit is revenue minus cost (each a year-to-date sum) and may be
   * negative; the margin is profit over revenue as a percentage, 0 when
   * revenue is not positive even if there is cost; each bar series is zero
   * except at its own column (revenue 0, cost 1, profit 2); the pie is the
   * Distribution of the records (see there); the details list is the first
   * min(6, n) records, which are also the first pie slices.
   */
  function ComparisonChartsView(revenueData: seq<FinancialData>, costData: seq<CostData>): (v: ComparisonView)
    ensures v.NoComparisonData? <==> |revenueData| == 0
    ensures v.ComparisonOverview? ==>
      && v.totalRevenue == Sum(revenueData, YearToDateRevenue)
      && v.totalCost == Sum(costData, YearToDateCost)
      && v.netProfit + v.totalCost == v.totalRevenue
      && (v.totalRevenue > 0.0 ==> v.profitMargin * v.totalRevenue == 100.0 * v.netProfit)
      && (v.totalRevenue <= 0.0 ==> v.profitMargin == 0.0)
      && |v.revenueBars| == |v.costBars| == |v.profitBars| == 3
      && v.revenueBars[0] == v.totalRevenue && v.costBars[1] == v.totalCost && v.profitBars[2] == v.netProfit
      && (forall i :: 0 <= i < 3 ==>
            (i != 0 ==> v.revenueBars[i] == 0.0) && (i != 1 ==> v.costBars[i] == 0.0) && (i != 2 ==> v.profitBars[i] == 0.0))
      && v.distribution == Distribution(revenueData)
      && |v.details| == (if |revenueData| < DetailRows then |revenueData| else DetailRows)
      && (forall i :: 0 <= i < |v.details| ==>
            v.details[i] == revenueData[i] && v.distribution[i].value == v.details[i].yearToDateRevenue)
  {
    if |revenueData| == 0 then NoComparisonData
    else
      var totalRevenue := Sum(revenueData, YearToDateRevenue);
      var totalCost := Sum(costData, YearToDateCost);
      var netProfit := totalRevenue - totalCost;
      ComparisonOverview(
        totalRevenue,
        totalCost,
        netProfit,
        Rate(netProfit, totalRevenue),
        [totalRevenue, 0.0, 0.0],
        [0.0, totalCost, 0.0],
        [0.0, 0.0, netProfit],
        Distribution(revenueData),
        Details(revenueData))
  }

  /** Revenue 1000 against cost 600: a profit of 400 and a margin of 40%. */
  lemma ExampleProfit(revenueData: seq<FinancialData>, costData: seq<CostData>)
    requires Sum(revenueData, YearToDateRevenue) == 1000.0
    requires Sum(costData, YearToDateCost) == 600.0
    requires |revenueData| > 0
    ensures ComparisonChartsView(revenueData, costData).netProfit == 400.0
    ensures ComparisonChartsView(revenueData, costData).profitMargin == 40.0
  {
  }

  /** With no revenue but some cost, the loss is reported and the margin is 0. */
  lemma LossWithoutRevenue(revenueData: seq<FinancialData>, costData: seq<CostData>)
    requires |revenueData| > 0
    requires Sum(revenueData, YearToDateRevenue) == 0.0
    requires Sum(costData, YearToDateCost) > 0.0
    ensures ComparisonChartsView(revenueData, costData).netProfit < 0.0
    ensures ComparisonChartsView(revenueData, costData).profitMargin == 0.0
  {
  }
}
