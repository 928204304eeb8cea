/**
 * The cost analysis view: a placeholder when there is no cost data,
 * otherwise three totals, the overall completion rate, two bar charts whose
 * category axis is the cost category of each record, and a pie of
 * year-to-date cost by department.
 */
module CostCharts {
  import opened Types
  import opened Aggregate

  datatype CostView =
    | NoCostData
    | CostOverview(
        totalCurrentMonth: real,
        totalYearToDate: real,
        totalBudget: real,
        overallCostRate: real,
        categoryAxis: seq<string>,
        currentMonthSeries: seq<real>,
        yearToDateSeries: seq<real>,
        departmentPie: seq<Entry>)

  /**
   * The view is the placeholder exactly when there are no records. Otherwise
   * the totals are the field sums, the cost rate is year-to-date cost over budget as a
   * percentage (0 for a non-positive budget), the axis and both series are
   * aligned with the records by position, and the pie has one slice per
   * distinct department, in first-seen order, holding that department's
   * year-to-date sum, the slices adding up to the year-to-date total.
   */
  function CostChartsView(data: seq<CostData>): (v: CostView)
    ensures v.NoCostData? <==> |data| == 0
    ensures v.CostOverview? ==>
      && v.totalCurrentMonth == Sum(data, CurrentMonthCost)
      && v.totalYearToDate == Sum(data, YearToDateCost)
      && v.totalBudget == Sum(data, CostBudget)
      && (v.totalBudget > 0.0 ==> v.overallCostRate * v.totalBudget == 100.0 * v.totalYearToDate)
      && (v.totalBudget <= 0.0 ==> v.overallCostRate == 0.0)
      && |v.categoryAxis| == |v.currentMonthSeries| == |v.yearToDateSeries| == |data|
      && (forall i :: 0 <= i < |data| ==>
            && v.categoryAxis[i] == data[i].costCategory
            && v.currentMonthSeries[i] == data[i].currentMonthCost
            && v.yearToDateSeries[i] == data[i].yearToDateCost)
      && Keys(v.departmentPie) == FirstSeen(MapSeq(data, CostDepartment))
      && NoDup(Keys(v.departmentPie))
      && (forall d :: d in Keys(v.departmentPie) <==> exists j :: 0 <= j < |data| && data[j].department == d)
      && (forall i :: 0 <= i < |v.departmentPie| ==>
            v.departmentPie[i].value == SumWhere(data, CostDepartment, YearToDateCost, v.departmentPie[i].key))
      && Sum(v.departmentPie, EntryValue) == v.totalYearToDate
  {
    if |data| == 0 then NoCostData
    else
      var totalYearToDate := Sum(data, YearToDateCost);
      var totalBudget := Sum(data, CostBudget);
      GroupSumSpec(data, CostDepartment, YearToDateCost);
      CostOverview(
        Sum(data, CurrentMonthCost),
        totalYearToDate,
        totalBudget,
        Rate(totalYearToDate, totalBudget),
        MapSeq(data, CostCategory),
        MapSeq(data, CurrentMonthCost),
        MapSeq(data, YearToDateCost),
        GroupSum(data, CostDepartment, YearToDateCost))
  }
}
