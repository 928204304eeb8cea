/**
 * The revenue analysis view: a placeholder when there is no revenue data,
 * otherwise three totals, the overall completion rate, two bar charts whose
 * category axis is the business segment of each record, and a pie of
 * year-to-date revenue by department.
 */
module RevenueCharts {
  import opened Types
  import opened Aggregate

  datatype RevenueView =
    | NoRevenueData
    | RevenueOverview(
        totalCurrentMonth: real,
        totalYearToDate: real,
        totalBudget: real,
        overallCompletionRate: real,
        segmentAxis: seq<string>,
        currentMonthSeries: seq<real>,
        yearToDateSeries: seq<real>,
        departmentPie: seq<Entry>)

  /**
   * The view is the placeholder exactly when there are no records. Otherwise
   * the totals are the field sums, the rate is year-to-date over budget as a
   * percentage (0 for a non-positive budget), the axis and both series are
   * aligned with the records by position, and the pie has one slice per
   * distinct department, in first-seen order, holding that department's
   * year-to-date sum, the slices adding up to the year-to-date total.
   */
  function RevenueChartsView(data: seq<FinancialData>): (v: RevenueView)
    ensures v.NoRevenueData? <==> |data| == 0
    ensures v.RevenueOverview? ==>
      && v.totalCurrentMonth == Sum(data, CurrentMonthRevenue)
      && v.totalYearToDate == Sum(data, YearToDateRevenue)
      && v.totalBudget == Sum(data, RevenueBudget)
      && (v.totalBudget > 0.0 ==> v.overallCompletionRate * v.totalBudget == 100.0 * v.totalYearToDate)
      && (v.totalBudget <= 0.0 ==> v.overallCompletionRate == 0.0)
      && |v.segmentAxis| == |v.currentMonthSeries| == |v.yearToDateSeries| == |data|
      && (forall i :: 0 <= i < |data| ==>
            && v.segmentAxis[i] == data[i].businessSegment
            && v.currentMonthSeries[i] == data[i].currentMonthRevenue
            && v.yearToDateSeries[i] == data[i].yearToDateRevenue)
      && Keys(v.departmentPie) == FirstSeen(MapSeq(data, RevenueDepartment))
      && NoDup(Keys(v.departmentPie))
      && (forall d :: d in Keys(v.departmentPie) <==> exists j :: 0 <= j < |data| && data[j].department == d)
      && (forall i :: 0 <= i < |v.departmentPie| ==>
            v.departmentPie[i].value == SumWhere(data, RevenueDepartment, YearToDateRevenue, v.departmentPie[i].key))
      && Sum(v.departmentPie, EntryValue) == v.totalYearToDate
  {
    if |data| == 0 then NoRevenueData
    else
      var totalYearToDate := Sum(data, YearToDateRevenue);
      var totalBudget := Sum(data, RevenueBudget);
      GroupSumSpec(data, RevenueDepartment, YearToDateRevenue);
      RevenueOverview(
        Sum(data, CurrentMonthRevenue),
        totalYearToDate,
        totalBudget,
        Rate(totalYearToDate, totalBudget),
        MapSeq(data, BusinessSegment),
        MapSeq(data, CurrentMonthRevenue),
        MapSeq(data, YearToDateRevenue),
        GroupSum(data, RevenueDepartment, YearToDateRevenue))
  }

  /** Two records of department "X" with 100 and 200 year to date make one slice worth 300. */
  lemma ExampleDepartmentPie(a: FinancialData, b: FinancialData)
    requires a.department == "X" && a.yearToDateRevenue == 100.0
    requires b.department == "X" && b.yearToDateRevenue == 200.0
    ensures RevenueChartsView([a, b]).departmentPie == [Entry("X", 300.0)]
  {
    assert [a, b][..1] == [a];
    assert [a][..0] == [];
    var once := GroupSum([a], RevenueDepartment, YearToDateRevenue);
    assert GroupSum([a][..0], RevenueDepartment, YearToDateRevenue) == [];
    assert RevenueDepartment(a) == "X" && YearToDateRevenue(a) == 100.0;
    assert RevenueDepartment(b) == "X" && YearToDateRevenue(b) == 200.0;
    assert once == [Entry("X", 100.0)];
    assert GroupSum([a, b], RevenueDepartment, YearToDateRevenue) == Accumulate(once, "X", 200.0);
    assert once[1..] == [];
  }
}
