/**
 * Statistics over the wider sample record (revenue and cost on one row):
 * the dashboard summary and the two de-duplicated label lists.
 */
module Financial {
  import opened FinancialTypes
  import opened Aggregate

  /**
   * `getDashboardStats`: revenue, cost, budget and current-month totals;
   * profit as revenue minus cost; the year-to-date total is the revenue
   * total; the completion rate is revenue over budget, the cost completion
   * rate is cost over the cost budget, and the profit rate is profit over
   * revenue, each in percent and each 0 when its denominator is not
   * positive. An empty collection gives all zeros.
   */
  function GetDashboardStats(data: seq<FinancialData>): (s: DashboardStats)
    ensures s.totalRevenue == Sum(data, YearToDateRevenue)
    ensures s.totalCost == Sum(data, YearToDateCost)
    ensures s.totalBudget == Sum(data, BudgetAmount)
    ensures s.currentMonthTotal == Sum(data, CurrentMonthRevenue)
    ensures s.totalProfit + s.totalCost == s.totalRevenue
    ensures s.yearToDateTotal == s.totalRevenue
    ensures s.totalBudget > 0.0 ==> s.overallCompletionRate * s.totalBudget == 100.0 * s.totalRevenue
    ensures s.totalBudget <= 0.0 ==> s.overallCompletionRate == 0.0
    ensures Sum(data, CostBudget) > 0.0 ==> s.costCompletionRate * Sum(data, CostBudget) == 100.0 * s.totalCost
    ensures Sum(data, CostBudget) <= 0.0 ==> s.costCompletionRate == 0.0
    ensures s.totalRevenue > 0.0 ==> s.profitRate * s.totalRevenue == 100.0 * s.totalProfit
    ensures s.totalRevenue <= 0.0 ==> s.profitRate == 0.0
    ensures data == [] ==> s == DashboardStats(0.0, 0.0, 0.0, 0.0, 0.0, 0.0, 0.0, 0.0, 0.0)
  {
    var totalRevenue := Sum(data, YearToDateRevenue);
    var totalCost := Sum(data, YearToDateCost);
    var totalProfit := totalRevenue - totalCost;
    var totalBudget := Sum(data, BudgetAmount);
    DashboardStats(
      totalRevenue := totalRevenue,
      totalCost := totalCost,
      totalProfit := totalProfit,
      overallCompletionRate := Rate(totalRevenue, totalBudget),
      currentMonthTotal := Sum(data, CurrentMonthRevenue),
      yearToDateTotal := totalRevenue,
      costCompletionRate := Rate(totalCost, Sum(data, CostBudget)),
      profitRate := Rate(totalProfit, totalRevenue),
      totalBudget := totalBudget)
  }

  /**
   * The totals of two batches taken together are the sums of their totals,
   * and so is the profit.
   */
  lemma StatsAdditive(a: seq<FinancialData>, b: seq<FinancialData>)
    ensures GetDashboardStats(a + b).totalRevenue == GetDashboardStats(a).totalRevenue + GetDashboardStats(b).totalRevenue
    ensures GetDashboardStats(a + b).totalCost == GetDashboardStats(a).totalCost + GetDashboardStats(b).totalCost
    ensures GetDashboardStats(a + b).totalBudget == GetDashboardStats(a).totalBudget + GetDashboardStats(b).totalBudget
    ensures GetDashboardStats(a + b).currentMonthTotal == GetDashboardStats(a).currentMonthTotal + GetDashboardStats(b).currentMonthTotal
    ensures GetDashboardStats(a + b).totalProfit == GetDashboardStats(a).totalProfit + GetDashboardStats(b).totalProfit
  {
    SumAppend(a, b, YearToDateRevenue);
    SumAppend(a, b, YearToDateCost);
    SumAppend(a, b, BudgetAmount);
    SumAppend(a, b, CurrentMonthRevenue);
  }

  /**
   * `getCategories`: every category of the data exactly once, ordered by
   * where it first occurs, no longer than the data.
   */
  function GetCategories(data: seq<FinancialData>): (r: seq<string>)
    ensures NoDup(r)
    ensures forall c :: c in r <==> c in MapSeq(data, Category)
    ensures forall c :: c in r <==> exists i :: 0 <= i < |data| && data[i].category == c
    ensures |r| <= |data|
    ensures forall i, j :: 0 <= i < j < |r| ==>
              FirstIndex(MapSeq(data, Category), r[i]) < FirstIndex(MapSeq(data, Category), r[j])
  {
    var categories := MapSeq(data, Category);
    FirstSeenSpec(categories);
    assert forall c :: c in categories <==> exists i :: 0 <= i < |data| && data[i].category == c by {
      forall c ensures c in categories <==> exists i :: 0 <= i < |data| && data[i].category == c {
        if c in categories {
          var i :| 0 <= i < |categories| && categories[i] == c;
          assert categories[i] == Category(data[i]);
        }
        if i :| 0 <= i < |data| && data[i].category == c {
          assert categories[i] == Category(data[i]);
        }
      }
    }
    FirstSeen(categories)
  }

  /**
   * `getBusinessSegments`: every business segment of the data exactly
   * once, ordered by where it first occurs, no longer than the data.
   */
  function GetBusinessSegments(data: seq<FinancialData>): (r: seq<string>)
    ensures NoDup(r)
    ensures forall b :: b in r <==> b in MapSeq(data, BusinessSegment)
    ensures forall b :: b in r <==> exists i :: 0 <= i < |data| && data[i].businessSegment == b
    ensures |r| <= |data|
    ensures forall i, j :: 0 <= i < j < |r| ==>
              FirstIndex(MapSeq(data, BusinessSegment), r[i]) < FirstIndex(MapSeq(data, BusinessSegment), r[j])
  {
    var segments := MapSeq(data, BusinessSegment);
    FirstSeenSpec(segments);
    assert forall b :: b in segments <==> exists i :: 0 <= i < |data| && data[i].businessSegment == b by {
      forall b ensures b in segments <==> exists i :: 0 <= i < |data| && data[i].businessSegment == b {
        if b in segments {
          var i :| 0 <= i < |segments| && segments[i] == b;
          assert segments[i] == BusinessSegment(data[i]);
        }
        if i :| 0 <= i < |data| && data[i].businessSegment == b {
          assert segments[i] == BusinessSegment(data[i]);
        }
      }
    }
    FirstSeen(segments)
  }
}
