/**
 * The dashboard page: it holds the revenue and cost collections, replaces
 * one of them wholesale on each upload, empties both on reset, mirrors them
 * into browser storage, and derives from them the global statistics, the
 * menu's enabled items and two "top 3" lists.
 */
module Dashboard {
  import opened Wrappers
  import opened Types
  import opened Aggregate
  import RevenueCharts
  import ComparisonCharts

  // ---------------------------------------------------------------------------
  // Derived figures
  // ---------------------------------------------------------------------------

  datatype GlobalStats = GlobalStats(
    totalRevenue: real,
    totalCost: real,
    netProfit: real,
    profitMargin: real,
    completionRate: real,
    revenueCount: nat,
    costCount: nat)

  /**
   * `getGlobalStats`: year-to-date revenue and cost totals (0 for an empty
   * collection), net profit as their difference (possibly negative), the
   * margin as profit over revenue in percent (0 when revenue is not
   * positive), the completion rate as revenue over the revenue budget in
   * percent (0 when that budget is not positive), and the two counts.
   */
  function GetGlobalStats(revenueData: seq<FinancialData>, costData: seq<CostData>): (s: GlobalStats)
    ensures s.totalRevenue == Sum(revenueData, YearToDateRevenue)
    ensures s.totalCost == Sum(costData, YearToDateCost)
    ensures s.netProfit + s.totalCost == s.totalRevenue
    ensures s.totalRevenue > 0.0 ==> s.profitMargin * s.totalRevenue == 100.0 * s.netProfit
    ensures s.totalRevenue <= 0.0 ==> s.profitMargin == 0.0
    ensures Sum(revenueData, RevenueBudget) > 0.0 ==>
              s.completionRate * Sum(revenueData, RevenueBudget) == 100.0 * s.totalRevenue
    ensures Sum(revenueData, RevenueBudget) <= 0.0 ==> s.completionRate == 0.0
    ensures revenueData == [] ==> s.totalRevenue == 0.0 && s.profitMargin == 0.0 && s.completionRate == 0.0
    ensures costData == [] ==> s.totalCost == 0.0
    ensures s.revenueCount == |revenueData| && s.costCount == |costData|
  {
    var totalRevenue := Sum(revenueData, YearToDateRevenue);
    var totalCost := Sum(costData, YearToDateCost);
    var netProfit := totalRevenue - totalCost;
    GlobalStats(
      totalRevenue,
      totalCost,
      netProfit,
      Rate(netProfit, totalRevenue),
      Rate(totalRevenue, Sum(revenueData, RevenueBudget)),
      |revenueData|,
      |costData|)
  }

  /**
   * The overview repeats the figures of the analysis views: for non-empty
   * revenue data its totals, profit and margin equal the comparison view's,
   * and its completion rate equals the revenue view's overall rate.
   */
  lemma StatsAgreeWithViews(revenueData: seq<FinancialData>, costData: seq<CostData>)
    requires |revenueData| > 0
    ensures GetGlobalStats(revenueData, costData).totalRevenue ==
            ComparisonCharts.ComparisonChartsView(revenueData, costData).totalRevenue
    ensures GetGlobalStats(revenueData, costData).totalCost ==
            ComparisonCharts.ComparisonChartsView(revenueData, costData).totalCost
    ensures GetGlobalStats(revenueData, costData).netProfit ==
            ComparisonCharts.ComparisonChartsView(revenueData, costData).netProfit
    ensures GetGlobalStats(revenueData, costData).profitMargin ==
            ComparisonCharts.ComparisonChartsView(revenueData, costData).profitMargin
    ensures GetGlobalStats(revenueData, costData).completionRate ==
            RevenueCharts.RevenueChartsView(revenueData).overallCompletionRate
  {
  }

  /**
   * The department quick view: revenue grouped by department, sorted by
   * total, descending, and cut to three. It lists min(3, number of
   * departments) distinct departments, each with its year-to-date sum, in
   * non-increasing order, and no department left out has a larger sum than
   * one listed.
   */
  function DepartmentTop3(revenueData: seq<FinancialData>): (top: seq<Entry>)
    ensures var groups := GroupSum(revenueData, RevenueDepartment, YearToDateRevenue);
      && |top| == (if |groups| < 3 then |groups| else 3)
      && NonIncreasing(top, EntryValue)
      && (forall i :: 0 <= i < |top| ==>
            top[i] in groups && top[i].value == SumWhere(revenueData, RevenueDepartment, YearToDateRevenue, top[i].key))
      && NoDup(Keys(top))
      && (forall e :: e in groups && e !in top ==> forall i :: 0 <= i < |top| ==> e.value <= top[i].value)
      && (forall v :: FilterKey(top, EntryValue, v) <= FilterKey(groups, EntryValue, v))
  {
    var groups := GroupSum(revenueData, RevenueDepartment, YearToDateRevenue);
    var top := TopN(groups, 3, EntryValue);
    DepartmentRanking(revenueData, groups, top);
    TopNStable(groups, 3, EntryValue);
    top
  }

  lemma DepartmentRanking(revenueData: seq<FinancialData>, groups: seq<Entry>, top: seq<Entry>)
    requires groups == GroupSum(revenueData, RevenueDepartment, YearToDateRevenue)
    requires top == TopN(groups, 3, EntryValue)
    ensures |top| == (if |groups| < 3 then |groups| else 3)
    ensures NonIncreasing(top, EntryValue)
    ensures forall i :: 0 <= i < |top| ==>
              top[i] in groups && top[i].value == SumWhere(revenueData, RevenueDepartment, YearToDateRevenue, top[i].key)
    ensures NoDup(Keys(top))
    ensures forall e :: e in groups && e !in top ==> forall i :: 0 <= i < |top| ==> e.value <= top[i].value
  {
    GroupSumSpec(revenueData, RevenueDepartment, YearToDateRevenue);
    TopNSpec(groups, 3, EntryValue);
    TopEntries(groups, top);
    forall i | 0 <= i < |top|
      ensures top[i].value == SumWhere(revenueData, RevenueDepartment, YearToDateRevenue, top[i].key)
    {
      var a :| 0 <= a < |groups| && groups[a] == top[i];
    }
    forall e | e in groups && e !in top
      ensures forall i :: 0 <= i < |top| ==> e.value <= top[i].value
    {
      assert forall i :: 0 <= i < |top| ==> EntryValue(e) <= EntryValue(top[i]);
    }
  }

  /** Entries drawn, as a sub-multiset, from a list with distinct keys keep distinct keys. */
  lemma TopEntries(groups: seq<Entry>, top: seq<Entry>)
    requires NoDup(Keys(groups))
    requires multiset(top) <= multiset(groups)
    ensures forall i :: 0 <= i < |top| ==> top[i] in groups
    ensures NoDup(Keys(top))
  {
    forall i | 0 <= i < |top|
      ensures top[i] in groups
    {
      assert top[i] in multiset(top);
    }
    forall i, j | 0 <= i < j < |top|
      ensures Keys(top)[i] != Keys(top)[j]
    {
      var a :| 0 <= a < |groups| && groups[a] == top[i];
      var b :| 0 <= b < |groups| && groups[b] == top[j];
      assert Keys(groups)[a] == top[i].key && Keys(groups)[b] == top[j].key;
      GroupCount(groups, a);
      RepeatCount(top, i, j);
    }
  }

  /** Two equal positions make an element occur at least twice. */
  lemma RepeatCount<T>(s: seq<T>, i: nat, j: nat)
    requires i < j < |s|
    ensures s[i] == s[j] ==> multiset(s)[s[i]] >= 2
  {
    assert s == s[..i] + [s[i]] + s[i + 1..j] + [s[j]] + s[j + 1..];
  }

  /** In a list with distinct keys every entry occurs once. */
  lemma {:induction false} GroupCount(groups: seq<Entry>, a: nat)
    requires NoDup(Keys(groups)) && a < |groups|
    ensures multiset(groups)[groups[a]] == 1
  {
    var e := groups[a];
    assert groups == groups[..a] + [e] + groups[a + 1..];
    forall k | 0 <= k < |groups| && k != a
      ensures groups[k] != e
    {
      assert Keys(groups)[k] != Keys(groups)[a];
    }
    assert e !in groups[..a] by {
      forall k | 0 <= k < a ensures groups[..a][k] != e { assert groups[..a][k] == groups[k]; }
    }
    assert e !in groups[a + 1..] by {
      var rest := groups[a + 1..];
      forall k | 0 <= k < |rest| ensures rest[k] != e { assert rest[k] == groups[a + 1 + k]; }
    }
  }

  /**
   * The completion ranking: a sorted copy of the revenue records, by
   * completion rate, descending, cut to three. It holds min(3, n) of the
   * records in non-increasing rate order, and no record left out has a
   * higher rate than one listed.
   */
  function CompletionTop3(revenueData: seq<FinancialData>): (top: seq<FinancialData>)
    ensures |top| == if |revenueData| < 3 then |revenueData| else 3
    ensures NonIncreasing(top, CompletionRate)
    ensures multiset(top) <= multiset(revenueData)
    ensures forall r :: multiset(top)[r] < multiset(revenueData)[r] ==>
              forall i :: 0 <= i < |top| ==> r.completionRate <= top[i].completionRate
    ensures forall v :: FilterKey(top, CompletionRate, v) <= FilterKey(revenueData, CompletionRate, v)
  {
    TopNSpec(revenueData, 3, CompletionRate);
    TopNStable(revenueData, 3, CompletionRate);
    var top := TopN(revenueData, 3, CompletionRate);
    forall r | multiset(top)[r] < multiset(revenueData)[r]
      ensures forall i :: 0 <= i < |top| ==> r.completionRate <= top[i].completionRate
    {
      assert forall i :: 0 <= i < |top| ==> CompletionRate(r) <= CompletionRate(top[i]);
    }
    top
  }

  /**
   * Ties keep their input order: when all records share one completion
   * rate, the ranking shows the first three, as given.
   */
  lemma CompletionTiesKeepInputOrder(revenueData: seq<FinancialData>)
    requires forall i :: 0 <= i < |revenueData| ==> revenueData[i].completionRate == revenueData[0].completionRate
    ensures CompletionTop3(revenueData) == if |revenueData| < 3 then revenueData else revenueData[..3]
  {
    var top := CompletionTop3(revenueData);
    if |revenueData| > 0 {
      var v := revenueData[0].completionRate;
      FilterAll(revenueData, CompletionRate, v);
      forall i | 0 <= i < |top|
        ensures CompletionRate(top[i]) == v
      {
        assert top[i] in multiset(top);
        assert top[i] in multiset(revenueData);
      }
      FilterAll(top, CompletionRate, v);
      assert top <= revenueData;
    }
  }

  // ---------------------------------------------------------------------------
  // The page state
  // ---------------------------------------------------------------------------

  /** The items of the side menu. */
  datatype MenuKey = Overview | RevenueAnalysis | CostAnalysis | Comparison | DataOverview | UploadPage

  class DashboardState {
    var revenueData: seq<FinancialData>
    var costData: seq<CostData>

    /**
     * What the two storage keys decode to, as a reload would read them:
     * None for a key that is absent (or does not decode).
     */
    ghost var storedRevenue: Option<seq<FinancialData>>
    ghost var storedCost: Option<seq<CostData>>

    /**
     * Between handlers, storage reloads to exactly the collections on
     * screen. Each handler is one atomic step here.
     */
    ghost predicate Valid()
      reads this
    {
      revenueData == storedRevenue.GetOr([]) && costData == storedCost.GetOr([])
    }

    /**
     * Mounting the page: both collections start empty and the mount effect
     * loads each stored collection that decodes.
     */
    constructor (savedRevenue: Option<seq<FinancialData>>, savedCost: Option<seq<CostData>>)
      ensures Valid()
      ensures revenueData == savedRevenue.GetOr([]) && costData == savedCost.GetOr([])
      ensures storedRevenue == savedRevenue && storedCost == savedCost
    {
      revenueData := savedRevenue.GetOr([]);
      costData := savedCost.GetOr([]);
      storedRevenue := savedRevenue;
      storedCost := savedCost;
    }

    /** `hasData`: true iff either collection holds a record. */
    function HasData(): (b: bool)
      reads this
      ensures b <==> !(MenuDisabled(RevenueAnalysis) && MenuDisabled(CostAnalysis))
    {
      |revenueData| > 0 || |costData| > 0
    }

    /**
     * The `disabled` flag of a menu item: the revenue and comparison views
     * need revenue data, the cost view needs cost data, the others are
     * always enabled.
     */
    function MenuDisabled(key: MenuKey): (b: bool)
      reads this
      ensures b ==> key == RevenueAnalysis || key == CostAnalysis || key == Comparison
    {
      match key
      case RevenueAnalysis => |revenueData| == 0
      case Comparison => |revenueData| == 0
      case CostAnalysis => |costData| == 0
      case _ => false
    }

    /**
     * `handleRevenueDataUpload`: the revenue collection becomes `data`; the
     * cost collection is untouched; both are written to storage.
     */
    method UploadRevenue(data: seq<FinancialData>)
      requires Valid()
      modifies this
      ensures Valid()
      ensures revenueData == data && costData == old(costData)
      ensures storedRevenue == Some(data) && storedCost == Some(old(costData))
      ensures MenuDisabled(RevenueAnalysis) <==> data == []
      ensures MenuDisabled(CostAnalysis) == old(MenuDisabled(CostAnalysis))
    {
      revenueData := data;
      storedRevenue := Some(data);
      storedCost := Some(costData);
    }

    /** `handleCostDataUpload`: the mirror image of UploadRevenue. */
    method UploadCost(data: seq<CostData>)
      requires Valid()
      modifies this
      ensures Valid()
      ensures costData == data && revenueData == old(revenueData)
      ensures storedRevenue == Some(old(revenueData)) && storedCost == Some(data)
      ensures MenuDisabled(CostAnalysis) <==> data == []
      ensures MenuDisabled(RevenueAnalysis) == old(MenuDisabled(RevenueAnalysis))
    {
      costData := data;
      storedRevenue := Some(revenueData);
      storedCost := Some(data);
    }

    /** `handleResetData`: both collections emptied and both keys removed. */
    method Reset()
      requires Valid()
      modifies this
      ensures Valid()
      ensures revenueData == [] && costData == []
      ensures storedRevenue == None && storedCost == None
      ensures !HasData()
      ensures MenuDisabled(RevenueAnalysis) && MenuDisabled(CostAnalysis) && MenuDisabled(Comparison)
    {
      revenueData := [];
      costData := [];
      storedRevenue := None;
      storedCost := None;
    }
  }

  /** The comparison view needs exactly what the revenue view needs. */
  lemma ComparisonMenuFollowsRevenue(page: DashboardState)
    ensures page.MenuDisabled(Comparison) == page.MenuDisabled(RevenueAnalysis)
    ensures !page.MenuDisabled(Overview) && !page.MenuDisabled(DataOverview) && !page.MenuDisabled(UploadPage)
  {
  }
}
