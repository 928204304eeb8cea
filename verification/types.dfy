/**
 * The two record shapes used throughout the dashboard: a revenue row and a
 * cost row. Amounts are in units of ten thousand ("wan") after ingestion; the
 * rates are percentages supplied by the spreadsheet.
 */
module Types {

  datatype FinancialData = FinancialData(
    businessSegment: string,
    currentMonthRevenue: real,
    yearToDateRevenue: real,
    budgetAmount: real,
    completionRate: real,
    department: string)

  datatype CostData = CostData(
    costCategory: string,
    currentMonthCost: real,
    yearToDateCost: real,
    budgetAmount: real,
    costRate: real,
    department: string)

  // Field selectors as named functions, so that folds can take them as values.

  function BusinessSegment(r: FinancialData): string { r.businessSegment }
  function CurrentMonthRevenue(r: FinancialData): real { r.currentMonthRevenue }
  function YearToDateRevenue(r: FinancialData): real { r.yearToDateRevenue }
  function RevenueBudget(r: FinancialData): real { r.budgetAmount }
  function CompletionRate(r: FinancialData): real { r.completionRate }
  function RevenueDepartment(r: FinancialData): string { r.department }

  function CostCategory(c: CostData): string { c.costCategory }
  function CurrentMonthCost(c: CostData): real { c.currentMonthCost }
  function YearToDateCost(c: CostData): real { c.yearToDateCost }
  function CostBudget(c: CostData): real { c.budgetAmount }
  function CostDepartment(c: CostData): string { c.department }
}

/**
 * The wider record of the bundled sample data set, with revenue and cost on
 * one row, and the statistics computed over it.
 */
module FinancialTypes {

  datatype FinancialData = FinancialData(
    id: string,
    businessSegment: string,
    category: string,
    currentMonthRevenue: real,
    yearToDateRevenue: real,
    currentMonthCost: real,
    yearToDateCost: real,
    budgetAmount: real,
    costBudget: real,
    completionRate: real,
    costCompletionRate: real,
    growthRate: real,
    profitRate: real,
    month: int,
    year: int)

  datatype DashboardStats = DashboardStats(
    totalRevenue: real,
    totalCost: real,
    totalProfit: real,
    overallCompletionRate: real,
    currentMonthTotal: real,
    yearToDateTotal: real,
    costCompletionRate: real,
    profitRate: real,
    totalBudget: real)

  function Category(d: FinancialData): string { d.category }
  function BusinessSegment(d: FinancialData): string { d.businessSegment }
  function CurrentMonthRevenue(d: FinancialData): real { d.currentMonthRevenue }
  function YearToDateRevenue(d: FinancialData): real { d.yearToDateRevenue }
  function YearToDateCost(d: FinancialData): real { d.yearToDateCost }
  function BudgetAmount(d: FinancialData): real { d.budgetAmount }
  function CostBudget(d: FinancialData): real { d.costBudget }
}
