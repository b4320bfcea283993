/**
 The income statement derived from the transactions table: amounts are summed
 per category, eleven named quantities are read from those sums (0 when the
 category never occurs), six subtotals are derived, and an eighteen-row table
 of (label, amount) rows is laid out with every deduction shown negated.

 The category labels are those the page reads. Only the first two are among
 the categories the transaction form offers; the other nine can never be
 entered through it, so in practice they read as 0.
 */
module Statement {
  import opened Ledger

  const RevenueCategory: Category := "Revenue Accounts"
  const SalesReturnsCategory: Category := "Contra-Revenue Accounts (Reduce revenue)"
  const CogsCategory: Category := "Cost of Goods Sold (COGS)"
  const SalariesCategory: Category := "Salaries & Wages"
  const RentCategory: Category := "Rent Expense"
  const UtilitiesCategory: Category := "Utilities"
  const DepreciationCategory: Category := "Depreciation"
  const OtherOperatingCategory: Category := "Other Operating Expenses"
  const OtherIncomeCategory: Category := "Other Income"
  const OtherExpensesCategory: Category := "Other Expenses"
  const TaxCategory: Category := "Tax Expense"

  /** The eleven categories the statement reads. */
  const LookedUpCategories: set<Category> := {
    RevenueCategory, SalesReturnsCategory, CogsCategory, SalariesCategory, RentCategory,
    UtilitiesCategory, DepreciationCategory, OtherOperatingCategory, OtherIncomeCategory,
    OtherExpensesCategory, TaxCategory
  }

  /** The categories that add to net profit; every other looked-up category is a deduction. */
  const AddingCategories: set<Category> := {RevenueCategory, OtherIncomeCategory}

  /** The choices offered by the transaction form's category selector. */
  const SelectableCategories: seq<Category> := [
    "Current Asset", "Non-Current Asset", "Contra-Asset (Reduce asset value)",
    "Liabilities", "Contra-Liability Accounts (Reduce liability value)", "Equity Accounts / Capital",
    "Revenue Accounts", "Contra-Revenue Accounts (Reduce revenue)",
    "Operating Expenses (Day-to-day business costs)",
    "Non-Operating Expenses (Not part of core operations)"
  ]

  /** Reference definition: the sum of the amounts of the transactions booked under `c`. */
  function CategoryTotal(txs: seq<Transaction>, c: Category): real
    decreases |txs|
  {
    if |txs| == 0 then 0.0
    else
      var t := txs[|txs| - 1];
      CategoryTotal(txs[..|txs| - 1], c) + (if t.category == c then t.amount else 0.0)
  }

  /** The grouped sum's lookup with a default of 0 for a category that is not a key. */
  function Get(m: map<Category, real>, c: Category): real
  {
    if c in m then m[c] else 0.0
  }

  /**
   Grouping by category and summing, built one transaction at a time: the keys
   are exactly the categories that occur, and every lookup, present or not,
   is the category's filtered sum.
   */
  function GroupSums(txs: seq<Transaction>): (m: map<Category, real>)
    ensures m.Keys == set t | t in txs :: t.category
    ensures forall c :: Get(m, c) == CategoryTotal(txs, c)
    decreases |txs|
  {
    if |txs| == 0 then map[]
    else
      var prefix := txs[..|txs| - 1];
      var t := txs[|txs| - 1];
      assert txs == prefix + [t];
      var m := GroupSums(prefix);
      m[t.category := Get(m, t.category) + t.amount]
  }

  /** The eleven quantities read from the grouped sums. */
  datatype Figures = Figures(
    revenue: real, salesReturns: real, cogs: real,
    salaries: real, rent: real, utilities: real, depreciation: real, otherOperatingExpenses: real,
    otherIncome: real, otherExpenses: real, taxExpense: real)

  /** Reads the eleven quantities; each is the total of its category, or 0 when it is absent. */
  function ReadFigures(txs: seq<Transaction>): (q: Figures)
    ensures q.revenue == CategoryTotal(txs, RevenueCategory)
    ensures q.salesReturns == CategoryTotal(txs, SalesReturnsCategory)
    ensures q.cogs == CategoryTotal(txs, CogsCategory)
    ensures q.salaries == CategoryTotal(txs, SalariesCategory)
    ensures q.rent == CategoryTotal(txs, RentCategory)
    ensures q.utilities == CategoryTotal(txs, UtilitiesCategory)
    ensures q.depreciation == CategoryTotal(txs, DepreciationCategory)
    ensures q.otherOperatingExpenses == CategoryTotal(txs, OtherOperatingCategory)
    ensures q.otherIncome == CategoryTotal(txs, OtherIncomeCategory)
    ensures q.otherExpenses == CategoryTotal(txs, OtherExpensesCategory)
    ensures q.taxExpense == CategoryTotal(txs, TaxCategory)
  {
    var income := GroupSums(txs);
    Figures(
      Get(income, RevenueCategory), Get(income, SalesReturnsCategory), Get(income, CogsCategory),
      Get(income, SalariesCategory), Get(income, RentCategory), Get(income, UtilitiesCategory),
      Get(income, DepreciationCategory), Get(income, OtherOperatingCategory),
      Get(income, OtherIncomeCategory), Get(income, OtherExpensesCategory), Get(income, TaxCategory))
  }

  /** The six derived subtotals. */
  datatype Totals = Totals(
    netRevenue: real, grossProfit: real, totalOperatingExpenses: real,
    operatingProfit: real, ebt: real, netProfit: real)

  /** Derives the subtotals in the page's order, each from the ones before it. */
  function Derive(q: Figures): Totals
  {
    var netRevenue := q.revenue - q.salesReturns;
    var grossProfit := netRevenue - q.cogs;
    var totalOperatingExpenses := q.salaries + q.rent + q.utilities + q.depreciation + q.otherOperatingExpenses;
    var operatingProfit := grossProfit - totalOperatingExpenses;
    var ebt := operatingProfit + q.otherIncome - q.otherExpenses;
    var netProfit := ebt - q.taxExpense;
    Totals(netRevenue, grossProfit, totalOperatingExpenses, operatingProfit, ebt, netProfit)
  }

  /** Everything that is taken off revenue and other income on the way to net profit. */
  function Deductions(q: Figures): real
  {
    q.salesReturns + q.cogs + q.salaries + q.rent + q.utilities + q.depreciation
      + q.otherOperatingExpenses + q.otherExpenses + q.taxExpense
  }

  /** An amount cell of the statement: a number, or the empty cell of the heading row. */
  datatype Cell = Amount(value: real) | Blank

  datatype Row = Row(particular: string, cell: Cell)

  /** The number a cell contributes to a column sum; the empty cell counts as 0. */
  function CellValue(c: Cell): real
  {
    match c
    case Amount(v) => v
    case Blank => 0.0
  }

  /** The fixed "Particulars" column. */
  const StatementLabels: seq<string> := [
    "Sales / Service Revenue",
    "Less: Sales Returns & Discounts",
    "Net Revenue",
    "Less: Cost of Goods Sold (COGS)",
    "Gross Profit",
    "Less: Operating Expenses:",
    "- Salaries & Wages",
    "- Rent Expense",
    "- Utilities",
    "- Depreciation",
    "- Other Operating Expenses",
    "Total Operating Expenses",
    "Operating Profit (EBIT)",
    "Add: Other Income",
    "Less: Other Expenses",
    "Earnings Before Tax (EBT)",
    "Less: Tax Expense",
    "Net Profit / (Loss)"
  ]

  /** Index of the heading row whose amount cell is left empty. */
  const HeadingRow: nat := 5

  /**
   The amount column foots: with deductions shown negated, every subtotal cell
   is the plain sum of the cells of its block.
   */
  predicate Foots(cells: seq<Cell>)
    requires |cells| == 18
  {
    var v := (i: nat) requires i < 18 => CellValue(cells[i]);
    && v(2) == v(0) + v(1)
    && v(4) == v(2) + v(3)
    && v(11) == v(6) + v(7) + v(8) + v(9) + v(10)
    && v(12) == v(4) + v(11)
    && v(15) == v(12) + v(13) + v(14)
    && v(17) == v(15) + v(16)
  }

  /**
   The amount column for the given quantities: the heading cell is the only
   empty one, deductions appear negated, the column foots, and the last cell
   is revenue and other income less every deduction.
   */
  function AmountCells(q: Figures): (cells: seq<Cell>)
    ensures |cells| == 18
    ensures forall i :: 0 <= i < 18 ==> (cells[i].Blank? <==> i == HeadingRow)
    ensures Foots(cells)
    ensures cells[0] == Amount(q.revenue) && cells[13] == Amount(q.otherIncome)
    ensures cells[1] == Amount(-q.salesReturns) && cells[3] == Amount(-q.cogs)
    ensures cells[6] == Amount(-q.salaries) && cells[7] == Amount(-q.rent)
    ensures cells[8] == Amount(-q.utilities) && cells[9] == Amount(-q.depreciation)
    ensures cells[10] == Amount(-q.otherOperatingExpenses)
    ensures cells[14] == Amount(-q.otherExpenses) && cells[16] == Amount(-q.taxExpense)
    ensures cells[17] == Amount(q.revenue + q.otherIncome - Deductions(q))
  {
    var d := Derive(q);
    [
      Amount(q.revenue),
      Amount(-q.salesReturns),
      Amount(d.netRevenue),
      Amount(-q.cogs),
      Amount(d.grossProfit),
      Blank,
      Amount(-q.salaries),
      Amount(-q.rent),
      Amount(-q.utilities),
      Amount(-q.depreciation),
      Amount(-q.otherOperatingExpenses),
      Amount(-d.totalOperatingExpenses),
      Amount(d.operatingProfit),
      Amount(q.otherIncome),
      Amount(-q.otherExpenses),
      Amount(d.ebt),
      Amount(-q.taxExpense),
      Amount(d.netProfit)
    ]
  }

  /** The amount column of a table. */
  function AmountColumn(rows: seq<Row>): (cells: seq<Cell>)
    ensures |cells| == |rows|
  {
    seq(|rows|, i requires 0 <= i < |rows| => rows[i].cell)
  }

  /** The eighteen rows of the statement: the fixed particulars beside the amount column. */
  function Layout(q: Figures): (rows: seq<Row>)
    ensures |rows| == 18
    ensures forall i :: 0 <= i < 18 ==> rows[i].particular == StatementLabels[i]
    ensures AmountColumn(rows) == AmountCells(q)
  {
    var cells := AmountCells(q);
    seq(18, i requires 0 <= i < 18 => Row(StatementLabels[i], cells[i]))
  }

  /** What the page shows under "Income Statement". */
  datatype Report = NoTransactions | Table(rows: seq<Row>)

  /**
   The income statement section: a warning for an empty transactions table,
   otherwise the eighteen-row table whose net-profit row is revenue and other
   income less every deduction, each read as its category's total.
   */
  function IncomeStatement(txs: seq<Transaction>): (r: Report)
    ensures r.NoTransactions? <==> |txs| == 0
    ensures r.Table? ==> |r.rows| == 18 && Foots(AmountColumn(r.rows))
    ensures r.Table? ==> forall i :: 0 <= i < 18 ==> r.rows[i].particular == StatementLabels[i]
    ensures r.Table? ==> AmountColumn(r.rows) == AmountCells(ReadFigures(txs))
    ensures r.Table? ==> AmountColumn(r.rows)[0] == Amount(CategoryTotal(txs, RevenueCategory))
    ensures r.Table? ==> AmountColumn(r.rows)[17] == Amount(
              CategoryTotal(txs, RevenueCategory) + CategoryTotal(txs, OtherIncomeCategory)
              - CategoryTotal(txs, SalesReturnsCategory) - CategoryTotal(txs, CogsCategory)
              - CategoryTotal(txs, SalariesCategory) - CategoryTotal(txs, RentCategory)
              - CategoryTotal(txs, UtilitiesCategory) - CategoryTotal(txs, DepreciationCategory)
              - CategoryTotal(txs, OtherOperatingCategory) - CategoryTotal(txs, OtherExpensesCategory)
              - CategoryTotal(txs, TaxCategory))
  {
    if |txs| == 0 then NoTransactions else Table(Layout(ReadFigures(txs)))
  }
}
