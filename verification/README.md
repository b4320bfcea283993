# Financial transactions: ledger and income statement

A Dafny model of the logic in `app.py` of a small Streamlit bookkeeping page.
The page keeps two tables per session and derives one report from them:

- **Transactions table.** Each row has a date, a category, details and an amount.
  "Add Transaction" appends a row only when the amount is strictly positive.
  Otherwise it shows a warning and leaves the table alone.
- **General journal.** "Add to General Journal" takes a debit side and a credit side.
  The entry is accepted only when the two amounts are equal and positive.
  An accepted entry appends two rows with the same date: a debit row `(amount, 0)`, then a credit row `(0, amount)`.
  A rejected entry appends nothing and shows an error.
- **Income statement.** Transaction amounts are summed per category.
  Eleven named quantities are read from those sums, each 0 when its category is absent.
  Six subtotals are derived from them: net revenue, gross profit, total operating expenses, operating profit, EBT and net profit.
  The result is an 18-row table of particulars and amounts. Deductions are shown negated, and the "Less: Operating Expenses:" heading row has an empty amount cell.
  When the transactions table is empty, the page shows a warning instead of the table.

The session state is an explicit `Session` value. Each submission is a pure function that returns the new session and the outcome (`Added` or `Rejected`).

Files:

- `ledger.dfy`, module `Ledger`: the records, the two submissions, and the session invariant. The invariant says every stored amount is positive and the journal is a sequence of balanced debit/credit pairs.
- `session.dfy`, module `Replay`: a session as a replay of submissions from the empty one.
- `statement.dfy`, module `Statement`: category sums, the eleven quantities, the subtotals and the row layout.
- `statement_properties.dfy`, module `StatementProperties`: order independence, ignored categories, net-profit deltas, additivity and worked examples.

Revenue is read from `"Revenue Accounts"` and sales returns from `"Contra-Revenue Accounts (Reduce revenue)"` (app.py:96-97). The string `"Sales / Service Revenue"` is only the first row's label (app.py:122). `DisplayLabelIsNotRevenue` shows the consequence: a sale booked with that label leaves revenue at 0. The other nine quantities are read from labels such as `"Rent Expense"` (app.py:101-109). None of those nine labels is offered by the category selector (app.py:19-24), so `SelectableCategoriesRead` shows that only the two revenue categories the form offers ever reach the statement.

## Model

| member | source | states |
|---|---|---|
| Ledger.AddTransaction | app.py:28-34 | Accepted exactly when amount > 0. On acceptance, one record is appended at the end and earlier rows are kept. On rejection, the session is unchanged and the reason is an invalid amount. The journal is never touched. |
| Ledger.AddJournalEntry | app.py:67-80 | Accepted exactly when debit == credit and debit > 0. On acceptance, the journal grows by exactly two lines with the form's date: first (debit, 0) carrying the debit account name and type, then (0, credit) carrying the credit account name and type. Earlier lines are kept. On rejection, the session is unchanged. The journal never grows by exactly one line, and the transactions table is untouched. |
| Ledger.PairedJournalAppend | app.py:69-77 | Appending a debit/credit pair with the same date and the same positive amount keeps the journal a sequence of balanced pairs. |
| Ledger.PairedJournalBalances | app.py:68-77 | A journal made of balanced pairs has an even length, and its debit column total equals its credit column total. |
| Ledger.AddTransactionPreservesValid | app.py:28-34 | Whether accepted or rejected, an added transaction keeps every stored amount strictly positive and keeps the journal paired. |
| Ledger.AddJournalEntryPreservesValid | app.py:67-80 | Whether accepted or rejected, a journal submission keeps the journal a sequence of balanced pairs and keeps stored amounts positive. |
| Ledger.EqualAmountsAccepted | app.py:67-78 | A 500/500 entry is accepted and appends (500, 0) then (0, 500), both with the entry's date. |
| Ledger.UnequalAmountsRejected | app.py:67-80 | A 500/400 entry is rejected for a debit/credit mismatch, and the session is unchanged. |
| Replay.RunIsValid | app.py:28-80 | Every session reachable from the empty one by any sequence of submissions satisfies the session invariant. |
| Replay.RunContents | app.py:28-80 | After any sequence of submissions, the transactions table is exactly the submitted transactions with positive amounts, in submission order. The journal is exactly the debit line then the credit line of each accepted entry, in submission order, so it holds two lines per accepted entry. |
| Replay.RunJournalBalances | app.py:67-80 | In every reachable session, total debits equal total credits. |
| Statement.GroupSums | app.py:93 | The grouped sums have exactly the categories that occur as keys. A lookup with default 0 gives the filtered sum of amounts for every category, and 0 for a category with no records. |
| Statement.ReadFigures | app.py:96-109 | Each of the eleven quantities equals the total of its own category ("Revenue Accounts", "Contra-Revenue Accounts (Reduce revenue)", "Cost of Goods Sold (COGS)", …, "Tax Expense"), which is 0 when absent. |
| Statement.AmountCells | app.py:112-160 | The amount column has exactly 18 cells, and only cell 5 is empty. Deduction rows carry the negated quantity. The column foots: net revenue = revenue − returns, gross profit = net revenue − COGS, total opex is the sum of the five expense rows, operating profit = gross profit − total opex, EBT = operating profit + other income − other expenses, net profit = EBT − tax. The last cell equals revenue + other income − all nine deductions. |
| Statement.Layout | app.py:120-161 | The table has exactly 18 rows with the fixed particulars in the fixed order, and the amount column just described beside them. |
| Statement.IncomeStatement | app.py:91-165 | An empty transactions table gives the warning and never a table. A non-empty one gives an 18-row table that foots. Its particulars are the 18 fixed labels in order, and its amount column is exactly the column `AmountCells` states for the table's eleven category totals (negated deductions, blank heading cell, derived subtotals). Its first row is the "Revenue Accounts" total, and its last row is revenue plus other income minus every deduction category's total. |
| StatementProperties.CategoryTotalConcat | app.py:93 | The category sum over two concatenated tables equals the sum of the two tables' category sums. |
| StatementProperties.CategoryTotalAppend | app.py:93 | Appending one transaction adds its amount to its own category's sum and to no other. |
| StatementProperties.CategoryTotalPermutation | app.py:93 | Two tables with the same multiset of transactions have the same sum for every category. |
| StatementProperties.StatementPermutationInvariant | app.py:91-161 | Two tables with the same multiset of transactions have the same eleven quantities and the same report. |
| StatementProperties.UnreadCategoryIgnored | app.py:96-109 | Inserting a transaction anywhere changes none of the eleven quantities when its category is not one of the eleven read. Examples are "Current Asset", "Liabilities" and "Operating Expenses (Day-to-day business costs)". For a non-empty table the report is unchanged too. |
| StatementProperties.SelectableCategoriesRead | app.py:19-24 | Of the ten categories the selector offers, a category is read by the statement exactly when it is "Revenue Accounts" or "Contra-Revenue Accounts (Reduce revenue)". |
| StatementProperties.NetProfitDelta | app.py:112-117 | Appending a transaction of amount a in a read category changes net profit by exactly +a for revenue or other income, and by exactly −a for each of the nine deduction categories. |
| StatementProperties.FiguresAdditive | app.py:93-117 | The quantities of a concatenated table are the field-wise sums of the two parts' quantities, and its net profit is the sum of their net profits. |
| StatementProperties.EmptyTable | app.py:164-165 | An empty table yields the warning report. All eleven quantities and all six subtotals of an empty table are 0. |
| StatementProperties.CategoryTotalOfThree | app.py:93 | For a three-row table, each category's sum is the sum of the matching rows' amounts. |
| StatementProperties.WorkedExample | app.py:96-117 | Revenue 1000, COGS 400 and rent 100 give net revenue 1000, gross profit 600, total opex 100, and operating profit, EBT and net profit of 500. |
| StatementProperties.DisplayLabelIsNotRevenue | app.py:96-122 | The same example with the sale booked as "Sales / Service Revenue" has revenue 0 and net profit −500. The string is a row label, not a category that is read. |

## Left out

- Streamlit widgets, page layout, table rendering, and the success/warning/error messages. These are presentation. The outcome of a submission is returned as `Added` or `Rejected(reason)` instead.
- `st.session_state` persistence across reruns. It is modelled as an explicit `Session` value that is passed in and returned.
- pandas DataFrames, `pd.concat` and `groupby`. These are modelled as sequence append and a recursive per-category sum.
- Floating-point amounts and the two-decimal input format. Amounts are exact reals, so float rounding in sums is not modelled.
- The `expenses` variable (app.py:98). It is computed but never used in any output.
- Date semantics. A date is opaque text that is copied onto both journal lines.
- The input widgets' `min_value=0.0` bound. The model accepts any real amount, and the guards decide alone.
- Profit margins, CSV export and file listing. None of these exists in this source file.
