/**
 Properties of the income statement over the transactions table: it depends
 only on which transactions are present and not on their order, categories it
 does not read change nothing, each read transaction moves net profit by
 exactly its amount in one direction, and the figures add up over
 concatenated tables.
 */
module StatementProperties {
  import opened Ledger
  import opened Statement

  /** The bottom line of the statement for a transactions table. */
  function NetProfit(txs: seq<Transaction>): real
  {
    Derive(ReadFigures(txs)).netProfit
  }

  /** A category total over a concatenation is the sum of the two totals. */
  lemma {:induction false} CategoryTotalConcat(a: seq<Transaction>, b: seq<Transaction>, c: Category)
    ensures CategoryTotal(a + b, c) == CategoryTotal(a, c) + CategoryTotal(b, c)
    decreases |b|
  {
    if |b| == 0 {
      assert a + b == a;
    } else {
      var b' := b[..|b| - 1];
      assert (a + b)[..|a + b| - 1] == a + b';
      CategoryTotalConcat(a, b', c);
    }
  }

  /** Appending one transaction adds its amount to its own category's total and to no other. */
  lemma CategoryTotalAppend(txs: seq<Transaction>, t: Transaction, c: Category)
    ensures CategoryTotal(txs + [t], c)
            == CategoryTotal(txs, c) + (if t.category == c then t.amount else 0.0)
  {
    assert (txs + [t])[..|txs|] == txs;
  }

  /** Reordering the transactions table leaves every category total unchanged. */
  lemma {:induction false} CategoryTotalPermutation(a: seq<Transaction>, b: seq<Transaction>, c: Category)
    requires multiset(a) == multiset(b)
    ensures CategoryTotal(a, c) == CategoryTotal(b, c)
    decreases |a|
  {
    if |a| == 0 {
      assert |b| == |multiset(b)| == 0;
    } else {
      var a' := a[..|a| - 1];
      var x := a[|a| - 1];
      assert a == a' + [x];
      assert x in multiset(b);
      var i :| 0 <= i < |b| && b[i] == x;
      var b' := b[..i] + b[i + 1..];
      assert b == b[..i] + [x] + b[i + 1..];
      assert multiset(b') == multiset(b) - multiset{x};
      assert multiset(a') == multiset(a) - multiset{x};
      CategoryTotalPermutation(a', b', c);
      CategoryTotalConcat(b[..i] + [x], b[i + 1..], c);
      CategoryTotalConcat(b[..i], [x], c);
      CategoryTotalConcat(b[..i], b[i + 1..], c);
      CategoryTotalAppend(a', x, c);
      assert CategoryTotal([x], c) == CategoryTotal([], c) + (if x.category == c then x.amount else 0.0) by {
        CategoryTotalAppend([], x, c);
      }
    }
  }

  /** The statement depends only on the multiset of transactions, not on their order. */
  lemma StatementPermutationInvariant(a: seq<Transaction>, b: seq<Transaction>)
    requires multiset(a) == multiset(b)
    ensures ReadFigures(a) == ReadFigures(b)
    ensures IncomeStatement(a) == IncomeStatement(b)
  {
    forall c | c in LookedUpCategories
      ensures CategoryTotal(a, c) == CategoryTotal(b, c)
    {
      CategoryTotalPermutation(a, b, c);
    }
    assert |a| == |multiset(a)| == |multiset(b)| == |b|;
  }

  /**
   A transaction whose category is not one of the eleven the statement reads,
   inserted anywhere in a non-empty table, changes no statement figure.
   */
  lemma UnreadCategoryIgnored(txs: seq<Transaction>, i: nat, t: Transaction)
    requires i <= |txs|
    requires t.category !in LookedUpCategories
    ensures ReadFigures(txs[..i] + [t] + txs[i..]) == ReadFigures(txs)
    ensures |txs| > 0 ==> IncomeStatement(txs[..i] + [t] + txs[i..]) == IncomeStatement(txs)
  {
    var inserted := txs[..i] + [t] + txs[i..];
    assert txs == txs[..i] + txs[i..];
    assert multiset(inserted) == multiset(txs + [t]);
    StatementPermutationInvariant(inserted, txs + [t]);
    forall c | c in LookedUpCategories
      ensures CategoryTotal(txs + [t], c) == CategoryTotal(txs, c)
    {
      CategoryTotalAppend(txs, t, c);
    }
  }

  /**
   Of the categories the transaction form offers, only "Revenue Accounts" and
   "Contra-Revenue Accounts (Reduce revenue)" are read by the statement; the
   other eight, operating expenses included, never reach it.
   */
  lemma SelectableCategoriesRead()
    ensures forall i :: 0 <= i < |SelectableCategories| ==>
              (SelectableCategories[i] in LookedUpCategories
               <==> SelectableCategories[i] == RevenueCategory || SelectableCategories[i] == SalesReturnsCategory)
  {
    forall i | 0 <= i < |SelectableCategories|
      ensures SelectableCategories[i] in LookedUpCategories
              <==> SelectableCategories[i] == RevenueCategory || SelectableCategories[i] == SalesReturnsCategory
    {
    }
  }

  /**
   Appending a transaction of a category the statement reads moves net profit
   by exactly its amount: up for revenue and other income, down for every
   deduction.
   */
  lemma NetProfitDelta(txs: seq<Transaction>, t: Transaction)
    requires t.category in LookedUpCategories
    ensures NetProfit(txs + [t])
            == NetProfit(txs) + (if t.category in AddingCategories then t.amount else -t.amount)
  {
    CategoryTotalAppend(txs, t, RevenueCategory);
    CategoryTotalAppend(txs, t, SalesReturnsCategory);
    CategoryTotalAppend(txs, t, CogsCategory);
    CategoryTotalAppend(txs, t, SalariesCategory);
    CategoryTotalAppend(txs, t, RentCategory);
    CategoryTotalAppend(txs, t, UtilitiesCategory);
    CategoryTotalAppend(txs, t, DepreciationCategory);
    CategoryTotalAppend(txs, t, OtherOperatingCategory);
    CategoryTotalAppend(txs, t, OtherIncomeCategory);
    CategoryTotalAppend(txs, t, OtherExpensesCategory);
    CategoryTotalAppend(txs, t, TaxCategory);
  }

  /** Field-wise sum of two sets of quantities. */
  function AddFigures(p: Figures, q: Figures): Figures
  {
    Figures(
      p.revenue + q.revenue, p.salesReturns + q.salesReturns, p.cogs + q.cogs,
      p.salaries + q.salaries, p.rent + q.rent, p.utilities + q.utilities,
      p.depreciation + q.depreciation, p.otherOperatingExpenses + q.otherOperatingExpenses,
      p.otherIncome + q.otherIncome, p.otherExpenses + q.otherExpenses, p.taxExpense + q.taxExpense)
  }

  /**
   Additivity: the quantities of a table split in two are the sums of the two
   halves' quantities, and so is its net profit.
   */
  lemma FiguresAdditive(a: seq<Transaction>, b: seq<Transaction>)
    ensures ReadFigures(a + b) == AddFigures(ReadFigures(a), ReadFigures(b))
    ensures NetProfit(a + b) == NetProfit(a) + NetProfit(b)
  {
    CategoryTotalConcat(a, b, RevenueCategory);
    CategoryTotalConcat(a, b, SalesReturnsCategory);
    CategoryTotalConcat(a, b, CogsCategory);
    CategoryTotalConcat(a, b, SalariesCategory);
    CategoryTotalConcat(a, b, RentCategory);
    CategoryTotalConcat(a, b, UtilitiesCategory);
    CategoryTotalConcat(a, b, DepreciationCategory);
    CategoryTotalConcat(a, b, OtherOperatingCategory);
    CategoryTotalConcat(a, b, OtherIncomeCategory);
    CategoryTotalConcat(a, b, OtherExpensesCategory);
    CategoryTotalConcat(a, b, TaxCategory);
  }

  /** An empty table shows the warning, and every quantity and subtotal is 0. */
  lemma EmptyTable()
    ensures IncomeStatement([]) == NoTransactions
    ensures ReadFigures([]) == Figures(0.0, 0.0, 0.0, 0.0, 0.0, 0.0, 0.0, 0.0, 0.0, 0.0, 0.0)
    ensures Derive(ReadFigures([])) == Totals(0.0, 0.0, 0.0, 0.0, 0.0, 0.0)
  {
  }

  /** The category totals of a three-row table, one row at a time. */
  lemma CategoryTotalOfThree(t1: Transaction, t2: Transaction, t3: Transaction, c: Category)
    ensures CategoryTotal([t1, t2, t3], c)
            == (if t1.category == c then t1.amount else 0.0)
             + (if t2.category == c then t2.amount else 0.0)
             + (if t3.category == c then t3.amount else 0.0)
  {
    assert [t1, t2, t3] == [t1, t2] + [t3];
    assert [t1, t2] == [t1] + [t2];
    assert [t1] == [] + [t1];
    CategoryTotalAppend([t1, t2], t3, c);
    CategoryTotalAppend([t1], t2, c);
    CategoryTotalAppend([], t1, c);
  }

  /**
   Worked example: revenue 1000, cost of goods sold 400 and rent 100 give net
   revenue 1000, gross profit 600, operating expenses 100, and 500 for
   operating profit, earnings before tax and net profit.
   */
  lemma WorkedExample()
    ensures var txs := [
              Transaction("2024-01-01", RevenueCategory, "", 1000.0),
              Transaction("2024-01-01", CogsCategory, "", 400.0),
              Transaction("2024-01-01", RentCategory, "", 100.0)];
            Derive(ReadFigures(txs)) == Totals(1000.0, 600.0, 100.0, 500.0, 500.0, 500.0)
  {
    var t1 := Transaction("2024-01-01", RevenueCategory, "", 1000.0);
    var t2 := Transaction("2024-01-01", CogsCategory, "", 400.0);
    var t3 := Transaction("2024-01-01", RentCategory, "", 100.0);
    forall c ensures CategoryTotal([t1, t2, t3], c)
                     == (if t1.category == c then t1.amount else 0.0)
                      + (if t2.category == c then t2.amount else 0.0)
                      + (if t3.category == c then t3.amount else 0.0)
    {
      CategoryTotalOfThree(t1, t2, t3, c);
    }
  }

  /**
   The display label "Sales / Service Revenue" is not a category the statement
   reads: booking the same example's sales under it leaves revenue at 0 and
   turns the net result into a loss of 500.
   */
  lemma DisplayLabelIsNotRevenue()
    ensures var txs := [
              Transaction("2024-01-01", "Sales / Service Revenue", "", 1000.0),
              Transaction("2024-01-01", CogsCategory, "", 400.0),
              Transaction("2024-01-01", RentCategory, "", 100.0)];
            ReadFigures(txs).revenue == 0.0 && NetProfit(txs) == -500.0
  {
    var t1 := Transaction("2024-01-01", "Sales / Service Revenue", "", 1000.0);
    var t2 := Transaction("2024-01-01", CogsCategory, "", 400.0);
    var t3 := Transaction("2024-01-01", RentCategory, "", 100.0);
    forall c ensures CategoryTotal([t1, t2, t3], c)
                     == (if t1.category == c then t1.amount else 0.0)
                      + (if t2.category == c then t2.amount else 0.0)
                      + (if t3.category == c then t3.amount else 0.0)
    {
      CategoryTotalOfThree(t1, t2, t3, c);
    }
  }
}
