/**
 The session's two tables and the two form submissions that append to them.

 A session holds the regular transaction table and the general journal. Each
 submission either appends to one table and reports success, or leaves the
 session as it was and reports the rejection (a warning for a transaction, an
 error for a journal entry). Amounts are exact reals (the form
 works with two-decimal floats); dates and names are opaque text.
 */
module Ledger {

  /** The date picked in the form; no calendar arithmetic is modelled. */
  type Date = string

  /** A category or account-type label, compared as plain text. */
  type Category = string

  /** One row of the transactions table. */
  datatype Transaction = Transaction(date: Date, category: Category, details: string, amount: real)

  /** One row of the general journal. */
  datatype JournalLine = JournalLine(date: Date, accountName: string, accountType: Category, debit: real, credit: real)

  /** The values filled into the journal-entry form. */
  datatype JournalForm = JournalForm(
    date: Date,
    debitAccount: string, debitType: Category, debitAmount: real,
    creditAccount: string, creditType: Category, creditAmount: real)

  /** The per-session state: both tables, in insertion order. */
  datatype Session = Session(transactions: seq<Transaction>, journal: seq<JournalLine>)

  /** A fresh session starts with two empty tables. */
  const EmptySession := Session([], [])

  /** Why a submission was turned away. */
  datatype Rejection = InvalidAmount | DebitCreditMismatch

  /** What the page reports after a submission. */
  datatype Outcome = Added | Rejected(reason: Rejection)

  /** The session after a submission, together with the reported outcome. */
  datatype Submission = Submission(session: Session, outcome: Outcome)

  /** "Add Transaction": the record is appended only when its amount is strictly positive. */
  function AddTransaction(s: Session, t: Transaction): (r: Submission)
    ensures r.outcome.Added? <==> t.amount > 0.0
    ensures r.outcome.Rejected? ==> r.outcome.reason == InvalidAmount && r.session == s
    ensures r.outcome.Added? ==>
              && |r.session.transactions| == |s.transactions| + 1
              && r.session.transactions[..|s.transactions|] == s.transactions
              && r.session.transactions[|s.transactions|] == t
    ensures r.session.journal == s.journal
  {
    if t.amount > 0.0 then
      Submission(s.(transactions := s.transactions + [t]), Added)
    else
      Submission(s, Rejected(InvalidAmount))
  }

  /** The journal acceptance rule: equal amounts, and the debit strictly positive. */
  predicate AcceptsEntry(f: JournalForm)
  {
    f.debitAmount == f.creditAmount && f.debitAmount > 0.0
  }

  /** The debit line of an accepted entry. */
  function DebitLine(f: JournalForm): JournalLine
  {
    JournalLine(f.date, f.debitAccount, f.debitType, f.debitAmount, 0.0)
  }

  /** The credit line of an accepted entry. */
  function CreditLine(f: JournalForm): JournalLine
  {
    JournalLine(f.date, f.creditAccount, f.creditType, 0.0, f.creditAmount)
  }

  /** "Add to General Journal": both lines are appended together, or neither is. */
  function AddJournalEntry(s: Session, f: JournalForm): (r: Submission)
    ensures r.outcome.Added? <==> f.debitAmount == f.creditAmount && f.debitAmount > 0.0
    ensures r.outcome.Rejected? ==> r.outcome.reason == DebitCreditMismatch && r.session == s
    ensures r.outcome.Added? ==>
              var n := |s.journal|;
              && |r.session.journal| == n + 2
              && r.session.journal[..n] == s.journal
              && r.session.journal[n].date == r.session.journal[n + 1].date == f.date
              && r.session.journal[n].debit == f.debitAmount && r.session.journal[n].credit == 0.0
              && r.session.journal[n + 1].debit == 0.0 && r.session.journal[n + 1].credit == f.creditAmount
              && r.session.journal[n].accountName == f.debitAccount && r.session.journal[n].accountType == f.debitType
              && r.session.journal[n + 1].accountName == f.creditAccount
              && r.session.journal[n + 1].accountType == f.creditType
    ensures |r.session.journal| != |s.journal| + 1
    ensures r.session.transactions == s.transactions
  {
    if AcceptsEntry(f) then
      Submission(s.(journal := s.journal + [DebitLine(f), CreditLine(f)]), Added)
    else
      Submission(s, Rejected(DebitCreditMismatch))
  }

  /** Every stored transaction passed the amount guard. */
  predicate PositiveAmounts(txs: seq<Transaction>)
  {
    forall i :: 0 <= i < |txs| ==> txs[i].amount > 0.0
  }

  /** A debit line followed by a credit line of the same date and the same positive amount. */
  predicate BalancedPair(d: JournalLine, c: JournalLine)
  {
    && d.date == c.date
    && d.debit > 0.0 && d.credit == 0.0
    && c.debit == 0.0 && c.credit == d.debit
  }

  /** The journal splits, from the start, into consecutive balanced pairs. */
  predicate PairedJournal(j: seq<JournalLine>)
    decreases |j|
  {
    if |j| == 0 then true
    else |j| >= 2 && PairedJournal(j[..|j| - 2]) && BalancedPair(j[|j| - 2], j[|j| - 1])
  }

  /** The invariant every reachable session keeps. */
  predicate ValidSession(s: Session)
  {
    PositiveAmounts(s.transactions) && PairedJournal(s.journal)
  }

  /** Sum of the debit column. */
  function TotalDebit(j: seq<JournalLine>): real
    decreases |j|
  {
    if |j| == 0 then 0.0 else TotalDebit(j[..|j| - 1]) + j[|j| - 1].debit
  }

  /** Sum of the credit column. */
  function TotalCredit(j: seq<JournalLine>): real
    decreases |j|
  {
    if |j| == 0 then 0.0 else TotalCredit(j[..|j| - 1]) + j[|j| - 1].credit
  }

  /** A journal built of balanced pairs has equal debit and credit totals. */
  lemma {:induction false} PairedJournalBalances(j: seq<JournalLine>)
    requires PairedJournal(j)
    ensures TotalDebit(j) == TotalCredit(j)
    ensures |j| % 2 == 0
    decreases |j|
  {
    if |j| > 0 {
      var p := j[..|j| - 2];
      PairedJournalBalances(p);
      assert j[..|j| - 1][..|j| - 2] == p;
      assert TotalDebit(j) == TotalDebit(p) + j[|j| - 2].debit + j[|j| - 1].debit;
      assert TotalCredit(j) == TotalCredit(p) + j[|j| - 2].credit + j[|j| - 1].credit;
    }
  }

  /** Appending one balanced pair keeps the journal paired. */
  lemma PairedJournalAppend(j: seq<JournalLine>, d: JournalLine, c: JournalLine)
    requires PairedJournal(j)
    requires BalancedPair(d, c)
    ensures PairedJournal(j + [d, c])
  {
    var j' := j + [d, c];
    assert j'[..|j'| - 2] == j;
  }

  /** Adding a transaction keeps the session invariant, whether it is accepted or not. */
  lemma AddTransactionPreservesValid(s: Session, t: Transaction)
    requires ValidSession(s)
    ensures ValidSession(AddTransaction(s, t).session)
  {
  }

  /** Adding a journal entry keeps the session invariant, whether it is accepted or not. */
  lemma AddJournalEntryPreservesValid(s: Session, f: JournalForm)
    requires ValidSession(s)
    ensures ValidSession(AddJournalEntry(s, f).session)
  {
    if AcceptsEntry(f) {
      PairedJournalAppend(s.journal, DebitLine(f), CreditLine(f));
    }
  }

  /** Worked scenario: 500 against 500 is accepted and adds the two mirrored lines. */
  lemma EqualAmountsAccepted(s: Session, date: Date)
    ensures var f := JournalForm(date, "Cash", "Current Asset", 500.0, "Sales", "Revenue Accounts", 500.0);
            var r := AddJournalEntry(s, f);
            && r.outcome == Added
            && r.session.journal == s.journal + [
                 JournalLine(date, "Cash", "Current Asset", 500.0, 0.0),
                 JournalLine(date, "Sales", "Revenue Accounts", 0.0, 500.0)]
  {
  }

  /** Worked scenario: 500 against 400 is rejected and the journal is left alone. */
  lemma UnequalAmountsRejected(s: Session, date: Date)
    ensures var f := JournalForm(date, "Cash", "Current Asset", 500.0, "Sales", "Revenue Accounts", 400.0);
            AddJournalEntry(s, f) == Submission(s, Rejected(DebitCreditMismatch))
  {
  }
}
