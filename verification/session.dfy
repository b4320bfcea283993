/**
 A whole session as the sequence of form submissions the user made, replayed
 from the empty session in order.
 */
module Replay {
  import opened Ledger

  /** One press of "Add Transaction" or "Add to General Journal". */
  datatype Action = SubmitTransaction(t: Transaction) | SubmitJournal(f: JournalForm)

  /** The session after one submission, whatever its outcome. */
  function Step(s: Session, a: Action): Session
  {
    match a
    case SubmitTransaction(t) => AddTransaction(s, t).session
    case SubmitJournal(f) => AddJournalEntry(s, f).session
  }

  /** The session after all submissions, starting from the empty one. */
  function Run(acts: seq<Action>): Session
    decreases |acts|
  {
    if |acts| == 0 then EmptySession else Step(Run(acts[..|acts| - 1]), acts[|acts| - 1])
  }

  /** Reference definition: the submitted transactions whose amount passes the guard, in order. */
  function AcceptedTransactions(acts: seq<Action>): seq<Transaction>
    decreases |acts|
  {
    if |acts| == 0 then []
    else
      var a := acts[|acts| - 1];
      AcceptedTransactions(acts[..|acts| - 1])
        + (if a.SubmitTransaction? && a.t.amount > 0.0 then [a.t] else [])
  }

  /** Reference definition: the number of journal submissions that pass the guard. */
  function AcceptedEntries(acts: seq<Action>): nat
    decreases |acts|
  {
    if |acts| == 0 then 0
    else
      var a := acts[|acts| - 1];
      AcceptedEntries(acts[..|acts| - 1]) + (if a.SubmitJournal? && AcceptsEntry(a.f) then 1 else 0)
  }

  /** Reference definition: the debit and credit lines of the accepted journal submissions, in order. */
  function AcceptedJournal(acts: seq<Action>): seq<JournalLine>
    decreases |acts|
  {
    if |acts| == 0 then []
    else
      var a := acts[|acts| - 1];
      AcceptedJournal(acts[..|acts| - 1])
        + (if a.SubmitJournal? && AcceptsEntry(a.f) then [DebitLine(a.f), CreditLine(a.f)] else [])
  }

  /** Every session reachable from the empty one keeps the session invariant. */
  lemma {:induction false} RunIsValid(acts: seq<Action>)
    ensures ValidSession(Run(acts))
    decreases |acts|
  {
    if |acts| > 0 {
      var s := Run(acts[..|acts| - 1]);
      RunIsValid(acts[..|acts| - 1]);
      match acts[|acts| - 1]
      case SubmitTransaction(t) => AddTransactionPreservesValid(s, t);
      case SubmitJournal(f) => AddJournalEntryPreservesValid(s, f);
    }
  }

  /**
   The transactions table is exactly the accepted transaction submissions, and
   the journal exactly the debit and credit lines of the accepted entries, both
   in submission order; so the journal holds two lines per accepted entry.
   */
  lemma {:induction false} RunContents(acts: seq<Action>)
    ensures Run(acts).transactions == AcceptedTransactions(acts)
    ensures Run(acts).journal == AcceptedJournal(acts)
    ensures |Run(acts).journal| == 2 * AcceptedEntries(acts)
    decreases |acts|
  {
    if |acts| > 0 {
      RunContents(acts[..|acts| - 1]);
    }
  }

  /** In every reachable session the debit and credit columns of the journal add up to the same total. */
  lemma RunJournalBalances(acts: seq<Action>)
    ensures TotalDebit(Run(acts).journal) == TotalCredit(Run(acts).journal)
  {
    RunIsValid(acts);
    PairedJournalBalances(Run(acts).journal);
  }
}
