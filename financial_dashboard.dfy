// The financial overview page (src/pages/financial/Dashboard.tsx): the statistics of
// the month's transactions and the recent-transactions list. The query itself (this
// month's transactions, newest due date first) is database I/O: its answer is a
// parameter.
module FinancialDashboard {
  import opened Wrappers
  import Seqs
  import opened Receivables

  /** FinancialStats */
  datatype FinancialStats = FinancialStats(
    totalIncome: real, totalExpense: real, balance: real, pendingIncome: real,
    pendingExpense: real, overdueCount: nat)

  const ZeroStats := FinancialStats(0.0, 0.0, 0.0, 0.0, 0.0, 0)

  predicate IsIncome(t: Transaction) { t.kind == "income" }
  predicate IsExpense(t: Transaction) { t.kind == "expense" }

  function PaidOf(kind: string): Transaction -> bool
  {
    (t: Transaction) => t.kind == kind && t.status == "paid"
  }

  function PendingOf(kind: string): Transaction -> bool
  {
    (t: Transaction) => t.kind == kind && t.status == "pending"
  }

  /** The statistics loadFinancialData computes from the fetched list on the day `today`. */
  function ComputeStats(ts: seq<Transaction>, today: string): FinancialStats
  {
    var income := Seqs.Sum(Seqs.Filter(ts, PaidOf("income")), Amount);
    var expense := Seqs.Sum(Seqs.Filter(ts, PaidOf("expense")), Amount);
    FinancialStats(income, expense, income - expense,
                   Seqs.Sum(Seqs.Filter(ts, PendingOf("income")), Amount),
                   Seqs.Sum(Seqs.Filter(ts, PendingOf("expense")), Amount),
                   |Seqs.Filter(ts, OverdueOn(today))|)
  }

  /** `transactions?.slice(0, 10) || []`: the first ten fetched, or all when fewer. */
  function Recent(ts: seq<Transaction>): (r: seq<Transaction>)
    ensures |r| == if |ts| < 10 then |ts| else 10
    ensures forall i :: 0 <= i < |r| ==> r[i] == ts[i]
  {
    if |ts| <= 10 then ts else ts[..10]
  }

  /** The income cards agree with the accounts-receivable page over the same income
    * transactions: received is its paid card, to receive its pending card. */
  lemma IncomeMatchesReceivables(ts: seq<Transaction>, today: string)
    ensures ComputeStats(ts, today).totalIncome ==
      StatsOf(Seqs.Filter(ts, IsIncome), today).paid
    ensures ComputeStats(ts, today).pendingIncome ==
      StatsOf(Seqs.Filter(ts, IsIncome), today).pending
  {
    Seqs.FilterFilter(ts, IsIncome, IsPaid, PaidOf("income"));
    Seqs.FilterFilter(ts, IsIncome, IsPending, PendingOf("income"));
  }

  /** The same for the expense cards and the accounts-payable page. */
  lemma ExpenseMatchesPayables(ts: seq<Transaction>, today: string)
    ensures ComputeStats(ts, today).totalExpense ==
      StatsOf(Seqs.Filter(ts, IsExpense), today).paid
    ensures ComputeStats(ts, today).pendingExpense ==
      StatsOf(Seqs.Filter(ts, IsExpense), today).pending
  {
    Seqs.FilterFilter(ts, IsExpense, IsPaid, PaidOf("expense"));
    Seqs.FilterFilter(ts, IsExpense, IsPending, PendingOf("expense"));
  }

  /** The overdue alert counts pending transactions of both kinds: the overdue receivables
    * plus the overdue payables, and never more than the pending ones. */
  lemma {:induction false} OverdueCountsBothKinds(ts: seq<Transaction>, today: string)
    requires forall t :: t in ts ==> IsIncome(t) || IsExpense(t)
    ensures ComputeStats(ts, today).overdueCount ==
      StatsOf(Seqs.Filter(ts, IsIncome), today).overdue
      + StatsOf(Seqs.Filter(ts, IsExpense), today).overdue
    ensures ComputeStats(ts, today).overdueCount <= |Seqs.Filter(ts, IsPending)|
  {
    var overdue := OverdueOn(today);
    var overdueIncome := (t: Transaction) => overdue(t) && IsIncome(t);
    var overdueOther := (t: Transaction) => overdue(t) && !IsIncome(t);
    Seqs.FilterPartition(Seqs.Filter(ts, overdue), IsIncome, (t: Transaction) => !IsIncome(t));
    Seqs.FilterFilter(ts, overdue, IsIncome, overdueIncome);
    Seqs.FilterFilter(ts, IsIncome, overdue, overdueIncome);
    Seqs.FilterFilter(ts, overdue, (t: Transaction) => !IsIncome(t), overdueOther);
    Seqs.FilterFilter(ts, IsExpense, overdue, (t: Transaction) => IsExpense(t) && overdue(t));
    Seqs.FilterExt(ts, overdueOther, (t: Transaction) => IsExpense(t) && overdue(t));
    OverdueAtMostPending(ts, today);
  }

  /** With no negative amounts the balance is at most what was received. */
  lemma BalanceAtMostIncome(ts: seq<Transaction>, today: string)
    requires forall t :: t in ts ==> t.amount >= 0.0
    ensures ComputeStats(ts, today).balance <= ComputeStats(ts, today).totalIncome
  {
    var paidExpense := Seqs.Filter(ts, PaidOf("expense"));
    forall i | 0 <= i < |paidExpense| ensures Amount(paidExpense[i]) >= 0.0 {
      Seqs.FilterMem(ts, PaidOf("expense"), paidExpense[i]);
    }
    Seqs.SumNonneg(paidExpense, Amount);
  }

  /** The answer of the transactions query: an error, or the rows (possibly null). */
  datatype Answer = QueryFailed | Rows(rows: Option<seq<Transaction>>)

  class Page {
    var loading: bool
    var stats: FinancialStats
    var recentTransactions: seq<Transaction>

    constructor ()
      ensures loading && stats == ZeroStats && recentTransactions == []
    {
      loading := true;
      stats := ZeroStats;
      recentTransactions := [];
    }

    /** loadFinancialData: on an error the statistics and list stay as they were; a null
      * answer counts as the empty list. Loading ends either way. */
    method LoadFinancialData(answer: Answer, today: string)
      modifies this
      ensures !loading
      ensures answer.QueryFailed? ==>
        stats == old(stats) && recentTransactions == old(recentTransactions)
      ensures answer.Rows? ==>
        && stats == ComputeStats(answer.rows.GetOr([]), today)
        && stats.balance == stats.totalIncome - stats.totalExpense
        && recentTransactions == Recent(answer.rows.GetOr([]))
    {
      loading := true;
      if answer.QueryFailed? {
        loading := false;
        return;
      }
      var transactions := answer.rows.GetOr([]);
      stats := ComputeStats(transactions, today);
      recentTransactions := Recent(transactions);
      loading := false;
    }
  }
}
