// The accounts-receivable page (src/pages/financial/Receivables.tsx): the list
// filter (search, status, due-date range) and the statistics cards. Loading,
// marking as paid and deleting are database I/O and are left out.
module Receivables {
  import opened Text
  import Seqs

  /** The columns of a financial transaction the financial pages read; `kind` is the
    * `type` column ('income' or 'expense'). */
  datatype Transaction = Transaction(
    kind: string, description: string, category: string, status: string, dueDate: string,
    amount: real)

  /** The filter inputs: search box, status select and the two date inputs ('' when
    * empty). */
  datatype Query = Query(searchTerm: string, statusFilter: string, startDate: string,
                         endDate: string)

  /** `s.split('T')[0]`: everything before the first 'T'. */
  function DatePart(s: string): (r: string)
    ensures IsPrefix(r, s) && 'T' !in r
    ensures |r| < |s| ==> s[|r|] == 'T'
  {
    if s == [] || s[0] == 'T' then [] else [s[0]] + DatePart(s[1..])
  }

  /** Description or category contains the (already lower-cased) term, ignoring case. */
  predicate MatchesSearch(t: Transaction, term: string)
  {
    Contains(Lower(t.description), term) || Contains(Lower(t.category), term)
  }

  function BySearch(term: string): Transaction -> bool { (t: Transaction) => MatchesSearch(t, term) }
  function ByStatus(status: string): Transaction -> bool { (t: Transaction) => t.status == status }
  function DueBetween(start: string, end: string): Transaction -> bool
  {
    (t: Transaction) => LessEq(start, DatePart(t.dueDate)) && LessEq(DatePart(t.dueDate), end)
  }
  function DueFrom(start: string): Transaction -> bool { (t: Transaction) => LessEq(start, DatePart(t.dueDate)) }
  function DueUntil(end: string): Transaction -> bool { (t: Transaction) => LessEq(DatePart(t.dueDate), end) }

  /** The three successive filters of filterTransactions. */
  function SearchStep(ts: seq<Transaction>, searchTerm: string): seq<Transaction>
  {
    if searchTerm == "" then ts else Seqs.Filter(ts, BySearch(Lower(searchTerm)))
  }

  function StatusStep(ts: seq<Transaction>, statusFilter: string): seq<Transaction>
  {
    if statusFilter == "all" then ts else Seqs.Filter(ts, ByStatus(statusFilter))
  }

  function DateStep(ts: seq<Transaction>, startDate: string, endDate: string): seq<Transaction>
  {
    if startDate != "" && endDate != "" then Seqs.Filter(ts, DueBetween(startDate, endDate))
    else if startDate != "" then Seqs.Filter(ts, DueFrom(startDate))
    else if endDate != "" then Seqs.Filter(ts, DueUntil(endDate))
    else ts
  }

  /** The list filterTransactions stores. */
  function Filtered(ts: seq<Transaction>, q: Query): seq<Transaction>
  {
    DateStep(StatusStep(SearchStep(ts, q.searchTerm), q.statusFilter), q.startDate, q.endDate)
  }

  /** Each filter on its own, as a condition on one transaction that holds when the
    * filter is off. */
  predicate PassesSearch(searchTerm: string, t: Transaction)
  {
    searchTerm != "" ==> MatchesSearch(t, Lower(searchTerm))
  }

  predicate PassesStatus(statusFilter: string, t: Transaction)
  {
    statusFilter != "all" ==> t.status == statusFilter
  }

  predicate PassesDates(startDate: string, endDate: string, t: Transaction)
  {
    && (startDate != "" ==> LessEq(startDate, DatePart(t.dueDate)))
    && (endDate != "" ==> LessEq(DatePart(t.dueDate), endDate))
  }

  /** Whether one transaction is shown: it passes every filter that is on. */
  predicate Keeps(q: Query, t: Transaction)
  {
    PassesSearch(q.searchTerm, t) && PassesStatus(q.statusFilter, t)
    && PassesDates(q.startDate, q.endDate, t)
  }

  lemma SearchStepFilters(ts: seq<Transaction>, searchTerm: string)
    ensures SearchStep(ts, searchTerm) == Seqs.Filter(ts, (t: Transaction) => PassesSearch(searchTerm, t))
  {
    if searchTerm == "" {
      Seqs.FilterAll(ts, (t: Transaction) => PassesSearch(searchTerm, t));
    } else {
      Seqs.FilterExt(ts, BySearch(Lower(searchTerm)), (t: Transaction) => PassesSearch(searchTerm, t));
    }
  }

  lemma StatusStepFilters(ts: seq<Transaction>, statusFilter: string)
    ensures StatusStep(ts, statusFilter) == Seqs.Filter(ts, (t: Transaction) => PassesStatus(statusFilter, t))
  {
    if statusFilter == "all" {
      Seqs.FilterAll(ts, (t: Transaction) => PassesStatus(statusFilter, t));
    } else {
      Seqs.FilterExt(ts, ByStatus(statusFilter), (t: Transaction) => PassesStatus(statusFilter, t));
    }
  }

  lemma DateStepFilters(ts: seq<Transaction>, startDate: string, endDate: string)
    ensures DateStep(ts, startDate, endDate) ==
      Seqs.Filter(ts, (t: Transaction) => PassesDates(startDate, endDate, t))
  {
    var p := (t: Transaction) => PassesDates(startDate, endDate, t);
    if startDate != "" && endDate != "" {
      Seqs.FilterExt(ts, DueBetween(startDate, endDate), p);
    } else if startDate != "" {
      Seqs.FilterExt(ts, DueFrom(startDate), p);
    } else if endDate != "" {
      Seqs.FilterExt(ts, DueUntil(endDate), p);
    } else {
      Seqs.FilterAll(ts, p);
    }
  }

  /** The three successive filters are one filter by Keeps. */
  lemma {:induction false} FilteredIsOneFilter(ts: seq<Transaction>, q: Query)
    ensures Filtered(ts, q) == Seqs.Filter(ts, (t: Transaction) => Keeps(q, t))
  {
    var ps := (t: Transaction) => PassesSearch(q.searchTerm, t);
    var pst := (t: Transaction) => PassesStatus(q.statusFilter, t);
    var pd := (t: Transaction) => PassesDates(q.startDate, q.endDate, t);
    var both := (t: Transaction) => PassesSearch(q.searchTerm, t) && PassesStatus(q.statusFilter, t);
    SearchStepFilters(ts, q.searchTerm);
    StatusStepFilters(SearchStep(ts, q.searchTerm), q.statusFilter);
    Seqs.FilterFilter(ts, ps, pst, both);
    DateStepFilters(StatusStep(SearchStep(ts, q.searchTerm), q.statusFilter), q.startDate,
                    q.endDate);
    Seqs.FilterFilter(ts, both, pd, (t: Transaction) => Keeps(q, t));
  }

  /** A transaction is listed exactly when it is one of the page's transactions and passes
    * every active filter: the search in description or category ignoring case, the exact
    * status unless 'all', and the inclusive due-date bounds that are set. */
  lemma FilteredMembers(ts: seq<Transaction>, q: Query, t: Transaction)
    ensures t in Filtered(ts, q) <==> t in ts && Keeps(q, t)
  {
    FilteredIsOneFilter(ts, q);
    Seqs.FilterMem(ts, (t: Transaction) => Keeps(q, t), t);
  }

  /** The listed transactions keep the order of the loaded list. */
  lemma FilteredIsSubsequence(ts: seq<Transaction>, q: Query)
    ensures Seqs.IsSubseq(Filtered(ts, q), ts)
  {
    FilteredIsOneFilter(ts, q);
    Seqs.FilterIsSubseq(ts, (t: Transaction) => Keeps(q, t));
  }

  /** Filtering the filtered list again changes nothing. */
  lemma FilteredIdempotent(ts: seq<Transaction>, q: Query)
    ensures Filtered(Filtered(ts, q), q) == Filtered(ts, q)
  {
    FilteredIsOneFilter(ts, q);
    FilteredIsOneFilter(Filtered(ts, q), q);
    Seqs.FilterIdempotent(ts, (t: Transaction) => Keeps(q, t));
  }

  /** With every filter off the whole list is shown. */
  lemma NoFilterKeepsAll(ts: seq<Transaction>)
    ensures Filtered(ts, Query("", "all", "", "")) == ts
  {
    FilteredIsOneFilter(ts, Query("", "all", "", ""));
    Seqs.FilterAll(ts, (t: Transaction) => Keeps(Query("", "all", "", ""), t));
  }

  /** The statistics cards. */
  datatype Stats = Stats(total: real, pending: real, paid: real, overdue: nat)

  function Amount(t: Transaction): real { t.amount }
  predicate IsPending(t: Transaction) { t.status == "pending" }
  predicate IsPaid(t: Transaction) { t.status == "paid" }
  predicate IsOther(t: Transaction) { !IsPending(t) && !IsPaid(t) }

  /** Overdue compares the whole due_date string with today's `YYYY-MM-DD`. */
  function OverdueOn(today: string): Transaction -> bool
  {
    (t: Transaction) => IsPending(t) && Less(t.dueDate, today)
  }

  /** stats, over the filtered list, on the day `today`. */
  function StatsOf(ts: seq<Transaction>, today: string): Stats
  {
    Stats(Seqs.Sum(ts, Amount), Seqs.Sum(Seqs.Filter(ts, IsPending), Amount),
          Seqs.Sum(Seqs.Filter(ts, IsPaid), Amount), |Seqs.Filter(ts, OverdueOn(today))|)
  }

  /** The total is the pending sum plus the paid sum plus the sum of the rest (the
    * cancelled transactions). */
  lemma StatsAddUp(ts: seq<Transaction>, today: string)
    ensures StatsOf(ts, today).total ==
      StatsOf(ts, today).pending + StatsOf(ts, today).paid + Seqs.Sum(Seqs.Filter(ts, IsOther), Amount)
  {
    var notPending := (t: Transaction) => !IsPending(t);
    Seqs.SumPartition(ts, Amount, IsPending, notPending);
    var rest := Seqs.Filter(ts, notPending);
    Seqs.SumPartition(rest, Amount, IsPaid, (t: Transaction) => !IsPaid(t));
    Seqs.FilterFilter(ts, notPending, IsPaid, (t: Transaction) => notPending(t) && IsPaid(t));
    Seqs.FilterExt(ts, (t: Transaction) => notPending(t) && IsPaid(t), IsPaid);
    Seqs.FilterFilter(ts, notPending, (t: Transaction) => !IsPaid(t), IsOther);
  }

  /** With no negative amounts, the pending and paid cards never exceed the total. */
  lemma PendingAndPaidWithinTotal(ts: seq<Transaction>, today: string)
    requires forall t :: t in ts ==> t.amount >= 0.0
    ensures StatsOf(ts, today).pending + StatsOf(ts, today).paid <= StatsOf(ts, today).total
  {
    StatsAddUp(ts, today);
    var others := Seqs.Filter(ts, IsOther);
    forall i | 0 <= i < |others| ensures Amount(others[i]) >= 0.0 {
      Seqs.FilterMem(ts, IsOther, others[i]);
    }
    Seqs.SumNonneg(others, Amount);
  }

  /** Only pending transactions are overdue, so there are never more overdue than
    * pending ones. */
  lemma OverdueAtMostPending(ts: seq<Transaction>, today: string)
    ensures StatsOf(ts, today).overdue <= |Seqs.Filter(ts, IsPending)|
  {
    Seqs.FilterFilter(ts, IsPending, OverdueOn(today), OverdueOn(today));
  }

  /** The overdue test compares the whole due_date, but when its date part has the length
    * of today's date, whatever follows it (a time) does not change the verdict. */
  lemma OverdueIgnoresTime(today: string, t: Transaction, date: string, time: string)
    requires t.dueDate == date + time && |date| == |today|
    ensures OverdueOn(today)(t) <==> IsPending(t) && Less(date, today)
  {
    LessExtend(date, today, time, "");
    assert today + "" == today;
  }

  /** Comparing two extended strings of which the leading parts have equal length. */
  lemma {:induction false} LessExtend(a: string, b: string, x: string, y: string)
    requires |a| == |b|
    ensures Less(a + x, b + y) <==> Less(a, b) || (a == b && Less(x, y))
  {
    if a == [] {
      assert a + x == x && b + y == y;
    } else {
      LessExtend(a[1..], b[1..], x, y);
      assert (a + x)[1..] == a[1..] + x && (b + y)[1..] == b[1..] + y;
      assert a == [a[0]] + a[1..] && b == [b[0]] + b[1..];
    }
  }

  /** The page state filterTransactions reads and writes. */
  class Page {
    var transactions: seq<Transaction>
    var searchTerm: string
    var statusFilter: string
    var startDate: string
    var endDate: string
    var filteredTransactions: seq<Transaction>

    constructor ()
      ensures transactions == [] && filteredTransactions == []
      ensures searchTerm == "" && statusFilter == "all" && startDate == "" && endDate == ""
    {
      transactions := [];
      searchTerm := "";
      statusFilter := "all";
      startDate := "";
      endDate := "";
      filteredTransactions := [];
    }

    function CurrentQuery(): Query
      reads this
    {
      Query(searchTerm, statusFilter, startDate, endDate)
    }

    /** filterTransactions: narrows a copy of the list filter by filter and stores it. */
    method FilterTransactions()
      modifies this
      ensures filteredTransactions == Filtered(transactions, CurrentQuery())
      ensures transactions == old(transactions) && searchTerm == old(searchTerm)
      ensures statusFilter == old(statusFilter)
      ensures startDate == old(startDate) && endDate == old(endDate)
    {
      var filtered := transactions;
      if searchTerm != "" {
        var term := Lower(searchTerm);
        filtered := Seqs.Filter(filtered, BySearch(term));
      }
      if statusFilter != "all" {
        filtered := Seqs.Filter(filtered, ByStatus(statusFilter));
      }
      if startDate != "" && endDate != "" {
        filtered := Seqs.Filter(filtered, DueBetween(startDate, endDate));
      } else if startDate != "" {
        filtered := Seqs.Filter(filtered, DueFrom(startDate));
      } else if endDate != "" {
        filtered := Seqs.Filter(filtered, DueUntil(endDate));
      }
      filteredTransactions := filtered;
    }
  }
}
