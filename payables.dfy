// The accounts-payable page (src/pages/financial/Payables.tsx): the same search and
// status filters as the receivables page plus a category filter, the statistics
// cards, and the category list of the filter select. Loading, marking as paid and
// deleting are database I/O and are left out.
module Payables {
  import opened Text
  import Seqs
  import opened StringSort
  import opened Receivables

  /** The filter inputs: search box, status select and category select. */
  datatype PayablesQuery = PayablesQuery(
    searchTerm: string, statusFilter: string, categoryFilter: string)

  function ByCategory(category: string): Transaction -> bool
  {
    (t: Transaction) => t.category == category
  }

  function CategoryStep(ts: seq<Transaction>, categoryFilter: string): seq<Transaction>
  {
    if categoryFilter == "all" then ts else Seqs.Filter(ts, ByCategory(categoryFilter))
  }

  /** The list filterTransactions stores: search, then status, then category. */
  function FilteredPayables(ts: seq<Transaction>, q: PayablesQuery): seq<Transaction>
  {
    CategoryStep(StatusStep(SearchStep(ts, q.searchTerm), q.statusFilter), q.categoryFilter)
  }

  predicate PassesCategory(categoryFilter: string, t: Transaction)
  {
    categoryFilter != "all" ==> t.category == categoryFilter
  }

  /** Whether one expense is shown. */
  predicate KeepsPayable(q: PayablesQuery, t: Transaction)
  {
    PassesSearch(q.searchTerm, t) && PassesStatus(q.statusFilter, t)
    && PassesCategory(q.categoryFilter, t)
  }

  lemma CategoryStepFilters(ts: seq<Transaction>, categoryFilter: string)
    ensures CategoryStep(ts, categoryFilter) ==
      Seqs.Filter(ts, (t: Transaction) => PassesCategory(categoryFilter, t))
  {
    if categoryFilter == "all" {
      Seqs.FilterAll(ts, (t: Transaction) => PassesCategory(categoryFilter, t));
    } else {
      Seqs.FilterExt(ts, ByCategory(categoryFilter),
                     (t: Transaction) => PassesCategory(categoryFilter, t));
    }
  }

  /** The three successive filters are one filter by KeepsPayable. */
  lemma {:induction false} FilteredPayablesIsOneFilter(ts: seq<Transaction>, q: PayablesQuery)
    ensures FilteredPayables(ts, q) == Seqs.Filter(ts, (t: Transaction) => KeepsPayable(q, t))
  {
    var ps := (t: Transaction) => PassesSearch(q.searchTerm, t);
    var pst := (t: Transaction) => PassesStatus(q.statusFilter, t);
    var pc := (t: Transaction) => PassesCategory(q.categoryFilter, t);
    var both := (t: Transaction) => PassesSearch(q.searchTerm, t)
                                    && PassesStatus(q.statusFilter, t);
    SearchStepFilters(ts, q.searchTerm);
    StatusStepFilters(SearchStep(ts, q.searchTerm), q.statusFilter);
    Seqs.FilterFilter(ts, ps, pst, both);
    CategoryStepFilters(StatusStep(SearchStep(ts, q.searchTerm), q.statusFilter),
                        q.categoryFilter);
    Seqs.FilterFilter(ts, both, pc, (t: Transaction) => KeepsPayable(q, t));
  }

  /** An expense is listed exactly when it is loaded and passes the search, the exact
    * status unless 'all' and the exact category unless 'all'. */
  lemma FilteredPayablesMembers(ts: seq<Transaction>, q: PayablesQuery, t: Transaction)
    ensures t in FilteredPayables(ts, q) <==> t in ts && KeepsPayable(q, t)
  {
    FilteredPayablesIsOneFilter(ts, q);
    Seqs.FilterMem(ts, (t: Transaction) => KeepsPayable(q, t), t);
  }

  /** The listed expenses keep the order of the loaded list. */
  lemma FilteredPayablesIsSubsequence(ts: seq<Transaction>, q: PayablesQuery)
    ensures Seqs.IsSubseq(FilteredPayables(ts, q), ts)
  {
    FilteredPayablesIsOneFilter(ts, q);
    Seqs.FilterIsSubseq(ts, (t: Transaction) => KeepsPayable(q, t));
  }

  /** `transactions.map(t => t.category)` */
  function CategoryColumn(ts: seq<Transaction>): (r: seq<string>)
    ensures |r| == |ts| && forall i :: 0 <= i < |ts| ==> r[i] == ts[i].category
  {
    seq(|ts|, i requires 0 <= i < |ts| => ts[i].category)
  }

  /** `Array.from(new Set(transactions.map(t => t.category))).sort()`: every category of
    * the loaded list once, in ascending order. */
  function Categories(ts: seq<Transaction>): (r: seq<string>)
    ensures Sorted(r) && NoDuplicates(r)
    ensures forall c :: c in r <==> exists t :: t in ts && t.category == c
  {
    var column := CategoryColumn(ts);
    var r := Sort(Distinct(column));
    SortKeepsDistinct(Distinct(column));
    forall c ensures c in r <==> exists t :: t in ts && t.category == c {
      if c in column {
        var i :| 0 <= i < |column| && column[i] == c;
        assert ts[i] in ts;
      }
      if exists t :: t in ts && t.category == c {
        var t :| t in ts && t.category == c;
        var i :| 0 <= i < |ts| && ts[i] == t;
        assert column[i] == c;
      }
    }
    r
  }

  /** The category of every listed expense is offered in the select. */
  lemma FilteredCategoriesListed(ts: seq<Transaction>, q: PayablesQuery, t: Transaction)
    requires t in FilteredPayables(ts, q)
    ensures t.category in Categories(ts)
  {
    FilteredPayablesMembers(ts, q, t);
  }

  /** The page state filterTransactions reads and writes. */
  class PayablesPage {
    var transactions: seq<Transaction>
    var searchTerm: string
    var statusFilter: string
    var categoryFilter: string
    var filteredTransactions: seq<Transaction>

    constructor ()
      ensures transactions == [] && filteredTransactions == []
      ensures searchTerm == "" && statusFilter == "all" && categoryFilter == "all"
    {
      transactions := [];
      searchTerm := "";
      statusFilter := "all";
      categoryFilter := "all";
      filteredTransactions := [];
    }

    function CurrentQuery(): PayablesQuery
      reads this
    {
      PayablesQuery(searchTerm, statusFilter, categoryFilter)
    }

    /** filterTransactions: narrows a copy of the list filter by filter and stores it. */
    method FilterTransactions()
      modifies this
      ensures filteredTransactions == FilteredPayables(transactions, CurrentQuery())
      ensures transactions == old(transactions) && searchTerm == old(searchTerm)
      ensures statusFilter == old(statusFilter) && categoryFilter == old(categoryFilter)
    {
      var filtered := transactions;
      if searchTerm != "" {
        var term := Lower(searchTerm);
        filtered := Seqs.Filter(filtered, BySearch(term));
      }
      if statusFilter != "all" {
        filtered := Seqs.Filter(filtered, ByStatus(statusFilter));
      }
      if categoryFilter != "all" {
        filtered := Seqs.Filter(filtered, ByCategory(categoryFilter));
      }
      filteredTransactions := filtered;
    }
  }
}
