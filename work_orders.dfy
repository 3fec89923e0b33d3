// The work-order list page (src/pages/operations/WorkOrders.tsx): the search and status
// filter, the status and payment badges and the statistics cards. Loading and deleting
// are database I/O.
module WorkOrders {
  import opened Wrappers
  import opened Text
  import Seqs

  /** WorkOrderWithDetails, with the joined customer and vehicle possibly missing. */
  datatype WorkOrderRow = WorkOrderRow(
    id: string, status: string, paymentStatus: string, totalAmount: Option<real>,
    customerName: Option<string>, licensePlate: Option<string>)

  /** matchesSearch: the lower-cased term in the customer name, the plate or the id,
    * ignoring case. */
  predicate MatchesSearch(wo: WorkOrderRow, term: string)
  {
    || (wo.customerName.Some? && Contains(Lower(wo.customerName.value), term))
    || (wo.licensePlate.Some? && Contains(Lower(wo.licensePlate.value), term))
    || Contains(Lower(wo.id), term)
  }

  predicate Shown(searchTerm: string, statusFilter: string, wo: WorkOrderRow)
  {
    MatchesSearch(wo, Lower(searchTerm)) && (statusFilter == "all" || wo.status == statusFilter)
  }

  function ByPage(searchTerm: string, statusFilter: string): WorkOrderRow -> bool
  {
    (wo: WorkOrderRow) => Shown(searchTerm, statusFilter, wo)
  }

  /** filteredWorkOrders */
  function Filtered(rows: seq<WorkOrderRow>, searchTerm: string, statusFilter: string)
    : (r: seq<WorkOrderRow>)
    ensures forall wo :: wo in r <==> wo in rows && Shown(searchTerm, statusFilter, wo)
    ensures Seqs.IsSubseq(r, rows)
  {
    var r := Seqs.Filter(rows, ByPage(searchTerm, statusFilter));
    forall wo ensures wo in r <==> wo in rows && Shown(searchTerm, statusFilter, wo) {
      Seqs.FilterMem(rows, ByPage(searchTerm, statusFilter), wo);
    }
    Seqs.FilterIsSubseq(rows, ByPage(searchTerm, statusFilter));
    r
  }

  /** The id is always searched, so an empty term keeps every row of the status, and with
    * status 'all' the empty term shows the whole list. */
  lemma EmptySearchKeepsStatus(rows: seq<WorkOrderRow>, statusFilter: string)
    ensures Filtered(rows, "", statusFilter)
         == Seqs.Filter(rows, (wo: WorkOrderRow) => statusFilter == "all" || wo.status == statusFilter)
    ensures Filtered(rows, "", "all") == rows
  {
    assert Lower("") == "";
    forall wo: WorkOrderRow ensures MatchesSearch(wo, "") {
      ContainsEmpty(Lower(wo.id));
    }
    Seqs.FilterExt(rows, ByPage("", statusFilter),
                   (wo: WorkOrderRow) => statusFilter == "all" || wo.status == statusFilter);
    Seqs.FilterAll(rows, ByPage("", "all"));
  }

  datatype Badge = Badge(caption: string, className: string)

  /** The status badges record of getStatusBadge. */
  function KnownStatusBadge(status: string): Option<Badge>
  {
    if status == "pending" then Some(Badge("Pendente", "badge-yellow"))
    else if status == "in_progress" then Some(Badge("Em Andamento", "badge-blue"))
    else if status == "completed" then Some(Badge("Concluído", "badge-green"))
    else if status == "cancelled" then Some(Badge("Cancelado", "badge-red"))
    else None
  }

  /** `badges[status] || badges.pending` */
  function StatusBadge(status: string): (b: Badge)
    ensures KnownStatusBadge(status).Some? ==> b == KnownStatusBadge(status).value
    ensures KnownStatusBadge(status).None? ==> b == KnownStatusBadge("pending").value
  {
    match KnownStatusBadge(status)
    case Some(b) => b
    case None => Badge("Pendente", "badge-yellow")
  }

  /** The payment badges record of getPaymentBadge. */
  function KnownPaymentBadge(status: string): Option<Badge>
  {
    if status == "pending" then Some(Badge("Pendente", "badge-red"))
    else if status == "partial" then Some(Badge("Parcial", "badge-yellow"))
    else if status == "paid" then Some(Badge("Pago", "badge-green"))
    else None
  }

  /** `badges[status] || badges.pending` */
  function PaymentBadge(status: string): (b: Badge)
    ensures KnownPaymentBadge(status).Some? ==> b == KnownPaymentBadge(status).value
    ensures KnownPaymentBadge(status).None? ==> b == KnownPaymentBadge("pending").value
  {
    match KnownPaymentBadge(status)
    case Some(b) => b
    case None => Badge("Pendente", "badge-red")
  }

  /** A status outside the record, 'draft' among them, shows the 'pending' badge; so do an
    * unknown or missing payment status. The named statuses keep badges of their own. */
  lemma BadgeFallbacks(status: string)
    ensures status !in {"pending", "in_progress", "completed", "cancelled"} ==>
      StatusBadge(status) == StatusBadge("pending")
    ensures StatusBadge("draft") == Badge("Pendente", "badge-yellow")
    ensures status in {"in_progress", "completed", "cancelled"} ==>
      StatusBadge(status) != StatusBadge("pending")
    ensures status !in {"pending", "partial", "paid"} ==>
      PaymentBadge(status) == PaymentBadge("pending")
    ensures status in {"partial", "paid"} ==> PaymentBadge(status) != PaymentBadge("pending")
  {
  }

  /** The cards; they count over the whole loaded list, not the filtered one. */
  datatype Stats = Stats(
    total: nat, pending: nat, inProgress: nat, completed: nat, totalRevenue: real,
    pendingPayment: real)

  function WithStatus(status: string): WorkOrderRow -> bool
  {
    (wo: WorkOrderRow) => wo.status == status
  }

  function WithPaymentStatus(status: string): WorkOrderRow -> bool
  {
    (wo: WorkOrderRow) => wo.paymentStatus == status
  }

  /** `wo.total_amount || 0` */
  function TotalOrZero(wo: WorkOrderRow): real
  {
    wo.totalAmount.GetOr(0.0)
  }

  /** The 'pending' card counts the drafts. */
  function StatsOf(rows: seq<WorkOrderRow>): Stats
  {
    Stats(|rows|, |Seqs.Filter(rows, WithStatus("draft"))|,
          |Seqs.Filter(rows, WithStatus("in_progress"))|,
          |Seqs.Filter(rows, WithStatus("completed"))|,
          Seqs.Sum(Seqs.Filter(rows, WithStatus("completed")), TotalOrZero),
          Seqs.Sum(Seqs.Filter(rows, WithPaymentStatus("pending")), TotalOrZero))
  }

  /** What one order adds to the revenue: its total when it is completed and has one. */
  function RevenueOf(wo: WorkOrderRow): real
  {
    if wo.status == "completed" && wo.totalAmount.Some? then wo.totalAmount.value else 0.0
  }

  /** The revenue card is the sum of the totals of the completed orders, a missing total
    * counting 0: a completed order without a total adds nothing, and an order of any other
    * status adds nothing whatever its total. */
  lemma {:induction false} RevenueOfCompleted(rows: seq<WorkOrderRow>)
    ensures StatsOf(rows).totalRevenue == Seqs.Sum(rows, RevenueOf)
  {
    if rows != [] {
      RevenueOfCompleted(rows[1..]);
      assert rows == [rows[0]] + rows[1..];
      Seqs.FilterConcat([rows[0]], rows[1..], WithStatus("completed"));
      var rest := Seqs.Filter(rows[1..], WithStatus("completed"));
      if rows[0].status == "completed" {
        assert Seqs.Filter(rows, WithStatus("completed")) == [rows[0]] + rest;
      } else {
        assert Seqs.Filter(rows, WithStatus("completed")) == rest;
      }
    }
  }

  /** Every status card counts at most the whole list, and the three status cards together
    * too, since a work order has one status. */
  lemma {:induction false} StatusCardsWithinTotal(rows: seq<WorkOrderRow>)
    ensures StatsOf(rows).pending + StatsOf(rows).inProgress + StatsOf(rows).completed
         <= StatsOf(rows).total
  {
    if rows != [] {
      StatusCardsWithinTotal(rows[1..]);
    }
  }

  /** With no negative totals the revenue and pending-payment cards are not negative. */
  lemma MoneyCardsNonnegative(rows: seq<WorkOrderRow>)
    requires forall wo :: wo in rows && wo.totalAmount.Some? ==> wo.totalAmount.value >= 0.0
    ensures StatsOf(rows).totalRevenue >= 0.0 && StatsOf(rows).pendingPayment >= 0.0
  {
    var completed := Seqs.Filter(rows, WithStatus("completed"));
    var unpaid := Seqs.Filter(rows, WithPaymentStatus("pending"));
    forall i | 0 <= i < |completed| ensures TotalOrZero(completed[i]) >= 0.0 {
      Seqs.FilterMem(rows, WithStatus("completed"), completed[i]);
    }
    forall i | 0 <= i < |unpaid| ensures TotalOrZero(unpaid[i]) >= 0.0 {
      Seqs.FilterMem(rows, WithPaymentStatus("pending"), unpaid[i]);
    }
    Seqs.SumNonneg(completed, TotalOrZero);
    Seqs.SumNonneg(unpaid, TotalOrZero);
  }
}
