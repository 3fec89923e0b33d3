// The main dashboard (src/pages/Dashboard.tsx): the statistic cards computed from
// the fetched rows, the grouping of the paid income by month and the six-month
// revenue chart. The queries are database I/O; their answers are parameters, and
// the filters the queries apply on the database side are written as functions on
// the table rows so that the statistics can be stated over the whole table.
module Dashboard {
  import opened Wrappers
  import opened Text
  import Seqs
  import opened DateTime

  // ----- Statistic cards ------------------------------------------------------

  datatype WorkOrderRow = WorkOrderRow(status: string)
  datatype FinancialRow = FinancialRow(amount: real, kind: string, status: string, createdAt: Time)
  datatype ProductRow = ProductRow(quantity: real, minStock: real, isActive: bool)

  /** DashboardStats */
  datatype DashboardStats = DashboardStats(
    totalCustomers: int, totalWorkOrders: int, workOrdersInProgress: nat,
    monthlyRevenue: real, pendingPayments: real, lowStockProducts: nat)

  /** The answers of the statistics queries; `None` stands for a null count or data. */
  datatype Answers = Answers(
    customersCount: Option<int>, workOrdersCount: Option<int>,
    workOrders: Option<seq<WorkOrderRow>>, financial: Option<seq<FinancialRow>>,
    products: Option<seq<ProductRow>>)

  const DayMs := 86400000

  predicate InProgress(w: WorkOrderRow) { w.status == "in_progress" }

  /** Paid income created within the thirty days before `now`. */
  function RecentIncome(now: Time): FinancialRow -> bool
  {
    (t: FinancialRow) => t.kind == "income" && t.status == "paid" && t.createdAt >= now - 30 * DayMs
  }

  predicate PendingIncome(t: FinancialRow) { t.kind == "income" && t.status == "pending" }
  predicate LowStock(p: ProductRow) { p.quantity <= p.minStock }
  predicate IsActive(p: ProductRow) { p.isActive }
  function Amount(t: FinancialRow): real { t.amount }

  /** The statistics, with every missing count or list read as 0. */
  function ComputeStats(a: Answers, now: Time): DashboardStats
  {
    DashboardStats(
      a.customersCount.GetOr(0), a.workOrdersCount.GetOr(0),
      |Seqs.Filter(a.workOrders.GetOr([]), InProgress)|,
      Seqs.Sum(Seqs.Filter(a.financial.GetOr([]), RecentIncome(now)), Amount),
      Seqs.Sum(Seqs.Filter(a.financial.GetOr([]), PendingIncome), Amount),
      |Seqs.Filter(a.products.GetOr([]), LowStock)|)
  }

  /** The products query fetches the active products; the card then counts, over the
    * whole product table, the active products at or below their minimum stock. */
  lemma LowStockCountsActiveProducts(table: seq<ProductRow>, a: Answers, now: Time)
    requires a.products == Some(Seqs.Filter(table, IsActive))
    ensures ComputeStats(a, now).lowStockProducts ==
      |Seqs.Filter(table, (p: ProductRow) => p.isActive && p.quantity <= p.minStock)|
  {
    Seqs.FilterFilter(table, IsActive, LowStock,
                      (p: ProductRow) => p.isActive && p.quantity <= p.minStock);
  }

  /** When the exact count matches the fetched rows, the in-progress card never exceeds
    * the total. */
  lemma InProgressWithinTotal(a: Answers, now: Time)
    requires a.workOrders.Some? && a.workOrdersCount == Some(|a.workOrders.value|)
    ensures ComputeStats(a, now).workOrdersInProgress <= ComputeStats(a, now).totalWorkOrders
  {
  }

  /** With no negative amounts, the last thirty days' revenue is at most the whole paid
    * income, and equals it when every row was created within those days. */
  lemma MonthlyRevenueWithinPaidIncome(rows: seq<FinancialRow>, a: Answers, now: Time)
    requires a.financial == Some(rows)
    requires forall t :: t in rows ==> t.amount >= 0.0
    ensures var paid := Seqs.Filter(rows, (t: FinancialRow) => t.kind == "income" && t.status == "paid");
      && ComputeStats(a, now).monthlyRevenue <= Seqs.Sum(paid, Amount)
      && ((forall t :: t in rows ==> t.createdAt >= now - 30 * DayMs) ==>
            ComputeStats(a, now).monthlyRevenue == Seqs.Sum(paid, Amount))
  {
    var isPaid := (t: FinancialRow) => t.kind == "income" && t.status == "paid";
    var recent := (t: FinancialRow) => t.createdAt >= now - 30 * DayMs;
    var old_ := (t: FinancialRow) => !(t.createdAt >= now - 30 * DayMs);
    var paid := Seqs.Filter(rows, isPaid);
    Seqs.FilterFilter(rows, isPaid, recent, RecentIncome(now));
    Seqs.SumPartition(paid, Amount, recent, old_);
    var older := Seqs.Filter(paid, old_);
    forall i | 0 <= i < |older| ensures Amount(older[i]) >= 0.0 {
      Seqs.FilterMem(paid, old_, older[i]);
      Seqs.FilterMem(rows, isPaid, older[i]);
    }
    Seqs.SumNonneg(older, Amount);
    if forall t :: t in rows ==> t.createdAt >= now - 30 * DayMs {
      forall i | 0 <= i < |paid| ensures recent(paid[i]) {
        Seqs.FilterMem(rows, isPaid, paid[i]);
      }
      Seqs.FilterAll(paid, recent);
    }
  }

  // ----- Month labels ---------------------------------------------------------

  const MonthNames: seq<string> :=
    ["Jan", "Fev", "Mar", "Abr", "Mai", "Jun", "Jul", "Ago", "Set", "Out", "Nov", "Dez"]

  /** `getFullYear().toString().slice(2)` */
  function YearSuffix(y: int): string
  {
    var s := IntToString(y);
    if |s| >= 2 then s[2..] else ""
  }

  /** `${months[getMonth()]}/${yy}` for month `m` (1-12) of year `y`. */
  function MonthLabel(y: int, m: int): (r: string)
    requires 1 <= m <= 12
    ensures |r| >= 4 && r[..3] == MonthNames[m - 1] && r[3] == '/'
  {
    MonthNames[m - 1] + "/" + YearSuffix(y)
  }

  /** The label of an instant's local month. */
  function MonthKey(t: Time): string
  {
    var c := CivilFromDays(Day(t));
    MonthLabel(c.year, c.month)
  }

  /** The month `i` months before month `m` of `y`: `(year, month)`. */
  function MonthsBack(y: int, m: int, i: int): (r: (int, int))
    requires 1 <= m <= 12
    ensures 1 <= r.1 <= 12
    ensures r.0 * 12 + r.1 == y * 12 + m - i
  {
    var m0 := m - 1 - i;
    (y + m0 / 12, m0 % 12 + 1)
  }

  /** The date the loop labels month `i` months back with, as it computes it:
    * `setMonth(getMonth() - i)` keeps the day of the month, so a day the earlier month
    * does not have runs over into the following month. */
  function SetMonthAsWritten(today: Civil, i: int): Civil
    requires ValidCivil(today)
  {
    var ym := MonthsBack(today.year, today.month, i);
    CivilFromDays(DaysFromCivil(Civil(ym.0, ym.1, 1)) + today.day - 1)
  }

  /** The month after `ym`. */
  function NextMonth(ym: (int, int)): (r: (int, int))
    requires 1 <= ym.1 <= 12
    ensures 1 <= r.1 <= 12
    ensures r.0 * 12 + r.1 == ym.0 * 12 + ym.1 + 1
  {
    if ym.1 == 12 then (ym.0 + 1, 1) else (ym.0, ym.1 + 1)
  }

  /** The (year, month) the loop's turn `i` labels: the month `i` back when it has
    * today's day, otherwise the month after it, into which that date runs over. */
  function AsWrittenMonth(today: Civil, i: int): (r: (int, int))
    requires ValidCivil(today)
    ensures 1 <= r.1 <= 12
  {
    var ym := MonthsBack(today.year, today.month, i);
    if today.day <= DaysInMonth(ym.0, ym.1) then ym else NextMonth(ym)
  }

  /** The first day of the next month comes a month's length after the first day of
    * this one. */
  lemma NextMonthStart(y: int, m: int)
    requires 1 <= m <= 12
    ensures var n := NextMonth((y, m));
      DaysFromCivil(Civil(n.0, n.1, 1)) == DaysFromCivil(Civil(y, m, 1)) + DaysInMonth(y, m)
  {
    if m == 12 {
      DaysBeforeYearStep(y);
      DaysBeforeMonthBound(y, 12);
      assert DaysFromMonth(y, 12) == DaysInMonth(y, 12) + DaysFromMonth(y, 13);
    } else {
      assert DaysBeforeMonth(y, m + 1) == DaysBeforeMonth(y, m) + DaysInMonth(y, m);
    }
  }

  /** Day `day` counted from the first of month `m` of `y` is a date of that month, or,
    * past its end, of the month after. */
  lemma DayCountedFromFirst(y: int, m: int, day: int)
    requires 1 <= m <= 12 && 1 <= day <= 31
    ensures var d := CivilFromDays(DaysFromCivil(Civil(y, m, 1)) + day - 1);
      (d.year, d.month) == if day <= DaysInMonth(y, m) then (y, m) else NextMonth((y, m))
  {
    var n := DaysFromCivil(Civil(y, m, 1)) + day - 1;
    var c := if day <= DaysInMonth(y, m) then Civil(y, m, day)
             else var nm := NextMonth((y, m)); Civil(nm.0, nm.1, day - DaysInMonth(y, m));
    if day > DaysInMonth(y, m) {
      NextMonthStart(y, m);
    }
    assert ValidCivil(c) && DaysFromCivil(c) == n;
    CivilRoundTrip(c);
  }

  /** That month is the month of the date `setMonth` computes. */
  lemma AsWrittenMonthIsSetMonth(today: Civil, i: int)
    requires ValidCivil(today)
    ensures var d := SetMonthAsWritten(today, i);
      AsWrittenMonth(today, i) == (d.year, d.month)
  {
    var ym := MonthsBack(today.year, today.month, i);
    DayCountedFromFirst(ym.0, ym.1, today.day);
  }

  function SetMonthLabelAsWritten(today: Civil, i: int): string
    requires ValidCivil(today)
  {
    var ym := AsWrittenMonth(today, i);
    MonthLabel(ym.0, ym.1)
  }

  /** On 31 October the label one month back is October's again: the chart shows
    * October twice ('Out/26' twice in 2026) and no September. */
  lemma SetMonthLabelRepeatsOnThe31st(y: int)
    ensures SetMonthLabelAsWritten(Civil(y, 10, 31), 1) ==
            SetMonthLabelAsWritten(Civil(y, 10, 31), 0)
  {
    assert MonthsBack(y, 10, 1) == (y, 9);
    assert AsWrittenMonth(Civil(y, 10, 31), 1) == (y, 10);
  }

  lemma OneMonthBackFrom31October(y: int)
    ensures SetMonthAsWritten(Civil(y, 10, 31), 1) == Civil(y, 10, 1)
  {
    var first := Civil(y, 10, 1);
    calc {
      SetMonthAsWritten(Civil(y, 10, 31), 1);
      { assert MonthsBack(y, 10, 1) == (y, 9); }
      CivilFromDays(DaysFromCivil(Civil(y, 9, 1)) + 31 - 1);
      { SeptemberHasThirtyDays(y); }
      CivilFromDays(DaysFromCivil(first));
      { CivilRoundTrip(first); }
      first;
    }
  }

  /** The thirty-first day counted from 1 September is 1 October. */
  lemma SeptemberHasThirtyDays(y: int)
    ensures DaysFromCivil(Civil(y, 9, 1)) + 30 == DaysFromCivil(Civil(y, 10, 1))
  {
    assert DaysInMonth(y, 9) == 30;
    assert DaysBeforeMonth(y, 10) == DaysBeforeMonth(y, 9) + DaysInMonth(y, 9);
  }

  lemma ThisMonthOn31October(y: int)
    ensures SetMonthAsWritten(Civil(y, 10, 31), 0) == Civil(y, 10, 31)
  {
    assert MonthsBack(y, 10, 0) == (y, 10);
    CivilRoundTrip(Civil(y, 10, 31));
  }

  /** The label of the month `i` months back, as the padding loop evidently intends. */
  function MonthLabelBack(today: Civil, i: int): string
    requires 1 <= today.month <= 12
  {
    var ym := MonthsBack(today.year, today.month, i);
    MonthLabel(ym.0, ym.1)
  }

  /** Both reach the same month on days every month has. */
  lemma MonthsAgreeEarlyInTheMonth(today: Civil, i: int)
    requires ValidCivil(today) && today.day <= 28
    ensures AsWrittenMonth(today, i) == MonthsBack(today.year, today.month, i)
  {
  }

  /** So their labels agree on those days. */
  lemma LabelsAgreeEarlyInTheMonth(today: Civil, i: int)
    requires ValidCivil(today) && today.day <= 28
    ensures SetMonthLabelAsWritten(today, i) == MonthLabelBack(today, i)
  {
    MonthsAgreeEarlyInTheMonth(today, i);
  }

  /** The twelve month names differ from each other. */
  lemma MonthNamesDistinct(p: int, q: int)
    requires 0 <= p < 12 && 0 <= q < 12 && p != q
    ensures MonthNames[p] != MonthNames[q]
  {
  }

  /** Labels of two different month numbers differ, whatever their years. */
  lemma MonthLabelsDistinct(y: int, m: int, z: int, n: int)
    requires 1 <= m <= 12 && 1 <= n <= 12 && m != n
    ensures MonthLabel(y, m) != MonthLabel(z, n)
  {
    MonthNamesDistinct(m - 1, n - 1);
    assert MonthLabel(y, m)[..3] != MonthLabel(z, n)[..3];
  }

  /** The six chart months, five months ago to this month, have six different labels. */
  lemma SixLabelsDistinct(today: Civil, i: int, j: int)
    requires 1 <= today.month <= 12 && 0 <= i < j <= 5
    ensures MonthLabelBack(today, i) != MonthLabelBack(today, j)
  {
    var a := MonthsBack(today.year, today.month, i);
    var b := MonthsBack(today.year, today.month, j);
    MonthLabelsDistinct(a.0, a.1, b.0, b.1);
  }

  /** Each chart month follows the one before it in the calendar. */
  lemma LabelsConsecutive(today: Civil, i: int)
    requires 1 <= today.month <= 12
    ensures var a := MonthsBack(today.year, today.month, i + 1);
      var b := MonthsBack(today.year, today.month, i);
      b == (if a.1 == 12 then (a.0 + 1, 1) else (a.0, a.1 + 1))
  {
  }

  // ----- Grouping by month ------------------------------------------------------

  /** `{ name, value }` of the chart and of the grouping accumulator. */
  datatype MonthTotal = MonthTotal(name: string, value: real)

  /** `acc.find(item => item.name === name)`, as the index of the first match. */
  function FindName(acc: seq<MonthTotal>, name: string): (r: Option<nat>)
    ensures r.Some? ==> r.value < |acc| && acc[r.value].name == name
    ensures r.Some? ==> forall j :: 0 <= j < r.value ==> acc[j].name != name
    ensures r.None? ==> forall j :: 0 <= j < |acc| ==> acc[j].name != name
  {
    if acc == [] then None
    else if acc[0].name == name then Some(0)
    else
      match FindName(acc[1..], name)
      case Some(k) => Some(k + 1)
      case None => None
  }

  /** One step of the reduce: add to the month's entry, or append a new entry. */
  function AddTo(acc: seq<MonthTotal>, name: string, amount: real): seq<MonthTotal>
  {
    match FindName(acc, name)
    case Some(k) => acc[k := acc[k].(value := acc[k].value + amount)]
    case None => acc + [MonthTotal(name, amount)]
  }

  /** Some entry carries the label `n`. */
  predicate HasName(s: seq<MonthTotal>, n: string)
  {
    exists k :: 0 <= k < |s| && s[k].name == n
  }

  lemma AddToFound(acc: seq<MonthTotal>, name: string, amount: real, k: nat)
    requires FindName(acc, name) == Some(k)
    ensures AddTo(acc, name, amount) == acc[k := acc[k].(value := acc[k].value + amount)]
  {
  }

  /** The grouping of `(label, amount)` entries, in the order the reduce visits them. */
  function Group(entries: seq<MonthTotal>): seq<MonthTotal>
  {
    if entries == [] then []
    else
      var last := entries[|entries| - 1];
      AddTo(Group(entries[..|entries| - 1]), last.name, last.value)
  }

  /** The grouping holds one entry per label, and exactly the labels of the entries. */
  lemma {:induction false} GroupLabels(entries: seq<MonthTotal>)
    ensures forall i, j :: 0 <= i < j < |Group(entries)| ==>
      Group(entries)[i].name != Group(entries)[j].name
    ensures forall n :: HasName(Group(entries), n) <==> HasName(entries, n)
  {
    if entries != [] {
      var init := entries[..|entries| - 1];
      var last := entries[|entries| - 1];
      GroupLabels(init);
      assert forall n :: HasName(entries, n) <==> HasName(init, n) || last.name == n by {
        forall n ensures HasName(entries, n) <==> HasName(init, n) || last.name == n {
          if HasName(init, n) {
            var k :| 0 <= k < |init| && init[k].name == n;
            assert entries[k].name == n;
          }
          if HasName(entries, n) {
            var k :| 0 <= k < |entries| && entries[k].name == n;
            if k < |init| {
              assert init[k].name == n;
            }
          }
        }
      }
      AddToNames(Group(init), last.name, last.value);
    }
  }

  /** What one reduce step does to the labels. */
  lemma AddToNames(acc: seq<MonthTotal>, name: string, amount: real)
    requires forall i, j :: 0 <= i < j < |acc| ==> acc[i].name != acc[j].name
    ensures var r := AddTo(acc, name, amount);
      && (forall i, j :: 0 <= i < j < |r| ==> r[i].name != r[j].name)
      && (forall n :: HasName(r, n) <==> HasName(acc, n) || name == n)
  {
    var r := AddTo(acc, name, amount);
    match FindName(acc, name)
    case Some(k) =>
      assert forall i :: 0 <= i < |r| ==> r[i].name == acc[i].name;
    case None =>
      assert r == acc + [MonthTotal(name, amount)];
      assert forall n :: HasName(r, n) <==> HasName(acc, n) || name == n by {
        forall n ensures HasName(r, n) <==> HasName(acc, n) || name == n {
          if HasName(acc, n) {
            var k :| 0 <= k < |acc| && acc[k].name == n;
            assert r[k].name == n;
          }
          if name == n {
            assert r[|acc|].name == n;
          }
        }
      }
  }

  function Value(e: MonthTotal): real { e.value }

  function NameIs(n: string): MonthTotal -> bool { (e: MonthTotal) => e.name == n }

  /** Each month's entry holds the sum of that month's amounts. */
  lemma {:induction false} GroupSums(entries: seq<MonthTotal>, k: int)
    requires 0 <= k < |Group(entries)|
    ensures Group(entries)[k].value ==
      Seqs.Sum(Seqs.Filter(entries, NameIs(Group(entries)[k].name)), Value)
  {
    var init := entries[..|entries| - 1];
    var last := entries[|entries| - 1];
    var g := Group(init);
    var r := Group(entries);
    var n := r[k].name;
    GroupLabels(init);
    assert entries == init + [last];
    SumWithLast(init, last, n);
    match FindName(g, last.name)
    case Some(j) =>
      assert r == g[j := g[j].(value := g[j].value + last.value)];
      GroupSums(init, k);
      if k != j {
        assert g[k].name != g[j].name;
      }
    case None =>
      assert r == g + [MonthTotal(last.name, last.value)];
      if k < |g| {
        GroupSums(init, k);
        assert r[k] == g[k];
      } else {
        assert n == last.name && !HasName(g, n);
        assert forall i :: 0 <= i < |init| ==> !NameIs(n)(init[i]);
        Seqs.FilterNone(init, NameIs(n));
      }
  }

  lemma SumWithLast(init: seq<MonthTotal>, last: MonthTotal, n: string)
    ensures Seqs.Sum(Seqs.Filter(init + [last], NameIs(n)), Value) ==
      Seqs.Sum(Seqs.Filter(init, NameIs(n)), Value) + (if last.name == n then last.value else 0.0)
  {
    Seqs.FilterConcat(init, [last], NameIs(n));
    Seqs.SumConcat(Seqs.Filter(init, NameIs(n)), Seqs.Filter([last], NameIs(n)), Value);
    assert Seqs.Filter([last], NameIs(n)) == if last.name == n then [last] else [];
  }

  /** The `(label, amount)` entry of each fetched revenue row. */
  function Entries(rows: seq<FinancialRow>): (r: seq<MonthTotal>)
    ensures |r| == |rows|
    ensures forall i :: 0 <= i < |rows| ==>
      r[i] == MonthTotal(MonthKey(rows[i].createdAt), rows[i].amount)
  {
    seq(|rows|, i requires 0 <= i < |rows| => MonthTotal(MonthKey(rows[i].createdAt), rows[i].amount))
  }

  lemma GroupStep(entries: seq<MonthTotal>, i: nat)
    requires i < |entries|
    ensures Group(entries[..i + 1]) == AddTo(Group(entries[..i]), entries[i].name, entries[i].value)
  {
    var prefix := entries[..i + 1];
    assert prefix[..|prefix| - 1] == entries[..i] && prefix[|prefix| - 1] == entries[i];
  }

  /** One call of the reduce callback: `existing.value += amount`, or push a new entry. */
  method AddRow(acc: seq<MonthTotal>, monthYear: string, amount: real)
    returns (next: seq<MonthTotal>)
    ensures next == AddTo(acc, monthYear, amount)
  {
    var existing := FindName(acc, monthYear);
    if existing.Some? {
      var k := existing.value;
      next := acc[k := acc[k].(value := acc[k].value + amount)];
      AddToFound(acc, monthYear, amount, k);
    } else {
      next := acc + [MonthTotal(monthYear, amount)];
    }
  }

  /** processedRevenue: the reduce over the fetched rows. */
  method GroupRevenue(rows: seq<FinancialRow>) returns (acc: seq<MonthTotal>)
    ensures acc == Group(Entries(rows))
  {
    var entries := Entries(rows);
    acc := [];
    var i := 0;
    while i < |rows|
      invariant 0 <= i <= |rows|
      invariant acc == Group(entries[..i])
    {
      var monthYear := MonthKey(rows[i].createdAt);
      acc := AddRow(acc, monthYear, rows[i].amount);
      GroupStep(entries, i);
      i := i + 1;
    }
    assert entries[..|rows|] == entries;
  }

  // ----- The six-month chart ------------------------------------------------------

  /** `found || { name: monthYear, value: 0 }`: the grouped entry with the label, or 0. */
  function ChartEntry(grouped: seq<MonthTotal>, monthYear: string): (r: MonthTotal)
    ensures r.name == monthYear
    ensures FindName(grouped, monthYear).Some? ==> r == grouped[FindName(grouped, monthYear).value]
    ensures FindName(grouped, monthYear).None? ==> r.value == 0.0
  {
    match FindName(grouped, monthYear)
    case Some(k) => grouped[k]
    case None => MonthTotal(monthYear, 0.0)
  }

  /** The months of the loop's six turns as the page computes them, five turns back
    * first: turn `i` takes the month of `setMonth(getMonth() - i)`. */
  function AsWrittenMonths(today: Civil): (r: seq<(int, int)>)
    requires ValidCivil(today)
    ensures |r| == 6
    ensures forall k :: 0 <= k < 6 ==> r[k] == AsWrittenMonth(today, 5 - k)
  {
    seq(6, k requires 0 <= k < 6 => AsWrittenMonth(today, 5 - k))
  }

  /** The six months the padding loop evidently intends, five months ago first. */
  function CorrectedMonths(today: Civil): (r: seq<(int, int)>)
    requires 1 <= today.month <= 12
    ensures |r| == 6
    ensures forall k :: 0 <= k < 6 ==> r[k] == MonthsBack(today.year, today.month, 5 - k)
  {
    seq(6, k requires 0 <= k < 6 => MonthsBack(today.year, today.month, 5 - k))
  }

  /** Every entry is a (year, month) with a month number from 1 to 12. */
  predicate ValidMonths(months: seq<(int, int)>)
  {
    forall k :: 0 <= k < |months| ==> 1 <= months[k].1 <= 12
  }

  /** A chart over a run of months: per month, its grouped entry or a 0 entry. */
  function Chart(months: seq<(int, int)>, grouped: seq<MonthTotal>): (r: seq<MonthTotal>)
    requires ValidMonths(months)
    ensures |r| == |months|
    ensures forall k :: 0 <= k < |r| ==>
      r[k] == ChartEntry(grouped, MonthLabel(months[k].0, months[k].1))
  {
    seq(|months|, k requires 0 <= k < |months| =>
      ChartEntry(grouped, MonthLabel(months[k].0, months[k].1)))
  }

  /** last6Months as the page computes it: six entries, five turns back first and this
    * month last, each labelled with the month `setMonth` yields. */
  function Series(today: Civil, grouped: seq<MonthTotal>): (r: seq<MonthTotal>)
    requires ValidCivil(today)
    ensures |r| == 6
    ensures forall k :: 0 <= k < 6 ==> r[k].name == SetMonthLabelAsWritten(today, 5 - k)
  {
    Chart(AsWrittenMonths(today), grouped)
  }

  /** The intended chart: five months ago first, this month last. */
  function CorrectedSeries(today: Civil, grouped: seq<MonthTotal>): (r: seq<MonthTotal>)
    requires 1 <= today.month <= 12
    ensures |r| == 6
    ensures forall k :: 0 <= k < 6 ==> r[k].name == MonthLabelBack(today, 5 - k)
  {
    Chart(CorrectedMonths(today), grouped)
  }

  /** The loop that pads the chart to six months. */
  /** The label of the loop's turn `i`: the month of `setMonth(getMonth() - i)`. */
  method TurnLabel(today: Civil, i: int) returns (monthYear: string)
    requires ValidCivil(today)
    ensures monthYear == SetMonthLabelAsWritten(today, i)
  {
    var d := SetMonthAsWritten(today, i);
    AsWrittenMonthIsSetMonth(today, i);
    monthYear := MonthLabel(d.year, d.month);
  }

  method Last6Months(today: Civil, grouped: seq<MonthTotal>) returns (last6: seq<MonthTotal>)
    requires ValidCivil(today)
    ensures last6 == Series(today, grouped)
  {
    ghost var series := Series(today, grouped);
    ghost var months := AsWrittenMonths(today);
    last6 := [];
    var i := 5;
    while i >= 0
      invariant -1 <= i <= 5 && |last6| == 5 - i
      invariant last6 == series[..5 - i]
    {
      var monthYear := TurnLabel(today, i);
      assert series[5 - i] == ChartEntry(grouped, monthYear);
      last6 := last6 + [ChartEntry(grouped, monthYear)];
      i := i - 1;
    }
  }

  /** On days every month has, the page's months are the intended ones. */
  lemma MonthsAgreeEarly(today: Civil)
    requires ValidCivil(today) && today.day <= 28
    ensures AsWrittenMonths(today) == CorrectedMonths(today)
  {
    forall k | 0 <= k < 6
      ensures AsWrittenMonths(today)[k] == CorrectedMonths(today)[k]
    {
      MonthsAgreeEarlyInTheMonth(today, 5 - k);
    }
  }

  /** On days every month has, the page's chart is the intended one. */
  lemma SeriesAgreesEarlyInTheMonth(today: Civil, grouped: seq<MonthTotal>)
    requires ValidCivil(today) && today.day <= 28
    ensures Series(today, grouped) == CorrectedSeries(today, grouped)
  {
    MonthsAgreeEarly(today);
  }

  /** On 31 October the page's chart shows October's entry in both of its last two
    * places, so one chart month is shown twice. */
  lemma SeriesRepeatsOnThe31st(y: int, grouped: seq<MonthTotal>)
    ensures Series(Civil(y, 10, 31), grouped)[4] == Series(Civil(y, 10, 31), grouped)[5]
  {
    SetMonthLabelRepeatsOnThe31st(y);
  }

  /** In a chart over months with different month numbers, the labels differ. */
  lemma ChartLabelsDistinct(months: seq<(int, int)>, grouped: seq<MonthTotal>, k: int, l: int)
    requires ValidMonths(months) && 0 <= k < |months| && 0 <= l < |months|
    requires months[k].1 != months[l].1
    ensures Chart(months, grouped)[k].name != Chart(months, grouped)[l].name
  {
    MonthLabelsDistinct(months[k].0, months[k].1, months[l].0, months[l].1);
  }

  /** The intended chart has six different labels. */
  lemma CorrectedSeriesDistinct(today: Civil, grouped: seq<MonthTotal>, k: int, l: int)
    requires 1 <= today.month <= 12 && 0 <= k < l < 6
    ensures CorrectedSeries(today, grouped)[k].name != CorrectedSeries(today, grouped)[l].name
  {
    var months := CorrectedMonths(today);
    assert months[k].1 != months[l].1;
    ChartLabelsDistinct(months, grouped, k, l);
  }

  /** The chart entry of a label holds the sum of the paid income grouped under it, 0
    * when there is none. */
  lemma ChartEntryShowsSum(rows: seq<FinancialRow>, monthYear: string)
    ensures ChartEntry(Group(Entries(rows)), monthYear).value ==
      Seqs.Sum(Seqs.Filter(Entries(rows), NameIs(monthYear)), Value)
  {
    var grouped := Group(Entries(rows));
    GroupLabels(Entries(rows));
    match FindName(grouped, monthYear)
    case Some(j) =>
      GroupSums(Entries(rows), j);
    case None =>
      var entries := Entries(rows);
      assert !HasName(grouped, monthYear);
      assert forall i :: 0 <= i < |entries| ==> !NameIs(monthYear)(entries[i]);
      Seqs.FilterNone(entries, NameIs(monthYear));
  }

  /** Each place of the page's chart shows the sum of the paid income whose month label
    * is that place's label (0 when there is none); when a label repeats, both places show
    * the same month's sum. */
  lemma SeriesShowsMonthSums(today: Civil, rows: seq<FinancialRow>, k: int)
    requires ValidCivil(today) && 0 <= k < 6
    ensures var r := Series(today, Group(Entries(rows)));
      r[k].value == Seqs.Sum(Seqs.Filter(Entries(rows), NameIs(r[k].name)), Value)
  {
    ChartEntryShowsSum(rows, SetMonthLabelAsWritten(today, 5 - k));
  }

  /** The same for the intended chart. */
  lemma CorrectedSeriesShowsMonthSums(today: Civil, rows: seq<FinancialRow>, k: int)
    requires 1 <= today.month <= 12 && 0 <= k < 6
    ensures var r := CorrectedSeries(today, Group(Entries(rows)));
      r[k].value == Seqs.Sum(Seqs.Filter(Entries(rows), NameIs(r[k].name)), Value)
  {
    ChartEntryShowsSum(rows, MonthLabelBack(today, 5 - k));
  }

  // ----- The page ---------------------------------------------------------------

  datatype UpcomingAppointment = UpcomingAppointment(title: string, scheduledAt: Time,
                                                     status: string)

  class Page {
    var stats: Option<DashboardStats>
    var upcomingAppointments: seq<UpcomingAppointment>
    var revenueData: seq<MonthTotal>
    var loading: bool

    constructor ()
      ensures stats.None? && upcomingAppointments == [] && revenueData == [] && loading
    {
      stats := None;
      upcomingAppointments := [];
      revenueData := [];
      loading := true;
    }

    /** loadDashboardData. Without a company it returns before the `try`, so the spinner
      * stays; otherwise it stores the statistics, the upcoming appointments when the
      * query returned rows, and the six-month chart of the fetched paid income. */
    method LoadDashboardData(hasCompany: bool, answers: Answers,
                             appointments: Option<seq<UpcomingAppointment>>,
                             revenueRows: Option<seq<FinancialRow>>, now: Time)
      modifies this
      ensures !hasCompany ==>
        && stats == old(stats) && upcomingAppointments == old(upcomingAppointments)
        && revenueData == old(revenueData) && loading == old(loading)
      ensures hasCompany ==>
        && stats == Some(ComputeStats(answers, now))
        && upcomingAppointments ==
             (if appointments.Some? then appointments.value else old(upcomingAppointments))
        && revenueData ==
             Series(CivilFromDays(Day(now)), Group(Entries(revenueRows.GetOr([]))))
        && !loading
    {
      if !hasCompany {
        return;
      }
      stats := Some(ComputeStats(answers, now));
      if appointments.Some? {
        upcomingAppointments := appointments.value;
      }
      var processedRevenue := GroupRevenue(revenueRows.GetOr([]));
      revenueData := Last6Months(CivilFromDays(Day(now)), processedRevenue);
      loading := false;
    }
  }
}
