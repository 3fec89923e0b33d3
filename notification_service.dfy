// Periodic browser notifications (src/services/notificationService.ts): the
// cooldown of each check, the stock classification, the interval handle and the
// lazily created single instance. The three database queries' results, the
// permission and the clock are parameters; showing a notification is modelled by
// returning it. The three checks that checkAll runs concurrently are modelled one
// after the other, at the same instant.
module NotificationService {
  import opened Wrappers
  import Seqs

  const AppointmentCooldown := 30 * 60 * 1000
  const StockCooldown := 60 * 60 * 1000
  const ReceivablesCooldown := 4 * 60 * 60 * 1000

  datatype Notification = Notification(title: string, tag: string, count: nat)

  datatype Appointment = Appointment(id: string, customerName: Option<string>, scheduledAt: int)

  /** A product row; `minimumStock` is None for SQL null. */
  datatype Product = Product(id: string, name: string, stock: real, minimumStock: Option<real>)

  datatype Receivable = Receivable(id: string, amount: real, dueDate: string)

  /** The stock-notification candidates: a (nonzero) minimum and at most 120 % of it. */
  predicate IsStockCandidate(p: Product)
  {
    p.minimumStock.Some? && p.minimumStock.value != 0.0 && p.stock <= p.minimumStock.value * 1.2
  }

  predicate IsCriticalStock(p: Product)
  {
    p.minimumStock.Some? && p.stock < p.minimumStock.value
  }

  predicate IsLowStock(p: Product)
  {
    p.minimumStock.Some? && p.stock >= p.minimumStock.value && p.stock <= p.minimumStock.value * 1.2
  }

  function StockCandidates(products: seq<Product>): (r: seq<Product>)
    ensures Seqs.IsSubseq(r, products)
  {
    Seqs.FilterIsSubseq(products, IsStockCandidate);
    Seqs.Filter(products, IsStockCandidate)
  }

  /** Every candidate is critical or low and never both, so the two counts add up to the
    * number of candidates. */
  lemma StockClassesPartition(products: seq<Product>)
    ensures var c := StockCandidates(products);
      |Seqs.Filter(c, IsCriticalStock)| + |Seqs.Filter(c, IsLowStock)| == |c|
  {
    var c := StockCandidates(products);
    assert forall i :: 0 <= i < |c| ==> (IsLowStock(c[i]) <==> !IsCriticalStock(c[i]));
    Seqs.FilterExt(c, IsLowStock, NotCritical);
    Seqs.FilterPartition(c, IsCriticalStock, NotCritical);
  }

  predicate NotCritical(p: Product) { !IsCriticalStock(p) }

  /** A product at exactly its minimum is low, not critical; one at 120 % of it is still
    * low, and one above that is no candidate. */
  lemma StockBoundaries(id: string, name: string)
    ensures var p := Product(id, name, 10.0, Some(10.0)); IsStockCandidate(p) && IsLowStock(p) && !IsCriticalStock(p)
    ensures var p := Product(id, name, 12.0, Some(10.0)); IsStockCandidate(p) && IsLowStock(p)
    ensures !IsStockCandidate(Product(id, name, 12.5, Some(10.0)))
    ensures !IsStockCandidate(Product(id, name, 0.0, Some(0.0)))
  {
  }

  /** The notifications of one stock check over its candidates: a critical one and a low
    * one, each carrying its count and each only when that count is positive. */
  function StockNotifications(c: seq<Product>): (r: seq<Notification>)
    ensures |r| <= 2
    ensures forall n :: n in r ==> n.count > 0
    ensures forall n :: n in r ==> n.tag == "stock-critical" || n.tag == "stock-low"
  {
    var critical := Seqs.Filter(c, IsCriticalStock);
    var low := Seqs.Filter(c, IsLowStock);
    (if |critical| > 0 then [Notification("🚨 Estoque Crítico", "stock-critical", |critical|)] else [])
    + (if |low| > 0 then [Notification("⚠️ Estoque Baixo", "stock-low", |low|)] else [])
  }

  /** A stock check with candidates always shows something, and it shows the critical
    * notification exactly when some product is below its minimum. */
  lemma StockNotificationsShown(products: seq<Product>)
    ensures var c := StockCandidates(products);
      |c| > 0 ==> |StockNotifications(c)| >= 1
    ensures var r := StockNotifications(StockCandidates(products));
      (|r| > 0 && r[0].tag == "stock-critical") <==>
      (exists p :: p in products && IsStockCandidate(p) && IsCriticalStock(p))
  {
    var c := StockCandidates(products);
    StockClassesPartition(products);
    var critical := Seqs.Filter(c, IsCriticalStock);
    if exists p :: p in products && IsStockCandidate(p) && IsCriticalStock(p) {
      var p :| p in products && IsStockCandidate(p) && IsCriticalStock(p);
      Seqs.FilterMem(products, IsStockCandidate, p);
      Seqs.FilterMem(c, IsCriticalStock, p);
    }
    if |critical| > 0 {
      var p := critical[0];
      Seqs.FilterMem(c, IsCriticalStock, p);
      Seqs.FilterMem(products, IsStockCandidate, p);
    }
  }

  /** The notification of one upcoming appointment, tagged with its id. */
  function AppointmentNotification(a: Appointment): Notification
  {
    Notification("📅 Agendamento Próximo", "appointment-" + a.id, 0)
  }

  /** One notification per appointment, in the order of the query. */
  function AppointmentNotifications(appts: seq<Appointment>): (r: seq<Notification>)
    ensures |r| == |appts|
    ensures forall i :: 0 <= i < |r| ==> r[i].tag == "appointment-" + appts[i].id
  {
    if appts == [] then [] else [AppointmentNotification(appts[0])] + AppointmentNotifications(appts[1..])
  }

  lemma {:induction false} AppointmentNotificationsAppend(appts: seq<Appointment>, a: Appointment)
    ensures AppointmentNotifications(appts + [a]) == AppointmentNotifications(appts) + [AppointmentNotification(a)]
  {
    if appts != [] {
      assert (appts + [a])[1..] == appts[1..] + [a];
      AppointmentNotificationsAppend(appts[1..], a);
    }
  }

  /** The summary of the receivables due soon, carrying their number. */
  function ReceivablesNotification(n: nat): Notification
  {
    Notification("💰 Contas a Vencer", "receivables-due", n)
  }

  /** Whether checkAppointments notifies: some appointments and the last batch more than
    * 30 minutes ago. */
  predicate AppointmentsFire(last: int, now: int, result: Result<seq<Appointment>>)
  {
    result.Ok? && |result.value| > 0 && now - last > AppointmentCooldown
  }

  /** Whether checkStock notifies: some candidate and the last stock check more than an
    * hour ago. */
  predicate StockFires(last: int, now: int, result: Result<seq<Product>>)
  {
    result.Ok? && |StockCandidates(result.value)| > 0 && now - last > StockCooldown
  }

  /** Whether checkReceivables notifies: some receivable and the last summary more than
    * four hours ago. */
  predicate ReceivablesFire(last: int, now: int, result: Result<seq<Receivable>>)
  {
    result.Ok? && |result.value| > 0 && now - last > ReceivablesCooldown
  }

  class Service {
    var checkInterval: Option<nat>
    var lastAppointments: int
    var lastStock: int
    var lastReceivables: int

    constructor ()
      ensures checkInterval.None? && lastAppointments == 0 && lastStock == 0 && lastReceivables == 0
    {
      checkInterval := None;
      lastAppointments := 0;
      lastStock := 0;
      lastReceivables := 0;
    }

    /** startPeriodicChecks: keeps the handle of the new interval. */
    method StartPeriodicChecks(handle: nat)
      modifies this
      ensures checkInterval == Some(handle)
      ensures lastAppointments == old(lastAppointments) && lastStock == old(lastStock)
      ensures lastReceivables == old(lastReceivables)
    {
      checkInterval := Some(handle);
    }

    /** stopPeriodicChecks: clears a (truthy) handle and returns it for clearInterval. */
    method StopPeriodicChecks() returns (cleared: Option<nat>)
      modifies this
      ensures old(checkInterval).Some? && old(checkInterval).value != 0 ==>
        cleared == old(checkInterval) && checkInterval.None?
      ensures !(old(checkInterval).Some? && old(checkInterval).value != 0) ==>
        cleared.None? && checkInterval == old(checkInterval)
      ensures lastAppointments == old(lastAppointments) && lastStock == old(lastStock)
      ensures lastReceivables == old(lastReceivables)
    {
      if checkInterval.Some? && checkInterval.value != 0 {
        cleared := checkInterval;
        checkInterval := None;
      } else {
        cleared := None;
      }
    }

    /** checkAppointments, given the query result: one notification per appointment when
      * there are some and the last batch is more than 30 minutes old. */
    method CheckAppointments(now: int, result: Result<seq<Appointment>>) returns (shown: seq<Notification>)
      modifies this
      ensures AppointmentsFire(old(lastAppointments), now, result) ==>
        lastAppointments == now && shown == AppointmentNotifications(result.value)
      ensures !AppointmentsFire(old(lastAppointments), now, result) ==>
        lastAppointments == old(lastAppointments) && shown == []
      ensures checkInterval == old(checkInterval) && lastStock == old(lastStock)
      ensures lastReceivables == old(lastReceivables)
    {
      shown := [];
      if result.Err? || |result.value| == 0 {
        return;
      }
      if now - lastAppointments > AppointmentCooldown {
        lastAppointments := now;
        var appointments := result.value;
        var i := 0;
        while i < |appointments|
          invariant 0 <= i <= |appointments|
          invariant shown == AppointmentNotifications(appointments[..i])
          invariant lastAppointments == now && lastStock == old(lastStock)
          invariant lastReceivables == old(lastReceivables) && checkInterval == old(checkInterval)
        {
          AppointmentNotificationsAppend(appointments[..i], appointments[i]);
          assert appointments[..i + 1] == appointments[..i] + [appointments[i]];
          shown := shown + [AppointmentNotification(appointments[i])];
          i := i + 1;
        }
        assert appointments[..i] == appointments;
      }
    }

    /** checkStock, given the query result: a critical and a low notification, each only
      * when it has products, at most once an hour, and never when no product is a
      * candidate. */
    method CheckStock(now: int, result: Result<seq<Product>>) returns (shown: seq<Notification>)
      modifies this
      ensures StockFires(old(lastStock), now, result) ==>
        lastStock == now && shown == StockNotifications(StockCandidates(result.value))
      ensures !StockFires(old(lastStock), now, result) ==> lastStock == old(lastStock) && shown == []
      ensures checkInterval == old(checkInterval) && lastAppointments == old(lastAppointments)
      ensures lastReceivables == old(lastReceivables)
    {
      shown := [];
      if result.Err? || |result.value| == 0 {
        return;
      }
      var lowStockProducts := StockCandidates(result.value);
      if |lowStockProducts| == 0 {
        return;
      }
      if now - lastStock > StockCooldown {
        lastStock := now;
        var critical := Seqs.Filter(lowStockProducts, IsCriticalStock);
        var low := Seqs.Filter(lowStockProducts, IsLowStock);
        if |critical| > 0 {
          shown := shown + [Notification("🚨 Estoque Crítico", "stock-critical", |critical|)];
        }
        if |low| > 0 {
          shown := shown + [Notification("⚠️ Estoque Baixo", "stock-low", |low|)];
        }
      }
    }

    /** checkReceivables, given the pending income due within three days: one summary at
      * most every four hours. */
    method CheckReceivables(now: int, result: Result<seq<Receivable>>) returns (shown: seq<Notification>)
      modifies this
      ensures ReceivablesFire(old(lastReceivables), now, result) ==>
        lastReceivables == now && shown == [ReceivablesNotification(|result.value|)]
      ensures !ReceivablesFire(old(lastReceivables), now, result) ==>
        lastReceivables == old(lastReceivables) && shown == []
      ensures checkInterval == old(checkInterval) && lastAppointments == old(lastAppointments)
      ensures lastStock == old(lastStock)
    {
      shown := [];
      if result.Ok? && |result.value| > 0 && now - lastReceivables > ReceivablesCooldown {
        lastReceivables := now;
        shown := [ReceivablesNotification(|result.value|)];
      }
    }

    /** checkAll: nothing at all unless the permission is 'granted'; otherwise the three
      * checks, each with its own cooldown. */
    method CheckAll(permission: string, now: int, appointments: Result<seq<Appointment>>,
                    products: Result<seq<Product>>, receivables: Result<seq<Receivable>>)
      returns (shown: seq<Notification>)
      modifies this
      ensures permission != "granted" ==>
        shown == [] && lastAppointments == old(lastAppointments) && lastStock == old(lastStock)
        && lastReceivables == old(lastReceivables)
      ensures permission == "granted" ==>
        var fa := AppointmentsFire(old(lastAppointments), now, appointments);
        var fs := StockFires(old(lastStock), now, products);
        var fr := ReceivablesFire(old(lastReceivables), now, receivables);
        && shown == (if fa then AppointmentNotifications(appointments.value) else [])
                    + (if fs then StockNotifications(StockCandidates(products.value)) else [])
                    + (if fr then [ReceivablesNotification(|receivables.value|)] else [])
        && lastAppointments == (if fa then now else old(lastAppointments))
        && lastStock == (if fs then now else old(lastStock))
        && lastReceivables == (if fr then now else old(lastReceivables))
      ensures checkInterval == old(checkInterval)
    {
      if permission != "granted" {
        return [];
      }
      var a := CheckAppointments(now, appointments);
      var s := CheckStock(now, products);
      var r := CheckReceivables(now, receivables);
      shown := a + s + r;
    }
  }

  /** A check that has just fired stays silent for the whole of its cooldown, whatever
    * the query finds, and fires again afterwards as soon as there is something to report. */
  lemma CooldownSilences(last: int, now: int, appointments: Result<seq<Appointment>>,
                         products: Result<seq<Product>>, receivables: Result<seq<Receivable>>)
    requires last <= now
    ensures now <= last + AppointmentCooldown ==> !AppointmentsFire(last, now, appointments)
    ensures now <= last + StockCooldown ==> !StockFires(last, now, products)
    ensures now <= last + ReceivablesCooldown ==> !ReceivablesFire(last, now, receivables)
    ensures now > last + ReceivablesCooldown ==>
      (AppointmentsFire(last, now, appointments) <==> appointments.Ok? && |appointments.value| > 0)
      && (StockFires(last, now, products) <==> products.Ok? && |StockCandidates(products.value)| > 0)
      && (ReceivablesFire(last, now, receivables) <==> receivables.Ok? && |receivables.value| > 0)
  {
  }

  /** The module-level `NotificationService.instance`. */
  class Registry {
    var instance: Service?

    constructor ()
      ensures instance == null
    {
      instance := null;
    }

    /** getInstance: creates the service on first use and returns the same one afterwards. */
    method GetInstance() returns (s: Service)
      modifies this
      ensures instance == s
      ensures old(instance) != null ==> s == old(instance)
      ensures old(instance) == null ==> fresh(s)
    {
      if instance == null {
        instance := new Service();
      }
      s := instance;
    }
  }
}
