// Saving from the work-order modal (src/components/operations/WorkOrderModal.tsx):
// the checks before saving, the appointment created on the fly in "create" mode,
// the order saved first with a provisional status, its items, the follow-up move to
// 'completed', and the income transaction. The modal writes to the database itself
// rather than through the work-order service. The list of writes holds the calls that
// took effect: a call answered with an error adds no entry. Transaction writes, whose
// errors are only logged, always take effect here. What the database answers is a
// parameter.
module WorkOrderModal {
  import opened Wrappers
  import Seqs
  import Calculations
  import ServiceSelector
  import WorkOrderService

  /** Link an existing appointment, or create one with the order. */
  datatype CreationMode = LinkMode | CreateMode

  /** The fields of WorkOrderFormData that saving reads. */
  datatype FormData = FormData(
    appointmentId: string, customerId: string, vehicleId: string, status: string,
    entryDate: string, expectedCompletionDate: string, discount: real,
    discountType: string, paymentMethod: string, paymentStatus: string)

  datatype Customer = Customer(id: string, name: string)
  datatype Vehicle = Vehicle(id: string, model: string)

  /** The order the modal was opened on, when editing. */
  datatype EditedOrder = EditedOrder(id: string, orderNumber: string)

  /** Everything handleSubmit reads from the component. */
  datatype State = State(
    form: FormData, mode: CreationMode, services: seq<ServiceSelector.ServiceItem>,
    products: seq<WorkOrderService.ProductInput>, editing: Option<EditedOrder>,
    customers: seq<Customer>, vehicles: seq<Vehicle>)

  /** Why handleSubmit stopped before saving anything. */
  datatype Rejection = NoCompany | NoAppointmentLinked | NoCustomerOrVehicle | NoItems

  datatype SubmitOutcome = Rejected(reason: Rejection) | Saved | SaveFailed(message: string)

  /** The appointment created in "create" mode. */
  datatype AppointmentData = AppointmentData(
    companyId: string, customerId: string, vehicleId: string, title: string,
    scheduledAt: string, status: string, durationMinutes: int)

  /** An `appointment_services` row. */
  datatype AppointmentServiceRow = AppointmentServiceRow(
    appointmentId: string, serviceId: string, price: real, durationMinutes: int)

  /** The order columns the modal writes. */
  datatype OrderData = OrderData(
    companyId: string, appointmentId: string, customerId: string, vehicleId: string,
    orderNumber: string, status: string, entryDate: string,
    expectedCompletionDate: Option<string>, subtotal: real, discount: real,
    discountType: string, total: real, paymentMethod: string, paymentStatus: string)

  /** One database call. */
  datatype Write =
    | InsertAppointment(appointment: AppointmentData)
    | InsertAppointmentServices(appointmentServices: seq<AppointmentServiceRow>)
    | UpdateOrder(orderId: string, data: OrderData)
    | InsertOrder(data: OrderData)
    | ClearServices(clearedOrder: string)
    | ClearProducts(clearedOrder: string)
    | InsertServices(serviceRows: seq<WorkOrderService.ServiceRow>)
    | InsertProducts(productRows: seq<WorkOrderService.ProductRow>)
    | CompleteOrder(completedOrder: string)
    | UpdateTransaction(transactionId: string, record: WorkOrderService.Transaction)
    | InsertTransaction(record: WorkOrderService.Transaction)
  {
    predicate SavesOrder() { UpdateOrder? || InsertOrder? }
    predicate IsTransactionWrite() { UpdateTransaction? || InsertTransaction? }
  }

  /** What the database answers: each error of a call that is checked, the ids the
    * inserts return, and the transaction already linked to the order, if any. */
  datatype Responses = Responses(
    appointmentError: Option<string>, newAppointmentId: string,
    appointmentServicesError: Option<string>, orderError: Option<string>,
    insertedOrderId: string, servicesError: Option<string>, productsError: Option<string>,
    completeError: Option<string>, existingTransaction: Option<string>)

  /** The checks at the top of handleSubmit, in source order. */
  function Validate(hasCompany: bool, s: State): (r: Option<Rejection>)
    ensures r.None? <==>
      && hasCompany
      && (s.mode == LinkMode ==> s.form.appointmentId != "")
      && (s.mode == CreateMode ==> s.form.customerId != "" && s.form.vehicleId != "")
      && (|s.services| > 0 || |s.products| > 0)
    ensures hasCompany && s.mode == LinkMode && s.form.appointmentId == "" ==>
      r == Some(NoAppointmentLinked)
    ensures hasCompany && s.mode == CreateMode && (s.form.customerId == "" || s.form.vehicleId == "") ==>
      r == Some(NoCustomerOrVehicle)
    ensures r == Some(NoItems) ==> |s.services| == 0 && |s.products| == 0
  {
    if !hasCompany then Some(NoCompany)
    else if s.mode == LinkMode && s.form.appointmentId == "" then Some(NoAppointmentLinked)
    else if s.mode == CreateMode && (s.form.customerId == "" || s.form.vehicleId == "") then
      Some(NoCustomerOrVehicle)
    else if |s.services| == 0 && |s.products| == 0 then Some(NoItems)
    else None
  }

  /** `customers.find(c => c.id === id)?.name`: the name of the first match. */
  function CustomerName(customers: seq<Customer>, id: string): (r: Option<string>)
    ensures r.Some? <==> exists i :: 0 <= i < |customers| && customers[i].id == id
    ensures r.Some? ==> exists i :: 0 <= i < |customers| && customers[i].id == id
                                  && customers[i].name == r.value
                                  && forall j :: 0 <= j < i ==> customers[j].id != id
  {
    if customers == [] then None
    else if customers[0].id == id then Some(customers[0].name)
    else
      var r := CustomerName(customers[1..], id);
      if r.Some? then
        var i :| 0 <= i < |customers[1..]| && customers[1..][i].id == id && customers[1..][i].name == r.value
                 && forall j :: 0 <= j < i ==> customers[1..][j].id != id;
        assert forall j :: 0 <= j < i + 1 ==> customers[j].id != id by {
          forall j | 0 <= j < i + 1 ensures customers[j].id != id {
            if j > 0 { assert customers[j] == customers[1..][j - 1]; }
          }
        }
        assert customers[i + 1] == customers[1..][i];
        r
      else
        r
  }

  /** `vehicles.find(v => v.id === id)?.model`: the model of the first match. */
  function VehicleModel(vehicles: seq<Vehicle>, id: string): (r: Option<string>)
    ensures r.Some? <==> exists i :: 0 <= i < |vehicles| && vehicles[i].id == id
    ensures r.Some? ==> exists i :: 0 <= i < |vehicles| && vehicles[i].id == id
                                  && vehicles[i].model == r.value
                                  && forall j :: 0 <= j < i ==> vehicles[j].id != id
  {
    if vehicles == [] then None
    else if vehicles[0].id == id then Some(vehicles[0].model)
    else
      var r := VehicleModel(vehicles[1..], id);
      if r.Some? then
        var i :| 0 <= i < |vehicles[1..]| && vehicles[1..][i].id == id && vehicles[1..][i].model == r.value
                 && forall j :: 0 <= j < i ==> vehicles[1..][j].id != id;
        assert forall j :: 0 <= j < i + 1 ==> vehicles[j].id != id by {
          forall j | 0 <= j < i + 1 ensures vehicles[j].id != id {
            if j > 0 { assert vehicles[j] == vehicles[1..][j - 1]; }
          }
        }
        assert vehicles[i + 1] == vehicles[1..][i];
        r
      else
        r
  }

  /** A template literal prints a missing value as "undefined". */
  function Shown(v: Option<string>): string { v.GetOr("undefined") }

  /** The appointment created in "create" mode: in progress, one hour. */
  function AppointmentFor(s: State, companyId: string): AppointmentData
  {
    AppointmentData(companyId, s.form.customerId, s.form.vehicleId,
                    "O.S. - " + Shown(CustomerName(s.customers, s.form.customerId)) + " - "
                      + Shown(VehicleModel(s.vehicles, s.form.vehicleId)),
                    s.form.entryDate, "in_progress", 60)
  }

  function AppointmentServiceRows(appointmentId: string, services: seq<ServiceSelector.ServiceItem>)
    : (rows: seq<AppointmentServiceRow>)
    ensures |rows| == |services|
    ensures forall i :: 0 <= i < |rows| ==>
      rows[i].serviceId == services[i].serviceId && rows[i].price == services[i].price
  {
    seq(|services|, i requires 0 <= i < |services| =>
      AppointmentServiceRow(appointmentId, services[i].serviceId, services[i].price, 60))
  }

  /** A selected service as a line of the order. */
  function ServiceInput(item: ServiceSelector.ServiceItem): WorkOrderService.ServiceInput
  {
    WorkOrderService.ServiceInput(item.serviceId, item.serviceName, item.quantity as real,
                                  item.price, item.notes)
  }

  function ServiceInputs(services: seq<ServiceSelector.ServiceItem>)
    : (r: seq<WorkOrderService.ServiceInput>)
    ensures |r| == |services| && forall i :: 0 <= i < |r| ==> r[i] == ServiceInput(services[i])
  {
    seq(|services|, i requires 0 <= i < |services| => ServiceInput(services[i]))
  }

  /** The selected services as the calculations see them. */
  function ServiceItems(services: seq<ServiceSelector.ServiceItem>): (r: seq<Calculations.Item>)
    ensures |r| == |services|
    ensures forall i :: 0 <= i < |r| ==>
      r[i].price == services[i].price && r[i].quantity == services[i].quantity as real
  {
    seq(|services|, i requires 0 <= i < |services| =>
      Calculations.Item(services[i].price, services[i].quantity as real))
  }

  /** The totals the modal saves: services only, products left out. */
  function Totals(s: State): Calculations.Totals
  {
    Calculations.WorkOrderTotal(ServiceItems(s.services), [], s.form.discount,
                                s.form.discountType == "percentage")
  }

  /** Product lines as the calculations would see them at the price they are inserted with. */
  function ZeroPricedItems(products: seq<WorkOrderService.ProductInput>): (r: seq<Calculations.Item>)
    ensures |r| == |products| && forall i :: 0 <= i < |r| ==> r[i].price == 0.0
  {
    seq(|products|, i requires 0 <= i < |products| => Calculations.Item(0.0, products[i].quantity))
  }

  lemma {:induction false} ZeroPricedSumIsZero(items: seq<Calculations.Item>)
    requires forall i :: 0 <= i < |items| ==> items[i].price == 0.0
    ensures Calculations.ItemsSubtotal(items) == 0.0
  {
    if items != [] {
      ZeroPricedSumIsZero(items[1..]);
    }
  }

  /** Leaving the products out of the totals is the same as counting them at the zero
    * price they are inserted with. */
  lemma ProductsDoNotChangeTotals(s: State)
    ensures Calculations.WorkOrderTotal(ServiceItems(s.services), ZeroPricedItems(s.products),
              s.form.discount, s.form.discountType == "percentage") == Totals(s)
  {
    ZeroPricedSumIsZero(ZeroPricedItems(s.products));
  }

  /** The saved services add up to the subtotal the modal saves. */
  lemma SavedServicesAddUpToSubtotal(s: State, orderId: string, companyId: string)
    ensures Seqs.Sum(WorkOrderService.ServiceRows(orderId, companyId, ServiceInputs(s.services)),
                     WorkOrderService.ServiceRowTotal) == Totals(s).subtotal
  {
    var inputs := ServiceInputs(s.services);
    WorkOrderService.ServiceRowsAddUp(orderId, companyId, inputs);
    var items := seq(|inputs|, i requires 0 <= i < |inputs| => WorkOrderService.AsItem(inputs[i]));
    assert items == ServiceItems(s.services);
    Calculations.ItemsSubtotalEmpty();
  }

  /** The status the order is first saved with: a completed order is saved in progress,
    * so that its items exist before the completion trigger runs. */
  function TempStatus(target: string): (r: string)
    ensures r != "completed"
    ensures target != "completed" ==> r == target
    ensures target == "completed" ==> r == "in_progress"
  {
    if target == "completed" then "in_progress" else target
  }

  /** `workOrder?.order_number || <last six digits of the clock>` */
  function OrderNumberFor(editing: Option<EditedOrder>, now: nat): string
  {
    if editing.Some? && editing.value.orderNumber != "" then editing.value.orderNumber
    else WorkOrderService.OrderNumber(now)
  }

  /** workOrderData */
  function OrderDataFor(s: State, companyId: string, appointmentId: string, now: nat): (d: OrderData)
    ensures d.status == TempStatus(s.form.status)
    ensures d.total == Totals(s).total && d.subtotal == Totals(s).subtotal
    ensures d.appointmentId == appointmentId
  {
    var totals := Totals(s);
    OrderData(companyId, appointmentId, s.form.customerId, s.form.vehicleId,
              OrderNumberFor(s.editing, now), TempStatus(s.form.status), s.form.entryDate,
              if s.form.expectedCompletionDate != "" then Some(s.form.expectedCompletionDate) else None,
              totals.subtotal, s.form.discount, s.form.discountType, totals.total,
              s.form.paymentMethod, s.form.paymentStatus)
  }

  /** transactionData: paid exactly when the form's payment status is 'paid'. */
  function TransactionFor(s: State, companyId: string, orderId: string, orderNumber: string,
                          now: int): (t: WorkOrderService.Transaction)
    ensures t.status == "paid" <==> s.form.paymentStatus == "paid"
    ensures t.status != "paid" ==> t.status == "pending"
    ensures t.paidAt.Some? <==> t.status == "paid"
    ensures t.amount == Totals(s).total
    ensures t.workOrderId == orderId && t.customerId == s.form.customerId
  {
    var paid := s.form.paymentStatus == "paid";
    WorkOrderService.Transaction(
      companyId, "income", "Serviço",
      "O.S. #" + orderNumber + " - " + Shown(CustomerName(s.customers, s.form.customerId)),
      Totals(s).total, if paid then "paid" else "pending",
      if s.form.expectedCompletionDate != "" then s.form.expectedCompletionDate else s.form.entryDate,
      if paid then Some(now) else None, orderId, s.form.customerId)
  }

  /** `error.message || 'Erro ao criar ordem de serviço'` */
  function FailureMessage(message: string): string
  {
    if message != "" then message else "Erro ao criar ordem de serviço"
  }

  /** The writes and outcome of handleSubmit. */
  datatype Submission = Submission(writes: seq<Write>, outcome: SubmitOutcome)

  /** Step 0: the appointment the order links to, created first in "create" mode. */
  function AppointmentStep(s: State, companyId: string, db: Responses)
    : (r: (seq<Write>, Result<string>))
    ensures s.mode == LinkMode ==> r == ([], Ok(s.form.appointmentId))
    ensures forall w :: w in r.0 ==> w.InsertAppointment? || w.InsertAppointmentServices?
  {
    if s.mode == LinkMode then ([], Ok(s.form.appointmentId))
    else if db.appointmentError.Some? then ([], Err(db.appointmentError.value))
    else
      var inserted := [InsertAppointment(AppointmentFor(s, companyId))];
      if |s.services| == 0 then (inserted, Ok(db.newAppointmentId))
      else if db.appointmentServicesError.Some? then (inserted, Err(db.appointmentServicesError.value))
      else (inserted + [InsertAppointmentServices(AppointmentServiceRows(db.newAppointmentId, s.services))],
            Ok(db.newAppointmentId))
  }

  /** Step 1, after `prefix`: the order saved with its provisional status; an edited
    * order's items are cleared. The result is the saved order's id. */
  function OrderStep(prefix: seq<Write>, s: State, data: OrderData, db: Responses)
    : (r: (seq<Write>, Result<string>))
    ensures db.orderError.None? ==> r.1 == Ok(if s.editing.Some? then s.editing.value.id else db.insertedOrderId)
    ensures db.orderError.Some? ==> r == (prefix, Err(db.orderError.value))
    ensures forall w :: w in r.0 ==>
      w in prefix || (w.SavesOrder() && w.data == data) || w.ClearServices? || w.ClearProducts?
    ensures db.orderError.None? ==> exists w :: w in r.0 && w.SavesOrder() && w.data == data
  {
    if db.orderError.Some? then (prefix, Err(db.orderError.value))
    else if s.editing.Some? then
      var id := s.editing.value.id;
      var r := prefix + [UpdateOrder(id, data), ClearServices(id), ClearProducts(id)];
      assert r[|prefix|] == UpdateOrder(id, data);
      (r, Ok(id))
    else
      var r := prefix + [InsertOrder(data)];
      assert r[|prefix|] == InsertOrder(data);
      (r, Ok(db.insertedOrderId))
  }

  /** Step 2, after `prefix`: the services with their prices, the products at price zero. */
  function ItemsStep(prefix: seq<Write>, s: State, orderId: string, companyId: string, db: Responses)
    : (r: (seq<Write>, Option<string>))
    ensures forall w :: w in r.0 ==> w in prefix || w.InsertServices? || w.InsertProducts?
    ensures r.1.None? <==>
      (|s.services| > 0 ==> db.servicesError.None?) && (|s.products| > 0 ==> db.productsError.None?)
  {
    if |s.services| > 0 && db.servicesError.Some? then (prefix, db.servicesError)
    else
      var first := if |s.services| > 0
        then prefix + [InsertServices(WorkOrderService.ServiceRows(orderId, companyId, ServiceInputs(s.services)))]
        else prefix;
      if |s.products| > 0 && db.productsError.Some? then (first, db.productsError)
      else if |s.products| > 0 then
        (first + [InsertProducts(WorkOrderService.ProductRows(orderId, companyId, s.products))], None)
      else (first, None)
  }

  /** Step 3, after `prefix`: the follow-up move to 'completed' when that is the target
    * and the saved row is not completed yet. */
  function CompletionStep(prefix: seq<Write>, target: string, savedStatus: string, orderId: string,
                          db: Responses)
    : (r: (seq<Write>, Option<string>))
    ensures target == "completed" && savedStatus != "completed" && db.completeError.None? ==>
      r == (prefix + [CompleteOrder(orderId)], None)
    ensures target == "completed" && savedStatus != "completed" && db.completeError.Some? ==>
      r == (prefix, db.completeError)
    ensures !(target == "completed" && savedStatus != "completed") ==> r == (prefix, None)
  {
    if !(target == "completed" && savedStatus != "completed") then (prefix, None)
    else if db.completeError.Some? then (prefix, db.completeError)
    else (prefix + [CompleteOrder(orderId)], None)
  }

  /** Step 4, after `prefix`: update the linked transaction if there is one (even for a
    * draft), otherwise create one unless the target is a draft. Errors here are only
    * logged. */
  function TransactionStep(prefix: seq<Write>, target: string, record: WorkOrderService.Transaction,
                           db: Responses)
    : (r: seq<Write>)
    ensures db.existingTransaction.Some? ==> r == prefix + [UpdateTransaction(db.existingTransaction.value, record)]
    ensures db.existingTransaction.None? && target != "draft" ==> r == prefix + [InsertTransaction(record)]
    ensures db.existingTransaction.None? && target == "draft" ==> r == prefix
  {
    if db.existingTransaction.Some? then prefix + [UpdateTransaction(db.existingTransaction.value, record)]
    else if target != "draft" then prefix + [InsertTransaction(record)]
    else prefix
  }

  /** The writes of a submission that passed the checks, from the appointment step on. */
  function SaveSequence(s: State, companyId: string, db: Responses, now: nat): Submission
  {
    var appointment := AppointmentStep(s, companyId, db);
    if appointment.1.Err? then Submission(appointment.0, SaveFailed(FailureMessage(appointment.1.error)))
    else
      var data := OrderDataFor(s, companyId, appointment.1.value, now);
      var order := OrderStep(appointment.0, s, data, db);
      if order.1.Err? then Submission(order.0, SaveFailed(FailureMessage(order.1.error)))
      else SaveItemsAndSettle(s, companyId, db, now, data, order.1.value, order.0)
  }

  /** The rest of a submission once the order `orderId` is saved with `data`. */
  function SaveItemsAndSettle(s: State, companyId: string, db: Responses, now: nat,
                              data: OrderData, orderId: string, prefix: seq<Write>): Submission
  {
    var items := ItemsStep(prefix, s, orderId, companyId, db);
    if items.1.Some? then Submission(items.0, SaveFailed(FailureMessage(items.1.value)))
    else
      var completion := CompletionStep(items.0, s.form.status, data.status, orderId, db);
      if completion.1.Some? then Submission(completion.0, SaveFailed(FailureMessage(completion.1.value)))
      else
        Submission(TransactionStep(completion.0, s.form.status,
                                   TransactionFor(s, companyId, orderId, data.orderNumber, now), db),
                   Saved)
  }

  /** handleSubmit, from the state it reads to the writes it makes and how it ends. */
  function Submit(s: State, hasCompany: bool, companyId: string, db: Responses, now: nat)
    : Submission
  {
    var rejection := Validate(hasCompany, s);
    if rejection.Some? then Submission([], Rejected(rejection.value))
    else SaveSequence(s, companyId, db, now)
  }

  /** A rejected submission writes nothing, and only a rejected one is reported so. */
  lemma RejectedWritesNothing(s: State, hasCompany: bool, companyId: string, db: Responses, now: nat)
    ensures Validate(hasCompany, s).Some? <==> Submit(s, hasCompany, companyId, db, now).outcome.Rejected?
    ensures Validate(hasCompany, s).Some? ==> Submit(s, hasCompany, companyId, db, now).writes == []
  {
  }

  /** Every answer went through: the submission saved; one error, and it failed. */
  lemma SavedIffEveryCallSucceeds(s: State, hasCompany: bool, companyId: string, db: Responses, now: nat)
    requires Validate(hasCompany, s).None?
    ensures Submit(s, hasCompany, companyId, db, now).outcome == Saved <==>
      && (s.mode == CreateMode ==>
            && db.appointmentError.None?
            && (|s.services| > 0 ==> db.appointmentServicesError.None?))
      && db.orderError.None?
      && (|s.services| > 0 ==> db.servicesError.None?)
      && (|s.products| > 0 ==> db.productsError.None?)
      && (s.form.status == "completed" ==> db.completeError.None?)
  {
  }

  /** After the order is saved, the other steps add no order save. */
  lemma SettleSavesNoOrder(s: State, companyId: string, db: Responses, now: nat,
                           data: OrderData, orderId: string, prefix: seq<Write>)
    ensures var r := SaveItemsAndSettle(s, companyId, db, now, data, orderId, prefix);
      forall w :: w in r.writes && w.SavesOrder() ==> w in prefix
  {
  }

  /** The order is never saved as completed: a completed target is saved in progress and
    * every other target as it is, with the services-only total. */
  lemma SavedWithTempStatus(s: State, hasCompany: bool, companyId: string, db: Responses, now: nat)
    ensures forall w :: w in Submit(s, hasCompany, companyId, db, now).writes && w.SavesOrder() ==>
      w.data.status == TempStatus(s.form.status) && w.data.total == Totals(s).total
  {
    if Validate(hasCompany, s).None? {
      var appointment := AppointmentStep(s, companyId, db);
      if appointment.1.Ok? {
        var data := OrderDataFor(s, companyId, appointment.1.value, now);
        var order := OrderStep(appointment.0, s, data, db);
        if order.1.Ok? {
          SettleSavesNoOrder(s, companyId, db, now, data, order.1.value, order.0);
        }
      }
    }
  }

  /** What a saved submission ends with, after the order and its items. */
  lemma SavedTail(s: State, companyId: string, db: Responses, now: nat,
                  data: OrderData, orderId: string, prefix: seq<Write>)
    requires SaveItemsAndSettle(s, companyId, db, now, data, orderId, prefix).outcome == Saved
    requires forall w :: w in prefix ==> !w.CompleteOrder? && !w.IsTransactionWrite()
    requires data.status == TempStatus(s.form.status)
    ensures var r := SaveItemsAndSettle(s, companyId, db, now, data, orderId, prefix);
      (exists w :: w in r.writes && w.CompleteOrder?) <==> s.form.status == "completed"
    ensures var r := SaveItemsAndSettle(s, companyId, db, now, data, orderId, prefix);
      (exists w :: w in r.writes && w.IsTransactionWrite())
        <==> db.existingTransaction.Some? || s.form.status != "draft"
    ensures var r := SaveItemsAndSettle(s, companyId, db, now, data, orderId, prefix);
      forall w :: w in r.writes && w.IsTransactionWrite() ==>
        && w.record == TransactionFor(s, companyId, orderId, data.orderNumber, now)
        && (w.UpdateTransaction? <==> db.existingTransaction.Some?)
  {
    var items := ItemsStep(prefix, s, orderId, companyId, db);
    var completion := CompletionStep(items.0, s.form.status, data.status, orderId, db);
    var record := TransactionFor(s, companyId, orderId, data.orderNumber, now);
    var r := TransactionStep(completion.0, s.form.status, record, db);
    assert forall w :: w in items.0 ==> !w.CompleteOrder? && !w.IsTransactionWrite();
    if s.form.status == "completed" {
      assert CompleteOrder(orderId) in completion.0;
    }
    assert forall w :: w in completion.0 ==> !w.IsTransactionWrite();
    if db.existingTransaction.Some? || s.form.status != "draft" {
      assert r[|completion.0|] in r;
    }
  }

  /** A submission that saved passed the checks, created its appointment and saved its
    * order; the rest of it is SaveItemsAndSettle after writes that neither complete an
    * order nor touch a transaction. */
  lemma SavedReachesSettle(s: State, hasCompany: bool, companyId: string, db: Responses, now: nat)
    requires Submit(s, hasCompany, companyId, db, now).outcome == Saved
    ensures Validate(hasCompany, s).None? && AppointmentStep(s, companyId, db).1.Ok?
    ensures var appointment := AppointmentStep(s, companyId, db);
      var data := OrderDataFor(s, companyId, appointment.1.value, now);
      var order := OrderStep(appointment.0, s, data, db);
      && order.1.Ok?
      && Submit(s, hasCompany, companyId, db, now)
         == SaveItemsAndSettle(s, companyId, db, now, data, order.1.value, order.0)
      && forall w :: w in order.0 ==> !w.CompleteOrder? && !w.IsTransactionWrite()
  {
    assert Validate(hasCompany, s).None?;
    assert Submit(s, hasCompany, companyId, db, now) == SaveSequence(s, companyId, db, now);
    SequenceReachesSettle(s, companyId, db, now);
  }

  lemma SequenceReachesSettle(s: State, companyId: string, db: Responses, now: nat)
    requires SaveSequence(s, companyId, db, now).outcome == Saved
    ensures AppointmentStep(s, companyId, db).1.Ok?
    ensures var appointment := AppointmentStep(s, companyId, db);
      var data := OrderDataFor(s, companyId, appointment.1.value, now);
      var order := OrderStep(appointment.0, s, data, db);
      && order.1.Ok?
      && SaveSequence(s, companyId, db, now)
         == SaveItemsAndSettle(s, companyId, db, now, data, order.1.value, order.0)
      && forall w :: w in order.0 ==> !w.CompleteOrder? && !w.IsTransactionWrite()
  {
    var appointment := AppointmentStep(s, companyId, db);
    assert appointment.1.Ok?;
    var data := OrderDataFor(s, companyId, appointment.1.value, now);
    var order := OrderStep(appointment.0, s, data, db);
    assert order.1.Ok?;
    OrderStepPrefixClean(appointment.0, s, data, db);
  }

  /** The appointment and order steps neither complete an order nor touch a transaction. */
  lemma OrderStepPrefixClean(prefix: seq<Write>, s: State, data: OrderData, db: Responses)
    requires forall w :: w in prefix ==> w.InsertAppointment? || w.InsertAppointmentServices?
    ensures forall w :: w in OrderStep(prefix, s, data, db).0 ==>
      !w.CompleteOrder? && !w.IsTransactionWrite()
  {
  }

  /** A submission that saved moved the order to 'completed' exactly when that was the
    * target: the provisional status is never 'completed'. */
  lemma CompletesIffTargetCompleted(s: State, hasCompany: bool, companyId: string, db: Responses, now: nat)
    requires Submit(s, hasCompany, companyId, db, now).outcome == Saved
    ensures (exists w :: w in Submit(s, hasCompany, companyId, db, now).writes && w.CompleteOrder?)
        <==> s.form.status == "completed"
  {
    SavedReachesSettle(s, hasCompany, companyId, db, now);
    var appointment := AppointmentStep(s, companyId, db);
    var data := OrderDataFor(s, companyId, appointment.1.value, now);
    var order := OrderStep(appointment.0, s, data, db);
    SavedTail(s, companyId, db, now, data, order.1.value, order.0);
  }

  /** A submission that saved wrote a transaction exactly when one was linked already or
    * the target is not a draft; its record is paid exactly when the payment status is
    * 'paid', holds the services-only total, and updates the linked one when there is one. */
  lemma TransactionRules(s: State, hasCompany: bool, companyId: string, db: Responses, now: nat)
    requires Submit(s, hasCompany, companyId, db, now).outcome == Saved
    ensures (exists w :: w in Submit(s, hasCompany, companyId, db, now).writes && w.IsTransactionWrite())
        <==> db.existingTransaction.Some? || s.form.status != "draft"
    ensures forall w :: w in Submit(s, hasCompany, companyId, db, now).writes && w.IsTransactionWrite() ==>
      && (w.record.status == "paid" <==> s.form.paymentStatus == "paid")
      && w.record.amount == Totals(s).total
      && (w.UpdateTransaction? <==> db.existingTransaction.Some?)
  {
    SavedReachesSettle(s, hasCompany, companyId, db, now);
    var appointment := AppointmentStep(s, companyId, db);
    var data := OrderDataFor(s, companyId, appointment.1.value, now);
    var order := OrderStep(appointment.0, s, data, db);
    SavedTail(s, companyId, db, now, data, order.1.value, order.0);
  }

  /** The save sequence of handleSubmit once the checks passed, with
    * `finalAppointmentId`, `newWorkOrder` and `transactionStatus` reassigned as it goes. */
  method Save(s: State, companyId: string, db: Responses, now: nat)
    returns (writes: seq<Write>, outcome: SubmitOutcome)
    ensures Submission(writes, outcome) == SaveSequence(s, companyId, db, now)
  {
    writes := [];

    var finalAppointmentId := s.form.appointmentId;
    if s.mode == CreateMode {
      if db.appointmentError.Some? {
        return writes, SaveFailed(FailureMessage(db.appointmentError.value));
      }
      writes := [InsertAppointment(AppointmentFor(s, companyId))];
      finalAppointmentId := db.newAppointmentId;
      if |s.services| > 0 {
        if db.appointmentServicesError.Some? {
        return writes, SaveFailed(FailureMessage(db.appointmentServicesError.value));
        }
        writes := writes + [InsertAppointmentServices(
          AppointmentServiceRows(finalAppointmentId, s.services))];
      }
    }
    assert AppointmentStep(s, companyId, db) == (writes, Ok(finalAppointmentId));

    var workOrderData := OrderDataFor(s, companyId, finalAppointmentId, now);
    if db.orderError.Some? {
      return writes, SaveFailed(FailureMessage(db.orderError.value));
    }
    ghost var saved := writes;
    var newWorkOrder: string;
    if s.editing.Some? {
      newWorkOrder := s.editing.value.id;
      writes := writes + [UpdateOrder(newWorkOrder, workOrderData), ClearServices(newWorkOrder),
                          ClearProducts(newWorkOrder)];
    } else {
      newWorkOrder := db.insertedOrderId;
      writes := writes + [InsertOrder(workOrderData)];
    }
    assert OrderStep(saved, s, workOrderData, db) == (writes, Ok(newWorkOrder));
    writes, outcome := SaveItemsThenSettle(s, companyId, db, now, workOrderData, newWorkOrder, writes);
  }

  /** The rest of the save once the order `newWorkOrder` is saved with `workOrderData`. */
  method SaveItemsThenSettle(s: State, companyId: string, db: Responses, now: nat,
                             workOrderData: OrderData, newWorkOrder: string, prefix: seq<Write>)
    returns (writes: seq<Write>, outcome: SubmitOutcome)
    ensures Submission(writes, outcome)
         == SaveItemsAndSettle(s, companyId, db, now, workOrderData, newWorkOrder, prefix)
  {
    writes := prefix;
    var targetStatus := s.form.status;
    if |s.services| > 0 {
      if db.servicesError.Some? {
        return writes, SaveFailed(FailureMessage(db.servicesError.value));
      }
      writes := writes + [InsertServices(WorkOrderService.ServiceRows(
        newWorkOrder, companyId, ServiceInputs(s.services)))];
    }
    if |s.products| > 0 {
      if db.productsError.Some? {
        return writes, SaveFailed(FailureMessage(db.productsError.value));
      }
      writes := writes + [InsertProducts(WorkOrderService.ProductRows(
        newWorkOrder, companyId, s.products))];
    }

    if targetStatus == "completed" && workOrderData.status != "completed" {
      if db.completeError.Some? {
        return writes, SaveFailed(FailureMessage(db.completeError.value));
      }
      writes := writes + [CompleteOrder(newWorkOrder)];
    }

    var transactionStatus := "pending";
    if s.form.paymentStatus == "paid" {
      transactionStatus := "paid";
    } else if s.form.paymentStatus == "partial" {
      transactionStatus := "pending";
    }
    var transactionData := WorkOrderService.Transaction(
      companyId, "income", "Serviço",
      "O.S. #" + workOrderData.orderNumber + " - " + Shown(CustomerName(s.customers, s.form.customerId)),
      Totals(s).total, transactionStatus,
      if s.form.expectedCompletionDate != "" then s.form.expectedCompletionDate else s.form.entryDate,
      if s.form.paymentStatus == "paid" then Some(now) else None,
      newWorkOrder, s.form.customerId);
    assert transactionData == TransactionFor(s, companyId, newWorkOrder, workOrderData.orderNumber, now);
    if db.existingTransaction.Some? {
      writes := writes + [UpdateTransaction(db.existingTransaction.value, transactionData)];
    } else if targetStatus != "draft" {
      writes := writes + [InsertTransaction(transactionData)];
    }
    outcome := Saved;
  }

  /** The modal's state while it is open. */
  class Modal {
    var formData: FormData
    var creationMode: CreationMode
    var selectedServices: seq<ServiceSelector.ServiceItem>
    var selectedProducts: seq<WorkOrderService.ProductInput>
    var customers: seq<Customer>
    var vehicles: seq<Vehicle>
    var loading: bool
    const workOrder: Option<EditedOrder>

    constructor (editing: Option<EditedOrder>, form: FormData)
      ensures workOrder == editing && formData == form && creationMode == LinkMode
      ensures selectedServices == [] && selectedProducts == [] && !loading
      ensures customers == [] && vehicles == []
    {
      workOrder := editing;
      formData := form;
      creationMode := LinkMode;
      selectedServices := [];
      selectedProducts := [];
      customers := [];
      vehicles := [];
      loading := false;
    }

    function Current(): State
      reads this
    {
      State(formData, creationMode, selectedServices, selectedProducts, workOrder, customers, vehicles)
    }

    /** handleSubmit: the checks, then the save sequence with `finalAppointmentId`,
      * `newWorkOrder` and `transactionStatus` reassigned as it goes; loading is switched
      * off again once a save was attempted. */
    method HandleSubmit(hasCompany: bool, companyId: string, db: Responses, now: nat)
      returns (writes: seq<Write>, outcome: SubmitOutcome)
      modifies this
      ensures Submission(writes, outcome) == Submit(old(Current()), hasCompany, companyId, db, now)
      ensures formData == old(formData) && creationMode == old(creationMode)
      ensures selectedServices == old(selectedServices) && selectedProducts == old(selectedProducts)
      ensures customers == old(customers) && vehicles == old(vehicles)
      ensures outcome.Rejected? ==> loading == old(loading)
      ensures !outcome.Rejected? ==> !loading
    {
      var s := Current();
      writes := [];
      if !hasCompany {
        return [], Rejected(NoCompany);
      }
      if creationMode == LinkMode && formData.appointmentId == "" {
        return [], Rejected(NoAppointmentLinked);
      }
      if creationMode == CreateMode && (formData.customerId == "" || formData.vehicleId == "") {
        return [], Rejected(NoCustomerOrVehicle);
      }
      if |selectedServices| == 0 && |selectedProducts| == 0 {
        return [], Rejected(NoItems);
      }
      loading := true;
      assert Validate(hasCompany, s).None?;
      writes, outcome := Save(s, companyId, db, now);
      loading := false;
    }
  }
}
