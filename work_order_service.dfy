// The work-order service (src/services/workOrderService.ts): the item rows it
// inserts, the income transaction it keeps beside each order, and the create and
// update procedures with their fallbacks and completion trigger. Every database
// call is an entry in the list of writes a procedure returns; what the database
// answers (errors, the existing transaction, the stored order) is a parameter,
// and so is the clock.
module WorkOrderService {
  import opened Wrappers
  import opened Text
  import Seqs
  import Calculations

  /** One service line of `CreateWorkOrderDTO.items`. */
  datatype ServiceInput = ServiceInput(
    serviceId: string, serviceName: string, quantity: real, unitPrice: real,
    notes: Option<string>)

  /** One product line of `CreateWorkOrderDTO.items`. */
  datatype ProductInput = ProductInput(productId: string, productName: string, quantity: real)

  datatype Items = Items(services: seq<ServiceInput>, products: seq<ProductInput>)

  /** A `work_order_services` row. */
  datatype ServiceRow = ServiceRow(
    companyId: string, workOrderId: string, serviceId: string, serviceName: string,
    quantity: real, unitPrice: real, totalPrice: real, notes: Option<string>)

  /** A `work_order_products` row. */
  datatype ProductRow = ProductRow(
    companyId: string, workOrderId: string, productId: string, productName: string,
    quantity: real, unitPrice: real, totalPrice: real)

  /** A `financial_transactions` row as the service writes it. */
  datatype Transaction = Transaction(
    companyId: string, kind: string, category: string, description: string,
    amount: real, status: string, dueDate: string, paidAt: Option<int>,
    workOrderId: string, customerId: string)

  /** The columns of a stored work order that the service reads back. */
  datatype StoredOrder = StoredOrder(
    id: string, companyId: string, orderNumber: string, customerId: string,
    status: string, paymentStatus: Option<string>, total: Option<real>,
    entryDate: string, expectedCompletionDate: Option<string>)

  /** `CreateWorkOrderDTO` without its items. */
  datatype CreateData = CreateData(
    companyId: string, customerId: string, status: string, entryDate: string,
    expectedCompletionDate: Option<string>, paymentStatus: Option<string>, total: real)

  /** `Partial<CreateWorkOrderDTO>` without its items: the fields an update supplies. */
  datatype Patch = Patch(
    customerId: Option<string>, status: Option<string>, paymentStatus: Option<string>,
    total: Option<real>, entryDate: Option<string>,
    expectedCompletionDate: Option<Option<string>>)

  /** What the database answers along the way: the error of the order insert or update,
    * the errors of the two item inserts, and the id of the transaction already linked to
    * the order, if any. */
  datatype Responses = Responses(
    orderError: Option<string>, servicesError: Option<string>, productsError: Option<string>,
    existingTransaction: Option<string>)

  /** One database call. */
  datatype Write =
    | InsertWorkOrder(order: StoredOrder)
    | UpdateWorkOrder(orderId: string, patch: Patch)
    | InsertServices(serviceRows: seq<ServiceRow>)
    | InsertProducts(productRows: seq<ProductRow>)
    | DeleteServices(ofOrder: string)
    | DeleteProducts(ofOrder: string)
    | InsertTransaction(record: Transaction)
    | UpdateTransaction(transactionId: string, record: Transaction)
    | MarkCompleted(completedOrder: string, completedAt: int)
  {
    predicate IsTransactionWrite() { InsertTransaction? || UpdateTransaction? }
  }

  predicate HasTransactionWrite(writes: seq<Write>)
  {
    exists w :: w in writes && w.IsTransactionWrite()
  }

  predicate Completes(writes: seq<Write>)
  {
    exists w :: w in writes && w.MarkCompleted?
  }

  /** `s.notes || null` */
  function NotesOrNull(notes: Option<string>): (r: Option<string>)
    ensures r.Some? <==> notes.Some? && notes.value != ""
    ensures r.Some? ==> r == notes
  {
    if notes.Some? && notes.value != "" then notes else None
  }

  /** The service rows saveItems inserts, one per line, in order. */
  function ServiceRows(workOrderId: string, companyId: string, services: seq<ServiceInput>)
    : (rows: seq<ServiceRow>)
    ensures |rows| == |services|
    ensures forall i :: 0 <= i < |rows| ==>
      && rows[i].totalPrice == services[i].unitPrice * services[i].quantity
      && rows[i].unitPrice == services[i].unitPrice
      && rows[i].quantity == services[i].quantity
      && rows[i].serviceId == services[i].serviceId
      && rows[i].workOrderId == workOrderId
      && rows[i].notes == NotesOrNull(services[i].notes)
  {
    seq(|services|, i requires 0 <= i < |services| =>
      var s := services[i];
      ServiceRow(companyId, workOrderId, s.serviceId, s.serviceName, s.quantity, s.unitPrice,
                 s.unitPrice * s.quantity, NotesOrNull(s.notes)))
  }

  /** The product rows saveItems inserts: quantities only, always at price zero. */
  function ProductRows(workOrderId: string, companyId: string, products: seq<ProductInput>)
    : (rows: seq<ProductRow>)
    ensures |rows| == |products|
    ensures forall i :: 0 <= i < |rows| ==>
      && rows[i].unitPrice == 0.0 && rows[i].totalPrice == 0.0
      && rows[i].quantity == products[i].quantity
      && rows[i].productId == products[i].productId
      && rows[i].workOrderId == workOrderId
  {
    seq(|products|, i requires 0 <= i < |products| =>
      var p := products[i];
      ProductRow(companyId, workOrderId, p.productId, p.productName, p.quantity, 0.0, 0.0))
  }

  function ServiceRowTotal(row: ServiceRow): real { row.totalPrice }

  function ProductRowTotal(row: ProductRow): real { row.totalPrice }

  /** A service line as the shared calculations see it. */
  function AsItem(s: ServiceInput): Calculations.Item { Calculations.Item(s.unitPrice, s.quantity) }

  /** Two lists whose elements pair up value for value have the same sum. */
  lemma {:induction false} SumPointwise<A, B>(a: seq<A>, f: A -> real, b: seq<B>, g: B -> real)
    requires |a| == |b| && forall i :: 0 <= i < |a| ==> f(a[i]) == g(b[i])
    ensures Seqs.Sum(a, f) == Seqs.Sum(b, g)
  {
    if a != [] {
      SumPointwise(a[1..], f, b[1..], g);
    }
  }

  /** The inserted service rows add up to the services subtotal of the calculations module. */
  lemma ServiceRowsAddUp(workOrderId: string, companyId: string, services: seq<ServiceInput>)
    ensures Seqs.Sum(ServiceRows(workOrderId, companyId, services), ServiceRowTotal)
         == Calculations.ItemsSubtotal(seq(|services|, i requires 0 <= i < |services| => AsItem(services[i])))
  {
    var items := seq(|services|, i requires 0 <= i < |services| => AsItem(services[i]));
    SumPointwise(ServiceRows(workOrderId, companyId, services), ServiceRowTotal,
                 items, Calculations.LineTotal);
  }

  /** The inserted product rows add nothing to the order's value. */
  lemma {:induction false} ProductRowsAddNothing(workOrderId: string, companyId: string,
                                                 products: seq<ProductInput>)
    ensures Seqs.Sum(ProductRows(workOrderId, companyId, products), ProductRowTotal) == 0.0
  {
    if products != [] {
      ProductRowsAddNothing(workOrderId, companyId, products[1..]);
      assert ProductRows(workOrderId, companyId, products)[1..]
          == ProductRows(workOrderId, companyId, products[1..]);
    }
  }

  /** Whether saveItems gets through both inserts: an empty list is not inserted and so
    * cannot fail. */
  predicate ItemsSaved(items: Items, db: Responses)
  {
    && (|items.services| > 0 ==> db.servicesError.None?)
    && (|items.products| > 0 ==> db.productsError.None?)
  }

  /** saveItems: the service rows, then the product rows, each only when there is at least
    * one line; a failed insert throws and stops the rest. */
  function SaveItems(workOrderId: string, companyId: string, items: Items, db: Responses)
    : (r: (seq<Write>, Outcome))
    ensures r.1.Done? <==> ItemsSaved(items, db)
    ensures forall w :: w in r.0 ==> w.InsertServices? || w.InsertProducts?
    ensures InsertServices(ServiceRows(workOrderId, companyId, items.services)) in r.0
        <==> |items.services| > 0 && db.servicesError.None?
    ensures InsertProducts(ProductRows(workOrderId, companyId, items.products)) in r.0
        <==> |items.products| > 0 && db.productsError.None?
             && (|items.services| > 0 ==> db.servicesError.None?)
    ensures |r.0| <= 2
  {
    if |items.services| > 0 && db.servicesError.Some? then
      ([], Failed(db.servicesError.value))
    else
      var first := if |items.services| > 0
        then [InsertServices(ServiceRows(workOrderId, companyId, items.services))] else [];
      if |items.products| > 0 && db.productsError.Some? then
        (first, Failed(db.productsError.value))
      else
        var second := if |items.products| > 0
          then [InsertProducts(ProductRows(workOrderId, companyId, items.products))] else [];
        (first + second, Done)
  }

  /** The record handleFinancialTransaction writes: an income of the order's total (0 when
    * the total is missing), paid exactly when the payment status is 'paid' and pending
    * otherwise ('partial' included), with a payment time only when paid. */
  function TransactionRecord(companyId: string, workOrderId: string, workOrderNumber: string,
                             customerId: string, total: Option<real>, dueDate: string,
                             paymentStatus: Option<string>, now: int): (t: Transaction)
    ensures t.status == "paid" <==> paymentStatus == Some("paid")
    ensures t.status != "paid" ==> t.status == "pending"
    ensures t.paidAt.Some? <==> t.status == "paid"
    ensures t.paidAt.Some? ==> t.paidAt.value == now
    ensures t.amount == total.GetOr(0.0)
    ensures t.kind == "income" && t.category == "Serviço"
    ensures t.workOrderId == workOrderId && t.customerId == customerId && t.dueDate == dueDate
    ensures t.description == "O.S. #" + workOrderNumber
  {
    var paid := paymentStatus == Some("paid");
    Transaction(companyId, "income", "Serviço", "O.S. #" + workOrderNumber,
                total.GetOr(0.0), if paid then "paid" else "pending", dueDate,
                if paid then Some(now) else None, workOrderId, customerId)
  }

  /** handleFinancialTransaction: nothing for a draft; otherwise the record above, as an
    * update of the transaction already linked to the order or as a new one. */
  method HandleFinancialTransaction(companyId: string, workOrderId: string,
                                    workOrderNumber: string, customerId: string,
                                    total: Option<real>, dueDate: string,
                                    paymentStatus: Option<string>, isDraft: bool,
                                    existing: Option<string>, now: int)
    returns (w: Option<Write>)
    ensures w.None? <==> isDraft
    ensures w.Some? ==> w.value.IsTransactionWrite()
    ensures w.Some? ==> (w.value.UpdateTransaction? <==> existing.Some?)
    ensures w.Some? && existing.Some? ==> w.value.transactionId == existing.value
    ensures w.Some? ==> w.value.record == TransactionRecord(companyId, workOrderId,
      workOrderNumber, customerId, total, dueDate, paymentStatus, now)
  {
    if isDraft {
      return None;
    }
    var status := "pending";
    if paymentStatus == Some("paid") {
      status := "paid";
    } else if paymentStatus == Some("partial") {
      status := "pending";
    }
    var data := Transaction(companyId, "income", "Serviço", "O.S. #" + workOrderNumber,
                            total.GetOr(0.0), status, dueDate,
                            if paymentStatus == Some("paid") then Some(now) else None,
                            workOrderId, customerId);
    if existing.Some? {
      w := Some(UpdateTransaction(existing.value, data));
    } else {
      w := Some(InsertTransaction(data));
    }
  }

  /** `expected_completion_date || entry_date` */
  function DueDate(expected: Option<string>, entryDate: string): (r: string)
    ensures expected.Some? && expected.value != "" ==> r == expected.value
    ensures expected.None? || expected.value == "" ==> r == entryDate
  {
    if expected.Some? && expected.value != "" then expected.value else entryDate
  }

  /** `new Date().getTime().toString().slice(-6)`: the last six digits of the clock. */
  function OrderNumber(now: nat): (r: string)
    ensures AllDigits(r) && 1 <= |r| <= 6
    ensures var s := NatToString(now); |r| == (if |s| < 6 then |s| else 6) && r == s[|s| - |r|..]
  {
    var s := NatToString(now);
    if |s| <= 6 then s else s[|s| - 6..]
  }

  /** The row the initial insert returns. */
  function CreatedRow(data: CreateData, newId: string, now: nat): StoredOrder
  {
    StoredOrder(newId, data.companyId, OrderNumber(now), data.customerId, data.status,
                data.paymentStatus, Some(data.total), data.entryDate, data.expectedCompletionDate)
  }

  /** No transaction write and no completion among `writes`. */
  predicate NoEffects(writes: seq<Write>)
  {
    forall w :: w in writes ==> !w.IsTransactionWrite() && !w.MarkCompleted?
  }

  lemma NoEffectsNone(writes: seq<Write>)
    requires NoEffects(writes)
    ensures !HasTransactionWrite(writes) && !Completes(writes)
  {
  }

  /** A procedure's writes are a prefix without effects, then at most the transaction
    * write, then at most the completion. */
  lemma EffectsOf(a: seq<Write>, b: seq<Write>, c: seq<Write>)
    requires NoEffects(a)
    requires forall w :: w in b ==> w.IsTransactionWrite()
    requires forall w :: w in c ==> w.MarkCompleted?
    ensures HasTransactionWrite(a + b + c) <==> b != []
    ensures Completes(a + b + c) <==> c != []
    ensures forall w :: w in a + b + c && w.IsTransactionWrite() ==> w in b
  {
    if b != [] {
      assert b[0] in a + b + c;
    }
    if c != [] {
      assert c[0] in a + b + c;
    }
  }

  /** `x || 'pending'` on the stored payment status. */
  function PaymentStatusOrPending(p: Option<string>): string
  {
    if p.Some? && p.value != "" then p.value else "pending"
  }

  /** `if (items) await this.saveItems(...)`, after the writes already made. */
  method SaveAll(prefix: seq<Write>, workOrderId: string, companyId: string,
                 items: Option<Items>, db: Responses)
    returns (writes: seq<Write>, outcome: Outcome)
    requires NoEffects(prefix)
    ensures NoEffects(writes)
    ensures |writes| >= |prefix| && forall i :: 0 <= i < |prefix| ==> writes[i] == prefix[i]
    ensures items.None? ==> writes == prefix && outcome == Done
    ensures outcome.Done? <==> items.Some? ==> ItemsSaved(items.value, db)
    ensures outcome.Failed? ==> !HasTransactionWrite(writes) && !Completes(writes)
  {
    writes, outcome := prefix, Done;
    if items.Some? {
      var saved := SaveItems(workOrderId, companyId, items.value, db);
      writes, outcome := prefix + saved.0, saved.1;
    }
    NoEffectsNone(writes);
  }

  /** The last two steps of create and update: the financial transaction of the saved
    * order `o`, then its completion when `completing`. */
  method Settle(prefix: seq<Write>, o: StoredOrder, total: Option<real>,
                paymentStatus: Option<string>, isDraft: bool, completing: bool,
                existingTransaction: Option<string>, now: int)
    returns (writes: seq<Write>)
    requires NoEffects(prefix)
    ensures |writes| >= |prefix| && forall i :: 0 <= i < |prefix| ==> writes[i] == prefix[i]
    ensures HasTransactionWrite(writes) <==> !isDraft
    ensures Completes(writes) <==> completing
    ensures forall w :: w in writes && w.IsTransactionWrite() ==>
      w.record == TransactionRecord(o.companyId, o.id, o.orderNumber, o.customerId, total,
        DueDate(o.expectedCompletionDate, o.entryDate), paymentStatus, now)
  {
    var tx := HandleFinancialTransaction(
      o.companyId, o.id, o.orderNumber, o.customerId, total,
      DueDate(o.expectedCompletionDate, o.entryDate), paymentStatus, isDraft,
      existingTransaction, now);
    var txWrites := if tx.Some? then [tx.value] else [];
    var doneWrites := if completing then [MarkCompleted(o.id, now)] else [];
    writes := prefix + txWrites + doneWrites;
    EffectsOf(prefix, txWrites, doneWrites);
  }

  /** create: insert the order, save its items, keep its transaction, and mark it completed
    * when it is created as completed. */
  method Create(data: CreateData, items: Option<Items>, newId: string, db: Responses, now: nat)
    returns (writes: seq<Write>, result: Result<StoredOrder>)
    ensures db.orderError.Some? ==> writes == [] && result == Err(db.orderError.value)
    ensures db.orderError.None? ==> writes != [] && writes[0] == InsertWorkOrder(CreatedRow(data, newId, now))
    ensures result.Ok? <==> db.orderError.None? && (items.Some? ==> ItemsSaved(items.value, db))
    ensures result.Ok? ==> result.value == CreatedRow(data, newId, now)
    ensures result.Ok? ==> (HasTransactionWrite(writes) <==> data.status != "draft")
    ensures result.Ok? ==> (Completes(writes) <==> data.status == "completed")
    ensures result.Err? ==> !HasTransactionWrite(writes) && !Completes(writes)
    ensures forall w :: w in writes && w.IsTransactionWrite() ==>
      w.record == TransactionRecord(data.companyId, newId, OrderNumber(now), data.customerId,
        Some(data.total), DueDate(data.expectedCompletionDate, data.entryDate),
        Some(PaymentStatusOrPending(data.paymentStatus)), now)
  {
    if db.orderError.Some? {
      return [], Err(db.orderError.value);
    }
    var workOrder := CreatedRow(data, newId, now);
    writes := [InsertWorkOrder(workOrder)];
    var outcome;
    writes, outcome := SaveAll(writes, workOrder.id, workOrder.companyId, items, db);
    if outcome.Failed? {
      return writes, Err(outcome.error);
    }
    writes := Settle(writes, workOrder, workOrder.total,
                     Some(PaymentStatusOrPending(workOrder.paymentStatus)),
                     workOrder.status == "draft", data.status == "completed",
                     db.existingTransaction, now);
    result := Ok(workOrder);
  }

  /** The stored order after `update(workOrderData)`: every supplied field replaces the
    * stored one. */
  function ApplyPatch(o: StoredOrder, p: Patch): StoredOrder
  {
    o.(customerId := p.customerId.GetOr(o.customerId),
       status := p.status.GetOr(o.status),
       paymentStatus := if p.paymentStatus.Some? then p.paymentStatus else o.paymentStatus,
       total := if p.total.Some? then p.total else o.total,
       entryDate := p.entryDate.GetOr(o.entryDate),
       expectedCompletionDate := p.expectedCompletionDate.GetOr(o.expectedCompletionDate))
  }

  /** update's `??` fallbacks: the supplied value, or the stored one when absent. */
  function EffectiveTotal(p: Patch, o: StoredOrder): (r: Option<real>)
    ensures p.total.Some? ==> r == p.total
    ensures p.total.None? ==> r == o.total
  {
    if p.total.Some? then p.total else o.total
  }

  function EffectiveStatus(p: Patch, o: StoredOrder): (r: string)
    ensures p.status.Some? ==> r == p.status.value
    ensures p.status.None? ==> r == o.status
  {
    p.status.GetOr(o.status)
  }

  function EffectivePaymentStatus(p: Patch, o: StoredOrder): (r: Option<string>)
    ensures p.paymentStatus.Some? ==> r == p.paymentStatus
    ensures p.paymentStatus.None? ==> r == o.paymentStatus
  {
    if p.paymentStatus.Some? then p.paymentStatus else o.paymentStatus
  }

  /** The fallbacks agree with the row the update returns, so the transaction follows the
    * order as stored after the update. */
  lemma EffectiveMatchesUpdatedRow(p: Patch, o: StoredOrder)
    ensures EffectiveTotal(p, o) == ApplyPatch(o, p).total
    ensures EffectiveStatus(p, o) == ApplyPatch(o, p).status
    ensures EffectivePaymentStatus(p, o) == ApplyPatch(o, p).paymentStatus
  {
  }

  /** An empty patch changes nothing. */
  lemma EmptyPatchKeepsOrder(o: StoredOrder)
    ensures ApplyPatch(o, Patch(None, None, None, None, None, None)) == o
  {
  }

  /** update: check the order exists, apply the patch, replace the items when given, keep
    * the transaction in line with the effective values, and mark the order completed when
    * it moves into 'completed'. */
  method Update(id: string, data: Patch, items: Option<Items>, existing: Option<StoredOrder>,
                db: Responses, now: nat)
    returns (writes: seq<Write>, result: Result<StoredOrder>)
    ensures existing.None? ==> writes == [] && result == Err("WorkOrder not found")
    ensures existing.Some? && db.orderError.Some? ==>
      writes == [] && result == Err(db.orderError.value)
    ensures existing.Some? && db.orderError.None? ==>
      writes != [] && writes[0] == UpdateWorkOrder(id, data)
    ensures existing.Some? && items.Some? && db.orderError.None? ==>
      |writes| >= 3 && writes[1] == DeleteServices(id) && writes[2] == DeleteProducts(id)
    ensures result.Ok? <==>
      existing.Some? && db.orderError.None? && (items.Some? ==> ItemsSaved(items.value, db))
    ensures result.Ok? ==> result.value == ApplyPatch(existing.value, data)
    ensures result.Ok? ==>
      (HasTransactionWrite(writes) <==> EffectiveStatus(data, existing.value) != "draft")
    ensures result.Ok? ==>
      (Completes(writes) <==> data.status == Some("completed") && existing.value.status != "completed")
    ensures result.Err? ==> !HasTransactionWrite(writes) && !Completes(writes)
    ensures forall w :: w in writes && w.IsTransactionWrite() ==>
      existing.Some? &&
      var o := ApplyPatch(existing.value, data);
      w.record == TransactionRecord(o.companyId, o.id, o.orderNumber, o.customerId,
        EffectiveTotal(data, existing.value), DueDate(o.expectedCompletionDate, o.entryDate),
        EffectivePaymentStatus(data, existing.value), now)
  {
    if existing.None? {
      return [], Err("WorkOrder not found");
    }
    if db.orderError.Some? {
      return [], Err(db.orderError.value);
    }
    var workOrder := ApplyPatch(existing.value, data);
    writes := [UpdateWorkOrder(id, data)];
    if items.Some? {
      writes := writes + [DeleteServices(id), DeleteProducts(id)];
    }
    var outcome;
    writes, outcome := SaveAll(writes, id, workOrder.companyId, items, db);
    if outcome.Failed? {
      return writes, Err(outcome.error);
    }
    writes := Settle(writes, workOrder, EffectiveTotal(data, existing.value),
                     EffectivePaymentStatus(data, existing.value),
                     EffectiveStatus(data, existing.value) == "draft",
                     data.status == Some("completed") && existing.value.status != "completed",
                     db.existingTransaction, now);
    result := Ok(workOrder);
  }
}
