// Money arithmetic of work orders (src/utils/calculations.ts). Amounts are
// mathematical reals: JavaScript's binary floating point is not modelled.
module Calculations {
  import Seqs

  function Max(a: real, b: real): real { if a >= b then a else b }

  /** WorkOrderItem */
  datatype Item = Item(price: real, quantity: real)

  function LineTotal(item: Item): real { item.price * item.quantity }

  /** `items.reduce((sum, item) => sum + item.price * item.quantity, 0)` */
  function ItemsSubtotal(items: seq<Item>): real
  {
    Seqs.Sum(items, LineTotal)
  }

  lemma ItemsSubtotalEmpty()
    ensures ItemsSubtotal([]) == 0.0
  {
  }

  /** Adding one line adds its price × quantity. */
  lemma ItemsSubtotalAppend(items: seq<Item>, item: Item)
    ensures ItemsSubtotal(items + [item]) == ItemsSubtotal(items) + item.price * item.quantity
  {
    Seqs.SumConcat(items, [item], LineTotal);
    assert [item][1..] == [];
  }

  /** Lines with nonnegative prices and quantities give a nonnegative subtotal. */
  lemma ItemsSubtotalNonneg(items: seq<Item>)
    requires forall i :: 0 <= i < |items| ==> items[i].price >= 0.0 && items[i].quantity >= 0.0
    ensures ItemsSubtotal(items) >= 0.0
  {
    Seqs.SumNonneg(items, LineTotal);
  }

  /** calculatePercentageDiscount */
  function PercentageDiscount(amount: real, percentage: real): (r: real)
    ensures amount >= 0.0 && 0.0 <= percentage <= 100.0 ==> 0.0 <= r <= amount
    ensures percentage == 100.0 ==> r == amount
    ensures percentage == 0.0 ==> r == 0.0
  {
    PercentBounds(amount, percentage);
    (amount * percentage) / 100.0
  }

  lemma PercentBounds(amount: real, percentage: real)
    ensures amount >= 0.0 && 0.0 <= percentage <= 100.0 ==>
      0.0 <= amount * percentage <= amount * 100.0
  {
    if amount >= 0.0 && 0.0 <= percentage <= 100.0 {
      assert amount * (100.0 - percentage) >= 0.0;
    }
  }

  /** applyDiscount */
  function ApplyDiscount(amount: real, discount: real, isPercentage: bool): (r: real)
    ensures discount == 0.0 ==> r == amount
    ensures !isPercentage ==> r + discount == amount
    ensures isPercentage ==> r * 100.0 == amount * (100.0 - discount)
  {
    if isPercentage then amount - PercentageDiscount(amount, discount) else amount - discount
  }

  datatype Totals = Totals(
    servicesSubtotal: real, productsSubtotal: real, subtotal: real,
    discountAmount: real, total: real)

  /** calculateWorkOrderTotal */
  function WorkOrderTotal(services: seq<Item>, products: seq<Item>, discount: real,
                          isPercentageDiscount: bool): (r: Totals)
    ensures r.subtotal == r.servicesSubtotal + r.productsSubtotal
    ensures r.discountAmount == if isPercentageDiscount then r.subtotal * discount / 100.0 else discount
    ensures r.total >= 0.0 && r.total >= r.subtotal - r.discountAmount
    ensures r.total == 0.0 || r.total == r.subtotal - r.discountAmount
    ensures discount >= 0.0 && r.subtotal >= 0.0 ==> r.total <= r.subtotal
    ensures discount == 0.0 && r.subtotal >= 0.0 ==> r.total == r.subtotal
  {
    var servicesSubtotal := ItemsSubtotal(services);
    var productsSubtotal := ItemsSubtotal(products);
    var subtotal := servicesSubtotal + productsSubtotal;
    var discountAmount :=
      if isPercentageDiscount then PercentageDiscount(subtotal, discount) else discount;
    Totals(servicesSubtotal, productsSubtotal, subtotal, discountAmount,
           Max(0.0, subtotal - discountAmount))
  }

  /** The subtotals are the sums over each list; with no lines everything is 0 apart from
    * what a fixed discount of a negative value gives back. */
  lemma WorkOrderTotalParts(services: seq<Item>, products: seq<Item>, discount: real, p: bool)
    ensures var r := WorkOrderTotal(services, products, discount, p);
      r.servicesSubtotal == ItemsSubtotal(services) && r.productsSubtotal == ItemsSubtotal(products)
    ensures var r := WorkOrderTotal([], [], discount, p);
      r.subtotal == 0.0 && (discount >= 0.0 ==> r.total == 0.0)
  {
  }

  /** calculateChange */
  function Change(total: real, paid: real): (r: real)
    ensures r >= 0.0
    ensures paid >= total ==> total + r == paid
    ensures paid <= total ==> r == 0.0
  {
    Max(0.0, paid - total)
  }

  /** calculateProfitMargin: 0 for zero revenue, otherwise the profit as a percentage of
    * revenue. */
  function ProfitMargin(revenue: real, cost: real): (r: real)
    ensures revenue == 0.0 ==> r == 0.0
    ensures revenue != 0.0 ==> r * revenue == (revenue - cost) * 100.0
    ensures revenue != 0.0 && cost == 0.0 ==> r == 100.0
  {
    if revenue == 0.0 then 0.0 else ((revenue - cost) / revenue) * 100.0
  }

  function Total(values: seq<real>): real
  {
    if values == [] then 0.0 else values[0] + Total(values[1..])
  }

  /** calculateAverage: 0 for an empty list, otherwise the mean. */
  function Average(values: seq<real>): (r: real)
    ensures values == [] ==> r == 0.0
    ensures values != [] ==> r * (|values| as real) == Total(values)
  {
    if |values| == 0 then 0.0 else Total(values) / (|values| as real)
  }

  lemma {:induction false} TotalBounds(values: seq<real>, lo: real, hi: real)
    requires forall i :: 0 <= i < |values| ==> lo <= values[i] <= hi
    ensures lo * (|values| as real) <= Total(values) <= hi * (|values| as real)
  {
    if values != [] {
      TotalBounds(values[1..], lo, hi);
    }
  }

  /** The mean lies between any lower and upper bound of the values. */
  lemma AverageBounds(values: seq<real>, lo: real, hi: real)
    requires values != []
    requires forall i :: 0 <= i < |values| ==> lo <= values[i] <= hi
    ensures lo <= Average(values) <= hi
  {
    TotalBounds(values, lo, hi);
    var n := |values| as real;
    var a := Average(values);
    assert a * n == Total(values);
    assert (a - lo) * n >= 0.0 && (hi - a) * n >= 0.0;
  }

  /** calculatePercentageOfTotal: 0 for a zero total, otherwise value as a percentage. */
  function PercentageOfTotal(value: real, total: real): (r: real)
    ensures total == 0.0 ==> r == 0.0
    ensures total != 0.0 ==> r * total == value * 100.0
    ensures value == total && total != 0.0 ==> r == 100.0
  {
    if total == 0.0 then 0.0 else (value / total) * 100.0
  }
}
