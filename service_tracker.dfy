// The public service-tracking page (src/pages/public/ServiceTracker.tsx): the price
// summary it shows under the services, and the before/after photo comparison.
// Loading the tracked order is database I/O and is left out.
module ServiceTracker {
  import opened Wrappers
  import Seqs
  import Calculations

  /** The order columns the summary reads; each may be missing. */
  datatype TrackedOrder = TrackedOrder(
    subtotal: Option<real>, discount: Option<real>, discountType: Option<string>)

  /** What the summary shows: subtotal and discount lines only when there is a
    * discount, and, within those lines, the percentage when it is one. */
  datatype Summary = Summary(
    subtotal: real, discountAmount: real, total: real, showsDiscountLines: bool,
    showsPercentage: bool)

  /** `discount_type || 'fixed'` */
  function DiscountType(o: TrackedOrder): (r: string)
    ensures o.discountType.None? || o.discountType.value == "" ==> r == "fixed"
    ensures o.discountType.Some? && o.discountType.value != "" ==> r == o.discountType.value
  {
    if o.discountType.Some? && o.discountType.value != "" then o.discountType.value else "fixed"
  }

  /** The price summary. Unlike the work-order calculations, the total is not clamped
    * at zero. */
  function PriceSummary(o: TrackedOrder): (r: Summary)
    ensures r.subtotal == o.subtotal.GetOr(0.0)
    ensures r.total == r.subtotal - r.discountAmount
    ensures DiscountType(o) == "percentage" ==>
      r.discountAmount * 100.0 == r.subtotal * o.discount.GetOr(0.0)
    ensures DiscountType(o) != "percentage" ==> r.discountAmount == o.discount.GetOr(0.0)
    ensures r.showsDiscountLines <==> o.discount.GetOr(0.0) > 0.0
    ensures r.showsPercentage <==> r.showsDiscountLines && DiscountType(o) == "percentage"
  {
    var discountType := DiscountType(o);
    var discountValue := o.discount.GetOr(0.0);
    var subtotal := o.subtotal.GetOr(0.0);
    var discountAmount :=
      if discountType == "percentage" then (subtotal * discountValue) / 100.0 else discountValue;
    Summary(subtotal, discountAmount, subtotal - discountAmount, discountValue > 0.0,
            discountValue > 0.0 && discountType == "percentage")
  }

  /** Without a discount the total is the subtotal. */
  lemma NoDiscountTotalIsSubtotal(o: TrackedOrder)
    requires o.discount.None? || o.discount.value == 0.0
    ensures PriceSummary(o).total == PriceSummary(o).subtotal
    ensures !PriceSummary(o).showsDiscountLines
  {
  }

  /** The page agrees with the work-order calculations on the same lines and discount
    * whenever its total is not negative; when it is, the calculations show 0. */
  lemma AgreesWithCalculations(items: seq<Calculations.Item>, o: TrackedOrder)
    requires o.subtotal == Some(Calculations.ItemsSubtotal(items))
    ensures var shared := Calculations.WorkOrderTotal(items, [], o.discount.GetOr(0.0),
                                                    DiscountType(o) == "percentage");
      && (PriceSummary(o).total >= 0.0 ==> shared.total == PriceSummary(o).total)
      && (PriceSummary(o).total < 0.0 ==> shared.total == 0.0)
  {
    Calculations.ItemsSubtotalEmpty();
    var r := PriceSummary(o);
    var shared := Calculations.WorkOrderTotal(items, [], o.discount.GetOr(0.0),
                                            DiscountType(o) == "percentage");
    assert shared.subtotal == r.subtotal;
    assert shared.discountAmount == r.discountAmount;
  }

  /** A fixed discount larger than the subtotal shows a negative total. */
  lemma NegativeTotalExample()
    ensures PriceSummary(TrackedOrder(Some(50.0), Some(80.0), None)).total == -30.0
  {
  }

  /** A photo of the order with its type ('before', 'after', ...). */
  datatype Photo = Photo(url: string, kind: string)

  predicate IsBefore(p: Photo) { p.kind == "before" }
  predicate IsAfter(p: Photo) { p.kind == "after" }

  /** The comparison slider: the first before photo and the first after photo, shown
    * only when there are both. */
  function Comparison(photos: seq<Photo>): (r: Option<(string, string)>)
    ensures r.Some? <==>
      && (exists i :: 0 <= i < |photos| && IsBefore(photos[i]))
      && (exists j :: 0 <= j < |photos| && IsAfter(photos[j]))
    ensures r.Some? ==>
      && |Seqs.Filter(photos, IsBefore)| > 0 && |Seqs.Filter(photos, IsAfter)| > 0
      && r.value == (Seqs.Filter(photos, IsBefore)[0].url, Seqs.Filter(photos, IsAfter)[0].url)
  {
    var beforePhotos := Seqs.Filter(photos, IsBefore);
    var afterPhotos := Seqs.Filter(photos, IsAfter);
    Seqs.FilterNonEmpty(photos, IsBefore);
    Seqs.FilterNonEmpty(photos, IsAfter);
    if |beforePhotos| > 0 && |afterPhotos| > 0 then
      Some((beforePhotos[0].url, afterPhotos[0].url))
    else None
  }
}
