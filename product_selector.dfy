// The product list of a work order (src/components/operations/ProductSelector.tsx).
// Unlike the service list, the handlers copy the array but then assign
// `quantity` on the element objects, which the caller's array shares; the
// selected products are therefore objects here, and the handlers change them in
// place. Loading the catalogue is database I/O.
module ProductSelector {
  import opened Wrappers
  import opened Text

  /** A catalogue product (the fields the selector reads); `quantity` is the stock, None for
    * SQL null. */
  datatype CatalogProduct = CatalogProduct(id: string, name: string, sku: Option<string>,
                                           quantity: Option<real>, unit: Option<string>)

  /** One selected product. Only `quantity` is ever assigned. */
  class SelectedProduct {
    const productId: string
    const productName: string
    var quantity: real
    const availableStock: real
    const unit: Option<string>

    constructor (id: string, name: string, q: real, stock: real, u: Option<string>)
      ensures productId == id && productName == name && quantity == q
      ensures availableStock == stock && unit == u
    {
      productId := id;
      productName := name;
      quantity := q;
      availableStock := stock;
      unit := u;
    }

    /** The "insufficient stock" warning of the row. */
    predicate InsufficientStock()
      reads this
    {
      quantity > availableStock
    }
  }

  /** `product.quantity || 0`: a null or zero stock becomes 0. */
  function StockOrZero(q: Option<real>): (r: real)
    ensures q.Some? ==> r == q.value
    ensures q.None? ==> r == 0.0
  {
    q.GetOr(0.0)
  }

  /** `findIndex(p => p.product_id === id)` */
  method FindIndex(selected: seq<SelectedProduct>, id: string) returns (idx: int)
    ensures -1 <= idx < |selected|
    ensures idx == -1 <==> forall j :: 0 <= j < |selected| ==> selected[j].productId != id
    ensures idx >= 0 ==> selected[idx].productId == id
    ensures idx >= 0 ==> forall j :: 0 <= j < idx ==> selected[j].productId != id
  {
    idx := 0;
    while idx < |selected|
      invariant 0 <= idx <= |selected|
      invariant forall j :: 0 <= j < idx ==> selected[j].productId != id
    {
      if selected[idx].productId == id {
        return;
      }
      idx := idx + 1;
    }
    idx := -1;
  }

  /** handleAddProduct: a product already in the list gets one more unit on its own object,
    * so the caller's list sees the change too; a new product is appended with quantity 1. */
  method HandleAddProduct(selected: seq<SelectedProduct>, product: CatalogProduct)
    returns (newProducts: seq<SelectedProduct>, existingIndex: int)
    modifies set i | 0 <= i < |selected| :: selected[i]
    ensures -1 <= existingIndex < |selected|
    ensures existingIndex >= 0 ==>
      && selected[existingIndex].productId == product.id
      && (forall j :: 0 <= j < existingIndex ==> selected[j].productId != product.id)
      && newProducts == selected
      && selected[existingIndex].quantity == old(selected[existingIndex].quantity) + 1.0
      && (selected[existingIndex].InsufficientStock() <==>
            old(selected[existingIndex].quantity) + 1.0 > selected[existingIndex].availableStock)
      && (forall j :: 0 <= j < |selected| && selected[j] != selected[existingIndex] ==>
            selected[j].quantity == old(selected[j].quantity))
    ensures existingIndex == -1 ==>
      && (forall j :: 0 <= j < |selected| ==> selected[j].productId != product.id)
      && |newProducts| == |selected| + 1 && newProducts[..|selected|] == selected
      && fresh(newProducts[|selected|])
      && newProducts[|selected|].productId == product.id
      && newProducts[|selected|].productName == product.name
      && newProducts[|selected|].quantity == 1.0
      && newProducts[|selected|].availableStock == StockOrZero(product.quantity)
      && newProducts[|selected|].unit == product.unit
      && (newProducts[|selected|].InsufficientStock() <==> StockOrZero(product.quantity) < 1.0)
      && (forall j :: 0 <= j < |selected| ==> selected[j].quantity == old(selected[j].quantity))
  {
    existingIndex := FindIndex(selected, product.id);
    if existingIndex >= 0 {
      newProducts := selected;
      var item := newProducts[existingIndex];
      item.quantity := item.quantity + 1.0;
    } else {
      var item := new SelectedProduct(product.id, product.name, 1.0, StockOrZero(product.quantity), product.unit);
      newProducts := selected + [item];
    }
  }

  /** `Array.prototype.splice(index, 1)` on a copy: a negative index counts from the end, an
    * index past the end removes nothing. */
  function SpliceOne<T>(s: seq<T>, index: int): (r: seq<T>)
    ensures 0 <= index < |s| ==> r == s[..index] + s[index + 1..]
    ensures -|s| <= index < 0 ==> r == s[..|s| + index] + s[|s| + index + 1..]
    ensures index >= |s| ==> r == s
    ensures index < -|s| && s != [] ==> r == s[1..]
  {
    var start := if index < 0 then (if |s| + index < 0 then 0 else |s| + index) else index;
    if start < |s| then s[..start] + s[start + 1..] else s
  }

  /** handleRemoveProduct removes exactly the element at the row's index; the later ones move
    * down by one and no object changes. */
  lemma RemoveShifts<T>(s: seq<T>, index: nat)
    requires index < |s|
    ensures |SpliceOne(s, index)| == |s| - 1
    ensures forall j :: 0 <= j < index ==> SpliceOne(s, index)[j] == s[j]
    ensures forall j :: index <= j < |s| - 1 ==> SpliceOne(s, index)[j] == s[j + 1]
  {
  }

  /** handleQuantityChange: below 1 nothing happens (None, no change is reported); otherwise the
    * object at the index takes the new quantity, its stock warning shows exactly when that
    * quantity exceeds its stock, and no other object or warning changes. */
  method HandleQuantityChange(selected: seq<SelectedProduct>, index: int, newQuantity: real)
    returns (newProducts: Option<seq<SelectedProduct>>)
    requires newQuantity >= 1.0 ==> 0 <= index < |selected|
    modifies set i | 0 <= i < |selected| :: selected[i]
    ensures newQuantity < 1.0 ==>
      && newProducts.None?
      && forall j :: 0 <= j < |selected| ==> selected[j].quantity == old(selected[j].quantity)
    ensures newQuantity >= 1.0 ==>
      && newProducts == Some(selected)
      && selected[index].quantity == newQuantity
      && (selected[index].InsufficientStock() <==> newQuantity > selected[index].availableStock)
      && forall j :: 0 <= j < |selected| && selected[j] != selected[index] ==>
           selected[j].quantity == old(selected[j].quantity)
           && (selected[j].InsufficientStock() <==> old(selected[j].InsufficientStock()))
  {
    if newQuantity < 1.0 {
      return None;
    }
    var item := selected[index];
    item.quantity := newQuantity;
    newProducts := Some(selected);
  }

  /** filteredProducts: the name, or else the SKU, contains the term, ignoring case. */
  predicate MatchesSearch(p: CatalogProduct, term: string)
  {
    Contains(Lower(p.name), Lower(term)) || (p.sku.Some? && Contains(Lower(p.sku.value), Lower(term)))
  }

  function FilterProducts(products: seq<CatalogProduct>, term: string): (r: seq<CatalogProduct>)
    ensures forall p :: p in r <==> p in products && MatchesSearch(p, term)
    ensures |r| <= |products|
  {
    if products == [] then []
    else (if MatchesSearch(products[0], term) then [products[0]] else []) + FilterProducts(products[1..], term)
  }

  /** The search is case-insensitive: a term and its upper-cased form select the same rows. */
  lemma {:induction false} SearchIgnoresCase(products: seq<CatalogProduct>, term: string)
    ensures FilterProducts(products, Upper(term)) == FilterProducts(products, term)
  {
    assert Lower(Upper(term)) == Lower(term) by { LowerOfUpper(term); }
    if products != [] {
      SearchIgnoresCase(products[1..], term);
    }
  }

  lemma LowerOfUpper(s: string)
    ensures Lower(Upper(s)) == Lower(s)
  {
    assert forall i :: 0 <= i < |s| ==> ToLower(ToUpper(s[i])) == ToLower(s[i]);
  }
}
