// The inventory page (src/pages/inventory/Inventory.tsx): the name search and the
// low-stock filter over the catalog. Loading and the movement and history modals are
// database I/O.
module Inventory {
  import opened Wrappers
  import opened Text
  import Seqs

  /** The fields of a product the filter reads; quantity and minimum may be null. */
  datatype Product = Product(name: string, quantity: Option<real>, minStock: Option<real>)

  /** `(product.quantity || 0) <= (product.min_stock || 0)`: a product at its minimum
    * counts as low. */
  predicate IsLowStock(p: Product)
  {
    p.quantity.GetOr(0.0) <= p.minStock.GetOr(0.0)
  }

  /** The select: 'all', 'low' or 'ok'; the last branch is taken for any value but the
    * first two. */
  predicate MatchesStatus(filterStatus: string, p: Product)
  {
    if filterStatus == "all" then true
    else if filterStatus == "low" then IsLowStock(p)
    else !IsLowStock(p)
  }

  predicate Shown(searchTerm: string, filterStatus: string, p: Product)
  {
    Contains(Lower(p.name), Lower(searchTerm)) && MatchesStatus(filterStatus, p)
  }

  function ByPage(searchTerm: string, filterStatus: string): Product -> bool
  {
    (p: Product) => Shown(searchTerm, filterStatus, p)
  }

  /** filteredProducts */
  function Filtered(products: seq<Product>, searchTerm: string, filterStatus: string)
    : (r: seq<Product>)
    ensures forall p :: p in r <==> p in products && Shown(searchTerm, filterStatus, p)
    ensures Seqs.IsSubseq(r, products)
  {
    var r := Seqs.Filter(products, ByPage(searchTerm, filterStatus));
    forall p ensures p in r <==> p in products && Shown(searchTerm, filterStatus, p) {
      Seqs.FilterMem(products, ByPage(searchTerm, filterStatus), p);
    }
    Seqs.FilterIsSubseq(products, ByPage(searchTerm, filterStatus));
    r
  }

  /** A missing quantity or minimum reads as 0: a product with neither is low, and one whose
    * quantity equals its minimum is low. */
  lemma LowStockEdges(name: string, q: real)
    ensures IsLowStock(Product(name, None, None))
    ensures IsLowStock(Product(name, Some(q), Some(q)))
    ensures q > 0.0 ==> !IsLowStock(Product(name, Some(q), None))
    ensures q >= 0.0 ==> IsLowStock(Product(name, None, Some(q)))
  {
  }

  /** For one search term the 'low' and 'ok' lists split the 'all' list. */
  lemma LowOkPartition(products: seq<Product>, searchTerm: string)
    ensures |Filtered(products, searchTerm, "low")| + |Filtered(products, searchTerm, "ok")|
         == |Filtered(products, searchTerm, "all")|
    ensures forall p :: p in Filtered(products, searchTerm, "all") <==>
      p in Filtered(products, searchTerm, "low") || p in Filtered(products, searchTerm, "ok")
    ensures forall p :: !(p in Filtered(products, searchTerm, "low")
                          && p in Filtered(products, searchTerm, "ok"))
  {
    var all := Filtered(products, searchTerm, "all");
    Seqs.FilterPartition(all, IsLowStock, (p: Product) => !IsLowStock(p));
    Seqs.FilterFilter(products, ByPage(searchTerm, "all"), IsLowStock, ByPage(searchTerm, "low"));
    Seqs.FilterFilter(products, ByPage(searchTerm, "all"), (p: Product) => !IsLowStock(p),
                      ByPage(searchTerm, "ok"));
  }

  /** An empty search with 'all' shows the whole catalog. */
  lemma NoFilterShowsAll(products: seq<Product>)
    ensures Filtered(products, "", "all") == products
  {
    assert Lower("") == "";
    forall i | 0 <= i < |products| ensures ByPage("", "all")(products[i]) {
      ContainsEmpty(Lower(products[i].name));
    }
    Seqs.FilterAll(products, ByPage("", "all"));
  }
}
