// The service list of a work order (src/components/operations/ServiceSelector.tsx):
// the catalogue search and the edits, each of which hands a new selection to
// `onChange`, and the subtotal. Loading the catalogue is database I/O.
module ServiceSelector {
  import opened Wrappers
  import opened Text
  import Seqs

  /** A catalogue row (the fields the selector reads). */
  datatype CatalogService = CatalogService(id: string, name: string, description: Option<string>, price: real)

  /** ServiceItem */
  datatype ServiceItem = ServiceItem(serviceId: string, serviceName: string, quantity: int, price: real,
                                     notes: Option<string>)

  predicate Selected(sel: seq<ServiceItem>, id: string)
  {
    exists i :: 0 <= i < |sel| && sel[i].serviceId == id
  }

  /** Each service appears at most once in the selection. */
  predicate UniqueIds(sel: seq<ServiceItem>)
  {
    forall i, j :: 0 <= i < j < |sel| ==> sel[i].serviceId != sel[j].serviceId
  }

  /** The search: the name, or else the description, contains the term, ignoring case. */
  predicate MatchesSearch(s: CatalogService, term: string)
  {
    Contains(Lower(s.name), Lower(term))
    || (s.description.Some? && Contains(Lower(s.description.value), Lower(term)))
  }

  /** filteredServices */
  function FilterServices(services: seq<CatalogService>, term: string): (r: seq<CatalogService>)
    ensures forall s :: s in r <==> s in services && MatchesSearch(s, term)
    ensures |r| <= |services|
  {
    if services == [] then []
    else (if MatchesSearch(services[0], term) then [services[0]] else []) + FilterServices(services[1..], term)
  }

  /** An empty search lists the whole catalogue, in order. */
  lemma {:induction false} EmptySearchListsAll(services: seq<CatalogService>)
    ensures FilterServices(services, "") == services
  {
    if services != [] {
      ContainsEmpty(Lower(services[0].name));
      EmptySearchListsAll(services[1..]);
    }
  }

  /** The three field edits that go through `map`. */
  datatype Change = IncrementQuantity | SetQuantity(q: int) | SetPrice(p: real)

  function Apply(item: ServiceItem, ch: Change): ServiceItem
  {
    match ch
    case IncrementQuantity => item.(quantity := item.quantity + 1)
    case SetQuantity(q) => item.(quantity := q)
    case SetPrice(p) => item.(price := p)
  }

  /** `selectedServices.map(s => s.service_id === id ? change(s) : s)` */
  function Updated(sel: seq<ServiceItem>, id: string, ch: Change): (r: seq<ServiceItem>)
    ensures |r| == |sel|
    ensures forall i :: 0 <= i < |sel| ==> r[i].serviceId == sel[i].serviceId
  {
    seq(|sel|, i requires 0 <= i < |sel| => if sel[i].serviceId == id then Apply(sel[i], ch) else sel[i])
  }

  /** With unique ids the map changes the one matching item and nothing else. */
  lemma UpdatedAt(sel: seq<ServiceItem>, k: nat, ch: Change)
    requires UniqueIds(sel) && k < |sel|
    ensures Updated(sel, sel[k].serviceId, ch) == sel[k := Apply(sel[k], ch)]
  {
    var r := Updated(sel, sel[k].serviceId, ch);
    forall i | 0 <= i < |sel|
      ensures r[i] == sel[k := Apply(sel[k], ch)][i]
    {
      if i != k {
        assert sel[i].serviceId != sel[k].serviceId by {
          if i < k { assert sel[i].serviceId != sel[k].serviceId; } else { assert sel[k].serviceId != sel[i].serviceId; }
        }
      }
    }
  }

  /** A map for an id that is not selected changes nothing. */
  lemma UpdatedUnselected(sel: seq<ServiceItem>, id: string, ch: Change)
    requires !Selected(sel, id)
    ensures Updated(sel, id, ch) == sel
  {
    var r := Updated(sel, id, ch);
    assert forall i :: 0 <= i < |sel| ==> r[i] == sel[i];
  }

  /** addService */
  function AddService(sel: seq<ServiceItem>, s: CatalogService): (r: seq<ServiceItem>)
    ensures Selected(sel, s.id) ==> |r| == |sel|
    ensures !Selected(sel, s.id) ==> r == sel + [ServiceItem(s.id, s.name, 1, s.price, None)]
  {
    if Selected(sel, s.id) then Updated(sel, s.id, IncrementQuantity)
    else sel + [ServiceItem(s.id, s.name, 1, s.price, None)]
  }

  /** Adding a selected service raises that item's quantity by one and changes nothing else. */
  lemma AddExisting(sel: seq<ServiceItem>, s: CatalogService, k: nat)
    requires UniqueIds(sel) && k < |sel| && sel[k].serviceId == s.id
    ensures AddService(sel, s) == sel[k := sel[k].(quantity := sel[k].quantity + 1)]
  {
    UpdatedAt(sel, k, IncrementQuantity);
  }

  /** addService never lets a service appear twice. */
  lemma AddKeepsUnique(sel: seq<ServiceItem>, s: CatalogService)
    requires UniqueIds(sel)
    ensures UniqueIds(AddService(sel, s)) && Selected(AddService(sel, s), s.id)
  {
    var r := AddService(sel, s);
    if Selected(sel, s.id) {
      var k :| 0 <= k < |sel| && sel[k].serviceId == s.id;
      assert r[k].serviceId == s.id;
    } else {
      assert r[|sel|].serviceId == s.id;
    }
  }

  /** A sequence of adds, in order. */
  function AddAll(sel: seq<ServiceItem>, services: seq<CatalogService>): seq<ServiceItem>
    decreases |services|
  {
    if services == [] then sel else AddAll(AddService(sel, services[0]), services[1..])
  }

  /** Any sequence of adds from an empty selection keeps the ids unique and selects every
    * added service. */
  lemma {:induction false} AddAllKeepsUnique(sel: seq<ServiceItem>, services: seq<CatalogService>)
    requires UniqueIds(sel)
    ensures UniqueIds(AddAll(sel, services))
    ensures forall s :: s in services ==> Selected(AddAll(sel, services), s.id)
    decreases |services|
  {
    if services != [] {
      var next := AddService(sel, services[0]);
      AddKeepsUnique(sel, services[0]);
      AddAllKeepsUnique(next, services[1..]);
      AddAllKeepsSelected(next, services[1..], services[0].id);
    }
  }

  lemma {:induction false} AddAllKeepsSelected(sel: seq<ServiceItem>, services: seq<CatalogService>, id: string)
    requires Selected(sel, id)
    ensures Selected(AddAll(sel, services), id)
    decreases |services|
  {
    if services != [] {
      var next := AddService(sel, services[0]);
      var k :| 0 <= k < |sel| && sel[k].serviceId == id;
      assert next[k].serviceId == id;
      AddAllKeepsSelected(next, services[1..], id);
    }
  }

  /** removeService: `filter(s => s.service_id !== id)` */
  function RemoveService(sel: seq<ServiceItem>, id: string): (r: seq<ServiceItem>)
    ensures !Selected(r, id)
    ensures forall x :: x in r <==> x in sel && x.serviceId != id
    ensures |r| <= |sel|
  {
    if sel == [] then []
    else (if sel[0].serviceId != id then [sel[0]] else []) + RemoveService(sel[1..], id)
  }

  lemma SelectedCons(sel: seq<ServiceItem>, id: string)
    requires sel != []
    ensures Selected(sel, id) <==> sel[0].serviceId == id || Selected(sel[1..], id)
  {
    assert forall i :: 0 <= i < |sel[1..]| ==> sel[1..][i] == sel[i + 1];
    if Selected(sel, id) && sel[0].serviceId != id {
      var i :| 0 <= i < |sel| && sel[i].serviceId == id;
      assert sel[1..][i - 1].serviceId == id;
    }
  }

  lemma UniqueTail(sel: seq<ServiceItem>)
    requires sel != [] && UniqueIds(sel)
    ensures UniqueIds(sel[1..]) && !Selected(sel[1..], sel[0].serviceId)
  {
    var tail := sel[1..];
    forall i, j | 0 <= i < j < |tail| ensures tail[i].serviceId != tail[j].serviceId {
      assert tail[i] == sel[i + 1] && tail[j] == sel[j + 1];
    }
    forall i | 0 <= i < |tail| ensures tail[i].serviceId != sel[0].serviceId {
      assert tail[i] == sel[i + 1];
    }
  }

  /** Removing an unselected id changes nothing. */
  lemma {:induction false} RemoveUnselected(sel: seq<ServiceItem>, id: string)
    requires !Selected(sel, id)
    ensures RemoveService(sel, id) == sel
  {
    if sel != [] {
      SelectedCons(sel, id);
      RemoveUnselected(sel[1..], id);
      assert [sel[0]] + sel[1..] == sel;
    }
  }

  /** With unique ids, removing a selected service deletes exactly its item and keeps the
    * others in order. */
  lemma {:induction false} RemoveAt(sel: seq<ServiceItem>, k: nat)
    requires UniqueIds(sel) && k < |sel|
    ensures RemoveService(sel, sel[k].serviceId) == sel[..k] + sel[k + 1..]
  {
    var id := sel[k].serviceId;
    UniqueTail(sel);
    var tail := sel[1..];
    if k == 0 {
      RemoveUnselected(tail, id);
    } else {
      assert sel[0].serviceId != id;
      assert tail[k - 1] == sel[k];
      RemoveAt(tail, k - 1);
      assert RemoveService(sel, id) == [sel[0]] + RemoveService(tail, id);
      assert sel[..k] == [sel[0]] + tail[..k - 1];
      assert sel[k + 1..] == tail[k..];
      Seqs.AppendAssoc([sel[0]], tail[..k - 1], tail[k..]);
    }
  }

  /** updateQuantity: a quantity of zero or less removes the item. */
  function UpdateQuantity(sel: seq<ServiceItem>, id: string, quantity: int): (r: seq<ServiceItem>)
    ensures quantity <= 0 ==> r == RemoveService(sel, id)
    ensures quantity > 0 ==> |r| == |sel|
  {
    if quantity <= 0 then RemoveService(sel, id) else Updated(sel, id, SetQuantity(quantity))
  }

  /** updatePrice */
  function UpdatePrice(sel: seq<ServiceItem>, id: string, price: real): (r: seq<ServiceItem>)
    ensures |r| == |sel|
  {
    Updated(sel, id, SetPrice(price))
  }

  /** A positive quantity or a price edit touches only the matching item's field. */
  lemma EditsTouchOneItem(sel: seq<ServiceItem>, k: nat, quantity: int, price: real)
    requires UniqueIds(sel) && k < |sel| && quantity > 0
    ensures UpdateQuantity(sel, sel[k].serviceId, quantity) == sel[k := sel[k].(quantity := quantity)]
    ensures UpdatePrice(sel, sel[k].serviceId, price) == sel[k := sel[k].(price := price)]
  {
    UpdatedAt(sel, k, SetQuantity(quantity));
    UpdatedAt(sel, k, SetPrice(price));
  }

  /** The edits never create a duplicate. */
  lemma EditsKeepUnique(sel: seq<ServiceItem>, id: string, quantity: int, price: real)
    requires UniqueIds(sel)
    ensures UniqueIds(UpdateQuantity(sel, id, quantity)) && UniqueIds(UpdatePrice(sel, id, price))
    ensures UniqueIds(RemoveService(sel, id))
  {
    RemoveKeepsUnique(sel, id);
  }

  lemma {:induction false} RemoveKeepsUnique(sel: seq<ServiceItem>, id: string)
    requires UniqueIds(sel)
    ensures UniqueIds(RemoveService(sel, id))
  {
    if sel != [] {
      var tail := sel[1..];
      assert UniqueIds(tail) by {
        forall i, j | 0 <= i < j < |tail| ensures tail[i].serviceId != tail[j].serviceId {
          assert tail[i] == sel[i + 1] && tail[j] == sel[j + 1];
        }
      }
      RemoveKeepsUnique(tail, id);
      var rest := RemoveService(tail, id);
      forall x | x in rest ensures x.serviceId != sel[0].serviceId {
        var j :| 0 <= j < |tail| && tail[j] == x;
        assert sel[j + 1] == x;
      }
    }
  }

  function LineTotal(item: ServiceItem): real { item.price * item.quantity as real }

  /** subtotal: `reduce((sum, item) => sum + item.price * item.quantity, 0)` */
  function Subtotal(sel: seq<ServiceItem>): real
  {
    if sel == [] then 0.0 else Subtotal(sel[..|sel| - 1]) + LineTotal(sel[|sel| - 1])
  }

  lemma {:induction false} SubtotalConcat(a: seq<ServiceItem>, b: seq<ServiceItem>)
    ensures Subtotal(a + b) == Subtotal(a) + Subtotal(b)
    decreases |b|
  {
    if b != [] {
      assert (a + b)[..|a + b| - 1] == a + b[..|b| - 1];
      SubtotalConcat(a, b[..|b| - 1]);
    } else {
      assert a + b == a;
    }
  }

  lemma SubtotalSplit(sel: seq<ServiceItem>, k: nat)
    requires k < |sel|
    ensures Subtotal(sel) == Subtotal(sel[..k]) + LineTotal(sel[k]) + Subtotal(sel[k + 1..])
  {
    assert sel == sel[..k] + [sel[k]] + sel[k + 1..];
    SubtotalConcat(sel[..k] + [sel[k]], sel[k + 1..]);
    SubtotalConcat(sel[..k], [sel[k]]);
    assert [sel[k]][..0] == [];
  }

  /** Replacing one item changes the subtotal by the difference of the two line totals. */
  lemma SubtotalReplace(sel: seq<ServiceItem>, k: nat, item: ServiceItem)
    requires k < |sel|
    ensures Subtotal(sel[k := item]) == Subtotal(sel) - LineTotal(sel[k]) + LineTotal(item)
  {
    var t := sel[k := item];
    SubtotalSplit(sel, k);
    SubtotalSplit(t, k);
    assert t[..k] == sel[..k] && t[k + 1..] == sel[k + 1..];
  }

  /** Adding a new service raises the subtotal by its catalogue price. */
  lemma SubtotalAfterAddNew(sel: seq<ServiceItem>, s: CatalogService)
    requires !Selected(sel, s.id)
    ensures Subtotal(AddService(sel, s)) == Subtotal(sel) + s.price
  {
    var item := ServiceItem(s.id, s.name, 1, s.price, None);
    SubtotalConcat(sel, [item]);
    assert [item][..0] == [];
  }

  /** Adding a selected service raises the subtotal by one unit of that item's (possibly
    * edited) price. */
  lemma SubtotalAfterAddExisting(sel: seq<ServiceItem>, s: CatalogService, k: nat)
    requires UniqueIds(sel) && k < |sel| && sel[k].serviceId == s.id
    ensures Subtotal(AddService(sel, s)) == Subtotal(sel) + sel[k].price
  {
    var item := sel[k].(quantity := sel[k].quantity + 1);
    AddExisting(sel, s, k);
    SubtotalReplace(sel, k, item);
    OneMoreUnit(sel[k]);
    var after := Subtotal(sel[k := item]);
    assert after == Subtotal(sel) + sel[k].price by {
      Rebalance(after, Subtotal(sel), LineTotal(sel[k]), LineTotal(item), sel[k].price);
    }
  }

  lemma Rebalance(after: real, before: real, line: real, newLine: real, price: real)
    requires after == before - line + newLine && newLine == line + price
    ensures after == before + price
  {
  }

  lemma OneMoreUnit(item: ServiceItem)
    ensures LineTotal(item.(quantity := item.quantity + 1)) == LineTotal(item) + item.price
  {
    var q := item.quantity as real;
    assert (item.quantity + 1) as real == q + 1.0;
    assert item.price * (q + 1.0) == item.price * q + item.price;
  }

  /** Removing a selected service lowers the subtotal by exactly its line total. */
  lemma SubtotalAfterRemove(sel: seq<ServiceItem>, k: nat)
    requires UniqueIds(sel) && k < |sel|
    ensures Subtotal(RemoveService(sel, sel[k].serviceId)) == Subtotal(sel) - LineTotal(sel[k])
  {
    RemoveAt(sel, k);
    SubtotalSplit(sel, k);
    SubtotalConcat(sel[..k], sel[k + 1..]);
  }
}
