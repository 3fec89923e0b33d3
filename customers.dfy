// The customer list page (src/pages/crm/Customers.tsx): the page state that
// filterCustomersList narrows step by step (search, type, VIP), the load of the list and
// the statistics cards. Deleting a customer and its vehicles is database I/O.
module Customers {
  import opened Wrappers
  import opened Text
  import Seqs

  /** The fields of a customer the page reads. */
  datatype Customer = Customer(
    name: string, email: Option<string>, phone: Option<string>, cpf: Option<string>,
    customerType: string, vip: bool)

  /** The search: the lower-cased term in the lower-cased name or e-mail, or in the phone or
    * CPF exactly as stored. */
  predicate MatchesSearch(c: Customer, term: string)
  {
    || Contains(Lower(c.name), term)
    || (c.email.Some? && Contains(Lower(c.email.value), term))
    || (c.phone.Some? && Contains(c.phone.value, term))
    || (c.cpf.Some? && Contains(c.cpf.value, term))
  }

  function BySearch(term: string): Customer -> bool
  {
    (c: Customer) => MatchesSearch(c, term)
  }

  function ByType(filterType: string): Customer -> bool
  {
    (c: Customer) => c.customerType == filterType
  }

  function ByVip(vip: bool): Customer -> bool
  {
    (c: Customer) => c.vip == vip
  }

  /** The filter inputs; a VIP filter of None (null) is off. */
  datatype CustomerQuery = CustomerQuery(searchTerm: string, filterType: string, filterVip: Option<bool>)

  predicate PassesSearch(searchTerm: string, c: Customer)
  {
    searchTerm != "" ==> MatchesSearch(c, Lower(searchTerm))
  }

  predicate PassesType(filterType: string, c: Customer)
  {
    filterType != "all" ==> c.customerType == filterType
  }

  predicate PassesVip(filterVip: Option<bool>, c: Customer)
  {
    filterVip.Some? ==> c.vip == filterVip.value
  }

  /** Whether one customer is shown. */
  predicate Keeps(q: CustomerQuery, c: Customer)
  {
    PassesSearch(q.searchTerm, c) && PassesType(q.filterType, c) && PassesVip(q.filterVip, c)
  }

  function SearchStep(cs: seq<Customer>, searchTerm: string): seq<Customer>
  {
    if searchTerm != "" then Seqs.Filter(cs, BySearch(Lower(searchTerm))) else cs
  }

  function TypeStep(cs: seq<Customer>, filterType: string): seq<Customer>
  {
    if filterType != "all" then Seqs.Filter(cs, ByType(filterType)) else cs
  }

  function VipStep(cs: seq<Customer>, filterVip: Option<bool>): seq<Customer>
  {
    if filterVip.Some? then Seqs.Filter(cs, ByVip(filterVip.value)) else cs
  }

  /** The list filterCustomersList stores. */
  function Filtered(cs: seq<Customer>, q: CustomerQuery): seq<Customer>
  {
    VipStep(TypeStep(SearchStep(cs, q.searchTerm), q.filterType), q.filterVip)
  }

  lemma SearchStepFilters(cs: seq<Customer>, searchTerm: string)
    ensures SearchStep(cs, searchTerm) == Seqs.Filter(cs, (c: Customer) => PassesSearch(searchTerm, c))
  {
    if searchTerm != "" {
      Seqs.FilterExt(cs, BySearch(Lower(searchTerm)), (c: Customer) => PassesSearch(searchTerm, c));
    } else {
      Seqs.FilterAll(cs, (c: Customer) => PassesSearch(searchTerm, c));
    }
  }

  lemma TypeStepFilters(cs: seq<Customer>, filterType: string)
    ensures TypeStep(cs, filterType) == Seqs.Filter(cs, (c: Customer) => PassesType(filterType, c))
  {
    if filterType != "all" {
      Seqs.FilterExt(cs, ByType(filterType), (c: Customer) => PassesType(filterType, c));
    } else {
      Seqs.FilterAll(cs, (c: Customer) => PassesType(filterType, c));
    }
  }

  lemma VipStepFilters(cs: seq<Customer>, filterVip: Option<bool>)
    ensures VipStep(cs, filterVip) == Seqs.Filter(cs, (c: Customer) => PassesVip(filterVip, c))
  {
    if filterVip.Some? {
      Seqs.FilterExt(cs, ByVip(filterVip.value), (c: Customer) => PassesVip(filterVip, c));
    } else {
      Seqs.FilterAll(cs, (c: Customer) => PassesVip(filterVip, c));
    }
  }

  /** The three successive filters are one filter by Keeps. */
  lemma {:induction false} FilteredIsOneFilter(cs: seq<Customer>, q: CustomerQuery)
    ensures Filtered(cs, q) == Seqs.Filter(cs, (c: Customer) => Keeps(q, c))
  {
    var ps := (c: Customer) => PassesSearch(q.searchTerm, c);
    var pt := (c: Customer) => PassesType(q.filterType, c);
    var pv := (c: Customer) => PassesVip(q.filterVip, c);
    var both := (c: Customer) => PassesSearch(q.searchTerm, c) && PassesType(q.filterType, c);
    SearchStepFilters(cs, q.searchTerm);
    TypeStepFilters(SearchStep(cs, q.searchTerm), q.filterType);
    Seqs.FilterFilter(cs, ps, pt, both);
    VipStepFilters(TypeStep(SearchStep(cs, q.searchTerm), q.filterType), q.filterVip);
    Seqs.FilterFilter(cs, both, pv, (c: Customer) => Keeps(q, c));
  }

  /** A customer is shown exactly when it is loaded and passes every filter that is on. */
  lemma FilteredMembers(cs: seq<Customer>, q: CustomerQuery, c: Customer)
    ensures c in Filtered(cs, q) <==> c in cs && Keeps(q, c)
  {
    FilteredIsOneFilter(cs, q);
    Seqs.FilterMem(cs, (c: Customer) => Keeps(q, c), c);
  }

  /** The shown customers keep the order of the loaded list. */
  lemma FilteredIsSubsequence(cs: seq<Customer>, q: CustomerQuery)
    ensures Seqs.IsSubseq(Filtered(cs, q), cs)
  {
    FilteredIsOneFilter(cs, q);
    Seqs.FilterIsSubseq(cs, (c: Customer) => Keeps(q, c));
  }

  /** With no search, type 'all' and the VIP filter null the whole list is shown. */
  lemma NoFilterShowsAll(cs: seq<Customer>)
    ensures Filtered(cs, CustomerQuery("", "all", None)) == cs
  {
  }

  /** The phone is matched as stored: a customer whose stored phone contains the term is
    * found by it, whatever the name and e-mail. */
  lemma PhoneMatchedRaw(c: Customer, term: string)
    requires c.phone.Some? && Contains(c.phone.value, Lower(term)) && term != ""
    ensures c in Filtered([c], CustomerQuery(term, "all", None))
  {
    FilteredMembers([c], CustomerQuery(term, "all", None), c);
  }

  /** The statistics cards: all loaded customers, the VIPs and the corporate ones; they do
    * not depend on the filters. */
  datatype Stats = Stats(total: nat, vip: nat, corporate: nat)

  function StatsOf(cs: seq<Customer>): (s: Stats)
    ensures s.vip <= s.total && s.corporate <= s.total
  {
    Stats(|cs|, |Seqs.Filter(cs, ByVip(true))|, |Seqs.Filter(cs, ByType("corporate"))|)
  }

  /** The VIP card equals the length of the list the VIP filter alone shows, and the
    * corporate card that of the list the 'corporate' type filter alone shows. */
  lemma StatsMatchFilters(cs: seq<Customer>)
    ensures StatsOf(cs).vip == |Filtered(cs, CustomerQuery("", "all", Some(true)))|
    ensures StatsOf(cs).corporate == |Filtered(cs, CustomerQuery("", "corporate", None))|
  {
  }

  class Page {
    var customers: seq<Customer>
    var filteredCustomers: seq<Customer>
    var loading: bool
    var searchTerm: string
    var filterType: string
    var filterVip: Option<bool>

    constructor ()
      ensures customers == [] && filteredCustomers == [] && loading
      ensures searchTerm == "" && filterType == "all" && filterVip == None
    {
      customers := [];
      filteredCustomers := [];
      loading := true;
      searchTerm := "";
      filterType := "all";
      filterVip := None;
    }

    function CurrentQuery(): CustomerQuery
      reads this
    {
      CustomerQuery(searchTerm, filterType, filterVip)
    }

    /** filterCustomersList: narrows a copy of the list filter by filter and stores it. */
    method FilterCustomersList()
      modifies this
      ensures filteredCustomers == Filtered(customers, CurrentQuery())
      ensures customers == old(customers) && loading == old(loading)
      ensures searchTerm == old(searchTerm) && filterType == old(filterType)
      ensures filterVip == old(filterVip)
    {
      var filtered := customers;
      if searchTerm != "" {
        var term := Lower(searchTerm);
        filtered := Seqs.Filter(filtered, BySearch(term));
      }
      if filterType != "all" {
        filtered := Seqs.Filter(filtered, ByType(filterType));
      }
      if filterVip.Some? {
        filtered := Seqs.Filter(filtered, ByVip(filterVip.value));
      }
      filteredCustomers := filtered;
    }

    /** loadCustomers: an error leaves the list as it was, a null answer is the empty list;
      * loading ends either way. */
    method LoadCustomers(answer: Result<Option<seq<Customer>>>)
      modifies this
      ensures !loading
      ensures answer.Err? ==> customers == old(customers)
      ensures answer.Ok? ==> customers == answer.value.GetOr([])
      ensures filteredCustomers == old(filteredCustomers) && searchTerm == old(searchTerm)
      ensures filterType == old(filterType) && filterVip == old(filterVip)
    {
      loading := true;
      if answer.Ok? {
        customers := answer.value.GetOr([]);
      }
      loading := false;
    }
  }
}
