// The vehicle list page (src/pages/crm/Vehicles.tsx): the search over the loaded
// vehicles and the total card. Loading and deleting go through the vehicle service and
// are database I/O.
module Vehicles {
  import opened Wrappers
  import opened Text
  import Seqs

  /** VehicleWithCustomer, the owner's name possibly missing. */
  datatype Vehicle = Vehicle(
    brand: string, model: string, licensePlate: string, customerName: Option<string>)

  /** The lower-cased term in the lower-cased brand, model, plate or owner's name. */
  predicate MatchesSearch(v: Vehicle, term: string)
  {
    || Contains(Lower(v.brand), term)
    || Contains(Lower(v.model), term)
    || Contains(Lower(v.licensePlate), term)
    || (v.customerName.Some? && Contains(Lower(v.customerName.value), term))
  }

  function BySearch(term: string): Vehicle -> bool
  {
    (v: Vehicle) => MatchesSearch(v, term)
  }

  /** filterVehiclesList: the whole list for an empty term, the matching vehicles
    * otherwise. */
  function Filtered(vehicles: seq<Vehicle>, searchTerm: string): (r: seq<Vehicle>)
    ensures searchTerm == "" ==> r == vehicles
    ensures forall v :: v in r <==>
      v in vehicles && (searchTerm != "" ==> MatchesSearch(v, Lower(searchTerm)))
  {
    if searchTerm == "" then vehicles
    else
      var r := Seqs.Filter(vehicles, BySearch(Lower(searchTerm)));
      forall v ensures v in r <==> v in vehicles && MatchesSearch(v, Lower(searchTerm)) {
        Seqs.FilterMem(vehicles, BySearch(Lower(searchTerm)), v);
      }
      r
  }

  /** The shown vehicles keep the order of the loaded list. */
  lemma FilteredIsSubsequence(vehicles: seq<Vehicle>, searchTerm: string)
    ensures Seqs.IsSubseq(Filtered(vehicles, searchTerm), vehicles)
  {
    if searchTerm == "" {
      Seqs.IsSubseqRefl(vehicles);
    } else {
      Seqs.FilterIsSubseq(vehicles, BySearch(Lower(searchTerm)));
    }
  }

  /** Searching the shown list again with the same term changes nothing. */
  lemma FilteredIdempotent(vehicles: seq<Vehicle>, searchTerm: string)
    ensures Filtered(Filtered(vehicles, searchTerm), searchTerm) == Filtered(vehicles, searchTerm)
  {
    if searchTerm != "" {
      Seqs.FilterIdempotent(vehicles, BySearch(Lower(searchTerm)));
    }
  }

  /** The search ignores case: a term and its lower-cased form show the same vehicles. */
  lemma SearchIgnoresCase(vehicles: seq<Vehicle>, searchTerm: string)
    requires searchTerm != ""
    ensures Filtered(vehicles, Lower(searchTerm)) == Filtered(vehicles, searchTerm)
  {
    LowerIdempotent(searchTerm);
  }

  /** The total card counts the loaded list, whatever the search. */
  function TotalVehicles(vehicles: seq<Vehicle>): nat
  {
    |vehicles|
  }

  lemma TotalAtLeastShown(vehicles: seq<Vehicle>, searchTerm: string)
    ensures |Filtered(vehicles, searchTerm)| <= TotalVehicles(vehicles)
    ensures TotalVehicles(vehicles) == |Filtered(vehicles, "")|
  {
  }
}
