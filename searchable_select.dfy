// The searchable drop-down (src/components/ui/SearchableSelect.tsx): the option
// filter, the selected option, and the two handlers that report a value through
// `onChange` (returned here) and reset the component's own state. Focus and the
// click-outside listener are left out.
module SearchableSelect {
  import opened Wrappers
  import opened Text
  import Seqs

  datatype SelectOption = SelectOption(value: string, optionLabel: string, subLabel: Option<string>, disabled: bool)

  /** The filter's test. An empty subLabel is falsy and is not searched. */
  predicate MatchesSearch(o: SelectOption, term: string)
  {
    Contains(Lower(o.optionLabel), Lower(term))
    || (o.subLabel.Some? && o.subLabel.value != "" && Contains(Lower(o.subLabel.value), Lower(term)))
  }

  /** filteredOptions */
  function FilterOptions(options: seq<SelectOption>, term: string): (r: seq<SelectOption>)
    ensures forall o :: o in r <==> o in options && MatchesSearch(o, term)
    ensures |r| <= |options|
  {
    if options == [] then []
    else (if MatchesSearch(options[0], term) then [options[0]] else []) + FilterOptions(options[1..], term)
  }

  /** The filter keeps the options' order: what it keeps is a subsequence of the options. */
  lemma {:induction false} FilterKeepsOrder(options: seq<SelectOption>, term: string)
    ensures Seqs.IsSubseq(FilterOptions(options, term), options)
  {
    if options != [] {
      var rest := FilterOptions(options[1..], term);
      FilterKeepsOrder(options[1..], term);
      if MatchesSearch(options[0], term) {
        assert FilterOptions(options, term) == [options[0]] + rest;
        assert FilterOptions(options, term)[1..] == rest;
      } else {
        assert FilterOptions(options, term) == rest;
        Seqs.IsSubseqCons(rest, options[1..], options[0]);
        assert [options[0]] + options[1..] == options;
      }
    }
  }

  /** An empty search shows every option. */
  lemma {:induction false} EmptySearchShowsAll(options: seq<SelectOption>)
    ensures FilterOptions(options, "") == options
  {
    if options != [] {
      ContainsEmpty(Lower(options[0].optionLabel));
      EmptySearchShowsAll(options[1..]);
    }
  }

  /** selectedOption: `options.find(opt => opt.value === value)` */
  function SelectedOption(options: seq<SelectOption>, value: string): (r: Option<SelectOption>)
    ensures r.None? <==> forall i :: 0 <= i < |options| ==> options[i].value != value
    ensures r.Some? ==> r.value in options && r.value.value == value
  {
    if options == [] then None
    else if options[0].value == value then Some(options[0])
    else SelectedOption(options[1..], value)
  }

  /** Of several options with the value, the first one is the selected one. */
  lemma {:induction false} SelectedIsFirst(options: seq<SelectOption>, value: string, k: nat)
    requires k < |options| && options[k].value == value
    requires forall i :: 0 <= i < k ==> options[i].value != value
    ensures SelectedOption(options, value) == Some(options[k])
  {
    if k > 0 {
      assert options[1..][k - 1] == options[k];
      SelectedIsFirst(options[1..], value, k - 1);
    }
  }

  class Select {
    var isOpen: bool
    var searchTerm: string

    constructor ()
      ensures !isOpen && searchTerm == ""
    {
      isOpen := false;
      searchTerm := "";
    }

    /** handleSelect: reports the chosen value, closes the list and clears the search. */
    method HandleSelect(optionValue: string) returns (emitted: string)
      modifies this
      ensures emitted == optionValue && !isOpen && searchTerm == ""
    {
      emitted := optionValue;
      isOpen := false;
      searchTerm := "";
    }

    /** handleClear: reports '' and clears the search; the list stays as it was. */
    method HandleClear() returns (emitted: string)
      modifies this
      ensures emitted == "" && searchTerm == "" && isOpen == old(isOpen)
    {
      emitted := "";
      searchTerm := "";
    }

    /** After either handler the whole list is shown again. */
    function Visible(options: seq<SelectOption>): (r: seq<SelectOption>)
      reads this
      ensures searchTerm == "" ==> r == options
    {
      EmptySearchShowsAll(options);
      FilterOptions(options, searchTerm)
    }
  }
}
