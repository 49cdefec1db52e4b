/** The search box and filter selects of the admin front end
    (healthcare_backend/healthcare-frontend/src/components/common/SearchFilter.js).
    The component's state is the search term and the map of active
    filters; the `onSearch` and `onFilter` callbacks are modelled by the
    values the methods hand to them, returned as out-parameters. A select
    hands over its option's value, a string, so a falsy filter value is
    the empty string. */
module SearchFilter {

  /** `activeFilters` with every empty value dropped: what the `forEach`
      over the keys leaves. */
  function Pruned(filters: map<string, string>): map<string, string> {
    map k | k in filters && filters[k] != "" :: filters[k]
  }

  /** No active filter is empty. */
  predicate NoEmpty(filters: map<string, string>) {
    forall k :: k in filters ==> filters[k] != ""
  }

  /** Setting `key` to `value` and pruning: the result has no empty value;
      `key` is dropped when `value` is empty and set otherwise; every other
      non-empty filter keeps its value. */
  lemma SetAndPrune(filters: map<string, string>, key: string, value: string)
    ensures NoEmpty(Pruned(filters[key := value]))
    ensures value == "" ==> key !in Pruned(filters[key := value])
    ensures value != "" ==> key in Pruned(filters[key := value]) && Pruned(filters[key := value])[key] == value
    ensures forall k :: k != key ==>
              (k in Pruned(filters[key := value]) <==> k in filters && filters[k] != "")
    ensures forall k :: k != key && k in Pruned(filters[key := value]) ==> Pruned(filters[key := value])[k] == filters[k]
  {
  }

  /** Pruning a map without empty values changes nothing. */
  lemma PrunedNoEmpty(filters: map<string, string>)
    requires NoEmpty(filters)
    ensures Pruned(filters) == filters
  {
  }

  class Widget {
    var searchTerm: string
    var activeFilters: map<string, string>

    constructor ()
      ensures searchTerm == "" && activeFilters == map[]
    {
      searchTerm := "";
      activeFilters := map[];
    }

    /** `hasActiveFilters`: some filter is set or the term is non-empty. */
    predicate HasActiveFilters()
      reads this
    {
      |activeFilters| > 0 || searchTerm != ""
    }

    /** `handleSearchChange`: stores the term and forwards it unchanged. */
    method HandleSearchChange(value: string) returns (searched: string)
      modifies this`searchTerm
      ensures searchTerm == value && searched == value
    {
      searchTerm := value;
      searched := value;
    }

    /** `handleFilterChange`: merges the new value into a copy of the
        filters, deletes every key whose value is empty, stores the copy and
        hands that same map to `onFilter`. */
    method HandleFilterChange(filterKey: string, value: string) returns (filtered: map<string, string>)
      modifies this`activeFilters
      ensures activeFilters == Pruned(old(activeFilters)[filterKey := value])
      ensures NoEmpty(activeFilters)
      ensures filtered == activeFilters
    {
      var merged := activeFilters[filterKey := value];
      var newFilters := merged;
      var pending := merged.Keys;
      while pending != {}
        invariant pending <= merged.Keys
        invariant newFilters.Keys <= merged.Keys
        invariant forall k :: k in pending ==> k in newFilters && newFilters[k] == merged[k]
        invariant forall k :: k in merged.Keys - pending ==> (k in newFilters <==> merged[k] != "")
        invariant forall k :: k in newFilters ==> newFilters[k] == merged[k]
        decreases pending
      {
        var key :| key in pending;
        if newFilters[key] == "" {
          newFilters := newFilters - {key};
        }
        pending := pending - {key};
      }
      assert newFilters == Pruned(merged);
      activeFilters := newFilters;
      filtered := newFilters;
    }

    /** `clearFilters`: empties the term and the filters and hands '' and
        the empty map to the two callbacks. */
    method ClearFilters() returns (searched: string, filtered: map<string, string>)
      modifies this`searchTerm, this`activeFilters
      ensures activeFilters == map[] && searchTerm == ""
      ensures !HasActiveFilters()
      ensures searched == "" && filtered == map[]
    {
      activeFilters := map[];
      searchTerm := "";
      searched := "";
      filtered := map[];
    }

    /** The '×' of the search chip: clears the local term only; `onSearch`
        is not called, so it hands nothing over. */
    method RemoveSearchChip()
      modifies this`searchTerm
      ensures searchTerm == "" && activeFilters == old(activeFilters)
    {
      searchTerm := "";
    }

    /** The '×' of a filter chip: `handleFilterChange(key, '')`. */
    method RemoveFilterChip(key: string) returns (filtered: map<string, string>)
      modifies this`activeFilters
      ensures activeFilters == Pruned(old(activeFilters)[key := ""])
      ensures key !in activeFilters
      ensures forall k :: k != key ==> (k in activeFilters <==> k in old(activeFilters) && old(activeFilters)[k] != "")
      ensures forall k :: k in activeFilters ==> activeFilters[k] == old(activeFilters)[k]
      ensures filtered == activeFilters
    {
      filtered := HandleFilterChange(key, "");
      SetAndPrune(old(activeFilters), key, "");
    }
  }
}
