/** The list-state store shared by the data tables: search text, the
    debounced search text, a filter record, the current page, the filter
    drawer flag and the "searching" overlay flag, with its eight transitions.
    Each transition is a pure function from the old state to the new one. */
module DataTableStore {
  import opened Wrappers
  import opened Records

  datatype TableState = TableState(
    searchTerm: string,
    debouncedSearch: string,
    filters: Entries,
    page: int,
    showFilters: bool,
    isSearching: bool)

  /** The state the store is created with. */
  const Initial := TableState("", "", [], 1, false, false)

  /** Every field that `reset` restores holds its initial value. */
  predicate IsReset(s: TableState) {
    && s.searchTerm == Initial.searchTerm
    && s.filters == Initial.filters
    && s.page == Initial.page
    && s.showFilters == Initial.showFilters
    && s.isSearching == Initial.isSearching
  }

  function SetSearchTerm(s: TableState, value: string): (r: TableState)
    ensures r.searchTerm == value && r.isSearching
    ensures r.debouncedSearch == s.debouncedSearch && r.filters == s.filters
    ensures r.page == s.page && r.showFilters == s.showFilters
  {
    s.(searchTerm := value, isSearching := true)
  }

  function SetDebouncedSearch(s: TableState, value: string): (r: TableState)
    ensures r.debouncedSearch == value
    ensures r.searchTerm == s.searchTerm && r.filters == s.filters && r.page == s.page
    ensures r.showFilters == s.showFilters && r.isSearching == s.isSearching
  {
    s.(debouncedSearch := value)
  }

  /** Upsert of one filter; an empty value is stored like any other. */
  function SetFilter(s: TableState, key: string, value: string): (r: TableState)
    ensures Get(r.filters, key) == Some(value)
    ensures forall k :: k != key ==> Get(r.filters, k) == Get(s.filters, k)
    ensures KeySet(r.filters) == KeySet(s.filters) + {key}
    ensures r.isSearching
    ensures r.searchTerm == s.searchTerm && r.debouncedSearch == s.debouncedSearch
    ensures r.page == s.page && r.showFilters == s.showFilters
  {
    s.(filters := Put(s.filters, key, value), isSearching := true)
  }

  function ClearFilters(s: TableState): (r: TableState)
    ensures KeySet(r.filters) == {}
    ensures r.isSearching
    ensures r.searchTerm == s.searchTerm && r.debouncedSearch == s.debouncedSearch
    ensures r.page == s.page && r.showFilters == s.showFilters
  {
    s.(filters := [], isSearching := true)
  }

  /** The page is stored as given: no clamping, zero and negatives included. */
  function SetPage(s: TableState, page: int): (r: TableState)
    ensures r.page == page
    ensures r.searchTerm == s.searchTerm && r.debouncedSearch == s.debouncedSearch
    ensures r.filters == s.filters && r.showFilters == s.showFilters
    ensures r.isSearching == s.isSearching
  {
    s.(page := page)
  }

  function ToggleFilters(s: TableState): (r: TableState)
    ensures r.showFilters != s.showFilters
    ensures r.searchTerm == s.searchTerm && r.debouncedSearch == s.debouncedSearch
    ensures r.filters == s.filters && r.page == s.page && r.isSearching == s.isSearching
  {
    s.(showFilters := !s.showFilters)
  }

  function SetIsSearching(s: TableState, value: bool): (r: TableState)
    ensures r.isSearching == value
    ensures r.searchTerm == s.searchTerm && r.debouncedSearch == s.debouncedSearch
    ensures r.filters == s.filters && r.page == s.page && r.showFilters == s.showFilters
  {
    s.(isSearching := value)
  }

  /** Restores every field except the debounced search text. */
  function Reset(s: TableState): (r: TableState)
    ensures IsReset(r)
    ensures r.debouncedSearch == s.debouncedSearch
  {
    s.(searchTerm := "", filters := [], page := 1, showFilters := false, isSearching := false)
  }

  /** Two upserts of one key leave the state a single upsert of the last value
      would. */
  lemma SetFilterTwice(s: TableState, key: string, v1: string, v2: string)
    ensures SetFilter(SetFilter(s, key, v1), key, v2) == SetFilter(s, key, v2)
  {
    PutPut(s.filters, key, v1, v2);
  }

  /** The filter record of every state stays a proper object: one entry per key. */
  lemma SetFilterKeepsKeysUnique(s: TableState, key: string, value: string)
    requires UniqueKeys(s.filters)
    ensures UniqueKeys(SetFilter(s, key, value).filters)
  {
    PutUnique(s.filters, key, value);
  }

  lemma ToggleTwice(s: TableState)
    ensures ToggleFilters(ToggleFilters(s)) == s
  {
  }

  lemma ResetIdempotent(s: TableState)
    ensures Reset(Reset(s)) == Reset(s)
  {
  }

  /** One call on the store, as the table and its controls issue them. */
  datatype Action =
    | SearchTermSet(value: string)
    | DebouncedSearchSet(value: string)
    | FilterSet(key: string, value: string)
    | FiltersCleared
    | PageSet(page: int)
    | FiltersToggled
    | SearchingSet(flag: bool)
    | ResetCalled

  /** One call: only the debounced-search setter touches the debounced text,
      and only reset and the page setter touch the page. */
  function Step(s: TableState, a: Action): (r: TableState)
    ensures r.debouncedSearch == if a.DebouncedSearchSet? then a.value else s.debouncedSearch
    ensures r.page == if a.PageSet? then a.page else if a.ResetCalled? then 1 else s.page
  {
    match a
    case SearchTermSet(v) => SetSearchTerm(s, v)
    case DebouncedSearchSet(v) => SetDebouncedSearch(s, v)
    case FilterSet(k, v) => SetFilter(s, k, v)
    case FiltersCleared => ClearFilters(s)
    case PageSet(p) => SetPage(s, p)
    case FiltersToggled => ToggleFilters(s)
    case SearchingSet(b) => SetIsSearching(s, b)
    case ResetCalled => Reset(s)
  }

  function Run(s: TableState, actions: seq<Action>): TableState
    decreases |actions|
  {
    if actions == [] then s else Run(Step(s, actions[0]), actions[1..])
  }

  lemma {:induction false} RunAppend(s: TableState, actions: seq<Action>, a: Action)
    ensures Run(s, actions + [a]) == Step(Run(s, actions), a)
    decreases |actions|
  {
    if actions != [] {
      assert (actions + [a])[1..] == actions[1..] + [a];
      RunAppend(Step(s, actions[0]), actions[1..], a);
    }
  }

  /** Only `setDebouncedSearch` moves the debounced text; `reset` leaves it. */
  lemma {:induction false} DebouncedOnlyBySetter(s: TableState, actions: seq<Action>)
    requires forall i :: 0 <= i < |actions| ==> !actions[i].DebouncedSearchSet?
    ensures Run(s, actions).debouncedSearch == s.debouncedSearch
    decreases |actions|
  {
    if actions != [] {
      DebouncedOnlyBySetter(Step(s, actions[0]), actions[1..]);
    }
  }

  /** Whatever sequence of calls came before, a final `reset` returns a fresh
      store to exactly its initial state, provided the debounced text was never
      set. */
  lemma ResetRestoresInitial(actions: seq<Action>)
    requires forall i :: 0 <= i < |actions| ==> !actions[i].DebouncedSearchSet?
    ensures Run(Initial, actions + [ResetCalled]) == Initial
  {
    RunAppend(Initial, actions, ResetCalled);
    DebouncedOnlyBySetter(Initial, actions);
  }

  /** Every reachable state has a filter record with one entry per key. */
  lemma {:induction false} RunKeepsKeysUnique(s: TableState, actions: seq<Action>)
    requires UniqueKeys(s.filters)
    ensures UniqueKeys(Run(s, actions).filters)
    decreases |actions|
  {
    if actions != [] {
      if actions[0].FilterSet? {
        PutUnique(s.filters, actions[0].key, actions[0].value);
      }
      RunKeepsKeysUnique(Step(s, actions[0]), actions[1..]);
    }
  }
}
