/** The global UI store: theme, current view, filters, sort and flags. */
module AppStore {
  import opened Types

  const DefaultFilters: FilterState := FilterState("", AnyPriority, AnyStatus, AnyCategory)

  /** `Partial<FilterState>`: `None` leaves a field out. */
  datatype FilterPatch = FilterPatch(
    search: Option<string>,
    priority: Option<PriorityFilter>,
    status: Option<StatusFilter>,
    category: Option<CategoryFilter>)

  const EmptyPatch: FilterPatch := FilterPatch(None, None, None, None)

  /** `{ ...filters, ...patch }`. */
  function MergeFilters(f: FilterState, p: FilterPatch): FilterState {
    FilterState(
      if p.search.Some? then p.search.value else f.search,
      if p.priority.Some? then p.priority.value else f.priority,
      if p.status.Some? then p.status.value else f.status,
      if p.category.Some? then p.category.value else f.category)
  }

  /** `{ ...p, ...q }`. */
  function ComposePatches(p: FilterPatch, q: FilterPatch): FilterPatch {
    FilterPatch(
      if q.search.Some? then q.search else p.search,
      if q.priority.Some? then q.priority else p.priority,
      if q.status.Some? then q.status else p.status,
      if q.category.Some? then q.category else p.category)
  }

  /** The whole state as a patch. */
  function AsPatch(f: FilterState): FilterPatch {
    FilterPatch(Some(f.search), Some(f.priority), Some(f.status), Some(f.category))
  }

  /** An empty patch changes nothing; two merges are one merge of the
      composed patch; a full patch replaces the state. */
  lemma MergeLaws(f: FilterState, p: FilterPatch, q: FilterPatch, g: FilterState)
    ensures MergeFilters(f, EmptyPatch) == f
    ensures MergeFilters(MergeFilters(f, p), q) == MergeFilters(f, ComposePatches(p, q))
    ensures MergeFilters(f, AsPatch(g)) == g
    ensures MergeFilters(MergeFilters(f, p), p) == MergeFilters(f, p)
  {
  }

  /** A snapshot of every field of the store. */
  datatype AppState = AppState(
    theme: Theme,
    selectedCity: Option<string>,
    selectedCategory: Option<Category>,
    filters: FilterState,
    sortBy: SortType,
    isAdminMode: bool,
    isLoading: bool,
    isOffline: bool)

  const InitialState: AppState := AppState(Auto, None, None, DefaultFilters, Manual, false, false, false)

  class Store {
    var theme: Theme
    var selectedCity: Option<string>
    var selectedCategory: Option<Category>
    var filters: FilterState
    var sortBy: SortType
    var isAdminMode: bool
    var isLoading: bool
    var isOffline: bool

    function State(): AppState
      reads this
    {
      AppState(theme, selectedCity, selectedCategory, filters, sortBy, isAdminMode, isLoading, isOffline)
    }

    constructor ()
      ensures State() == InitialState
    {
      theme := Auto;
      selectedCity := None;
      selectedCategory := None;
      filters := DefaultFilters;
      sortBy := Manual;
      isAdminMode := false;
      isLoading := false;
      isOffline := false;
    }

    method SetTheme(t: Theme)
      modifies this
      ensures State() == old(State()).(theme := t)
    {
      theme := t;
    }

    method SetSelectedCity(city: Option<string>)
      modifies this
      ensures State() == old(State()).(selectedCity := city)
    {
      selectedCity := city;
    }

    method SetSelectedCategory(category: Option<Category>)
      modifies this
      ensures State() == old(State()).(selectedCategory := category)
    {
      selectedCategory := category;
    }

    /** setFilters: merge the supplied fields into the filters. */
    method SetFilters(p: FilterPatch)
      modifies this
      ensures State() == old(State()).(filters := MergeFilters(old(filters), p))
      ensures p.search.None? ==> filters.search == old(filters.search)
      ensures p.priority.None? ==> filters.priority == old(filters.priority)
      ensures p.status.None? ==> filters.status == old(filters.status)
      ensures p.category.None? ==> filters.category == old(filters.category)
    {
      filters := MergeFilters(filters, p);
    }

    /** resetFilters: back to the default filters from any state. */
    method ResetFilters()
      modifies this
      ensures State() == old(State()).(filters := DefaultFilters)
    {
      filters := DefaultFilters;
    }

    method SetSortBy(s: SortType)
      modifies this
      ensures State() == old(State()).(sortBy := s)
    {
      sortBy := s;
    }

    method SetAdminMode(b: bool)
      modifies this
      ensures State() == old(State()).(isAdminMode := b)
    {
      isAdminMode := b;
    }

    method SetLoading(b: bool)
      modifies this
      ensures State() == old(State()).(isLoading := b)
    {
      isLoading := b;
    }

    method SetOffline(b: bool)
      modifies this
      ensures State() == old(State()).(isOffline := b)
    {
      isOffline := b;
    }
  }

  /** Resetting twice is resetting once, and an empty setFilters changes
      nothing. */
  method ResetIdempotent(s: Store, p: FilterPatch)
    modifies s
    ensures s.State() == old(s.State()).(filters := DefaultFilters)
  {
    s.ResetFilters();
    ghost var once := s.State();
    s.ResetFilters();
    assert s.State() == once;
    s.SetFilters(EmptyPatch);
    MergeLaws(s.filters, EmptyPatch, EmptyPatch, s.filters);
  }
}
