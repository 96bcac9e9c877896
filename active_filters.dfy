/** The strip of removable chips naming the active filters. */
module ActiveFilters {
  import opened Types
  import opened FilterSortPanel

  /** hasActiveFilters. */
  predicate HasActiveFilters(sortBy: SortType, priority: PriorityFilter, status: StatusFilter, search: string) {
    sortBy != Manual || priority != AnyPriority || status != AnyStatus || search != ""
  }

  /** The strip is hidden exactly when the panel counts no active filter. */
  lemma HiddenIffCountZero(sortBy: SortType, priority: PriorityFilter, status: StatusFilter, search: string)
    ensures !HasActiveFilters(sortBy, priority, status, search) <==>
      ActiveFiltersCount(sortBy, priority, status, search) == 0
  {
    CountZeroIffDefaults(sortBy, priority, status, search);
  }

  /** getSortLabel: the three labelled orders; manual and 'status' have none. */
  function SortLabel(s: SortType): (r: Option<string>)
    ensures r.None? <==> s == Manual || s == ByStatus
  {
    match s
    case ByName => Some("Sort: A-Z")
    case ByRating => Some("Sort: Rating")
    case ByPriority => Some("Sort: Priority")
    case _ => None
  }

  /** getPriorityLabel: must and optional; 'all' and `null` have none. */
  function PriorityLabel(p: PriorityFilter): (r: Option<string>)
    ensures r.Some? <==> p.PriorityIs? && p.priority.Some?
  {
    match p
    case PriorityIs(Some(Must)) => Some("\U{2B50} Must")
    case PriorityIs(Some(Optional)) => Some("\U{1F4A1} Optional")
    case _ => None
  }

  /** getStatusLabel: 'Pending', 'Completed' for any completed status, none
      for 'all'. */
  function StatusLabel(s: StatusFilter): (r: Option<string>)
    ensures r.None? <==> s == AnyStatus
    ensures s.StatusIs? && IsCompleted(s.status) ==> r == Some("Completed")
    ensures s == StatusIs(Pending) ==> r == Some("Pending")
  {
    if s == StatusIs(Pending) then Some("Pending")
    else if s.StatusIs? && IsCompleted(s.status) then Some("Completed")
    else None
  }

  datatype Chip = SearchChip(query: string) | SortChip(text: string) | PriorityChip(text: string) | StatusChip(text: string)

  /** The chips, in display order: each filter off its default and with a
      label gets one. `None` is the hidden strip. */
  function Chips(sortBy: SortType, priority: PriorityFilter, status: StatusFilter, search: string): Option<seq<Chip>> {
    if !HasActiveFilters(sortBy, priority, status, search) then None
    else Some(
      (if search != "" then [SearchChip(search)] else []) +
      (if sortBy != Manual && SortLabel(sortBy).Some? then [SortChip(SortLabel(sortBy).value)] else []) +
      (if priority != AnyPriority && PriorityLabel(priority).Some? then [PriorityChip(PriorityLabel(priority).value)] else []) +
      (if status != AnyStatus && StatusLabel(status).Some? then [StatusChip(StatusLabel(status).value)] else []))
  }

  /** One chip per counted filter, except the two non-default values without
      a label (the 'status' sort and the `null` priority), which are counted
      but get no chip, so the strip can show no chip at all. */
  lemma ChipsMatchCount(sortBy: SortType, priority: PriorityFilter, status: StatusFilter, search: string)
    ensures var chips := Chips(sortBy, priority, status, search);
      var unlabelled := (if sortBy == ByStatus then 1 else 0) + (if priority == PriorityIs(None) then 1 else 0);
      && (chips.None? <==> ActiveFiltersCount(sortBy, priority, status, search) == 0)
      && (chips.Some? ==> |chips.value| + unlabelled == ActiveFiltersCount(sortBy, priority, status, search))
  {
    CountZeroIffDefaults(sortBy, priority, status, search);
  }

  /** The 'status' sort with a `null` priority shows the strip with no chip. */
  lemma EmptyStrip()
    ensures Chips(ByStatus, PriorityIs(None), AnyStatus, []) == Some([])
  {
    assert HasActiveFilters(ByStatus, PriorityIs(None), AnyStatus, []);
    assert SortLabel(ByStatus).None? && PriorityLabel(PriorityIs(None)).None?;
    var c := Chips(ByStatus, PriorityIs(None), AnyStatus, []);
    assert c.Some?;
    assert (if [] != "" then [SearchChip([])] else []) == [];
    assert |c.value| == 0;
  }
}
