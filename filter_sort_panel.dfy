/** The filter and sort panel: its active-filter count and the values its
    buttons send. */
module FilterSortPanel {
  import opened Types

  /** activeFiltersCount: one for each of priority, status, search and sort
      that differs from its default. */
  function ActiveFiltersCount(sortBy: SortType, priority: PriorityFilter, status: StatusFilter, search: string): (n: nat)
    ensures n <= 4
  {
    (if priority != AnyPriority then 1 else 0) +
    (if status != AnyStatus then 1 else 0) +
    (if search != "" then 1 else 0) +
    (if sortBy != Manual then 1 else 0)
  }

  /** The count is zero exactly at the defaults. */
  lemma CountZeroIffDefaults(sortBy: SortType, priority: PriorityFilter, status: StatusFilter, search: string)
    ensures ActiveFiltersCount(sortBy, priority, status, search) == 0 <==>
      sortBy == Manual && priority == AnyPriority && status == AnyStatus && search == ""
  {
  }

  /** The sort buttons, in order. */
  const SortButtons: seq<SortType> := [Manual, ByName, ByRating, ByPriority]

  /** The priority buttons, in order. */
  const PriorityButtons: seq<PriorityFilter> := [AnyPriority, PriorityIs(Some(Must)), PriorityIs(Some(Optional))]

  /** The status buttons, in order: All, Pending and Completed; Completed
      sends 'visited'. */
  const StatusButtons: seq<StatusFilter> := [AnyStatus, StatusIs(Pending), StatusIs(Visited)]

  /** Whether each status button is drawn selected. */
  function StatusButtonSelected(k: int, status: StatusFilter): bool
    requires 0 <= k < |StatusButtons|
  {
    if k == 2 then status.StatusIs? && IsCompleted(status.status) else status == StatusButtons[k]
  }

  /** The panel never selects the 'status' sort, nor a `null` priority. */
  lemma ButtonsOmitValues()
    ensures ByStatus !in SortButtons
    ensures PriorityIs(None) !in PriorityButtons
    ensures forall s: SortType :: s != ByStatus ==> s in SortButtons
  {
  }

  /** Completed sends 'visited' yet is drawn selected for every completed
      status, so a filter on 'purchased' or 'tasted' is shown as Completed;
      each status filter selects exactly one button. */
  lemma CompletedButtonCoversAllCompleted(s: Status)
    ensures StatusButtonSelected(2, StatusButtons[2])
    ensures StatusButtonSelected(2, StatusIs(s)) <==> IsCompleted(s)
    ensures forall f: StatusFilter ::
      StatusButtonSelected(0, f) || StatusButtonSelected(1, f) || StatusButtonSelected(2, f)
    ensures forall f: StatusFilter ::
      && !(StatusButtonSelected(0, f) && StatusButtonSelected(1, f))
      && !(StatusButtonSelected(0, f) && StatusButtonSelected(2, f))
      && !(StatusButtonSelected(1, f) && StatusButtonSelected(2, f))
  {
  }

  /** The Clear All button is offered only with an active filter. */
  function ClearAllShown(sortBy: SortType, priority: PriorityFilter, status: StatusFilter, search: string): (b: bool)
    ensures b <==> !(sortBy == Manual && priority == AnyPriority && status == AnyStatus && search == "")
  {
    CountZeroIffDefaults(sortBy, priority, status, search);
    ActiveFiltersCount(sortBy, priority, status, search) > 0
  }
}
