/** The record model of the travel checklist: the item, its closed
    enumerations, the settings singleton, the filter state and the per-city
    summary. */
module Types {

  datatype Option<+T> = None | Some(value: T)

  /** The outcome of a call that may throw: the value, or the error's message. */
  datatype Result<+T> = Ok(value: T) | Err(message: string)

  /** A timestamp (a `Date`); clocks are inputs of the model. */
  type Time = int

  datatype Category = Places | Shopping | Food

  datatype Status = Pending | Visited | Purchased | Tasted

  /** `PriorityType` without its `null`, which is `Option<Priority>.None`. */
  datatype Priority = Must | Optional

  /** `RatingType` without its `null`: an integer star count from 1 to 5. */
  type Rating = r: int | 1 <= r <= 5 witness 1

  /** `SortType`: five orders, one more ('status') than the filter panel offers. */
  datatype SortType = Manual | ByName | ByRating | ByStatus | ByPriority

  datatype Theme = Light | Dark | Auto

  /** One checklist entry. `subcategory` is `None` for both `null` and a
      missing value. */
  datatype Item = Item(
    id: string,
    city: string,
    category: Category,
    subcategory: Option<string>,
    name: string,
    details: string,
    location: string,
    status: Status,
    priority: Option<Priority>,
    rating: Option<Rating>,
    userNotes: string,
    sortOrder: int,
    isPinned: bool,
    isAdminAdded: bool,
    createdAt: Time,
    updatedAt: Time)

  /** The only key the settings table ever holds. */
  const SettingsKey: string := "app-settings"

  type SettingsId = s: string | s == SettingsKey witness SettingsKey

  datatype SortPreference = SortPreference(places: SortType, shopping: SortType, food: SortType)

  datatype AppSettings = AppSettings(
    id: SettingsId,
    adminPIN: string,
    theme: Theme,
    lastSync: Time,
    sortPreference: SortPreference)

  /** `PriorityType | 'all'`; `PriorityIs(None)` is the `null` priority. */
  datatype PriorityFilter = AnyPriority | PriorityIs(priority: Option<Priority>)

  /** `StatusType | 'all'`. */
  datatype StatusFilter = AnyStatus | StatusIs(status: Status)

  /** `CategoryType | 'all'`. */
  datatype CategoryFilter = AnyCategory | CategoryIs(category: Category)

  datatype FilterState = FilterState(
    search: string,
    priority: PriorityFilter,
    status: StatusFilter,
    category: CategoryFilter)

  datatype CategoryCounts = CategoryCounts(places: nat, shopping: nat, food: nat)

  datatype CitySummary = CitySummary(
    city: string,
    totalItems: nat,
    completedItems: nat,
    categoryCounts: CategoryCounts)

  /** The string value each category has in the application. */
  function CategoryName(c: Category): string {
    match c
    case Places => "places"
    case Shopping => "shopping"
    case Food => "food"
  }

  /** Reads a category back from its string value; any other string is none. */
  function CategoryFromName(s: string): (r: Option<Category>)
    ensures r.Some? ==> CategoryName(r.value) == s
  {
    if s == "places" then Some(Places)
    else if s == "shopping" then Some(Shopping)
    else if s == "food" then Some(Food)
    else None
  }

  lemma CategoryNameRoundTrip(c: Category)
    ensures CategoryFromName(CategoryName(c)) == Some(c)
  {
  }

  function StatusName(s: Status): string {
    match s
    case Pending => "pending"
    case Visited => "visited"
    case Purchased => "purchased"
    case Tasted => "tasted"
  }

  function StatusFromName(s: string): (r: Option<Status>)
    ensures r.Some? ==> StatusName(r.value) == s
  {
    if s == "pending" then Some(Pending)
    else if s == "visited" then Some(Visited)
    else if s == "purchased" then Some(Purchased)
    else if s == "tasted" then Some(Tasted)
    else None
  }

  lemma StatusNameRoundTrip(s: Status)
    ensures StatusFromName(StatusName(s)) == Some(s)
  {
  }

  function PriorityName(p: Priority): string {
    match p
    case Must => "must"
    case Optional => "optional"
  }

  /** `['visited', 'purchased', 'tasted'].includes(status)`. */
  predicate IsCompleted(s: Status) {
    s == Visited || s == Purchased || s == Tasted
  }

  /** The completed status that belongs to each category. */
  function CompletedStatus(c: Category): (s: Status)
    ensures IsCompleted(s)
  {
    match c
    case Places => Visited
    case Shopping => Purchased
    case Food => Tasted
  }

  /** The category-appropriate status rule: pending, or the category's own
      completed value. */
  predicate StatusFits(c: Category, s: Status) {
    s == Pending || s == CompletedStatus(c)
  }
}
