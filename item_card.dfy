/** The checklist card's status button: its label and the update it sends. */
module ItemCard {
  import opened Types
  import opened Db

  /** Completed is every status but pending. */
  lemma CompletedIffNotPending(s: Status)
    ensures IsCompleted(s) <==> s != Pending
  {
  }

  /** getStatusLabel: 'Not Yet' for pending, otherwise the category's own
      completed word, whatever the completed status is. */
  function StatusLabel(c: Category, s: Status): (r: string)
    ensures s == Pending <==> r == "Not Yet"
  {
    if s == Pending then "Not Yet"
    else match c
      case Places => "Visited"
      case Shopping => "Purchased"
      case Food => "Tasted"
  }

  /** A completed item is labelled with the name of its category's completed
      status, so the label and the toggle agree. */
  lemma StatusLabelNamesCompletedStatus(c: Category, s: Status)
    requires s != Pending
    ensures StatusLabel(c, s) == match CompletedStatus(c)
      case Visited => "Visited"
      case Purchased => "Purchased"
      case Tasted => "Tasted"
      case Pending => "Not Yet"
  {
  }

  /** toggleStatus: pending becomes the category's completed status; any
      other status becomes pending. */
  function ToggleStatus(c: Category, s: Status): (r: Status)
    ensures s == Pending ==> r == CompletedStatus(c)
    ensures s != Pending ==> r == Pending
  {
    if s == Pending then
      match c
      case Places => Visited
      case Shopping => Purchased
      case Food => Tasted
    else Pending
  }

  /** Whatever the status was, the toggled status fits the category; on a
      fitting status the toggle is its own inverse. */
  lemma ToggleFits(c: Category, s: Status)
    ensures StatusFits(c, ToggleStatus(c, s))
    ensures StatusFits(c, s) ==> ToggleStatus(c, ToggleStatus(c, s)) == s
    ensures IsCompleted(ToggleStatus(c, s)) <==> !IsCompleted(s)
  {
  }

  /** The update the card sends: `{ status }` only. */
  function TogglePatch(item: Item): ItemPatch {
    NoItemChange.(status := Some(ToggleStatus(item.category, item.status)))
  }

  /** Written through updateItem, a toggle changes the status and the time
      and nothing else; two toggles from pending restore the record but for
      the time. */
  lemma ToggleChangesOnlyStatus(item: Item, now: Time, later: Time)
    ensures ApplyPatch(item, TogglePatch(item), now)
      == item.(status := ToggleStatus(item.category, item.status), updatedAt := now)
    ensures item.status == Pending ==>
      var once := ApplyPatch(item, TogglePatch(item), now);
      ApplyPatch(once, TogglePatch(once), later) == item.(updatedAt := later)
  {
  }
}
