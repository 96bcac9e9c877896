/** The priority control: two toggle buttons, a clear button, and a
    read-only badge. `None` is the `null` priority. */
module PriorityBadge {
  import opened Types

  /** The value the Must button sends. */
  function MustPressed(p: Option<Priority>): (r: Option<Priority>)
    ensures r == None <==> p == Some(Must)
    ensures r != None ==> r == Some(Must)
  {
    if p == Some(Must) then None else Some(Must)
  }

  /** The value the Optional button sends. */
  function OptionalPressed(p: Option<Priority>): (r: Option<Priority>)
    ensures r == None <==> p == Some(Optional)
    ensures r != None ==> r == Some(Optional)
  {
    if p == Some(Optional) then None else Some(Optional)
  }

  /** The Clear button exists only for a set priority, and sends `null`. */
  function ClearPressed(p: Option<Priority>): (r: Option<Option<Priority>>)
    ensures r.Some? <==> p.Some?
    ensures r.Some? ==> r.value == None
  {
    if p.Some? then Some(None) else None
  }

  /** Pressing the same button twice, starting from no priority or from that
      button's own value, comes back to the start. */
  lemma PressTwice(p: Option<Priority>)
    ensures p != Some(Optional) ==> MustPressed(MustPressed(p)) == p
    ensures p != Some(Must) ==> OptionalPressed(OptionalPressed(p)) == p
    ensures MustPressed(MustPressed(None)) == None && OptionalPressed(OptionalPressed(None)) == None
  {
    match p
    case None =>
    case Some(Must) =>
    case Some(Optional) =>
  }

  /** The read-only badge: nothing without a priority, 'Must Visit' for must,
      'Optional' otherwise. */
  function ReadonlyLabel(p: Option<Priority>): (r: Option<string>)
    ensures r.None? <==> p.None?
  {
    if p.None? then None
    else if p.value == Must then Some("\U{2B50} Must Visit")
    else Some("\U{1F4A1} Optional")
  }

  /** The two priorities get different badges. */
  lemma ReadonlyLabelDistinct()
    ensures ReadonlyLabel(Some(Must)) != ReadonlyLabel(Some(Optional))
  {
    assert ReadonlyLabel(Some(Must)).value[2] != ReadonlyLabel(Some(Optional)).value[2];
  }
}
