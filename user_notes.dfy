/** The personal-notes box: the 500-character cap and the debounced save.
    The timer is modelled by its two events: a change that (re)schedules or
    cancels the save, and the save firing. */
module UserNotes {
  import opened Types

  const MaxLength: nat := 500

  /** `text.slice(0, 500)`. */
  function Truncate(text: string): (r: string)
    ensures |r| <= MaxLength && |r| <= |text|
    ensures r == text[..|r|]
    ensures |r| == if |text| < MaxLength then |text| else MaxLength
  {
    if |text| <= MaxLength then text else text[..MaxLength]
  }

  /** Truncating twice is truncating once; short text is kept whole. */
  lemma TruncateIdempotent(text: string)
    ensures Truncate(Truncate(text)) == Truncate(text)
    ensures |text| <= MaxLength ==> Truncate(text) == text
  {
  }

  class NotesBox {
    /** The `notes` property: the stored notes. */
    var notes: string
    /** The text in the box. */
    var localNotes: string
    var isSaving: bool
    var lastSaved: Option<Time>
    /** A save is scheduled. */
    var scheduled: bool

    /** The box opens on the stored notes with nothing scheduled. */
    constructor (stored: string)
      ensures notes == stored && localNotes == stored
      ensures !isSaving && lastSaved == None && !scheduled && Settled()
    {
      notes := stored;
      localNotes := stored;
      isSaving := false;
      lastSaved := None;
      scheduled := false;
    }

    /** `500 - localNotes.length`. */
    function Remaining(): (r: int)
      reads this
      ensures r == MaxLength - |localNotes|
      ensures |localNotes| <= MaxLength ==> 0 <= r
    {
      MaxLength - |localNotes|
    }

    /** The "Saving..." indicator is on exactly while a save is scheduled. */
    predicate Settled()
      reads this
    {
      isSaving <==> scheduled
    }

    /** The effect as written: the previous timer is cancelled, and a new
        save is scheduled unless the box already holds the stored notes; in
        that case the indicator is left as it was. */
    method Effect()
      modifies this
      ensures localNotes == old(localNotes) && notes == old(notes) && lastSaved == old(lastSaved)
      ensures scheduled <==> localNotes != notes
      ensures isSaving == (if localNotes != notes then true else old(isSaving))
    {
      if localNotes == notes {
        scheduled := false;
        return;
      }
      isSaving := true;
      scheduled := true;
    }

    /** The corrected effect: cancelling the pending save also clears the
        indicator. */
    method EffectCorrected()
      modifies this
      ensures localNotes == old(localNotes) && notes == old(notes) && lastSaved == old(lastSaved)
      ensures scheduled <==> localNotes != notes
      ensures Settled()
    {
      if localNotes == notes {
        scheduled := false;
        isSaving := false;
        return;
      }
      isSaving := true;
      scheduled := true;
    }

    /** Typing: the box keeps the first 500 characters, then the effect runs. */
    method Type(text: string)
      modifies this
      ensures localNotes == Truncate(text) && notes == old(notes) && lastSaved == old(lastSaved)
      ensures 0 <= Remaining()
      ensures scheduled <==> Truncate(text) != notes
      ensures isSaving == (if Truncate(text) != notes then true else old(isSaving))
    {
      localNotes := Truncate(text);
      Effect();
    }

    /** Typing with the corrected effect. */
    method TypeCorrected(text: string)
      modifies this
      ensures localNotes == Truncate(text) && notes == old(notes) && lastSaved == old(lastSaved)
      ensures 0 <= Remaining()
      ensures scheduled <==> Truncate(text) != notes
      ensures Settled()
    {
      localNotes := Truncate(text);
      EffectCorrected();
    }

    /** The scheduled save fires: it hands exactly the box's text to
        `onChange` and records the time. */
    method Fire(now: Time) returns (saved: string)
      requires scheduled
      modifies this
      ensures saved == localNotes && localNotes == old(localNotes) && notes == old(notes)
      ensures !isSaving && lastSaved == Some(now) && !scheduled && Settled()
    {
      saved := localNotes;
      isSaving := false;
      lastSaved := Some(now);
      scheduled := false;
    }

    /** The stored notes change (the saved text comes back from the table):
        the effect runs again; with the box in step nothing is scheduled and
        the indicator is left as it was. */
    method NotesChanged(stored: string)
      modifies this
      ensures notes == stored && localNotes == old(localNotes) && lastSaved == old(lastSaved)
      ensures scheduled <==> localNotes != stored
      ensures isSaving == (if localNotes != stored then true else old(isSaving))
    {
      notes := stored;
      Effect();
    }
  }

  /** Typing, saving, and receiving the saved text back leaves nothing
      scheduled and the stored notes equal to the truncated text. The
      indicator ends off unless the typed text was already stored and the
      indicator was already on. */
  method TypeThenSave(box: NotesBox, text: string, now: Time)
    modifies box
    ensures box.notes == Truncate(text) && box.localNotes == Truncate(text)
    ensures !box.scheduled
    ensures box.isSaving == (Truncate(text) == old(box.notes) && old(box.isSaving))
    ensures old(box.Settled()) && old(!box.scheduled) ==> box.Settled()
  {
    box.Type(text);
    if box.scheduled {
      var saved := box.Fire(now);
      box.NotesChanged(saved);
    }
  }

  /** As written, typing a character and deleting it again before the save
      fires cancels the save but leaves "Saving..." on. */
  method SavingIndicatorSticks() returns (box: NotesBox)
    ensures box.isSaving && !box.scheduled && !box.Settled()
    ensures box.localNotes == box.notes
  {
    box := new NotesBox("");
    box.Type("a");
    box.Type("");
  }

  /** With the corrected effect the same edits leave the box settled, with
      the indicator off. */
  method SavingIndicatorClears() returns (box: NotesBox)
    ensures !box.isSaving && !box.scheduled && box.Settled()
    ensures box.localNotes == box.notes
  {
    box := new NotesBox("");
    box.TypeCorrected("a");
    box.TypeCorrected("");
  }
}
