/** Clicking a slot in the time-slot grid: the selection the parent holds
    after the click. */
module TimeSlotGrid {
  import opened Common
  import opened MockData

  /** `handleSlotClick`: an unavailable slot leaves the selection alone
      (only an error toast); clicking the selected slot clears it; any other
      available slot becomes the selection. Slots are compared by id. */
  function NextSelection(selected: Option<TimeSlot>, clicked: TimeSlot): (r: Option<TimeSlot>)
    ensures !clicked.available ==> r == selected
    ensures clicked.available ==> (r.None? <==> selected.Some? && selected.value.id == clicked.id)
    ensures clicked.available && r.Some? ==> r.value == clicked
  {
    if !clicked.available then selected
    else if selected.Some? && selected.value.id == clicked.id then None
    else Some(clicked)
  }

  /** Two clicks on a free slot starting from no selection end with none. */
  lemma ClickTwiceClears(slot: TimeSlot)
    requires slot.available
    ensures NextSelection(NextSelection(None, slot), slot) == None
  {
  }

  /** A selection that starts empty or free stays empty or free. */
  lemma SelectionStaysAvailable(selected: Option<TimeSlot>, clicked: TimeSlot)
    requires selected.None? || selected.value.available
    ensures NextSelection(selected, clicked).None? || NextSelection(selected, clicked).value.available
  {
  }
}
