/** The booking panel of a turf's page: the chosen date and time, the
    calendar that refuses past dates, and the guard chain that sends a
    signed-in visitor to payment with the turf's details. Dates are
    instants in milliseconds. */
module TurfBooking {
  import opened Common
  import opened Turfs
  import opened MockData
  import opened TimeSlotGrid

  const LoginFirst := "Please login to book a turf"
  const PickBoth := "Please select both date and time"

  /** The booking data handed to the payment page. */
  datatype PaymentData = PaymentData(
    turfId: string,
    turfName: string,
    turfLocation: string,
    turfImage: Option<string>,
    turfSport: string,
    date: int,
    time: string,
    price: int)

  /** What `handleBooking` does: send to login, refuse with a toast, or go
      to payment. */
  datatype BookingStep = GoLogin(toast: string) | Refuse(toast: string) | GoPayment(data: PaymentData)

  /** The guard chain: the session first, then the date and the time. */
  function HandleBooking(isAuthenticated: bool, selectedDate: Option<int>, selectedTime: string, turf: Turf): (step: BookingStep)
    ensures !isAuthenticated ==> step == GoLogin(LoginFirst)
    ensures isAuthenticated && (selectedDate.None? || selectedTime == "") ==> step == Refuse(PickBoth)
    ensures step.GoPayment? <==> isAuthenticated && selectedDate.Some? && selectedTime != ""
    ensures step.GoPayment? ==>
              step.data.turfId == turf.id && step.data.turfName == turf.name
              && step.data.turfLocation == turf.location && step.data.turfImage == turf.image
              && step.data.turfSport == turf.sport && step.data.price == turf.pricePerHour
              && step.data.date == selectedDate.value && step.data.time == selectedTime
  {
    if !isAuthenticated then GoLogin(LoginFirst)
    else if selectedDate.None? || selectedTime == "" then Refuse(PickBoth)
    else GoPayment(PaymentData(turf.id, turf.name, turf.location, turf.image, turf.sport,
                               selectedDate.value, selectedTime, turf.pricePerHour))
  }

  /** The book button is disabled unless both a date and a time are chosen. */
  predicate BookDisabled(selectedDate: Option<int>, selectedTime: string) {
    selectedDate.None? || selectedTime == ""
  }

  /** The calendar offers a date when it is not earlier than now. */
  predicate DateSelectable(date: int, now: int) {
    !(date < now)
  }

  /** An enabled button pressed by a signed-in visitor always reaches
      payment, charged the hourly price. */
  lemma EnabledButtonReachesPayment(selectedDate: Option<int>, selectedTime: string, turf: Turf)
    requires !BookDisabled(selectedDate, selectedTime)
    ensures HandleBooking(true, selectedDate, selectedTime, turf).GoPayment?
    ensures HandleBooking(true, selectedDate, selectedTime, turf).data.price == turf.pricePerHour
  {
  }

  // ------------------------------------------------------ the slot grid wiring

  /** What the visitor does on the panel: pick a day on the calendar, or
      click a slot of the time grid. */
  datatype PanelEvent = PickDate(date: Option<int>) | ClickSlot(slot: TimeSlot)

  /** The panel's chosen day and the slot it holds; the booked time is the
      slot's label. */
  datatype PanelState = PanelState(date: Option<int>, slot: Option<TimeSlot>)

  function TimeOf(slot: Option<TimeSlot>): string {
    if slot.Some? then slot.value.time else ""
  }

  /** The calendar's `onSelect`: a past day is not offered. */
  function PickedDate(current: Option<int>, date: Option<int>, now: int): (r: Option<int>)
    ensures r == date || r == current
    ensures date.Some? && !DateSelectable(date.value, now) ==> r == current
  {
    if date.None? || DateSelectable(date.value, now) then date else current
  }

  /** The props the time grid reads: its slots, the held slot, and whether
      an `onSlotSelect` handler was passed. A prop the caller leaves out is
      `undefined`: `None`, or `false` for the handler. */
  datatype GridProps = GridProps(timeSlots: Option<seq<TimeSlot>>, selectedSlot: Option<TimeSlot>, hasOnSlotSelect: bool)

  /** A render of the panel: the grid threw while rendering, or the panel is
      shown with its state and whether the book button is enabled. */
  datatype PanelView = Crashed | Shown(state: PanelState, bookEnabled: bool)

  /** The grid maps over `timeSlots` on every render, which throws on
      `undefined`; otherwise the panel shows its state, and the button is
      enabled exactly when a day and a time are held. */
  function RenderPanel(s: PanelState, props: GridProps): (v: PanelView)
    ensures v.Crashed? <==> props.timeSlots.None?
    ensures v.Shown? ==> v.state == s && (v.bookEnabled <==> !BookDisabled(s.date, TimeOf(s.slot)))
  {
    if props.timeSlots.None? then Crashed else Shown(s, !BookDisabled(s.date, TimeOf(s.slot)))
  }

  /** The grid's props as wired: the panel passes `selectedTime`,
      `onTimeSelect`, `turfId` and `selectedDate`, none of which the grid
      reads, so each prop it does read is `undefined`. */
  function PropsAsWired(s: PanelState): GridProps {
    GridProps(None, None, false)
  }

  /** The grid's props as intended: the day's slots, the held slot and a
      handler that replaces the held slot. */
  function PropsIntended(s: PanelState, slots: seq<TimeSlot>): GridProps {
    GridProps(Some(slots), s.slot, true)
  }

  /** As wired, the panel's very first render throws in the grid, whatever
      day or slot the panel holds: no panel and no book button are shown,
      so no time can be picked and no booking can be started. */
  lemma NoPanelAsWired(s: PanelState)
    ensures RenderPanel(s, PropsAsWired(s)) == Crashed
    ensures !RenderPanel(s, PropsAsWired(s)).Shown?
  {
  }

  /** The panel as intended: the grid gets the slots and the held slot, and
      its `onSlotSelect` replaces the held slot. */
  function StepIntended(s: PanelState, e: PanelEvent, now: int): PanelState {
    match e
    case PickDate(d) => s.(date := PickedDate(s.date, d, now))
    case ClickSlot(c) => s.(slot := NextSelection(s.slot, c))
  }

  /** As intended, the panel renders, and with a day chosen a click on a
      free slot other than the held one enables the button, and booking
      goes to payment at that slot's time. */
  lemma ClickEnablesBooking(s: PanelState, c: TimeSlot, slots: seq<TimeSlot>, now: int, turf: Turf)
    requires s.date.Some? && c.available && c.time != ""
    requires s.slot.None? || s.slot.value.id != c.id
    ensures RenderPanel(StepIntended(s, ClickSlot(c), now), PropsIntended(StepIntended(s, ClickSlot(c), now), slots))
            == Shown(StepIntended(s, ClickSlot(c), now), true)
    ensures !BookDisabled(StepIntended(s, ClickSlot(c), now).date, TimeOf(StepIntended(s, ClickSlot(c), now).slot))
    ensures HandleBooking(true, StepIntended(s, ClickSlot(c), now).date, TimeOf(StepIntended(s, ClickSlot(c), now).slot), turf)
            == GoPayment(PaymentData(turf.id, turf.name, turf.location, turf.image, turf.sport,
                                     s.date.value, c.time, turf.pricePerHour))
  {
  }

  /** The panel with the grid wired as intended. */
  class BookingPanel {
    var selectedDate: Option<int>
    var selectedSlot: Option<TimeSlot>

    /** The `selectedTime` the book button and `handleBooking` read. */
    function SelectedTime(): string
      reads this
    {
      TimeOf(selectedSlot)
    }

    /** Today (the current instant) is chosen and no time yet. */
    constructor (now: int)
      ensures selectedDate == Some(now) && selectedSlot.None? && SelectedTime() == ""
    {
      selectedDate := Some(now);
      selectedSlot := None;
    }

    /** A pick on the calendar: a past date is not offered, so the choice
        stays; any other pick (or clearing the choice) is taken. */
    method SelectDate(date: Option<int>, now: int)
      modifies this
      ensures selectedSlot == old(selectedSlot)
      ensures date.Some? && !DateSelectable(date.value, now) ==> selectedDate == old(selectedDate)
      ensures date.None? || DateSelectable(date.value, now) ==> selectedDate == date
      ensures old(selectedDate).None? || DateSelectable(old(selectedDate).value, now) ==>
                selectedDate.None? || DateSelectable(selectedDate.value, now)
      ensures PanelState(selectedDate, selectedSlot) == StepIntended(old(PanelState(selectedDate, selectedSlot)), PickDate(date), now)
    {
      if date.None? || DateSelectable(date.value, now) {
        selectedDate := date;
      }
    }

    /** A click in the grid: the grid's selection rule decides the held
        slot, the date is kept. */
    method SelectSlot(c: TimeSlot, now: int)
      modifies this
      ensures selectedDate == old(selectedDate)
      ensures !c.available ==> selectedSlot == old(selectedSlot)
      ensures c.available ==> (selectedSlot.None? <==> old(selectedSlot).Some? && old(selectedSlot).value.id == c.id)
      ensures c.available && selectedSlot.Some? ==> selectedSlot.value == c && SelectedTime() == c.time
      ensures PanelState(selectedDate, selectedSlot) == StepIntended(old(PanelState(selectedDate, selectedSlot)), ClickSlot(c), now)
    {
      selectedSlot := NextSelection(selectedSlot, c);
    }
  }
}
