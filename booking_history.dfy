/** The customer's booking history: the badge colour of each status, which
    bookings offer a cancel button and which a "too late" notice, and the
    list's state while bookings are loaded and cancelled. */
module BookingHistory {
  import opened Common
  import opened Queries
  import opened Bookings
  import opened BookingService
  import opened EnhancedBooking

  const Green := "bg-green-100 text-green-800 border-green-200"
  const Yellow := "bg-yellow-100 text-yellow-800 border-yellow-200"
  const Red := "bg-red-100 text-red-800 border-red-200"
  const Gray := "bg-gray-100 text-gray-800 border-gray-200"

  /** `getStatusColor`: one colour per stored status, gray for any other text. */
  function GetStatusColor(status: string): (c: string)
    ensures c == Green <==> status == "confirmed"
    ensures c == Yellow <==> status == "pending"
    ensures c == Red <==> status == "cancelled"
    ensures c == Gray <==> status !in {"confirmed", "pending", "cancelled"}
  {
    if status == "confirmed" then Green
    else if status == "pending" then Yellow
    else if status == "cancelled" then Red
    else Gray
  }

  /** Every status a row can hold has its own colour; gray is never shown
      for a stored row. */
  lemma StoredStatusColours(s: BookingStatus, t: BookingStatus)
    ensures GetStatusColor(StatusText(s)) != Gray
    ensures GetStatusColor(StatusText(s)) == GetStatusColor(StatusText(t)) ==> s == t
  {
  }

  /** The cancel button: a confirmed booking still inside the 12-hour window.
      `start` is the booking's start instant (None when it does not parse). */
  predicate ShowCancelButton(b: Booking, start: Option<int>, now: int) {
    b.status == Confirmed && CanCancelBooking(start, now)
  }

  /** The "Cannot cancel (less than 12h)" notice. */
  predicate ShowTooLateNotice(b: Booking, start: Option<int>, now: int) {
    b.status == Confirmed && !CanCancelBooking(start, now)
  }

  /** A confirmed booking shows exactly one of the two; a pending or
      cancelled one shows neither. */
  lemma CancelGating(b: Booking, start: Option<int>, now: int)
    ensures ShowCancelButton(b, start, now) || ShowTooLateNotice(b, start, now) <==> b.status == Confirmed
    ensures !(ShowCancelButton(b, start, now) && ShowTooLateNotice(b, start, now))
  {
  }

  /** The button, stated in milliseconds: confirmed and starting at least
      twelve hours after now. */
  lemma CancelButtonIff(b: Booking, start: int, now: int)
    ensures ShowCancelButton(b, Some(start), now) <==> b.status == Confirmed && start - now >= 43200000
    ensures ShowTooLateNotice(b, Some(start), now) <==> b.status == Confirmed && start - now < 43200000
  {
    CanCancelIff(start, now);
  }

  /** A list refetched after a successful cancel shows that booking as
      cancelled. */
  lemma {:induction false} RefetchShowsCancelled(rows: seq<Booking>, id: string, now: int, userId: string)
    ensures forall b :: (b in GetUserBookings(UpdateRows(rows, id, SetStatus(Cancelled), now), Some(userId), None).value
                         && b.id == id) ==> b.status == Cancelled
  {
    var after := UpdateRows(rows, id, SetStatus(Cancelled), now);
    forall b | b in after && b.id == id ensures b.status == Cancelled {
      var i :| 0 <= i < |after| && after[i] == b;
      assert rows[i].id == id;
    }
  }

  const LoadFailed := "Failed to load bookings"
  const CancelSucceeded := "Booking cancelled successfully"
  const CancelFailed := "Failed to cancel booking"

  class BookingHistoryView {
    var bookings: seq<Booking>
    var loading: bool
    /** The id of the booking being cancelled, if any. */
    var cancelling: Option<string>

    constructor ()
      ensures bookings == [] && loading && cancelling == None
    {
      bookings := [];
      loading := true;
      cancelling := None;
    }

    /** The cancel button of booking `id` is disabled while it is cancelled. */
    predicate CancelDisabled(id: string)
      reads this
    {
      cancelling == Some(id)
    }

    /** `fetchBookings`: the caller's bookings replace the list; on failure
        the list stays as it was and a toast says so. Loading ends either way. */
    method FetchBookings(rows: seq<Booking>, caller: Option<string>, fault: Option<DbError>) returns (toast: Option<string>)
      modifies this
      ensures !loading && cancelling == old(cancelling)
      ensures GetUserBookings(rows, caller, fault).Ok? ==>
                bookings == GetUserBookings(rows, caller, fault).value && toast == None
      ensures GetUserBookings(rows, caller, fault).Err? ==>
                bookings == old(bookings) && toast == Some(LoadFailed)
    {
      var r := GetUserBookings(rows, caller, fault);
      if r.Ok? {
        bookings := r.value;
        toast := None;
      } else {
        toast := Some(LoadFailed);
      }
      loading := false;
    }

    /** `handleCancelBooking`: marks the booking as being cancelled, cancels
        it, refetches the list only when the cancel succeeded, and clears
        the mark on success and on failure. `fetchFault` is the outcome of
        the refetch, whose own failure toast is returned as `refetchToast`. */
    method HandleCancelBooking(table: BookingTable, id: string, now: int, fault: Option<DbError>,
                               caller: Option<string>, fetchFault: Option<DbError>)
      returns (toast: string, refetchToast: Option<string>, refetched: bool)
      requires table.Valid()
      modifies this, table
      ensures table.Valid()
      ensures cancelling == None
      ensures refetched <==> fault.None? && IndexOf(old(table.rows), id).Some?
      ensures refetched ==>
                table.rows == UpdateRows(old(table.rows), id, SetStatus(Cancelled), now)
                && toast == CancelSucceeded && !loading
                && (GetUserBookings(table.rows, caller, fetchFault).Ok? ==>
                      bookings == GetUserBookings(table.rows, caller, fetchFault).value)
                && (GetUserBookings(table.rows, caller, fetchFault).Err? ==>
                      bookings == old(bookings) && refetchToast == Some(LoadFailed))
                && (GetUserBookings(table.rows, caller, fetchFault).Ok? ==> refetchToast == None)
      ensures !refetched ==>
                table.rows == old(table.rows) && toast == CancelFailed && refetchToast == None
                && bookings == old(bookings) && loading == old(loading)
    {
      cancelling := Some(id);
      var r := CancelBooking(table, id, now, fault);
      if r.Ok? {
        toast := CancelSucceeded;
        refetchToast := FetchBookings(table.rows, caller, fetchFault);
        refetched := true;
      } else {
        toast := CancelFailed;
        refetchToast := None;
        refetched := false;
      }
      cancelling := None;
    }
  }
}
