/** The enhanced booking service: confirming after payment, cancelling,
    listing upcoming bookings, and the 12-hour cancellation window. */
module EnhancedBooking {
  import opened Common
  import opened Queries
  import opened Bookings

  /** `confirmBooking`: the row becomes confirmed and paid. */
  method ConfirmBooking(table: BookingTable, id: string, now: int, fault: Option<DbError>) returns (r: Result<Booking>)
    requires table.Valid()
    modifies table
    ensures table.Valid()
    ensures fault.Some? ==> r == Err(Backend(fault.value)) && table.rows == old(table.rows)
    ensures fault.None? && IndexOf(old(table.rows), id).None? ==> r == Err(Backend(NoSingleRow())) && table.rows == old(table.rows)
    ensures fault.None? && IndexOf(old(table.rows), id).Some? ==>
              table.rows == UpdateRows(old(table.rows), id, ConfirmPaid, now)
              && r.Ok? && r.value.id == id && r.value.status == Confirmed && r.value.paymentStatus == Paid
  {
    r := table.UpdateById(id, ConfirmPaid, now, fault);
  }

  /** `cancelBooking`: the row becomes cancelled; its payment status stays.
      Neither the caller nor the clock is consulted. */
  method CancelBooking(table: BookingTable, id: string, now: int, fault: Option<DbError>) returns (r: Result<Booking>)
    requires table.Valid()
    modifies table
    ensures table.Valid()
    ensures fault.Some? ==> r == Err(Backend(fault.value)) && table.rows == old(table.rows)
    ensures fault.None? && IndexOf(old(table.rows), id).None? ==> r == Err(Backend(NoSingleRow())) && table.rows == old(table.rows)
    ensures fault.None? && IndexOf(old(table.rows), id).Some? ==>
              table.rows == UpdateRows(old(table.rows), id, SetStatus(Cancelled), now)
              && r.Ok? && r.value.id == id && r.value.status == Cancelled
              && r.value.paymentStatus == old(table.rows)[IndexOf(old(table.rows), id).value].paymentStatus
  {
    r := table.UpdateById(id, SetStatus(Cancelled), now, fault);
  }

  /** Cancelling twice leaves the table as cancelling once (at the later
      time): the second cancel changes nothing but `updated_at`. */
  lemma CancelIdempotent(rows: seq<Booking>, id: string, t1: int, t2: int)
    ensures UpdateRows(UpdateRows(rows, id, SetStatus(Cancelled), t1), id, SetStatus(Cancelled), t2)
         == UpdateRows(rows, id, SetStatus(Cancelled), t2)
  {
    var once := UpdateRows(rows, id, SetStatus(Cancelled), t1);
    var twice := UpdateRows(once, id, SetStatus(Cancelled), t2);
    var direct := UpdateRows(rows, id, SetStatus(Cancelled), t2);
    forall i | 0 <= i < |rows| ensures twice[i] == direct[i] {
      if rows[i].id == id {
        assert once[i] == rows[i].(status := Cancelled, updatedAt := t1);
      }
    }
  }

  /** Confirming touches only the target row, and in it only the two
      statuses and `updated_at`. */
  lemma ConfirmChangesOnlyTarget(rows: seq<Booking>, id: string, now: int, i: int)
    requires 0 <= i < |rows|
    ensures rows[i].id != id ==> UpdateRows(rows, id, ConfirmPaid, now)[i] == rows[i]
    ensures rows[i].id == id ==>
              UpdateRows(rows, id, ConfirmPaid, now)[i].(status := rows[i].status, paymentStatus := rows[i].paymentStatus,
                                                       updatedAt := rows[i].updatedAt) == rows[i]
  {
  }

  // ------------------------------------------------------- getUpcomingBookings

  const UpcomingAuthMessage := "User must be authenticated"

  /** The upcoming-bookings filter: the user's live bookings from today on. */
  function Upcoming(userId: string, today: int): Booking -> bool {
    (b: Booking) => b.userId == userId && b.bookingDate >= today && (b.status == Confirmed || b.status == Pending)
  }

  /** `getUpcomingBookings`: the caller's confirmed or pending bookings dated
      today or later, earliest first. */
  function GetUpcomingBookings(rows: seq<Booking>, caller: Option<string>, today: int, fault: Option<DbError>): (r: Result<seq<Booking>>)
    ensures caller.None? ==> r == Err(Plain(UpcomingAuthMessage))
    ensures caller.Some? && fault.Some? ==> r == Err(Backend(fault.value))
    ensures caller.Some? && fault.None? ==>
              r.Ok? && Sorted(r.value, BookingDate, true)
              && (forall b :: b in r.value <==>
                    b in rows && b.userId == caller.value && b.bookingDate >= today && b.status != Cancelled)
              && multiset(r.value) == multiset(Filter(rows, Upcoming(caller.value, today)))
  {
    if caller.None? then Err(Plain(UpcomingAuthMessage))
    else if fault.Some? then Err(Backend(fault.value))
    else Ok(Select(rows, Upcoming(caller.value, today), BookingDate, true))
  }

  // --------------------------------------------------------- canCancelBooking

  const MillisPerHour: int := 1000 * 3600
  const TwelveHours: int := 12 * MillisPerHour

  /** `canCancelBooking`: the start instant (absent when the date and time do
      not parse, which makes every comparison false) is at least 12 hours
      away; hours are a real quotient, as in floating point. */
  function CanCancelBooking(start: Option<int>, now: int): (ok: bool)
    ensures start.None? ==> !ok
  {
    start.Some? && ((start.value - now) as real) / (MillisPerHour as real) >= 12.0
  }

  /** The window in whole milliseconds: exactly 12 hours still counts. */
  lemma CanCancelIff(start: int, now: int)
    ensures CanCancelBooking(Some(start), now) <==> start - now >= 43200000
  {
    var d := (start - now) as real;
    assert MillisPerHour as real == 3600000.0;
    if d / 3600000.0 >= 12.0 {
      assert d == (d / 3600000.0) * 3600000.0;
      assert d >= 43200000.0;
    }
  }

  /** Once too late, always too late. */
  lemma CanCancelMonotone(start: Option<int>, now: int, later: int)
    requires now <= later && CanCancelBooking(start, later)
    ensures CanCancelBooking(start, now)
  {
    CanCancelIff(start.value, later);
    CanCancelIff(start.value, now);
  }

  /** A booking at 18:00 seen at 07:00 the same day (11 hours ahead) cannot be
      cancelled; one 37 hours ahead can. */
  lemma CanCancelExamples()
    ensures !CanCancelBooking(Some(18 * MillisPerHour), 7 * MillisPerHour)
    ensures CanCancelBooking(Some(42 * MillisPerHour), 5 * MillisPerHour)
  {
    CanCancelIff(18 * MillisPerHour, 7 * MillisPerHour);
    CanCancelIff(42 * MillisPerHour, 5 * MillisPerHour);
  }
}
