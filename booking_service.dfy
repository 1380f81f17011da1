/** The booking service: the slot-conflict test, creating a booking for
    the signed-in user, listing the user's bookings, and changing a
    booking's status. */
module BookingService {
  import opened Common
  import opened Queries
  import opened Bookings

  /** The fields a caller supplies; the backend fills in the id, the two
      statuses and the timestamps. */
  datatype NewBooking = NewBooking(turfId: string, bookingDate: int, startTime: int, endTime: int, totalPrice: int)

  /** The row stored for `{...data, user_id}`, with the column defaults
      `pending`/`pending`. */
  function NewRow(data: NewBooking, userId: string, id: string, now: int): (b: Booking)
    ensures b.userId == userId && b.id == id
    ensures b.turfId == data.turfId && b.bookingDate == data.bookingDate
    ensures b.startTime == data.startTime && b.endTime == data.endTime && b.totalPrice == data.totalPrice
    ensures b.status == Pending && b.paymentStatus == PaymentPending
  {
    Booking(id, userId, data.turfId, data.bookingDate, data.startTime, data.endTime, data.totalPrice,
            Pending, PaymentPending, now, now)
  }

  // ------------------------------------------------------- checkAvailability

  /** The availability query's row filter: same turf and date, not
      cancelled, and `start_time <= endTime && end_time >= startTime`
      (both ends inclusive). */
  predicate IsConflict(b: Booking, turfId: string, date: int, startTime: int, endTime: int) {
    b.turfId == turfId && b.bookingDate == date && b.status != Cancelled
    && b.startTime <= endTime && b.endTime >= startTime
  }

  /** True exactly when no stored row conflicts with the requested slot. */
  function CheckAvailability(rows: seq<Booking>, turfId: string, date: int, startTime: int, endTime: int,
                             fault: Option<DbError>): (r: Result<bool>)
    ensures fault.Some? ==> r == Err(Backend(fault.value))
    ensures fault.None? ==> r.Ok? && (r.value <==> forall b :: b in rows ==> !IsConflict(b, turfId, date, startTime, endTime))
  {
    if fault.Some? then Err(Backend(fault.value))
    else
      var hits := Filter(rows, (b: Booking) => IsConflict(b, turfId, date, startTime, endTime));
      assert |hits| > 0 ==> hits[0] in hits;
      Ok(|hits| == 0)
  }

  /** A booking that ends exactly when the requested slot starts blocks it. */
  lemma BackToBackBlocks(rows: seq<Booking>, b: Booking, endTime: int)
    requires b in rows && b.status != Cancelled
    requires b.startTime <= b.endTime <= endTime
    ensures CheckAvailability(rows, b.turfId, b.bookingDate, b.endTime, endTime, None) == Ok(false)
  {
    assert IsConflict(b, b.turfId, b.bookingDate, b.endTime, endTime);
  }

  /** Two slots that overlap in the usual half-open sense always conflict;
      the inclusive test also blocks slots that merely touch. */
  lemma HalfOpenOverlapConflicts(b: Booking, turfId: string, date: int, startTime: int, endTime: int)
    requires b.turfId == turfId && b.bookingDate == date && b.status != Cancelled
    requires b.startTime < endTime && startTime < b.endTime
    ensures IsConflict(b, turfId, date, startTime, endTime)
  {
  }

  /** Cancelled rows and rows for another turf or date never change the answer. */
  lemma IrrelevantRowIgnored(rows: seq<Booking>, b: Booking, turfId: string, date: int, startTime: int, endTime: int)
    requires b.status == Cancelled || b.turfId != turfId || b.bookingDate != date
    ensures CheckAvailability(rows + [b], turfId, date, startTime, endTime, None)
         == CheckAvailability(rows, turfId, date, startTime, endTime, None)
  {
    assert forall x :: x in rows + [b] <==> x in rows || x == b;
  }

  /** Adding a row can turn "available" into "taken" but never the reverse. */
  lemma AddingRowOnlyBlocks(rows: seq<Booking>, b: Booking, turfId: string, date: int, startTime: int, endTime: int)
    requires CheckAvailability(rows + [b], turfId, date, startTime, endTime, None) == Ok(true)
    ensures CheckAvailability(rows, turfId, date, startTime, endTime, None) == Ok(true)
  {
    assert forall x :: x in rows ==> x in rows + [b];
  }

  /** Two stored rows hold overlapping live slots on one turf and date. */
  predicate Clash(a: Booking, b: Booking) {
    b.status != Cancelled && IsConflict(a, b.turfId, b.bookingDate, b.startTime, b.endTime)
  }

  /** No two live bookings of the table overlap (inclusively). */
  predicate NoOverlap(rows: seq<Booking>) {
    forall i, j :: 0 <= i < |rows| && 0 <= j < |rows| && i != j ==> !Clash(rows[i], rows[j])
  }

  /** Inserting only what the availability check accepted keeps the table
      free of overlaps. Nothing in the service enforces this sequence; the
      lemma says what it buys when a caller follows it. */
  lemma {:induction false} CheckedInsertKeepsNoOverlap(rows: seq<Booking>, row: Booking)
    requires NoOverlap(rows)
    requires CheckAvailability(rows, row.turfId, row.bookingDate, row.startTime, row.endTime, None) == Ok(true)
    ensures NoOverlap(rows + [row])
  {
    var t := rows + [row];
    forall i, j | 0 <= i < |t| && 0 <= j < |t| && i != j
      ensures !Clash(t[i], t[j])
    {
      if j == |rows| {
        assert t[i] in rows;
        assert !IsConflict(t[i], row.turfId, row.bookingDate, row.startTime, row.endTime);
      } else if i == |rows| {
        assert t[j] in rows;
        assert !IsConflict(t[j], row.turfId, row.bookingDate, row.startTime, row.endTime);
      } else {
        assert t[i] == rows[i] && t[j] == rows[j];
      }
    }
  }

  /** A status change keeps the table free of overlaps unless it revives a
      cancelled booking; in particular cancelling always does. */
  lemma {:induction false} StatusChangeKeepsNoOverlap(rows: seq<Booking>, id: string, u: RowUpdate, now: int)
    requires NoOverlap(rows)
    requires forall b :: b in rows && b.id == id && b.status == Cancelled ==> Apply(b, u, now).status == Cancelled
    ensures NoOverlap(UpdateRows(rows, id, u, now))
  {
    var t := UpdateRows(rows, id, u, now);
    forall i, j | 0 <= i < |t| && 0 <= j < |t| && i != j
      ensures !Clash(t[i], t[j])
    {
      assert rows[i] in rows && rows[j] in rows;
      assert !Clash(rows[i], rows[j]);
    }
  }

  // ------------------------------------------------------------ createBooking

  const CreateAuthMessage := "User must be authenticated to create a booking"

  /** `createBooking`: with no signed-in user nothing is inserted; otherwise
      the caller's data is inserted with `user_id` set to the caller. The
      backend's choice of id and clock are inputs. */
  method CreateBooking(table: BookingTable, data: NewBooking, caller: Option<string>, newId: string, now: int,
                       fault: Option<DbError>) returns (r: Result<Booking>)
    requires table.Valid()
    modifies table
    ensures table.Valid()
    ensures caller.None? ==> r == Err(Plain(CreateAuthMessage)) && table.rows == old(table.rows)
    ensures caller.Some? && fault.None? && IndexOf(old(table.rows), newId).None? ==>
              r == Ok(NewRow(data, caller.value, newId, now)) && table.rows == old(table.rows) + [r.value]
    ensures caller.Some? && fault.Some? ==> r == Err(Backend(fault.value)) && table.rows == old(table.rows)
    ensures caller.Some? && fault.None? && IndexOf(old(table.rows), newId).Some? ==>
              r == Err(Backend(DuplicateKey())) && table.rows == old(table.rows)
  {
    if caller.None? {
      return Err(Plain(CreateAuthMessage));
    }
    r := table.Insert(NewRow(data, caller.value, newId, now), fault);
  }

  // ----------------------------------------------------------- getUserBookings

  const ViewAuthMessage := "User must be authenticated to view bookings"

  /** `getUserBookings`: exactly the caller's rows, latest booking date first;
      a backend error is passed on. */
  function GetUserBookings(rows: seq<Booking>, caller: Option<string>, fault: Option<DbError>): (r: Result<seq<Booking>>)
    ensures caller.None? ==> r == Err(Plain(ViewAuthMessage))
    ensures caller.Some? && fault.Some? ==> r == Err(Backend(fault.value))
    ensures caller.Some? && fault.None? ==>
              r.Ok? && Sorted(r.value, BookingDate, false)
              && (forall b :: b in r.value <==> b in rows && b.userId == caller.value)
              && multiset(r.value) == multiset(Filter(rows, OwnedBy(caller.value)))
  {
    if caller.None? then Err(Plain(ViewAuthMessage))
    else if fault.Some? then Err(Backend(fault.value))
    else Ok(Select(rows, OwnedBy(caller.value), BookingDate, false))
  }

  // ------------------------------------------------------- updateBookingStatus

  /** `updateBookingStatus`: only the status (and `updated_at`) of the row
      with that id changes. */
  method UpdateBookingStatus(table: BookingTable, id: string, status: BookingStatus, now: int,
                             fault: Option<DbError>) returns (r: Result<Booking>)
    requires table.Valid()
    modifies table
    ensures table.Valid()
    ensures fault.Some? ==> r == Err(Backend(fault.value)) && table.rows == old(table.rows)
    ensures fault.None? && IndexOf(old(table.rows), id).None? ==> r == Err(Backend(NoSingleRow())) && table.rows == old(table.rows)
    ensures fault.None? && IndexOf(old(table.rows), id).Some? ==>
              table.rows == UpdateRows(old(table.rows), id, SetStatus(status), now)
              && r.Ok? && r.value.id == id && r.value.status == status
  {
    r := table.UpdateById(id, SetStatus(status), now, fault);
  }
}
