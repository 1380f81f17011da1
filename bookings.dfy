/** The `bookings` table: its record, the two status enumerations, and the
    row-level effect of the backend's insert, `update ... eq('id') .single()`
    and `delete ... eq(...)` calls. Rows are kept in a sequence; the primary
    key `id` is unique. Times of day are minutes since midnight, booking
    dates are day numbers, `created_at`/`updated_at` are instants. */
module Bookings {
  import opened Common
  import opened Queries

  datatype BookingStatus = Pending | Confirmed | Cancelled
  datatype PaymentStatus = PaymentPending | Paid | PaymentFailed

  /** The text stored in the `status` column. */
  function StatusText(s: BookingStatus): string {
    match s
    case Pending => "pending"
    case Confirmed => "confirmed"
    case Cancelled => "cancelled"
  }

  /** The text stored in the `payment_status` column. */
  function PaymentText(p: PaymentStatus): string {
    match p
    case PaymentPending => "pending"
    case Paid => "paid"
    case PaymentFailed => "failed"
  }

  function ParseStatus(t: string): Option<BookingStatus> {
    if t == "pending" then Some(Pending)
    else if t == "confirmed" then Some(Confirmed)
    else if t == "cancelled" then Some(Cancelled)
    else None
  }

  function ParsePayment(t: string): Option<PaymentStatus> {
    if t == "pending" then Some(PaymentPending)
    else if t == "paid" then Some(Paid)
    else if t == "failed" then Some(PaymentFailed)
    else None
  }

  /** The stored status texts are exactly the three names, and each reads
      back as the status it came from. */
  lemma StatusTextRoundTrip(s: BookingStatus, t: string)
    ensures ParseStatus(StatusText(s)) == Some(s)
    ensures ParseStatus(t).Some? <==> t in {"pending", "confirmed", "cancelled"}
    ensures ParseStatus(t).Some? ==> StatusText(ParseStatus(t).value) == t
  {
  }

  /** Likewise for the payment texts. */
  lemma PaymentTextRoundTrip(p: PaymentStatus, t: string)
    ensures ParsePayment(PaymentText(p)) == Some(p)
    ensures ParsePayment(t).Some? <==> t in {"pending", "paid", "failed"}
    ensures ParsePayment(t).Some? ==> PaymentText(ParsePayment(t).value) == t
  {
  }

  datatype Booking = Booking(
    id: string,
    userId: string,
    turfId: string,
    bookingDate: int,
    startTime: int,
    endTime: int,
    totalPrice: int,
    status: BookingStatus,
    paymentStatus: PaymentStatus,
    createdAt: int,
    updatedAt: int)

  /** Ordering keys used by the reads. */
  function BookingDate(b: Booking): int { b.bookingDate }
  function CreatedAt(b: Booking): int { b.createdAt }

  /** Filter `eq('user_id', userId)`. */
  function OwnedBy(userId: string): Booking -> bool {
    (b: Booking) => b.userId == userId
  }

  /** The primary key. */
  function BookingId(b: Booking): string { b.id }

  predicate UniqueIds(rows: seq<Booking>) {
    UniqueBy(rows, BookingId)
  }

  /** Position of the row with this id, if any. */
  function IndexOf(rows: seq<Booking>, id: string): (r: Option<nat>)
    ensures r.Some? ==> r.value < |rows| && rows[r.value].id == id
    ensures r.None? <==> forall b :: b in rows ==> b.id != id
  {
    IndexBy(rows, BookingId, id)
  }

  /** The two shapes of `update(...)` the services send. */
  datatype RowUpdate =
    | SetStatus(status: BookingStatus)   // { status, updated_at }
    | ConfirmPaid                        // { status: 'confirmed', payment_status: 'paid', updated_at }

  function Apply(b: Booking, u: RowUpdate, now: int): (r: Booking)
    ensures r.id == b.id && r.userId == b.userId && r.turfId == b.turfId
    ensures r.bookingDate == b.bookingDate && r.startTime == b.startTime && r.endTime == b.endTime
    ensures r.totalPrice == b.totalPrice && r.createdAt == b.createdAt && r.updatedAt == now
    ensures u.SetStatus? ==> r.status == u.status && r.paymentStatus == b.paymentStatus
    ensures u.ConfirmPaid? ==> r.status == Confirmed && r.paymentStatus == Paid
  {
    match u
    case SetStatus(s) => b.(status := s, updatedAt := now)
    case ConfirmPaid => b.(status := Confirmed, paymentStatus := Paid, updatedAt := now)
  }

  /** The table after `update(u).eq('id', id)`: every row with that id
      updated, every other row as it was. */
  function UpdateRows(rows: seq<Booking>, id: string, u: RowUpdate, now: int): (r: seq<Booking>)
    ensures |r| == |rows|
    ensures forall i :: 0 <= i < |rows| ==> r[i] == (if rows[i].id == id then Apply(rows[i], u, now) else rows[i])
  {
    seq(|rows|, i requires 0 <= i < |rows| => if rows[i].id == id then Apply(rows[i], u, now) else rows[i])
  }

  /** An update keeps every row's id, so the key stays unique. */
  lemma UpdateKeepsKeys(rows: seq<Booking>, id: string, u: RowUpdate, now: int)
    requires UniqueIds(rows)
    ensures UniqueIds(UpdateRows(rows, id, u, now))
  {
  }

  /** Filter `eq('id', id).eq('user_id', userId)` negated: what a delete
      with those two filters leaves. */
  function RemoveOwned(rows: seq<Booking>, id: string, userId: string): (r: seq<Booking>)
    ensures forall b :: b in r <==> b in rows && !(b.id == id && b.userId == userId)
  {
    Filter(rows, Survives(id, userId))
  }

  /** The rows a delete with `eq('id', id).eq('user_id', userId)` keeps. */
  function Survives(id: string, userId: string): Booking -> bool {
    (b: Booking) => !(b.id == id && b.userId == userId)
  }

  class BookingTable {
    var rows: seq<Booking>

    ghost predicate Valid()
      reads this
    {
      UniqueIds(rows)
    }

    constructor (initial: seq<Booking>)
      requires UniqueIds(initial)
      ensures Valid() && rows == initial
    {
      rows := initial;
    }

    /** `insert([row]).select().single()` */
    method Insert(row: Booking, fault: Option<DbError>) returns (r: Result<Booking>)
      requires Valid()
      modifies this
      ensures Valid()
      ensures fault.Some? ==> r == Err(Backend(fault.value)) && rows == old(rows)
      ensures fault.None? && IndexOf(old(rows), row.id).Some? ==> r == Err(Backend(DuplicateKey())) && rows == old(rows)
      ensures fault.None? && IndexOf(old(rows), row.id).None? ==> r == Ok(row) && rows == old(rows) + [row]
    {
      if fault.Some? {
        return Err(Backend(fault.value));
      }
      var k := IndexOf(rows, row.id);
      if k.Some? {
        return Err(Backend(DuplicateKey()));
      }
      rows := rows + [row];
      r := Ok(row);
    }

    /** `update(u).eq('id', id).select().single()`: with no such row the
        update touches nothing and `.single()` reports PGRST116. */
    method UpdateById(id: string, u: RowUpdate, now: int, fault: Option<DbError>) returns (r: Result<Booking>)
      requires Valid()
      modifies this
      ensures Valid()
      ensures fault.Some? ==> r == Err(Backend(fault.value)) && rows == old(rows)
      ensures fault.None? && IndexOf(old(rows), id).None? ==> r == Err(Backend(NoSingleRow())) && rows == old(rows)
      ensures fault.None? && IndexOf(old(rows), id).Some? ==>
                rows == UpdateRows(old(rows), id, u, now) &&
                r == Ok(Apply(old(rows)[IndexOf(old(rows), id).value], u, now))
    {
      if fault.Some? {
        return Err(Backend(fault.value));
      }
      var k := IndexOf(rows, id);
      if k.None? {
        return Err(Backend(NoSingleRow()));
      }
      var i := k.value;
      var updated := Apply(rows[i], u, now);
      rows := rows[i := updated];
      UpdateKeepsKeys(old(rows), id, u, now);
      r := Ok(updated);
    }

    /** `delete().eq('id', id).eq('user_id', userId)`; the result is the
        error the backend reports, if any. */
    method DeleteOwned(id: string, userId: string, fault: Option<DbError>) returns (r: Option<DbError>)
      requires Valid()
      modifies this
      ensures Valid()
      ensures fault.Some? ==> r == fault && rows == old(rows)
      ensures fault.None? ==> r == None && rows == RemoveOwned(old(rows), id, userId)
    {
      if fault.Some? {
        return fault;
      }
      var kept := RemoveOwned(rows, id, userId);
      FilterKeepsUniqueBy(rows, BookingId, Survives(id, userId));
      rows := kept;
      r := None;
    }
  }
}
