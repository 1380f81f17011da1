/** The admin's dialog listing one user's bookings: the badge variant and
    the capitalised label of each status, and the fetch that fills the list
    when the dialog opens. */
module UserBookingsDialog {
  import opened Common
  import opened Queries
  import opened Bookings

  datatype BadgeVariant = Default | Destructive | Outline

  /** The badge ternary both columns use: `good` gets the default badge,
      `bad` the destructive one, any other value the outline. */
  function Badge(value: string, good: string, bad: string): (v: BadgeVariant)
    requires good != bad
    ensures v == Default <==> value == good
    ensures v == Destructive <==> value == bad
    ensures v == Outline <==> value != good && value != bad
  {
    if value == good then Default
    else if value == bad then Destructive
    else Outline
  }

  /** The badge of the booking status. */
  function StatusBadge(status: string): BadgeVariant {
    Badge(status, "confirmed", "cancelled")
  }

  /** The badge of the payment status. */
  function PaymentBadge(payment: string): BadgeVariant {
    Badge(payment, "paid", "failed")
  }

  /** Of the stored values, only a pending booking or a pending payment gets
      the outline badge. */
  lemma StoredBadges(s: BookingStatus, p: PaymentStatus)
    ensures StatusBadge(StatusText(s)) == Outline <==> s == Pending
    ensures PaymentBadge(PaymentText(p)) == Outline <==> p == PaymentPending
  {
  }

  /** `toUpperCase` on one character, for the Latin letters. */
  function UpperAscii(c: char): (u: char)
    ensures 'a' <= c <= 'z' ==> 'A' <= u <= 'Z' && (u as int) == (c as int) - 32
    ensures !('a' <= c <= 'z') ==> u == c
  {
    if 'a' <= c <= 'z' then ((c as int) - 32) as char else c
  }

  /** `charAt(0).toUpperCase() + slice(1)`. */
  function Capitalize(s: string): (r: string)
    ensures |r| == |s|
    ensures |s| > 0 ==> r[0] == UpperAscii(s[0]) && r[1..] == s[1..]
  {
    if |s| == 0 then "" else [UpperAscii(s[0])] + s[1..]
  }

  /** Capitalising a label twice changes nothing more. */
  lemma CapitalizeIdempotent(s: string)
    ensures Capitalize(Capitalize(s)) == Capitalize(s)
  {
  }

  /** The labels of the stored statuses. */
  lemma StoredLabels()
    ensures Capitalize(StatusText(Confirmed)) == "Confirmed"
    ensures Capitalize(StatusText(Cancelled)) == "Cancelled"
    ensures Capitalize(PaymentText(Paid)) == "Paid"
    ensures Capitalize(PaymentText(PaymentFailed)) == "Failed"
  {
  }

  class BookingsDialog {
    /** None until a query has been made for an open dialog. */
    var bookings: Option<seq<Booking>>
    var loading: bool

    constructor ()
      ensures bookings == None && !loading
    {
      bookings := None;
      loading := false;
    }

    /** The effect run when `open` or `userId` changes: an open dialog with
        a user queries that user's bookings, latest date first, and a failed
        query shows an empty list; otherwise the list is reset. */
    method Refresh(open: bool, userId: Option<string>, rows: seq<Booking>, queryFails: bool)
      modifies this
      ensures !(open && Truthy(userId)) ==> bookings == None && loading == old(loading)
      ensures open && Truthy(userId) ==> !loading && bookings.Some?
      ensures open && Truthy(userId) && queryFails ==> bookings == Some([])
      ensures open && Truthy(userId) && !queryFails ==>
                Sorted(bookings.value, BookingDate, false)
                && (forall b :: b in bookings.value <==> b in rows && b.userId == userId.value)
                && multiset(bookings.value) == multiset(Filter(rows, OwnedBy(userId.value)))
    {
      if open && Truthy(userId) {
        // The query ends the loading phase it started.
        loading := false;
        if queryFails {
          bookings := Some([]);
        } else {
          bookings := Some(Select(rows, OwnedBy(userId.value), BookingDate, false));
        }
      } else {
        bookings := None;
      }
    }
  }
}
