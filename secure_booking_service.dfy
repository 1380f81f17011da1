/** The secure booking service: every call first asks the identity service
    for the signed-in user (`caller`, absent when the call fails or nobody
    is signed in), creation validates its input before that, and
    cancellation deletes the row only after checking who owns it. */
module SecureBooking {
  import opened Common
  import opened Queries
  import opened Bookings
  import opened ValidationSchemas

  const AuthRequired := "Authentication required"
  const CreateFailed := "Failed to create booking"
  const FetchFailed := "Failed to fetch bookings"
  const NotFound := "Booking not found"
  const NotOwner := "Unauthorized: You can only cancel your own bookings"
  const CancelFailed := "Failed to cancel booking"

  /** What `createSecureBooking` asks the backend to insert: the validated
      fields and the caller as `user_id`. */
  datatype SecureInsert = SecureInsert(form: BookingForm, userId: string)

  /** `createSecureBooking`: schema first, then the user, then the insert. */
  function CreateSecureBooking(form: BookingForm, isUuid: string -> bool, caller: Option<string>,
                               insertFails: bool): (r: Result<SecureInsert>)
    ensures BookingIssues(form, isUuid) != [] ==> r == Err(ZodError(BookingIssues(form, isUuid)))
    ensures r.Ok? <==> BookingIssues(form, isUuid) == [] && caller.Some? && !insertFails
    ensures r.Ok? ==> r.value.userId == caller.value && r.value.form == form
    ensures BookingIssues(form, isUuid) == [] && caller.None? ==> r == Err(Plain(AuthRequired))
    ensures BookingIssues(form, isUuid) == [] && caller.Some? && insertFails ==> r == Err(Plain(CreateFailed))
  {
    var issues := BookingIssues(form, isUuid);
    if issues != [] then Err(ZodError(issues))
    else if caller.None? then Err(Plain(AuthRequired))
    else if insertFails then Err(Plain(CreateFailed))
    else Ok(SecureInsert(form, caller.value))
  }

  /** Invalid input is rejected the same way whoever is signed in. */
  lemma InvalidRejectedBeforeAuth(form: BookingForm, isUuid: string -> bool, c1: Option<string>, c2: Option<string>,
                                  f1: bool, f2: bool)
    requires !(isUuid(form.turfId) && form.date != "" && form.time != "" && form.price > 0)
    ensures CreateSecureBooking(form, isUuid, c1, f1) == CreateSecureBooking(form, isUuid, c2, f2)
    ensures CreateSecureBooking(form, isUuid, c1, f1).Err? && CreateSecureBooking(form, isUuid, c1, f1).error.ZodError?
  {
  }

  /** `getUserSecureBookings`: the caller's rows, newest first. */
  function GetUserSecureBookings(rows: seq<Booking>, caller: Option<string>, queryFails: bool): (r: Result<seq<Booking>>)
    ensures caller.None? ==> r == Err(Plain(AuthRequired))
    ensures caller.Some? && queryFails ==> r == Err(Plain(FetchFailed))
    ensures caller.Some? && !queryFails ==>
              r.Ok? && Sorted(r.value, CreatedAt, false)
              && (forall b :: b in r.value <==> b in rows && b.userId == caller.value)
              && multiset(r.value) == multiset(Filter(rows, OwnedBy(caller.value)))
  {
    if caller.None? then Err(Plain(AuthRequired))
    else if queryFails then Err(Plain(FetchFailed))
    else Ok(Select(rows, OwnedBy(caller.value), CreatedAt, false))
  }

  /** With unique ids, deleting by id and owner removes exactly the one row. */
  lemma RemoveOwnedExactlyOne(rows: seq<Booking>, k: nat)
    requires UniqueIds(rows) && k < |rows|
    ensures RemoveOwned(rows, rows[k].id, rows[k].userId) == rows[..k] + rows[k + 1..]
  {
    FilterDropsOne(rows, Survives(rows[k].id, rows[k].userId), k);
  }

  /** `cancelSecureBooking`: signed-in user, then the row must exist, then it
      must be the caller's, and only then is it deleted (by id and owner). */
  method CancelSecureBooking(table: BookingTable, id: string, caller: Option<string>, fetchFails: bool,
                             deleteFault: Option<DbError>) returns (r: Result<()>)
    requires table.Valid()
    modifies table
    ensures table.Valid()
    ensures caller.None? ==> r == Err(Plain(AuthRequired)) && table.rows == old(table.rows)
    ensures caller.Some? && (fetchFails || IndexOf(old(table.rows), id).None?) ==>
              r == Err(Plain(NotFound)) && table.rows == old(table.rows)
    ensures caller.Some? && !fetchFails && IndexOf(old(table.rows), id).Some?
            && old(table.rows)[IndexOf(old(table.rows), id).value].userId != caller.value ==>
              r == Err(Plain(NotOwner)) && table.rows == old(table.rows)
    ensures r.Ok? ==>
              caller.Some? && IndexOf(old(table.rows), id).Some? &&
              var k := IndexOf(old(table.rows), id).value;
              old(table.rows)[k].userId == caller.value && table.rows == old(table.rows)[..k] + old(table.rows)[k + 1..]
    ensures caller.Some? && !fetchFails && IndexOf(old(table.rows), id).Some?
            && old(table.rows)[IndexOf(old(table.rows), id).value].userId == caller.value ==>
              (deleteFault.None? ==> r.Ok?)
              && (deleteFault.Some? ==> r == Err(Plain(CancelFailed)) && table.rows == old(table.rows))
    ensures r.Err? ==> table.rows == old(table.rows)
  {
    if caller.None? {
      return Err(Plain(AuthRequired));
    }
    var k := IndexOf(table.rows, id);
    if fetchFails || k.None? {
      return Err(Plain(NotFound));
    }
    var owner := table.rows[k.value].userId;
    if owner != caller.value {
      return Err(Plain(NotOwner));
    }
    RemoveOwnedExactlyOne(table.rows, k.value);
    var e := table.DeleteOwned(id, caller.value, deleteFault);
    if e.Some? {
      return Err(Plain(CancelFailed));
    }
    r := Ok(());
  }
}
