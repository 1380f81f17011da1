# Turf booking client — a verified model of its decision logic

The system is a single-page client for booking sports turfs over a hosted
backend. Customers book and cancel hourly slots. Turf owners and
administrators maintain turfs. A role read from the profiles table decides
which pages a signed-in user may see.

This project models the client's decision logic in Dafny:

- **Tables.** The `bookings`, `turfs` and `profiles` tables are classes holding a sequence of rows. Each backend query becomes what its builder calls say: `eq`/`neq`/`gte`/`in` are filters, `order` is a sort, and `insert`/`update`/`delete`/`upsert` replace the sequence.
- **Services.** The booking, turf, admin and profile services are methods on those tables, or functions over their rows. Each has its guards (signed-in caller, owner, administrator) and error paths.
- **Validation and errors.** The validation schemas are functions returning the list of issues. The error handler classifies errors into the text shown to the user.
- **Session and access.** The authentication context is a class with the user, the role and a loading flag. The route guard and the landing redirect are decision functions over it.
- **Components.** The components' handlers are functions, or methods on a class holding the component's state. These cover slot generation and selection, booking history, the admin's turf dialog and bookings dialog, and the login, sign-up, reset-password and booking forms.

Conventions used throughout the model:

| Concept in the source | How the model represents it |
|---|---|
| Backend failures | Inputs: `fault: Option<DbError>`, or a `...Fails: bool` flag |
| The signed-in user (`auth.getUser`) | `caller: Option<string>` |
| Ids and timestamps the backend chooses for `bookings` and `turfs` | Inputs (a profile's `id` has no default; see Findings) |
| Times of day | Minutes since midnight |
| Booking dates | Day numbers, which sort as ISO date strings do |
| "Now" and other instants | Milliseconds |
| Ratings | Tenths, so 4.0 is 40 |

## Model

| member | source | states |
|---|---|---|
| Bookings.StatusTextRoundTrip | src/services/bookingService.ts:12 | the three booking statuses are exactly the texts 'pending', 'confirmed', 'cancelled', and text and status convert both ways |
| Bookings.PaymentTextRoundTrip | src/services/bookingService.ts:13 | the three payment statuses are exactly 'pending', 'paid', 'failed', both ways |
| Bookings.IndexOf | src/services/bookingService.ts:119 | `eq('id', id)`: the position found holds that id; none is found exactly when no row has it |
| Bookings.Apply | src/services/bookingService.ts:118 | an update of one row changes only the status (or, for a confirmation, the status and the payment status) and `updated_at` |
| Bookings.UpdateRows | src/services/bookingService.ts:116-119 | `update(...).eq('id', id)`: the rows with that id are updated, every other row is unchanged |
| Bookings.UpdateKeepsKeys | src/services/bookingService.ts:116-119 | an update keeps the ids unique |
| Bookings.RemoveOwned | src/services/secureBookingService.ts:77-81 | `delete().eq('id').eq('user_id')` keeps exactly the rows that do not match both |
| Bookings.BookingTable.constructor | src/services/bookingService.ts:4-16 | a table starts with rows whose ids are unique |
| Bookings.BookingTable.Insert | src/services/bookingService.ts:41-48 | an insert appends the row, or fails on a backend error or a duplicate id and leaves the table unchanged |
| Bookings.BookingTable.UpdateById | src/services/bookingService.ts:116-126 | an update by id rewrites that row and returns it; with no such row it reports PGRST116 and changes nothing |
| Bookings.BookingTable.DeleteOwned | src/services/secureBookingService.ts:77-86 | the delete removes the matching rows, or returns the backend's error and changes nothing |
| BookingService.NewRow | src/services/bookingService.ts:43-46 | the inserted row is the caller's data with `user_id` = caller, status and payment status pending |
| BookingService.CheckAvailability | src/services/bookingService.ts:95-108 | free iff no row on that turf and date, not cancelled, has `start_time <= endTime` and `end_time >= startTime`; backend errors are rethrown |
| BookingService.BackToBackBlocks | src/services/bookingService.ts:101 | a booking that ends exactly when the requested one starts blocks it (both ends inclusive) |
| BookingService.HalfOpenOverlapConflicts | src/services/bookingService.ts:101 | every half-open overlap is also a conflict under the inclusive test |
| BookingService.IrrelevantRowIgnored | src/services/bookingService.ts:98-100 | a cancelled row, or a row on another turf or date, never changes the answer |
| BookingService.AddingRowOnlyBlocks | src/services/bookingService.ts:95-108 | adding a row can only turn "free" into "taken", never the reverse |
| BookingService.CheckedInsertKeepsNoOverlap | src/services/bookingService.ts:95-108 | inserting only rows the check found free keeps the table free of overlapping live bookings |
| BookingService.StatusChangeKeepsNoOverlap | src/services/bookingService.ts:116-119 | a status change that never revives a cancelled booking keeps the table free of overlaps |
| BookingService.CreateBooking | src/services/bookingService.ts:35-53 | no caller: fails and inserts nothing; a backend error is rethrown as it is and a taken id gives 23505, both with the table unchanged; otherwise inserts the data with `user_id` = caller |
| BookingService.GetUserBookings | src/services/bookingService.ts:60-85 | no caller: fails; otherwise exactly the caller's rows (as a multiset), latest `booking_date` first; backend errors rethrown |
| BookingService.UpdateBookingStatus | src/services/bookingService.ts:112-128 | only that row's status and `updated_at` change; PGRST116 when there is no such row |
| EnhancedBooking.ConfirmBooking | src/services/enhancedBookingService.ts:6-24 | that row becomes confirmed and paid, nothing else changes; errors rethrown |
| EnhancedBooking.CancelBooking | src/services/enhancedBookingService.ts:61-78 | that row becomes cancelled with its payment status kept; no ownership or time check |
| EnhancedBooking.CancelIdempotent | src/services/enhancedBookingService.ts:61-78 | cancelling twice equals cancelling once, up to `updated_at` |
| EnhancedBooking.ConfirmChangesOnlyTarget | src/services/enhancedBookingService.ts:7-16 | other rows are untouched; the target differs only in status, payment status and `updated_at` |
| EnhancedBooking.GetUpcomingBookings | src/services/enhancedBookingService.ts:27-57 | no caller: fails first; otherwise the caller's confirmed or pending rows dated today or later, earliest first |
| EnhancedBooking.CanCancelBooking | src/services/enhancedBookingService.ts:81-88 | an unparseable start (NaN) is never cancellable |
| EnhancedBooking.CanCancelIff | src/services/enhancedBookingService.ts:81-88 | cancellable iff the start is at least 43,200,000 ms after now; exactly 12 hours counts |
| EnhancedBooking.CanCancelMonotone | src/services/enhancedBookingService.ts:84-87 | once not cancellable, never cancellable at a later "now" |
| EnhancedBooking.CanCancelExamples | src/services/enhancedBookingService.ts:81-88 | 11 hours ahead is too late, 37 hours ahead is fine |
| SecureBooking.CreateSecureBooking | src/services/secureBookingService.ts:5-30 | the schema runs first (its error is raised as is); then the caller; the payload is the validated fields with `user_id` = caller |
| SecureBooking.InvalidRejectedBeforeAuth | src/services/secureBookingService.ts:7-13 | invalid input is rejected the same way whoever is signed in |
| SecureBooking.GetUserSecureBookings | src/services/secureBookingService.ts:32-52 | no caller: 'Authentication required'; otherwise exactly the caller's rows, newest `created_at` first |
| SecureBooking.RemoveOwnedExactlyOne | src/services/secureBookingService.ts:77-81 | with unique ids, the owner-checked delete removes exactly the one row |
| SecureBooking.CancelSecureBooking | src/services/secureBookingService.ts:54-87 | unauthenticated, unknown id or another user's booking: the matching error and no change; the owner's own cancel succeeds unless the delete fails, and then 'Failed to cancel booking' with no change; success removes exactly that row |
| Turfs.StoredTurf | src/services/turfService.ts:86-90 | the stored row is the draft with the chosen owner, active, and both timestamps now |
| Turfs.ApplyPatch | src/services/turfService.ts:113-117 | each supplied field is written and every other field kept; `updated_at` is now |
| Turfs.EmptyPatchTouchesOnlyTimestamp | src/services/turfService.ts:113-117 | an empty patch changes only `updated_at` |
| Turfs.PatchIdempotent | src/services/turfService.ts:113-117 | writing the same patch twice equals writing it once |
| Turfs.PatchRows | src/services/turfService.ts:111-117 | only the row with that id is patched |
| Turfs.TurfTable.constructor | src/services/turfService.ts:4-20 | a turf table starts with unique ids |
| Turfs.TurfTable.Insert | src/services/turfService.ts:84-92 | appends the row, or fails (backend error, duplicate id) with no change |
| Turfs.TurfTable.UpdateById | src/services/turfService.ts:111-119 | patches that row and returns it; PGRST116 and no change without one |
| Turfs.TurfTable.DeleteById | src/services/turfService.ts:134-137 | keeps every row whose id differs, or returns the error with no change |
| Turfs.DeleteRemovesOnlyThatRow | src/services/turfService.ts:134-137 | with unique ids the delete removes exactly one row and keeps the order of the rest |
| TurfService.GetAllTurfs | src/services/turfService.ts:23-46 | the active turfs, newest first; any error gives `[]` |
| TurfService.GetTurfById | src/services/turfService.ts:49-71 | a result is the active row with that id; any error gives null |
| TurfService.GetTurfByIdFindsActive | src/services/turfService.ts:53-58 | with unique ids an active turf is always found by its id |
| TurfService.InactiveHidden | src/services/turfService.ts:57 | an inactive turf is never returned |
| TurfService.AddTurf | src/services/turfService.ts:74-105 | requires a caller; a signed-in caller's insert succeeds unless the backend fails or the id is taken; the stored row has `owner_id` = caller and `is_active` = true whatever the input; errors get the 'Failed to add turf:' prefix |
| TurfService.UpdateTurf | src/services/turfService.ts:108-128 | only that row changes, by the patch; errors rethrown |
| TurfService.DeleteTurf | src/services/turfService.ts:131-145 | removes only the rows with that id; errors rethrown |
| TurfService.GetTurfsByOwner | src/services/turfService.ts:148-164 | all of that owner's turfs, active or not, newest first; errors rethrown |
| AdminService.OwnerSignUp | src/services/adminService.ts:41-52 | the new account's metadata has role 'turf_owner' and phone defaulting to '' |
| AdminService.CreateTurfOwnerAccount | src/services/adminService.ts:20-85 | a sign-up is sent iff the caller's profile role is exactly 'admin'; no user, not admin, sign-up error, no user returned and missing profile row each fail with their message |
| AdminService.NonAdminNeverSignsUp | src/services/adminService.ts:30-38 | a caller whose row is missing or not 'admin' never creates an account |
| AdminService.AdminRating | src/services/adminService.ts:125 | `rating || 4.0` |
| AdminService.ChosenOwner | src/services/adminService.ts:95-110 | a new owner is created iff email, first and last name are all non-empty; otherwise the caller, and failing without one |
| AdminService.AdminAddTurfWithOwner | src/services/adminService.ts:88-143 | once an owner is chosen the insert succeeds unless the backend fails or the id is taken; the inserted turf has the chosen owner, is active, and rating `\|\| 4.0`; every failure is a message error and leaves the table unchanged |
| AdminService.AdminUpdateTurf | src/services/adminService.ts:145-165 | only that row changes, by the patch; errors are rethrown with the 'Failed to update turf:' prefix |
| AdminService.AdminGetAllTurfs | src/services/adminService.ts:167-179 | all turfs, inactive included, newest first; errors rethrown |
| AdminService.AdminDeleteTurf | src/services/adminService.ts:181-195 | removes only the rows with that id; errors get the 'Failed to delete turf:' prefix |
| Profiles.LookupRole | src/contexts/AuthContext.tsx:24-28 | `select('role').eq('id').single()`: a role found is the role of a row with that id; a failed read finds none |
| Profiles.LookupRoleFindsRow | src/contexts/AuthContext.tsx:24-28 | with unique ids the read succeeds iff a row with that id exists |
| Profiles.LookupRoleOfRow | src/components/RoleRedirect.tsx:20-24 | with unique ids the read of a stored row's id gives that row's role |
| Profiles.ProfileTable.constructor | src/services/profileService.ts:4-13 | a profile table starts with unique ids |
| Profiles.ProfileTable.Insert | src/services/profileService.ts:70-80 | appends the row, or fails with no change |
| Profiles.ProfileTable.Upsert | src/services/profileService.ts:39-47 | replaces the row with that id or appends it; errors change nothing |
| ProfileService.GetUserProfile | src/services/profileService.ts:16-29 | the one profile whose `user_id` matches; an error, no row or several give null |
| ProfileService.UpsertedRow | src/services/profileService.ts:41-45 | the written row has `user_id` = caller whatever the input, the supplied fields, and the existing row's other fields |
| ProfileService.ExistingRow | src/services/profileService.ts:39-47 | the row an upsert keyed on `id` meets: present iff a row has that id |
| ProfileService.UpsertUserProfile | src/services/profileService.ts:32-55 | unauthenticated: fails with no write; a patch without `id` is refused (not-null); otherwise the result is the merged row of `UpsertedRow`, which replaces the row with that id or is appended, every other row unchanged |
| ProfileService.InitialRoleText | src/services/profileService.ts:62 | a self-chosen role is 'customer' or 'turf_owner' |
| ProfileService.InitialProfileRow | src/services/profileService.ts:72-78 | names default to '', phone is '', role defaults to 'customer' |
| ProfileService.InitialProfileNeverAdmin | src/services/profileService.ts:62-77 | self-registration never gives the role 'admin' |
| ProfileService.CreateInitialProfile | src/services/profileService.ts:58-88 | as written: unauthenticated fails; otherwise the insert, which sends no `id`, is always refused (see Findings) |
| ProfileService.CreateInitialProfileForCaller | src/services/profileService.ts:58-88 | keyed on the caller's id: succeeds iff signed in, no fault and no profile yet, appending the default row; a duplicate gives 23505 |
| ProfileService.InitialProfileRoleFound | src/services/profileService.ts:72-78 | after the keyed insert, the role lookup by the account's id finds the new profile's role |
| MockData.SlotsFor | src/data/mockData.ts:139-150 | slot `i` is the slot of hour 6 + i, for sixteen hours |
| MockData.GenerateTimeSlots | src/data/mockData.ts:133-153 | the loop pushes exactly the slots of hours 6 to 21 in order |
| MockData.SlotsShape | src/data/mockData.ts:136-150 | sixteen slots; slot `i` has the id and label of hour 6 + i and that hour's availability |
| MockData.HourLabelCases | src/data/mockData.ts:144 | hours 6–11 read 'h:00 AM', 12 reads '12:00 PM', 13–21 read '(h−12):00 PM' |
| MockData.FirstAndLastLabel | src/data/mockData.ts:144 | the first label is '6:00 AM' and the last '9:00 PM' |
| MockData.SlotIdsDistinct | src/data/mockData.ts:147 | two hours of one day never share an id |
| MockData.SlotsHaveDistinctIds | src/data/mockData.ts:147 | the ids of one call are pairwise distinct |
| MockData.DateAffectsOnlyIds | src/data/mockData.ts:144-147 | two dates give slots that differ only in their ids |
| Text.NatToStringRoundTrip | src/data/mockData.ts:147 | the decimal text of an hour reads back as that hour |
| Text.NatToStringInjective | src/data/mockData.ts:147 | different hours have different decimal texts |
| Text.Trim | src/components/AdminTurfDialog.tsx:81 | `trim()`: the result is a slice `s[i..j]` with only whitespace cut off before `i` and after `j`, and none left at either end |
| Text.TrimKeepsOut | src/components/AdminTurfDialog.tsx:81 | trimming never adds a character, so a piece without a comma stays without one |
| Text.Split | src/components/AdminTurfDialog.tsx:81 | `split(',')`: the pieces hold no comma and there is one more piece than commas |
| Text.ContainsIffOccurs | src/lib/errorHandler.ts:42-48 | `includes(t)` holds iff `t` occurs at some position |
| TimeSlotGrid.NextSelection | src/components/TimeSlotGrid.tsx:15-22 | an unavailable slot leaves the selection; the selected slot deselects; any other available slot becomes the selection |
| TimeSlotGrid.ClickTwiceClears | src/components/TimeSlotGrid.tsx:21 | two clicks on a free slot from no selection end with none |
| TimeSlotGrid.SelectionStaysAvailable | src/components/TimeSlotGrid.tsx:15-22 | a selection that starts empty or free stays empty or free |
| ValidationSchemas.LengthIssues | src/lib/validationSchemas.ts:10-11 | `min(lo).max(hi)`: no issue iff the length is within the bounds |
| ValidationSchemas.RequiredIssues | src/lib/validationSchemas.ts:26-27 | `min(1)`: no issue iff the text is non-empty |
| ValidationSchemas.PositiveIssues | src/lib/validationSchemas.ts:28 | `positive()`: no issue iff the number is above zero |
| ValidationSchemas.CheckIssues | src/lib/validationSchemas.ts:5-25 | a recogniser's verdict reported under its field |
| ValidationSchemas.LoginIssues | src/lib/validationSchemas.ts:4-7 | accepted iff the email is recognised and the password has at least 6 characters |
| ValidationSchemas.PhoneShape | src/lib/validationSchemas.ts:13 | an optional '+', a digit 1–9, then 1–14 digits; 2 to 16 characters in all |
| ValidationSchemas.PasswordIssues | src/lib/validationSchemas.ts:14-17 | accepted iff at least 8 characters with a lowercase letter, an uppercase letter and a digit |
| ValidationSchemas.NoneAboutAppend | src/lib/validationSchemas.ts:9-18 | issues about other fields never concern `confirmPassword` |
| ValidationSchemas.SignupFieldIssues | src/lib/validationSchemas.ts:9-18 | accepted iff every field passes its check; no issue concerns `confirmPassword` |
| ValidationSchemas.SignupIssues | src/lib/validationSchemas.ts:9-22 | accepted iff the fields pass and the passwords agree; a mismatch is the last issue, on `confirmPassword` only |
| ValidationSchemas.BookingIssues | src/lib/validationSchemas.ts:24-29 | accepted iff the turf id is a uuid, date and time are non-empty and the price is positive |
| ValidationSchemas.DescriptionIssues | src/lib/validationSchemas.ts:36 | accepted iff absent or at most 500 characters |
| ValidationSchemas.TurfIssues | src/lib/validationSchemas.ts:31-37 | accepted iff name 1..100, location 1..200, sport non-empty, price positive, description absent or at most 500 |
| ErrorHandler.GetUserFriendlyMessage | src/lib/errorHandler.ts:28-52 | an AppError gives its own message first; then PGRST116, 23505, 'JWT' before 'network', then the generic text |
| ErrorHandler.FriendlyMessageIsFixed | src/lib/errorHandler.ts:33-51 | any error other than an AppError is shown as one of five fixed texts |
| ErrorHandler.JwtBeforeNetwork | src/lib/errorHandler.ts:42-48 | a message naming both keywords is a session problem |
| ErrorHandler.CodeBeforeMessage | src/lib/errorHandler.ts:34-40 | a code decides before the message does |
| ErrorHandler.HandleError | src/lib/errorHandler.ts:15-26 | the caller's message when one is given, otherwise the classified one |
| ErrorHandler.ValidateInput | src/lib/errorHandler.ts:54-60 | the data when the schema accepts it, otherwise AppError('Invalid input data', 'VALIDATION_ERROR', 400) |
| ErrorHandler.RejectedInputMessage | src/lib/errorHandler.ts:54-60 | a rejected input is shown as 'Invalid input data' |
| AuthContext.RoleOf | src/contexts/AuthContext.tsx:30-35 | a failed read gives null; `data?.role \|\| null` keeps only a non-empty role |
| AuthContext.SessionRole | src/contexts/AuthContext.tsx:22-38 | the role is a non-empty role stored in the user's row; a failed read gives none |
| AuthContext.SessionRoleIsStoredRole | src/contexts/AuthContext.tsx:22-38 | with unique ids the session role is exactly the row's non-empty role |
| AuthContext.UseAuth | src/contexts/AuthContext.tsx:107-113 | the context inside a provider; outside one, the error 'useAuth must be used within an AuthProvider' |
| AuthContext.AuthState.constructor | src/contexts/AuthContext.tsx:18-20 | no user, no role, loading |
| AuthContext.AuthState.Snapshot | src/contexts/AuthContext.tsx:94-102 | `isAuthenticated` holds iff a user is present |
| AuthContext.AuthState.FetchUserAndRole | src/contexts/AuthContext.tsx:22-41 | the user is the session user and loading ends; the role is the session role, or null without a user |
| AuthContext.AuthState.SignIn | src/contexts/AuthContext.tsx:59-70 | state changes only when the service returns a user; the error is returned unchanged |
| AuthContext.AuthState.SignUp | src/contexts/AuthContext.tsx:72-86 | sends the request with the given metadata; state changes only when a user is returned; the error is returned unchanged |
| AuthContext.AuthState.SignOut | src/contexts/AuthContext.tsx:88-92 | user and role are cleared, loading is untouched, and no one is authenticated |
| ProtectedRoute.Decide | src/components/ProtectedRoute.tsx:50-71 | spinner iff loading; login redirect (carrying the location) iff auth is required and missing; home iff a guest-only page meets a user or a known role is not allowed; otherwise the page |
| ProtectedRoute.ChildrenOnlyWhenAllowed | src/components/ProtectedRoute.tsx:58-71 | a page that needs a session is shown only to a signed-in user whose role is allowed, unknown or empty |
| ProtectedRoute.UnknownRoleRendersPage | src/components/ProtectedRoute.tsx:35-67 | a null role lets the page render even with a role list |
| ProtectedRoute.FetchedRole | src/components/ProtectedRoute.tsx:33-38 | a failed read gives null; a successful one gives `data.role` as stored |
| ProtectedRoute.RouteGuard.constructor | src/components/ProtectedRoute.tsx:16-17 | no role, role loading |
| ProtectedRoute.RouteGuard.RoleEffect | src/components/ProtectedRoute.tsx:19-48 | no user or no role list: no read and loading cleared; otherwise the read role, null on failure, and loading cleared |
| RoleRedirect.RouteForRole | src/components/RoleRedirect.tsx:31-42 | 'admin' goes to /admin/dashboard, 'turf_owner' to /owner/dashboard, any other value to /customer/home |
| RoleRedirect.Redirect | src/components/RoleRedirect.tsx:11-46 | nothing while loading; /login without a user; no navigation iff the read fails or finds no row |
| RoleRedirect.RedirectToStoredRole | src/components/RoleRedirect.tsx:20-42 | a signed-in user with a row is sent to the home of the role stored in it |
| RoleRedirect.NoRowNoRedirect | src/components/RoleRedirect.tsx:26-29 | a user without a profile row is not redirected |
| BookingHistory.GetStatusColor | src/components/BookingHistory.tsx:49-60 | confirmed green, pending yellow, cancelled red, anything else gray, each both ways |
| BookingHistory.StoredStatusColours | src/components/BookingHistory.tsx:49-60 | every stored status has its own colour, never gray |
| BookingHistory.CancelGating | src/components/BookingHistory.tsx:95-149 | a confirmed booking shows exactly one of the button and the notice; others show neither |
| BookingHistory.CancelButtonIff | src/components/BookingHistory.tsx:95-149 | button iff confirmed and at least 12 hours ahead; notice iff confirmed and less |
| BookingHistory.RefetchShowsCancelled | src/components/BookingHistory.tsx:38-40 | the list refetched after a cancel shows that booking as cancelled |
| BookingHistory.BookingHistoryView.constructor | src/components/BookingHistory.tsx:14-17 | no bookings, loading, nothing being cancelled |
| BookingHistory.BookingHistoryView.FetchBookings | src/components/BookingHistory.tsx:23-33 | the caller's bookings replace the list, or the list stays and 'Failed to load bookings' is shown; loading ends either way |
| BookingHistory.BookingHistoryView.HandleCancelBooking | src/components/BookingHistory.tsx:35-47 | only a successful cancel refetches, whose failure shows 'Failed to load bookings'; the cancelling mark is cleared on success and failure |
| UserBookingsDialog.Badge | src/components/UserBookingsDialog.tsx:82-87 | the badge ternary: the good value → default, the bad value → destructive, anything else → outline (status: confirmed/cancelled; payment: paid/failed) |
| UserBookingsDialog.StoredBadges | src/components/UserBookingsDialog.tsx:82-87 | of the stored values only pending gets the outline badge |
| UserBookingsDialog.UpperAscii | src/components/UserBookingsDialog.tsx:83 | `toUpperCase()` on a Latin lowercase letter, other characters unchanged |
| UserBookingsDialog.Capitalize | src/components/UserBookingsDialog.tsx:83-88 | first character uppercased, the rest unchanged, length kept |
| UserBookingsDialog.CapitalizeIdempotent | src/components/UserBookingsDialog.tsx:83-88 | capitalising twice equals capitalising once |
| UserBookingsDialog.StoredLabels | src/components/UserBookingsDialog.tsx:83-88 | the labels read 'Confirmed', 'Cancelled', 'Paid', 'Failed' |
| UserBookingsDialog.BookingsDialog.constructor | src/components/UserBookingsDialog.tsx:27-28 | no list, not loading |
| UserBookingsDialog.BookingsDialog.Refresh | src/components/UserBookingsDialog.tsx:30-46 | closed or no user: the list is reset with no query; a failed query gives `[]`; otherwise exactly that user's rows, latest date first |
| AdminTurfDialog.TrimAll | src/components/AdminTurfDialog.tsx:81 | `map(a => a.trim())`, piece by piece |
| AdminTurfDialog.ParseAmenities | src/components/AdminTurfDialog.tsx:81 | the parsed items are non-empty, trimmed and comma-free |
| AdminTurfDialog.CleanPieces | src/components/AdminTurfDialog.tsx:81 | trimmed comma-free pieces with empties dropped form such a list |
| AdminTurfDialog.ParseOnePiece | src/components/AdminTurfDialog.tsx:81 | a text without commas parses as its trimmed self, if non-empty |
| AdminTurfDialog.ParseAtFirstComma | src/components/AdminTurfDialog.tsx:81 | the parse splits at the first comma |
| AdminTurfDialog.ParseFirstItem | src/components/AdminTurfDialog.tsx:45-81 | the first item of a joined list parses as itself |
| AdminTurfDialog.ParseAfterWhitespace | src/components/AdminTurfDialog.tsx:45-81 | whitespace before a joined list is dropped by the parse |
| AdminTurfDialog.AmenitiesRoundTrip | src/components/AdminTurfDialog.tsx:45-81 | joining a list of amenities with ", " and parsing it gives the list back |
| AdminTurfDialog.ParseIsStable | src/components/AdminTurfDialog.tsx:45-81 | a parsed list, shown and parsed again, is unchanged |
| AdminTurfDialog.JoinNonEmpty | src/components/AdminTurfDialog.tsx:45 | a non-empty list shows as non-empty (truthy) text |
| AdminTurfDialog.NumberOr | src/components/AdminTurfDialog.tsx:40-42 | `n \|\| d` on numbers: zero gives the default |
| AdminTurfDialog.InitialForm | src/components/AdminTurfDialog.tsx:35-51 | owner fields empty; without a turf, the defaults 'Pondicherry', 'Football', 500, 500, 22, '/placeholder.svg' and the default amenities |
| AdminTurfDialog.FalsyFieldsDefault | src/components/AdminTurfDialog.tsx:38-45 | a zero price, price per hour or capacity, an empty location or sport, no image and an empty amenity list show as the defaults |
| AdminTurfDialog.WithText | src/components/AdminTurfDialog.tsx:55-57 | `handleChange` on a text field changes that field only |
| AdminTurfDialog.WithNumber | src/components/AdminTurfDialog.tsx:55-57 | `handleChange` on a number field changes that field only |
| AdminTurfDialog.SubmitGuard | src/components/AdminTurfDialog.tsx:60-68 | passes iff name, location and sport are set and, when adding, owner email, first and last name; the required-field message comes first |
| AdminTurfDialog.AddPayload | src/components/AdminTurfDialog.tsx:72-88 | the payload carries the parsed amenities and the owner fields as typed |
| AdminTurfDialog.EditPatch | src/components/AdminTurfDialog.tsx:72-91 | the update keeps the turf's owner and does not touch `is_active` |
| AdminTurfDialog.AddAlwaysCreatesOwner | src/components/AdminTurfDialog.tsx:65-94 | an add that passes the guards always asks for a new owner account |
| AdminTurfDialog.UnchangedEditKeepsRow | src/components/AdminTurfDialog.tsx:35-91 | saving an untouched form for a turf with truthy fields leaves the row as it was, up to `updated_at` |
| AdminTurfDialog.UnchangedEditFillsDescription | src/components/AdminTurfDialog.tsx:43-79 | a turf without a description gets '' when saved untouched |
| AdminTurfDialog.AdminTurfDialogState.constructor | src/components/AdminTurfDialog.tsx:35-53 | the form starts as the initial form and nothing is saving |
| AdminTurfDialog.AdminTurfDialogState.ChangeText | src/components/AdminTurfDialog.tsx:55-57 | one text field of the form takes the value |
| AdminTurfDialog.AdminTurfDialogState.ChangeNumber | src/components/AdminTurfDialog.tsx:55-57 | one number field of the form takes the value |
| AdminTurfDialog.AdminTurfDialogState.HandleSubmit | src/components/AdminTurfDialog.tsx:59-106 | a guard failure shows its message and saves nothing; edit with a turf updates by its id, otherwise adds with owner and closes exactly when that add succeeds; `saving` ends false |
| AdminTurfDialog.SaveEdit | src/components/AdminTurfDialog.tsx:90-102 | closed iff the row exists and the backend did not fail; otherwise the service's message and no change |
| AdminTurfDialog.SaveNew | src/components/AdminTurfDialog.tsx:93-102 | a sign-up is sent iff new-owner details are given and the caller is admin; closed iff an owner was found and the insert neither failed nor met a taken id, and then with the new row appended |
| ResetPassword.PasswordGuard | src/pages/ResetPassword.tsx:50-60 | the mismatch is reported before the length; exactly 6 characters passes |
| ResetPassword.GuardAgreesWithLogin | src/pages/ResetPassword.tsx:56-60 | a new password passes iff the login schema accepts it |
| ResetPassword.ResetPasswordPage.constructor | src/pages/ResetPassword.tsx:14-15 | idle, no message |
| ResetPassword.ResetPasswordPage.CheckLink | src/pages/ResetPassword.tsx:19-45 | a link that is not `type=recovery` with both tokens is invalid; a session error means expired; otherwise nothing changes |
| ResetPassword.ResetPasswordPage.HandlePasswordReset | src/pages/ResetPassword.tsx:47-87 | a guard failure never reaches the update; success sets 'success', a failure 'error' with its message or the fixed text |
| TurfBooking.HandleBooking | src/components/turf/TurfBooking.tsx:22-46 | the session first (login), then date and time; payment gets the turf's id, name, location, image, sport and the hourly price |
| TurfBooking.EnabledButtonReachesPayment | src/components/turf/TurfBooking.tsx:22-85 | an enabled button pressed when signed in always reaches payment at the hourly price |
| TurfBooking.PickedDate | src/components/turf/TurfBooking.tsx:57-61 | the calendar takes a pick unless it is a past day |
| TurfBooking.RenderPanel | src/components/TimeSlotGrid.tsx:14-44 | a render throws exactly when the grid gets no `timeSlots`; otherwise the panel shows its state and the button is enabled exactly when a day and a time are held |
| TurfBooking.NoPanelAsWired | src/components/turf/TurfBooking.tsx:68-73 | as wired, every render of the panel throws in the grid, so no panel and no book button are ever shown (see Findings) |
| TurfBooking.ClickEnablesBooking | src/components/TimeSlotGrid.tsx:15-22 | with the grid wired as intended, a click on a free slot enables the button and booking goes to payment at that slot's time |
| TurfBooking.BookingPanel.constructor | src/components/turf/TurfBooking.tsx:17-18 | today chosen, no time |
| TurfBooking.BookingPanel.SelectDate | src/components/turf/TurfBooking.tsx:57-61 | a past date is refused; a panel holding no past date keeps holding none |
| TurfBooking.BookingPanel.SelectSlot | src/components/TimeSlotGrid.tsx:15-22 | the grid's rule picks the held slot, whose label becomes the booked time; the date is kept |
| Login.SignInErrorText | src/pages/Login.tsx:36-43 | 'Invalid login credentials' first, then 'Email not confirmed', otherwise 'Login failed' |
| Login.LoginTarget | src/pages/Login.tsx:24 | the page the visitor came from, or '/' |
| Login.FallbackIsLoginFailed | src/pages/Login.tsx:42-49 | the fallback always shows 'Login failed' |
| Login.LoginPage.constructor | src/pages/Login.tsx:14-18 | an empty form, not loading |
| Login.LoginPage.HandleInputChange | src/pages/Login.tsx:55-57 | one field takes the value |
| Login.LoginPage.HandleLogin | src/pages/Login.tsx:26-53 | a form the schema rejects never reaches sign-in; an error shows its text; a success navigates back; loading ends false |
| Signup.SignupRequestFor | src/pages/Signup.tsx:22-32 | the request carries first name, last name and phone, and no role |
| Signup.HandleSignup | src/pages/Signup.tsx:18-40 | terms first, then the password match; a request is sent iff both pass; the alert follows the outcome |
| Signup.WeakPasswordIsSent | src/pages/Signup.tsx:18-32 | a matching password shorter than 8 characters is sent although the sign-up schema rejects it |

## Left out

- **Not modelled:**
  - rendering and styling;
  - toasts, alerts and console output (only their texts are modelled);
  - `setTimeout` delays: the 1000 ms wait in `createTurfOwnerAccount` and the redirect after a password reset;
  - the `onAuthStateChange` subscription.
- **Backend calls.** Their outcomes are inputs: a fault or failure flag, the user the identity service returns, and the id of a new booking or turf row and the clock.
- **Column defaults.** A booking row's `pending`/`pending` statuses are taken as the database's column defaults.
- **Date and time parsing.** Time zones and `toISOString` are out: dates, times and instants are given as numbers, and slot ids take the date as text. `canCancelBooking` takes the parsed start instant, `None` when it does not parse.
- **Random availability.** Slot availability in `generateTimeSlots` is an input function.
- **zod recognisers.** The email and uuid recognisers are predicate parameters. String lengths count characters.
- **Concurrency.** The race between `checkAvailability` and a later insert is out: calls are modelled one after another.
- **Joined columns.** The joined `turf` columns of the booking reads are not modelled; rows are returned as stored.
- **Behaviour worth noting, modelled as the code has it:**
  - the conflict test is inclusive, not half-open, so back-to-back bookings conflict;
  - a role that cannot be read lets the page render, rather than sending the user to the login page;
  - `cancelBooking` checks neither the owner nor the 12-hour window, and exactly 12 hours counts as cancellable.
- SecureBooking.CreateSecureBooking: returns the insert payload without touching the table. The validated keys (`turfId`, `date`, `time`, `price`) are not columns of `bookings`, so what the backend would store is not modelled.
- AdminService.CreateTurfOwnerAccount: line 68 of the source does not parse as written. The model follows its evident intent: a missing profile row is an error.
- AdminService.AdminRating: ratings are integer tenths, and prices are integers.
- UserBookingsDialog.UpperAscii: uppercases the 26 Latin letters only. The stored statuses use no other letters.
- BookingHistory.BookingHistoryView.HandleCancelBooking: the refetch is not awaited in the source. The model lets it finish before the cancelling mark is cleared, so the mark is only seen as cleared.
- AdminTurfDialog.EditPatch: the contract names only the owner and active fields. The other fields are stated through `UnchangedEditKeepsRow` and `UnchangedEditFillsDescription`.
- Turf columns: the model takes the columns of `turfs` to be those of the client's `Turf` interface (`src/services/turfService.ts`), with an `image` column. The generated schema in `src/integrations/supabase/types.ts` names `images` instead, and the admin payloads also carry the owner keys, which are not columns. TurfService.AddTurf, TurfService.UpdateTurf, AdminService.AdminAddTurfWithOwner, AdminTurfDialog.SaveNew and AdminTurfDialog.SaveEdit therefore describe their success branch as the code intends it. A backend that enforces that schema refuses these writes; that refusal is their `fault` path, which each contract states.
- AdminTurfDialog.SaveEdit: the edit payload also carries `ownerEmail`, `ownerFirstName`, `ownerLastName` and `ownerPhone` (as `''` in edit mode), and `adminUpdateTurf` spreads them into the update. They are not columns of `turfs`, and the generated schema in `src/integrations/supabase/types.ts` names `images`, not `image`. A backend that enforces that schema refuses the edit, so the dialog shows 'Failed to update turf: …' and stays open. The model takes the turf columns to be those of the client's `Turf` interface and the extra keys as ignored, so its success branch describes the save as the code intends it. A refusal is the `fault` path, which the contract does state.
- AdminTurfDialog.AdminTurfDialogState.HandleSubmit: an edit without a turf falls through to an add, as in the source. A backend error object never reaches the dialog's toast, because both admin calls wrap it in a message error.
- ProtectedRoute.RouteGuard.RoleEffect: a lookup's `catch` branch and its error branch both give null. They are modelled as one failed read.
- TurfBooking.BookingPanel.SelectDate: the calendar's own deselect and its rules for days without a time of day are not modelled. Dates compare as instants.
- ErrorHandler.GetUserFriendlyMessage: a schema error is taken to mention neither 'JWT' nor 'network'.

## Findings

| source | as written | input that shows it | evidently intended | confidence | as-written member | corrected member |
|---|---|---|---|---|---|---|
| src/components/turf/TurfBooking.tsx:68-73 | The panel hands the time grid `selectedTime`, `onTimeSelect`, `turfId` and `selectedDate`. The grid (src/components/TimeSlotGrid.tsx:8-14) reads only `timeSlots`, `onSlotSelect` and `selectedSlot`, so all three are `undefined` and its `timeSlots.map` (src/components/TimeSlotGrid.tsx:44) throws. | The first render of any turf's booking panel: the grid throws, so no panel, no book button and no time slot are ever shown, and no booking can be started. | The grid gets the day's slots, the held slot and a handler that sets the booked time; the panel renders and a click on a free slot enables booking. | not executed; high | TurfBooking.NoPanelAsWired | TurfBooking.ClickEnablesBooking |
| src/services/profileService.ts:72-78 | `createInitialProfile` inserts a profile without `id`. `profiles.id` is required on insert with no default (src/integrations/supabase/types.ts:74-78), and every role lookup reads the profile by `eq('id', user.id)`. | Any signed-in caller with the backend reachable: the insert is refused with 23502 (not-null) and no profile is written. | Insert the row keyed by the account's id, so the role lookups find it. | not executed; medium (rests on the deployed schema matching the generated types) | ProfileService.CreateInitialProfile | ProfileService.CreateInitialProfileForCaller |
