/** The admin service: creating a turf-owner account (administrators only),
    adding a turf with a new or the current owner, and the admin variants of
    the turf reads and writes, which see inactive turfs and prefix errors. */
module AdminService {
  import opened Common
  import opened Queries
  import opened Turfs
  import opened Profiles

  datatype CreateTurfOwnerData = CreateTurfOwnerData(
    email: string,
    password: string,
    firstName: string,
    lastName: string,
    phone: Option<string>)

  /** The identity service's answer to a sign-up: an error, and the new
      account's id when one was created. */
  datatype SignUpReply = SignUpReply(error: Option<DbError>, userId: Option<string>)

  /** What the backend does during account creation: the profiles table as
      the role check sees it, the sign-up reply, and the profiles table as
      the check for the new profile sees it (after the database trigger). */
  datatype AccountBackend = AccountBackend(
    profiles: seq<Profile>,
    roleQueryFails: bool,
    reply: SignUpReply,
    profilesAfter: seq<Profile>,
    profileCheckFails: bool)

  /** The sign-up request sent, if any, and the call's result (the new id). */
  datatype AccountOutcome = AccountOutcome(signUp: Option<SignUpRequest>, result: Result<string>)

  const AuthRequired := "Authentication required"
  const AdminRequired := "Admin privileges required to create user accounts"
  const AccountFailed := "Failed to create user account"
  const ProfileSetupFailed := "User account created but profile setup failed"

  /** The caller's profile was found and its role is exactly 'admin'. */
  predicate CallerIsAdmin(caller: Option<string>, b: AccountBackend) {
    caller.Some? && LookupRole(b.profiles, caller.value, b.roleQueryFails) == RoleFound(Some("admin"))
  }

  /** The sign-up an administrator sends for a new owner. */
  function OwnerSignUp(d: CreateTurfOwnerData): (req: SignUpRequest)
    ensures req.email == d.email && req.password == d.password
    ensures req.metadata.role == Some("turf_owner")
    ensures req.metadata.phone == d.phone.GetOr("")
    ensures req.metadata.firstName == d.firstName && req.metadata.lastName == d.lastName
  {
    SignUpRequest(d.email, d.password, SignUpMetadata(d.firstName, d.lastName, d.phone.GetOr(""), Some("turf_owner")))
  }

  /** `createTurfOwnerAccount`: signed-in user, then administrator, then the
      sign-up, then the new profile must exist. */
  function CreateTurfOwnerAccount(d: CreateTurfOwnerData, caller: Option<string>, b: AccountBackend): (o: AccountOutcome)
    ensures o.signUp.Some? <==> CallerIsAdmin(caller, b)
    ensures o.signUp.Some? ==> o.signUp.value == OwnerSignUp(d)
    ensures o.result.Err? ==> o.result.error.Plain?
    ensures caller.None? ==> o.result == Err(Plain(AuthRequired))
    ensures caller.Some? && !CallerIsAdmin(caller, b) ==> o.result == Err(Plain(AdminRequired))
    ensures CallerIsAdmin(caller, b) && b.reply.error.Some? ==>
              o.result == Err(Plain("Failed to create user account: " + b.reply.error.value.message))
    ensures CallerIsAdmin(caller, b) && b.reply.error.None? && b.reply.userId.None? ==>
              o.result == Err(Plain(AccountFailed))
    ensures o.result.Ok? <==>
              CallerIsAdmin(caller, b) && b.reply.error.None? && b.reply.userId.Some?
              && LookupRole(b.profilesAfter, b.reply.userId.value, b.profileCheckFails).RoleFound?
    ensures o.result.Ok? ==> o.result.value == b.reply.userId.value
  {
    if caller.None? then AccountOutcome(None, Err(Plain(AuthRequired)))
    else if !CallerIsAdmin(caller, b) then AccountOutcome(None, Err(Plain(AdminRequired)))
    else
      var req := OwnerSignUp(d);
      if b.reply.error.Some? then AccountOutcome(Some(req), Err(Plain("Failed to create user account: " + b.reply.error.value.message)))
      else if b.reply.userId.None? then AccountOutcome(Some(req), Err(Plain(AccountFailed)))
      else if LookupRole(b.profilesAfter, b.reply.userId.value, b.profileCheckFails).LookupFailed? then
        AccountOutcome(Some(req), Err(Plain(ProfileSetupFailed)))
      else AccountOutcome(Some(req), Ok(b.reply.userId.value))
  }

  /** A caller whose profile is missing, unreadable, roleless or not
      'admin' never reaches the sign-up. */
  lemma NonAdminNeverSignsUp(d: CreateTurfOwnerData, caller: string, b: AccountBackend)
    requires UniqueBy(b.profiles, ProfileId)
    requires forall p :: p in b.profiles && p.id == caller ==> p.role != Some("admin")
    ensures CreateTurfOwnerAccount(d, Some(caller), b).signUp.None?
    ensures CreateTurfOwnerAccount(d, Some(caller), b).result == Err(Plain(AdminRequired))
  {
  }

  // --------------------------------------------------------- adminAddTurfWithOwner

  datatype AdminTurfData = AdminTurfData(
    draft: TurfDraft,
    ownerEmail: Option<string>,
    ownerFirstName: Option<string>,
    ownerLastName: Option<string>,
    ownerPhone: Option<string>)

  const TempPassword := "TempPassword123!"
  const OwnerAuthMessage := "Must be authenticated to add turf"

  /** A new owner is created only when email, first and last name are all
      non-empty. */
  predicate WantsNewOwner(data: AdminTurfData) {
    Truthy(data.ownerEmail) && Truthy(data.ownerFirstName) && Truthy(data.ownerLastName)
  }

  function NewOwnerData(data: AdminTurfData): CreateTurfOwnerData
    requires WantsNewOwner(data)
  {
    CreateTurfOwnerData(data.ownerEmail.value, TempPassword, data.ownerFirstName.value, data.ownerLastName.value,
                        data.ownerPhone)
  }

  /** `rating || 4.0`: a zero rating becomes 4.0 (40 tenths). */
  function AdminRating(rating: int): (r: int)
    ensures rating != 0 ==> r == rating
    ensures rating == 0 ==> r == 40
  {
    if rating != 0 then rating else 40
  }

  /** Who ends up owning the turf: the new account, or the caller. */
  function ChosenOwner(data: AdminTurfData, caller: Option<string>, b: AccountBackend): (r: Result<string>)
    ensures WantsNewOwner(data) ==> r == CreateTurfOwnerAccount(NewOwnerData(data), caller, b).result
    ensures !WantsNewOwner(data) && caller.None? ==> r == Err(Plain(OwnerAuthMessage))
    ensures !WantsNewOwner(data) && caller.Some? ==> r == Ok(caller.value)
    ensures r.Err? ==> r.error.Plain?
  {
    if WantsNewOwner(data) then CreateTurfOwnerAccount(NewOwnerData(data), caller, b).result
    else if caller.None? then Err(Plain(OwnerAuthMessage))
    else Ok(caller.value)
  }

  /** `adminAddTurfWithOwner`: choose the owner, then insert the turf active
      with that owner and the defaulted rating. Also reports the sign-up
      request sent, if any. */
  method AdminAddTurfWithOwner(table: TurfTable, data: AdminTurfData, caller: Option<string>, b: AccountBackend,
                               newId: string, now: int, fault: Option<DbError>)
    returns (signUp: Option<SignUpRequest>, r: Result<Turf>)
    requires table.Valid()
    modifies table
    ensures table.Valid()
    ensures signUp.Some? <==> WantsNewOwner(data) && CallerIsAdmin(caller, b)
    ensures ChosenOwner(data, caller, b).Err? ==> r == Err(ChosenOwner(data, caller, b).error) && table.rows == old(table.rows)
    ensures ChosenOwner(data, caller, b).Ok? && fault.Some? ==>
              r == Err(Plain("Failed to create turf: " + fault.value.message)) && table.rows == old(table.rows)
    ensures ChosenOwner(data, caller, b).Ok? && fault.None? && IndexBy(old(table.rows), TurfId, newId).None? ==> r.Ok?
    ensures ChosenOwner(data, caller, b).Ok? && fault.None? && IndexBy(old(table.rows), TurfId, newId).Some? ==>
              r == Err(Plain("Failed to create turf: " + DuplicateKey().message)) && table.rows == old(table.rows)
    ensures r.Ok? ==> ChosenOwner(data, caller, b).Ok?
                      && r.value == StoredTurf(data.draft, ChosenOwner(data, caller, b).value, AdminRating(data.draft.rating), newId, now)
                      && table.rows == old(table.rows) + [r.value]
    ensures r.Err? ==> table.rows == old(table.rows) && r.error.Plain?
  {
    signUp := None;
    var ownerId: string;
    if WantsNewOwner(data) {
      var outcome := CreateTurfOwnerAccount(NewOwnerData(data), caller, b);
      signUp := outcome.signUp;
      if outcome.result.Err? {
        return signUp, Err(outcome.result.error);
      }
      ownerId := outcome.result.value;
    } else {
      if caller.None? {
        return signUp, Err(Plain(OwnerAuthMessage));
      }
      ownerId := caller.value;
    }
    var row := StoredTurf(data.draft, ownerId, AdminRating(data.draft.rating), newId, now);
    var inserted := table.Insert(row, fault);
    if inserted.Err? {
      return signUp, Err(Plain("Failed to create turf: " + inserted.error.db.message));
    }
    r := inserted;
  }

  // ------------------------------------------------------- admin turf reads/writes

  /** `adminUpdateTurf`: like the owner update, but any patch (owner
      included) and errors rethrown with a prefix. */
  method AdminUpdateTurf(table: TurfTable, id: string, p: TurfPatch, now: int, fault: Option<DbError>) returns (r: Result<Turf>)
    requires table.Valid()
    modifies table
    ensures table.Valid()
    ensures fault.Some? ==> r == Err(Plain("Failed to update turf: " + fault.value.message)) && table.rows == old(table.rows)
    ensures fault.None? && IndexBy(old(table.rows), TurfId, id).None? ==>
              r == Err(Plain("Failed to update turf: " + NoSingleRow().message)) && table.rows == old(table.rows)
    ensures fault.None? && IndexBy(old(table.rows), TurfId, id).Some? ==>
              table.rows == PatchRows(old(table.rows), id, p, now) && r.Ok? && r.value.id == id
    ensures r.Err? ==> r.error.Plain?
  {
    var updated := table.UpdateById(id, p, now, fault);
    if updated.Err? {
      return Err(Plain("Failed to update turf: " + updated.error.db.message));
    }
    r := updated;
  }

  /** `adminGetAllTurfs`: every turf, active or not, newest first; errors
      are rethrown. */
  function AdminGetAllTurfs(rows: seq<Turf>, fault: Option<DbError>): (r: Result<seq<Turf>>)
    ensures fault.Some? ==> r == Err(Backend(fault.value))
    ensures fault.None? ==> r.Ok? && Sorted(r.value, TurfCreatedAt, false) && multiset(r.value) == multiset(rows)
  {
    if fault.Some? then Err(Backend(fault.value)) else Ok(OrderBy(rows, TurfCreatedAt, false))
  }

  /** `adminDeleteTurf`: removes the row with that id; errors get a prefix. */
  method AdminDeleteTurf(table: TurfTable, id: string, fault: Option<DbError>) returns (r: Result<()>)
    requires table.Valid()
    modifies table
    ensures table.Valid()
    ensures fault.Some? ==> r == Err(Plain("Failed to delete turf: " + fault.value.message)) && table.rows == old(table.rows)
    ensures fault.None? ==> r == Ok(()) && table.rows == Filter(old(table.rows), OtherThan(id))
  {
    var e := table.DeleteById(id, fault);
    if e.Some? {
      return Err(Plain("Failed to delete turf: " + e.value.message));
    }
    r := Ok(());
  }
}
