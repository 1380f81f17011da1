/** The profile service: reading the profile of an account, writing the
    signed-in user's profile, and the profile created right after sign-up. */
module ProfileService {
  import opened Common
  import opened Queries
  import opened Profiles

  /** The filter `eq('user_id', userId)`. */
  function ForUser(userId: string): Profile -> bool {
    (p: Profile) => p.userId == Some(userId)
  }

  /** `getUserProfile`: the one profile whose `user_id` is `userId`; a
      failed call, no such profile, or several all give null. */
  function GetUserProfile(rows: seq<Profile>, userId: string, queryFails: bool): (r: Option<Profile>)
    ensures r.Some? ==> r.value in rows && r.value.userId == Some(userId)
    ensures r.Some? <==> !queryFails && |Filter(rows, ForUser(userId))| == 1
  {
    if queryFails then None
    else
      var hits := Filter(rows, ForUser(userId));
      assert |hits| == 1 ==> hits[0] in hits;
      MaybeSingle(hits)
  }

  const AuthMessage := "User must be authenticated"

  /** A partial profile as a caller passes it; absent fields are not sent. */
  datatype ProfilePatch = ProfilePatch(
    id: Option<string>,
    userId: Option<string>,
    firstName: Option<string>,
    lastName: Option<string>,
    phone: Option<string>,
    role: Option<string>)

  /** The row an upsert of `{...patch, user_id, updated_at}` leaves: on an
      existing row only the sent columns change; a new row has the sent
      columns and nulls elsewhere. */
  function UpsertedRow(existing: Option<Profile>, p: ProfilePatch, key: string, caller: string, now: int): (r: Profile)
    ensures r.id == key && r.userId == Some(caller) && r.updatedAt == now
    ensures existing.Some? ==> r.createdAt == existing.value.createdAt
    ensures r.firstName == (if p.firstName.Some? || existing.None? then p.firstName else existing.value.firstName)
    ensures r.lastName == (if p.lastName.Some? || existing.None? then p.lastName else existing.value.lastName)
    ensures r.phone == (if p.phone.Some? || existing.None? then p.phone else existing.value.phone)
    ensures r.role == (if p.role.Some? || existing.None? then p.role else existing.value.role)
  {
    match existing
    case None => Profile(key, Some(caller), p.firstName, p.lastName, p.phone, p.role, now, now)
    case Some(e) =>
      Profile(key, Some(caller),
              if p.firstName.Some? then p.firstName else e.firstName,
              if p.lastName.Some? then p.lastName else e.lastName,
              if p.phone.Some? then p.phone else e.phone,
              if p.role.Some? then p.role else e.role,
              e.createdAt, now)
  }

  /** The row an upsert keyed on `key` would meet in `rows`, if any. */
  function ExistingRow(rows: seq<Profile>, key: string): (r: Option<Profile>)
    ensures r.Some? ==> r.value in rows && r.value.id == key
    ensures r.None? <==> forall q :: q in rows ==> q.id != key
  {
    var k := IndexBy(rows, ProfileId, key);
    if k.Some? then Some(rows[k.value]) else None
  }

  /** `upsertUserProfile`: the written row always belongs to the caller,
      whatever `user_id` the patch names. The upsert is keyed on `id`, which
      has no default: a patch without one is refused by the backend. */
  method UpsertUserProfile(table: ProfileTable, p: ProfilePatch, caller: Option<string>, now: int,
                           fault: Option<DbError>) returns (r: Result<Profile>)
    requires table.Valid()
    modifies table
    ensures table.Valid()
    ensures caller.None? ==> r == Err(Plain(AuthMessage)) && table.rows == old(table.rows)
    ensures caller.Some? && fault.Some? ==> r == Err(Backend(fault.value)) && table.rows == old(table.rows)
    ensures caller.Some? && fault.None? && p.id.None? ==> r == Err(Backend(MissingId())) && table.rows == old(table.rows)
    ensures caller.Some? && fault.None? && p.id.Some? ==>
              r == Ok(UpsertedRow(ExistingRow(old(table.rows), p.id.value), p, p.id.value, caller.value, now))
    ensures caller.Some? && fault.None? && p.id.Some? && IndexBy(old(table.rows), ProfileId, p.id.value).Some? ==>
              table.rows == old(table.rows)[IndexBy(old(table.rows), ProfileId, p.id.value).value := r.value]
    ensures caller.Some? && fault.None? && p.id.Some? && IndexBy(old(table.rows), ProfileId, p.id.value).None? ==>
              table.rows == old(table.rows) + [r.value]
    ensures r.Ok? ==> r.value.userId == Some(caller.value) && r.value in table.rows
  {
    if caller.None? {
      return Err(Plain(AuthMessage));
    }
    if fault.None? && p.id.None? {
      return Err(Backend(MissingId()));
    }
    var key := p.id.GetOr("");
    var row := UpsertedRow(ExistingRow(table.rows, key), p, key, caller.value, now);
    var k := IndexBy(table.rows, ProfileId, key);
    r := table.Upsert(row, fault);
    if r.Ok? && k.Some? {
      assert table.rows[k.value] == row;
    }
  }

  /** The roles a new account may pick for itself. */
  datatype InitialRole = Customer | TurfOwner

  function InitialRoleText(role: InitialRole): (t: string)
    ensures t == "customer" || t == "turf_owner"
  {
    match role
    case Customer => "customer"
    case TurfOwner => "turf_owner"
  }

  datatype InitialProfileData = InitialProfileData(
    email: string,
    firstName: Option<string>,
    lastName: Option<string>,
    role: Option<InitialRole>)

  /** The row `createInitialProfile` inserts: missing names become '', the
      phone is '', and the role is the chosen one or 'customer'. */
  function InitialProfileRow(d: InitialProfileData, caller: string, id: string, now: int): (r: Profile)
    ensures r.userId == Some(caller) && r.phone == Some("")
    ensures r.firstName == Some(d.firstName.GetOr("")) && r.lastName == Some(d.lastName.GetOr(""))
    ensures r.role == Some(if d.role.Some? then InitialRoleText(d.role.value) else "customer")
    ensures r.role == Some("customer") || r.role == Some("turf_owner")
  {
    Profile(id, Some(caller), Some(d.firstName.GetOr("")), Some(d.lastName.GetOr("")), Some(""),
            Some(InitialRoleText(d.role.GetOr(Customer))), now, now)
  }

  /** Self-registration never yields an administrator. */
  lemma InitialProfileNeverAdmin(d: InitialProfileData, caller: string, id: string, now: int)
    ensures InitialProfileRow(d, caller, id, now).role != Some("admin")
  {
  }

  /** `createInitialProfile` as written: the row it inserts carries no `id`,
      and `profiles.id` has no default, so once the caller is signed in and
      the backend is reachable the insert is refused and nothing is
      written. */
  function CreateInitialProfile(d: InitialProfileData, caller: Option<string>, fault: Option<DbError>): (r: Result<Profile>)
    ensures caller.None? ==> r == Err(Plain(AuthMessage))
    ensures caller.Some? && fault.Some? ==> r == Err(Backend(fault.value))
    ensures caller.Some? && fault.None? ==> r == Err(Backend(MissingId()))
    ensures r.Err?
  {
    if caller.None? then Err(Plain(AuthMessage))
    else if fault.Some? then Err(Backend(fault.value))
    else Err(Backend(MissingId()))
  }

  /** `createInitialProfile` keyed on the account's id, as every role lookup
      (`eq('id', user.id)`) expects: signed-in user required; then one insert,
      refused when the account already has a profile. */
  method CreateInitialProfileForCaller(table: ProfileTable, d: InitialProfileData, caller: Option<string>,
                                       now: int, fault: Option<DbError>) returns (r: Result<Profile>)
    requires table.Valid()
    modifies table
    ensures table.Valid()
    ensures caller.None? ==> r == Err(Plain(AuthMessage)) && table.rows == old(table.rows)
    ensures caller.Some? && fault.Some? ==> r == Err(Backend(fault.value)) && table.rows == old(table.rows)
    ensures caller.Some? && fault.None? && IndexBy(old(table.rows), ProfileId, caller.value).Some? ==>
              r == Err(Backend(DuplicateKey())) && table.rows == old(table.rows)
    ensures caller.Some? && fault.None? && IndexBy(old(table.rows), ProfileId, caller.value).None? ==>
              r == Ok(InitialProfileRow(d, caller.value, caller.value, now)) && table.rows == old(table.rows) + [r.value]
    ensures r.Err? ==> table.rows == old(table.rows)
  {
    if caller.None? {
      return Err(Plain(AuthMessage));
    }
    r := table.Insert(InitialProfileRow(d, caller.value, caller.value, now), fault);
  }

  /** After the keyed insert, the role lookup of the account finds the role
      the new profile was given. */
  lemma {:induction false} InitialProfileRoleFound(rows: seq<Profile>, d: InitialProfileData, caller: string, now: int)
    requires UniqueBy(rows, ProfileId) && IndexBy(rows, ProfileId, caller).None?
    ensures LookupRole(rows + [InitialProfileRow(d, caller, caller, now)], caller, false)
            == RoleFound(InitialProfileRow(d, caller, caller, now).role)
  {
    var row := InitialProfileRow(d, caller, caller, now);
    var rows' := rows + [row];
    forall i, j | 0 <= i < j < |rows'|
      ensures ProfileId(rows'[i]) != ProfileId(rows'[j])
    {
      if j == |rows| {
        assert rows'[i] in rows;
      }
    }
    LookupRoleOfRow(rows', row);
  }
}
