/** The `profiles` table: one row per account, keyed by `id` (the account's
    id), with a nullable text `role`. Role lookups select the role of the
    row whose id is the signed-in user's. */
module Profiles {
  import opened Common
  import opened Queries

  datatype Profile = Profile(
    id: string,
    userId: Option<string>,
    firstName: Option<string>,
    lastName: Option<string>,
    phone: Option<string>,
    role: Option<string>,
    createdAt: int,
    updatedAt: int)

  function ProfileId(p: Profile): string { p.id }

  /** The error of a write that leaves `id` null: the column has no default,
      so a row sent without it is refused. */
  function MissingId(): DbError {
    DbError(NotNullCode, "null value in column \"id\" of relation \"profiles\" violates not-null constraint")
  }

  /** The filter `eq('id', id)`. */
  function HasId(id: string): Profile -> bool {
    (p: Profile) => p.id == id
  }

  /** The outcome of `select('role').eq('id', id).single()`: an error (no
      row, or the call failed) or the row's role, which may be null. */
  datatype RoleLookup = LookupFailed | RoleFound(role: Option<string>)

  function LookupRole(rows: seq<Profile>, id: string, queryFails: bool): (r: RoleLookup)
    ensures queryFails ==> r == LookupFailed
    ensures r.RoleFound? ==> exists p :: p in rows && p.id == id && p.role == r.role
  {
    if queryFails then LookupFailed
    else
      var hits := Filter(rows, HasId(id));
      if |hits| == 1 then
        assert hits[0] in hits;
        RoleFound(hits[0].role)
      else LookupFailed
  }

  /** With unique ids, a lookup that does not fail finds the row exactly
      when there is one. */
  lemma LookupRoleFindsRow(rows: seq<Profile>, id: string)
    requires UniqueBy(rows, ProfileId)
    ensures LookupRole(rows, id, false).RoleFound? <==> exists p :: p in rows && p.id == id
  {
    var hits := Filter(rows, HasId(id));
    FilterOneKeyAtMostOne(rows, ProfileId, id, HasId(id));
    if exists p :: p in rows && p.id == id {
      var p :| p in rows && p.id == id;
      assert p in hits;
    }
  }

  /** With unique ids, the lookup of a stored row's id gives that row's role. */
  lemma LookupRoleOfRow(rows: seq<Profile>, p: Profile)
    requires UniqueBy(rows, ProfileId) && p in rows
    ensures LookupRole(rows, p.id, false) == RoleFound(p.role)
  {
    LookupRoleFindsRow(rows, p.id);
    var found := LookupRole(rows, p.id, false);
    var q :| q in rows && q.id == p.id && q.role == found.role;
    var i :| 0 <= i < |rows| && rows[i] == p;
    var j :| 0 <= j < |rows| && rows[j] == q;
    assert ProfileId(rows[i]) == ProfileId(rows[j]);
    assert i == j;
  }

  class ProfileTable {
    var rows: seq<Profile>

    ghost predicate Valid()
      reads this
    {
      UniqueBy(rows, ProfileId)
    }

    constructor (initial: seq<Profile>)
      requires UniqueBy(initial, ProfileId)
      ensures Valid() && rows == initial
    {
      rows := initial;
    }

    /** `insert([row]).select().single()` */
    method Insert(row: Profile, fault: Option<DbError>) returns (r: Result<Profile>)
      requires Valid()
      modifies this
      ensures Valid()
      ensures fault.Some? ==> r == Err(Backend(fault.value)) && rows == old(rows)
      ensures fault.None? && IndexBy(old(rows), ProfileId, row.id).Some? ==>
                r == Err(Backend(DuplicateKey())) && rows == old(rows)
      ensures fault.None? && IndexBy(old(rows), ProfileId, row.id).None? ==> r == Ok(row) && rows == old(rows) + [row]
    {
      if fault.Some? {
        return Err(Backend(fault.value));
      }
      var k := IndexBy(rows, ProfileId, row.id);
      if k.Some? {
        return Err(Backend(DuplicateKey()));
      }
      rows := rows + [row];
      r := Ok(row);
    }

    /** `upsert(row).select().single()` keyed on `id`: the row replaces the
        one with its id, or is appended when there is none. */
    method Upsert(row: Profile, fault: Option<DbError>) returns (r: Result<Profile>)
      requires Valid()
      modifies this
      ensures Valid()
      ensures fault.Some? ==> r == Err(Backend(fault.value)) && rows == old(rows)
      ensures fault.None? && IndexBy(old(rows), ProfileId, row.id).Some? ==>
                r == Ok(row) && rows == old(rows)[IndexBy(old(rows), ProfileId, row.id).value := row]
      ensures fault.None? && IndexBy(old(rows), ProfileId, row.id).None? ==> r == Ok(row) && rows == old(rows) + [row]
    {
      if fault.Some? {
        return Err(Backend(fault.value));
      }
      var k := IndexBy(rows, ProfileId, row.id);
      if k.Some? {
        rows := rows[k.value := row];
      } else {
        rows := rows + [row];
      }
      r := Ok(row);
    }
  }
}
