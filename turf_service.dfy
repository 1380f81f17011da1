/** The turf service: public reads that fall back to an empty answer on
    any error, and owner writes that stamp the signed-in user as owner. */
module TurfService {
  import opened Common
  import opened Queries
  import opened Turfs

  function IsActive(t: Turf): bool { t.isActive }

  /** `getAllTurfs`: the active turfs, newest first; any error gives []. */
  function GetAllTurfs(rows: seq<Turf>, queryFails: bool): (r: seq<Turf>)
    ensures queryFails ==> r == []
    ensures !queryFails ==>
              Sorted(r, TurfCreatedAt, false)
              && (forall t :: t in r <==> t in rows && t.isActive)
              && multiset(r) == multiset(Filter(rows, IsActive))
  {
    if queryFails then [] else Select(rows, IsActive, TurfCreatedAt, false)
  }

  /** The lookup filter `eq('id', id).eq('is_active', true)`. */
  function ActiveWithId(id: string): Turf -> bool {
    (t: Turf) => t.id == id && t.isActive
  }

  /** `getTurfById`: the turf with that id if it is active; an inactive or
      missing turf and any error give null. */
  function GetTurfById(rows: seq<Turf>, id: string, queryFails: bool): (r: Option<Turf>)
    ensures r.Some? ==> r.value in rows && r.value.id == id && r.value.isActive
    ensures queryFails ==> r.None?
  {
    if queryFails then None
    else
      var hits := Filter(rows, ActiveWithId(id));
      assert |hits| == 1 ==> hits[0] in hits;
      MaybeSingle(hits)
  }

  /** With unique ids, an active turf is always found by its id. */
  lemma GetTurfByIdFindsActive(rows: seq<Turf>, k: nat)
    requires UniqueBy(rows, TurfId) && k < |rows| && rows[k].isActive
    ensures GetTurfById(rows, rows[k].id, false) == Some(rows[k])
  {
    var hits := Filter(rows, ActiveWithId(rows[k].id));
    FilterOneKeyAtMostOne(rows, TurfId, rows[k].id, ActiveWithId(rows[k].id));
    assert rows[k] in hits;
  }

  /** A turf that is stored but inactive is never returned. */
  lemma InactiveHidden(rows: seq<Turf>, k: nat, queryFails: bool)
    requires UniqueBy(rows, TurfId) && k < |rows| && !rows[k].isActive
    ensures GetTurfById(rows, rows[k].id, queryFails).None?
  {
    forall t | t in rows && t.id == rows[k].id ensures !t.isActive {
      var j :| 0 <= j < |rows| && rows[j] == t;
      assert j == k;
    }
  }

  const AddAuthMessage := "User must be authenticated to add a turf"

  /** `addTurf`: owner is the caller and the turf is active, whatever the
      draft says; an insert error is rethrown with a prefix. */
  method AddTurf(table: TurfTable, draft: TurfDraft, caller: Option<string>, newId: string, now: int,
                 fault: Option<DbError>) returns (r: Result<Turf>)
    requires table.Valid()
    modifies table
    ensures table.Valid()
    ensures caller.None? ==> r == Err(Plain(AddAuthMessage)) && table.rows == old(table.rows)
    ensures r.Ok? ==> caller.Some? && r.value == StoredTurf(draft, caller.value, draft.rating, newId, now)
                      && r.value.ownerId == caller.value && r.value.isActive
                      && table.rows == old(table.rows) + [r.value]
    ensures caller.Some? && fault.Some? ==>
              r == Err(Plain("Failed to add turf: " + fault.value.message)) && table.rows == old(table.rows)
    ensures caller.Some? && fault.None? && IndexBy(old(table.rows), TurfId, newId).None? ==> r.Ok?
    ensures caller.Some? && fault.None? && IndexBy(old(table.rows), TurfId, newId).Some? ==>
              r == Err(Plain("Failed to add turf: " + DuplicateKey().message)) && table.rows == old(table.rows)
    ensures caller.Some? && r.Err? ==> table.rows == old(table.rows)
  {
    if caller.None? {
      return Err(Plain(AddAuthMessage));
    }
    var row := StoredTurf(draft, caller.value, draft.rating, newId, now);
    var inserted := table.Insert(row, fault);
    if inserted.Err? {
      return Err(Plain("Failed to add turf: " + inserted.error.db.message));
    }
    r := inserted;
  }

  /** `updateTurf`: writes the patch on the row with that id; errors are
      rethrown as they are. */
  method UpdateTurf(table: TurfTable, id: string, p: TurfPatch, now: int, fault: Option<DbError>) returns (r: Result<Turf>)
    requires table.Valid()
    modifies table
    ensures table.Valid()
    ensures fault.Some? ==> r == Err(Backend(fault.value)) && table.rows == old(table.rows)
    ensures fault.None? && IndexBy(old(table.rows), TurfId, id).None? ==>
              r == Err(Backend(NoSingleRow())) && table.rows == old(table.rows)
    ensures fault.None? && IndexBy(old(table.rows), TurfId, id).Some? ==>
              table.rows == PatchRows(old(table.rows), id, p, now) && r.Ok? && r.value.id == id
  {
    r := table.UpdateById(id, p, now, fault);
  }

  /** `deleteTurf`: removes the row with that id; errors are rethrown. */
  method DeleteTurf(table: TurfTable, id: string, fault: Option<DbError>) returns (r: Result<()>)
    requires table.Valid()
    modifies table
    ensures table.Valid()
    ensures fault.Some? ==> r == Err(Backend(fault.value)) && table.rows == old(table.rows)
    ensures fault.None? ==> r == Ok(()) && table.rows == Filter(old(table.rows), OtherThan(id))
  {
    var e := table.DeleteById(id, fault);
    if e.Some? {
      return Err(Backend(e.value));
    }
    r := Ok(());
  }

  /** The filter `eq('owner_id', ownerId)`. */
  function OwnedBy(ownerId: string): Turf -> bool {
    (t: Turf) => t.ownerId == ownerId
  }

  /** `getTurfsByOwner`: all of the owner's turfs, active or not, newest
      first; errors are rethrown. */
  function GetTurfsByOwner(rows: seq<Turf>, ownerId: string, fault: Option<DbError>): (r: Result<seq<Turf>>)
    ensures fault.Some? ==> r == Err(Backend(fault.value))
    ensures fault.None? ==>
              r.Ok? && Sorted(r.value, TurfCreatedAt, false)
              && (forall t :: t in r.value <==> t in rows && t.ownerId == ownerId)
              && multiset(r.value) == multiset(Filter(rows, OwnedBy(ownerId)))
  {
    if fault.Some? then Err(Backend(fault.value)) else Ok(Select(rows, OwnedBy(ownerId), TurfCreatedAt, false))
  }
}
