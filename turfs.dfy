/** The `turfs` table: the record, the field set a caller supplies when
    adding a turf, the partial record an update sends, and the row-level
    effect of insert, update-by-id and delete-by-id. Prices are whole
    rupees; the rating is kept in tenths (4.0 is 40). */
module Turfs {
  import opened Common
  import opened Queries

  datatype Turf = Turf(
    id: string,
    ownerId: string,
    name: string,
    location: string,
    sport: string,
    price: int,
    pricePerHour: int,
    description: Option<string>,
    image: Option<string>,
    amenities: seq<string>,
    capacity: int,
    rating: int,
    isActive: bool,
    createdAt: int,
    updatedAt: int)

  /** The fields of a turf other than its id, owner and timestamps. */
  datatype TurfDraft = TurfDraft(
    name: string,
    location: string,
    sport: string,
    price: int,
    pricePerHour: int,
    description: Option<string>,
    image: Option<string>,
    amenities: seq<string>,
    capacity: int,
    rating: int,
    isActive: Option<bool>)

  /** A partial turf: the fields present are the ones written. */
  datatype TurfPatch = TurfPatch(
    ownerId: Option<string>,
    name: Option<string>,
    location: Option<string>,
    sport: Option<string>,
    price: Option<int>,
    pricePerHour: Option<int>,
    description: Option<string>,
    image: Option<string>,
    amenities: Option<seq<string>>,
    capacity: Option<int>,
    rating: Option<int>,
    isActive: Option<bool>)

  const EmptyPatch := TurfPatch(None, None, None, None, None, None, None, None, None, None, None, None)

  function TurfId(t: Turf): string { t.id }
  function TurfCreatedAt(t: Turf): int { t.createdAt }

  /** The row stored for a draft: `owner_id` and `is_active` are the given
      ones whatever the draft says; the backend supplies id and timestamps. */
  function StoredTurf(d: TurfDraft, ownerId: string, rating: int, id: string, now: int): (t: Turf)
    ensures t.id == id && t.ownerId == ownerId && t.isActive && t.rating == rating
    ensures t.name == d.name && t.location == d.location && t.sport == d.sport
    ensures t.price == d.price && t.pricePerHour == d.pricePerHour && t.capacity == d.capacity
    ensures t.description == d.description && t.image == d.image && t.amenities == d.amenities
    ensures t.createdAt == now && t.updatedAt == now
  {
    Turf(id, ownerId, d.name, d.location, d.sport, d.price, d.pricePerHour, d.description, d.image,
         d.amenities, d.capacity, rating, true, now, now)
  }

  /** `update({...patch, updated_at})` on one row: every field the patch
      carries is written, every other field is kept, `updated_at` is `now`. */
  function ApplyPatch(t: Turf, p: TurfPatch, now: int): (r: Turf)
    ensures r.id == t.id && r.createdAt == t.createdAt && r.updatedAt == now
    ensures r.ownerId == p.ownerId.GetOr(t.ownerId)
    ensures r.name == p.name.GetOr(t.name) && r.location == p.location.GetOr(t.location)
    ensures r.sport == p.sport.GetOr(t.sport) && r.price == p.price.GetOr(t.price)
    ensures r.pricePerHour == p.pricePerHour.GetOr(t.pricePerHour)
    ensures r.description == (if p.description.Some? then p.description else t.description)
    ensures r.image == (if p.image.Some? then p.image else t.image)
    ensures r.amenities == p.amenities.GetOr(t.amenities) && r.capacity == p.capacity.GetOr(t.capacity)
    ensures r.rating == p.rating.GetOr(t.rating) && r.isActive == p.isActive.GetOr(t.isActive)
  {
    Turf(t.id, p.ownerId.GetOr(t.ownerId), p.name.GetOr(t.name), p.location.GetOr(t.location),
         p.sport.GetOr(t.sport), p.price.GetOr(t.price), p.pricePerHour.GetOr(t.pricePerHour),
         if p.description.Some? then p.description else t.description,
         if p.image.Some? then p.image else t.image,
         p.amenities.GetOr(t.amenities), p.capacity.GetOr(t.capacity), p.rating.GetOr(t.rating),
         p.isActive.GetOr(t.isActive), t.createdAt, now)
  }

  /** An empty patch only refreshes `updated_at`. */
  lemma EmptyPatchTouchesOnlyTimestamp(t: Turf, now: int)
    ensures ApplyPatch(t, EmptyPatch, now) == t.(updatedAt := now)
  {
  }

  /** Writing the same patch twice is writing it once. */
  lemma PatchIdempotent(t: Turf, p: TurfPatch, t1: int, t2: int)
    ensures ApplyPatch(ApplyPatch(t, p, t1), p, t2) == ApplyPatch(t, p, t2)
  {
  }

  /** The table after `update(...).eq('id', id)`. */
  function PatchRows(rows: seq<Turf>, id: string, p: TurfPatch, now: int): (r: seq<Turf>)
    ensures |r| == |rows|
    ensures forall i :: 0 <= i < |rows| ==> r[i] == (if rows[i].id == id then ApplyPatch(rows[i], p, now) else rows[i])
  {
    seq(|rows|, i requires 0 <= i < |rows| => if rows[i].id == id then ApplyPatch(rows[i], p, now) else rows[i])
  }

  /** The rows `delete().eq('id', id)` keeps. */
  function OtherThan(id: string): Turf -> bool {
    (t: Turf) => t.id != id
  }

  class TurfTable {
    var rows: seq<Turf>

    ghost predicate Valid()
      reads this
    {
      UniqueBy(rows, TurfId)
    }

    constructor (initial: seq<Turf>)
      requires UniqueBy(initial, TurfId)
      ensures Valid() && rows == initial
    {
      rows := initial;
    }

    /** `insert([row]).select().single()` */
    method Insert(row: Turf, fault: Option<DbError>) returns (r: Result<Turf>)
      requires Valid()
      modifies this
      ensures Valid()
      ensures fault.Some? ==> r == Err(Backend(fault.value)) && rows == old(rows)
      ensures fault.None? && IndexBy(old(rows), TurfId, row.id).Some? ==>
                r == Err(Backend(DuplicateKey())) && rows == old(rows)
      ensures fault.None? && IndexBy(old(rows), TurfId, row.id).None? ==> r == Ok(row) && rows == old(rows) + [row]
    {
      if fault.Some? {
        return Err(Backend(fault.value));
      }
      var k := IndexBy(rows, TurfId, row.id);
      if k.Some? {
        return Err(Backend(DuplicateKey()));
      }
      rows := rows + [row];
      r := Ok(row);
    }

    /** `update({...p, updated_at}).eq('id', id).select().single()` */
    method UpdateById(id: string, p: TurfPatch, now: int, fault: Option<DbError>) returns (r: Result<Turf>)
      requires Valid()
      modifies this
      ensures Valid()
      ensures fault.Some? ==> r == Err(Backend(fault.value)) && rows == old(rows)
      ensures fault.None? && IndexBy(old(rows), TurfId, id).None? ==> r == Err(Backend(NoSingleRow())) && rows == old(rows)
      ensures fault.None? && IndexBy(old(rows), TurfId, id).Some? ==>
                rows == PatchRows(old(rows), id, p, now) &&
                r == Ok(ApplyPatch(old(rows)[IndexBy(old(rows), TurfId, id).value], p, now))
    {
      if fault.Some? {
        return Err(Backend(fault.value));
      }
      var k := IndexBy(rows, TurfId, id);
      if k.None? {
        return Err(Backend(NoSingleRow()));
      }
      var i := k.value;
      var updated := ApplyPatch(rows[i], p, now);
      rows := rows[i := updated];
      r := Ok(updated);
    }

    /** `delete().eq('id', id)`; the result is the backend's error, if any. */
    method DeleteById(id: string, fault: Option<DbError>) returns (r: Option<DbError>)
      requires Valid()
      modifies this
      ensures Valid()
      ensures fault.Some? ==> r == fault && rows == old(rows)
      ensures fault.None? ==> r == None && rows == Filter(old(rows), OtherThan(id))
    {
      if fault.Some? {
        return fault;
      }
      FilterKeepsUniqueBy(rows, TurfId, OtherThan(id));
      rows := Filter(rows, OtherThan(id));
      r := None;
    }
  }

  /** Deleting by id removes the one row with that id and keeps the others
      in order. */
  lemma DeleteRemovesOnlyThatRow(rows: seq<Turf>, k: nat)
    requires UniqueBy(rows, TurfId) && k < |rows|
    ensures Filter(rows, OtherThan(rows[k].id)) == rows[..k] + rows[k + 1..]
  {
    FilterDropsOne(rows, OtherThan(rows[k].id), k);
  }
}
