/** The administrator's add/edit turf dialog: the form's initial values, the
    field updates, the comma-separated amenities text and its parse, and the
    submit handler's guards and dispatch to the admin service. */
module AdminTurfDialog {
  import opened Common
  import opened Text
  import opened Queries
  import opened Turfs
  import opened AdminService

  // ---------------------------------------------------------------- amenities

  /** A list of amenities as a form shows it: every item non-empty, without
      surrounding whitespace and without a comma. */
  predicate AmenityList(items: seq<string>) {
    forall i :: 0 <= i < |items| ==> items[i] != "" && IsTrimmed(items[i]) && ',' !in items[i]
  }

  /** `map(a => a.trim())` */
  function TrimAll(parts: seq<string>): (r: seq<string>)
    ensures |r| == |parts|
    ensures forall i :: 0 <= i < |parts| ==> r[i] == Trim(parts[i])
  {
    if |parts| == 0 then [] else [Trim(parts[0])] + TrimAll(parts[1..])
  }

  /** `filter(a => a)`: the non-empty strings. */
  function NonEmptyText(): string -> bool {
    (a: string) => a != ""
  }

  /** The amenities text split at commas, each piece trimmed, empty pieces
      dropped. */
  function ParseAmenities(s: string): (r: seq<string>)
    ensures AmenityList(r)
  {
    CleanPieces(Split(s, ','));
    Filter(TrimAll(Split(s, ',')), NonEmptyText())
  }

  /** Pieces without commas, trimmed, and the empty ones dropped, form an
      amenity list. */
  lemma CleanPieces(parts: seq<string>)
    requires forall i :: 0 <= i < |parts| ==> ',' !in parts[i]
    ensures AmenityList(Filter(TrimAll(parts), NonEmptyText()))
  {
    var trimmed := TrimAll(parts);
    forall i | 0 <= i < |trimmed| ensures IsTrimmed(trimmed[i]) && ',' !in trimmed[i] {
      TrimKeepsOut(parts[i], ',');
    }
    var r := Filter(trimmed, NonEmptyText());
    forall j | 0 <= j < |r| ensures r[j] != "" && IsTrimmed(r[j]) && ',' !in r[j] {
      assert r[j] in trimmed && NonEmptyText()(r[j]);
    }
  }

  /** The parse of a text without commas is its trimmed self, if not empty. */
  lemma ParseOnePiece(s: string)
    requires ',' !in s
    ensures ParseAmenities(s) == Filter([Trim(s)], NonEmptyText())
  {
    SplitWithoutSeparator(s, ',');
    assert TrimAll([s]) == [Trim(s)];
  }

  /** The parse of a text splits at its first comma. */
  lemma ParseAtFirstComma(head: string, more: string)
    requires ',' !in head
    ensures ParseAmenities(head + [','] + more) == Filter([Trim(head)], NonEmptyText()) + ParseAmenities(more)
  {
    SplitAtFirst(head, ',', more);
    var tail := Split(more, ',');
    assert ([head] + tail)[1..] == tail;
    assert TrimAll([head] + tail) == [Trim(head)] + TrimAll(tail);
    FilterAppend([Trim(head)], TrimAll(tail), NonEmptyText());
  }

  /** A list of two or more joined with ", " is its first item, a comma,
      and a space before the rest. */
  lemma JoinAtFirst(w: string, items: seq<string>)
    requires |items| >= 2
    ensures w + Join(items, ", ") == (w + items[0]) + [','] + (" " + Join(items[1..], ", "))
  {
    assert Join(items, ", ") == items[0] + ", " + Join(items[1..], ", ");
  }

  /** The first item of a joined list, after whitespace, parses as itself;
      with more items the parse goes on after the comma. */
  lemma ParseFirstItem(w: string, items: seq<string>)
    requires AllWhitespace(w) && AmenityList(items) && |items| >= 1
    ensures |items| == 1 ==> ParseAmenities(w + Join(items, ", ")) == items
    ensures |items| >= 2 ==>
              ParseAmenities(w + Join(items, ", ")) == [items[0]] + ParseAmenities(" " + Join(items[1..], ", "))
  {
    var head := w + items[0];
    assert forall i :: 0 <= i < |w| ==> w[i] != ',';
    assert ',' !in head;
    TrimAfterWhitespace(w, items[0]);
    assert Filter([items[0]], NonEmptyText()) == [items[0]];
    if |items| == 1 {
      ParseOnePiece(head);
      assert w + Join(items, ", ") == head;
    } else {
      JoinAtFirst(w, items);
      ParseAtFirstComma(head, " " + Join(items[1..], ", "));
    }
  }

  /** Whitespace before a joined list is dropped by the parse. */
  lemma {:induction false} ParseAfterWhitespace(w: string, items: seq<string>)
    requires AllWhitespace(w) && AmenityList(items) && |items| >= 1
    ensures ParseAmenities(w + Join(items, ", ")) == items
    decreases |items|
  {
    if |items| >= 2 {
      var first, more := items[0], items[1..];
      assert items == [first] + more;
      assert AllWhitespace(" ") && AmenityList(more);
      ParseAfterWhitespace(" ", more);
      ParseFirstItem(w, items);
    } else {
      ParseFirstItem(w, items);
    }
  }

  /** Joining a list with ", " and parsing the text gives the list back. */
  lemma AmenitiesRoundTrip(items: seq<string>)
    requires AmenityList(items)
    ensures ParseAmenities(Join(items, ", ")) == items
  {
    if |items| == 0 {
      assert Split("", ',') == [""];
      assert TrimAll([""]) == [""];
    } else {
      ParseAfterWhitespace("", items);
      assert "" + Join(items, ", ") == Join(items, ", ");
    }
  }

  /** Parsing is stable: a parsed list, shown and parsed again, is unchanged. */
  lemma ParseIsStable(s: string)
    ensures ParseAmenities(Join(ParseAmenities(s), ", ")) == ParseAmenities(s)
  {
    AmenitiesRoundTrip(ParseAmenities(s));
  }

  /** A non-empty list of amenities shows as non-empty text. */
  lemma JoinNonEmpty(items: seq<string>)
    requires AmenityList(items) && |items| >= 1
    ensures Join(items, ", ") != ""
  {
    if |items| > 1 {
      assert Join(items, ", ") == items[0] + ", " + Join(items[1..], ", ");
    }
  }

  // --------------------------------------------------------------------- form

  const DefaultLocation := "Pondicherry"
  const DefaultSport := "Football"
  const DefaultPrice := 500
  const DefaultCapacity := 22
  const DefaultImage := "/placeholder.svg"
  const DefaultAmenities := "Parking, Changing Rooms, Floodlights"

  datatype FormData = FormData(
    name: string,
    location: string,
    sport: string,
    price: int,
    pricePerHour: int,
    capacity: int,
    description: string,
    image: string,
    amenities: string,
    ownerEmail: string,
    ownerFirstName: string,
    ownerLastName: string,
    ownerPhone: string)

  /** `n || d` on numbers. */
  function NumberOr(n: int, d: int): (r: int)
    ensures n != 0 ==> r == n
    ensures n == 0 ==> r == d
  {
    if n != 0 then n else d
  }

  /** The form's first values: the turf's own where they are truthy, the
      defaults elsewhere, and empty owner fields. */
  function InitialForm(t: Option<Turf>): (f: FormData)
    ensures f.ownerEmail == "" && f.ownerFirstName == "" && f.ownerLastName == "" && f.ownerPhone == ""
    ensures t.None? ==> f == FormData("", DefaultLocation, DefaultSport, DefaultPrice, DefaultPrice, DefaultCapacity,
                                      "", DefaultImage, DefaultAmenities, "", "", "", "")
  {
    match t
    case None =>
      FormData("", DefaultLocation, DefaultSport, DefaultPrice, DefaultPrice, DefaultCapacity,
               "", DefaultImage, DefaultAmenities, "", "", "", "")
    case Some(turf) =>
      FormData(turf.name, OrElse(turf.location, DefaultLocation), OrElse(turf.sport, DefaultSport),
               NumberOr(turf.price, DefaultPrice), NumberOr(turf.pricePerHour, DefaultPrice),
               NumberOr(turf.capacity, DefaultCapacity), turf.description.GetOr(""),
               OrElse(turf.image.GetOr(""), DefaultImage), OrElse(Join(turf.amenities, ", "), DefaultAmenities),
               "", "", "", "")
  }

  /** Falsy values of an edited turf show as the defaults: a zero price,
      rate or capacity, an empty location or sport, no image, no amenities. */
  lemma FalsyFieldsDefault(t: Turf)
    ensures t.price == 0 ==> InitialForm(Some(t)).price == DefaultPrice
    ensures t.pricePerHour == 0 ==> InitialForm(Some(t)).pricePerHour == DefaultPrice
    ensures t.capacity == 0 ==> InitialForm(Some(t)).capacity == DefaultCapacity
    ensures t.location == "" ==> InitialForm(Some(t)).location == DefaultLocation
    ensures t.sport == "" ==> InitialForm(Some(t)).sport == DefaultSport
    ensures t.image.None? ==> InitialForm(Some(t)).image == DefaultImage
    ensures t.amenities == [] ==> InitialForm(Some(t)).amenities == DefaultAmenities
  {
  }

  /** The form's text fields. */
  datatype TextField =
    | NameField | LocationField | SportField | DescriptionField | ImageField | AmenitiesField
    | OwnerEmailField | OwnerFirstNameField | OwnerLastNameField | OwnerPhoneField

  /** The form's number fields. */
  datatype NumberField = PriceField | PricePerHourField | CapacityField

  function TextOf(f: FormData, field: TextField): string {
    match field
    case NameField => f.name
    case LocationField => f.location
    case SportField => f.sport
    case DescriptionField => f.description
    case ImageField => f.image
    case AmenitiesField => f.amenities
    case OwnerEmailField => f.ownerEmail
    case OwnerFirstNameField => f.ownerFirstName
    case OwnerLastNameField => f.ownerLastName
    case OwnerPhoneField => f.ownerPhone
  }

  function NumberOf(f: FormData, field: NumberField): int {
    match field
    case PriceField => f.price
    case PricePerHourField => f.pricePerHour
    case CapacityField => f.capacity
  }

  /** `handleChange(field, value)` for a text field: that field takes the
      value, every other field keeps its own. */
  function WithText(f: FormData, field: TextField, v: string): (r: FormData)
    ensures TextOf(r, field) == v
    ensures forall g: TextField :: g != field ==> TextOf(r, g) == TextOf(f, g)
    ensures forall g: NumberField :: NumberOf(r, g) == NumberOf(f, g)
  {
    match field
    case NameField => f.(name := v)
    case LocationField => f.(location := v)
    case SportField => f.(sport := v)
    case DescriptionField => f.(description := v)
    case ImageField => f.(image := v)
    case AmenitiesField => f.(amenities := v)
    case OwnerEmailField => f.(ownerEmail := v)
    case OwnerFirstNameField => f.(ownerFirstName := v)
    case OwnerLastNameField => f.(ownerLastName := v)
    case OwnerPhoneField => f.(ownerPhone := v)
  }

  /** `handleChange(field, value)` for a number field. */
  function WithNumber(f: FormData, field: NumberField, v: int): (r: FormData)
    ensures NumberOf(r, field) == v
    ensures forall g: NumberField :: g != field ==> NumberOf(r, g) == NumberOf(f, g)
    ensures forall g: TextField :: TextOf(r, g) == TextOf(f, g)
  {
    match field
    case PriceField => f.(price := v)
    case PricePerHourField => f.(pricePerHour := v)
    case CapacityField => f.(capacity := v)
  }

  // ------------------------------------------------------------------- submit

  const RequiredFieldsMessage := "Please fill in all required fields"
  const OwnerDetailsMessage := "Please provide owner details for new turf"
  const UpdatedMessage := "Turf updated successfully!"
  const AddedMessage := "Turf and owner account created successfully!"

  /** The two guards, in order: the required turf fields, then (when
      adding) the owner's email and names; the phone is optional. */
  function SubmitGuard(f: FormData, isEdit: bool): (r: Option<string>)
    ensures r.None? <==>
              f.name != "" && f.location != "" && f.sport != ""
              && (isEdit || (f.ownerEmail != "" && f.ownerFirstName != "" && f.ownerLastName != ""))
    ensures f.name == "" || f.location == "" || f.sport == "" ==> r == Some(RequiredFieldsMessage)
    ensures r.Some? && r.value != RequiredFieldsMessage ==> !isEdit && r == Some(OwnerDetailsMessage)
  {
    if f.name == "" || f.location == "" || f.sport == "" then Some(RequiredFieldsMessage)
    else if !isEdit && (f.ownerEmail == "" || f.ownerFirstName == "" || f.ownerLastName == "") then Some(OwnerDetailsMessage)
    else None
  }

  /** The rating sent: the edited turf's, or 4.0 when it has none. */
  function FormRating(t: Option<Turf>): int {
    AdminRating(if t.Some? then t.value.rating else 0)
  }

  /** The payload of an add: the form's turf fields with the amenities
      parsed, and its owner fields. */
  function AddPayload(f: FormData, t: Option<Turf>): (d: AdminTurfData)
    ensures d.draft.amenities == ParseAmenities(f.amenities)
    ensures d.ownerEmail == Some(f.ownerEmail) && d.ownerFirstName == Some(f.ownerFirstName)
    ensures d.ownerLastName == Some(f.ownerLastName) && d.ownerPhone == Some(f.ownerPhone)
  {
    AdminTurfData(
      TurfDraft(f.name, f.location, f.sport, f.price, f.pricePerHour, Some(f.description), Some(f.image),
                ParseAmenities(f.amenities), f.capacity, FormRating(t), None),
      Some(f.ownerEmail), Some(f.ownerFirstName), Some(f.ownerLastName), Some(f.ownerPhone))
  }

  /** The same payload sent as an update of turf `t`: every turf field, and
      the turf's own owner. */
  function EditPatch(f: FormData, t: Turf): (p: TurfPatch)
    ensures p.ownerId == Some(t.ownerId) && p.isActive.None?
  {
    TurfPatch(Some(OrElse(t.ownerId, "")), Some(f.name), Some(f.location), Some(f.sport), Some(f.price),
              Some(f.pricePerHour), Some(f.description), Some(f.image), Some(ParseAmenities(f.amenities)),
              Some(f.capacity), Some(FormRating(Some(t))), None)
  }

  /** A new turf passes the guards only with owner details, so the admin
      service always creates an owner account for it. */
  lemma AddAlwaysCreatesOwner(f: FormData, t: Option<Turf>)
    requires SubmitGuard(f, false).None?
    ensures WantsNewOwner(AddPayload(f, t))
  {
  }

  /** Opening a turf for editing and saving the form untouched leaves the
      row as it was, apart from `updated_at`, when none of its values is one
      the form replaces by a default. */
  lemma UnchangedEditKeepsRow(t: Turf, now: int)
    requires t.location != "" && t.sport != "" && t.price != 0 && t.pricePerHour != 0 && t.capacity != 0
    requires t.rating != 0 && t.description.Some? && t.image.Some? && t.image.value != ""
    requires AmenityList(t.amenities) && |t.amenities| >= 1
    ensures ApplyPatch(t, EditPatch(InitialForm(Some(t)), t), now) == t.(updatedAt := now)
  {
    JoinNonEmpty(t.amenities);
    AmenitiesRoundTrip(t.amenities);
  }

  /** A turf without a description gets an empty one when saved untouched. */
  lemma UnchangedEditFillsDescription(t: Turf, now: int)
    requires t.description.None?
    ensures ApplyPatch(t, EditPatch(InitialForm(Some(t)), t), now).description == Some("")
  {
  }

  class AdminTurfDialogState {
    var form: FormData
    var saving: bool

    constructor (turfData: Option<Turf>)
      ensures form == InitialForm(turfData) && !saving
    {
      form := InitialForm(turfData);
      saving := false;
    }

    /** Both buttons are disabled while saving. */
    predicate ButtonsDisabled()
      reads this
    {
      saving
    }

    method ChangeText(field: TextField, value: string)
      modifies this
      ensures form == WithText(old(form), field, value) && saving == old(saving)
    {
      form := WithText(form, field, value);
    }

    method ChangeNumber(field: NumberField, value: int)
      modifies this
      ensures form == WithNumber(old(form), field, value) && saving == old(saving)
    {
      form := WithNumber(form, field, value);
    }

    /** `handleSubmit`: the guards, then an update of the edited turf or an
        add with owner; `closed` says the dialog reported the save and
        closed. Every failure the two admin calls raise is a `new Error`, so
        its message is what the toast shows. */
    method HandleSubmit(turfs: TurfTable, isEdit: bool, turfData: Option<Turf>, caller: Option<string>,
                        b: AccountBackend, newId: string, now: int, fault: Option<DbError>)
      returns (toast: string, signUp: Option<SignUpRequest>, closed: bool)
      requires turfs.Valid()
      modifies this, turfs
      ensures turfs.Valid() && form == old(form)
      ensures SubmitGuard(form, isEdit).Some? ==>
                toast == SubmitGuard(form, isEdit).value && turfs.rows == old(turfs.rows)
                && signUp.None? && !closed && saving == old(saving)
      ensures SubmitGuard(form, isEdit).None? ==> !saving
      ensures !closed ==> turfs.rows == old(turfs.rows)
      ensures SubmitGuard(form, isEdit).None? && isEdit && turfData.Some? ==>
                signUp.None? && EditOutcome(old(turfs.rows), turfs.rows, form, turfData.value, now, fault, toast, closed)
      ensures SubmitGuard(form, isEdit).None? && !(isEdit && turfData.Some?) ==>
                AddOutcome(old(turfs.rows), turfs.rows, AddPayload(form, turfData), caller, b, newId, now, fault,
                           toast, signUp, closed)
    {
      signUp := None;
      closed := false;
      var guard := SubmitGuard(form, isEdit);
      if guard.Some? {
        return guard.value, signUp, closed;
      }
      saving := true;
      if isEdit && turfData.Some? {
        toast, closed := SaveEdit(turfs, form, turfData.value, now, fault);
      } else {
        toast, signUp, closed := SaveNew(turfs, AddPayload(form, turfData), caller, b, newId, now, fault);
      }
      saving := false;
    }
  }

  /** What an edit leaves: saved and closed exactly when the row exists and
      the backend did not fail; otherwise the service's message. */
  ghost predicate EditOutcome(before: seq<Turf>, after: seq<Turf>, f: FormData, t: Turf, now: int,
                              fault: Option<DbError>, toast: string, closed: bool)
  {
    && (closed <==> fault.None? && IndexBy(before, TurfId, t.id).Some?)
    && (closed ==> toast == UpdatedMessage && after == PatchRows(before, t.id, EditPatch(f, t), now))
    && (!closed ==> after == before)
    && (fault.Some? ==> toast == "Failed to update turf: " + fault.value.message)
  }

  /** What an add leaves: the sign-up sent when an administrator asked for
      a new owner; saved and closed exactly when an owner was found and the
      insert went through; the service's message on failure, the new row on
      success. */
  ghost predicate AddOutcome(before: seq<Turf>, after: seq<Turf>, data: AdminTurfData, caller: Option<string>,
                             b: AccountBackend, newId: string, now: int, fault: Option<DbError>,
                             toast: string, signUp: Option<SignUpRequest>, closed: bool)
  {
    && (signUp.Some? <==> WantsNewOwner(data) && CallerIsAdmin(caller, b))
    && (closed <==> ChosenOwner(data, caller, b).Ok? && fault.None? && IndexBy(before, TurfId, newId).None?)
    && (ChosenOwner(data, caller, b).Err? ==> !closed && toast == ChosenOwner(data, caller, b).error.text)
    && (ChosenOwner(data, caller, b).Ok? && fault.Some? ==>
          !closed && toast == "Failed to create turf: " + fault.value.message)
    && (closed ==> ChosenOwner(data, caller, b).Ok? && toast == AddedMessage
                   && after == before + [StoredTurf(data.draft, ChosenOwner(data, caller, b).value,
                                                    AdminRating(data.draft.rating), newId, now)])
    && (!closed ==> after == before)
  }

  /** The edit branch of the submit handler. */
  method SaveEdit(turfs: TurfTable, f: FormData, t: Turf, now: int, fault: Option<DbError>)
    returns (toast: string, closed: bool)
    requires turfs.Valid()
    modifies turfs
    ensures turfs.Valid()
    ensures EditOutcome(old(turfs.rows), turfs.rows, f, t, now, fault, toast, closed)
  {
    var r := AdminUpdateTurf(turfs, t.id, EditPatch(f, t), now, fault);
    if r.Ok? {
      toast, closed := UpdatedMessage, true;
    } else {
      toast, closed := r.error.text, false;
    }
  }

  /** The add branch of the submit handler. */
  method SaveNew(turfs: TurfTable, data: AdminTurfData, caller: Option<string>, b: AccountBackend,
                 newId: string, now: int, fault: Option<DbError>)
    returns (toast: string, signUp: Option<SignUpRequest>, closed: bool)
    requires turfs.Valid()
    modifies turfs
    ensures turfs.Valid()
    ensures AddOutcome(old(turfs.rows), turfs.rows, data, caller, b, newId, now, fault, toast, signUp, closed)
  {
    var r;
    signUp, r := AdminAddTurfWithOwner(turfs, data, caller, b, newId, now, fault);
    if r.Ok? {
      toast, closed := AddedMessage, true;
    } else {
      toast, closed := r.error.text, false;
    }
  }
}
