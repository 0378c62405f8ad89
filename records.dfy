/** The records the API stores and the wire forms it receives, with the
    field-copying rules of conference creation (defaults), conference update
    (copy only what the client supplied) and profile save (display name and
    upper-cased shirt size). */
module Records {
  import opened Common

  // The DEFAULTS table.
  const DefaultCity := "Tokyo"
  const DefaultMaxAttendees := 10
  const DefaultSeatsAvailable := 0
  const DefaultTopics: seq<string> := ["Web Technologies", "Programming Languages"]

  /** The ConferenceForm wire message. Scalar fields may be unset; the
      repeated `topics` field is the empty list when unset. */
  datatype ConferenceForm = ConferenceForm(
    name: Option<string>,
    description: Option<string>,
    organizerUserId: Option<string>,
    topics: seq<string>,
    city: Option<string>,
    startDate: Option<Date>,
    month: Option<int>,
    maxAttendees: Option<int>,
    seatsAvailable: Option<int>,
    endDate: Option<Date>,
    websafeKey: Option<string>,
    organizerDisplayName: Option<string>)

  /** A stored Conference record. `parentUserId` is the user whose Profile
      key is the parent of the conference key: the creator, fixed for good
      even when an update hands `organizerUserId` to someone else. */
  datatype Conference = Conference(
    parentUserId: string,
    name: string,
    description: Option<string>,
    organizerUserId: string,
    topics: seq<string>,
    city: string,
    startDate: Option<Date>,
    month: int,
    maxAttendees: int,
    seatsAvailable: int,
    endDate: Option<Date>)

  /** A stored Profile record. */
  datatype Profile = Profile(
    displayName: string,
    mainEmail: string,
    teeShirtSize: string,
    conferenceKeysToAttend: seq<string>,
    wishList: seq<string>)

  /** The ProfileMiniForm wire message; the shirt size is the name of a
      TeeShirtSize enum value. */
  datatype ProfileMiniForm = ProfileMiniForm(displayName: Option<string>, teeShirtSize: Option<string>)

  /** The SessionForm wire message, without the keys. */
  datatype SessionForm = SessionForm(
    name: Option<string>,
    highlights: Option<string>,
    speaker: Option<string>,
    duration: Option<int>,
    sessionType: Option<string>,
    startDate: Option<Date>,
    startTime: Option<Time>)

  /** A stored Session record, with the key of the Conference that owns it. */
  datatype Session = Session(
    conferenceKey: string,
    name: string,
    highlights: Option<string>,
    speaker: Option<string>,
    duration: Option<int>,
    sessionType: string,
    startDate: Option<Date>,
    startTime: Option<Time>)

  // ---------------------------------------------------------------------
  // Conference creation: the DEFAULTS loop.

  /** The keys of the DEFAULTS table. */
  datatype DefaultField = CityDefault | MaxAttendeesDefault | SeatsAvailableDefault | TopicsDefault

  const DefaultFields: seq<DefaultField> :=
    [CityDefault, MaxAttendeesDefault, SeatsAvailableDefault, TopicsDefault]

  /** The form with the fields in `done` given their default when they are
      None or the empty list. */
  function DefaultsFilled(form: ConferenceForm, done: set<DefaultField>): ConferenceForm
  {
    form.(
      city := if CityDefault in done && form.city.None? then Some(DefaultCity) else form.city,
      maxAttendees :=
        if MaxAttendeesDefault in done && form.maxAttendees.None? then Some(DefaultMaxAttendees)
        else form.maxAttendees,
      seatsAvailable :=
        if SeatsAvailableDefault in done && form.seatsAvailable.None? then Some(DefaultSeatsAvailable)
        else form.seatsAvailable,
      topics := if TopicsDefault in done && form.topics == [] then DefaultTopics else form.topics)
  }

  /** One turn of the DEFAULTS loop. */
  function FillDefault(data: ConferenceForm, field: DefaultField): ConferenceForm
  {
    match field
    case CityDefault => if data.city.None? then data.(city := Some(DefaultCity)) else data
    case MaxAttendeesDefault =>
      if data.maxAttendees.None? then data.(maxAttendees := Some(DefaultMaxAttendees)) else data
    case SeatsAvailableDefault =>
      if data.seatsAvailable.None? then data.(seatsAvailable := Some(DefaultSeatsAvailable)) else data
    case TopicsDefault => if data.topics == [] then data.(topics := DefaultTopics) else data
  }

  /** The defaulting loop of `_createConferenceObject`: every DEFAULTS field
      that is None or `[]` gets its default; every other field, and every
      supplied value, is kept. */
  method FillDefaults(request: ConferenceForm) returns (data: ConferenceForm)
    ensures data == WithDefaults(request)
    ensures data.city.Some? && data.maxAttendees.Some? && data.seatsAvailable.Some? && data.topics != []
    ensures request.city.Some? ==> data.city == request.city
    ensures request.maxAttendees.Some? ==> data.maxAttendees == request.maxAttendees
    ensures request.seatsAvailable.Some? ==> data.seatsAvailable == request.seatsAvailable
    ensures request.topics != [] ==> data.topics == request.topics
  {
    data := request;
    var i := 0;
    while i < |DefaultFields|
      invariant 0 <= i <= |DefaultFields|
      invariant data == DefaultsFilled(request, set j | 0 <= j < i :: DefaultFields[j])
    {
      data := FillDefault(data, DefaultFields[i]);
      i := i + 1;
    }
    assert (set j | 0 <= j < 4 :: DefaultFields[j]) ==
      {CityDefault, MaxAttendeesDefault, SeatsAvailableDefault, TopicsDefault} by {
      assert DefaultFields[0] == CityDefault && DefaultFields[1] == MaxAttendeesDefault;
      assert DefaultFields[2] == SeatsAvailableDefault && DefaultFields[3] == TopicsDefault;
    }
  }

  /** The form once the whole DEFAULTS loop has run. */
  function WithDefaults(request: ConferenceForm): ConferenceForm
  {
    DefaultsFilled(request, {CityDefault, MaxAttendeesDefault, SeatsAvailableDefault, TopicsDefault})
  }

  /** The month a conference is filed under: that of its start date, or 0. */
  function MonthOf(startDate: Option<Date>): int
  {
    if startDate.Some? then startDate.value.month else 0
  }

  /** The record `_createConferenceObject` stores for `userId` from the
      defaulted form `data`. */
  function NewConference(userId: string, data: ConferenceForm): (c: Conference)
    requires data.name.Some? && data.city.Some? && data.maxAttendees.Some? && data.seatsAvailable.Some?
    ensures c.month == (if data.startDate.Some? then data.startDate.value.month else 0)
    ensures data.maxAttendees.value > 0 ==> c.seatsAvailable == c.maxAttendees
    ensures data.maxAttendees.value <= 0 ==> c.seatsAvailable == data.seatsAvailable.value
    ensures c.organizerUserId == userId && c.parentUserId == userId && c.maxAttendees == data.maxAttendees.value
  {
    Conference(
      name := data.name.value,
      description := data.description,
      parentUserId := userId,
      organizerUserId := userId,
      topics := data.topics,
      city := data.city.value,
      startDate := data.startDate,
      month := MonthOf(data.startDate),
      maxAttendees := data.maxAttendees.value,
      seatsAvailable :=
        if data.maxAttendees.value > 0 then data.maxAttendees.value else data.seatsAvailable.value,
      endDate := data.endDate)
  }

  // ---------------------------------------------------------------------
  // Conference update: copy the fields the client supplied.

  /** The fields of ConferenceForm in an assumed visiting order; only
      `StartDateField` before `MonthField` matters to the result. */
  datatype FormField =
    | NameField | DescriptionField | OrganizerUserIdField | TopicsField | CityField
    | StartDateField | MonthField | MaxAttendeesField | SeatsAvailableField | EndDateField
    | WebsafeKeyField | OrganizerDisplayNameField

  const FormFields: seq<FormField> := [
    NameField, DescriptionField, OrganizerUserIdField, TopicsField, CityField,
    StartDateField, MonthField, MaxAttendeesField, SeatsAvailableField, EndDateField,
    WebsafeKeyField, OrganizerDisplayNameField]

  /** Where a field stands in the order the update loop visits them. */
  function Position(f: FormField): (p: nat)
    ensures p < |FormFields| && FormFields[p] == f
  {
    match f
    case NameField => 0
    case DescriptionField => 1
    case OrganizerUserIdField => 2
    case TopicsField => 3
    case CityField => 4
    case StartDateField => 5
    case MonthField => 6
    case MaxAttendeesField => 7
    case SeatsAvailableField => 8
    case EndDateField => 9
    case WebsafeKeyField => 10
    case OrganizerDisplayNameField => 11
  }

  /** The record after the first `visited` fields of the form have been
      copied from `request` where they are neither None nor `[]`. A start
      date sets the month too, unless the month, visited after it, is
      supplied as well. */
  function FieldsCopied(conf: Conference, request: ConferenceForm, visited: nat): Conference
  {
    conf.(
      name := if Position(NameField) < visited && request.name.Some? then request.name.value else conf.name,
      description :=
        if Position(DescriptionField) < visited && request.description.Some? then request.description
        else conf.description,
      organizerUserId :=
        if Position(OrganizerUserIdField) < visited && request.organizerUserId.Some? then
          request.organizerUserId.value
        else conf.organizerUserId,
      topics := if Position(TopicsField) < visited && request.topics != [] then request.topics else conf.topics,
      city := if Position(CityField) < visited && request.city.Some? then request.city.value else conf.city,
      startDate :=
        if Position(StartDateField) < visited && request.startDate.Some? then request.startDate
        else conf.startDate,
      month :=
        if Position(MonthField) < visited && request.month.Some? then request.month.value
        else if Position(StartDateField) < visited && request.startDate.Some? then request.startDate.value.month
        else conf.month,
      maxAttendees :=
        if Position(MaxAttendeesField) < visited && request.maxAttendees.Some? then request.maxAttendees.value
        else conf.maxAttendees,
      seatsAvailable :=
        if Position(SeatsAvailableField) < visited && request.seatsAvailable.Some? then
          request.seatsAvailable.value
        else conf.seatsAvailable,
      endDate :=
        if Position(EndDateField) < visited && request.endDate.Some? then request.endDate else conf.endDate)
  }

  /** One turn of the update loop: `setattr(conf, field, value)` when the value
      is neither None nor `[]`. The form's websafeKey and organizerDisplayName
      are not properties of the record and leave it as it is. */
  function CopyField(conf: Conference, request: ConferenceForm, field: FormField): Conference
  {
    match field
    case NameField => if request.name.Some? then conf.(name := request.name.value) else conf
    case DescriptionField => if request.description.Some? then conf.(description := request.description) else conf
    case OrganizerUserIdField =>
      if request.organizerUserId.Some? then conf.(organizerUserId := request.organizerUserId.value) else conf
    case TopicsField => if request.topics != [] then conf.(topics := request.topics) else conf
    case CityField => if request.city.Some? then conf.(city := request.city.value) else conf
    case StartDateField =>
      if request.startDate.Some? then
        conf.(month := request.startDate.value.month, startDate := request.startDate)
      else conf
    case MonthField => if request.month.Some? then conf.(month := request.month.value) else conf
    case MaxAttendeesField =>
      if request.maxAttendees.Some? then conf.(maxAttendees := request.maxAttendees.value) else conf
    case SeatsAvailableField =>
      if request.seatsAvailable.Some? then conf.(seatsAvailable := request.seatsAvailable.value) else conf
    case EndDateField => if request.endDate.Some? then conf.(endDate := request.endDate) else conf
    case WebsafeKeyField => conf
    case OrganizerDisplayNameField => conf
  }

  /** The record once every field of `request` has been visited. */
  function Updated(conf: Conference, request: ConferenceForm): Conference
  {
    FieldsCopied(conf, request, |FormFields|)
  }

  /** The copying loop of `_updateConferenceObject`: a field changes exactly
      when the client supplied it; a supplied start date also sets the month
      unless the client supplied the month as well; topics never become
      empty. */
  method CopySuppliedFields(conf: Conference, request: ConferenceForm) returns (updated: Conference)
    ensures updated == Updated(conf, request)
    ensures updated.name == (if request.name.Some? then request.name.value else conf.name)
    ensures updated.parentUserId == conf.parentUserId
    ensures updated.organizerUserId ==
      (if request.organizerUserId.Some? then request.organizerUserId.value else conf.organizerUserId)
    ensures updated.topics == (if request.topics != [] then request.topics else conf.topics)
    ensures conf.topics != [] ==> updated.topics != []
    ensures request.month.None? && request.startDate.Some? ==> updated.month == request.startDate.value.month
    ensures request.month.None? && request.startDate.None? ==> updated.month == conf.month
    ensures request.seatsAvailable.None? ==> updated.seatsAvailable == conf.seatsAvailable
    ensures (request == ConferenceForm(None, None, None, [], None, None, None, None, None, None,
                                       request.websafeKey, request.organizerDisplayName))
            ==> updated == conf
  {
    updated := conf;
    var i := 0;
    while i < |FormFields|
      invariant 0 <= i <= |FormFields|
      invariant updated == FieldsCopied(conf, request, i)
    {
      CopyFieldStep(conf, request, i);
      updated := CopyField(updated, request, FormFields[i]);
      i := i + 1;
    }
  }

  /** One turn of the loop extends the copied prefix by one field. */
  lemma CopyFieldStep(conf: Conference, request: ConferenceForm, i: nat)
    requires i < |FormFields|
    ensures CopyField(FieldsCopied(conf, request, i), request, FormFields[i]) == FieldsCopied(conf, request, i + 1)
  {
    var f := FormFields[i];
    assert Position(f) == i by {
      if i == 0 {} else if i == 1 {} else if i == 2 {} else if i == 3 {} else if i == 4 {}
      else if i == 5 {} else if i == 6 {} else if i == 7 {} else if i == 8 {} else if i == 9 {}
      else if i == 10 {} else {}
    }
    // only the field at position `i` can differ between the two prefixes
    var before, after := FieldsCopied(conf, request, i), FieldsCopied(conf, request, i + 1);
    match f
    case NameField =>
    case DescriptionField =>
    case OrganizerUserIdField =>
    case TopicsField =>
    case CityField =>
    case StartDateField =>
    case MonthField =>
    case MaxAttendeesField =>
    case SeatsAvailableField =>
    case EndDateField =>
    case WebsafeKeyField =>
    case OrganizerDisplayNameField =>
  }

  /** An update can hand the conference to a new organizer, but never moves
      it to another parent. */
  lemma UpdatedKeepsParent(conf: Conference, request: ConferenceForm)
    ensures Updated(conf, request).parentUserId == conf.parentUserId
    ensures Updated(conf, request).organizerUserId ==
      (if request.organizerUserId.Some? then request.organizerUserId.value else conf.organizerUserId)
  {
  }

  /** Applying the same update twice stores the same record as applying it
      once. */
  lemma UpdateIdempotent(conf: Conference, request: ConferenceForm)
    ensures Updated(Updated(conf, request), request) == Updated(conf, request)
  {
  }

  // ---------------------------------------------------------------------
  // Profile save.

  /** ASCII upper-casing of one character, as Python's `str.upper()`. */
  function UpperChar(c: char): char
  {
    if 'a' <= c <= 'z' then (c as int - 'a' as int + 'A' as int) as char else c
  }

  /** Python's `str.upper()` on ASCII text. */
  function Upper(s: string): (r: string)
    ensures |r| == |s|
    ensures forall i :: 0 <= i < |s| ==> r[i] == UpperChar(s[i])
  {
    if s == [] then [] else [UpperChar(s[0])] + Upper(s[1..])
  }

  /** Upper-casing twice is upper-casing once. */
  lemma UpperIdempotent(s: string)
    ensures Upper(Upper(s)) == Upper(s)
  {
  }

  /** The two fields `_doProfile` lets a user change. */
  datatype ProfileField = DisplayNameField | TeeShirtSizeField

  const ProfileFields: seq<ProfileField> := [DisplayNameField, TeeShirtSizeField]

  /** The profile after the fields in `done` have been copied from a truthy
      request value: a non-empty display name, any shirt size (enum values
      are always truthy), the latter upper-cased. */
  function ProfileEdited(prof: Profile, request: ProfileMiniForm, done: set<ProfileField>): Profile
  {
    prof.(
      displayName :=
        if DisplayNameField in done && request.displayName.Some? && request.displayName.value != "" then
          request.displayName.value
        else prof.displayName,
      teeShirtSize :=
        if TeeShirtSizeField in done && request.teeShirtSize.Some? then Upper(request.teeShirtSize.value)
        else prof.teeShirtSize)
  }

  /** The profile once both editable fields have been visited. */
  function Saved(prof: Profile, request: ProfileMiniForm): Profile
  {
    ProfileEdited(prof, request, {DisplayNameField, TeeShirtSizeField})
  }

  /** The field loop of `_doProfile` on a save request: only the display name
      and the shirt size can change, the latter is stored upper-cased, and
      the e-mail address and both key lists are kept. */
  method ApplyProfileEdits(prof: Profile, request: ProfileMiniForm) returns (edited: Profile)
    ensures edited == Saved(prof, request)
    ensures edited.mainEmail == prof.mainEmail
    ensures edited.conferenceKeysToAttend == prof.conferenceKeysToAttend && edited.wishList == prof.wishList
    ensures request.teeShirtSize.Some? ==> edited.teeShirtSize == Upper(request.teeShirtSize.value)
    ensures request.teeShirtSize.None? ==> edited.teeShirtSize == prof.teeShirtSize
    ensures edited.displayName != prof.displayName ==> request.displayName == Some(edited.displayName)
  {
    edited := prof;
    var i := 0;
    while i < |ProfileFields|
      invariant 0 <= i <= |ProfileFields|
      invariant edited == ProfileEdited(prof, request, set j | 0 <= j < i :: ProfileFields[j])
    {
      var field := ProfileFields[i];
      match field {
        case DisplayNameField =>
          if request.displayName.Some? && request.displayName.value != "" {
            edited := edited.(displayName := request.displayName.value);
          }
        case TeeShirtSizeField =>
          if request.teeShirtSize.Some? {
            edited := edited.(teeShirtSize := Upper(request.teeShirtSize.value));
          }
      }
      assert (set j | 0 <= j < i + 1 :: ProfileFields[j]) == (set j | 0 <= j < i :: ProfileFields[j]) + {field};
      i := i + 1;
    }
    assert (set j | 0 <= j < 2 :: ProfileFields[j]) == {DisplayNameField, TeeShirtSizeField} by {
      assert ProfileFields[0] == DisplayNameField && ProfileFields[1] == TeeShirtSizeField;
    }
  }

  /** Saving the same request twice leaves the profile as saving it once. */
  lemma SaveIdempotent(prof: Profile, request: ProfileMiniForm)
    ensures Saved(Saved(prof, request), request) == Saved(prof, request)
  {
    if request.teeShirtSize.Some? {
      UpperIdempotent(request.teeShirtSize.value);
    }
  }
}
