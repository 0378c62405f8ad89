# Conference Central: the business rules of the conference API

A Dafny model of the rules inside the App Engine endpoints service
`conference.py`: the conference query builder, registration for a
conference, the session wishlist, and the field rules of conference
creation, conference update and profile save. The datastore is a class
`ConferenceApi.Datastore` whose three maps (profiles by user id,
conferences and sessions by websafe key) stand for the stored entities;
every endpoint reads a record, changes its own copy and writes it back,
as `get` and `put` do. A transaction that raises stores nothing: the model
takes a snapshot of the maps and restores it on the failure paths.

Modules:

- `Common` (`common.dfy`): `Option`, `Result`, the API's error kinds, dates
  and times as plain records.
- `KeyLists` (`lists.dfy`): Python's `list.remove` on key lists, and the
  facts the registration and wishlist proofs need (remove undoes append,
  neither introduces a duplicate).
- `IntegerText` (`integers.dfy`): Python 2.7's `int()` on a filter value
  (surrounding ASCII whitespace, an optional sign that may be followed by
  more whitespace, decimal digits), with a decimal renderer as its inverse.
- `QueryFilters` (`query.dfy`): `_formatFilters` and `_getQuery` as loops,
  proved against the predicate `Acceptable` (every field and operator is in
  its table, and all inequality filters name one property).
- `Records` (`records.dfy`): the stored records and wire forms; the
  DEFAULTS loop, the update's copy-what-was-supplied loop and the profile
  save loop, each proved against a function that gives the record after
  the first fields have been visited.
- `ConferenceApi` (`datastore.dfy`): the endpoints that change stored
  records. Every one of them keeps `Valid()`: no profile lists a
  conference or a session twice, every conference has topics, and every
  session has an allowed type and an existing conference.

Where the written behaviour of the service and its code differ, the model
follows the code:

- A session type outside the allowed choices raises the datastore's
  BadValueError, not a BadRequest error; the model has its own error
  `InvalidChoice` for it.
- `0 <= seatsAvailable <= maxAttendees` is not kept by the code: creation
  with `maxAttendees <= 0` keeps the supplied (or default 0) seat count,
  and an update copies `seatsAvailable` and `maxAttendees` verbatim. The
  model proves only what the code keeps: registration never takes the last
  seat below zero.
- The month is not always that of the start date: an update that supplies
  `month` stores it as given.
- An update may hand `organizerUserId` to another user, but the
  conference key keeps the creator's Profile key as its parent. The update
  runs in a single-entity-group transaction, so reading the new
  organizer's Profile fails and nobody can update the conference after
  such a handover (`ConferenceApi.Datastore.HandoverLocksUpdates`).
- Filters are checked one at a time, so the first bad filter decides the
  error (`QueryFilters.RejectedAt`).

## Model

| member | source | states |
|---|---|---|
| QueryFilters.FormatFilters | conference.py:329-361 | succeeds exactly when every field and operator is in its table and all inequality filters name one property; on failure the error is the one raised at the first bad filter; on success one translated filter per input, in input order, and the inequality property is absent exactly when no operator is an inequality, else the property every inequality names |
| QueryFilters.EqualityFilterIrrelevant | conference.py:345-358 | inserting or deleting a known equality filter anywhere never changes whether a filter list is accepted |
| QueryFilters.GetQuery | conference.py:308-327 | rejected lists fail with the validator's error; an accepted list succeeds exactly when every `month`/`maxAttendees` value is an integer literal (`IntegerText.LiteralParts`), else fails with NotAnInteger; the order is by name alone exactly when there is no inequality, else by the inequality property and then by name; each filter is the translated input with its value converted |
| IntegerText.ParseInt | conference.py:320-322 | a blank value is an error; a string of decimal digits reads as its value, and a minus sign before them negates it |
| IntegerText.ParseAcceptsLiteral | conference.py:320-322 | every integer literal (whitespace, an optional `+` or `-`, whitespace only after a sign, one or more digits, whitespace) reads as its digits' value, negated after `-`; so `int(" + 7 ")` is 7 and `int("- 5")` is -5 |
| IntegerText.ParseIntShape | conference.py:320-322 | conversely, whatever `int()` reads is such a literal, and the value read is that literal's value |
| IntegerText.ParseRejectsOtherChars | conference.py:320-322 | a value holding any character other than whitespace, a digit, `+` or `-` is a ValueError (`"1.5"`, `"5a"`, `"0x10"`) |
| IntegerText.ParseRejectsTwoSigns | conference.py:320-322 | a value starting with two signs is a ValueError (`"--5"`, `"+-5"`) |
| IntegerText.ParseShowRoundTrip | conference.py:320-322 | `int(str(n)) == n` for every integer `n` |
| IntegerText.ParseIgnoresPadding | conference.py:320-322 | whitespace before and after a value does not change what `int()` reads |
| KeyLists.RemoveFirst | conference.py:707-710 | `list.remove` on a list that holds the key shortens it by one and removes exactly one occurrence (as multisets); `list.remove` raises ValueError on a list without the key, which the model totalises by returning the list unchanged, and both callers test membership first (conference.py:514, 707) so only the first case is reached |
| KeyLists.RemoveFirstUndoesAppend | conference.py:697-710 | removing a key just appended to a list that did not hold it gives back the original list |
| KeyLists.RemoveFirstKeepsNoDuplicates | conference.py:707-710 | removing a key from a duplicate-free list leaves it duplicate-free and without that key |
| KeyLists.AppendKeepsNoDuplicates | conference.py:689-698 | appending a key the list does not hold keeps it duplicate-free |
| Records.FillDefaults | conference.py:164-169 | city, maxAttendees, seatsAvailable and topics are all set afterwards; a supplied value is kept, a missing one becomes its DEFAULTS value |
| Records.NewConference | conference.py:171-192 | the stored month is the start date's month or 0; seats equal maxAttendees when it is positive and keep the supplied or default count otherwise; the organizer is the caller |
| Records.CopySuppliedFields | conference.py:229-241 | a field changes exactly when the client supplied it (not None, not `[]`); a supplied start date sets the month unless a month is supplied too; topics never become empty; a request supplying nothing changes nothing |
| Records.UpdatedKeepsParent | conference.py:229-241 | an update copies a supplied organizer id but never changes the parent user fixed at creation |
| Records.UpdateIdempotent | conference.py:229-241 | applying the same update twice gives the record applying it once gives |
| Records.Upper | conference.py:793-795 | upper-casing keeps the length and upper-cases every ASCII letter |
| Records.ApplyProfileEdits | conference.py:789-797 | only the display name and shirt size change; the shirt size is stored upper-cased when supplied; an empty display name is ignored; e-mail and both key lists are kept |
| Records.SaveIdempotent | conference.py:789-797 | saving the same profile request twice gives the profile saving it once gives |
| ConferenceApi.NewProfile | conference.py:766-776 | a new profile carries the user's nickname and e-mail, shirt size NOT_SPECIFIED and empty key lists |
| ConferenceApi.Datastore.GetProfileFromUser | conference.py:753-778 | returns the stored profile, or stores and returns a new one; nothing else changes |
| ConferenceApi.Datastore.CreateConference | conference.py:142-203 | a missing or empty name fails with BadRequest and stores nothing; otherwise the defaulted record is stored under the new key and the request with defaults and organizer is returned |
| ConferenceApi.Datastore.UpdateConference | conference.py:205-244 | NotFound for an unknown key, Forbidden for anyone but the organizer, a rolled-back CrossGroup failure when the organizer is not the creator (whose Profile key is the conference key's parent), and a rolled-back failure when the organizer has no profile; otherwise the conference becomes `Updated(conf, request)`; every failure leaves the store unchanged |
| ConferenceApi.Datastore.HandoverLocksUpdates | conference.py:205-244 | after the creator's update hands the conference to another organizer, that organizer's update fails with CrossGroup |
| ConferenceApi.Datastore.CreateSession | conference.py:408-471 | NotFound, Forbidden, BadRequest for a missing name and InvalidChoice for a type outside the choices, in that order, each storing nothing; otherwise the session is stored under the new key |
| ConferenceApi.Datastore.RegisterForConference | conference.py:673-719 | NotFound for an unknown conference, Conflict when already registered or no seat is left; otherwise the key is appended once and one seat taken; on success seats stay non-negative; every failure stores nothing, not even a new profile |
| ConferenceApi.Datastore.UnregisterFromConference | conference.py:673-719 | NotFound for an unknown conference; a listed key is removed and its seat given back (true); an unlisted key gives false and changes no conference or existing profile |
| ConferenceApi.Datastore.RegistrationRoundTrip | conference.py:689-714 | a successful register followed by unregister succeeds and restores every conference and the attend list; a failed register changes nothing |
| ConferenceApi.Datastore.AddSessionToWishList | conference.py:473-498 | Conflict when the session does not exist or is already listed; otherwise the key is appended; a failure leaves the wishlist as it was (a new profile is still stored) |
| ConferenceApi.Datastore.RemoveSessionFromWishList | conference.py:500-524 | Conflict when the session does not exist or is not listed; otherwise the key is removed and no longer listed; a failure leaves the wishlist as it was |
| ConferenceApi.Datastore.SecondAddRejected | conference.py:487-496 | after a successful add, adding the same session again fails with Conflict and the list has grown by exactly one |
| ConferenceApi.Datastore.WishListRoundTrip | conference.py:473-524 | a successful add followed by remove succeeds and restores the wishlist; for an unknown session both fail and only a new profile is stored |
| ConferenceApi.Datastore.DoProfile | conference.py:780-803 | returns the (possibly new) profile, first saved with the edits of a save request; the stored profile is the returned one |

## Left out

- Authentication: `endpoints.get_current_user` and `getUserId` are replaced by a `User` parameter, so the Unauthorized errors are not modelled.
- Endpoints decorators, request containers, the form copies back to the client (`_copyConferenceToForm`, `_copySessionToForm`, `_copyProfileToForm`) and the API server registration: transport, not business rules.
- Key encoding and `allocate_ids`: keys are opaque strings; a fresh key is a parameter that is not yet in use, and a websafe key of the wrong kind is treated as one that resolves to nothing.
- Query execution, `getConference`, `getConferencesCreated`, `getConferencesToAttend`, `getSessionsInWishList` and the session queries: they only read the store, apart from the lazy profile creation of `_getProfileFromUser` in `getConferencesToAttend` and `getSessionsInWishList`, which `ConferenceApi.Datastore.GetProfileFromUser` models; `_getQuery` is modelled as the plan it builds.
- memcache announcements, the featured speaker and the taskqueue e-mails: external side effects.
- `datetime.strptime`: dates and times are records; a malformed date string is not modelled.
- Concurrency and transaction retries: each endpoint is one sequential step; a failed transaction is modelled as storing nothing.
- models.py is not part of this model: the allowed session types are a set fixed when the datastore is built, and the order in which `request.all_fields()` yields the update's fields is not fixed by the source, and only the `startDate`/`month` pair depends on it: the model assumes `startDate` is visited before `month`, so a supplied month wins over the start date's month (the other fields, and the two display-only fields and the websafe conference key, which are not stored properties, are independent of the order).
- IntegerText.ParseInt: reads ASCII digits and ASCII whitespace only; Python 2.7's `int()` on a unicode value also accepts other Unicode decimal digits and spaces.
