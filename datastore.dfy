/** The endpoints that change stored records: conference creation and
    update, session creation, registration for a conference, the session
    wishlist and the profile. The datastore is a class whose maps, keyed by
    opaque key strings, hold the records; an endpoint reads a record, changes
    its own copy and writes it back, exactly as `get` and `put` do. */
module ConferenceApi {
  import opened Common
  import opened Records
  import opened KeyLists

  /** The signed-in user as the authentication layer reports it; `id` is what
      `getUserId` derives from it. */
  datatype User = User(id: string, nickname: string, email: string)

  /** The name of the TeeShirtSize value a new profile starts with. */
  const NotSpecified := "NOT_SPECIFIED"

  /** The profile `_getProfileFromUser` creates for a user who has none. */
  function NewProfile(user: User): (p: Profile)
    ensures p.displayName == user.nickname && p.mainEmail == user.email
    ensures p.teeShirtSize == NotSpecified
    ensures p.conferenceKeysToAttend == [] && p.wishList == []
  {
    Profile(user.nickname, user.email, NotSpecified, [], [])
  }

  /** Neither key list of a profile holds a key twice. */
  predicate ProfileValid(p: Profile)
  {
    NoDuplicates(p.conferenceKeysToAttend) && NoDuplicates(p.wishList)
  }

  predicate ProfilesValid(m: map<string, Profile>)
  {
    forall id :: id in m ==> ProfileValid(m[id])
  }

  predicate ConferencesValid(m: map<string, Conference>)
  {
    forall k :: k in m ==> m[k].topics != []
  }

  predicate SessionsValid(m: map<string, Session>, conferenceKeys: set<string>, choices: set<string>)
  {
    forall k :: k in m ==> m[k].sessionType in choices && m[k].conferenceKey in conferenceKeys
  }

  /** Storing a valid profile keeps every stored profile valid. */
  lemma PutProfile(m: map<string, Profile>, id: string, p: Profile)
    requires ProfilesValid(m) && ProfileValid(p)
    ensures ProfilesValid(m[id := p])
  {
  }

  /** Storing a conference with topics keeps every stored conference valid. */
  lemma PutConference(m: map<string, Conference>, k: string, c: Conference)
    requires ConferencesValid(m) && c.topics != []
    ensures ConferencesValid(m[k := c])
  {
  }

  class Datastore {
    /** Profile records by user id. */
    var profiles: map<string, Profile>
    /** Conference records by websafe conference key. */
    var conferences: map<string, Conference>
    /** Session records by websafe session key. */
    var sessions: map<string, Session>
    /** The allowed session types (sessionTypeChoices). */
    const sessionTypeChoices: set<string>

    /** What every endpoint keeps true of the stored records: no profile
        lists a conference or a session twice, every conference has topics,
        and every session has an allowed type and an existing conference. */
    ghost predicate Valid()
      reads this
    {
      && ProfilesValid(profiles)
      && ConferencesValid(conferences)
      && SessionsValid(sessions, conferences.Keys, sessionTypeChoices)
    }

    constructor (choices: set<string>)
      ensures Valid()
      ensures profiles == map[] && conferences == map[] && sessions == map[]
      ensures sessionTypeChoices == choices
    {
      profiles, conferences, sessions := map[], map[], map[];
      sessionTypeChoices := choices;
    }

    /** The profile `_getProfileFromUser` returns: the stored one, or a new
        one for a user who has none. */
    function ProfileFor(user: User): Profile
      reads this
    {
      if user.id in profiles then profiles[user.id] else NewProfile(user)
    }

    /** `_getProfileFromUser`: return the user's profile, storing a new one
        first if there is none. */
    method GetProfileFromUser(user: User) returns (prof: Profile)
      requires Valid()
      modifies this`profiles
      ensures Valid()
      ensures prof == old(ProfileFor(user))
      ensures profiles == old(profiles)[user.id := prof]
    {
      if user.id in profiles {
        prof := profiles[user.id];
        assert profiles == profiles[user.id := prof];
      } else {
        prof := NewProfile(user);
        profiles := profiles[user.id := prof];
      }
    }

    // ------------------------------------------------------------------
    // Conferences.

    /** `_createConferenceObject`: reject a conference without a name; store
        the defaulted record under the freshly allocated `key` (allocate_ids
        never returns a key in use), with the month of its start date (0
        without one) and, when maxAttendees is positive, as many seats as
        attendees; return the request with its defaults and organizer. */
    method CreateConference(user: User, key: string, request: ConferenceForm) returns (r: Result<ConferenceForm>)
      requires Valid()
      requires key !in conferences
      modifies this`conferences
      ensures Valid()
      ensures request.name.None? || request.name == Some("") ==>
        r == Failure(BadRequest(ConferenceNameRequired)) && conferences == old(conferences)
      ensures request.name.Some? && request.name != Some("") ==>
        && r == Success(WithDefaults(request).(organizerUserId := Some(user.id)))
        && conferences == old(conferences)[key := NewConference(user.id, WithDefaults(request))]
      ensures r.Success? ==>
        && conferences[key].month == MonthOf(request.startDate)
        && conferences[key].topics != []
        && (conferences[key].maxAttendees > 0 ==> conferences[key].seatsAvailable == conferences[key].maxAttendees)
    {
      if request.name.None? || request.name.value == "" {
        return Failure(BadRequest(ConferenceNameRequired));
      }
      var data := FillDefaults(request);
      var conf := NewConference(user.id, data);
      conferences := conferences[key := conf];
      r := Success(data.(organizerUserId := Some(user.id)));
    }

    /** `_updateConferenceObject`, one transaction: NotFound for an unknown
        key, Forbidden for anyone but the organizer; otherwise copy the
        supplied fields. Reading the organizer's profile afterwards fails
        when it lies outside the conference's entity group (an organizer
        other than the creator, installed by an earlier update) or when the
        organizer has none, and the transaction then stores nothing. */
    method UpdateConference(user: User, wsck: string, request: ConferenceForm) returns (r: Result<Conference>)
      requires Valid()
      modifies this`conferences
      ensures Valid()
      ensures r.Failure? ==> conferences == old(conferences)
      ensures wsck !in old(conferences) ==> r == Failure(NotFound)
      ensures wsck in old(conferences) ==>
        var conf := old(conferences)[wsck];
        if user.id != conf.organizerUserId then r == Failure(Forbidden)
        else if user.id != conf.parentUserId then r == Failure(CrossGroup)
        else if user.id !in profiles then r == Failure(MissingProfile)
        else
          && r == Success(Updated(conf, request))
          && conferences == old(conferences)[wsck := Updated(conf, request)]
    {
      if wsck !in conferences {
        return Failure(NotFound);
      }
      var conf := conferences[wsck];
      if user.id != conf.organizerUserId {
        return Failure(Forbidden);
      }
      var snapshot := conferences;
      conf := CopySuppliedFields(conf, request);
      conferences := conferences[wsck := conf];
      if user.id != conf.parentUserId {
        // the Profile read leaves the transaction's entity group
        conferences := snapshot;
        return Failure(CrossGroup);
      }
      if user.id !in profiles {
        // the transaction is rolled back
        conferences := snapshot;
        return Failure(MissingProfile);
      }
      r := Success(conf);
    }

    /** Once the creator hands the conference to another organizer, that
        organizer's own updates fail: their Profile is outside the
        conference's entity group. */
    method HandoverLocksUpdates(creator: User, heir: User, wsck: string, handover: ConferenceForm,
                                later: ConferenceForm)
      returns (first: Result<Conference>, second: Result<Conference>)
      requires Valid()
      requires creator.id != heir.id && handover.organizerUserId == Some(heir.id)
      modifies this`conferences
      ensures Valid()
      ensures first.Success? ==> first.value.organizerUserId == heir.id && second == Failure(CrossGroup)
    {
      first := UpdateConference(creator, wsck, handover);
      if first.Success? {
        UpdatedKeepsParent(old(conferences)[wsck], handover);
      }
      second := UpdateConference(heir, wsck, later);
    }

    // ------------------------------------------------------------------
    // Sessions.

    /** `_createSessionObject`: NotFound for an unknown conference, Forbidden
        for anyone but its organizer, BadRequest without a name, and the
        datastore's BadValueError for a type outside sessionTypeChoices;
        otherwise store the session under the freshly allocated `key`. */
    method CreateSession(user: User, wsck: string, key: string, request: SessionForm) returns (r: Result<Session>)
      requires Valid()
      requires key !in sessions
      modifies this`sessions
      ensures Valid()
      ensures r.Failure? ==> sessions == old(sessions)
      ensures wsck !in conferences ==> r == Failure(NotFound)
      ensures wsck in conferences ==>
        if user.id != conferences[wsck].organizerUserId then r == Failure(Forbidden)
        else if request.name.None? || request.name == Some("") then r == Failure(BadRequest(SessionNameRequired))
        else if request.sessionType.None? || request.sessionType.value !in sessionTypeChoices then
          r == Failure(InvalidChoice)
        else
          var s := Session(wsck, request.name.value, request.highlights, request.speaker, request.duration,
                           request.sessionType.value, request.startDate, request.startTime);
          r == Success(s) && sessions == old(sessions)[key := s]
    {
      if wsck !in conferences {
        return Failure(NotFound);
      }
      if user.id != conferences[wsck].organizerUserId {
        return Failure(Forbidden);
      }
      if request.name.None? || request.name.value == "" {
        return Failure(BadRequest(SessionNameRequired));
      }
      if request.sessionType.None? || request.sessionType.value !in sessionTypeChoices {
        return Failure(InvalidChoice);
      }
      var session := Session(wsck, request.name.value, request.highlights, request.speaker, request.duration,
                             request.sessionType.value, request.startDate, request.startTime);
      sessions := sessions[key := session];
      r := Success(session);
    }

    // ------------------------------------------------------------------
    // Registration.

    /** `_conferenceRegistration` with `reg` true (registerForConference),
        one transaction: NotFound for an unknown conference; Conflict when the
        key is already listed or no seat is left; otherwise append the key
        and take one seat. A failure stores nothing, not even a profile
        created on the way. */
    method RegisterForConference(user: User, wsck: string) returns (r: Result<bool>)
      requires Valid()
      modifies this`profiles, this`conferences
      ensures Valid()
      ensures r.Failure? ==> profiles == old(profiles) && conferences == old(conferences)
      ensures wsck !in old(conferences) ==> r == Failure(NotFound)
      ensures wsck in old(conferences) ==>
        var prof := old(ProfileFor(user));
        var conf := old(conferences)[wsck];
        if wsck in prof.conferenceKeysToAttend then r == Failure(Conflict(AlreadyRegistered))
        else if conf.seatsAvailable <= 0 then r == Failure(Conflict(NoSeatsAvailable))
        else
          && r == Success(true)
          && profiles == old(profiles)[user.id :=
               prof.(conferenceKeysToAttend := prof.conferenceKeysToAttend + [wsck])]
          && conferences == old(conferences)[wsck := conf.(seatsAvailable := conf.seatsAvailable - 1)]
      ensures r.Success? ==>
        && r.value
        && wsck in conferences && conferences[wsck].seatsAvailable >= 0
        && user.id in profiles && wsck in profiles[user.id].conferenceKeysToAttend
    {
      var snapshot := profiles;
      var prof := GetProfileFromUser(user);
      if wsck !in conferences {
        profiles := snapshot;
        return Failure(NotFound);
      }
      var conf := conferences[wsck];
      if wsck in prof.conferenceKeysToAttend {
        profiles := snapshot;
        return Failure(Conflict(AlreadyRegistered));
      }
      if conf.seatsAvailable <= 0 {
        profiles := snapshot;
        return Failure(Conflict(NoSeatsAvailable));
      }
      AppendKeepsNoDuplicates(prof.conferenceKeysToAttend, wsck);
      prof := prof.(conferenceKeysToAttend := prof.conferenceKeysToAttend + [wsck]);
      conf := conf.(seatsAvailable := conf.seatsAvailable - 1);
      profiles := profiles[user.id := prof];
      conferences := conferences[wsck := conf];
      r := Success(true);
    }

    /** `_conferenceRegistration` with `reg` false (unregisterFromConference),
        one transaction: NotFound for an unknown conference; a listed key is
        removed and its seat given back; an unlisted key gives `false` and
        changes no record (a profile created on the way is stored). */
    method UnregisterFromConference(user: User, wsck: string) returns (r: Result<bool>)
      requires Valid()
      modifies this`profiles, this`conferences
      ensures Valid()
      ensures r.Failure? ==> profiles == old(profiles) && conferences == old(conferences)
      ensures wsck !in old(conferences) ==> r == Failure(NotFound)
      ensures wsck in old(conferences) ==>
        var prof := old(ProfileFor(user));
        var conf := old(conferences)[wsck];
        if wsck in prof.conferenceKeysToAttend then
          && r == Success(true)
          && profiles == old(profiles)[user.id :=
               prof.(conferenceKeysToAttend := RemoveFirst(prof.conferenceKeysToAttend, wsck))]
          && conferences == old(conferences)[wsck := conf.(seatsAvailable := conf.seatsAvailable + 1)]
        else
          && r == Success(false)
          && profiles == old(profiles)[user.id := prof]
          && conferences == old(conferences)
      ensures r.Success? ==> user.id in profiles && wsck !in profiles[user.id].conferenceKeysToAttend
    {
      var snapshot := profiles;
      var prof := GetProfileFromUser(user);
      if wsck !in conferences {
        profiles := snapshot;
        return Failure(NotFound);
      }
      var conf := conferences[wsck];
      if wsck in prof.conferenceKeysToAttend {
        RemoveFirstKeepsNoDuplicates(prof.conferenceKeysToAttend, wsck);
        prof := prof.(conferenceKeysToAttend := RemoveFirst(prof.conferenceKeysToAttend, wsck));
        conf := conf.(seatsAvailable := conf.seatsAvailable + 1);
        PutProfile(profiles, user.id, prof);
        PutConference(conferences, wsck, conf);
        assert conferences[wsck := conf].Keys == conferences.Keys;
        profiles := profiles[user.id := prof];
        conferences := conferences[wsck := conf];
        return Success(true);
      }
      return Success(false);
    }

    /** Registering and then unregistering the same user for the same
        conference gives every seat back and leaves the attend list as it
        was; only a profile created on the way stays. */
    method RegistrationRoundTrip(user: User, wsck: string) returns (registered: bool, unregistered: bool)
      requires Valid()
      modifies this`profiles, this`conferences
      ensures Valid()
      ensures registered ==> unregistered
      ensures registered ==>
        && conferences == old(conferences)
        && profiles == old(profiles)[user.id := old(ProfileFor(user))]
      ensures !registered ==> profiles == old(profiles) && conferences == old(conferences)
    {
      ghost var profiles0, conferences0 := profiles, conferences;
      ghost var prof := ProfileFor(user);
      var r := RegisterForConference(user, wsck);
      registered := r == Success(true);
      unregistered := false;
      if registered {
        ghost var conf := conferences0[wsck];
        ghost var listed := prof.(conferenceKeysToAttend := prof.conferenceKeysToAttend + [wsck]);
        assert ProfileFor(user) == listed;
        var u := UnregisterFromConference(user, wsck);
        unregistered := u == Success(true);
        RemoveFirstUndoesAppend(prof.conferenceKeysToAttend, wsck);
        assert listed.(conferenceKeysToAttend := RemoveFirst(listed.conferenceKeysToAttend, wsck)) == prof;
        assert profiles == profiles0[user.id := prof];
        assert conferences == conferences0[wsck := conf];
      }
    }

    // ------------------------------------------------------------------
    // Wishlist.

    /** `_addSessionToWishList`: Conflict when the key names no session or is
        already listed; otherwise append it. There is no transaction, so a
        profile created on the way is stored even when the call fails. */
    method AddSessionToWishList(user: User, wssk: string) returns (r: Result<bool>)
      requires Valid()
      modifies this`profiles
      ensures Valid()
      ensures
        var prof := old(ProfileFor(user));
        if wssk !in sessions then
          r == Failure(Conflict(NoSuchSession)) && profiles == old(profiles)[user.id := prof]
        else if wssk in prof.wishList then
          r == Failure(Conflict(AlreadyInWishList)) && profiles == old(profiles)[user.id := prof]
        else
          && r == Success(true)
          && profiles == old(profiles)[user.id := prof.(wishList := prof.wishList + [wssk])]
      ensures r.Failure? ==> profiles[user.id].wishList == old(ProfileFor(user)).wishList
    {
      var prof := GetProfileFromUser(user);
      if wssk !in sessions {
        return Failure(Conflict(NoSuchSession));
      }
      if wssk in prof.wishList {
        return Failure(Conflict(AlreadyInWishList));
      }
      AppendKeepsNoDuplicates(prof.wishList, wssk);
      prof := prof.(wishList := prof.wishList + [wssk]);
      profiles := profiles[user.id := prof];
      r := Success(true);
    }

    /** `_removeSessionFromWishList`: Conflict when the key names no session
        or is not listed (unlike unregistering, which answers `false`);
        otherwise remove it. A profile created on the way is stored even
        when the call fails. */
    method RemoveSessionFromWishList(user: User, wssk: string) returns (r: Result<bool>)
      requires Valid()
      modifies this`profiles
      ensures Valid()
      ensures
        var prof := old(ProfileFor(user));
        if wssk !in sessions then
          r == Failure(Conflict(NoSuchSession)) && profiles == old(profiles)[user.id := prof]
        else if wssk !in prof.wishList then
          r == Failure(Conflict(NotInWishList)) && profiles == old(profiles)[user.id := prof]
        else
          && r == Success(true)
          && profiles == old(profiles)[user.id := prof.(wishList := RemoveFirst(prof.wishList, wssk))]
      ensures r.Failure? ==> profiles[user.id].wishList == old(ProfileFor(user)).wishList
      ensures r.Success? ==> wssk !in profiles[user.id].wishList
    {
      var prof := GetProfileFromUser(user);
      if wssk !in sessions {
        return Failure(Conflict(NoSuchSession));
      }
      if wssk !in prof.wishList {
        return Failure(Conflict(NotInWishList));
      }
      RemoveFirstKeepsNoDuplicates(prof.wishList, wssk);
      prof := prof.(wishList := RemoveFirst(prof.wishList, wssk));
      profiles := profiles[user.id := prof];
      r := Success(true);
    }

    /** Adding a session twice: the second call fails with Conflict and the
        list keeps the length the first call gave it. */
    method SecondAddRejected(user: User, wssk: string) returns (first: Result<bool>, second: Result<bool>)
      requires Valid()
      modifies this`profiles
      ensures Valid()
      ensures first == Success(true) ==> second == Failure(Conflict(AlreadyInWishList))
      ensures first == Success(true) ==>
        user.id in profiles && |profiles[user.id].wishList| == |old(ProfileFor(user)).wishList| + 1
    {
      first := AddSessionToWishList(user, wssk);
      second := AddSessionToWishList(user, wssk);
    }

    /** Adding a session and then removing it leaves the wishlist as it was
        and both calls succeed; only a profile created on the way stays. */
    method WishListRoundTrip(user: User, wssk: string) returns (added: Result<bool>, removed: Result<bool>)
      requires Valid()
      modifies this`profiles
      ensures Valid()
      ensures added.Success? ==> removed == Success(true)
      ensures added.Success? ==> profiles == old(profiles)[user.id := old(ProfileFor(user))]
      ensures wssk !in sessions ==>
        && added == Failure(Conflict(NoSuchSession)) && removed == Failure(Conflict(NoSuchSession))
        && profiles == old(profiles)[user.id := old(ProfileFor(user))]
    {
      ghost var profiles0 := profiles;
      ghost var prof := ProfileFor(user);
      added := AddSessionToWishList(user, wssk);
      if added.Success? {
        ghost var listed := prof.(wishList := prof.wishList + [wssk]);
        assert ProfileFor(user) == listed;
        removed := RemoveSessionFromWishList(user, wssk);
        RemoveFirstUndoesAppend(prof.wishList, wssk);
        assert listed.(wishList := RemoveFirst(listed.wishList, wssk)) == prof;
        assert profiles == profiles0[user.id := prof];
      } else {
        removed := RemoveSessionFromWishList(user, wssk);
      }
    }

    // ------------------------------------------------------------------
    // Profile.

    /** `_doProfile`: return the user's profile (created if missing); with a
        save request, first store the edited display name and shirt size. */
    method DoProfile(user: User, saveRequest: Option<ProfileMiniForm>) returns (prof: Profile)
      requires Valid()
      modifies this`profiles
      ensures Valid()
      ensures prof == if saveRequest.Some? then Saved(old(ProfileFor(user)), saveRequest.value)
                      else old(ProfileFor(user))
      ensures profiles == old(profiles)[user.id := prof]
    {
      prof := GetProfileFromUser(user);
      if saveRequest.Some? {
        prof := ApplyProfileEdits(prof, saveRequest.value);
        profiles := profiles[user.id := prof];
      }
    }
  }
}
