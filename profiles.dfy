/**
 * The profile controller: create-or-update, read and partial update of the
 * profile table, with its nested location and append-only photo gallery.
 */
module Profiles {
  import opened JsValues
  import opened Errors
  import opened HobbyNormalizer
  import opened Collaborators

  type UserId = string

  /** `new Date(text)`; parsing is not modelled, so a date is the text it was built from. */
  datatype Date = Date(text: Option<string>)

  /**
   * The location a profile owns. The numeric fields hold the text that
   * `parseFloat`/`parseInt` are applied to.
   */
  datatype Location = Location(
    longitude: Option<string>,
    latitude: Option<string>,
    city: Option<string>,
    state: Option<string>,
    country: Option<string>,
    range: Option<string>)

  /** A stored profile with its location (a seeded profile may have none) and its gallery. */
  datatype Profile = Profile(
    userId: UserId,
    gender: Option<string>,
    dateOfBirth: Option<Date>,
    bio: Option<string>,
    hobbies: seq<string>,
    location: Option<Location>,
    gallery: seq<Photo>)

  /** The profile table: one profile per user, under its own user id. */
  ghost predicate KeysMatch(db: map<UserId, Profile>) {
    forall id :: id in db ==> db[id].userId == id
  }

  /**
   * The location object both handlers build from the body, whatever fields it
   * holds: the numeric fields are parsed (an absent one parses to NaN, so it
   * is still written), the text fields are copied and may be undefined.
   */
  function LocationOf(body: Body): (l: Location)
    ensures l.longitude == body.longitude && l.latitude == body.latitude && l.range == body.range
    ensures l.city == body.city && l.state == body.state && l.country == body.country
  {
    Location(body.longitude, body.latitude, body.city, body.state, body.country, body.range)
  }

  /**
   * The nested `location: { update: location }` write on a stored location:
   * the parsed numeric fields are always written; a text field overwrites
   * the stored one when supplied and leaves it alone when undefined.
   */
  function WriteLocation(stored: Location, written: Location): (l: Location)
    ensures l.longitude == written.longitude && l.latitude == written.latitude && l.range == written.range
    ensures written.city.Some? ==> l.city == written.city
    ensures written.city.None? ==> l.city == stored.city
    ensures written.state.Some? ==> l.state == written.state
    ensures written.state.None? ==> l.state == stored.state
    ensures written.country.Some? ==> l.country == written.country
    ensures written.country.None? ==> l.country == stored.country
  {
    Location(
      written.longitude,
      written.latitude,
      OverwriteOptional(stored.city, written.city),
      OverwriteOptional(stored.state, written.state),
      OverwriteOptional(stored.country, written.country),
      written.range)
  }

  /** Writing the same location twice is writing it once. */
  lemma WriteLocationIdempotent(stored: Location, written: Location)
    ensures WriteLocation(WriteLocation(stored, written), written) == WriteLocation(stored, written)
  {
  }

  /** The `dateOfBirth: dob ? new Date(dob) : undefined` write: a date exactly when `dob` is non-empty. */
  function DobWrite(dob: Option<string>): (d: Option<Date>)
    ensures d.Some? <==> Truthy(dob)
    ensures d.Some? ==> d.value == Date(dob)
  {
    if Truthy(dob) then Some(Date(dob)) else None
  }

  /**
   * The data of an update write. `None` is an undefined value, which the
   * store leaves alone; the location is always written, field by field.
   */
  datatype Patch = Patch(
    gender: Option<string>,
    dateOfBirth: Option<Date>,
    hobbies: Option<seq<string>>,
    bio: Option<string>,
    newPhotos: seq<Photo>,
    location: Location)

  /**
   * What the store throws for a nested location update on a profile that has
   * no location: an Error with the library's own name and message and no
   * `statusCode`.
   */
  const PersistenceFailure := ErrorValue(None, Some("PrismaClientKnownRequestError"), Some("No 'Location' record was found for a nested update"))

  /** A scalar write: a supplied value replaces the stored one, an undefined one keeps it. */
  function Overwrite<T>(current: T, supplied: Option<T>): T {
    if supplied.Some? then supplied.value else current
  }

  /** The same write on a column that may hold no value. */
  function OverwriteOptional<T>(current: Option<T>, supplied: Option<T>): Option<T> {
    if supplied.Some? then supplied else current
  }

  /**
   * An update write on one stored profile: supplied fields overwrite, absent
   * ones stay, the new photos are appended after the existing ones and the
   * location is written field by field. The nested location update fails
   * when the profile has no location.
   */
  function ApplyPatch(p: Profile, patch: Patch): (r: Result<Profile, ErrorValue>)
    ensures r.Failure? <==> p.location.None?
    ensures r.Failure? ==> r.error == PersistenceFailure
    ensures r.Success? ==> r.value.userId == p.userId
    ensures r.Success? ==> r.value.location == Some(WriteLocation(p.location.value, patch.location))
    ensures r.Success? ==> r.value.gallery == p.gallery + patch.newPhotos
    ensures r.Success? && patch.gender.Some? ==> r.value.gender == patch.gender
    ensures r.Success? && patch.gender.None? ==> r.value.gender == p.gender
    ensures r.Success? && patch.dateOfBirth.Some? ==> r.value.dateOfBirth == patch.dateOfBirth
    ensures r.Success? && patch.dateOfBirth.None? ==> r.value.dateOfBirth == p.dateOfBirth
    ensures r.Success? && patch.hobbies.Some? ==> r.value.hobbies == patch.hobbies.value
    ensures r.Success? && patch.hobbies.None? ==> r.value.hobbies == p.hobbies
    ensures r.Success? && patch.bio.Some? ==> r.value.bio == patch.bio
    ensures r.Success? && patch.bio.None? ==> r.value.bio == p.bio
  {
    if p.location.None? then Failure(PersistenceFailure)
    else
      Success(Profile(
        p.userId,
        OverwriteOptional(p.gender, patch.gender),
        OverwriteOptional(p.dateOfBirth, patch.dateOfBirth),
        OverwriteOptional(p.bio, patch.bio),
        Overwrite(p.hobbies, patch.hobbies),
        Some(WriteLocation(p.location.value, patch.location)),
        p.gallery + patch.newPhotos))
  }

  /**
   * The update half of create's upsert: the body's fields as given, the date
   * only when `dob` is non-empty, hobbies trimmed and upper-cased token by token.
   */
  function CreatePatch(body: Body, photos: seq<Photo>): (patch: Patch)
    ensures patch.gender == body.gender && patch.bio == body.bio
    ensures patch.dateOfBirth == DobWrite(body.dob)
    ensures patch.newPhotos == photos && patch.location == LocationOf(body)
    ensures patch.hobbies.Some? <==> body.hobbies.Some?
    ensures patch.hobbies.Some? ==>
      && |patch.hobbies.value| == Count(body.hobbies.value, Comma) + 1
      && forall i :: 0 <= i < |patch.hobbies.value| ==>
           patch.hobbies.value[i] == Upper(Trim(Split(body.hobbies.value, Comma)[i]))
           && IsTrimmed(patch.hobbies.value[i])
  {
    Patch(
      body.gender,
      DobWrite(body.dob),
      if body.hobbies.Some? then Some(NormalizeOnCreate(body.hobbies.value)) else None,
      body.bio,
      photos,
      LocationOf(body))
  }

  /**
   * The data of the update handler: the body's fields as given, the date only
   * when `dob` is non-empty, hobbies stored as the raw comma-separated pieces.
   */
  function UpdatePatch(body: Body, photos: seq<Photo>): (patch: Patch)
    ensures patch.gender == body.gender && patch.bio == body.bio
    ensures patch.dateOfBirth == DobWrite(body.dob)
    ensures patch.newPhotos == photos && patch.location == LocationOf(body)
    ensures patch.hobbies.Some? <==> body.hobbies.Some?
    ensures patch.hobbies.Some? ==>
      && |patch.hobbies.value| == Count(body.hobbies.value, Comma) + 1
      && Join(patch.hobbies.value, Comma) == body.hobbies.value
      && forall i :: 0 <= i < |patch.hobbies.value| ==> Comma !in patch.hobbies.value[i]
  {
    Patch(
      body.gender,
      DobWrite(body.dob),
      if body.hobbies.Some? then Some(Split(body.hobbies.value, Comma)) else None,
      body.bio,
      photos,
      LocationOf(body))
  }

  /**
   * The create half of create's upsert: a full record under `userId` with
   * the body's fields, its location, normalised hobbies (none when absent)
   * and exactly the uploaded photos.
   */
  function NewProfile(userId: UserId, body: Body, photos: seq<Photo>): (p: Profile)
    ensures p.userId == userId && p.gallery == photos && p.location == Some(LocationOf(body))
    ensures p.gender == body.gender && p.bio == body.bio && p.dateOfBirth == Some(Date(body.dob))
    ensures body.hobbies.None? ==> p.hobbies == []
    ensures body.hobbies.Some? ==>
      && |p.hobbies| == Count(body.hobbies.value, Comma) + 1
      && forall i :: 0 <= i < |p.hobbies| ==>
           p.hobbies[i] == Upper(Trim(Split(body.hobbies.value, Comma)[i])) && IsTrimmed(p.hobbies[i])
  {
    Profile(
      userId,
      body.gender,
      Some(Date(body.dob)),
      body.bio,
      if body.hobbies.Some? then NormalizeOnCreate(body.hobbies.value) else [],
      Some(LocationOf(body)),
      photos)
  }

  /**
   * `prisma.profile.upsert` keyed on the user id. A new key gets one full
   * record; an existing key gets the update half. No other key changes.
   */
  function Upsert(db: map<UserId, Profile>, userId: UserId, body: Body, photos: seq<Photo>)
    : (r: Result<map<UserId, Profile>, ErrorValue>)
    ensures r.Failure? <==> userId in db && db[userId].location.None?
    ensures r.Failure? ==> r.error == PersistenceFailure
    ensures r.Success? ==> r.value.Keys == db.Keys + {userId}
    ensures r.Success? ==> forall id :: id in db && id != userId ==> r.value[id] == db[id]
    ensures r.Success? && KeysMatch(db) ==> KeysMatch(r.value)
    ensures userId !in db ==> r.Success? && r.value[userId] == NewProfile(userId, body, photos)
    ensures userId in db && r.Success? ==> ApplyPatch(db[userId], CreatePatch(body, photos)) == Success(r.value[userId])
  {
    if userId in db then
      match ApplyPatch(db[userId], CreatePatch(body, photos))
      case Failure(e) => Failure(e)
      case Success(p) => Success(db[userId := p])
    else
      assert (db[userId := NewProfile(userId, body, photos)]).Keys == db.Keys + {userId};
      Success(db[userId := NewProfile(userId, body, photos)])
  }

  /** Create on a new user adds one full record: exactly the photos, the request's location, normalised hobbies. */
  lemma UpsertNewRecord(db: map<UserId, Profile>, userId: UserId, body: Body, photos: seq<Photo>)
    requires userId !in db
    ensures var r := Upsert(db, userId, body, photos);
      && r.Success? && |r.value| == |db| + 1
      && var p := r.value[userId];
      && p.userId == userId && p.gallery == photos && p.location == Some(LocationOf(body))
      && p.gender == body.gender && p.dateOfBirth == Some(Date(body.dob)) && p.bio == body.bio
      && p.hobbies == (if body.hobbies.Some? then NormalizeOnCreate(body.hobbies.value) else [])
  {
  }

  /**
   * Create on an existing user takes the update half: photos appended,
   * coordinates and range written, city, state and country overwritten only
   * when supplied, hobbies normalised when supplied and kept otherwise.
   */
  lemma UpsertExistingRecord(db: map<UserId, Profile>, userId: UserId, body: Body, photos: seq<Photo>)
    requires userId in db && db[userId].location.Some?
    ensures var r := Upsert(db, userId, body, photos);
      && r.Success?
      && r.value[userId].userId == db[userId].userId
      && r.value[userId].gallery == db[userId].gallery + photos
      && r.value[userId].location == Some(WriteLocation(db[userId].location.value, LocationOf(body)))
      && r.value[userId].location.value.longitude == body.longitude
      && (body.city.None? ==> r.value[userId].location.value.city == db[userId].location.value.city)
      && r.value[userId].hobbies
         == (if body.hobbies.Some? then NormalizeOnCreate(body.hobbies.value) else db[userId].hobbies)
  {
  }

  /** The fields create requires, with the labels its error names them by. */
  const CreateRequirements: seq<(Field, string)> := [(GenderField, "Gender"), (DobField, "Date of Birth"), (BioField, "Bio")]

  /** Create's required-field check passes exactly when gender, dob and bio are non-empty, and names the first missing one. */
  lemma CreateRequirementsCheck(body: Body)
    ensures CheckRequiredFields(body, CreateRequirements).None?
        <==> Truthy(body.gender) && Truthy(body.dob) && Truthy(body.bio)
    ensures !Truthy(body.gender) ==> CheckRequiredFields(body, CreateRequirements) == Some(Raise(BadRequest, "Gender"))
    ensures Truthy(body.gender) && !Truthy(body.dob) ==>
      CheckRequiredFields(body, CreateRequirements) == Some(Raise(BadRequest, "Date of Birth"))
    ensures Truthy(body.gender) && Truthy(body.dob) && !Truthy(body.bio) ==>
      CheckRequiredFields(body, CreateRequirements) == Some(Raise(BadRequest, "Bio"))
  {
    var reqs := CreateRequirements;
    assert FieldValue(body, reqs[0].0) == body.gender;
    assert FieldValue(body, reqs[1].0) == body.dob;
    assert FieldValue(body, reqs[2].0) == body.bio;
    assert reqs[1..] == [(DobField, "Date of Birth"), (BioField, "Bio")];
    assert reqs[1..][1..] == [(BioField, "Bio")];
    assert reqs[1..][1..][1..] == [];
  }

  /**
   * Update's `req.files?.length > 0`; its negation is create's guard
   * `!req.files || req.files.length === 0`.
   */
  predicate HasFiles(files: Option<seq<File>>)
    ensures !HasFiles(files) <==> files.None? || |files.value| == 0
  {
    files.Some? && |files.value| > 0
  }

  /**
   * Update's guard `!gender && !dob && !hobbies && !bio && !req.files`. When
   * it holds there are no files to upload, and no field the patch would write
   * except the location.
   */
  predicate NothingSupplied(body: Body, files: Option<seq<File>>)
    ensures NothingSupplied(body, files) ==> !HasFiles(files) && DobWrite(body.dob).None?
  {
    !Truthy(body.gender) && !Truthy(body.dob) && !Truthy(body.hobbies) && !Truthy(body.bio) && files.None?
  }

  /** A present but empty file list counts as something supplied, though nothing is uploaded. */
  lemma EmptyFileListIsSupplied(body: Body)
    ensures !NothingSupplied(body, Some([])) && !HasFiles(Some([]))
  {
  }

  /**
   * Update's upload step: all photos of a non-empty file list, one per file in
   * order, or the first upload error; no photos and no upload otherwise.
   */
  function UpdateUpload(upload: Uploader, files: Option<seq<File>>): (r: Result<seq<Photo>, ErrorValue>)
    ensures !HasFiles(files) ==> r == Success([])
    ensures HasFiles(files) ==>
      && (r.Success? <==> forall i :: 0 <= i < |files.value| ==> upload(files.value[i]).Success?)
      && (r.Success? ==> (|r.value| == |files.value|
          && forall i :: 0 <= i < |files.value| ==> r.value[i] == upload(files.value[i]).value))
  {
    if HasFiles(files) then UploadAll(upload, files.value) else Success([])
  }

  const NoPhotosMessage := "No photos uploaded"
  const NothingSuppliedMessage := "At least one required field is missing"
  const NotFoundMessage := "Profile not found"

  /** The persistence layer's profile table. */
  class Store {
    var profiles: map<UserId, Profile>

    ghost predicate Valid()
      reads this
    {
      KeysMatch(profiles)
    }

    constructor (seed: map<UserId, Profile>)
      requires KeysMatch(seed)
      ensures Valid() && profiles == seed
    {
      profiles := seed;
    }

    /**
     * `createProfile`: required fields, then photo presence, then upload, then
     * the upsert. `uploaded` tells whether the upload service was called.
     */
    method CreateProfile(userId: UserId, body: Body, files: Option<seq<File>>, upload: Uploader)
      returns (r: Result<Profile, ErrorValue>, uploaded: bool)
      requires Valid()
      modifies this
      ensures Valid()
      ensures r.Failure? ==> profiles == old(profiles)
      ensures CheckRequiredFields(body, CreateRequirements).Some? ==>
        r == Failure(CheckRequiredFields(body, CreateRequirements).value) && !uploaded
      ensures CheckRequiredFields(body, CreateRequirements).None? && !HasFiles(files) ==>
        r == Failure(Raise(BadRequest, NoPhotosMessage)) && !uploaded
      ensures CheckRequiredFields(body, CreateRequirements).None? && HasFiles(files) ==>
        && uploaded
        && match UploadAll(upload, files.value)
           case Failure(e) => r == Failure(e)
           case Success(photos) =>
             match Upsert(old(profiles), userId, body, photos)
             case Failure(e) => r == Failure(e)
             case Success(db) => profiles == db && r == Success(db[userId])
    {
      var missing := CheckRequiredFields(body, CreateRequirements);
      if missing.Some? {
        return Failure(missing.value), false;
      }
      if !HasFiles(files) {
        return Failure(Raise(BadRequest, NoPhotosMessage)), false;
      }
      var photos := UploadAll(upload, files.value);
      if photos.Failure? {
        return Failure(photos.error), true;
      }
      var written := Upsert(profiles, userId, body, photos.value);
      if written.Failure? {
        return Failure(written.error), true;
      }
      profiles := written.value;
      r, uploaded := Success(profiles[userId]), true;
    }

    /** `getProfile`: the stored record, or a 400 BadRequest when there is none. */
    method GetProfile(userId: UserId) returns (r: Result<Profile, ErrorValue>)
      requires Valid()
      ensures userId in profiles <==> r.Success?
      ensures r.Success? ==> r.value == profiles[userId] && r.value.userId == userId
      ensures r.Failure? ==> r.error == Raise(BadRequest, NotFoundMessage)
    {
      if userId !in profiles {
        return Failure(Raise(BadRequest, NotFoundMessage));
      }
      r := Success(profiles[userId]);
    }

    /**
     * `updateProfile`: the nothing-supplied guard, then the upload, then the
     * existence check, then the write. `uploaded` tells whether the upload
     * service was called; it may have been even when the profile is missing.
     */
    method UpdateProfile(userId: UserId, body: Body, files: Option<seq<File>>, upload: Uploader)
      returns (r: Result<Profile, ErrorValue>, uploaded: bool)
      requires Valid()
      modifies this
      ensures Valid()
      ensures r.Failure? ==> profiles == old(profiles)
      ensures NothingSupplied(body, files) ==> r == Failure(Raise(BadRequest, NothingSuppliedMessage)) && !uploaded
      ensures !NothingSupplied(body, files) ==>
        && uploaded == HasFiles(files)
        && match UpdateUpload(upload, files)
           case Failure(e) => r == Failure(e)
           case Success(photos) =>
             if userId !in old(profiles) then r == Failure(Raise(BadRequest, NotFoundMessage))
             else match ApplyPatch(old(profiles)[userId], UpdatePatch(body, photos))
               case Failure(e) => r == Failure(e)
               case Success(p) => profiles == old(profiles)[userId := p] && r == Success(p)
    {
      if NothingSupplied(body, files) {
        return Failure(Raise(BadRequest, NothingSuppliedMessage)), false;
      }
      var photos: seq<Photo> := [];
      uploaded := false;
      if HasFiles(files) {
        var result := UploadAll(upload, files.value);
        uploaded := true;
        if result.Failure? {
          return Failure(result.error), true;
        }
        photos := result.value;
      }
      if userId !in profiles {
        return Failure(Raise(BadRequest, NotFoundMessage)), uploaded;
      }
      var updated := ApplyPatch(profiles[userId], UpdatePatch(body, photos));
      if updated.Failure? {
        return Failure(updated.error), uploaded;
      }
      profiles := profiles[userId := updated.value];
      r := Success(updated.value);
    }
  }

  /** A create on a new user stores exactly the uploaded photos, one per file, in file order. */
  lemma CreateGalleryMatchesFiles(
    db: map<UserId, Profile>, userId: UserId, body: Body, upload: Uploader, files: seq<File>)
    requires userId !in db
    requires UploadAll(upload, files).Success?
    ensures var stored := Upsert(db, userId, body, UploadAll(upload, files).value).value[userId];
      && |stored.gallery| == |files|
      && forall i :: 0 <= i < |files| ==> stored.gallery[i] == upload(files[i]).value
  {
    UpsertNewRecord(db, userId, body, UploadAll(upload, files).value);
  }

  /** Update's gallery only grows, and only when files were uploaded. */
  lemma UpdateGalleryGrowth(p: Profile, body: Body, upload: Uploader, files: Option<seq<File>>)
    requires p.location.Some?
    requires UpdateUpload(upload, files).Success?
    ensures var q := ApplyPatch(p, UpdatePatch(body, UpdateUpload(upload, files).value)).value;
      && |q.gallery| == |p.gallery| + (if HasFiles(files) then |files.value| else 0)
      && q.gallery[..|p.gallery|] == p.gallery
  {
  }

  /** Update writes the raw comma pieces of hobbies: nothing is trimmed or upper-cased. */
  lemma UpdateHobbiesAreRaw(p: Profile, body: Body, photos: seq<Photo>)
    requires p.location.Some? && body.hobbies.Some?
    ensures var q := ApplyPatch(p, UpdatePatch(body, photos)).value;
      && Join(q.hobbies, Comma) == body.hobbies.value
      && |q.hobbies| == Count(body.hobbies.value, Comma) + 1
  {
  }

  /** Update writes a date of birth only when the submitted one is non-empty. */
  lemma UpdateDobOnlyWhenTruthy(p: Profile, body: Body, photos: seq<Photo>)
    requires p.location.Some?
    ensures var q := ApplyPatch(p, UpdatePatch(body, photos)).value;
      q.dateOfBirth == if Truthy(body.dob) then Some(Date(body.dob)) else p.dateOfBirth
  {
  }

  /**
   * An update that supplies only a new bio and an empty file list changes the
   * bio and overwrites the coordinates and range with the parse of an absent
   * value; city, state, country and everything else stay as stored.
   */
  lemma BioOnlyUpdate(p: Profile, bio: string, upload: Uploader)
    requires p.location.Some?
    ensures var body := Body(None, None, None, Some(bio), None, None, None, None, None, None);
      && !NothingSupplied(body, Some([]))
      && UpdateUpload(upload, Some([])) == Success([])
      && ApplyPatch(p, UpdatePatch(body, []))
         == Success(p.(bio := Some(bio), location := Some(p.location.value.(longitude := None, latitude := None, range := None))))
  {
    assert p.gallery + [] == p.gallery;
  }

  /**
   * A store failure carries no status, so it is reported as 500, but with the
   * library error's own name and message rather than the handler's defaults.
   */
  lemma PersistenceFailureEnvelope(path: string, timestamp: string)
    ensures var env := ErrorEnvelope(PersistenceFailure, path, timestamp);
      && env.status == DefaultStatus
      && env.error == PersistenceFailure.name.value && env.error != DefaultError
      && env.message == PersistenceFailure.message.value && env.message != DefaultMessage
  {
  }

  /** A missing profile is reported as a 400 envelope named BadRequest, not as a 404. */
  lemma NotFoundEnvelope(path: string, timestamp: string)
    ensures ErrorEnvelope(Raise(BadRequest, NotFoundMessage), path, timestamp)
      == Envelope(timestamp, 400, "BadRequest Error", "Profile not found", path, false)
  {
  }
}
