# Profile store and error handler, modelled in Dafny

This project models the core of a small Express/Prisma profile service:

- **The profile controller** (`createProfile`, `getProfile`, `updateProfile`). The Prisma profile table is a class `Profiles.Store` whose field `profiles: map<UserId, Profile>` the handlers update in place. A `Profile` carries its user id, the optional gender, date of birth and bio, the hobby list, an optional nested `Location` and an append-only gallery of `Photo`s.
  - `CreateProfile` checks the required fields, then that photos are present, then uploads them, then upserts.
  - `UpdateProfile` checks that something was supplied, then uploads any files, then checks that the profile exists, then writes.
  - `GetProfile` is a read-only lookup.
  - Each method returns `Result<Profile, ErrorValue>` (the thrown error on failure) and, for create and update, whether the image service was called.
- **The hobby tokeniser**: `split(",")` (`HobbyNormalizer.Split`, with its inverse `Join`), and on create also `trim()` and `toUpperCase()` per token.
- **The collaborators the controller calls but whose code is not part of this model**:
  - `checkRequiredFields` becomes a recursive check: the first absent or empty field raises a BadRequest.
  - `uploadToCloudinary` becomes `UploadAll`, built from a per-file uploader passed in as a function value. It is all-or-nothing and gives one photo per file, in file order.
- **The error taxonomy and terminal handler**: `CustomError`, `createCustomError` and the eight kinds (a `Kind` datatype with `Name` and `Status`), the error envelope with its `||` defaults, and `errorHandler`. The handler appears twice: as a pure decision (`HandleError`: forward or write) and as a method on a `Response` object that records the responses written.

Behaviour of the code kept as written:

- A missing profile is reported as BadRequest (400) "Profile not found" by both read and update, not as NotFound.
- Create on an existing user takes the update half of the upsert. It appends the photos, writes the location as update does, and overwrites the supplied fields. It does not raise Conflict.
- Update stores hobbies as the raw comma-separated pieces, with no trim and no upper-casing (`src/controllers/profile.controller.js:198`).
- Update's "nothing supplied" guard looks only at whether `req.files` is defined. A present but empty file list passes the guard, and then nothing is uploaded.
- Update uploads photos before it checks that the profile exists. `UpdateProfile` reports `uploaded` even when it then fails with "Profile not found".
- Update always writes the location, even when no location field was sent, and it writes it field by field. Longitude, latitude and range are always written, because `parseFloat`/`parseInt` of an absent value gives NaN, not undefined. City, state and country are undefined when absent, so the store keeps their stored values. An update that sends no location fields therefore leaves a location with NaN coordinates and the old city, state and country. This is a partially written location, not a full replacement (`src/controllers/profile.controller.js:164-171, 206`).

A JavaScript `undefined` is `None`. A string is falsy when it is `None` or `""`, and a number when it is `None` or `0`.

## Model

| member | source | states |
|---|---|---|
| `Errors.NewCustomError` | src/middlewares/errorhandler.middleware.js:1-10 | name and message are kept; the status is the given one when truthy, 500 otherwise, so never falsy |
| `Errors.CreateCustomError` | src/middlewares/errorhandler.middleware.js:12-18 | the class keeps its name; an omitted status binds the default 500 |
| `Errors.Instantiate` | src/middlewares/errorhandler.middleware.js:13-17 | an instance of a factory class has the class name, the message, and the bound status (500 if that is zero) |
| `Errors.FactoryDefaultStatus` | src/middlewares/errorhandler.middleware.js:4-18 | a factory-made error has status 500 exactly when the class was built with no status, 0 or 500 |
| `Errors.Name` | src/middlewares/errorhandler.middleware.js:20-30 | every kind has a non-empty name |
| `Errors.Status` | src/middlewares/errorhandler.middleware.js:20-30 | every kind's status is an HTTP error status between 400 and 500 |
| `Errors.KindsDistinct` | src/middlewares/errorhandler.middleware.js:20-30 | no two kinds share a status or a name |
| `Errors.ClassOf` | src/middlewares/errorhandler.middleware.js:20-30 | each kind's class has the kind's name and its status, never falsy |
| `Errors.Raise` | src/middlewares/errorhandler.middleware.js:20-30 | throwing a kind yields exactly its fixed status and name and the given message |
| `Errors.ErrorEnvelope` | src/middlewares/errorhandler.middleware.js:39-46 | status, error and message are copied when truthy and otherwise default to 500, "Internal Server Error" and "Something went wrong"; path is the request path; success is false |
| `Errors.KindEnvelope` | src/middlewares/errorhandler.middleware.js:39-46 | round trip: the envelope of kind K with message M has Status(K), Name(K) and M (the default message when M is empty) |
| `Errors.HandleError` | src/middlewares/errorhandler.middleware.js:32-49 | forwards the identical error exactly when headers were sent; otherwise writes the envelope with HTTP status equal to its `status` |
| `Errors.Response.Send` | src/middlewares/errorhandler.middleware.js:48 | appends one response and marks headers as sent |
| `Errors.Response.ErrorHandler` | src/middlewares/errorhandler.middleware.js:32-49 | headers already sent: writes nothing and passes the error to `next`; otherwise writes exactly one response, whose status is the envelope's |
| `HobbyNormalizer.Split` | src/controllers/profile.controller.js:198 | one piece more than there are commas; no piece holds a comma; joining the pieces gives back the input |
| `HobbyNormalizer.SplitJoin` | src/controllers/profile.controller.js:198 | the other round trip: splitting joined comma-free pieces gives them back |
| `HobbyNormalizer.LeadingWhitespace` | src/controllers/profile.controller.js:49 | counts a whitespace-only prefix and stops at the first non-whitespace character |
| `HobbyNormalizer.TrailingWhitespace` | src/controllers/profile.controller.js:49 | counts a whitespace-only suffix and stops at the last non-whitespace character |
| `HobbyNormalizer.TrimStart` | src/controllers/profile.controller.js:49 | the result does not start with whitespace |
| `HobbyNormalizer.TrimEnd` | src/controllers/profile.controller.js:49 | the result does not end with whitespace |
| `HobbyNormalizer.Trim` | src/controllers/profile.controller.js:49 | the result has no whitespace at either end and is no longer than the input |
| `HobbyNormalizer.TrimMargins` | src/controllers/profile.controller.js:49 | the result is the slice of the input that starts after the leading whitespace, and every character outside that slice is whitespace |
| `HobbyNormalizer.TrimIdempotent` | src/controllers/profile.controller.js:49 | trimming twice is trimming once |
| `HobbyNormalizer.UpperChar` | src/controllers/profile.controller.js:49 | a lower-case letter maps to its upper-case letter; any other character is unchanged |
| `HobbyNormalizer.Upper` | src/controllers/profile.controller.js:49 | same length, no lower-case letter left, letters shifted to upper case, every other character kept |
| `HobbyNormalizer.NormalizeOnCreate` | src/controllers/profile.controller.js:63 | one token per comma-separated piece, in order (count = commas + 1), each the upper-cased trim of its piece, trimmed, comma-free and without lower-case letters |
| `HobbyNormalizer.SplitExample` | src/controllers/profile.controller.js:198 | `"sports, Music "` splits into `["sports", " Music "]` on update |
| `HobbyNormalizer.NormalizeExample` | src/controllers/profile.controller.js:49 | `"sports, Music "` becomes `["SPORTS", "MUSIC"]` on create |
| `Collaborators.CheckRequiredFields` | src/controllers/profile.controller.js:23-27 | passes exactly when every required field is present and non-empty; otherwise raises BadRequest labelled with the first missing field |
| `Collaborators.UploadAll` | src/controllers/profile.controller.js:42 | succeeds exactly when every file uploads, giving one photo per file in order; otherwise throws the error of the first failing file |
| `Profiles.CreateRequirementsCheck` | src/controllers/profile.controller.js:23-27 | create's check passes exactly when gender, dob and bio are all non-empty, and names Gender, Date of Birth, Bio in that order |
| `Profiles.LocationOf` | src/controllers/profile.controller.js:164-171 | the location object carries the body's six fields, the numeric ones as the raw text that is parsed |
| `Profiles.WriteLocation` | src/controllers/profile.controller.js:206 | the nested location update always writes longitude, latitude and range; city, state and country are overwritten when supplied and kept when undefined |
| `Profiles.WriteLocationIdempotent` | src/controllers/profile.controller.js:206 | writing the same location twice is writing it once |
| `Profiles.DobWrite` | src/controllers/profile.controller.js:197 | a date is written exactly when `dob` is non-empty, and it is the date of `dob` |
| `Profiles.CreatePatch` | src/controllers/profile.controller.js:46-58 | create's update half carries gender, bio, the photos and the body's location as given, the date only for a non-empty dob, and hobbies (exactly when supplied) as one trimmed, upper-cased token per comma piece |
| `Profiles.UpdatePatch` | src/controllers/profile.controller.js:195-208 | update carries gender, bio, the photos and the body's location as given, the date only for a non-empty dob, and hobbies (exactly when supplied) as raw comma-free pieces that join back to the submitted text |
| `Profiles.NewProfile` | src/controllers/profile.controller.js:60-73 | a new record under the user id with the body's gender, bio and date, its location, exactly the photos, and hobbies normalised token by token (empty when absent) |
| `Profiles.ApplyPatch` | src/controllers/profile.controller.js:182-208 | supplied fields overwrite and absent ones stay; new photos are appended after the old gallery; the location is written by `WriteLocation`; user id unchanged; fails with a store error on a profile without a location |
| `Profiles.Upsert` | src/controllers/profile.controller.js:44-73 | fails with a store error exactly when the existing record has no location; otherwise the keys gain the user id, no other key changes, keys still match user ids; a new key gets the create record, an existing one the update half of the write |
| `Profiles.UpsertNewRecord` | src/controllers/profile.controller.js:60-71 | a new key adds one record whose gallery is exactly the photos, whose location is the request's, whose dob is the request's date and whose hobbies are normalised |
| `Profiles.UpsertExistingRecord` | src/controllers/profile.controller.js:46-58 | an existing key with a location keeps its user id, gets the photos appended after the old gallery, the coordinates written and an omitted city kept, and hobbies normalised when supplied and kept otherwise |
| `Profiles.HasFiles` | src/controllers/profile.controller.js:38 | update's "files present and non-empty" test is exactly the negation of create's `!req.files \|\| req.files.length === 0` guard |
| `Profiles.NothingSupplied` | src/controllers/profile.controller.js:156 | when update's guard fires there is nothing to upload and no date to write |
| `Profiles.UpdateUpload` | src/controllers/profile.controller.js:160-162 | no files: no photos and no upload; otherwise succeeds exactly when every file uploads, one photo per file in order |
| `Profiles.EmptyFileListIsSupplied` | src/controllers/profile.controller.js:156-162 | an empty but present file list passes update's guard and uploads nothing |
| `Profiles.Store.CreateProfile` | src/controllers/profile.controller.js:7-103 | required fields first (no upload, no change), then "No photos uploaded" for absent or empty files (no upload, no change), then upload (failure: no change), then the upsert; every failure leaves the table unchanged |
| `Profiles.Store.GetProfile` | src/controllers/profile.controller.js:105-137 | returns the stored record for the key, or BadRequest "Profile not found" when the key is absent; the table is not changed |
| `Profiles.Store.UpdateProfile` | src/controllers/profile.controller.js:139-220 | fails with "At least one required field is missing" exactly when gender, dob, hobbies and bio are falsy and files are undefined; uploads exactly when files are non-empty, before the existence check; a missing key fails with "Profile not found" and leaves the table unchanged; otherwise writes the patch |
| `Profiles.CreateGalleryMatchesFiles` | src/controllers/profile.controller.js:60-73 | creating a new profile stores one gallery entry per uploaded file, in order |
| `Profiles.UpdateGalleryGrowth` | src/controllers/profile.controller.js:160-204 | update keeps the old gallery as a prefix and grows it by the number of files, or not at all without files |
| `Profiles.UpdateHobbiesAreRaw` | src/controllers/profile.controller.js:198 | update stores raw pieces whose join is exactly the submitted hobbies text |
| `Profiles.UpdateDobOnlyWhenTruthy` | src/controllers/profile.controller.js:197 | update writes the date of birth only when the submitted dob is non-empty |
| `Profiles.BioOnlyUpdate` | src/controllers/profile.controller.js:182-208 | an update with only a bio and an empty file list changes the bio, sets the coordinates and range to the parse of an absent value, and keeps city, state, country and everything else |
| `Profiles.PersistenceFailureEnvelope` | src/middlewares/errorhandler.middleware.js:39-46 | a store failure has no status, so it is written as 500, but with the library error's own name and message, not the defaults |
| `Profiles.NotFoundEnvelope` | src/controllers/profile.controller.js:124-126 | a missing profile reaches the client as {400, "BadRequest Error", "Profile not found", success false} |

## Left out

- Prisma's query engine: the `include`/`select` joins, the User projection (`firstName`, `lastName`, `isArchived`, `isVerified`) and the reshuffling of the created profile's keys. A returned profile is the stored record.
- Foreign-key and enum validation by the database: a user id with no User row, or a gender outside the database enum, is stored as given.
- Library failures other than one: a nested location update on a profile that has no location (such as a seeded one) fails with `PersistenceFailure`. Like any error the library throws, it has a name and a message but no `statusCode`, so the handler writes status 500 with that name and message. Its exact message text is not modelled.
- `parseFloat`, `parseInt` and `new Date`: the location keeps the raw text of its numeric fields (undefined text stands for the NaN its parse gives), and a date is the text it was built from. NaN is not modelled, so a number is falsy only when undefined or 0.
- CheckRequiredFields: the exact message text of the helper is not known here; the model's message is the field label alone.
- UploadAll: the image service's retries and the photos it stores for a request that later fails are not modelled; only whether it was called is reported.
- Upper: only the ASCII letters a–z are upper-cased. Unicode case mapping is not modelled, including mappings that change the length, such as ß to SS. Strings are sequences of Unicode scalar values, not UTF-16 code units.
- `ResponseHandler.success` and the success envelope (status 201 or 200, message, timestamp) are not part of this model.
- Timestamps are a parameter of the handler. The `console.error` logging and the stack capture are left out.
- async/await and concurrent requests: each handler is one atomic step, so the check-then-write race in update is not represented.
- Express routing, and what `next(err)` does after forwarding.
- The seeding script `src/controllers/hello.controller.js`: it only inserts test data and logs.
