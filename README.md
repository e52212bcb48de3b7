# TransCarrency core, modelled in Dafny

TransCarrency keeps a record of a driver's vehicles and their service history.
Its core is made of these parts:

- the GraphQL resolvers of the application server (users, vehicles, service records, login);
- the resolvers of the smaller profile server (profiles with skills);
- the JWT request authentication;
- the Google Calendar controller that links an account and lists its events;
- two client pages: the maintenance scheduler and the sign-up form;
- a Python user record with validating setters.

This project models each of these parts in Dafny and proves properties of the model.

Modules, one for each source file, plus three shared ones:

- `Common` holds `Option`, `Result` and the errors the code throws (`Failure`).
- `Text` holds the string operations the code relies on, with their properties:
  - `split` and `join`;
  - `trim`;
  - `parseInt`, the decimal `Number`, and the printing of integers.
- `MongoOps` holds MongoDB's `$pull` and `$addToSet` array updates.
- `Models` holds the documents:
  - User, Vehicle and ServiceRecord;
  - a stored password, which is either a bcrypt digest or text stored raw;
  - the required-field validation Mongoose performs.
- `Resolvers` models `app/dist/app/src/schemas/resolvers.js`.
  - The database is a `Db` value of three maps.
  - Each mutation is a step function `XStep(db, …)` returning the new database and the resolver's answer.
  - The class `Store`, whose methods update its three map fields in place, is proved equal to the step functions.
- `VehicleParts` models the `vehicleParts` query in both resolver files.
- `ProfileResolvers` models `server/src/schemas/resolvers.ts`, as step functions plus the class `ProfileStore`.
- `Auth` models `app/dist/utils/auth.js`.
  - The signing and verification of tokens are a parameter `Jwt`.
  - `Sound(jwt)` states what the authentication relies on from it: a token it signed verifies until it expires.
- `Calendar` models `app/src/controllers/googleCalendarController.ts`.
  - The OAuth exchange and the Calendar API are function parameters.
  - The handlers update the users of a `Resolvers.Store`.
- `Maintenance` models the logic of `client/src/pages/MaintenancePage.tsx`:
  - the list of reminder overrides and its edits;
  - the summary built from the chosen vehicle;
  - the checks of the calendar form before it is sent.
- `Signup` models `client/src/pages/Signup.tsx`:
  - the four password checks;
  - the input sent to `addProfile`.
- `UserSetUp` models `Server/src/UserSetUp.py`.
  - It covers the setters, the constructor as written, and the constructor that runs the setters.
  - The class `UserData` holds the four attributes.

Conventions:

- JavaScript's absent or false values (`undefined`, `null`, `''`, `0`) are modelled as `""` for strings and `0` for numbers.
- A fresh MongoDB ObjectId is a parameter `newId` that is not yet a key of the collection.
- Ids are well-formed ObjectIds. A malformed id, on which Mongoose's cast to ObjectId throws a `CastError`, is treated as an absent one (see "## Left out").
- The current time, bcrypt, jsonwebtoken, googleapis, `uuid` and the parts service are parameters or fixed functions. They are listed below.

Where the code and its specification disagree, the model follows the code. Four cases:

1. `registerVehicle`, `addVehicle` and `transferOwnership` never add the vehicle to the owner's `vehicles` list.
   - Only the vehicle's `owner` is set.
2. `deleteVehicle` leaves the vehicle's service records in place.
   - It pulls the vehicle from its owner's list.
3. `deleteUser` does not clear the owner of the user's vehicles (see Findings).
4. `updateUser` writes a new password unhashed (see Findings).

## Model

| member | source | states |
|---|---|---|
| MongoOps.Pull | app/dist/app/src/schemas/resolvers.js:106 | `$pull` removes every copy of the value and keeps every other element with its multiplicity; an absent value leaves the array as it was |
| MongoOps.PullConcat | app/dist/app/src/schemas/resolvers.js:125 | pulling from a concatenation is pulling from each part |
| MongoOps.AddToSet | server/src/schemas/resolvers.ts:125 | `$addToSet` keeps the array as a prefix and appends the value exactly when it is absent, so the value is present afterwards |
| MongoOps.AddToSetIdempotent | server/src/schemas/resolvers.ts:125 | adding the same value twice is adding it once |
| Resolvers.Populate | app/dist/app/src/schemas/resolvers.js:120 | populating `serviceHistory` replaces each id by its stored record: every entry is the stored record of its id, no stored id is dropped, and when every id is stored the result is the ids' records in the same order |
| Resolvers.PopulateAppend | app/dist/app/src/schemas/resolvers.js:119-120 | populating an appended id appends its record if it exists |
| Resolvers.FindUser | app/dist/app/src/schemas/resolvers.js:13 | `user(userId)` finds a user exactly when the id is stored, and returns the stored document |
| Resolvers.FindVehicle | app/dist/app/src/schemas/resolvers.js:23 | `getVehicleById` finds a vehicle exactly when the id is stored, and returns the stored document |
| Resolvers.Me | app/dist/app/src/schemas/resolvers.js:15-20 | without a logged-in user, `me` throws 'Not logged in'; otherwise it returns that user's document, or none |
| Resolvers.VehiclesOwnedBy | app/dist/app/src/schemas/resolvers.js:25 | `getVehiclesByUser` returns exactly the vehicles whose owner is the given user |
| Resolvers.VehiclesOwned | app/dist/app/src/schemas/resolvers.js:27-31 | `getVehiclesOwned` throws 'Not logged in' exactly when no user is logged in; otherwise it returns the vehicles that user owns |
| Resolvers.UserWithEmail | app/dist/app/src/schemas/resolvers.js:57 | `findOne({email})` finds a user exactly when one has the email; under the unique index it is the only one |
| Resolvers.Login | app/dist/app/src/schemas/resolvers.js:56-67 | `login` succeeds exactly when a user has the email and the password matches its stored hash; it then returns a token signed for that user; every failure is 'Invalid credentials' |
| Resolvers.RegisterUserStep | app/dist/app/src/schemas/resolvers.js:43-54 | an existing email gives 'User already exists' and no change; a missing required field fails validation; otherwise exactly one user is added under the fresh id, with the given names and email, the password hashed, no vehicles and no Google link; the answer carries that stored user and the token signed over its names, email and id; the unique-email index still holds |
| Resolvers.UpdateUserStep | app/dist/app/src/schemas/resolvers.js:69 | `updateUser` as written: an unknown id yields null; an email another user has gives a duplicate-key error and no change; otherwise only that user changes: each given name and email takes its new value, each omitted one, the vehicle list and the Google link are kept, and a new password is stored raw; vehicles and records are unchanged |
| Resolvers.UpdatedPasswordRejected | app/dist/app/src/schemas/resolvers.js:69 | after `updateUser` sets a password, `login` with that password fails for that user |
| Resolvers.UpdateUserHashingStep | app/dist/app/src/schemas/resolvers.js:69 | `updateUser` as intended: the same cases and the same field values, with the new password hashed as the save hook does |
| Resolvers.UpdatedPasswordAccepted | app/dist/app/src/schemas/resolvers.js:56-69 | after the corrected update sets a password, `login` with it succeeds for that user |
| Resolvers.DeleteUserStep | app/dist/app/src/schemas/resolvers.js:71-84 | `deleteUser` as written: it removes the user, returns the deleted document, and leaves every vehicle and record unchanged |
| Resolvers.DeleteUserLeavesOwnerDangling | app/dist/app/src/schemas/resolvers.js:71-84 | a vehicle the deleted user owned still names that user as its owner |
| Resolvers.Detach | app/dist/app/src/schemas/resolvers.js:75-81 | clearing the owner of the listed vehicles keeps every key, clears the listed ones and leaves the rest untouched |
| Resolvers.DetachOneMore | app/dist/app/src/schemas/resolvers.js:75-81 | detaching one more id is one more single-vehicle update |
| Resolvers.DetachAll | app/dist/app/src/schemas/resolvers.js:75-81 | the corrected loop over the user's vehicle ids, saving each existing vehicle without an owner, ends with exactly the map Detach describes |
| Resolvers.DeleteUserDetachingStep | app/dist/app/src/schemas/resolvers.js:71-84 | `deleteUser` as intended: it removes the user, every listed vehicle loses its owner, every other vehicle is unchanged, and the deleted document is returned |
| Resolvers.DetachingLeavesNoDanglingOwner | app/dist/app/src/schemas/resolvers.js:71-84 | if the user's list names every vehicle the user owns, no vehicle names the deleted user afterwards |
| Resolvers.CreateVehicleStep | app/dist/app/src/schemas/resolvers.js:87-97 | `Vehicle.create` succeeds exactly when the required fields are present and the VIN is new; a taken VIN is a duplicate-key error; on success exactly the new vehicle is added and returned: the input's VIN, make, model, year and colour, the mileage given or else the schema default 0, the given owner and an empty history; the unique-VIN index still holds |
| Resolvers.RegisterVehicleStep | app/dist/app/src/schemas/resolvers.js:87-92 | without a logged-in user, `registerVehicle` throws 'Not logged in' and changes nothing; otherwise it creates the vehicle owned by that user; users are never changed |
| Resolvers.RegisteredVehicleIsOwned | app/dist/app/src/schemas/resolvers.js:87-92 | a registered vehicle appears among the vehicles the logged-in user owns |
| Resolvers.AddVehicleStep | app/dist/app/src/schemas/resolvers.js:94-97 | `addVehicle` creates the vehicle owned by the given id and never changes users |
| Resolvers.UpdateVehicleStep | app/dist/app/src/schemas/resolvers.js:99 | an unknown id yields null; a VIN another vehicle has gives a duplicate-key error and no change; otherwise only that vehicle changes: each given field (VIN, make, model, year, mileage, colour) takes its new value, each omitted one, the owner and the service history are kept |
| Resolvers.UpdateVehicleIdempotent | app/dist/app/src/schemas/resolvers.js:99 | sending the same vehicle update twice has the effect and the answer of sending it once |
| Resolvers.DeleteVehicleStep | app/dist/app/src/schemas/resolvers.js:101-113 | `deleteVehicle` removes the vehicle and pulls it from its owner's list, if the owner exists; it leaves every other user and every record unchanged, and returns the deleted document |
| Resolvers.DeleteVehicleOrphansRecords | app/dist/app/src/schemas/resolvers.js:101-113 | the service records of a deleted vehicle remain, and still name it |
| Resolvers.TransferOwnershipStep | app/dist/app/src/schemas/resolvers.js:115 | `transferOwnership` sets only the vehicle's owner, changes no user list, and yields null for an unknown vehicle |
| Resolvers.TransferMovesOwnedVehicle | app/dist/app/src/schemas/resolvers.js:115 | after a transfer, the vehicle is owned by the new owner and by nobody else |
| Resolvers.AddServiceRecordStep | app/dist/app/src/schemas/resolvers.js:117-121 | a record without a type fails validation and changes nothing; otherwise the record is stored and its id is pushed onto the vehicle's history; the answer is the populated vehicle |
| Resolvers.AddedRecordEndsHistory | app/dist/app/src/schemas/resolvers.js:117-121 | after adding a record, the populated history of an existing vehicle ends with that record |
| Resolvers.RemoveServiceRecordStep | app/dist/app/src/schemas/resolvers.js:123-127 | `removeServiceRecord` deletes the record and pulls its id from that vehicle's history; other vehicles and users are unchanged |
| Resolvers.RemoveServiceRecordIdempotent | app/dist/app/src/schemas/resolvers.js:123-127 | removing the same record twice is removing it once |
| Resolvers.RemovedRecordLeavesHistory | app/dist/app/src/schemas/resolvers.js:123-127 | afterwards, the id is neither in the records nor in that vehicle's history |
| Resolvers.UploadInvoiceStep | app/dist/app/src/schemas/resolvers.js:129 | `uploadInvoice` sets only the record's invoice URL, and yields null for an unknown record |
| Resolvers.Store.constructor | app/dist/app/src/schemas/resolvers.js:1 | a new store is empty and valid |
| Resolvers.Store.RegisterUser | app/dist/app/src/schemas/resolvers.js:43-54 | updates the fields in place as RegisterUserStep says and keeps the unique indexes |
| Resolvers.Store.UpdateUser | app/dist/app/src/schemas/resolvers.js:69 | updates in place as UpdateUserStep says |
| Resolvers.Store.DeleteUser | app/dist/app/src/schemas/resolvers.js:71-84 | runs the loop over the user's vehicles as written, whose copies are never saved, and ends in DeleteUserStep's state |
| Resolvers.Store.DeleteUserDetaching | app/dist/app/src/schemas/resolvers.js:71-84 | runs the corrected loop (DetachAll) over the user's vehicles, then deletes the user, and ends in DeleteUserDetachingStep's state |
| Resolvers.Store.RegisterVehicle | app/dist/app/src/schemas/resolvers.js:87-92 | updates in place as RegisterVehicleStep says |
| Resolvers.Store.AddVehicle | app/dist/app/src/schemas/resolvers.js:94-97 | updates in place as AddVehicleStep says |
| Resolvers.Store.CreateVehicle | app/dist/app/src/schemas/resolvers.js:87-97 | updates in place as CreateVehicleStep says |
| Resolvers.Store.UpdateVehicle | app/dist/app/src/schemas/resolvers.js:99 | updates in place as UpdateVehicleStep says |
| Resolvers.Store.DeleteVehicle | app/dist/app/src/schemas/resolvers.js:101-113 | updates in place as DeleteVehicleStep says |
| Resolvers.Store.TransferOwnership | app/dist/app/src/schemas/resolvers.js:115 | updates in place as TransferOwnershipStep says |
| Resolvers.Store.AddServiceRecord | app/dist/app/src/schemas/resolvers.js:117-121 | updates in place as AddServiceRecordStep says |
| Resolvers.Store.RemoveServiceRecord | app/dist/app/src/schemas/resolvers.js:123-127 | updates in place as RemoveServiceRecordStep says |
| Resolvers.Store.UploadInvoice | app/dist/app/src/schemas/resolvers.js:129 | updates in place as UploadInvoiceStep says |
| VehicleParts.AppVehicleParts | app/dist/app/src/schemas/resolvers.js:33-38 | the app refuses an unidentified request with 'Provide a VIN or full vehicle info.' and otherwise passes on the parts service's answer or error unchanged |
| VehicleParts.AppGuardCallsNothing | app/dist/app/src/schemas/resolvers.js:34-36 | a refused request has the same outcome whatever the parts service would do |
| VehicleParts.ServerVehicleParts | server/src/schemas/resolvers.ts:69-82 | the server fails exactly when the request is unidentified or the service throws, always with 'Failed to fetch vehicle parts.'; otherwise it returns the service's parts |
| VehicleParts.ServerHidesGuard | server/src/schemas/resolvers.ts:69-82 | an unidentified request and a failed service call give the same answer |
| VehicleParts.VersionsAgreeOnSuccess | server/src/schemas/resolvers.ts:69-82 | when the service answers an identified request, both versions return its parts |
| ProfileResolvers.FindProfile | server/src/schemas/resolvers.ts:54-57 | `profile` finds a profile exactly when the id is stored |
| ProfileResolvers.Me | server/src/schemas/resolvers.ts:60-67 | `me` throws 'Not Authenticated' exactly when no one is logged in; otherwise it finds that profile |
| ProfileResolvers.AddProfileStep | server/src/schemas/resolvers.ts:86-93 | `addProfile` always adds exactly one profile, with the given name and email, the password hashed and no skills, and returns that stored profile with a token signed for it |
| ProfileResolvers.AddedProfileLogsIn | server/src/schemas/resolvers.ts:86-115 | when the email was new, logging in with the new profile's email and password returns that profile and its token |
| ProfileResolvers.AddSkillStep | server/src/schemas/resolvers.ts:118-135 | `addSkill` without a logged-in user throws 'Could not find user'; for an unknown profile it yields null; otherwise it applies `$addToSet` to that profile's skills alone |
| ProfileResolvers.AddSkillIdempotent | server/src/schemas/resolvers.ts:118-135 | adding a skill twice is adding it once |
| ProfileResolvers.RemoveSkillStep | server/src/schemas/resolvers.ts:148-159 | `removeSkill` pulls the skill from the logged-in user's own profile, whatever profile id is passed; every other profile is unchanged |
| ProfileResolvers.RemoveSkillIgnoresProfileId | server/src/schemas/resolvers.ts:148-159 | the profile id argument does not affect the outcome |
| ProfileResolvers.RemoveProfileStep | server/src/schemas/resolvers.ts:138-145 | `removeProfile` deletes the logged-in user's profile only, returns it, and throws 'Could not find user' when no one is logged in |
| ProfileResolvers.ProfileStore.constructor | server/src/schemas/resolvers.ts:1 | a new store holds no profiles |
| ProfileResolvers.ProfileStore.AddProfile | server/src/schemas/resolvers.ts:86-93 | updates in place as AddProfileStep says |
| ProfileResolvers.ProfileStore.Login | server/src/schemas/resolvers.ts:95-115 | an unknown email throws the AuthenticationError class itself; a wrong password throws 'Not Authenticated'; otherwise it returns a token signed for the profile found |
| ProfileResolvers.ProfileStore.AddSkill | server/src/schemas/resolvers.ts:118-135 | updates in place as AddSkillStep says |
| ProfileResolvers.ProfileStore.RemoveSkill | server/src/schemas/resolvers.ts:148-159 | updates in place as RemoveSkillStep says |
| ProfileResolvers.ProfileStore.RemoveProfile | server/src/schemas/resolvers.ts:138-145 | updates in place as RemoveProfileStep says |
| Auth.SignToken | app/dist/utils/auth.js:40-46 | with a sound signer, the token is a compact token with no space in it, and it verifies to the signed claims for the two hours after issue |
| Auth.Request.constructor | app/dist/utils/auth.js:13-15 | a request carries its body token, query token and header, and has no user yet |
| Auth.ExtractToken | app/dist/utils/auth.js:15-25 | without an Authorization header, the token is the body token or else the query token; with one, the first present source's last space-separated piece is trimmed, and it never holds a space |
| Auth.Authenticated | app/dist/utils/auth.js:23-36 | a non-empty token that verifies sets the request's user to the verified claims; an empty or rejected token leaves it as it was; the user changes in no other way |
| Auth.AuthenticateToken | app/dist/utils/auth.js:13-39 | returns the same request object, with its user updated as Authenticated says |
| Auth.BearerHeaderYieldsToken | app/dist/utils/auth.js:19-21 | the header `Bearer <token>` yields exactly the token |
| Auth.TrailingSpaceAttachesNothing | app/dist/utils/auth.js:19-25 | when neither the body nor the query carries a token, a header that ends in a space yields the empty token and attaches no user |
| Auth.SignedBearerAuthenticates | app/dist/utils/auth.js:13-46 | a token from signToken, sent as a Bearer header before it expires, authenticates as the signed claims |
| Auth.NewAuthenticationError | app/dist/utils/auth.js:47-52 | an AuthenticationError carries its message and the name 'AuthenticationError', and `['UNAUTHENTICATED']` lands in GraphQLError's fifth positional parameter, its `path`; no extension code is set |
| Calendar.FrontendUrl | app/src/controllers/googleCalendarController.ts:62 | the frontend URL is the environment's value, or else `http://localhost:3000` |
| Calendar.EncodeState | app/src/controllers/googleCalendarController.ts:20-34 | a logged-in user's state is `userId:` followed by the id; any other state is `temp:` followed by a uuid, and it never starts with `userId:` |
| Calendar.DecodeState | app/src/controllers/googleCalendarController.ts:74-96 | a user id is found exactly when the state starts with `userId:`; it is the text up to the next colon |
| Calendar.DecodeEncodedUserId | app/src/controllers/googleCalendarController.ts:20-96 | decoding an encoded user id gives that id back, when the id has no colon |
| Calendar.TempStateNamesNoUser | app/src/controllers/googleCalendarController.ts:20-96 | a temporary state names no user |
| Calendar.StoredLink | app/src/controllers/googleCalendarController.ts:101-109 | the stored link holds the access and refresh tokens, and the expiry date only when Google sent one |
| Calendar.CallbackStep | app/src/controllers/googleCalendarController.ts:46-121 | covers every exit: the error redirect, the 400 for a missing code, the token_exchange_failed redirect, user_identification_failed, and success, which links only the user the state names; only that user's Google fields change |
| Calendar.TempStateStoresNothing | app/src/controllers/googleCalendarController.ts:89-96 | a callback with a temporary state changes no user |
| Calendar.LoggedInConsentLinksUser | app/src/controllers/googleCalendarController.ts:74-109 | a callback for a logged-in user's state stores the exchanged tokens on that user and redirects to the success page |
| Calendar.EventsStep | app/src/controllers/googleCalendarController.ts:124-188 | 401 without a user; 403 without a stored access token, both before the API is asked; otherwise the API's events with no change, or, on an API 401, that user's Google fields cleared and the re-authenticate 401, or, on any other API error, 500 with no change |
| Calendar.EventsGuardsCallNothing | app/src/controllers/googleCalendarController.ts:128-136 | a refused request has the same outcome whatever the Calendar API would answer |
| Calendar.RefusedTokenForcesRelink | app/src/controllers/googleCalendarController.ts:172-185 | after the API refuses the token, the user has no access token, so the next request gets 403 |
| Calendar.Callback | app/src/controllers/googleCalendarController.ts:46-121 | updates the store's users in place as CallbackStep says and leaves vehicles and records alone |
| Calendar.ListEvents | app/src/controllers/googleCalendarController.ts:124-188 | updates the store's users in place as EventsStep says and leaves vehicles and records alone |
| Maintenance.ReminderOverride.constructor | client/src/pages/MaintenancePage.tsx:8-11 | a reminder override holds its method and minutes |
| Maintenance.Values | client/src/pages/MaintenancePage.tsx:143-152 | the overrides sent are the method and minutes of each reminder, in order |
| Maintenance.AddReminder | client/src/pages/MaintenancePage.tsx:90-92 | adding a reminder appends one new popup reminder of 30 minutes and keeps the others |
| Maintenance.RemoveAt | client/src/pages/MaintenancePage.tsx:104-106 | removing an index in range drops exactly that element; an index out of range keeps the list |
| Maintenance.RemoveAtKeepsOthers | client/src/pages/MaintenancePage.tsx:104-106 | removal shortens the list by one, keeps the elements before the index, and shifts the later ones down by one |
| Maintenance.MinutesFrom | client/src/pages/MaintenancePage.tsx:96-98 | the minutes typed are `parseInt`'s value, or 0 when it gives NaN |
| Maintenance.ChangeReminder | client/src/pages/MaintenancePage.tsx:94-102 | writes the method or the minutes of the reminder at the index, in place, and throws exactly when a write targets an index out of range; the list itself is unchanged |
| Maintenance.TypedMinutesKept | client/src/pages/MaintenancePage.tsx:96-98 | typing the decimal text of a number gives back that number |
| Maintenance.FindVehicle | client/src/pages/MaintenancePage.tsx:53-55 | finds the first vehicle with the selected id, or reports that none has it |
| Maintenance.Summary | client/src/pages/MaintenancePage.tsx:51-78 | the summary starts with the title (the chosen vehicle, else the typed type, else the example); it is the title alone exactly when no date is set or `format` throws, and otherwise the title followed by ' on ' and the formatted date |
| Maintenance.ChosenVehicleNamesEvent | client/src/pages/MaintenancePage.tsx:51-78 | with a selected vehicle, the summary is 'Maintenance for ' followed by its year, make and model |
| Maintenance.TypedVehicleNamesEvent | client/src/pages/MaintenancePage.tsx:51-78 | with no vehicle selected but a type typed, the summary is 'Maintenance for ' followed by the type |
| Maintenance.SummaryWithoutVehicle | client/src/pages/MaintenancePage.tsx:51-78 | with neither a vehicle nor a type, the summary falls back to the example text |
| Maintenance.DateSuffix | client/src/pages/MaintenancePage.tsx:51-78 | a valid date appends ' on ' and the formatted date to the title; otherwise the title stands alone |
| Maintenance.MinuteOfDay | client/src/pages/MaintenancePage.tsx:122-131 | a parsed time of day is a non-negative count of minutes |
| Maintenance.ClockMinutes | client/src/pages/MaintenancePage.tsx:122-131 | a time is read exactly when there are two pieces and `Number` reads both; it is then 60·hours + minutes, never negative |
| Maintenance.MinuteOfDayOfDigits | client/src/pages/MaintenancePage.tsx:122-131 | `hh:mm` in digits is 60·hh + mm minutes |
| Maintenance.CheckSubmit | client/src/pages/MaintenancePage.tsx:108-152 | a form is sent exactly when every required field is filled, the date is valid, both times read and the start is before the end; a missing field, an unreadable date or time, and an end at or before the start each give their own rejection exactly in their case; a sent payload holds the form's text and times, and holds overrides exactly when the default reminders are off and some exist |
| Maintenance.DefaultTimesInOrder | client/src/pages/MaintenancePage.tsx:32-39 | example: a form with the page's default times, 09:00 to 10:00, and a summary and date filled in is sent |
| Signup.MatchesIff | client/src/pages/Signup.tsx:25-27 | a one-character-class regular expression matches exactly when some character is in the class |
| Signup.Utf16Length | client/src/pages/Signup.tsx:24 | JavaScript's `length` lies between the number of characters and twice it, and equals the number of characters when none is beyond the Basic Multilingual Plane |
| Signup.PasswordChecks | client/src/pages/Signup.tsx:22-28 | the four captions, in order, each valid exactly when the password meets it: at least 6 UTF-16 code units as JavaScript's `length` counts them, a special character, a digit, and both a lower-case and an upper-case letter |
| Signup.SubmitInput | client/src/pages/Signup.tsx:38-43 | the submitted input is the form's name, email and password unchanged |
| Signup.ChecksAreAdvisory | client/src/pages/Signup.tsx:22-43 | a form is sent and the profile created whatever the checks say, with the password hashed |
| Signup.LowerCaseOnlyFailsChecks | client/src/pages/Signup.tsx:22-28 | a password of lower-case letters alone fails the special, digit and mixed-case checks, and fails the length check when shorter than 6 |
| Signup.AstralCharactersCountTwice | client/src/pages/Signup.tsx:24 | example: three emoji are six code units and meet the length check |
| UserSetUp.EmailSetter | Server/src/UserSetUp.py:24-34 | a non-string raises 'Email must be a string.'; a string is stored as given or raises 'Invalid email format.' |
| UserSetUp.EmailSetterAcceptsIff | Server/src/UserSetUp.py:24-34 | an email is accepted exactly when it has an `@` whose domain contains no `@` but does contain a `.` |
| UserSetUp.PasswordSetter | Server/src/UserSetUp.py:36-45 | accepts exactly the strings of at least 8 characters; otherwise raises the non-string or short-password error |
| UserSetUp.NameSetter | Server/src/UserSetUp.py:47-63 | accepts exactly the strings; otherwise raises that name's non-string error |
| UserSetUp.InitAsWritten | Server/src/UserSetUp.py:18-22 | the constructor as written stores its four arguments as given |
| UserSetUp.InitValidated | Server/src/UserSetUp.py:18-63 | the constructor through the setters succeeds exactly when all four setters do, and then stores the arguments; otherwise it raises the error of the first setter that refuses, in the order email, password, first name, last name |
| UserSetUp.InitValidatedIffValid | Server/src/UserSetUp.py:18-63 | the validated constructor succeeds exactly when every field is valid |
| UserSetUp.UnvalidatedConstructionStoresBadValues | Server/src/UserSetUp.py:18-22 | the constructor as written stores a malformed email and a short password, which the setters would reject with 'Invalid email format.' |
| UserSetUp.UserData.constructor | Server/src/UserSetUp.py:18-22 | a new object holds the four arguments unchecked |
| UserSetUp.UserData.SetEmail | Server/src/UserSetUp.py:24-34 | on acceptance it stores the email and changes nothing else; otherwise it raises and changes nothing |
| UserSetUp.UserData.SetPassword | Server/src/UserSetUp.py:36-45 | on acceptance it stores the password and changes nothing else; otherwise it raises and changes nothing |
| UserSetUp.UserData.SetFirstName | Server/src/UserSetUp.py:47-54 | stores a string first name and changes nothing else; raises on a non-string |
| UserSetUp.UserData.SetLastName | Server/src/UserSetUp.py:56-63 | stores a string last name and changes nothing else; raises on a non-string |
| UserSetUp.UserData.InitThroughSetters | Server/src/UserSetUp.py:18-63 | running the four setters in order succeeds exactly when the validated constructor does, and leaves the object in its state |

## Left out

- bcrypt is modelled only as `Hash` and `PasswordMatches` on a stored password. Hashing is injective and a raw text never matches; salts, cost and timing are left out.
- jsonwebtoken is the parameter `Jwt`. Its encoding, its signature algorithm and the clock are not modelled; the time is a parameter `now`.
- The parts service, googleapis (the OAuth client and the Calendar API) and `uuid` are function parameters.
  - `getVehicleParts` and its NHTSA requests are not part of this model.
- The URL the Google auth route redirects to is not modelled. Only the `state` it carries is modelled (`EncodeState`).
- Each resolver is one atomic step. Concurrent requests interleaving between two awaits are not modelled.
- The `users` query (resolvers.js:11) returns the whole collection. It is the map itself and has no member of its own.
- The server `profiles` query is likewise the map itself.
- Malformed ids: Mongoose throws a `CastError` when an id is not a well-formed ObjectId, where the model finds no document. The resolvers (resolvers.js:13, 23, 69, 99, 115, 129) then reject instead of yielding null; `Calendar.CallbackStep` with a `userId:` state naming a malformed id would redirect with `token_exchange_failed` instead of success (googleCalendarController.ts:102, 116-119); `Calendar.EventsStep` would answer 500 instead of 403 (googleCalendarController.ts:133). These thrown branches are not modelled.
- Mongoose validation is reduced to the required fields and the unique indexes on user email and vehicle VIN:
  - trimming, type casting and the schema defaults other than a vehicle's mileage of 0 are left out.
- The two copies of the schemas (with and without required `vin`/`make`/`model`, with and without `trim`) are not told apart. The app's copy is the one modelled.
- `Vehicle.serviceHistory` and `ServiceRecord.vehicle` are taken from the resolvers. No schema copy declares `Vehicle.serviceHistory`; `ServiceRecord.vehicle` is declared only in app/dist/models/ServiceRecord.js:26, not in app/src/models/ServiceRecord.ts, and Mongoose's removal of undeclared paths in strict mode is not modelled.
- `ProfileResolvers.AddProfileStep`: the profile server's unique index on email is not modelled. `addProfile` always succeeds in the model.
- Dates and time zones: `toISOString`, `date-fns` `format` and the validity of `new Date(...)` are parameters (`format`, `dateValid`).
- `Number()` is modelled only on digit strings (`DecimalNumber`). Hexadecimal, exponent, fractional and signed times are refused, where JavaScript would accept some of them.
- `Maintenance.MinuteOfDay`: states only that the minute count is non-negative for every input, and its exact value for `hh:mm` in digits.
- The summary of MaintenancePage.tsx:51-78 is computed in a React effect. Its rendering, and the effect that re-runs on every change of its dependencies, are left out; the summary is a function of those dependencies.
- The error message shown in the catch of the calendar submit (MaintenancePage.tsx:177) reads a stale value from React state. It is not modelled.
- The HTTP call of the calendar submit is not modelled. `CheckSubmit` stops at the payload.
- `Auth.login` and `localStorage` after sign-up, navigation, and all rendering are left out.
- The `console.log` calls are left out. One of them, in the catch of authenticateToken (auth.js:34), prints `JWT_SECRET_KEY` each time a token is rejected, which leaks the signing secret to the logs.
- `Auth.ExtractToken`: the body and query tokens are strings. A non-string body field, on which `.split` would throw, is not modelled.

## Findings

| source | as written | input that shows it | evidently intended | confidence | as-written member | corrected member |
|---|---|---|---|---|---|---|
| app/dist/app/src/schemas/resolvers.js:71-84 | `deleteUser` sets `owner = null` on each fetched vehicle but never saves it, then deletes the user | a user `u` whose `vehicles` list holds `v`, with `v.owner == u`: after `deleteUser(u)`, `v.owner` still names the deleted `u` | the listed vehicles are saved without an owner, so, provided the user's `vehicles` list names every vehicle the user owns, no vehicle names the deleted user; no resolver keeps that list up to date, so the condition holds only for data such as the seed's | not executed | Resolvers.DeleteUserLeavesOwnerDangling | Resolvers.DetachingLeavesNoDanglingOwner |
| app/dist/app/src/schemas/resolvers.js:69 | `updateUser` writes the input with `findByIdAndUpdate`, which skips the `save` hook that hashes passwords | `updateUser(id, {password: "p"})` followed by `login(email, "p")`: bcrypt compares "p" with the raw text and login fails | the new password is hashed, so the user can log in with it | not executed | Resolvers.UpdatedPasswordRejected | Resolvers.UpdatedPasswordAccepted |
| Server/src/UserSetUp.py:18-63 | the properties and their setters are defined as local functions inside `__init__`, after plain attributes are assigned, so they are never attached to the class and no check runs | `UserData("not-an-email", "short", "Ada", "Lovelace")` is built without error | construction runs the setters and raises `ValueError` on an invalid email or a short password | not executed | UserSetUp.UnvalidatedConstructionStoresBadValues | UserSetUp.InitValidatedIffValid |
