/** The Query and Mutation resolvers of app/dist/app/src/schemas/resolvers.js
    over the three collections. Each resolver is one atomic step: a function
    from the store `Db` before the call to the store after it and the value
    returned or the error raised (`Step`), and a method of `Store` that makes
    the same change in place. */
module Resolvers {
  import opened Common
  import opened Models
  import opened MongoOps
  import Auth

  /** The users, vehicles and serviceRecords collections, keyed by document id. */
  datatype Db = Db(users: map<Id, User>, vehicles: map<Id, Vehicle>, records: map<Id, ServiceRecord>)

  /** The unique indexes hold: no two users share an email, no two vehicles a vin. */
  ghost predicate Indexed(db: Db) {
    EmailsUnique(db.users) && VinsUnique(db.vehicles)
  }

  /** What one resolver call leaves behind: the new store and its outcome. */
  datatype Step<+T> = Step(db: Db, result: Result<T>)

  /** `context.user`: the verified token payload, if any. */
  type Context = Option<Auth.Claims>

  /** `{ token, user }` as registerUser and login return it. */
  datatype AuthPayload = AuthPayload(token: string, userId: Id, user: User)

  /** A vehicle as `findById(...).populate('serviceHistory')` returns it: the
      history ids are replaced by the records they name. */
  datatype VehicleView = VehicleView(id: Id, vehicle: Vehicle, history: seq<(Id, ServiceRecord)>)

  /** `populate`: each id replaced by its record, in order; ids with no record
      are dropped. */
  function Populate(records: map<Id, ServiceRecord>, ids: seq<Id>): (history: seq<(Id, ServiceRecord)>)
    ensures |history| <= |ids|
    ensures forall k :: 0 <= k < |history| ==> history[k].0 in records && records[history[k].0] == history[k].1
    ensures forall x :: x in ids && x in records ==> (x, records[x]) in history
    ensures (forall k :: 0 <= k < |ids| ==> ids[k] in records) ==>
              |history| == |ids| && forall k :: 0 <= k < |ids| ==> history[k] == (ids[k], records[ids[k]])
  {
    if ids == [] then []
    else
      var last := ids[|ids| - 1];
      Populate(records, ids[..|ids| - 1]) + (if last in records then [(last, records[last])] else [])
  }

  /** Populating one more id appends its record, when it has one. */
  lemma PopulateAppend(records: map<Id, ServiceRecord>, ids: seq<Id>, x: Id)
    ensures Populate(records, ids + [x]) ==
            Populate(records, ids) + (if x in records then [(x, records[x])] else [])
  {
    assert (ids + [x])[..|ids|] == ids;
  }

  function View(db: Db, vid: Id): Option<VehicleView> {
    if vid in db.vehicles
    then Some(VehicleView(vid, db.vehicles[vid], Populate(db.records, db.vehicles[vid].serviceHistory)))
    else None
  }

  // ---------------------------------------------------------------- queries

  /** `user(userId)`: the stored user, null when there is none. */
  function FindUser(db: Db, id: Id): (r: Option<User>)
    ensures r.Some? <==> id in db.users
    ensures r.Some? ==> r.value == db.users[id]
  {
    if id in db.users then Some(db.users[id]) else None
  }

  /** `getVehicleById(id)`. */
  function FindVehicle(db: Db, id: Id): (r: Option<Vehicle>)
    ensures r.Some? <==> id in db.vehicles
    ensures r.Some? ==> r.value == db.vehicles[id]
  {
    if id in db.vehicles then Some(db.vehicles[id]) else None
  }

  /** `me`: the caller's own user; without a caller, 'Not logged in'. */
  function Me(db: Db, ctx: Context): (r: Result<Option<User>>)
    ensures r.Err? <==> ctx.None?
    ensures r.Err? ==> r.error == AuthenticationError("Not logged in")
    ensures ctx.Some? ==> r == Ok(FindUser(db, ctx.value.id))
  {
    match ctx
    case None => Err(AuthenticationError("Not logged in"))
    case Some(claims) => Ok(FindUser(db, claims.id))
  }

  /** `getVehiclesByUser(ownerId)`: `find({ owner: ownerId })`. */
  function VehiclesOwnedBy(db: Db, ownerId: Id): (r: set<Id>)
    ensures forall id :: id in r <==> id in db.vehicles && db.vehicles[id].owner == Some(ownerId)
  {
    set id | id in db.vehicles && db.vehicles[id].owner == Some(ownerId)
  }

  /** `getVehiclesOwned`: the caller's vehicles; without a caller, 'Not logged in'. */
  function VehiclesOwned(db: Db, ctx: Context): (r: Result<set<Id>>)
    ensures r.Err? <==> ctx.None?
    ensures r.Err? ==> r.error == AuthenticationError("Not logged in")
    ensures ctx.Some? ==> r == Ok(VehiclesOwnedBy(db, ctx.value.id))
  {
    match ctx
    case None => Err(AuthenticationError("Not logged in"))
    case Some(claims) => Ok(VehiclesOwnedBy(db, claims.id))
  }

  /** `findOne({ email })`: under the unique index at most one user matches. */
  function UserWithEmail(users: map<Id, User>, email: string): (r: Option<Id>)
    requires EmailsUnique(users)
    ensures r.Some? <==> EmailTaken(users, email)
    ensures r.Some? ==> r.value in users && users[r.value].email == email
    ensures r.Some? ==> forall id :: id in users && users[id].email == email ==> id == r.value
  {
    if EmailTaken(users, email) then
      var id :| id in users && users[id].email == email;
      Some(id)
    else None
  }

  /** `login(email, password)`: a token for the user with that email when the
      password matches its stored digest; an unknown email and a wrong password
      raise the same 'Invalid credentials'. */
  function Login(db: Db, email: string, password: string, jwt: Auth.Jwt, secret: string, now: int)
    : (r: Result<AuthPayload>)
    requires EmailsUnique(db.users)
    ensures r.Err? ==> r.error == AuthenticationError("Invalid credentials")
    ensures r.Ok? <==> exists id :: id in db.users && db.users[id].email == email
                                    && PasswordMatches(password, db.users[id].password)
    ensures r.Ok? ==> r.value.userId in db.users && r.value.user == db.users[r.value.userId]
                      && r.value.user.email == email
    ensures r.Ok? ==> r.value.token == Auth.SignToken(jwt, r.value.user.firstName, r.value.user.lastName,
                                                      email, r.value.userId, secret, now)
  {
    match UserWithEmail(db.users, email)
    case None => Err(AuthenticationError("Invalid credentials"))
    case Some(id) =>
      var user := db.users[id];
      if !PasswordMatches(password, user.password) then Err(AuthenticationError("Invalid credentials"))
      else Ok(AuthPayload(Auth.SignToken(jwt, user.firstName, user.lastName, user.email, id, secret, now), id, user))
  }

  // ---------------------------------------------------------------- users

  /** `registerUser(input)`: refused with 'User already exists' when the email
      is stored, refused by validation when a required path is empty, and
      otherwise exactly one user is added, under the fresh id, with the
      password hashed. */
  function RegisterUserStep(db: Db, input: UserInput, newId: Id, jwt: Auth.Jwt, secret: string, now: int)
    : (s: Step<AuthPayload>)
    requires newId !in db.users
    ensures EmailTaken(db.users, input.email) ==> s == Step(db, Err(PlainError("User already exists")))
    ensures s.result.Err? ==> s.db == db
    ensures s.result.Ok? <==> !EmailTaken(db.users, input.email) && MissingUserField(input).None?
    ensures s.result.Ok? ==> s.db == db.(users := db.users[newId := NewUser(input)])
    ensures s.result.Ok? ==> |s.db.users| == |db.users| + 1 && s.result.value.userId == newId
    ensures s.result.Ok? ==> s.result.value.user.password == Hash(input.password)
    ensures s.result.Ok? ==> s.db.users[newId] == s.result.value.user
    ensures s.result.Ok? ==> var u := s.result.value.user;
              && u.firstName == input.firstName && u.lastName == input.lastName && u.email == input.email
              && u.vehicles == [] && u.google == Unlinked
    ensures s.result.Ok? ==>
              s.result.value.token == Auth.SignToken(jwt, input.firstName, input.lastName, input.email, newId, secret, now)
    ensures Indexed(db) ==> Indexed(s.db)
  {
    if EmailTaken(db.users, input.email) then Step(db, Err(PlainError("User already exists")))
    else match MissingUserField(input)
      case Some(field) => Step(db, Err(ValidationFailed(field)))
      case None =>
        var user := NewUser(input);
        var token := Auth.SignToken(jwt, user.firstName, user.lastName, user.email, newId, secret, now);
        Step(db.(users := db.users[newId := user]), Ok(AuthPayload(token, newId, user)))
  }

  /** `findByIdAndUpdate(userId, input)`: the update sets the given paths as
      they are; the pre-save hook does not run, so a new password is stored as
      raw text. */
  function PatchUser(u: User, patch: UserPatch): User {
    u.(firstName := GetOr(patch.firstName, u.firstName),
       lastName := GetOr(patch.lastName, u.lastName),
       email := GetOr(patch.email, u.email),
       password := if patch.password.Some? then Raw(patch.password.value) else u.password)
  }

  /** What `findByIdAndUpdate` with a user input keeps and sets, the password
      aside: each given field takes its new value, each omitted one and the
      vehicle list and Google link stay as they were; an omitted password is
      kept. */
  predicate Patched(before: User, after: User, patch: UserPatch) {
    && after.firstName == GetOr(patch.firstName, before.firstName)
    && after.lastName == GetOr(patch.lastName, before.lastName)
    && after.email == GetOr(patch.email, before.email)
    && (patch.password.None? ==> after.password == before.password)
    && after.vehicles == before.vehicles && after.google == before.google
  }

  /** `updateUser(userId, input)`: null for an unknown id, a duplicate-key
      error when the new email belongs to another user, otherwise only that
      user changes and the updated user is returned. */
  function UpdateUserStep(db: Db, id: Id, patch: UserPatch): (s: Step<Option<User>>)
    ensures id !in db.users ==> s == Step(db, Ok(None))
    ensures s.result.Err? <==> id in db.users && patch.email.Some? && EmailTakenByOther(db.users, id, patch.email.value)
    ensures s.result.Err? ==> s == Step(db, Err(DuplicateKey("email")))
    ensures s.db.vehicles == db.vehicles && s.db.records == db.records
    ensures s.result.Ok? && id in db.users ==>
              s.result.value.Some? && s.db.users == db.users[id := s.result.value.value]
    ensures s.result.Ok? && id in db.users ==> Patched(db.users[id], s.result.value.value, patch)
    ensures s.result.Ok? && id in db.users && patch.password.Some? ==>
              s.result.value.value.password == Raw(patch.password.value)
    ensures Indexed(db) ==> Indexed(s.db)
  {
    if id !in db.users then Step(db, Ok(None))
    else if patch.email.Some? && EmailTakenByOther(db.users, id, patch.email.value) then
      Step(db, Err(DuplicateKey("email")))
    else
      var user := PatchUser(db.users[id], patch);
      Step(db.(users := db.users[id := user]), Ok(Some(user)))
  }

  /** A user who changed their password through updateUser can no longer log
      in with it: the stored raw text is no digest of anything. */
  lemma UpdatedPasswordRejected(db: Db, id: Id, password: string, jwt: Auth.Jwt, secret: string, now: int)
    requires Indexed(db) && id in db.users
    ensures var s := UpdateUserStep(db, id, UserPatch(None, None, None, Some(password)));
            Login(s.db, s.db.users[id].email, password, jwt, secret, now).Err?
  {
    var s := UpdateUserStep(db, id, UserPatch(None, None, None, Some(password)));
    assert Indexed(s.db);
    var email := s.db.users[id].email;
    forall other | other in s.db.users && s.db.users[other].email == email
      ensures !PasswordMatches(password, s.db.users[other].password)
    {
      assert other == id;
    }
  }

  /** updateUser as intended: a new password is hashed like the pre-save hook
      hashes it at registration. */
  function UpdateUserHashingStep(db: Db, id: Id, patch: UserPatch): (s: Step<Option<User>>)
    ensures id !in db.users ==> s == Step(db, Ok(None))
    ensures s.result.Err? <==> id in db.users && patch.email.Some? && EmailTakenByOther(db.users, id, patch.email.value)
    ensures s.result.Err? ==> s == Step(db, Err(DuplicateKey("email")))
    ensures s.db.vehicles == db.vehicles && s.db.records == db.records
    ensures s.result.Ok? && id in db.users ==>
              s.result.value.Some? && s.db.users == db.users[id := s.result.value.value]
    ensures s.result.Ok? && id in db.users ==> Patched(db.users[id], s.result.value.value, patch)
    ensures s.result.Ok? && id in db.users && patch.password.Some? ==>
              s.result.value.value.password == Hash(patch.password.value)
    ensures Indexed(db) ==> Indexed(s.db)
  {
    if id !in db.users then Step(db, Ok(None))
    else if patch.email.Some? && EmailTakenByOther(db.users, id, patch.email.value) then
      Step(db, Err(DuplicateKey("email")))
    else
      var patched := PatchUser(db.users[id], patch);
      var user := if patch.password.Some? then patched.(password := Hash(patch.password.value)) else patched;
      Step(db.(users := db.users[id := user]), Ok(Some(user)))
  }

  /** With the hashing update, the new password logs the user in. */
  lemma UpdatedPasswordAccepted(db: Db, id: Id, password: string, jwt: Auth.Jwt, secret: string, now: int)
    requires Indexed(db) && id in db.users
    ensures var s := UpdateUserHashingStep(db, id, UserPatch(None, None, None, Some(password)));
            Login(s.db, s.db.users[id].email, password, jwt, secret, now).Ok?
  {
    var s := UpdateUserHashingStep(db, id, UserPatch(None, None, None, Some(password)));
    assert Indexed(s.db);
    assert PasswordMatches(password, s.db.users[id].password);
  }

  /** `deleteUser(userId)` as written: the loop over the user's vehicles sets
      `owner = null` on copies it never saves, so only the user document goes;
      the deleted user is returned (null for an unknown id). */
  function DeleteUserStep(db: Db, id: Id): (s: Step<Option<User>>)
    ensures s.db.users == db.users - {id} && id !in s.db.users
    ensures s.db.vehicles == db.vehicles && s.db.records == db.records
    ensures s.result == Ok(FindUser(db, id))
  {
    Step(db.(users := db.users - {id}), Ok(FindUser(db, id)))
  }

  /** After deleteUser, a vehicle the user owned still exists and still names
      the deleted user as its owner. */
  lemma DeleteUserLeavesOwnerDangling(db: Db, id: Id, vid: Id)
    requires vid in db.vehicles && db.vehicles[vid].owner == Some(id)
    ensures var after := DeleteUserStep(db, id).db;
            vid in after.vehicles && after.vehicles[vid].owner == Some(id) && id !in after.users
  {
  }

  /** The vehicles after `owner = null` is saved on each existing vehicle named
      in `ids`. */
  function Detach(vehicles: map<Id, Vehicle>, ids: seq<Id>): (r: map<Id, Vehicle>)
    ensures r.Keys == vehicles.Keys
    ensures forall v :: v in r ==> r[v] == if v in ids then vehicles[v].(owner := None) else vehicles[v]
  {
    if ids == [] then vehicles
    else
      var d := Detach(vehicles, ids[..|ids| - 1]);
      var last := ids[|ids| - 1];
      assert forall v :: v in ids <==> v in ids[..|ids| - 1] || v == last;
      if last in d then d[last := d[last].(owner := None)] else d
  }

  /** Detaching one more id changes at most that id's vehicle. */
  lemma DetachOneMore(vehicles: map<Id, Vehicle>, ids: seq<Id>, x: Id)
    ensures var d := Detach(vehicles, ids);
      Detach(vehicles, ids + [x]) == if x in d then d[x := d[x].(owner := None)] else d
  {
    assert (ids + [x])[..|ids|] == ids;
  }

  /** The corrected loop of deleteUser: each listed vehicle that exists is
      saved without an owner, one at a time. */
  method DetachAll(vehicles: map<Id, Vehicle>, listed: seq<Id>) returns (detached: map<Id, Vehicle>)
    ensures detached == Detach(vehicles, listed)
  {
    detached := vehicles;
    var i := 0;
    while i < |listed|
      invariant 0 <= i <= |listed|
      invariant detached == Detach(vehicles, listed[..i])
    {
      DetachOneMore(vehicles, listed[..i], listed[i]);
      assert listed[..i + 1] == listed[..i] + [listed[i]];
      if listed[i] in detached {
        detached := detached[listed[i] := detached[listed[i]].(owner := None)];
      }
      i := i + 1;
    }
    assert listed[..|listed|] == listed;
  }

  /** deleteUser as its comments intend: every vehicle listed on the user is
      saved without an owner before the user is deleted. */
  function DeleteUserDetachingStep(db: Db, id: Id): (s: Step<Option<User>>)
    ensures s.db.users == db.users - {id} && s.db.records == db.records
    ensures s.db.vehicles.Keys == db.vehicles.Keys
    ensures id in db.users ==> forall v :: v in db.users[id].vehicles && v in s.db.vehicles ==> s.db.vehicles[v].owner.None?
    ensures forall v :: v in db.vehicles && (id !in db.users || v !in db.users[id].vehicles) ==>
              s.db.vehicles[v] == db.vehicles[v]
    ensures s.result == Ok(FindUser(db, id))
    ensures Indexed(db) ==> Indexed(s.db)
  {
    var vehicles := if id in db.users then Detach(db.vehicles, db.users[id].vehicles) else db.vehicles;
    Step(Db(db.users - {id}, vehicles, db.records), Ok(FindUser(db, id)))
  }

  /** When the user's list names every vehicle it owns, the intended deleteUser
      leaves no vehicle pointing at the deleted user. */
  lemma DetachingLeavesNoDanglingOwner(db: Db, id: Id)
    requires id in db.users
    requires forall v :: v in db.vehicles && db.vehicles[v].owner == Some(id) ==> v in db.users[id].vehicles
    ensures VehiclesOwnedBy(DeleteUserDetachingStep(db, id).db, id) == {}
  {
    var after := DeleteUserDetachingStep(db, id).db;
    forall v | v in after.vehicles
      ensures after.vehicles[v].owner != Some(id)
    {
      if v !in db.users[id].vehicles {
        assert after.vehicles[v] == db.vehicles[v];
      }
    }
  }

  // ---------------------------------------------------------------- vehicles

  /** `Vehicle.create({ ...input, owner })`: refused by validation when a
      required path is empty, refused by the unique index when the vin is
      stored; otherwise exactly one vehicle is added, owned by `owner`. No
      user's list of vehicles is touched. */
  function CreateVehicleStep(db: Db, input: VehicleInput, owner: Id, newId: Id): (s: Step<Vehicle>)
    requires newId !in db.vehicles
    ensures s.db.users == db.users && s.db.records == db.records
    ensures s.result.Err? ==> s.db == db
    ensures s.result.Ok? <==> MissingVehicleField(input).None? && !VinTaken(db.vehicles, input.vin)
    ensures MissingVehicleField(input).None? && VinTaken(db.vehicles, input.vin) ==> s.result == Err(DuplicateKey("vin"))
    ensures s.result.Ok? ==> s.db.vehicles == db.vehicles[newId := s.result.value]
    ensures s.result.Ok? ==> s.result.value.owner == Some(owner) && s.result.value.vin == input.vin
                             && s.result.value.serviceHistory == []
    ensures s.result.Ok? ==> var v := s.result.value;
              && v.make == input.make && v.model == input.model && v.year == input.year
              && v.mileage == GetOr(input.mileage, 0) && v.color == input.color
    ensures Indexed(db) ==> Indexed(s.db)
  {
    match MissingVehicleField(input)
    case Some(field) => Step(db, Err(ValidationFailed(field)))
    case None =>
      if VinTaken(db.vehicles, input.vin) then Step(db, Err(DuplicateKey("vin")))
      else
        var vehicle := NewVehicle(input, owner);
        Step(db.(vehicles := db.vehicles[newId := vehicle]), Ok(vehicle))
  }

  /** `registerVehicle(input)`: 'Not logged in' without a caller, otherwise a
      vehicle created for the caller. */
  function RegisterVehicleStep(db: Db, ctx: Context, input: VehicleInput, newId: Id): (s: Step<Vehicle>)
    requires newId !in db.vehicles
    ensures ctx.None? ==> s == Step(db, Err(AuthenticationError("Not logged in")))
    ensures ctx.Some? ==> s == CreateVehicleStep(db, input, ctx.value.id, newId)
    ensures s.db.users == db.users
  {
    match ctx
    case None => Step(db, Err(AuthenticationError("Not logged in")))
    case Some(claims) => CreateVehicleStep(db, input, claims.id, newId)
  }

  /** A vehicle registered by a caller is among the caller's own vehicles. */
  lemma RegisteredVehicleIsOwned(db: Db, claims: Auth.Claims, input: VehicleInput, newId: Id)
    requires newId !in db.vehicles
    requires RegisterVehicleStep(db, Some(claims), input, newId).result.Ok?
    ensures var after := RegisterVehicleStep(db, Some(claims), input, newId).db;
            VehiclesOwned(after, Some(claims)) == Ok(VehiclesOwnedBy(after, claims.id))
            && newId in VehiclesOwnedBy(after, claims.id)
  {
  }

  /** `addVehicle(ownerId, input)`: a vehicle created for any named owner,
      with no check of the caller. */
  function AddVehicleStep(db: Db, ownerId: Id, input: VehicleInput, newId: Id): (s: Step<Vehicle>)
    requires newId !in db.vehicles
    ensures s == CreateVehicleStep(db, input, ownerId, newId)
    ensures s.db.users == db.users
  {
    CreateVehicleStep(db, input, ownerId, newId)
  }

  function PatchVehicle(v: Vehicle, patch: VehiclePatch): Vehicle {
    v.(vin := GetOr(patch.vin, v.vin), make := GetOr(patch.make, v.make),
       model := GetOr(patch.model, v.model), year := GetOr(patch.year, v.year),
       mileage := GetOr(patch.mileage, v.mileage),
       color := if patch.color.Some? then patch.color else v.color)
  }

  /** `updateVehicle(vehicleId, input)`: null for an unknown id, a duplicate-key
      error when the new vin belongs to another vehicle, otherwise only that
      vehicle changes. */
  function UpdateVehicleStep(db: Db, id: Id, patch: VehiclePatch): (s: Step<Option<Vehicle>>)
    ensures id !in db.vehicles ==> s == Step(db, Ok(None))
    ensures s.result.Err? <==> id in db.vehicles && patch.vin.Some? && VinTakenByOther(db.vehicles, id, patch.vin.value)
    ensures s.result.Err? ==> s == Step(db, Err(DuplicateKey("vin")))
    ensures s.db.users == db.users && s.db.records == db.records
    ensures s.result.Ok? && id in db.vehicles ==>
              s.result.value.Some? && s.db.vehicles == db.vehicles[id := s.result.value.value]
              && s.result.value.value.owner == db.vehicles[id].owner
              && s.result.value.value.serviceHistory == db.vehicles[id].serviceHistory
    ensures s.result.Ok? && id in db.vehicles ==>
              var before, after := db.vehicles[id], s.result.value.value;
              && after.vin == GetOr(patch.vin, before.vin) && after.make == GetOr(patch.make, before.make)
              && after.model == GetOr(patch.model, before.model) && after.year == GetOr(patch.year, before.year)
              && after.mileage == GetOr(patch.mileage, before.mileage)
              && after.color == (if patch.color.Some? then patch.color else before.color)
    ensures Indexed(db) ==> Indexed(s.db)
  {
    if id !in db.vehicles then Step(db, Ok(None))
    else if patch.vin.Some? && VinTakenByOther(db.vehicles, id, patch.vin.value) then
      Step(db, Err(DuplicateKey("vin")))
    else
      var vehicle := PatchVehicle(db.vehicles[id], patch);
      Step(db.(vehicles := db.vehicles[id := vehicle]), Ok(Some(vehicle)))
  }

  /** Sending the same update twice is sending it once: the second finds the
      VIN already its own and every field already set. */
  lemma {:induction false} UpdateVehicleIdempotent(db: Db, id: Id, patch: VehiclePatch)
    ensures var once := UpdateVehicleStep(db, id, patch);
            UpdateVehicleStep(once.db, id, patch) == once
  {
    var once := UpdateVehicleStep(db, id, patch);
    if once.result.Ok? && id in db.vehicles {
      var v := once.result.value.value;
      assert once.db.vehicles[id] == v;
      assert PatchVehicle(v, patch) == v;
      if patch.vin.Some? {
        assert !VinTakenByOther(once.db.vehicles, id, patch.vin.value) by {
          assert forall o :: o in once.db.vehicles && o != id ==> once.db.vehicles[o] == db.vehicles[o];
        }
      }
    }
  }

  /** `deleteVehicle(vehicleId)`: when the vehicle exists and its owner is
      stored, every occurrence of its id leaves the owner's list; then the
      vehicle is deleted and returned. Its service records stay, and so does
      every other user. An unknown id changes nothing and returns null. */
  function DeleteVehicleStep(db: Db, id: Id): (s: Step<Option<Vehicle>>)
    ensures s.result == Ok(FindVehicle(db, id))
    ensures id !in db.vehicles ==> s.db == db
    ensures s.db.vehicles == db.vehicles - {id} && s.db.records == db.records
    ensures s.db.users.Keys == db.users.Keys
    ensures forall u :: u in db.users && (id !in db.vehicles || db.vehicles[id].owner != Some(u)) ==>
              s.db.users[u] == db.users[u]
    ensures id in db.vehicles && db.vehicles[id].owner.Some? && db.vehicles[id].owner.value in db.users ==>
              var o := db.vehicles[id].owner.value;
              s.db.users[o] == db.users[o].(vehicles := Pull(db.users[o].vehicles, id))
              && id !in s.db.users[o].vehicles
    ensures Indexed(db) ==> Indexed(s.db)
  {
    if id !in db.vehicles then Step(db, Ok(None))
    else
      var vehicle := db.vehicles[id];
      var users :=
        if vehicle.owner.Some? && vehicle.owner.value in db.users then
          var o := vehicle.owner.value;
          db.users[o := db.users[o].(vehicles := Pull(db.users[o].vehicles, id))]
        else db.users;
      assert forall u :: u in users ==> users[u].email == db.users[u].email;
      Step(Db(users, db.vehicles - {id}, db.records), Ok(Some(vehicle)))
  }

  /** deleteVehicle leaves the vehicle's service records behind, still naming
      the deleted vehicle. */
  lemma DeleteVehicleOrphansRecords(db: Db, id: Id, rid: Id)
    requires id in db.vehicles && rid in db.records && db.records[rid].vehicle == id
    ensures var after := DeleteVehicleStep(db, id).db;
            rid in after.records && after.records[rid].vehicle == id && id !in after.vehicles
  {
  }

  /** `transferOwnership(vehicleId, newOwnerId)`: only the vehicle's owner
      changes; neither the old nor the new owner's list of vehicles does. */
  function TransferOwnershipStep(db: Db, id: Id, newOwner: Id): (s: Step<Option<Vehicle>>)
    ensures s.db.users == db.users && s.db.records == db.records
    ensures id !in db.vehicles ==> s == Step(db, Ok(None))
    ensures id in db.vehicles ==>
              s.result == Ok(Some(db.vehicles[id].(owner := Some(newOwner))))
              && s.db.vehicles == db.vehicles[id := db.vehicles[id].(owner := Some(newOwner))]
    ensures Indexed(db) ==> Indexed(s.db)
  {
    if id !in db.vehicles then Step(db, Ok(None))
    else
      var vehicle := db.vehicles[id].(owner := Some(newOwner));
      Step(db.(vehicles := db.vehicles[id := vehicle]), Ok(Some(vehicle)))
  }

  /** After a transfer the vehicle is listed by the new owner's query and no
      longer by the old owner's. */
  lemma TransferMovesOwnedVehicle(db: Db, id: Id, oldOwner: Id, newOwner: Id)
    requires id in db.vehicles && db.vehicles[id].owner == Some(oldOwner) && oldOwner != newOwner
    ensures var after := TransferOwnershipStep(db, id, newOwner).db;
            id in VehiclesOwnedBy(after, newOwner) && id !in VehiclesOwnedBy(after, oldOwner)
  {
  }

  // ---------------------------------------------------------------- service records

  /** `addServiceRecord(vehicleId, record)`: a record with `type` empty is
      refused by validation and nothing changes. Otherwise the record is
      created with `vehicle = vehicleId` whether or not the vehicle exists, its
      id is pushed at the end of that vehicle's history when the vehicle
      exists, and the populated vehicle (null when it does not exist) is
      returned. */
  function AddServiceRecordStep(db: Db, vid: Id, input: RecordInput, newId: Id): (s: Step<Option<VehicleView>>)
    requires newId !in db.records
    ensures input.kind == "" <==> s.result.Err?
    ensures s.result.Err? ==> s == Step(db, Err(ValidationFailed("type")))
    ensures s.db.users == db.users
    ensures s.result.Ok? ==> s.db.records == db.records[newId := NewRecord(input, vid)]
                             && s.db.records[newId].vehicle == vid
    ensures s.result.Ok? && vid !in db.vehicles ==> s.db.vehicles == db.vehicles && s.result.value.None?
    ensures s.result.Ok? && vid in db.vehicles ==>
              s.db.vehicles == db.vehicles[vid := db.vehicles[vid].(serviceHistory := db.vehicles[vid].serviceHistory + [newId])]
    ensures s.result.Ok? ==> s.result.value == View(s.db, vid)
    ensures Indexed(db) ==> Indexed(s.db)
  {
    if input.kind == "" then Step(db, Err(ValidationFailed("type")))
    else
      var records := db.records[newId := NewRecord(input, vid)];
      var vehicles :=
        if vid in db.vehicles
        then db.vehicles[vid := db.vehicles[vid].(serviceHistory := db.vehicles[vid].serviceHistory + [newId])]
        else db.vehicles;
      var after := Db(db.users, vehicles, records);
      if vid in db.vehicles then
        SameVinKeepsVinsUnique(db.vehicles, vid, vehicles[vid]);
        Step(after, Ok(View(after, vid)))
      else Step(after, Ok(View(after, vid)))
  }

  /** Replacing a vehicle by one with the same VIN keeps the VIN index. */
  lemma SameVinKeepsVinsUnique(vehicles: map<Id, Vehicle>, vid: Id, v: Vehicle)
    requires vid in vehicles && v.vin == vehicles[vid].vin
    ensures VinsUnique(vehicles) ==> VinsUnique(vehicles[vid := v])
  {
    var after := vehicles[vid := v];
    assert forall x :: x in after ==> after[x].vin == vehicles[x].vin;
  }

  /** Round trip: after adding a record to an existing vehicle, the populated
      history it returns ends with exactly that record. */
  lemma AddedRecordEndsHistory(db: Db, vid: Id, input: RecordInput, newId: Id)
    requires newId !in db.records && vid in db.vehicles && input.kind != ""
    ensures var s := AddServiceRecordStep(db, vid, input, newId);
            s.result.Ok? && s.result.value.Some?
            && |s.result.value.value.history| > 0
            && s.result.value.value.history[|s.result.value.value.history| - 1] == (newId, NewRecord(input, vid))
  {
    var s := AddServiceRecordStep(db, vid, input, newId);
    PopulateAppend(s.db.records, db.vehicles[vid].serviceHistory, newId);
  }

  /** `removeServiceRecord(vehicleId, recordId)`: the record is deleted, every
      occurrence of its id leaves the named vehicle's history, and the
      populated vehicle (null when it does not exist) is returned. */
  function RemoveServiceRecordStep(db: Db, vid: Id, rid: Id): (s: Step<Option<VehicleView>>)
    ensures s.db.users == db.users && s.db.records == db.records - {rid}
    ensures s.db.vehicles.Keys == db.vehicles.Keys
    ensures forall v :: v in db.vehicles && v != vid ==> s.db.vehicles[v] == db.vehicles[v]
    ensures vid in db.vehicles ==>
              s.db.vehicles[vid] == db.vehicles[vid].(serviceHistory := Pull(db.vehicles[vid].serviceHistory, rid))
              && rid !in s.db.vehicles[vid].serviceHistory
    ensures s.result == Ok(View(s.db, vid))
    ensures Indexed(db) ==> Indexed(s.db)
  {
    var vehicles :=
      if vid in db.vehicles
      then db.vehicles[vid := db.vehicles[vid].(serviceHistory := Pull(db.vehicles[vid].serviceHistory, rid))]
      else db.vehicles;
    var after := Db(db.users, vehicles, db.records - {rid});
    if vid in db.vehicles then
      SameVinKeepsVinsUnique(db.vehicles, vid, vehicles[vid]);
      Step(after, Ok(View(after, vid)))
    else Step(after, Ok(View(after, vid)))
  }

  /** Removing the same record twice is removing it once. */
  lemma RemoveServiceRecordIdempotent(db: Db, vid: Id, rid: Id)
    ensures var once := RemoveServiceRecordStep(db, vid, rid);
            RemoveServiceRecordStep(once.db, vid, rid) == once
  {
    var once := RemoveServiceRecordStep(db, vid, rid);
    var twice := RemoveServiceRecordStep(once.db, vid, rid);
    assert twice.db.records == once.db.records;
    assert twice.db.vehicles == once.db.vehicles;
  }

  /** Round trip: after removing a record, the populated history returned no
      longer shows it. */
  lemma RemovedRecordLeavesHistory(db: Db, vid: Id, rid: Id)
    ensures var s := RemoveServiceRecordStep(db, vid, rid);
            s.result.Ok? && (s.result.value.Some? ==>
              forall k :: 0 <= k < |s.result.value.value.history| ==> s.result.value.value.history[k].0 != rid)
  {
  }

  /** `uploadInvoice(recordId, invoiceUrl)`: only that record's invoiceUrl
      changes; an unknown id changes nothing and returns null. */
  function UploadInvoiceStep(db: Db, rid: Id, url: string): (s: Step<Option<ServiceRecord>>)
    ensures s.db.users == db.users && s.db.vehicles == db.vehicles
    ensures rid !in db.records ==> s == Step(db, Ok(None))
    ensures rid in db.records ==>
              s.result == Ok(Some(db.records[rid].(invoiceUrl := Some(url))))
              && s.db.records == db.records[rid := db.records[rid].(invoiceUrl := Some(url))]
              && s.db.records[rid].vehicle == db.records[rid].vehicle
  {
    if rid !in db.records then Step(db, Ok(None))
    else
      var record := db.records[rid].(invoiceUrl := Some(url));
      Step(db.(records := db.records[rid := record]), Ok(Some(record)))
  }

  // ---------------------------------------------------------------- the store

  /** The three collections, updated in place by one method per mutation. */
  class Store {
    var users: map<Id, User>
    var vehicles: map<Id, Vehicle>
    var records: map<Id, ServiceRecord>

    function Snapshot(): Db
      reads this
    {
      Db(users, vehicles, records)
    }

    ghost predicate Valid()
      reads this
    {
      Indexed(Snapshot())
    }

    constructor ()
      ensures Valid() && Snapshot() == Db(map[], map[], map[])
    {
      users := map[];
      vehicles := map[];
      records := map[];
    }

    method RegisterUser(input: UserInput, newId: Id, jwt: Auth.Jwt, secret: string, now: int)
      returns (r: Result<AuthPayload>)
      requires Valid() && newId !in users
      modifies this
      ensures Valid()
      ensures Snapshot() == RegisterUserStep(old(Snapshot()), input, newId, jwt, secret, now).db
      ensures r == RegisterUserStep(old(Snapshot()), input, newId, jwt, secret, now).result
    {
      if EmailTaken(users, input.email) {
        return Err(PlainError("User already exists"));
      }
      var missing := MissingUserField(input);
      if missing.Some? {
        return Err(ValidationFailed(missing.value));
      }
      var user := NewUser(input);
      users := users[newId := user];
      var token := Auth.SignToken(jwt, user.firstName, user.lastName, user.email, newId, secret, now);
      return Ok(AuthPayload(token, newId, user));
    }

    method UpdateUser(id: Id, patch: UserPatch) returns (r: Result<Option<User>>)
      requires Valid()
      modifies this
      ensures Valid()
      ensures Snapshot() == UpdateUserStep(old(Snapshot()), id, patch).db
      ensures r == UpdateUserStep(old(Snapshot()), id, patch).result
    {
      if id !in users {
        return Ok(None);
      }
      if patch.email.Some? && EmailTakenByOther(users, id, patch.email.value) {
        return Err(DuplicateKey("email"));
      }
      var user := PatchUser(users[id], patch);
      users := users[id := user];
      return Ok(Some(user));
    }

    /** deleteUser as written: each listed vehicle is looked up and a local
        copy of it loses its owner, but no copy is saved. */
    method DeleteUser(id: Id) returns (r: Result<Option<User>>)
      requires Valid()
      modifies this
      ensures Valid()
      ensures Snapshot() == DeleteUserStep(old(Snapshot()), id).db
      ensures r == DeleteUserStep(old(Snapshot()), id).result
    {
      var found := FindUser(Snapshot(), id);
      if found.Some? {
        var listed := found.value.vehicles;
        var i := 0;
        while i < |listed|
          invariant 0 <= i <= |listed|
          invariant Snapshot() == old(Snapshot())
        {
          if listed[i] in vehicles {
            var vehicle := vehicles[listed[i]];
            vehicle := vehicle.(owner := None);
          }
          i := i + 1;
        }
      }
      users := users - {id};
      return Ok(found);
    }

    /** deleteUser as intended: each listed vehicle that exists is saved
        without an owner before the user is deleted. */
    method DeleteUserDetaching(id: Id) returns (r: Result<Option<User>>)
      requires Valid()
      modifies this
      ensures Valid()
      ensures Snapshot() == DeleteUserDetachingStep(old(Snapshot()), id).db
      ensures r == DeleteUserDetachingStep(old(Snapshot()), id).result
    {
      var found := FindUser(Snapshot(), id);
      if found.Some? {
        vehicles := DetachAll(vehicles, found.value.vehicles);
      }
      users := users - {id};
      return Ok(found);
    }

    method RegisterVehicle(ctx: Context, input: VehicleInput, newId: Id) returns (r: Result<Vehicle>)
      requires Valid() && newId !in vehicles
      modifies this
      ensures Valid()
      ensures Snapshot() == RegisterVehicleStep(old(Snapshot()), ctx, input, newId).db
      ensures r == RegisterVehicleStep(old(Snapshot()), ctx, input, newId).result
    {
      if ctx.None? {
        return Err(AuthenticationError("Not logged in"));
      }
      r := CreateVehicle(input, ctx.value.id, newId);
    }

    method AddVehicle(ownerId: Id, input: VehicleInput, newId: Id) returns (r: Result<Vehicle>)
      requires Valid() && newId !in vehicles
      modifies this
      ensures Valid()
      ensures Snapshot() == AddVehicleStep(old(Snapshot()), ownerId, input, newId).db
      ensures r == AddVehicleStep(old(Snapshot()), ownerId, input, newId).result
    {
      r := CreateVehicle(input, ownerId, newId);
    }

    /** `Vehicle.create`: validation, then the unique index, then the insert. */
    method CreateVehicle(input: VehicleInput, owner: Id, newId: Id) returns (r: Result<Vehicle>)
      requires Valid() && newId !in vehicles
      modifies this
      ensures Valid()
      ensures Snapshot() == CreateVehicleStep(old(Snapshot()), input, owner, newId).db
      ensures r == CreateVehicleStep(old(Snapshot()), input, owner, newId).result
    {
      var missing := MissingVehicleField(input);
      if missing.Some? {
        return Err(ValidationFailed(missing.value));
      }
      if VinTaken(vehicles, input.vin) {
        return Err(DuplicateKey("vin"));
      }
      var vehicle := NewVehicle(input, owner);
      vehicles := vehicles[newId := vehicle];
      return Ok(vehicle);
    }

    method UpdateVehicle(id: Id, patch: VehiclePatch) returns (r: Result<Option<Vehicle>>)
      requires Valid()
      modifies this
      ensures Valid()
      ensures Snapshot() == UpdateVehicleStep(old(Snapshot()), id, patch).db
      ensures r == UpdateVehicleStep(old(Snapshot()), id, patch).result
    {
      if id !in vehicles {
        return Ok(None);
      }
      if patch.vin.Some? && VinTakenByOther(vehicles, id, patch.vin.value) {
        return Err(DuplicateKey("vin"));
      }
      var vehicle := PatchVehicle(vehicles[id], patch);
      vehicles := vehicles[id := vehicle];
      return Ok(Some(vehicle));
    }

    method DeleteVehicle(id: Id) returns (r: Result<Option<Vehicle>>)
      requires Valid()
      modifies this
      ensures Valid()
      ensures Snapshot() == DeleteVehicleStep(old(Snapshot()), id).db
      ensures r == DeleteVehicleStep(old(Snapshot()), id).result
    {
      if id in vehicles {
        var owner := vehicles[id].owner;
        if owner.Some? && owner.value in users {
          var user := users[owner.value];
          users := users[owner.value := user.(vehicles := Pull(user.vehicles, id))];
        }
      }
      r := Ok(FindVehicle(Snapshot(), id));
      vehicles := vehicles - {id};
    }

    method TransferOwnership(id: Id, newOwner: Id) returns (r: Result<Option<Vehicle>>)
      requires Valid()
      modifies this
      ensures Valid()
      ensures Snapshot() == TransferOwnershipStep(old(Snapshot()), id, newOwner).db
      ensures r == TransferOwnershipStep(old(Snapshot()), id, newOwner).result
    {
      if id !in vehicles {
        return Ok(None);
      }
      var vehicle := vehicles[id].(owner := Some(newOwner));
      vehicles := vehicles[id := vehicle];
      return Ok(Some(vehicle));
    }

    method AddServiceRecord(vid: Id, input: RecordInput, newId: Id) returns (r: Result<Option<VehicleView>>)
      requires Valid() && newId !in records
      modifies this
      ensures Valid()
      ensures Snapshot() == AddServiceRecordStep(old(Snapshot()), vid, input, newId).db
      ensures r == AddServiceRecordStep(old(Snapshot()), vid, input, newId).result
    {
      if input.kind == "" {
        return Err(ValidationFailed("type"));
      }
      records := records[newId := NewRecord(input, vid)];
      if vid in vehicles {
        var vehicle := vehicles[vid];
        vehicles := vehicles[vid := vehicle.(serviceHistory := vehicle.serviceHistory + [newId])];
      }
      return Ok(View(Snapshot(), vid));
    }

    method RemoveServiceRecord(vid: Id, rid: Id) returns (r: Result<Option<VehicleView>>)
      requires Valid()
      modifies this
      ensures Valid()
      ensures Snapshot() == RemoveServiceRecordStep(old(Snapshot()), vid, rid).db
      ensures r == RemoveServiceRecordStep(old(Snapshot()), vid, rid).result
    {
      records := records - {rid};
      if vid in vehicles {
        var vehicle := vehicles[vid];
        vehicles := vehicles[vid := vehicle.(serviceHistory := Pull(vehicle.serviceHistory, rid))];
      }
      return Ok(View(Snapshot(), vid));
    }

    method UploadInvoice(rid: Id, url: string) returns (r: Result<Option<ServiceRecord>>)
      requires Valid()
      modifies this
      ensures Valid()
      ensures Snapshot() == UploadInvoiceStep(old(Snapshot()), rid, url).db
      ensures r == UploadInvoiceStep(old(Snapshot()), rid, url).result
    {
      if rid !in records {
        return Ok(None);
      }
      var record := records[rid].(invoiceUrl := Some(url));
      records := records[rid := record];
      return Ok(Some(record));
    }
  }
}
