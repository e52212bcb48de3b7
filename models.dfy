/** The documents of the three collections the resolvers work on (users,
    vehicles, service records), the inputs that create and patch them, and the
    required and unique paths of their schemas. */
module Models {
  import opened Common

  /** Document ids. The store's own ids are strings; nothing here depends on
      their shape. */
  type Id = string

  /** A bcrypt digest of a plaintext. The model never looks inside one: it only
      asks whether a stored password is the digest of a candidate. */
  datatype Digest = Digest(plaintext: string)

  /** What the password path of a user holds: a digest written by the
      pre-save hook, or raw text written by an update that bypasses the hook. */
  datatype StoredPassword = Hashed(digest: Digest) | Raw(text: string)

  /** The pre-save hook's `bcrypt.hash`. */
  function Hash(plaintext: string): StoredPassword {
    Hashed(Digest(plaintext))
  }

  /** `bcrypt.compare(candidate, stored)`: true exactly when `stored` is a
      digest of `candidate`; raw text is not a digest and matches nothing. */
  predicate PasswordMatches(candidate: string, stored: StoredPassword) {
    stored == Hash(candidate)
  }

  /** The Google credentials the calendar controller keeps on a user. */
  datatype GoogleLink = GoogleLink(
    accessToken: Option<string>,
    refreshToken: Option<string>,
    expiryDate: Option<int>)

  const Unlinked := GoogleLink(None, None, None)

  datatype User = User(
    firstName: string,
    lastName: string,
    email: string,
    password: StoredPassword,
    vehicles: seq<Id>,
    google: GoogleLink)

  datatype Vehicle = Vehicle(
    vin: string,
    make: string,
    model: string,
    year: int,
    mileage: int,
    color: Option<string>,
    owner: Option<Id>,
    serviceHistory: seq<Id>)

  datatype ServiceRecord = ServiceRecord(
    kind: string,
    date: Option<string>,
    cost: Option<int>,
    mileage: Option<int>,
    notes: Option<string>,
    shop: Option<string>,
    invoiceUrl: Option<string>,
    vehicle: Id)

  datatype UserInput = UserInput(firstName: string, lastName: string, email: string, password: string)

  datatype VehicleInput = VehicleInput(
    vin: string,
    make: string,
    model: string,
    year: int,
    mileage: Option<int>,
    color: Option<string>)

  datatype RecordInput = RecordInput(
    kind: string,
    date: Option<string>,
    cost: Option<int>,
    mileage: Option<int>,
    notes: Option<string>,
    shop: Option<string>)

  /** The fields an update sets; None leaves a field as it is. */
  datatype UserPatch = UserPatch(
    firstName: Option<string>,
    lastName: Option<string>,
    email: Option<string>,
    password: Option<string>)

  datatype VehiclePatch = VehiclePatch(
    vin: Option<string>,
    make: Option<string>,
    model: Option<string>,
    year: Option<int>,
    mileage: Option<int>,
    color: Option<string>)

  function GetOr<T>(o: Option<T>, default: T): T {
    match o
    case Some(v) => v
    case None => default
  }

  /** The first required user path (schema order) that is empty, if any; a
      required string path refuses the empty string. */
  function MissingUserField(input: UserInput): Option<string> {
    if input.email == "" then Some("email")
    else if input.password == "" then Some("password")
    else if input.firstName == "" then Some("firstName")
    else if input.lastName == "" then Some("lastName")
    else None
  }

  /** The first required vehicle path that is empty, if any (year is a number
      and always present). */
  function MissingVehicleField(input: VehicleInput): Option<string> {
    if input.vin == "" then Some("vin")
    else if input.make == "" then Some("make")
    else if input.model == "" then Some("model")
    else None
  }

  /** A new user: the password goes through the pre-save hook, no vehicles,
      no Google link. */
  function NewUser(input: UserInput): User {
    User(input.firstName, input.lastName, input.email, Hash(input.password), [], Unlinked)
  }

  /** A new vehicle from `{ ...input, owner }`: mileage defaults to 0 and the
      service history starts empty. */
  function NewVehicle(input: VehicleInput, owner: Id): Vehicle {
    Vehicle(input.vin, input.make, input.model, input.year, GetOr(input.mileage, 0),
            input.color, Some(owner), [])
  }

  /** A new record from `{ ...record, vehicle: vehicleId }`. */
  function NewRecord(input: RecordInput, vehicleId: Id): ServiceRecord {
    ServiceRecord(input.kind, input.date, input.cost, input.mileage, input.notes, input.shop,
                  None, vehicleId)
  }

  /** The unique index on users' email. */
  ghost predicate EmailsUnique(users: map<Id, User>) {
    forall a, b :: a in users && b in users && users[a].email == users[b].email ==> a == b
  }

  /** The unique index on vehicles' vin. */
  ghost predicate VinsUnique(vehicles: map<Id, Vehicle>) {
    forall a, b :: a in vehicles && b in vehicles && vehicles[a].vin == vehicles[b].vin ==> a == b
  }

  predicate EmailTaken(users: map<Id, User>, email: string) {
    exists id :: id in users && users[id].email == email
  }

  /** Some user other than `self` already has `email`. */
  predicate EmailTakenByOther(users: map<Id, User>, self: Id, email: string) {
    exists id :: id in users && id != self && users[id].email == email
  }

  predicate VinTaken(vehicles: map<Id, Vehicle>, vin: string) {
    exists id :: id in vehicles && vehicles[id].vin == vin
  }

  predicate VinTakenByOther(vehicles: map<Id, Vehicle>, self: Id, vin: string) {
    exists id :: id in vehicles && id != self && vehicles[id].vin == vin
  }
}
