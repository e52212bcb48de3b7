/** The `vehicleParts` query in its two versions: the guard of
    app/dist/app/src/schemas/resolvers.js, which refuses a request without a
    VIN or a full make/model/year before calling the parts service, and the
    one of server/src/schemas/resolvers.ts, which reports every failure,
    its own guard's included, as one generic error. */
module VehicleParts {
  import opened Common

  /** The query arguments; "" and 0 stand for an absent argument, since
      JavaScript treats both, like undefined, as false. */
  datatype PartsArgs = PartsArgs(vin: string, make: string, model: string, year: int, kind: string)

  /** What the parts service (getVehicleParts) does with a request: return a
      list of parts, or throw. */
  datatype Upstream = Parts(items: seq<string>) | Threw(failure: Failure)

  /** `!args.vin && (!args.make || !args.model || !args.year)`. */
  predicate MissingIdentifier(args: PartsArgs) {
    args.vin == "" && (args.make == "" || args.model == "" || args.year == 0)
  }

  /** The app's resolver: the guard's error when no vehicle is named; otherwise
      whatever the parts service returns or throws, unchanged. */
  function AppVehicleParts(args: PartsArgs, fetch: PartsArgs -> Upstream): (r: Result<seq<string>>)
    ensures MissingIdentifier(args) ==> r == Err(PlainError("Provide a VIN or full vehicle info."))
    ensures args.vin != "" || (args.make != "" && args.model != "" && args.year != 0) ==>
              r == (if fetch(args).Parts? then Ok(fetch(args).items) else Err(fetch(args).failure))
    ensures !MissingIdentifier(args) && fetch(args).Parts? ==> r == Ok(fetch(args).items)
    ensures !MissingIdentifier(args) && fetch(args).Threw? ==> r == Err(fetch(args).failure)
  {
    if MissingIdentifier(args) then Err(PlainError("Provide a VIN or full vehicle info."))
    else match fetch(args)
      case Parts(items) => Ok(items)
      case Threw(failure) => Err(failure)
  }

  /** The guard stops a request before the parts service is asked: the
      outcome is the same whatever the service would have done. */
  lemma AppGuardCallsNothing(args: PartsArgs, fetch1: PartsArgs -> Upstream, fetch2: PartsArgs -> Upstream)
    requires MissingIdentifier(args)
    ensures AppVehicleParts(args, fetch1) == AppVehicleParts(args, fetch2)
  {
  }

  /** The server's resolver: the guard's error and every error of the parts
      service are caught and replaced by 'Failed to fetch vehicle parts.'. */
  function ServerVehicleParts(args: PartsArgs, fetch: PartsArgs -> Upstream): (r: Result<seq<string>>)
    ensures r.Err? <==> MissingIdentifier(args) || fetch(args).Threw?
    ensures r.Err? ==> r.error == PlainError("Failed to fetch vehicle parts.")
    ensures r.Ok? ==> r.value == fetch(args).items
  {
    if MissingIdentifier(args) then Err(PlainError("Failed to fetch vehicle parts."))
    else match fetch(args)
      case Parts(items) => Ok(items)
      case Threw(_) => Err(PlainError("Failed to fetch vehicle parts."))
  }

  /** A caller of the server cannot tell a request that names no vehicle
      from one the parts service failed on. */
  lemma ServerHidesGuard(args1: PartsArgs, args2: PartsArgs, fetch: PartsArgs -> Upstream)
    requires MissingIdentifier(args1)
    requires !MissingIdentifier(args2) && fetch(args2).Threw?
    ensures ServerVehicleParts(args1, fetch) == ServerVehicleParts(args2, fetch)
  {
  }

  /** Both versions refuse the same requests for want of an identifier, and
      agree whenever the parts service answers. */
  lemma VersionsAgreeOnSuccess(args: PartsArgs, fetch: PartsArgs -> Upstream)
    requires !MissingIdentifier(args) && fetch(args).Parts?
    ensures AppVehicleParts(args, fetch) == ServerVehicleParts(args, fetch) == Ok(fetch(args).items)
  {
  }
}
