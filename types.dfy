/** Shared data model of the dashboard: build jobs, businesses, call logs,
    daily counters, and the shape of an outbound HTTP call's outcome. */
module Types {

  /** A value that may be absent (`undefined` / `null` in the source). */
  datatype Option<+T> = None | Some(value: T) {
    function GetOr(default: T): T {
      match this
      case Some(v) => v
      case None => default
    }
  }

  /** JavaScript truthiness of an optional string: absent and '' are both falsy. */
  predicate Truthy(s: Option<string>) {
    s.Some? && s.value != ""
  }

  /** `s || fallback` for an optional string. */
  function OrElse(s: Option<string>, fallback: string): string {
    if Truthy(s) then s.value else fallback
  }

  /** One key of a `Partial<...>` update object: the key is absent, or present
      with a value (for an optional field the value may itself be `undefined`). */
  datatype Patch<+T> = Keep | Put(value: T)

  function Apply<T>(p: Patch<T>, current: T): T {
    match p
    case Keep => current
    case Put(v) => v
  }

  /** The key of `{...first, ...second}`: the later object wins where it has the key. */
  function Then<T>(first: Patch<T>, second: Patch<T>): Patch<T> {
    if second.Put? then second else first
  }

  /** The seven build statuses the code writes and its tests enumerate. */
  datatype BuildStatus =
    | Queued
    | Building
    | GithubCreating
    | RenderProvisioning
    | AutoDeploying
    | Live
    | Error

  datatype PaymentStatus = Pending | Paid | Failed

  /** A build job with every field the components and the webhook handler write.
      `triggeredAt` is a millisecond timestamp; `deploymentStatus` is the raw
      status word of the last deployment callback. */
  datatype BuildJob = BuildJob(
    id: string,
    businessId: string,
    businessName: string,
    package: string,
    amount: real,
    status: BuildStatus,
    paymentStatus: PaymentStatus,
    triggeredAt: int,
    previewUrl: Option<string>,
    errorMessage: Option<string>,
    deploymentStatus: Option<string>)

  /** `Partial<BuildJob>`: which fields an update carries, and their new values. */
  datatype JobPatch = JobPatch(
    id: Patch<string>,
    businessId: Patch<string>,
    businessName: Patch<string>,
    package: Patch<string>,
    amount: Patch<real>,
    status: Patch<BuildStatus>,
    paymentStatus: Patch<PaymentStatus>,
    triggeredAt: Patch<int>,
    previewUrl: Patch<Option<string>>,
    errorMessage: Patch<Option<string>>,
    deploymentStatus: Patch<Option<string>>)

  /** The empty update object `{}`. */
  const NoChange := JobPatch(Keep, Keep, Keep, Keep, Keep, Keep, Keep, Keep, Keep, Keep, Keep)

  /** A prospect business. `status` is whatever text the data source held
      (it is cast, never checked), and is absent on the built-in sample list. */
  datatype Business = Business(
    id: string,
    name: string,
    phone: string,
    address: string,
    rating: real,
    placeId: string,
    notes: string,
    description: string,
    status: Option<string>)

  datatype CallOutcome = Answered | NoAnswer | Callback | NotInterested | Interested

  /** A logged call; `followUpDate` keeps the entered date text, `loggedAt` a timestamp. */
  datatype CallLog = CallLog(
    id: string,
    businessId: string,
    businessName: string,
    outcome: CallOutcome,
    notes: string,
    followUpDate: Option<string>,
    loggedAt: int)

  datatype DailyStats = DailyStats(leadsToday: nat, callsMade: nat, conversions: nat, sitesBuilt: nat)

  /** `keyof DailyStats`. */
  datatype StatKey = LeadsToday | CallsMade | Conversions | SitesBuilt

  /** A thrown value: an `Error` instance (with its message) or anything else. */
  datatype Thrown = ErrorObject(message: string) | OtherValue

  /** `error instanceof Error ? error.message : fallback`. */
  function MessageOr(e: Thrown, fallback: string): string {
    match e
    case ErrorObject(m) => m
    case OtherValue => fallback
  }

  /** The JSON body of a response: parsed into the fields the caller reads, or not JSON. */
  datatype Json<+D> = Parsed(data: D) | Malformed(error: Thrown)

  /** What one `fetch` produced: a response with its status and body, or a thrown
      value (network failure, abort on timeout). */
  datatype Outcome<+D> = Responded(status: nat, body: Json<D>) | Threw(error: Thrown)

  /** `response.ok`. */
  predicate IsOk(status: nat) {
    200 <= status <= 299
  }
}
