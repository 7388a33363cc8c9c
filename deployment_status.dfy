/** The inbound deployment-status handler: shared-secret check, payload check,
    translation of the sender's status words, and the merge of the result into
    the first build job of the business, followed by a notification. */
module DeploymentStatus {
  import opened Types
  import opened Store
  import opened Text

  /** The request body as the handler receives it: JSON `null`, or an object
      whose fields may be missing. (A JSON value of another kind reads like an
      object with every field missing.) */
  datatype Payload =
    | NullPayload
    | Fields(businessId: Option<string>, status: Option<string>, renderUrl: Option<string>,
             error: Option<string>, timestamp: Option<string>)

  datatype HandlerResult = HandlerResult(success: bool, message: string)

  const Unauthorized := HandlerResult(false, "Unauthorized")
  const InvalidPayload := HandlerResult(false, "Invalid payload")
  const NoMatchingJob := HandlerResult(true, "Status received (no matching build job)")
  const Processed := HandlerResult(true, "Status received and processed")
  const ProcessingError := HandlerResult(true, "Status received (processing error logged)")

  /** A notification shown to the operator. */
  datatype Toast = Toast(title: string, description: string, destructive: bool, durationMs: nat)

  /** The secret is accepted only when one is configured, one is supplied, and they agree. */
  function ValidateWebhookAuth(configured: string, secret: Option<string>): (ok: bool)
    ensures ok <==> configured != "" && secret.Some? && secret.value != "" && secret.value == configured
  {
    if configured == "" then false
    else if !Truthy(secret) then false
    else secret.value == configured
  }

  /** The sender's status words onto the build-job status. */
  function MapDeploymentStatus(status: string): (r: BuildStatus)
    ensures r == Live <==> status == "live"
    ensures r == Error <==> status == "failed"
    ensures r == AutoDeploying <==> status == "deploying"
    ensures r == Queued <==> status != "live" && status != "failed" && status != "deploying"
  {
    match status
    case "live" => Live
    case "failed" => Error
    case "deploying" => AutoDeploying
    case "pending" => Queued
    case _ => Queued
  }

  /** The index of the first job of the business (`buildJobs.find`). */
  function FirstJobFor(jobs: seq<BuildJob>, businessId: string): (r: Option<nat>)
    ensures r.Some? ==> r.value < |jobs| && jobs[r.value].businessId == businessId
    ensures r.Some? ==> forall k :: 0 <= k < r.value ==> jobs[k].businessId != businessId
    ensures r.None? ==> forall k :: 0 <= k < |jobs| ==> jobs[k].businessId != businessId
    decreases |jobs|
  {
    if jobs == [] then None
    else if jobs[0].businessId == businessId then Some(0)
    else match FirstJobFor(jobs[1..], businessId)
      case None => None
      case Some(k) => Some(k + 1)
  }

  /** The update object built from a valid payload. */
  function WebhookPatch(status: string, renderUrl: Option<string>, error: Option<string>): (u: JobPatch)
    ensures u.status == Put(MapDeploymentStatus(status)) && u.deploymentStatus == Put(Some(status))
    ensures u.previewUrl.Put? <==> Truthy(renderUrl)
    ensures u.previewUrl.Put? ==> u.previewUrl.value == renderUrl
    ensures u.errorMessage.Put? <==> status == "failed" && Truthy(error)
    ensures u.errorMessage.Put? ==> u.errorMessage.value == error
    ensures u.id.Keep? && u.businessId.Keep? && u.businessName.Keep? && u.package.Keep?
    ensures u.amount.Keep? && u.paymentStatus.Keep? && u.triggeredAt.Keep?
  {
    NoChange.(
      status := Put(MapDeploymentStatus(status)),
      deploymentStatus := Put(Some(status)),
      previewUrl := if Truthy(renderUrl) then Put(renderUrl) else Keep,
      errorMessage := if status == "failed" && Truthy(error) then Put(error) else Keep)
  }

  /** The notification issued after an update, chosen by the raw status word only.
      The 'live' title ends in the four characters the source file stores there
      (the party-popper emoji's UTF-8 bytes read as Windows-1252). */
  function StatusToast(status: string, businessName: string, error: Option<string>): (t: Option<Toast>)
    ensures t.Some? <==> status == "live" || status == "failed" || status == "deploying"
    ensures t.Some? ==> (t.value.destructive <==> status == "failed")
    ensures status == "failed" ==> t.value.description == OrElse(error, "An error occurred during deployment")
    ensures t.Some? && status != "failed" ==> StartsWith(t.value.description, businessName)
    ensures t.Some? ==> t.value.durationMs == (if status == "live" then 5000 else if status == "failed" then 7000 else 3000)
  {
    if status == "live" then
      Some(Toast("Website Live! \U{00F0}\U{0178}\U{017D}\U{2030}", businessName + " is now deployed", false, 5000))
    else if status == "failed" then
      Some(Toast("Deployment Failed", OrElse(error, "An error occurred during deployment"), true, 7000))
    else if status == "deploying" then
      Some(Toast("Deploying...", businessName + " deployment is in progress", false, 3000))
    else None
  }

  /** The outcome of one delivery: the result, the new job table, the notification. */
  datatype Handled = Handled(result: HandlerResult, jobs: seq<BuildJob>, toast: Option<Toast>)

  /** handleDeploymentStatusWebhook as a function of the job table it reads. */
  function Handle(jobs: seq<BuildJob>, payload: Payload, secret: Option<string>, configured: string): (h: Handled)
    ensures |h.jobs| == |jobs|
  {
    if !ValidateWebhookAuth(configured, secret) then Handled(Unauthorized, jobs, None)
    else if payload.NullPayload? then Handled(ProcessingError, jobs, None)
    else if !Truthy(payload.businessId) || !Truthy(payload.status) then Handled(InvalidPayload, jobs, None)
    else match FirstJobFor(jobs, payload.businessId.value)
      case None => Handled(NoMatchingJob, jobs, None)
      case Some(i) =>
        var status := payload.status.value;
        Handled(
          Processed,
          UpdateJobs(jobs, jobs[i].id, WebhookPatch(status, payload.renderUrl, payload.error)),
          StatusToast(status, jobs[i].businessName, payload.error))
  }

  /** A rejected secret answers 'Unauthorized' and leaves the table as it was. */
  lemma UnauthorizedChangesNothing(jobs: seq<BuildJob>, payload: Payload, secret: Option<string>, configured: string)
    requires !ValidateWebhookAuth(configured, secret)
    ensures Handle(jobs, payload, secret, configured) == Handled(Unauthorized, jobs, None)
  {
  }

  /** Only the 'processed' outcome changes the table or notifies. */
  lemma OnlyProcessedChangesJobs(jobs: seq<BuildJob>, payload: Payload, secret: Option<string>, configured: string)
    ensures var h := Handle(jobs, payload, secret, configured);
      h.result != Processed ==> h.jobs == jobs && h.toast == None
    ensures var h := Handle(jobs, payload, secret, configured);
      h.result == Unauthorized || h.result == InvalidPayload || h.result == NoMatchingJob
      || h.result == Processed || h.result == ProcessingError
  {
  }

  /** With the secret accepted: a missing business id or status is rejected,
      a `null` body (which throws inside the handler) is still acknowledged,
      and an unknown business is acknowledged without any change. */
  lemma AcceptedSecretOutcomes(jobs: seq<BuildJob>, payload: Payload, secret: Option<string>, configured: string)
    requires ValidateWebhookAuth(configured, secret)
    ensures var h := Handle(jobs, payload, secret, configured);
      && (payload.NullPayload? ==> h.result == ProcessingError)
      && (payload.Fields? && (!Truthy(payload.businessId) || !Truthy(payload.status)) ==> h.result == InvalidPayload)
      && (payload.Fields? && Truthy(payload.businessId) && Truthy(payload.status) ==>
            (h.result == NoMatchingJob <==> forall k :: 0 <= k < |jobs| ==> jobs[k].businessId != payload.businessId.value))
      && h.result.success == (payload.NullPayload? || (Truthy(payload.businessId) && Truthy(payload.status)))
  {
  }

  /** A processed delivery rewrites the first job of the business: status is the
      mapped word, deploymentStatus the raw word, the preview URL only when one
      was sent, the error message only for 'failed' with an error; nothing else
      in it changes. Jobs with another id are untouched. */
  lemma {:induction false} ProcessedUpdatesFirstJob(jobs: seq<BuildJob>, payload: Payload, secret: Option<string>, configured: string, i: nat)
    requires ValidateWebhookAuth(configured, secret) && payload.Fields?
    requires Truthy(payload.businessId) && Truthy(payload.status)
    requires FirstJobFor(jobs, payload.businessId.value) == Some(i)
    ensures var h := Handle(jobs, payload, secret, configured);
      var old_ := jobs[i];
      var new_ := h.jobs[i];
      && h.result == Processed
      && |h.jobs| == |jobs|
      && i < |jobs| && old_.businessId == payload.businessId.value
      && new_.status == MapDeploymentStatus(payload.status.value)
      && new_.deploymentStatus == payload.status
      && new_.previewUrl == (if Truthy(payload.renderUrl) then payload.renderUrl else old_.previewUrl)
      && new_.errorMessage == (if payload.status.value == "failed" && Truthy(payload.error) then payload.error else old_.errorMessage)
      && new_.(status := old_.status, deploymentStatus := old_.deploymentStatus,
               previewUrl := old_.previewUrl, errorMessage := old_.errorMessage) == old_
      && (forall k :: 0 <= k < |jobs| && jobs[k].id != old_.id ==> h.jobs[k] == jobs[k])
  {
    UpdateJobsShape(jobs, jobs[i].id, WebhookPatch(payload.status.value, payload.renderUrl, payload.error));
  }

  /** When job ids are distinct, the first job of the business is the only one that changes. */
  lemma OnlyFirstJobChanges(jobs: seq<BuildJob>, payload: Payload, secret: Option<string>, configured: string, i: nat)
    requires forall a, b :: 0 <= a < b < |jobs| ==> jobs[a].id != jobs[b].id
    requires ValidateWebhookAuth(configured, secret) && payload.Fields?
    requires Truthy(payload.businessId) && Truthy(payload.status)
    requires FirstJobFor(jobs, payload.businessId.value) == Some(i)
    ensures forall k :: 0 <= k < |jobs| && k != i ==> Handle(jobs, payload, secret, configured).jobs[k] == jobs[k]
  {
    ProcessedUpdatesFirstJob(jobs, payload, secret, configured, i);
  }

  /** A redelivered callback leaves the table as one delivery did, and it
      notifies again, with the same notification: there is no old-versus-new check. */
  lemma {:induction false} RedeliveryIdempotent(jobs: seq<BuildJob>, payload: Payload, secret: Option<string>, configured: string)
    ensures var once := Handle(jobs, payload, secret, configured);
      var twice := Handle(once.jobs, payload, secret, configured);
      twice.jobs == once.jobs && twice.result == once.result && twice.toast == once.toast
  {
    var once := Handle(jobs, payload, secret, configured);
    if ValidateWebhookAuth(configured, secret) && payload.Fields?
       && Truthy(payload.businessId) && Truthy(payload.status)
       && FirstJobFor(jobs, payload.businessId.value).Some?
    {
      var i := FirstJobFor(jobs, payload.businessId.value).value;
      var u := WebhookPatch(payload.status.value, payload.renderUrl, payload.error);
      UpdateJobsShape(jobs, jobs[i].id, u);
      UpdateJobsIdempotent(jobs, jobs[i].id, u);
      // the patch touches neither ids nor business ids nor names, so the second
      // delivery finds the same job
      assert forall k :: 0 <= k < |jobs| ==>
        once.jobs[k].businessId == jobs[k].businessId && once.jobs[k].id == jobs[k].id
        && once.jobs[k].businessName == jobs[k].businessName;
      FirstJobForSameKeys(jobs, once.jobs, payload.businessId.value);
    }
  }

  /** Two tables with the same business ids, position by position, have the same first match. */
  lemma {:induction false} FirstJobForSameKeys(a: seq<BuildJob>, b: seq<BuildJob>, businessId: string)
    requires |a| == |b|
    requires forall k :: 0 <= k < |a| ==> a[k].businessId == b[k].businessId
    ensures FirstJobFor(a, businessId) == FirstJobFor(b, businessId)
    decreases |a|
  {
    if a != [] {
      FirstJobForSameKeys(a[1..], b[1..], businessId);
    }
  }

  /** handleDeploymentStatusWebhook: builds the update field by field and
      applies it through the store. */
  method HandleDeploymentStatusWebhook(store: AppStore, payload: Payload, secret: Option<string>, configured: string)
    returns (result: HandlerResult, toast: Option<Toast>)
    modifies store`buildJobs
    ensures var h := Handle(old(store.buildJobs), payload, secret, configured);
      result == h.result && toast == h.toast && store.buildJobs == h.jobs
  {
    if !ValidateWebhookAuth(configured, secret) {
      return Unauthorized, None;
    }
    if payload.NullPayload? {
      // reading a field of null throws; the catch acknowledges the delivery
      return ProcessingError, None;
    }
    if !Truthy(payload.businessId) || !Truthy(payload.status) {
      return InvalidPayload, None;
    }
    var index := FirstJobFor(store.buildJobs, payload.businessId.value);
    if index.None? {
      return NoMatchingJob, None;
    }
    var buildJob := store.buildJobs[index.value];
    var status := payload.status.value;
    var updates := NoChange.(status := Put(MapDeploymentStatus(status)), deploymentStatus := Put(Some(status)));
    if Truthy(payload.renderUrl) {
      updates := updates.(previewUrl := Put(payload.renderUrl));
    }
    if status == "failed" && Truthy(payload.error) {
      updates := updates.(errorMessage := Put(payload.error));
    }
    store.UpdateBuildJob(buildJob.id, updates);
    toast := StatusToast(status, buildJob.businessName, payload.error);
    result := Processed;
  }

  /** An inbound request: the secret header, and the body, which may not parse as JSON. */
  datatype RequestBody = Unparsable | Body(payload: Payload)
  datatype WebhookRequest = WebhookRequest(secretHeader: Option<string>, body: RequestBody)

  datatype ParseResult = ParseResult(success: bool, message: string, data: Option<Payload>)

  /** The outcome of parseDeploymentStatusRequest: its result and the new job table. */
  datatype Received = Received(result: ParseResult, jobs: seq<BuildJob>)

  /** parseDeploymentStatusRequest as a function of the job table. The body is
      parsed before the secret is looked at. */
  function Receive(jobs: seq<BuildJob>, request: WebhookRequest, configured: string): (r: Received)
    ensures request.body.Unparsable? ==> r.result == ParseResult(false, "Invalid JSON payload", None) && r.jobs == jobs
    ensures request.body.Body? ==>
      var h := Handle(jobs, request.body.payload, request.secretHeader, configured);
      r.result.success == h.result.success && r.result.message == h.result.message
      && r.result.data == Some(request.body.payload) && r.jobs == h.jobs
  {
    match request.body
    case Unparsable => Received(ParseResult(false, "Invalid JSON payload", None), jobs)
    case Body(p) =>
      var h := Handle(jobs, p, request.secretHeader, configured);
      Received(ParseResult(h.result.success, h.result.message, Some(p)), h.jobs)
  }

  method ParseDeploymentStatusRequest(store: AppStore, request: WebhookRequest, configured: string)
    returns (result: ParseResult)
    modifies store`buildJobs
    ensures var r := Receive(old(store.buildJobs), request, configured);
      result == r.result && store.buildJobs == r.jobs
  {
    var secret := request.secretHeader;
    if request.body.Unparsable? {
      return ParseResult(false, "Invalid JSON payload", None);
    }
    var payload := request.body.payload;
    var handled, _ := HandleDeploymentStatusWebhook(store, payload, secret, configured);
    result := ParseResult(handled.success, handled.message, Some(payload));
  }
}
