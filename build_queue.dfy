/** The build-queue panel: the retry action and its simulated completion, and
    what each job's row shows. */
module BuildQueue {
  import opened Types
  import opened Store
  import opened DeploymentStatus

  /** `{ status: 'building', errorMessage: undefined }`. */
  const RetryPatch := NoChange.(status := Put(Building), errorMessage := Put(None))

  /** `{ status: 'live' }`. */
  const LivePatch := NoChange.(status := Put(Live))

  /** handleRetry's immediate update. */
  method Retry(store: AppStore, id: string)
    modifies store`buildJobs
    ensures store.buildJobs == UpdateJobs(old(store.buildJobs), id, RetryPatch)
  {
    store.UpdateBuildJob(id, RetryPatch);
  }

  /** The update handleRetry schedules for later. */
  method CompleteRetry(store: AppStore, id: string)
    modifies store`buildJobs
    ensures store.buildJobs == UpdateJobs(old(store.buildJobs), id, LivePatch)
  {
    store.UpdateBuildJob(id, LivePatch);
  }

  /** A retried job is building with no error message; after the scheduled
      update it is live with no error message; nothing else about it changes,
      and jobs with other ids are untouched throughout. */
  lemma {:induction false} RetryLifecycle(jobs: seq<BuildJob>, id: string)
    ensures var retried := UpdateJobs(jobs, id, RetryPatch);
      var done := UpdateJobs(retried, id, LivePatch);
      && |retried| == |jobs| && |done| == |jobs|
      && forall k :: 0 <= k < |jobs| ==>
        if jobs[k].id == id then
          && retried[k] == jobs[k].(status := Building, errorMessage := None)
          && done[k] == jobs[k].(status := Live, errorMessage := None)
        else retried[k] == jobs[k] && done[k] == jobs[k]
  {
    var retried := UpdateJobs(jobs, id, RetryPatch);
    UpdateJobsShape(jobs, id, RetryPatch);
    UpdateJobsShape(retried, id, LivePatch);
  }

  /** The look of a status: its icon, label text and colour class. */
  datatype StatusStyle = StatusStyle(icon: string, title: string, color: string)

  /** statusConfig as written: entries for four of the seven statuses. */
  function StatusStyleAsWritten(status: BuildStatus): (r: Option<StatusStyle>)
    ensures r.Some? <==> status in {Queued, Building, Live, Error}
  {
    match status
    case Queued => Some(StatusStyle("Clock", "Queued", "text-muted-foreground"))
    case Building => Some(StatusStyle("Loader2", "Building", "text-warning"))
    case Live => Some(StatusStyle("CheckCircle", "Live", "text-success"))
    case Error => Some(StatusStyle("XCircle", "Error", "text-destructive"))
    case _ => None
  }

  /** statusConfig completed: the three pipeline stages take the building
      entry's icon, label and colour. The icon spins only for 'building' itself,
      since the row decides that from the status, not from the table. */
  function StatusStyleOf(status: BuildStatus): (r: StatusStyle)
    ensures StatusStyleAsWritten(status).Some? ==> r == StatusStyleAsWritten(status).value
    ensures StatusStyleAsWritten(status).None? ==> r == StatusStyleAsWritten(Building).value
  {
    match status
    case Queued => StatusStyle("Clock", "Queued", "text-muted-foreground")
    case Live => StatusStyle("CheckCircle", "Live", "text-success")
    case Error => StatusStyle("XCircle", "Error", "text-destructive")
    case _ => StatusStyle("Loader2", "Building", "text-warning")
  }

  /** The row drawn for one job. */
  datatype Row = Row(
    businessName: string,
    style: StatusStyle,
    spinning: bool,
    errorText: Option<string>,
    previewLink: Option<string>,
    retryOffered: bool)

  /** The error text shows only for a failed job that has a message. */
  predicate ShowsError(job: BuildJob) {
    job.status == Error && Truthy(job.errorMessage)
  }

  /** The preview link and View button show only for a live job with a preview URL. */
  predicate ShowsPreview(job: BuildJob) {
    job.status == Live && Truthy(job.previewUrl)
  }

  function RowOf(job: BuildJob, style: StatusStyle): (r: Row)
    ensures r.businessName == job.businessName && r.style == style
    ensures r.spinning <==> job.status == Building
    ensures r.errorText.Some? <==> ShowsError(job)
    ensures r.errorText.Some? ==> r.errorText == job.errorMessage
    ensures r.previewLink.Some? <==> ShowsPreview(job)
    ensures r.previewLink.Some? ==> r.previewLink.value == "https://" + job.previewUrl.value
    ensures r.retryOffered <==> job.status == Error
  {
    Row(job.businessName, style, job.status == Building,
        if ShowsError(job) then job.errorMessage else None,
        if ShowsPreview(job) then Some("https://" + job.previewUrl.value) else None,
        job.status == Error)
  }

  /** The list as written: a job without a statusConfig entry makes the whole
      list fail to draw (`config.icon` of undefined), shown here as None. */
  function RenderAsWritten(jobs: seq<BuildJob>): (r: Option<seq<Row>>)
    ensures r.Some? <==> forall k :: 0 <= k < |jobs| ==> StatusStyleAsWritten(jobs[k].status).Some?
    ensures r.Some? ==> |r.value| == |jobs|
    decreases |jobs|
  {
    if jobs == [] then Some([])
    else match StatusStyleAsWritten(jobs[0].status)
      case None => None
      case Some(style) =>
        match RenderAsWritten(jobs[1..])
        case None => None
        case Some(rest) => Some([RowOf(jobs[0], style)] + rest)
  }

  /** The list with the completed table: one row per job, in store order. */
  function Render(jobs: seq<BuildJob>): (r: seq<Row>)
    ensures |r| == |jobs|
    ensures forall k :: 0 <= k < |jobs| ==> r[k] == RowOf(jobs[k], StatusStyleOf(jobs[k].status))
  {
    seq(|jobs|, k requires 0 <= k < |jobs| => RowOf(jobs[k], StatusStyleOf(jobs[k].status)))
  }

  /** Where the written table has an entry, both renderings agree. */
  lemma {:induction false} RenderAgrees(jobs: seq<BuildJob>)
    requires RenderAsWritten(jobs).Some?
    ensures RenderAsWritten(jobs).value == Render(jobs)
    decreases |jobs|
  {
    if jobs != [] {
      RenderAgrees(jobs[1..]);
    }
  }

  /** Retry is offered exactly for failed jobs, and a retried job offers no retry
      and shows no error. */
  lemma RetryHidesError(job: BuildJob)
    ensures !RowOf(Merge(job, RetryPatch), StatusStyleOf(Building)).retryOffered
    ensures RowOf(Merge(job, RetryPatch), StatusStyleOf(Building)).errorText == None
  {
  }

  /** With the completed table a job in a pipeline stage looks like a build,
      yet only a job that is 'building' gets the spinning icon. */
  lemma PipelineStagesDoNotSpin(job: BuildJob)
    requires job.status in {AutoDeploying, GithubCreating, RenderProvisioning}
    ensures var r := RowOf(job, StatusStyleOf(job.status));
      r.style == StatusStyleAsWritten(Building).value && !r.spinning
  {
  }

  /** A 'deploying' callback handled against the table the panel draws leaves
      its job auto-deploying, a status the written table has no entry for:
      from then on the list cannot be drawn. */
  lemma DeployingCallbackBreaksList(jobs: seq<BuildJob>, payload: Payload, secret: Option<string>, configured: string, i: nat)
    requires ValidateWebhookAuth(configured, secret) && payload.Fields?
    requires Truthy(payload.businessId) && payload.status == Some("deploying")
    requires FirstJobFor(jobs, payload.businessId.value) == Some(i)
    ensures var after := Handle(jobs, payload, secret, configured).jobs;
      i < |after| && after[i].status == AutoDeploying
      && RenderAsWritten(after) == None
      && |Render(after)| == |jobs|
  {
    ProcessedUpdatesFirstJob(jobs, payload, secret, configured, i);
  }
}
