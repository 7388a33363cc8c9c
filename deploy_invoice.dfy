/** The deploy-and-invoice panel: the amount to charge, and the life of the
    build job it creates, split at its await and timer points into three steps:
    start (guards, new job, busy flag), finish (the call's result applied) and
    the simulated completion three seconds later. */
module DeployInvoice {
  import opened Types
  import opened Text
  import opened Store
  import opened Outbound

  /** getAmount. `customParsed` is `parseFloat(customAmount)` (None for NaN);
      `prices` holds the package prices of the package list. */
  function GetAmount(selectedPackage: Option<string>, customParsed: Option<real>, prices: map<string, real>): (amount: real)
    ensures selectedPackage == Some("Custom") ==> amount == (if customParsed.Some? then customParsed.value else 0.0)
    ensures selectedPackage != Some("Custom") && selectedPackage.Some? && selectedPackage.value in prices ==>
      amount == prices[selectedPackage.value]
    ensures selectedPackage != Some("Custom") && !(selectedPackage.Some? && selectedPackage.value in prices) ==> amount == 0.0
  {
    if selectedPackage == Some("Custom") then
      if customParsed.Some? then customParsed.value else 0.0
    else if selectedPackage.Some? && selectedPackage.value in prices then prices[selectedPackage.value]
    else 0.0
  }

  /** A positive amount comes either from a positive custom entry or from a
      listed package with a positive price: an unlisted package never deploys. */
  lemma PositiveAmountSource(selectedPackage: Option<string>, customParsed: Option<real>, prices: map<string, real>)
    requires GetAmount(selectedPackage, customParsed, prices) > 0.0
    ensures selectedPackage.Some?
    ensures selectedPackage.value == "Custom" ==> customParsed.Some? && customParsed.value > 0.0
    ensures selectedPackage.value != "Custom" ==> selectedPackage.value in prices && prices[selectedPackage.value] > 0.0
  {
  }

  /** The job the panel adds before calling the deploy webhook. */
  function NewJob(jobId: string, business: Business, package: string, amount: real, now: int): (job: BuildJob)
    ensures job.id == jobId && job.businessId == business.id && job.businessName == business.name
    ensures job.package == package && job.amount == amount && job.triggeredAt == now
    ensures job.status == Queued && job.paymentStatus == Pending
    ensures job.previewUrl == None && job.errorMessage == None && job.deploymentStatus == None
  {
    BuildJob(jobId, business.id, business.name, package, amount, Queued, Pending, now, None, None, None)
  }

  /** How the awaited deploy call ended: with a result, or by throwing. */
  datatype DeployCall = Returned(result: DeployResult) | Raised

  /** The update the panel applies when the call ends. */
  function FinishPatch(call: DeployCall): (u: JobPatch)
    ensures call.Returned? && call.result.success ==>
      u == NoChange.(status := Put(Building), previewUrl := Put(call.result.previewUrl))
    ensures call.Returned? && !call.result.success ==>
      u == NoChange.(status := Put(Error), errorMessage := Put(Some(OrElse(call.result.error, "Deployment failed"))))
    ensures call.Raised? ==> u == NoChange.(status := Put(Error), errorMessage := Put(Some("Network error")))
  {
    match call
    case Returned(result) =>
      if result.success then NoChange.(status := Put(Building), previewUrl := Put(result.previewUrl))
      else NoChange.(status := Put(Error), errorMessage := Put(Some(OrElse(result.error, "Deployment failed"))))
    case Raised => NoChange.(status := Put(Error), errorMessage := Put(Some("Network error")))
  }

  /** `{ status: 'live' }`, applied by the simulated completion. */
  const CompletePatch := NoChange.(status := Put(Live))

  /** The summary the panel shows after a successful call. */
  datatype DeployView = DeployView(paymentLink: Option<string>, buildStatus: BuildStatus, paymentStatus: PaymentStatus, previewUrl: Option<string>)

  /** The job and view a started deploy works on. */
  datatype Started = Started(jobId: string, amount: real)

  class DeployInvoicePanel {
    const store: AppStore
    var selectedPackage: Option<string>
    var email: string
    var isDeploying: bool
    var deployResult: Option<DeployView>

    constructor (store: AppStore)
      ensures this.store == store
      ensures selectedPackage == None && email == "" && !isDeploying && deployResult == None
    {
      this.store := store;
      selectedPackage := None;
      email := "";
      isDeploying := false;
      deployResult := None;
    }

    /** handleDeploy up to the awaited call: nothing happens without a business,
        a package and an e-mail address, or with an amount that is not positive;
        otherwise the queued, pending job goes in front and the panel is busy. */
    method BeginDeploy(business: Option<Business>, customParsed: Option<real>, prices: map<string, real>, now: nat)
      returns (started: Option<Started>)
      modifies this`isDeploying, store`buildJobs
      ensures var amount := GetAmount(old(selectedPackage), customParsed, prices);
        var guarded := business.Some? && Truthy(selectedPackage) && email != "" && amount > 0.0;
        && (started.Some? <==> guarded)
        && (!guarded ==> store.buildJobs == old(store.buildJobs) && isDeploying == old(isDeploying))
        && (guarded ==>
              && started.value == Started("build-" + NatToDecimal(now), amount)
              && store.buildJobs == [NewJob(started.value.jobId, business.value, selectedPackage.value, amount, now)] + old(store.buildJobs)
              && isDeploying)
    {
      if business.None? || !Truthy(selectedPackage) || email == "" {
        return None;
      }
      var amount := GetAmount(selectedPackage, customParsed, prices);
      if amount <= 0.0 {
        // the panel only shows an 'Invalid Amount' notification
        return None;
      }
      isDeploying := true;
      var jobId := "build-" + NatToDecimal(now);
      store.AddBuildJob(NewJob(jobId, business.value, selectedPackage.value, amount, now));
      started := Some(Started(jobId, amount));
    }

    /** handleDeploy after the awaited call: the job is updated, the summary is
        set on success, and the busy flag is cleared on every path. Returns
        whether the simulated completion was scheduled. */
    method FinishDeploy(jobId: string, call: DeployCall) returns (completionScheduled: bool)
      modifies this`isDeploying, this`deployResult, store`buildJobs
      ensures store.buildJobs == UpdateJobs(old(store.buildJobs), jobId, FinishPatch(call))
      ensures !isDeploying
      ensures completionScheduled <==> call.Returned? && call.result.success
      ensures completionScheduled ==>
        deployResult == Some(DeployView(call.result.paymentLink, Building, Pending, call.result.previewUrl))
      ensures !completionScheduled ==> deployResult == old(deployResult)
    {
      completionScheduled := false;
      match call {
        case Returned(result) =>
          if result.success {
            store.UpdateBuildJob(jobId, NoChange.(status := Put(Building), previewUrl := Put(result.previewUrl)));
            deployResult := Some(DeployView(result.paymentLink, Building, Pending, result.previewUrl));
            completionScheduled := true;
          } else {
            store.UpdateBuildJob(jobId, NoChange.(status := Put(Error), errorMessage := Put(Some(OrElse(result.error, "Deployment failed")))));
          }
        case Raised =>
          store.UpdateBuildJob(jobId, NoChange.(status := Put(Error), errorMessage := Put(Some("Network error"))));
      }
      isDeploying := false;
    }

    /** The simulated completion: the job goes live, the summary follows, and
        one more site is counted. */
    method CompleteSimulatedBuild(jobId: string)
      modifies this`deployResult, store`buildJobs, store`dailyStats
      ensures store.buildJobs == UpdateJobs(old(store.buildJobs), jobId, CompletePatch)
      ensures store.dailyStats == Bump(old(store.dailyStats), SitesBuilt)
      ensures old(deployResult).Some? ==> deployResult == Some(old(deployResult).value.(buildStatus := Live))
      ensures old(deployResult).None? ==> deployResult == None
    {
      store.UpdateBuildJob(jobId, CompletePatch);
      if deployResult.Some? {
        deployResult := Some(deployResult.value.(buildStatus := Live));
      }
      store.IncrementStat(SitesBuilt);
    }
  }

  /** The whole lifecycle on the table, for a fresh job id: the new job is
      queued in front; a successful call makes it building with the returned
      preview URL and the completion makes it live; a failed call makes it an
      error with the returned error text or 'Deployment failed'; a thrown call
      with 'Network error'. The rest of the table is never touched. */
  lemma {:induction false} DeployLifecycle(jobs: seq<BuildJob>, job: BuildJob, call: DeployCall)
    requires job.status == Queued
    requires forall k :: 0 <= k < |jobs| ==> jobs[k].id != job.id
    ensures var finished := UpdateJobs([job] + jobs, job.id, FinishPatch(call));
      && |finished| == |jobs| + 1 && finished[1..] == jobs
      && (call.Returned? && call.result.success ==>
            && finished[0] == job.(status := Building, previewUrl := call.result.previewUrl)
            && UpdateJobs(finished, job.id, CompletePatch)
               == [job.(status := Live, previewUrl := call.result.previewUrl)] + jobs)
      && (call.Returned? && !call.result.success ==>
            finished[0] == job.(status := Error, errorMessage := Some(OrElse(call.result.error, "Deployment failed"))))
      && (call.Raised? ==> finished[0] == job.(status := Error, errorMessage := Some("Network error")))
  {
    var u := FinishPatch(call);
    var finished := UpdateJobs([job] + jobs, job.id, u);
    UpdateJobsShape([job] + jobs, job.id, u);
    assert finished[1..] == jobs;
    UpdateJobsShape(finished, job.id, CompletePatch);
    var completed := UpdateJobs(finished, job.id, CompletePatch);
    assert completed[1..] == jobs;
  }

  /** Against the real deploy call (demo mode off) a failure always reads
      'Deployment failed': the call never supplies error text, and it never
      throws, so 'Network error' cannot occur. */
  lemma DeployFailureText(businessName: string, now: nat, o: Outcome<DeployData>)
    ensures var result := TriggerDeployAndInvoice(DemoMode, businessName, now, o);
      !result.success ==>
        FinishPatch(Returned(result)) == NoChange.(status := Put(Error), errorMessage := Put(Some("Deployment failed")))
  {
  }
}
