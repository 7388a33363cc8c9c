/** The outbound calls to the automation server's webhooks, each as a
    function of what its `fetch` produced. Every call shares one shape: a
    thrown error, a non-2xx status (turned into a thrown `Webhook returned N`)
    and a body that is not JSON all land in the same catch, which answers with
    a failure, or with a simulated success in demo mode. */
module Outbound {
  import opened Types
  import opened Text
  import opened Slugify

  /** DEMO_MODE: the simulated-success branches are switched off. */
  const DemoMode := false

  /** The six calls, for their abort budgets. */
  datatype Call = WebsiteBuild | SmsMessage | EmailMessage | DeployAndInvoice | LovableUrl | RenderDeploy

  /** Milliseconds before each call's AbortController fires. */
  function AbortBudgetMs(call: Call): (ms: nat)
    ensures 5000 <= ms <= 60000
    ensures ms == 5000 <==> call == WebsiteBuild || call == SmsMessage || call == EmailMessage
    ensures call == DeployAndInvoice ==> ms == 10000
    ensures call == LovableUrl ==> ms == 30000
    ensures call == RenderDeploy ==> ms == 60000
  {
    match call
    case WebsiteBuild => 5000
    case SmsMessage => 5000
    case EmailMessage => 5000
    case DeployAndInvoice => 10000
    case LovableUrl => 30000
    case RenderDeploy => 60000
  }

  /** A call that has not answered within its budget is aborted: the fetch
      throws the abort error instead. */
  function WithDeadline<D>(call: Call, elapsedMs: nat, abortError: Thrown, o: Outcome<D>): (r: Outcome<D>)
    ensures r.Responded? ==> elapsedMs < AbortBudgetMs(call) && r == o
    ensures elapsedMs < AbortBudgetMs(call) ==> r == o
    ensures elapsedMs >= AbortBudgetMs(call) ==> r == Threw(abortError)
  {
    if elapsedMs >= AbortBudgetMs(call) then Threw(abortError) else o
  }

  /** The error a non-2xx response is turned into. */
  function StatusError(status: nat): Thrown {
    ErrorObject("Webhook returned " + NatToDecimal(status))
  }

  /** The end of a call's try block: the parsed data, or the error that reached the catch. */
  datatype Attempt<+D> = Reached(data: D) | Caught(error: Thrown)

  /** fetch, the `response.ok` check, then `response.json()`. */
  function Settle<D>(o: Outcome<D>): (r: Attempt<D>)
    ensures r.Reached? <==> o.Responded? && IsOk(o.status) && o.body.Parsed?
    ensures r.Reached? ==> r.data == o.body.data
    ensures o.Threw? ==> r == Caught(o.error)
    ensures o.Responded? && !IsOk(o.status) ==> r == Caught(StatusError(o.status))
    ensures o.Responded? && IsOk(o.status) && o.body.Malformed? ==> r == Caught(o.body.error)
  {
    match o
    case Threw(e) => Caught(e)
    case Responded(status, body) =>
      if !IsOk(status) then Caught(StatusError(status))
      else match body
        case Malformed(e) => Caught(e)
        case Parsed(d) => Reached(d)
  }

  /** A non-2xx response settles exactly as a thrown `Webhook returned N` does. */
  lemma NonOkIsThrown<D>(status: nat, body: Json<D>)
    requires !IsOk(status)
    ensures Settle(Responded(status, body)) == Settle<D>(Threw(StatusError(status)))
  {
  }

  // ------------------------------------------------------------ triggerWebsiteBuild

  /** `isDemo` is false where the source leaves it out. */
  datatype BuildResult = BuildResult(success: bool, demoUrl: Option<string>, isDemo: bool)

  /** triggerWebsiteBuild: the response body is never read. */
  function TriggerWebsiteBuild(demo: bool, businessName: string, o: Outcome<()>): (r: BuildResult)
    ensures r.success <==> (o.Responded? && IsOk(o.status)) || demo
    ensures r.success ==> r.demoUrl == Some(Slug(businessName) + ".onrender.com")
    ensures !r.success ==> r.demoUrl == None
    ensures r.isDemo <==> demo && !(o.Responded? && IsOk(o.status))
  {
    var demoUrl := Slug(businessName) + ".onrender.com";
    var attempt := Settle(match o case Threw(e) => o case Responded(s, _) => Responded(s, Parsed(())));
    match attempt
    case Reached(_) => BuildResult(true, Some(demoUrl), false)
    case Caught(_) => if demo then BuildResult(true, Some(demoUrl), true) else BuildResult(false, None, false)
  }

  // ------------------------------------------------------------ sendSMS / sendEmail

  /** sendSMS and sendEmail: `response.ok` when a response arrives (no throw on
      non-2xx), and on a thrown error `false`, or `true` in demo mode. */
  function SendMessage(demo: bool, o: Outcome<()>): (sent: bool)
    ensures o.Responded? ==> (sent <==> IsOk(o.status))
    ensures o.Threw? ==> (sent <==> demo)
  {
    match o
    case Responded(status, _) => IsOk(status)
    case Threw(_) => demo
  }

  // ------------------------------------------------------------ triggerDeployAndInvoice

  /** The fields read from the deploy-and-invoice reply. */
  datatype DeployData = DeployData(buildId: Option<string>, paymentLink: Option<string>, previewUrl: Option<string>)

  datatype DeployResult = DeployResult(
    success: bool,
    buildId: Option<string>,
    paymentLink: Option<string>,
    previewUrl: Option<string>,
    isDemo: bool,
    error: Option<string>)

  /** triggerDeployAndInvoice; `now` is `Date.now()`, read only by the demo branch. */
  function TriggerDeployAndInvoice(demo: bool, businessName: string, now: nat, o: Outcome<DeployData>): (r: DeployResult)
    ensures Settle(o).Reached? ==>
      r == DeployResult(true, Settle(o).data.buildId, Settle(o).data.paymentLink, Settle(o).data.previewUrl, false, None)
    ensures Settle(o).Caught? && !demo ==> r == DeployResult(false, None, None, None, false, None)
    ensures Settle(o).Caught? && demo ==> (r.success && r.isDemo
      && r.paymentLink == Some("https://buy.stripe.com/demo_" + Slug(businessName))
      && r.previewUrl == Some("https://" + Slug(businessName) + ".onrender.com"))
    ensures r.error == None
  {
    var slug := Slug(businessName);
    match Settle(o)
    case Reached(d) => DeployResult(true, d.buildId, d.paymentLink, d.previewUrl, false, None)
    case Caught(_) =>
      if demo then
        DeployResult(true, Some("demo-" + NatToDecimal(now)), Some("https://buy.stripe.com/demo_" + slug),
                     Some("https://" + slug + ".onrender.com"), true, None)
      else DeployResult(false, None, None, None, false, None)
  }

  // ------------------------------------------------------------ generateLovableBuildUrl

  /** The fields read from the Lovable reply; `success` is whatever the server sent. */
  datatype LovableData = LovableData(success: Option<bool>, lovableBuildUrl: Option<string>)

  datatype LovableResult = LovableResult(
    success: Option<bool>,
    lovableUrl: Option<string>,
    buildStatus: Option<string>,
    error: Option<string>)

  /** generateLovableBuildUrl. `encodedPrompt` is
      `encodeURIComponent('Create a professional website for ' + name)`, read only in demo mode. */
  function GenerateLovableBuildUrl(demo: bool, encodedPrompt: string, o: Outcome<LovableData>): (r: LovableResult)
    ensures Settle(o).Reached? ==>
      r == LovableResult(Settle(o).data.success, Settle(o).data.lovableBuildUrl, Some("pending"), None)
    ensures Settle(o).Caught? && !demo ==>
      r == LovableResult(Some(false), None, None, Some(MessageOr(Settle(o).error, "Failed to generate Lovable URL")))
    ensures Settle(o).Caught? && demo ==>
      r == LovableResult(Some(true), Some("https://lovable.dev/?autosubmit=true#prompt=" + encodedPrompt), Some("pending"), None)
  {
    match Settle(o)
    case Reached(d) => LovableResult(d.success, d.lovableBuildUrl, Some("pending"), None)
    case Caught(e) =>
      if demo then
        LovableResult(Some(true), Some("https://lovable.dev/?autosubmit=true#prompt=" + encodedPrompt), Some("pending"), None)
      else LovableResult(Some(false), None, None, Some(MessageOr(e, "Failed to generate Lovable URL")))
  }

  /** triggerLovableDeployment delegates to generateLovableBuildUrl unchanged. */
  function TriggerLovableDeployment(demo: bool, encodedPrompt: string, o: Outcome<LovableData>): (r: LovableResult)
    ensures r == GenerateLovableBuildUrl(demo, encodedPrompt, o)
  {
    GenerateLovableBuildUrl(demo, encodedPrompt, o)
  }

  // ------------------------------------------------------------ deployToRenderFromGitHub

  datatype RenderData = RenderData(success: Option<bool>, renderUrl: Option<string>)

  datatype RenderResult = RenderResult(success: Option<bool>, renderUrl: Option<string>, error: Option<string>)

  /** deployToRenderFromGitHub; its demo URL uses the untrimmed slug. */
  function DeployToRenderFromGitHub(demo: bool, businessName: string, o: Outcome<RenderData>): (r: RenderResult)
    ensures Settle(o).Reached? ==> r == RenderResult(Settle(o).data.success, Settle(o).data.renderUrl, None)
    ensures Settle(o).Caught? && !demo ==>
      r == RenderResult(Some(false), None, Some(MessageOr(Settle(o).error, "Deployment failed")))
    ensures Settle(o).Caught? && demo ==>
      r == RenderResult(Some(true), Some("https://" + RenderSlug(businessName) + ".onrender.com"), None)
  {
    match Settle(o)
    case Reached(d) => RenderResult(d.success, d.renderUrl, None)
    case Caught(e) =>
      if demo then RenderResult(Some(true), Some("https://" + RenderSlug(businessName) + ".onrender.com"), None)
      else RenderResult(Some(false), None, Some(MessageOr(e, "Deployment failed")))
  }

  // ------------------------------------------------------------ properties

  /** With demo mode off, every call that fails by a non-2xx status fails exactly
      as it would on a thrown `Webhook returned N`, and reports failure. */
  lemma {:induction false} NonOkLikeNetworkError(name: string, prompt: string, now: nat, status: nat)
    requires !IsOk(status)
    ensures var e := StatusError(status);
      && TriggerWebsiteBuild(DemoMode, name, Responded(status, Parsed(()))) == TriggerWebsiteBuild(DemoMode, name, Threw(e))
      && !TriggerWebsiteBuild(DemoMode, name, Threw(e)).success
      && SendMessage(DemoMode, Responded(status, Parsed(()))) == SendMessage(DemoMode, Threw(e)) == false
      && (forall d: DeployData :: TriggerDeployAndInvoice(DemoMode, name, now, Responded(status, Parsed(d)))
           == TriggerDeployAndInvoice(DemoMode, name, now, Threw(e))
           == DeployResult(false, None, None, None, false, None))
      && (forall d: LovableData :: GenerateLovableBuildUrl(DemoMode, prompt, Responded(status, Parsed(d)))
           == GenerateLovableBuildUrl(DemoMode, prompt, Threw(e))
           == LovableResult(Some(false), None, None, Some("Webhook returned " + NatToDecimal(status))))
      && (forall d: RenderData :: DeployToRenderFromGitHub(DemoMode, name, Responded(status, Parsed(d)))
           == DeployToRenderFromGitHub(DemoMode, name, Threw(e))
           == RenderResult(Some(false), None, Some("Webhook returned " + NatToDecimal(status))))
  {
    forall d: DeployData
      ensures Settle(Responded(status, Parsed(d))) == Settle<DeployData>(Threw(StatusError(status)))
    {
      NonOkIsThrown(status, Parsed(d));
    }
    forall d: LovableData
      ensures Settle(Responded(status, Parsed(d))) == Settle<LovableData>(Threw(StatusError(status)))
    {
      NonOkIsThrown(status, Parsed(d));
    }
    forall d: RenderData
      ensures Settle(Responded(status, Parsed(d))) == Settle<RenderData>(Threw(StatusError(status)))
    {
      NonOkIsThrown(status, Parsed(d));
    }
  }

  /** In demo mode sending does not treat the two failures alike: a non-2xx
      reply reports `false` while a thrown error reports `true`. */
  lemma DemoMessageAsymmetry()
    ensures !SendMessage(true, Responded(500, Parsed(())))
    ensures SendMessage(true, Threw(OtherValue))
  {
  }

  /** On 2xx the Lovable call passes the server's own `success` through, even
      when the server said `false`, and always reports status 'pending'. */
  lemma LovablePassesServerSuccess(demo: bool, prompt: string, status: nat, d: LovableData)
    requires IsOk(status)
    ensures var r := GenerateLovableBuildUrl(demo, prompt, Responded(status, Parsed(d)));
      r.success == d.success && r.buildStatus == Some("pending") && r.error == None
  {
  }

  /** Past its ten-second budget the deploy-and-invoice call is aborted, and
      with demo mode off the abort reads as a plain failure, whatever the
      server would have answered; Render's sixty-second budget is spent the
      same way, and its failure carries the abort error's message. */
  lemma DeadlineFailsDeploy(name: string, now: nat, elapsedMs: nat, abortError: Thrown,
                            o: Outcome<DeployData>, render: Outcome<RenderData>)
    requires elapsedMs >= 10000
    ensures TriggerDeployAndInvoice(DemoMode, name, now, WithDeadline(DeployAndInvoice, elapsedMs, abortError, o))
      == DeployResult(false, None, None, None, false, None)
    ensures elapsedMs >= 60000 ==>
      DeployToRenderFromGitHub(DemoMode, name, WithDeadline(RenderDeploy, elapsedMs, abortError, render))
      == RenderResult(Some(false), None, Some(MessageOr(abortError, "Deployment failed")))
  {
  }

  /** A failed deploy-and-invoice call carries no error text, so the deploy
      panel falls back to its own default. */
  lemma DeployFailureHasNoError(name: string, now: nat, o: Outcome<DeployData>)
    requires Settle(o).Caught?
    ensures !TriggerDeployAndInvoice(DemoMode, name, now, o).success
    ensures OrElse(TriggerDeployAndInvoice(DemoMode, name, now, o).error, "Deployment failed") == "Deployment failed"
  {
  }
}
