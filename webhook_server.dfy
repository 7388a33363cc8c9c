/** The production endpoint for deployment-status callbacks: it runs the
    request parser and turns its result into an HTTP status and JSON body. */
module WebhookServer {
  import opened Types
  import opened Store
  import opened DeploymentStatus

  /** The status code and the `{ success, message }` body of a reply. */
  datatype HttpReply = HttpReply(status: nat, success: bool, message: string)

  const InternalError := HttpReply(500, false, "Internal server error")

  /** The reply for a parser result: 401 for 'Unauthorized', 400 for every
      other failure (with the parser's message), 200 'Status received' otherwise. */
  function Reply(r: ParseResult): (reply: HttpReply)
    ensures reply.status == 401 <==> !r.success && r.message == "Unauthorized"
    ensures reply.status == 400 <==> !r.success && r.message != "Unauthorized"
    ensures reply.status == 200 <==> r.success
    ensures reply.success == r.success
    ensures r.success ==> reply.message == "Status received"
    ensures !r.success ==> reply.message == r.message
  {
    if !r.success then HttpReply(if r.message == "Unauthorized" then 401 else 400, false, r.message)
    else HttpReply(200, true, "Status received")
  }

  /** POST: the parser catches everything it can raise, so the handler's own
      catch (500) is never reached from here. */
  method Post(store: AppStore, request: WebhookRequest, configured: string) returns (reply: HttpReply)
    modifies store`buildJobs
    ensures var r := Receive(old(store.buildJobs), request, configured);
      reply == Reply(r.result) && store.buildJobs == r.jobs
  {
    var result := ParseDeploymentStatusRequest(store, request, configured);
    if !result.success {
      var code := if result.message == "Unauthorized" then 401 else 400;
      return HttpReply(code, false, result.message);
    }
    reply := HttpReply(200, true, "Status received");
  }

  /** The reply the endpoint gives for a request against a job table. */
  function Serve(jobs: seq<BuildJob>, request: WebhookRequest, configured: string): (reply: HttpReply)
    ensures reply.status in {200, 400, 401}
    ensures reply.success <==> reply.status == 200
    ensures reply.status == 401 <==> Receive(jobs, request, configured).result.message == "Unauthorized" && !reply.success
  {
    Reply(Receive(jobs, request, configured).result)
  }

  /** The status codes of the endpoint, classified by the request:
      an unparsable body is 400 whatever the secret (the body is read first);
      a rejected secret is 401; a missing business id or status is 400;
      everything else, including an unknown business and a `null` body, is 200;
      500 never happens. */
  lemma {:induction false} ServeCodes(jobs: seq<BuildJob>, request: WebhookRequest, configured: string)
    ensures var reply := Serve(jobs, request, configured);
      && reply != InternalError
      && (request.body.Unparsable? ==> reply == HttpReply(400, false, "Invalid JSON payload"))
      && (request.body.Body? && !ValidateWebhookAuth(configured, request.secretHeader) ==>
            reply == HttpReply(401, false, "Unauthorized"))
      && (request.body.Body? && ValidateWebhookAuth(configured, request.secretHeader) ==>
            var p := request.body.payload;
            if p.Fields? && (!Truthy(p.businessId) || !Truthy(p.status))
            then reply == HttpReply(400, false, "Invalid payload")
            else reply == HttpReply(200, true, "Status received"))
  {
    if request.body.Body? {
      var p := request.body.payload;
      OnlyProcessedChangesJobs(jobs, p, request.secretHeader, configured);
      if ValidateWebhookAuth(configured, request.secretHeader) {
        AcceptedSecretOutcomes(jobs, p, request.secretHeader, configured);
      }
    }
  }

  /** A 200 reply says nothing about whether a job was updated: an unknown
      business gets the same reply as a processed callback. */
  lemma UnknownBusinessLooksProcessed(jobs: seq<BuildJob>, request: WebhookRequest, configured: string)
    requires request.body.Body? && request.body.payload.Fields?
    requires ValidateWebhookAuth(configured, request.secretHeader)
    requires Truthy(request.body.payload.businessId) && Truthy(request.body.payload.status)
    requires forall k :: 0 <= k < |jobs| ==> jobs[k].businessId != request.body.payload.businessId.value
    ensures Serve(jobs, request, configured) == HttpReply(200, true, "Status received")
    ensures Receive(jobs, request, configured).jobs == jobs
  {
  }
}
