# Ghost Hunter dashboard — a Dafny model of its core

Ghost Hunter is a sales dashboard for finding local businesses without a
website, calling them, building them a site and invoicing them. This project
models the parts of it that decide state and results:

- the application store (`Store`): the build-job table, the call log, the four
  daily counters, the selected business, and the projection that is persisted;
- the inbound deployment-status callback (`DeploymentStatus`): the secret
  check, the translation of status words, the update of the first job of the
  business, the notification it raises, and the request parser around it;
- the production endpoint (`WebhookServer`) that turns the parser's result
  into an HTTP status and body;
- the edge worker (`Worker`): preflight, health, the two proxy routes, the
  origin allow-list and the JSON replies;
- the outbound automation-server calls (`Outbound`) and the business-name
  slug they share (`Slugify`);
- payment links and the once-only payment-library loader (`Stripe`);
- the business table in the spreadsheet service (`Airtable`);
- arrow-key navigation through the business list (`Keyboard`);
- the figures the revenue panel computes from the build jobs (`Revenue`); the
  shipped panel throws before it reaches them (see "## Left out");
- the deploy-and-invoice panel (`DeployInvoice`), the build-queue panel
  (`BuildQueue`) and the call-log dialog (`CallLogging`).

Shared datatypes live in `Types`. The JavaScript string operations the code
relies on (`String(n)`, ASCII `toLowerCase`, `startsWith`, `split`, `trim`)
live in `Text`.

State the source changes in place is a class: `Store.AppStore` (the store's
four fields), `CallLogging.CallLogDialog` (the dialog's form state),
`DeployInvoice.DeployInvoicePanel` (the panel's busy flag and summary) and
`Stripe.StripeLoader` (the module-level promise). Each method's contract
states the whole new state in terms of a specification function. Lemmas about
those functions state what the source promises. Everything else is pure.

Some JavaScript behaviours are written out:

- An update object (`Partial<BuildJob>`) is a `JobPatch` of `Keep | Put(v)`
  fields, so `{ errorMessage: undefined }` really clears the field, as a
  spread does.
- `x || d` is `OrElse`.
- `response.ok` is `IsOk` (status 200 to 299).
- `error instanceof Error ? error.message : d` is `MessageOr`.
- An async handler is split at its `await` and `setTimeout` points into
  successive methods.
- What a `fetch` produced is an input: a response with a status and a body
  that may not parse, or a thrown value.

The clock (`Date.now()`, `new Date()`), the configured secrets and keys, and
the demo flag are parameters.

Two facts about the code that shape the model:

- A deployment-status callback raises its notification on every delivery,
  including a repeated one. `DeploymentStatus.RedeliveryIdempotent` states it.
- The code writes seven build statuses and the job fields `package`, `amount`,
  `paymentStatus` and `deploymentStatus`, so the build-job record carries all
  of them.

## Model

| member | source | states |
|---|---|---|
| Store.AppStore.constructor | src/stores/appStore.ts:29-33 | a new store has nothing selected, no jobs, no logs and all four counters at 0 |
| Store.AppStore.SetSelectedBusiness | src/stores/appStore.ts:35 | only the selection changes, to the given business |
| Store.AppStore.AddBuildJob | src/stores/appStore.ts:37-40 | the new job is at index 0, the old jobs follow in order, the length grows by one; nothing else changes |
| Store.AppStore.UpdateBuildJob | src/stores/appStore.ts:42-47 | length and order are kept; each job with the id is merged with the update; every other job is unchanged |
| Store.Merge | src/stores/appStore.ts:45 | `{ ...job, ...updates }`: every field the update names takes the update's value, every other field keeps the job's; the empty update changes nothing |
| Store.UpdateJobs | src/stores/appStore.ts:44-46 | the table keeps its length; its effect position by position is stated by `Store.UpdateJobsShape` |
| Store.UpdateJobsShape | src/stores/appStore.ts:42-47 | position by position: the merge where the id matches, the old job elsewhere, same length |
| Store.UpdateJobsAbsentId | src/stores/appStore.ts:44-46 | an id that is not in the table leaves it unchanged |
| Store.UpdateJobsIdempotent | src/stores/appStore.ts:45 | the same update applied twice gives the table of applying it once, also when it renames the job |
| Store.MergeIdempotent | src/stores/appStore.ts:45 | merging an update into a job twice equals merging it once |
| Store.MergeSequential | src/stores/appStore.ts:45 | two successive merges equal one merge of the combined update, the later fields winning |
| Store.AppStore.AddCallLog | src/stores/appStore.ts:49-56 | the log is prepended; callsMade rises by one and the other counters keep their values |
| Store.Bump | src/stores/appStore.ts:58-64 | the named counter rises by exactly one and the other three are unchanged |
| Store.AppStore.IncrementStat | src/stores/appStore.ts:58-64 | only the counters change, by `Bump`; jobs, logs and selection are untouched |
| Store.AppStore.ResetDailyStats | src/stores/appStore.ts:66 | all four counters are 0; nothing else changes |
| Store.Persist | src/stores/appStore.ts:70-74 | the persisted record holds the jobs, the logs and the counters |
| Store.PersistRoundTrip | src/stores/appStore.ts:70-74 | reloading a snapshot restores everything except the selection, which comes back empty; a second snapshot is the same |
| Store.AppStore.Snapshot | src/stores/appStore.ts:70-74 | the store's snapshot is the persisted projection of its state, and reloads to it without the selection |
| DeploymentStatus.ValidateWebhookAuth | src/api/webhooks/deployment-status.ts:20-32 | accepted exactly when a secret is configured, one is supplied and non-empty, and the two are equal |
| DeploymentStatus.MapDeploymentStatus | src/api/webhooks/deployment-status.ts:37-50 | live→live, failed→error, deploying→auto-deploying, and any other word (pending included) →queued, each as an if-and-only-if |
| DeploymentStatus.FirstJobFor | src/api/webhooks/deployment-status.ts:85 | the index of the first job of the business, or none when no job has that business id |
| DeploymentStatus.WebhookPatch | src/api/webhooks/deployment-status.ts:94-114 | the update sets the mapped status and the raw word; the preview URL exactly when one was sent; the error exactly for 'failed' with an error; no other field |
| DeploymentStatus.StatusToast | src/api/webhooks/deployment-status.ts:119-140 | a notification exactly for 'live', 'failed' and 'deploying'; destructive exactly for 'failed', whose text is the error or the default; the others name the business; 5000, 7000 and 3000 ms |
| DeploymentStatus.Handle | src/api/webhooks/deployment-status.ts:56-147 | one delivery never changes the number of jobs |
| DeploymentStatus.UnauthorizedChangesNothing | src/api/webhooks/deployment-status.ts:61-64 | a rejected secret answers 'Unauthorized' and leaves the table as it was, with no notification |
| DeploymentStatus.OnlyProcessedChangesJobs | src/api/webhooks/deployment-status.ts:56-147 | every result is one of the five fixed results; only 'processed' changes the table or notifies |
| DeploymentStatus.AcceptedSecretOutcomes | src/api/webhooks/deployment-status.ts:66-146 | with the secret accepted: a missing business id or status gives 'Invalid payload'; a `null` body gives the processing-error result; 'no matching build job' exactly when no job has the business id |
| DeploymentStatus.ProcessedUpdatesFirstJob | src/api/webhooks/deployment-status.ts:94-117 | the first job of the business gets the mapped status and the raw word; the preview URL only when one was sent; the error only for 'failed' with an error; no other field changes, and no job with another id changes |
| DeploymentStatus.OnlyFirstJobChanges | src/api/webhooks/deployment-status.ts:85-117 | with distinct job ids, every job other than the first one of the business is unchanged |
| DeploymentStatus.RedeliveryIdempotent | src/api/webhooks/deployment-status.ts:96-139 | a second delivery of the same callback leaves the table as the first left it, and gives the same result and the same notification again |
| DeploymentStatus.FirstJobForSameKeys | src/api/webhooks/deployment-status.ts:85 | tables with the same business ids position by position have the same first match |
| DeploymentStatus.HandleDeploymentStatusWebhook | src/api/webhooks/deployment-status.ts:56-147 | the field-by-field handler returns the result and notification of `Handle`, and leaves the store holding its table |
| DeploymentStatus.Receive | src/api/webhooks/deployment-status.ts:153-180 | an unparsable body gives 'Invalid JSON payload' with no change, before the secret is looked at; otherwise the handler's success and message, with the payload as data |
| DeploymentStatus.ParseDeploymentStatusRequest | src/api/webhooks/deployment-status.ts:153-180 | the parser returns `Receive`'s result and leaves the store holding its table |
| WebhookServer.Reply | server/api/webhooks/deployment-status.js:19-30 | 401 exactly for an 'Unauthorized' failure, 400 for every other failure with the parser's message, 200 'Status received' exactly for a success; `success` is the parser's |
| WebhookServer.Serve | server/api/webhooks/deployment-status.js:14-37 | the endpoint answers only 200, 400 or 401; success exactly with 200; 401 exactly for an 'Unauthorized' failure |
| WebhookServer.Post | server/api/webhooks/deployment-status.js:14-38 | the endpoint answers `Reply` of the parser's result and leaves the store as the parser left it |
| WebhookServer.ServeCodes | server/api/webhooks/deployment-status.js:14-38 | by request: unparsable body 400, rejected secret 401, missing id or status 400, all else 200; the 500 reply never occurs |
| WebhookServer.UnknownBusinessLooksProcessed | server/api/webhooks/deployment-status.js:27-30 | a callback for an unknown business gets the same 200 reply as a processed one, and changes nothing |
| Worker.Origins | cloudflare-worker/index.ts:137 | one entry per comma-separated piece of the configured text, each trimmed, so at least one entry |
| Worker.AllowedOrigin | cloudflare-worker/index.ts:130-143 | the allowed origin is '*' or a listed entry, and the request's own origin only when it is listed |
| Worker.AllowedOriginOrder | cloudflare-worker/index.ts:132-143 | with no list '*'; otherwise a listed origin (a missing one read as '*') is echoed, else the first entry, unless that is '*' |
| Worker.CorsHeaders | cloudflare-worker/index.ts:130-152 | exactly the five CORS headers, with the chosen origin and the fixed allowed-header list |
| Worker.Preflight | cloudflare-worker/index.ts:122-125 | a 200 reply with no body that allows every origin |
| Worker.JsonResponse | cloudflare-worker/index.ts:157-167 | the given status and body, JSON content type, every origin allowed, no credentials header |
| Worker.StripTrailingSlash | cloudflare-worker/index.ts:61 | at most one trailing '/' is removed, and one is removed exactly when there is one |
| Worker.UpstreamUrl | cloudflare-worker/index.ts:61-63 | the upstream URL is the stripped base, then the path, then the query string |
| Worker.ApiUpstreamRequest | cloudflare-worker/index.ts:66-74 | the API proxy sends the URL it was given and the client's method and body unchanged; its headers are exactly the client's plus the API key, which overrides a client-sent key |
| Worker.WebhookUpstreamRequest | cloudflare-worker/index.ts:99-105 | the webhook proxy sends only a content type (default JSON) and never the key |
| Worker.Relay | cloudflare-worker/index.ts:79-86 | a proxied reply keeps the upstream status and body and uses the upstream content type or JSON |
| Worker.RouteOf | cloudflare-worker/index.ts:20-45 | OPTIONS first; then an unreadable URL; then '/health' and '/'; then the '/api/v1/' prefix, then '/webhook/'; anything else is not found |
| Worker.Outbound | cloudflare-worker/index.ts:36-42 | an upstream request is made exactly on the two proxy routes, to `UpstreamUrl`, with the key exactly on the API route |
| Worker.Fetch | cloudflare-worker/index.ts:20-54 | corrected: every request gets a reply, with no rejected promise |
| Worker.FetchAsWritten | cloudflare-worker/index.ts:20-54 | off the proxy routes the code as written replies as the corrected version does |
| Worker.PreflightIgnoresAllowList | cloudflare-worker/index.ts:22-24 | OPTIONS is answered 200 with every origin allowed, whatever allow-list is configured |
| Worker.FetchFixedReplies | cloudflare-worker/index.ts:31-51 | health gives `{status:'ok'}` with the time, an unknown path 404 'Not found', an unreadable URL 500 'Internal server error' with the error's message |
| Worker.ProxiedReply | cloudflare-worker/index.ts:79-86 | corrected: a proxied reply keeps status and body, uses the upstream content type or JSON, and allows the chosen origin |
| Worker.UpstreamFailure | cloudflare-worker/index.ts:36-51 | a failed upstream call: as written the worker's promise rejects; corrected it answers 500 |
| Worker.ProxiedReplyLacksCors | cloudflare-worker/index.ts:77-86 | a listed cross-origin API call: as written the reply has no Access-Control-Allow-Origin; corrected it allows that origin |
| Slugify.Dashed | src/lib/webhook.ts:18 | replacing runs of characters outside `[a-z0-9]` gives only slug characters and single dashes, empty exactly for empty input; it starts with '-' exactly when the input starts outside `[a-z0-9]` |
| Slugify.DashedKeepsSlugChars | src/lib/webhook.ts:18 | removing the dashes from the result gives exactly the input's slug characters, in order |
| Slugify.DashedRun | src/lib/webhook.ts:18 | a non-empty stretch with no slug character becomes exactly one '-' |
| Slugify.DashedSplitsAtSlugChar | src/lib/webhook.ts:18 | each slug character stays in place and the text on either side of it is collapsed independently, so each maximal run of other characters becomes one '-' where it stood |
| Slugify.TrimDashes | src/lib/webhook.ts:19 | a string with no dash at either end is unchanged; `Slugify.TrimDashesDropsEdgeDashes` states the rest |
| Slugify.TrimDashesDropsEdgeDashes | src/lib/webhook.ts:19 | trimming removes at most one '-' at the front and one at the back and nothing else |
| Slugify.Slug | src/lib/webhook.ts:16-19 | a slug has only a–z, 0–9 and '-', no two dashes in a row, and no dash at either end |
| Slugify.SlugKeepsLettersAndDigits | src/lib/webhook.ts:16-19 | the slug and the demo hosting slug, with their dashes removed, are exactly the lower-cased name's letters and digits in order; the hosting slug is the slug plus at most one '-' at each end |
| Slugify.RenderSlug | src/lib/webhook.ts:344 | the demo hosting slug has only slug characters and single dashes |
| Slugify.RenderSlugKeepsEdgeDashes | src/lib/webhook.ts:344 | unlike the slug, the demo hosting slug can start and end with '-' (" Bo!" gives "-bo-" against "bo") |
| Slugify.LowerKeepsSlugAlphabet | src/lib/webhook.ts:17 | lower-casing leaves a string of slug characters and dashes unchanged |
| Slugify.DashedFixesWellFormed | src/lib/webhook.ts:18 | collapsing runs leaves a string with no run to collapse unchanged |
| Slugify.SlugFixedPoints | src/lib/webhook.ts:16-19 | a string is its own slug exactly when it looks like a slug |
| Slugify.SlugIdempotent | src/lib/webhook.ts:16-19 | slugging a slug returns it unchanged |
| Outbound.AbortBudgetMs | src/lib/webhook.ts:24-314 | 5000 ms exactly for build, SMS and e-mail; 10000 ms for deploy-and-invoice, 30000 ms for Lovable and 60000 ms for Render |
| Outbound.WithDeadline | src/lib/webhook.ts:22-41 | within the budget the call ends with the fetch's own outcome; past it the call throws the abort error |
| Outbound.DeadlineFailsDeploy | src/lib/webhook.ts:188-357 | with demo mode off, a deploy-and-invoice call still unanswered after 10 s is a plain failure whatever the server would have sent, and a Render deploy unanswered after 60 s fails with the abort error's message |
| Outbound.Settle | src/lib/webhook.ts:43-48 | data is reached exactly on a 2xx response with a JSON body; a thrown error, a non-2xx status ('Webhook returned N') and a bad body each reach the catch |
| Outbound.NonOkIsThrown | src/lib/webhook.ts:43-45 | a non-2xx response settles as a thrown 'Webhook returned N' does |
| Outbound.TriggerWebsiteBuild | src/lib/webhook.ts:13-61 | success exactly on 2xx or in demo mode, with the slug's hosting URL; demo flagged only when the call failed |
| Outbound.SendMessage | src/lib/webhook.ts:63-98 | with a response, sent exactly when it is 2xx; on a thrown error, sent exactly in demo mode |
| Outbound.TriggerDeployAndInvoice | src/lib/webhook.ts:180-234 | on reaching data, success with its build id, link and preview; on failure `{success:false}`, or the slugged demo links in demo mode; never an error text |
| Outbound.GenerateLovableBuildUrl | src/lib/webhook.ts:240-299 | on data, the server's success and URL with status 'pending'; on failure the error's message or 'Failed to generate Lovable URL'; in demo mode the prompt URL |
| Outbound.TriggerLovableDeployment | src/lib/webhook.ts:363-367 | returns exactly what generateLovableBuildUrl returns |
| Outbound.DeployToRenderFromGitHub | src/lib/webhook.ts:305-357 | on data, the server's success and URL; on failure the error's message or 'Deployment failed'; in demo mode the unslugged hosting URL |
| Outbound.NonOkLikeNetworkError | src/lib/webhook.ts:43-59 | with demo mode off, a non-2xx reply gives every call the same result as a thrown 'Webhook returned N', and that result is a failure |
| Outbound.DemoMessageAsymmetry | src/lib/webhook.ts:87-97 | in demo mode a non-2xx reply reports not sent but a thrown error reports sent |
| Outbound.LovablePassesServerSuccess | src/lib/webhook.ts:274-279 | on 2xx the server's own `success` is passed through, even when false, with status 'pending' |
| Outbound.DeployFailureHasNoError | src/lib/webhook.ts:226-232 | a failed deploy-and-invoice call carries no error text, so callers fall back to their own default |
| Stripe.Placeholder | src/lib/stripe.ts:52-58 | the placeholder link starts with 'https://buy.stripe.com/test_' |
| Stripe.PlaceholderParts | src/lib/stripe.ts:58 | after the prefix the link splits at '_' into the lower-cased package, the amount's digits (which read back as the amount) and a well-formed slug |
| Stripe.PaymentLink | src/lib/stripe.ts:37-59 | a configured non-empty link is returned unchanged; otherwise the placeholder |
| Stripe.EveryPackageGetsPlaceholder | src/lib/stripe.ts:25-31 | with the shipped empty table every package gets the placeholder |
| Stripe.StripeLoader.constructor | src/lib/stripe.ts:7 | the loader starts with no promise |
| Stripe.StripeLoader.GetStripe | src/lib/stripe.ts:9-14 | the first call stores and returns the load; later calls return the stored value and change nothing |
| Stripe.GetStripeTwice | src/lib/stripe.ts:9-14 | two calls return the same value, whatever the second load would have produced |
| Airtable.DecodeRecord | src/lib/airtable.ts:28-38 | the name is the Name field or 'Unknown Business' (never empty); text fields default to '', a missing rating to 0; the status is copied verbatim |
| Airtable.DecodeAll | src/lib/airtable.ts:28 | every record is decoded, in order |
| Airtable.EncodeFields | src/lib/airtable.ts:58-68 | the written fields carry the name, the rating and the status as given |
| Airtable.EncodeDecodeRoundTrip | src/lib/airtable.ts:28-68 | a business with a non-empty name, written and read back, is the same business under the new id; an empty name reads back as 'Unknown Business' |
| Airtable.MockBusinessesShape | src/lib/airtable.ts:94-146 | the sample list has five businesses with distinct ids '1' to '5', named, rated 5, 5, 4, 4, 3, with no status |
| Airtable.FetchBusinesses | src/lib/airtable.ts:9-43 | a request only with a key; the decoded records on a 2xx JSON reply; the sample list with no key and on any failure |
| Airtable.FetchedNamesNonEmpty | src/lib/airtable.ts:9-43 | every business fetched has a name |
| Airtable.DecodeCreated | src/lib/airtable.ts:77-87 | the created business takes the stored record's id, name, phone, address and status; place id, notes and description default to '' and a missing rating to 0, as a fetch does |
| Airtable.CreateBusiness | src/lib/airtable.ts:45-92 | no key: nothing sent and null; with a key the encoded fields are sent; a business exactly on a 2xx JSON reply |
| Airtable.CreateEchoRoundTrip | src/lib/airtable.ts:58-87 | when the service echoes the fields sent, the created business is the one given, under the new id |
| Keyboard.FindIndex | src/hooks/useKeyboardShortcuts.ts:27 | the first position with the id, or -1 when no business has it |
| Keyboard.CurrentIndex | src/hooks/useKeyboardShortcuts.ts:26-28 | -1 with nothing selected; otherwise the first position carrying the selected id, and -1 exactly when the id is not listed |
| Keyboard.UpIndex | src/hooks/useKeyboardShortcuts.ts:31-38 | the previous position when above the top, else the last; nothing on an empty list |
| Keyboard.DownIndex | src/hooks/useKeyboardShortcuts.ts:40-47 | the next position when above the bottom, else the first; nothing on an empty list |
| Keyboard.Navigate | src/hooks/useKeyboardShortcuts.ts:17-53 | input and text-area keys, other keys and an empty list select nothing; the arrows on a non-empty list always select a position in range |
| Keyboard.FindIndexDistinct | src/hooks/useKeyboardShortcuts.ts:27 | with distinct ids, each business is found at its own position |
| Keyboard.DownUpRoundTrip | src/hooks/useKeyboardShortcuts.ts:31-47 | from any business, ArrowDown then ArrowUp, and ArrowUp then ArrowDown, come back to it |
| Keyboard.NothingSelected | src/hooks/useKeyboardShortcuts.ts:26-47 | with nothing selected, ArrowDown picks the first business and ArrowUp the last |
| Revenue.PaidJobs | src/components/RevenueDashboard.tsx:32 | exactly the paid jobs: each result is a paid job of the table and each paid job is in the result |
| Revenue.PaidJobsAppend | src/components/RevenueDashboard.tsx:32 | filtering keeps store order: it distributes over concatenation |
| Revenue.RecentTransactions | src/components/RevenueDashboard.tsx:31-41 | at most five rows, the first paid jobs in store order, each copying id, name, package, amount and date from its job |
| Revenue.NewestPaidJobFirst | src/components/RevenueDashboard.tsx:31-41 | a paid job added in front becomes the first recent transaction |
| Revenue.PendingTotal | src/components/RevenueDashboard.tsx:43-45 | a table with no pending job has a total of 0; `Revenue.PendingTotalByStatus` and `Revenue.PendingTotalAppend` state the sum |
| Revenue.PendingTotalAppend | src/components/RevenueDashboard.tsx:43-45 | the outstanding total of two tables is the sum of their totals |
| Revenue.PendingTotalByStatus | src/components/RevenueDashboard.tsx:43-45 | a pending job adds its amount to the outstanding total; a paid or failed one adds nothing |
| Revenue.PendingTotalNonNegative | src/components/RevenueDashboard.tsx:43-45 | with no negative amounts the outstanding total is not negative |
| Revenue.PaidCount | src/components/RevenueDashboard.tsx:51 | the paid count never exceeds the number of jobs |
| Revenue.PaidCountAppend | src/components/RevenueDashboard.tsx:51 | the paid count of two tables together is the sum of their counts |
| Revenue.PaidCountOne | src/components/RevenueDashboard.tsx:51 | a single job counts 1 exactly when it is paid, so with `PaidCountAppend` the count is the number of paid jobs |
| Revenue.PaidCountZero | src/components/RevenueDashboard.tsx:51 | the count is 0 exactly when no job is paid |
| Revenue.TotalAmount | src/components/RevenueDashboard.tsx:47-49 | the sum of all amounts (`reduce` from 0); `Revenue.TotalAmountBounds` bounds it and `Revenue.AvgDealSize` divides it |
| Revenue.TotalAmountBounds | src/components/RevenueDashboard.tsx:48 | amounts within [lo, hi] sum to between n·lo and n·hi |
| Revenue.AvgDealSize | src/components/RevenueDashboard.tsx:47-49 | 0 with no jobs; otherwise the mean, its product with the count being the total |
| Revenue.AvgDealSizeBounds | src/components/RevenueDashboard.tsx:47-49 | the mean lies within any bounds of the amounts |
| Revenue.CloseRatePercent | src/components/RevenueDashboard.tsx:52 | between 0 and 100; 0 with no jobs; otherwise the paid share in percent |
| Revenue.PercentChange | src/components/RevenueDashboard.tsx:25-27 | 0 unless last month was positive; then the change in percent, not negative exactly when this month did at least as well |
| CallLogging.SavedStats | src/components/CallLog.tsx:62-66 | a save raises callsMade by two, conversions by one exactly for 'Interested', and leaves the other counters alone |
| CallLogging.NewLog | src/components/CallLog.tsx:52-60 | the log carries the business id and name, outcome, notes and time, an id starting 'call-', and a follow-up date exactly when one was entered |
| CallLogging.RecentCalls | src/components/CallLog.tsx:80 | the first three logs, or all of them when fewer |
| CallLogging.NewLogIsMostRecent | src/components/CallLog.tsx:80 | a newly added log is the first recent call, and the older ones move down one place |
| CallLogging.CallLogDialog.constructor | src/components/CallLog.tsx:45 | the dialog starts closed with an empty form |
| CallLogging.CallLogDialog.HandleSave | src/components/CallLog.tsx:49-78 | without a business or an outcome nothing changes; otherwise the new log is prepended, the counters become `SavedStats`, the form is cleared and the dialog closes |
| CallLogging.CallLogDialog.OnOpenChange | src/components/CallLog.tsx:91 | the dialog takes the new open state; closing it clears the form, opening keeps it |
| BuildQueue.Retry | src/components/BuildQueue.tsx:22-23 | the job with the id becomes building with no error message, through the store |
| BuildQueue.CompleteRetry | src/components/BuildQueue.tsx:25-27 | the job with the id becomes live, through the store |
| BuildQueue.RetryLifecycle | src/components/BuildQueue.tsx:22-28 | a retried job is building with no error, then live with no error; nothing else about it and no other job changes |
| BuildQueue.StatusStyleAsWritten | src/components/BuildQueue.tsx:9-17 | the written table has an entry exactly for queued, building, live and error |
| BuildQueue.StatusStyleOf | src/components/BuildQueue.tsx:9-17 | corrected: the written entries (icon, label, colour) where they exist; the three pipeline stages take the building entry |
| BuildQueue.RowOf | src/components/BuildQueue.tsx:57-123 | the row shows the job's business name and the given look; the icon spins exactly for a building job; the error message shows exactly for a failed job with a message; the preview link exactly for a live job with a URL, prefixed 'https://'; retry is offered exactly for failed jobs |
| BuildQueue.RenderAsWritten | src/components/BuildQueue.tsx:45-47 | the list draws exactly when every job's status has an entry, with one row per job |
| BuildQueue.Render | src/components/BuildQueue.tsx:45-47 | corrected: one row per job, in store order |
| BuildQueue.RenderAgrees | src/components/BuildQueue.tsx:45-47 | wherever the written list draws, it is the corrected list |
| BuildQueue.RetryHidesError | src/components/BuildQueue.tsx:113-123 | a retried job offers no retry and shows no error |
| BuildQueue.DeployingCallbackBreaksList | src/components/BuildQueue.tsx:46-47 | a 'deploying' callback handled against the panel's own table leaves its job auto-deploying; the written list then cannot be drawn, while the corrected one can |
| BuildQueue.PipelineStagesDoNotSpin | src/components/BuildQueue.tsx:57-62 | with the completed table a pipeline-stage job takes the building look, but its icon does not spin: only 'building' spins |
| DeployInvoice.GetAmount | src/components/DeployInvoice.tsx:29-35 | for 'Custom' the parsed amount or 0; otherwise the listed package's price, or 0 |
| DeployInvoice.PositiveAmountSource | src/components/DeployInvoice.tsx:29-48 | a positive amount comes from a positive custom entry or a listed package with a positive price |
| DeployInvoice.NewJob | src/components/DeployInvoice.tsx:55-64 | the new job is queued and pending, for the business, package, amount and time, with no preview, error or deployment status |
| DeployInvoice.FinishPatch | src/components/DeployInvoice.tsx:77-118 | success: building with the returned preview; failure: error with the returned text or 'Deployment failed'; thrown: error 'Network error' |
| DeployInvoice.DeployInvoicePanel.constructor | src/components/DeployInvoice.tsx:15-24 | the panel starts with no package, no e-mail, not busy and no summary |
| DeployInvoice.DeployInvoicePanel.BeginDeploy | src/components/DeployInvoice.tsx:37-64 | a job is started exactly with a business, a package, an e-mail and a positive amount; it is then queued in front with id 'build-'+time and the panel is busy; otherwise nothing changes |
| DeployInvoice.DeployInvoicePanel.FinishDeploy | src/components/DeployInvoice.tsx:66-127 | the job is updated by `FinishPatch`; the panel is not busy on every path; the summary is set and completion scheduled exactly on success |
| DeployInvoice.DeployInvoicePanel.CompleteSimulatedBuild | src/components/DeployInvoice.tsx:96-100 | the job goes live, sitesBuilt rises by one, and a shown summary becomes live |
| DeployInvoice.DeployLifecycle | src/components/DeployInvoice.tsx:52-118 | for a fresh id: queued in front, then building with the preview and later live, or an error with the returned text, 'Deployment failed' or 'Network error'; the other jobs are untouched |
| DeployInvoice.DeployFailureText | src/components/DeployInvoice.tsx:102-106 | against the real deploy call, a failed deploy always records 'Deployment failed' |

## Left out

- Rendering, styling and the React wiring: hooks, effects, the key listener's registration, the dialogs' markup. Only the conditions that decide what a row shows are modelled (`BuildQueue.RowOf`).
- Notifications and console output. The deployment-status notification is modelled, because one property is about it. The other panels' notifications are not.
- Network I/O and timers. Every `fetch` outcome is an input, and every `setTimeout` continuation is a later method. The request bodies sent to the automation server, its URLs and the `Authorization` headers are not modelled.
- The clock. `Date.now()`, `new Date()` and `toISOString()` are parameters (a `nat` or a string).
- Floating point. Amounts and ratings are exact reals, so rounding is not modelled: `toFixed`, `toLocaleString`, `Math.round(amount * 100)` and the chart's random data.
- `parseFloat`. `DeployInvoice.GetAmount` takes the parsed value as an input, None for NaN.
- Stripe.Placeholder: the amount is a whole number. JavaScript's rendering of fractional amounts is not modelled.
- Lower-casing covers ASCII letters only. Other characters are kept as they are. `encodeURIComponent` is an input (`Outbound.GenerateLovableBuildUrl`).
- Stripe checkout sessions, redirect and payment intents: network calls outside the core.
- Storage: `localStorage` persistence is modelled as the persisted projection and its reload. Storage itself is not.
- The package price list is imported from a file that is not part of this model. It is a parameter (`prices`).
- The deploy panel's mark-as-paid and copy-to-clipboard handlers. They call a celebration action that the store does not define.
- The sale celebration, the e-mail invoice, quick outreach and add-customer forms, and the purely presentational components.
- Revenue.PercentChange takes the month totals as inputs. The `revenueStats` it reads is not defined in the store.
- Revenue: the shipped panel reads `revenueStats` from the store, which never defines it, so every render throws at `revenueStats.lastMonth` (src/components/RevenueDashboard.tsx:25) before any figure is shown. The Revenue members model the figures the panel would compute once that value exists, not a panel that renders.
- Airtable.DecodeCreated: a stored record missing its name, phone or address gives `undefined` in the source. The model reads it as "".
- Outbound.TriggerWebsiteBuild: the reply body is never read, so it is not an input.
- Separate stores. The model passes one `Store.AppStore` to `WebhookServer.Post` and to the panels. In the shipped code the endpoint (server/api/webhooks/deployment-status.js) runs on the server, and `useAppStore.getState()` there is a store of its own. Its table starts empty and nothing on the server adds jobs, so every authorised, well-formed callback answers 200 and finds no job (`WebhookServer.UnknownBusinessLooksProcessed` with an empty table). The model's callback-then-panel properties (`BuildQueue.DeployingCallbackBreaksList`) hold only when the handler runs against the page's store.
- Unreachable catches:
  - The endpoint's 500 reply: the parser catches everything, and `WebhookServer.ServeCodes` proves this reply never happens.
  - The deploy panel's 'Network error' path: the deploy call catches everything. It is still modelled (`DeployInvoice.FinishPatch`), since the panel does not rely on that.
- `DeploymentStatus.Payload`: a JSON body that is an array, a number or a string reads like an object whose fields are all missing. Only a `null` body makes the handler throw. A field holding a value that is not a string (`{"businessId": 42}`, `{"status": true}`) is not represented either: such a businessId matches no job, and such a status is stored as it is while its job becomes queued.

## Findings

| source | as written | input that shows it | evidently intended | confidence | as-written member | corrected member |
|---|---|---|---|---|---|---|
| cloudflare-worker/index.ts:36-43 | `return proxyToN8nAPI(...)` inside `try` without `await`, so a rejected upstream `fetch` escapes the `catch` and the worker's promise rejects | any `/api/v1/` or `/webhook/` request whose upstream call throws | the catch answers 500 'Internal server error' | not executed | Worker.FetchAsWritten (shown by Worker.UpstreamFailure) | Worker.Fetch |
| cloudflare-worker/index.ts:82-84 | `...corsHeaders` spreads a `Headers` object, which copies none of its entries, so a proxied reply carries only Content-Type | GET `/api/v1/workflows` with Origin `https://app.example` and that origin allowed | the proxied reply carries the CORS headers, allowing the listed origin | not executed | Worker.FetchAsWritten (shown by Worker.ProxiedReplyLacksCors) | Worker.Fetch (with Worker.ProxiedReply) |
| src/components/BuildQueue.tsx:9-17 | `statusConfig` has entries for four statuses only, so `config.icon` fails for a job in auto-deploying, github-creating or render-provisioning | a 'deploying' callback for a business with a job, handled against the store the queue panel draws, then drawing the queue. The shipped server endpoint handles callbacks against its own store, whose table is empty, so a shipped deployment does not reach this state (see "## Left out") | every status has a look; the pipeline stages take the building entry's icon, label and colour (the icon spins only for 'building', which the row decides from the status, not the table) | not executed | BuildQueue.RenderAsWritten (shown by BuildQueue.DeployingCallbackBreaksList) | BuildQueue.Render (with BuildQueue.RenderAgrees) |
