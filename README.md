# Redundant-workflow canceller for CircleCI, modelled in Dafny

`circleci-cancel-redundant-cli` runs inside a CircleCI job. It cancels the
other runs of the same workflow on the same branch that are still on hold
or running, so that only the run doing the cancelling goes on. The rule
compares no ages: a run cancels newer runs as well as older ones. It does
this in one pass:

1. It reads the organisation, repository, workflow id and API token from
   the environment.
2. It fetches the current workflow, and only then reads the branch.
3. It lists the branch's pipelines, first page only.
4. For every pipeline in the `created` state, it lists the pipeline's
   workflows.
5. It cancels every workflow that is `on_hold` or `running`, has the
   current workflow's name and is not the current workflow.

Any failed request ends the run with an error. Cancels already issued
stay issued. A request fails only when it cannot be built, sent, read or
decoded; an HTTP error status is not a failure.

The model:

- `Config` (config.dfy) reads the environment. The required-value check
  `OrError` and the five readers are functions over an environment map.
  An unset variable reads as `""`, as with `os.Getenv`.
- `CircleApi` (circle_api.dfy) holds the records the run reads
  (`Workflow`, `Pipeline`), the four requests it can issue (`Request`,
  with its HTTP method and path), the project slug `gh/<org>/<repo>`, and
  `Server`. A `Server` value is the API's answer to every request of one
  run: the decoded response, or the reason the request failed.
- `Policy` (policy.dfy) holds the selection rule of line 239
  (`ShouldCancel`) and the `created` state test. `Selected` is the
  declarative filter: the ids to cancel, with created pipelines in list
  order and each pipeline's workflows in list order.
- `Canceler` (canceler.dfy) holds the run itself.
  - `Run` is the reference function: the requests the run issues, in
    order, and the error it ends with.
  - `DoCancelRedundantWorkflow` is the imperative run. The nested loop is
    split into `CancelRedundant` (pipelines) and `CancelRedundantIn`
    (one pipeline's workflows), with `continue` and early returns as in
    the source.
  - Each method returns the log of the requests it issued and its error,
    and is proved equal to the reference function.
- `CancelerProofs` (canceler_proofs.dfy) proves what a run does:
  - which workflows it cancels, and in what order;
  - which pipelines it lists;
  - that it never cancels itself;
  - that it stops at the first failure;
  - in which order missing environment values are noticed.

One might expect every missing environment value to be caught before any
request is sent. The code reads `CIRCLE_BRANCH` only after the current
workflow has been fetched (cmd/root.go:212-220). The model follows the
code, and `RunBranchReadAfterFirstRequest` states this order.

## Model

| member | source | states |
|---|---|---|
| Errors.MissingEnvMessageNamesKey | cmd/root.go:182-282 | the message of an error for a missing value starts with `doCancelRedundantWorkflow: ` and ends with `required env var <key> is not provided`, naming the missing key, whatever step read it |
| Errors.RequestFailedMessageEndsWithReason | cmd/root.go:75-99 | the message of an error for a failed request starts with `doCancelRedundantWorkflow: ` and ends with `request: ` followed by the reason the request failed |
| Errors.DescribeDistinguishesSteps | cmd/root.go:182-242 | the nine steps are described by nine different texts |
| Config.OrError | cmd/root.go:276-282 | the result is an error naming the key exactly when the variable is unset or empty; otherwise it is the variable's value, unchanged |
| Config.CircleProjectUsername | cmd/root.go:252-254 | reads exactly `CIRCLE_PROJECT_USERNAME` under the required-value rule |
| Config.CircleProjectReponame | cmd/root.go:256-258 | reads exactly `CIRCLE_PROJECT_REPONAME` under the required-value rule |
| Config.CircleBranch | cmd/root.go:260-262 | reads exactly `CIRCLE_BRANCH` under the required-value rule |
| Config.CircleWorkflowId | cmd/root.go:268-270 | reads exactly `CIRCLE_WORKFLOW_ID` under the required-value rule |
| Config.CircleToken | cmd/root.go:272-274 | reads exactly `CIRCLE_TOKEN` under the required-value rule |
| CircleApi.SlugRoundTrip | cmd/root.go:209 | the project slug splits at '/' back into exactly `["gh", org, repo]` when org and repo contain no '/'; so the vcs segment is always "gh" |
| CircleApi.PathDeterminesRequest | cmd/root.go:212-240 | a request's path determines its kind, and for the workflow fetch, the pipeline-workflow listing and the cancel request also its id: no two different requests share a path unless both are pipeline listings |
| Policy.SelectedInMembership | cmd/root.go:238-239 | an id is selected from a workflow list exactly when some listed workflow with that id is `on_hold` or `running`, has the current name and is not the current id |
| Policy.SelectedMembership | cmd/root.go:229-239 | an id is selected exactly when some pipeline in the `created` state lists a workflow with that id that the line-239 rule accepts |
| Policy.NeverSelectsCurrent | cmd/root.go:239 | the current workflow id is never selected, whatever the server lists |
| Policy.SelectedInSkipsInactive | cmd/root.go:239 | a workflow whose status is neither `on_hold` nor `running`, or whose name differs from the current name, can be removed from a listing without changing the selection |
| Policy.SelectedIgnoresUncreated | cmd/root.go:229-232 | the selection over all pipelines equals the selection over the created pipelines alone |
| Canceler.DoCancelRedundantWorkflow | cmd/root.go:179-250 | the requests the run issues, in order, and the error it returns are exactly those of the reference function `Run` |
| Canceler.CancelRedundant | cmd/root.go:227-247 | the outer loop issues exactly the requests, and returns exactly the error, of the reference scan over the pipelines |
| Canceler.CancelRedundantIn | cmd/root.go:238-246 | the inner loop issues exactly the cancel requests, and returns exactly the error, of the reference scan over one pipeline's workflows |
| CancelerProofs.ScanWorkflowsCancels | cmd/root.go:238-246 | within one pipeline, the cancelled ids are in order a prefix of the selected ids, all of them when no cancel fails |
| CancelerProofs.ScanWorkflowsStops | cmd/root.go:240-243 | within one pipeline, only the last cancel can have failed, and only when the scan reports that failure as a cancel error |
| CancelerProofs.ScanWorkflowsSucceeds | cmd/root.go:238-246 | the scan of one pipeline succeeds exactly when every selected cancel succeeds |
| CancelerProofs.ScanWorkflowsListsNoPipeline | cmd/root.go:238-246 | scanning one pipeline's workflows issues no pipeline listing |
| CancelerProofs.ScanPipelinesCancels | cmd/root.go:229-247 | cancelled ids are in order a prefix of the selection over all created pipelines, and all of it when the loop succeeds |
| CancelerProofs.ScanPipelinesFetches | cmd/root.go:229-237 | the pipelines whose workflows are listed are in order a prefix of the created pipelines, and all of them when the loop succeeds; other pipelines are skipped |
| CancelerProofs.ScanPipelinesStops | cmd/root.go:234-243 | in the loop, only the last request can have failed, and the loop's error is always that request's failure: the step that issued it and the server's reason |
| CancelerProofs.ScanPipelinesSucceeds | cmd/root.go:229-247 | the loop succeeds exactly when every created pipeline can be listed and every selected workflow can be cancelled |
| CancelerProofs.ScanPipelinesSplit | cmd/root.go:229-247 | when every request the first k pipelines need succeeds, the loop issues their requests and then continues exactly as it would from pipeline k |
| CancelerProofs.ScanPipelinesListingFails | cmd/root.go:229-237 | when the listing of created pipeline k is the first failure, the loop stops with that listing's error, having cancelled exactly the selection over the first k pipelines and listed exactly their created ones and pipeline k |
| CancelerProofs.RunReachingScan | cmd/root.go:212-227 | a run that passes every check issues the current-workflow fetch and the pipeline listing, then scans the listed pipelines with the current workflow's name and the environment's workflow id |
| CancelerProofs.RunNotReachingScan | cmd/root.go:180-225 | a run that fails a check or one of the two initial requests ends in an error, having listed no workflows and cancelled nothing |
| CancelerProofs.RunCancelsSelected | cmd/root.go:229-246 | a run's cancels are in order a prefix of the selection over the listed pipelines, exactly the selection when it succeeds; the same for listed versus created pipelines; it succeeds exactly when all those requests succeed |
| CancelerProofs.RunCancelsOnlyRedundant | cmd/root.go:239 | every workflow a run cancels was listed by a created pipeline, is `on_hold` or `running`, has the current name, and is not the current workflow |
| CancelerProofs.RunKeepsCancelsBeforeFailedListing | cmd/root.go:229-237 | a run whose first failure is the listing of created pipeline k returns that listing's error and keeps exactly the cancels selected from the pipelines before k |
| CancelerProofs.RunPostsOnlySelectedCancels | cmd/root.go:212-240 | the only requests a run sends with POST are cancels, and each cancels a selected workflow |
| CancelerProofs.RunListsOnlyCreated | cmd/root.go:229-234 | a run lists the workflows only of pipelines in the `created` state |
| CancelerProofs.RunStopsAtFirstFailure | cmd/root.go:212-243 | the only request of a run that can have failed is its last one, and only when the run ends with that request's failure, naming the step that issued it and the server's reason: nothing is issued after a failure |
| CancelerProofs.RunMissingConfig | cmd/root.go:180-199 | a run issues no request exactly when the organisation, repository, workflow id or token is missing, and its error names the first missing one in reading order |
| CancelerProofs.RunBranchReadAfterFirstRequest | cmd/root.go:212-220 | with the first four values present, the first request is the current-workflow fetch; if it fails the branch is never read; a missing branch ends the run after exactly that request |
| CancelerProofs.ExampleCancelsOnlyTheOtherActiveRun | cmd/root.go:229-246 | current workflow "build"/"W1" and one created pipeline listing W1 running, W2 on hold and W3 succeeded: the run issues the workflow fetch, the pipeline listing, the listing of that pipeline and one cancel, for W2, and succeeds |

## Left out

- HTTP request construction, sending, body reading and JSON decoding in `request` (cmd/root.go:71-102) are not modelled. They are network I/O and reflection-based decoding. `Server` stands for their outcome: a response or a failure reason.
- `request` never looks at the HTTP status code (cmd/root.go:82-101). A 401 or 404 answer whose body is JSON decodes to zero values and counts as success: the run goes on with empty fields, and a cancel the server rejected still counts as done. A `Server` may give such answers, as a `Success` with empty fields, but the model does not tell them apart from real successes. Given the literal `"token"` header below, real runs would likely get exactly these answers.
- `Server` gives the same answer to the same request throughout one run. A real server could answer the same listing or cancel differently if it were repeated within a run.
- The `Circle-Token` header is not modelled. The source sends the literal string `"token"` (cmd/root.go:79), not the configured token. So the token is read and checked for presence, and then takes part in no request.
- `request` shares the client's `basePath` URL instead of copying it (cmd/root.go:72-73), so each call's path is joined onto the previous call's. The model gives each request its own path below the base URL, as the calls evidently intend.
- The `?branch=` query is joined into the URL path rather than set as a query string (cmd/root.go:222). `Request.Path` shows the path string as formatted. Escaping and `path.Join` cleaning are not modelled.
- Parsing the constant base URL (cmd/root.go:201-204) cannot fail. That error branch is left out.
- Pagination is not modelled. Only the first page of pipelines and of workflows is read, as in the source; `NextPageToken` is never followed.
- Timestamps (`CreatedAt`, `StoppedAt`) and the other response fields the decision does not use are not modelled. The source never reads them either, so no run is older or newer than another in the rule.
- Printed output (`log.Printf`, `fmt.Printf`, `fmt.Println`) is not modelled. The message of a cancel response is only printed (cmd/root.go:244), so `Server.cancelWorkflow` answers a successful cancel with no payload; a cancel counts only as success or failure.
- The Cobra command table, the unused `toggle` flag, `Execute` and `os.Exit` (cmd/root.go:24-63) are CLI plumbing and are not modelled.
- `circleUserName` (cmd/root.go:264-266) is never called and is not modelled.
