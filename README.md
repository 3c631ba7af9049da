# Deployment-job lifecycle of the octopush jobs controller, in Dafny

This project models the core of octopush's `JobsController`. The controller tracks deployment jobs: a request to build a module at a version, test it in staging, and promote it ("go live") to production. The model covers:

- the job statuses and the job record;
- the cancel transition table;
- the permission gate (`canBePushedLive`);
- the lifecycle actions `createJob`, `cancel`, `goLive`, `rollback`, `registerTestJobUrl`, `registerTestJobResult` and `registerTestResult`;
- the read side: the status sets of the six dashboard lists, the `deploying` summary, and the display flags and version link that `fillResults` attaches to every job.

Files and modules:

- `wrappers.dfy` (`Wrappers`): `Option`, `Result`, and `Call`, the outcome of an external call (it returned a value or raised an exception).
- `jobs.dfy` (`Jobs`): `JobStatus`, the stored `JobRecord`, and the `Job` class that actions mutate. Its target fields are `const`, so nothing can change them after creation.
- `store.dfy` (`Store`): the job mapper. `Db` is its value: rows by id plus the next id. `Persist` is save as a function. The `JobMapper` class holds `rows: map<int, JobRecord>`. `Get` builds a fresh `Job` from a row. `Save` updates the row of a job that has an id and inserts any other job under a fresh id.
- `lifecycle.dfy` (`Lifecycle`): the gate, the transition steps (`CancelStep`, `GoLiveStep`, `RollbackStep`), and each action as a function over `Db` (`ServeCancel`, ...). `Run` serves any sequence of requests. The lemmas state what each action does and what every run preserves.
- `readside.dfy` (`ReadSide`): the list status sets, `Classify`, `Enrich`, `VersionLink` and `DeployingSummary`.
- `controller.dfy` (`Controller`): the `JobsController` class. Each action is imperative, like the source: load, mutate the `Job` step by step, save. Each action's `ensures` proves that it leaves the mapper and answers exactly as the matching `Serve*` function says. `FillResults` is the enrichment loop.

External collaborators become inputs:

- The session's caller is an `Actor` parameter: permission set, e-mail and user name.
- The ticketing service's `canMemberGoLive` is a function-valued field of the controller.
- Each `preDeploy` or `postDeploy` call is a `Call` parameter of the action.
- The build runner's console URL and the version regular expression are function-valued fields. The expression is modelled as "the first match, if any".
- The mapper's status queries are not modelled. Their result is the input of `FillResults` and `DeployingSummary`.

Behaviours of the code worth knowing, which the model keeps as written:

- The test-result callbacks move a job from any status, not only from pending tests.
- `rollback` does not check that the rollback ticket is set. `Lifecycle.RollbackMayQueueWithoutTicket` shows a rollback that queues a job for live without a ticket.
- On the no-ticket path, `goLive` leaves any earlier ticket in place; it does not clear it. `Lifecycle.GoLiveFailureKeepsEarlierTicket` shows a reachable job that fails go-live still carrying an old ticket.
- `goLive` tests the e-mail with PHP's `empty()` (null, `""` and `"0"` are empty) and falls back to the user name; `rollback` stores the e-mail as it is, even when it is empty.
- `goLive` tests the pre-deploy ticket with `isset`, so an empty ticket `""` still queues the job for live. `Lifecycle.GoLiveMayQueueWithEmptyTicket` shows a go-live that answers `QUEUED_FOR_LIVE` with ticket `""`; `Lifecycle.GoLiveQueuesOnlyWithTicket` promises only that a ticket is set.
- A refused `goLive` or `rollback` is still reported with status `"Error"`. It differs from a caught exception's reply (status `"error"`) only in the capital letter, in carrying the job's status and id, and in having no detail. The model keeps the two apart as `NotPermitted` and `Failed`.
- `_canCancel` depends on the gate only, not on the status. `ReadSide.CancelFlagIgnoresStatus` shows it disagreeing with `cancel` both ways.

## Model

| member | source | states |
|---|---|---|
| `Jobs.NewJob` | src/Controllers/JobsController.php:69 | `Job::createWith` gives an unsaved job, status `QUEUED`, with the given target and requestor and no ticket, user, rollback origin, test URL or deployment and live job ids |
| `Jobs.Job.CreateWith` | src/Controllers/JobsController.php:234-235 | the job object built by `createWith` saves as `NewJob` of its arguments |
| `Jobs.Job.FromRecord` | src/Controllers/JobsController.php:432 | a job rebuilt from a stored record saves back as that same record |
| `Jobs.Job.MoveStatusTo` | src/Controllers/JobsController.php:129 | moving the status changes the status and nothing else |
| `Jobs.Job.SetUser` | src/Controllers/JobsController.php:168-172 | setting the user changes the user and nothing else |
| `Jobs.Job.SetTicket` | src/Controllers/JobsController.php:177 | setting the ticket changes the ticket and nothing else |
| `Jobs.Job.SetRollbackedFrom` | src/Controllers/JobsController.php:237 | setting the rollback origin changes it and nothing else |
| `Jobs.Job.SetTestJobUrl` | src/Controllers/JobsController.php:272 | setting the test job URL changes it and nothing else |
| `Store.Persist` | src/Controllers/JobsController.php:70 | save writes the job under its id, or under a fresh id when it has none; no other row changes, the id counter moves only on insert, and stored ids stay consistent |
| `Store.JobMapper.Get` | src/Controllers/JobsController.php:115 | a job is found exactly when a row has that id, as a fresh object equal to the row |
| `Store.JobMapper.Save` | src/Controllers/JobsController.php:130 | the mapper's new state is `Persist` of the old state and the job, and the job object receives its id |
| `Lifecycle.CanBePushedLive` | src/Controllers/JobsController.php:352-367 | the gate passes exactly when a permission set is resolved and the ticketing service allows it to deploy the module; no permission set means false |
| `Lifecycle.Promoter` | src/Controllers/JobsController.php:168-172 | go-live records the e-mail unless it is empty (null, "" or "0"), otherwise the user name |
| `Lifecycle.CancelTarget` | src/Controllers/JobsController.php:117-121 | exactly `QUEUED` and `QUEUED_FOR_LIVE` can be cancelled, and both lead to a terminal status |
| `Lifecycle.CancelStep` | src/Controllers/JobsController.php:117-129 | cancel succeeds exactly for a cancellable status, and for `QUEUED_FOR_LIVE` only with the gate and a ticketing cancel that did not raise; success changes only the status, to a terminal one; an uncancellable status raises `CannotCancel` |
| `Lifecycle.GoLiveStep` | src/Controllers/JobsController.php:165-181 | refused exactly without the gate or outside `TESTS_PASSED`; otherwise the user becomes the promoter; with a ticket, status `QUEUED_FOR_LIVE` and that ticket; without one, `GO_LIVE_FAILED` with the ticket untouched; a raising pre-deploy saves nothing |
| `Lifecycle.RollbackJob` | src/Controllers/JobsController.php:234-242 | the rollback job is new, has the old job's target and requestor, is `QUEUED_FOR_LIVE`, points back at the old id, and carries the rollback ticket and the e-mail; it has no test URL and no deployment or live job id of its own |
| `Lifecycle.RollbackStep` | src/Controllers/JobsController.php:220-242 | refused exactly without the gate or when the old job did not go live; otherwise commits exactly `RollbackJob` of the old job, the returned ticket and the e-mail, unless the pre-deploy call raised |
| `Lifecycle.TestResultStatus` | src/Controllers/JobsController.php:299 | the callback records `TESTS_PASSED` exactly for the string "true" and `TESTS_FAILED` otherwise |
| `Lifecycle.ServePreservesWellFormed` | src/Controllers/JobsController.php:48-350 | every action keeps ids consistent and rollback origins pointing at older stored jobs, never deletes a row, and never changes a row's target, requestor or rollback origin |
| `Lifecycle.RunPreservesWellFormed` | src/Controllers/JobsController.php:48-350 | the same holds after any sequence of actions: jobs are never deleted, and a job's target, requestor and rollback origin never change |
| `Lifecycle.ServeFollowsTable` | src/Controllers/JobsController.php:112-350 | an action changes a stored job's status only along the cancel, go-live or test-callback edges; created jobs start `QUEUED` and rollback jobs start `QUEUED_FOR_LIVE` |
| `Lifecycle.CreateJobRejectsUnknownModule` | src/Controllers/JobsController.php:58-66 | an unknown module is answered with the error "<module> is not a valid module to push." and nothing is saved |
| `Lifecycle.CreateJobQueuesTestingJob` | src/Controllers/JobsController.php:68-76 | a known module inserts one new `QUEUED` job with environment "testing" under a fresh id, which is returned |
| `Lifecycle.CancelTable` | src/Controllers/JobsController.php:117-130 | `QUEUED` is cancelled to `DEPLOY_FAILED` whoever asks; `QUEUED_FOR_LIVE` is cancelled to `GO_LIVE_FAILED` with the gate and a ticketing cancel that did not raise, and fails without the gate; any other status fails and nothing is saved |
| `Lifecycle.CancelTwiceFails` | src/Controllers/JobsController.php:117-121 | a second cancel of a just-cancelled job fails with `CannotCancel` and changes nothing |
| `Lifecycle.CancelConsultsTicketingOnlyWhenQueuedForLive` | src/Controllers/JobsController.php:123-127 | unless the job is `QUEUED_FOR_LIVE`, cancel's effect depends neither on the gate nor on the ticketing service |
| `Lifecycle.GoLiveRefusalSavesNothing` | src/Controllers/JobsController.php:190-199 | without the gate or outside `TESTS_PASSED`, go-live answers with status "Error", the current status and the refusal message, with no detail, unlike a caught exception; nothing is saved |
| `Lifecycle.GoLivePermitted` | src/Controllers/JobsController.php:168-189 | a permitted go-live saves the job with the promoter as user, and either `QUEUED_FOR_LIVE` with the ticket or `GO_LIVE_FAILED`; no other row and no id changes |
| `Lifecycle.GoLiveQueuesOnlyWithTicket` | src/Controllers/JobsController.php:174-178 | go-live never leaves a job `QUEUED_FOR_LIVE` without a ticket set (possibly empty, as `isset` allows) |
| `Lifecycle.GoLiveMayQueueWithEmptyTicket` | src/Controllers/JobsController.php:174-178 | a witness that an empty ticket from pre-deploy passes the `isset` test and queues the job for live with ticket `""` |
| `Lifecycle.GoLiveFailureKeepsEarlierTicket` | src/Controllers/JobsController.php:176-181 | a re-tested job that had a ticket fails go-live without a new ticket and keeps the old one |
| `Lifecycle.RollbackRefusalSavesNothing` | src/Controllers/JobsController.php:220-232 | without the gate or when the job did not go live, rollback answers with status "Error", the old job's status and the refusal message, with no detail, unlike a caught exception; nothing is saved |
| `Lifecycle.RollbackInsertsNewJob` | src/Controllers/JobsController.php:234-249 | a rollback inserts exactly one job under a fresh id different from the old one, with the old target, `QUEUED_FOR_LIVE`, rollback origin the old id, the rollback ticket and the e-mail, no test URL and no deployment or live job id; the old job's row is unchanged |
| `Lifecycle.RollbackMayQueueWithoutTicket` | src/Controllers/JobsController.php:240-241 | a rollback that gets no ticket still queues the new job for live, without a ticket |
| `Lifecycle.RegisterTestJobUrlChangesOnlyUrl` | src/Controllers/JobsController.php:266-279 | registering a test job URL changes that job's URL and nothing else |
| `Lifecycle.RegisterTestResultFromAnyStatus` | src/Controllers/JobsController.php:299-309 | the test callback applies from any status, changes only the status, and the job can go live afterwards exactly when the result was "true" |
| `ReadSide.Classify` | src/Controllers/JobsController.php:418-509 | every status shows in one of the six environment lists, and exactly the terminal and tests-passed statuses show in a deployed list |
| `ReadSide.ListsPartitionStatuses` | src/Controllers/JobsController.php:418-509 | the six lists' status sets are disjoint and cover every status |
| `ReadSide.CancelEmptiesQueue` | src/Controllers/JobsController.php:117-118 | cancel moves a job from an environment's queue to the same environment's deployed list |
| `ReadSide.GoLiveCrossesToProduction` | src/Controllers/JobsController.php:165-181 | a committed go-live moves a job from staging's deployed list into a production list |
| `ReadSide.VersionLink` | src/Controllers/JobsController.php:454-459 | the link always starts with prefix + module; when the pattern does not match it is exactly that, and otherwise it continues with the version URI and the matched text |
| `ReadSide.Enrich` | src/Controllers/JobsController.php:436-444 | the three flags are all false without the gate; go-live is shown only for `TESTS_PASSED`, rollback only for `GO_LIVE_DONE`, never both; cancel follows the gate; the console URL and version link are the ones given and the deploy references are the job's own |
| `ReadSide.FlagsAgreeWithActions` | src/Controllers/JobsController.php:439-442 | the go-live and rollback flags are true exactly when that action would not be refused |
| `ReadSide.CancelFlagIgnoresStatus` | src/Controllers/JobsController.php:444 | the cancel flag is shown for a finished job that cancel rejects, and hidden for a queued job that cancel accepts |
| `ReadSide.DeployingSummary` | src/Controllers/JobsController.php:373-393 | idle exactly when no job is going live; otherwise the module and version of the first job the mapper returned |
| `Controller.JobsController.constructor` | src/Controllers/JobsController.php:27-46 | the controller keeps its configuration and collaborators |
| `Controller.JobsController.CreateJob` | src/Controllers/JobsController.php:48-88 | the mapper's new state and the reply are exactly `ServeCreateJob` of the old state |
| `Controller.JobsController.Cancel` | src/Controllers/JobsController.php:112-149 | the mapper's new state and the reply are exactly `ServeCancel` of the old state |
| `Controller.JobsController.GoLive` | src/Controllers/JobsController.php:157-210 | the mapper's new state and the reply are exactly `ServeGoLive` of the old state |
| `Controller.JobsController.Rollback` | src/Controllers/JobsController.php:212-264 | the mapper's new state and the reply are exactly `ServeRollback` of the old state |
| `Controller.JobsController.RegisterTestJobUrl` | src/Controllers/JobsController.php:266-292 | the mapper's new state and the reply are exactly `ServeRegisterTestJobUrl` of the old state |
| `Controller.JobsController.RegisterTestJobResult` | src/Controllers/JobsController.php:294-322 | the mapper's new state and the reply are exactly `ServeRegisterTestResult` of the old state |
| `Controller.JobsController.RegisterTestResult` | src/Controllers/JobsController.php:324-350 | the mapper's new state and the reply are exactly `ServeRegisterTestResult` of the old state |
| `Controller.JobsController.FillResults` | src/Controllers/JobsController.php:429-465 | one enriched record per input job, in order, each with the gate, flags, console URL, deploy references and version link of `Enrich` |

## Left out

- Timestamps are not modelled: `queuedAt`, `updatedAt` and their refresh on status change, and the `_serverTime`, `_queued_at` and `_updated_at` display fields. They come from the system clock and date formatting.
- HTTP parameter reading, JSON framing and logging are not modelled. Replies are the `Reply` datatype without the JSON envelope, and the `"-"` fields of the idle `deploying` reply are not modelled.
- Building the session from the `access_token` request value (`getKeyAndSession`) is not modelled. The resolved caller is the `Actor` parameter.
- `my_components`, `getPageSize` and `getRepoFilter` are not modelled. They read session or request globals.
- `getJobStatus` is not modelled. It is a plain read.
- `all`, `queued`, `inprogress` and `deployed` are not modelled: they only frame JSON around the list queries and the request values left out above (page size, repository filter). Their status sets are modelled (`QueuedStatuses`, `InProgressStatuses`, `DeployedStatuses`).
- The mapper's SQL queries are not modelled: status filter, module filter and page size. Their result is the input of `FillResults` and `DeployingSummary`, so the model does not prove that those jobs have the requested statuses.
- Store.JobMapper.Save: a failure of the database is not modelled. Save always succeeds, so the `catch` branches that only a failing save reaches are not modelled.
- Lifecycle.CanBePushedLive: the ticketing service's `canMemberGoLive` is a total pure function. An exception raised by it is not modelled.
- Lifecycle.RollbackStep: the ticketing service's `preDeploy` is a `Call` parameter, not a function of the job. So the fact that the rollback job briefly carries the old job's ticket when `preDeploy` is called is not visible in the model.
- Controller.JobsController.RegisterTestJobResult: `success` is a string. PHP's loose `==` also accepts other values: the boolean `true` counts as "true", and in PHP 7 so does `0`. Those values are not modelled.
- The build runner's console URL and the version regular expression are abstract functions. Neither the URL format nor the regex engine is modelled.
- Concurrency and stale writes are not modelled. Actions run one at a time on the mapper, and the source has no concurrency control.
