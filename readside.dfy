/** The read side of the dashboard: which statuses each environment's queue,
    in-progress and deployed lists show, the per-job display fields that the
    enrichment step attaches, and the "deploying" summary. */
module ReadSide {
  import opened Wrappers
  import opened Jobs
  import opened Lifecycle

  /** The two environments the dashboard lists (`Version::STAGING`,
      `Version::PRODUCTION`). */
  datatype Environment = Staging | Production

  /** The three lists each environment shows. */
  datatype Bucket = Queue | InProgress | Deployed

  /** `_queued`: the statuses of jobs waiting in an environment's queue. */
  function QueuedStatuses(env: Environment): set<JobStatus> {
    match env
    case Staging => {Queued}
    case Production => {QueuedForLive}
  }

  /** `_inprogress`: the statuses of jobs an environment is working on. */
  function InProgressStatuses(env: Environment): set<JobStatus> {
    match env
    case Staging => {Deploying, PendingTests}
    case Production => {GoingLive}
  }

  /** `_deployed`: the statuses of jobs an environment has finished with. */
  function DeployedStatuses(env: Environment): set<JobStatus> {
    match env
    case Staging => {TestsPassed, TestsFailed, DeployFailed}
    case Production => {GoLiveDone, GoLiveFailed}
  }

  function Statuses(env: Environment, bucket: Bucket): set<JobStatus> {
    match bucket
    case Queue => QueuedStatuses(env)
    case InProgress => InProgressStatuses(env)
    case Deployed => DeployedStatuses(env)
  }

  /** The list a job of the given status appears in. */
  function Classify(s: JobStatus): (r: (Environment, Bucket))
    ensures s in Statuses(r.0, r.1)
    ensures r.1 == Deployed <==> s.IsTerminal() || s.CanGoLive()
  {
    match s
    case Queued => (Staging, Queue)
    case Deploying => (Staging, InProgress)
    case PendingTests => (Staging, InProgress)
    case TestsPassed => (Staging, Deployed)
    case TestsFailed => (Staging, Deployed)
    case DeployFailed => (Staging, Deployed)
    case QueuedForLive => (Production, Queue)
    case GoingLive => (Production, InProgress)
    case GoLiveDone => (Production, Deployed)
    case GoLiveFailed => (Production, Deployed)
  }

  /** The six lists partition the statuses: a status shows in exactly one. */
  lemma ListsPartitionStatuses(s: JobStatus, env: Environment, bucket: Bucket)
    ensures s in Statuses(env, bucket) <==> (env, bucket) == Classify(s)
  {
  }

  /** Cancel moves a job from an environment's queue to the same
      environment's deployed list. */
  lemma CancelEmptiesQueue(s: JobStatus)
    requires CancelTarget(s).Some?
    ensures Classify(s).1 == Queue
    ensures Classify(CancelTarget(s).value) == (Classify(s).0, Deployed)
  {
  }

  /** A committed go-live takes a job from staging's deployed list into
      production's queue (ticket issued) or deployed list (no ticket). */
  lemma GoLiveCrossesToProduction(job: JobRecord, gate: bool, actor: Actor, preDeploy: Call<Option<string>>)
    requires GoLiveStep(job, gate, actor, preDeploy).Commit?
    ensures Classify(job.status) == (Staging, Deployed)
    ensures Classify(GoLiveStep(job, gate, actor, preDeploy).job.status).0 == Production
  {
  }

  /** A job as `fillResults` returns it: the stored record plus the derived
      display fields. */
  datatype EnrichedJob = EnrichedJob(
    job: JobRecord,
    buildJobUrl: string,
    deployJobUrl: Option<string>,
    deployLiveJobUrl: Option<string>,
    canGoLive: bool,
    canRollback: bool,
    canCancel: bool,
    versionLink: string)

  /** `_version_link`: the module's page, extended with the version part the
      configured pattern matched, if it matched. */
  function VersionLink(urlPrefix: string, targetModule: string, uriVersion: string, matched: Option<string>): (link: string)
    ensures urlPrefix + targetModule <= link
    ensures matched.None? ==> link == urlPrefix + targetModule
    ensures matched.Some? ==> link[|urlPrefix + targetModule|..] == uriVersion + matched.value
  {
    match matched
    case Some(m) => urlPrefix + targetModule + uriVersion + m
    case None => urlPrefix + targetModule
  }

  /** The display fields of one job, given the gate's answer for it, its build
      console URL and its version link. */
  function Enrich(job: JobRecord, gate: bool, buildJobUrl: string, versionLink: string): (e: EnrichedJob)
    ensures e.job == job && e.deployJobUrl == job.deploymentJobId && e.deployLiveJobUrl == job.liveJobId
    ensures e.buildJobUrl == buildJobUrl && e.versionLink == versionLink
    ensures !gate ==> !e.canGoLive && !e.canRollback && !e.canCancel
    ensures e.canGoLive ==> job.status == TestsPassed
    ensures e.canRollback ==> job.status == GoLiveDone
    ensures !(e.canGoLive && e.canRollback)
    ensures gate ==> e.canCancel
  {
    EnrichedJob(job, buildJobUrl, job.deploymentJobId, job.liveJobId,
                job.status.CanGoLive() && gate, job.status.WentLive() && gate, gate, versionLink)
  }

  /** The go-live and rollback flags shown for a job say exactly whether the
      go-live or rollback action would be carried out rather than refused. */
  lemma FlagsAgreeWithActions(job: JobRecord, gate: bool, buildJobUrl: string, versionLink: string, actor: Actor,
                              preDeploy: Call<Option<string>>)
    ensures Enrich(job, gate, buildJobUrl, versionLink).canGoLive <==> !GoLiveStep(job, gate, actor, preDeploy).Refused?
    ensures Enrich(job, gate, buildJobUrl, versionLink).canRollback <==> !RollbackStep(job, gate, actor, preDeploy).Refused?
  {
  }

  /** The cancel flag follows the gate alone: it is shown for jobs that cancel
      rejects (a finished job), and hidden for queued jobs that cancel would
      accept without any permission. */
  lemma CancelFlagIgnoresStatus(job: JobRecord, buildJobUrl: string, versionLink: string, postDeploy: Call<()>)
    ensures job.status == GoLiveDone ==>
      Enrich(job, true, buildJobUrl, versionLink).canCancel && CancelStep(0, job, true, postDeploy).Failure?
    ensures job.status == Queued ==>
      !Enrich(job, false, buildJobUrl, versionLink).canCancel && CancelStep(0, job, false, postDeploy).Success?
  {
  }

  /** What `deploying` answers. */
  datatype DeployingReply =
    | Idle                                          // {status "Idle", module "-", version "-"}
    | NowDeploying(targetModule: string, version: string) // {status "Deploying", ...}

  /** `deploying`: idle when no job is going live, otherwise the module and
      version of the first one the mapper returned. */
  function DeployingSummary(goingLive: seq<JobRecord>): (r: DeployingReply)
    ensures r.Idle? <==> goingLive == []
    ensures goingLive != [] ==> r == NowDeploying(goingLive[0].targetModule, goingLive[0].targetVersion)
  {
    if goingLive == [] then Idle
    else NowDeploying(goingLive[0].targetModule, goingLive[0].targetVersion)
  }
}
