/** `JobsController`: each action loads a job from the mapper (or builds a new
    one), mutates it step by step and saves it; each is proved to leave the
    mapper's rows and to answer exactly as the corresponding function of
    `Lifecycle` says. */
module Controller {
  import opened Wrappers
  import opened Jobs
  import opened Store
  import opened Lifecycle
  import opened ReadSide

  class JobsController {
    /** The keys of `$config['modules']`. */
    const modules: set<string>
    const mapper: JobMapper
    /** The ticketing service's `canMemberGoLive(permissions, module)`. */
    const canMemberGoLive: (string, string) -> bool
    /** The build runner's `getRequestorJobConsoleUrl`. */
    const consoleUrl: JobRecord -> string
    const urlPrefix: string
    const uriVersion: string
    /** The first match of the configured version pattern in a version, if any. */
    const matchVersion: string -> Option<string>

    constructor (modules: set<string>, mapper: JobMapper, canMemberGoLive: (string, string) -> bool,
                 consoleUrl: JobRecord -> string, urlPrefix: string, uriVersion: string,
                 matchVersion: string -> Option<string>)
      ensures this.modules == modules && this.mapper == mapper && this.canMemberGoLive == canMemberGoLive
      ensures this.consoleUrl == consoleUrl && this.urlPrefix == urlPrefix && this.uriVersion == uriVersion
      ensures this.matchVersion == matchVersion
    {
      this.modules := modules;
      this.mapper := mapper;
      this.canMemberGoLive := canMemberGoLive;
      this.consoleUrl := consoleUrl;
      this.urlPrefix := urlPrefix;
      this.uriVersion := uriVersion;
      this.matchVersion := matchVersion;
    }

    method CreateJob(targetModule: string, version: string, requestor: string) returns (reply: Reply)
      requires mapper.Valid()
      modifies mapper
      ensures mapper.Valid()
      ensures (mapper.Model(), reply) == ServeCreateJob(old(mapper.Model()), modules, targetModule, version, requestor)
    {
      if targetModule !in modules {
        reply := Failed(targetModule + INVALID_MODULE_SUFFIX, None);
        return;
      }
      var job := new Job.CreateWith(targetModule, version, TESTING_ENV, requestor);
      var id := mapper.Save(job);
      reply := Inserted(id);
    }

    method Cancel(jobId: int, actor: Actor, postDeploy: Call<()>) returns (reply: Reply)
      requires mapper.Valid()
      modifies mapper
      ensures mapper.Valid()
      ensures (mapper.Model(), reply) == ServeCancel(old(mapper.Model()), canMemberGoLive, jobId, actor, postDeploy)
    {
      var found := mapper.Get(jobId);
      if found.None? {
        reply := Failed(CANCEL_PROBLEM, Some(JobNotFound(jobId)));
        return;
      }
      var job := found.value;
      var target := CancelTarget(job.status);
      if target.None? {
        reply := Failed(CANCEL_PROBLEM, Some(CannotCancel(job.status)));
        return;
      }
      if job.status == QueuedForLive && !CanBePushedLive(actor, canMemberGoLive, job.targetModule) {
        reply := Failed(CANCEL_PROBLEM, Some(NoCancelPermission(jobId)));
        return;
      }
      if job.status == QueuedForLive && postDeploy.Threw? {
        reply := Failed(CANCEL_PROBLEM, Some(TicketingFailure(postDeploy.detail)));
        return;
      }
      job.MoveStatusTo(target.value);
      var _ := mapper.Save(job);
      reply := StatusOf(job.status, jobId);
    }

    method GoLive(jobId: int, actor: Actor, preDeploy: Call<Option<string>>) returns (reply: Reply)
      requires mapper.Valid()
      modifies mapper
      ensures mapper.Valid()
      ensures (mapper.Model(), reply) == ServeGoLive(old(mapper.Model()), canMemberGoLive, jobId, actor, preDeploy)
    {
      var found := mapper.Get(jobId);
      if found.None? {
        reply := Failed(GO_LIVE_PROBLEM, Some(JobNotFound(jobId)));
        return;
      }
      var job := found.value;
      if !(CanBePushedLive(actor, canMemberGoLive, job.targetModule) && job.CanGoLive()) {
        reply := NotPermitted(job.status, jobId, GO_LIVE_REFUSED);
        return;
      }
      job.SetUser(Promoter(actor));
      match preDeploy {
        case Threw(detail) =>
          reply := Failed(GO_LIVE_PROBLEM, Some(TicketingFailure(detail)));
          return;
        case Returned(ticket) =>
          if ticket.Some? {
            job.SetTicket(ticket);
            job.MoveStatusTo(QueuedForLive);
          } else {
            job.MoveStatusTo(GoLiveFailed);
          }
      }
      var _ := mapper.Save(job);
      reply := StatusOf(job.status, jobId);
    }

    method Rollback(jobId: int, actor: Actor, preDeploy: Call<Option<string>>) returns (reply: Reply)
      requires mapper.Valid()
      modifies mapper
      ensures mapper.Valid()
      ensures (mapper.Model(), reply) == ServeRollback(old(mapper.Model()), canMemberGoLive, jobId, actor, preDeploy)
    {
      var found := mapper.Get(jobId);
      if found.None? {
        reply := Failed(NOT_INSERTED, Some(JobNotFound(jobId)));
        return;
      }
      var oldJob := found.value;
      if !CanBePushedLive(actor, canMemberGoLive, oldJob.targetModule) || !oldJob.WentLive() {
        reply := NotPermitted(oldJob.status, jobId, ROLLBACK_REFUSED);
        return;
      }
      var job := new Job.CreateWith(oldJob.targetModule, oldJob.targetVersion,
                                    oldJob.targetEnvironment, oldJob.requestor);
      job.MoveStatusTo(QueuedForLive);
      job.SetRollbackedFrom(oldJob.id);
      job.SetTicket(oldJob.ticket);
      match preDeploy {
        case Threw(detail) =>
          reply := Failed(NOT_INSERTED, Some(TicketingFailure(detail)));
          return;
        case Returned(ticket) =>
          job.SetTicket(ticket);
      }
      job.SetUser(actor.email);
      var id := mapper.Save(job);
      reply := Inserted(id);
    }

    method RegisterTestJobUrl(jobId: int, url: Option<string>) returns (reply: Reply)
      requires mapper.Valid()
      modifies mapper
      ensures mapper.Valid()
      ensures (mapper.Model(), reply) == ServeRegisterTestJobUrl(old(mapper.Model()), jobId, url)
    {
      var found := mapper.Get(jobId);
      if found.None? {
        reply := Failed(URL_PROBLEM, Some(JobNotFound(jobId)));
        return;
      }
      var job := found.value;
      job.SetTestJobUrl(url);
      var _ := mapper.Save(job);
      reply := Registered(URL_REGISTERED);
    }

    /** The request-driven test callback. */
    method RegisterTestJobResult(jobId: int, success: string) returns (reply: Reply)
      requires mapper.Valid()
      modifies mapper
      ensures mapper.Valid()
      ensures (mapper.Model(), reply) == ServeRegisterTestResult(old(mapper.Model()), jobId, success)
    {
      var status := TestResultStatus(success);
      var found := mapper.Get(jobId);
      if found.None? {
        reply := Failed(RESULT_PROBLEM, Some(JobNotFound(jobId)));
        return;
      }
      var job := found.value;
      job.MoveStatusTo(status);
      var _ := mapper.Save(job);
      reply := Registered(RESULT_REGISTERED);
    }

    /** The same callback, called with its arguments directly. */
    method RegisterTestResult(jobId: int, success: string) returns (reply: Reply)
      requires mapper.Valid()
      modifies mapper
      ensures mapper.Valid()
      ensures (mapper.Model(), reply) == ServeRegisterTestResult(old(mapper.Model()), jobId, success)
    {
      reply := RegisterTestJobResult(jobId, success);
    }

    /** The display record `fillResults` builds for one job. */
    function Enriched(job: JobRecord, actor: Actor): EnrichedJob {
      Enrich(job, CanBePushedLive(actor, canMemberGoLive, job.targetModule), consoleUrl(job),
             VersionLink(urlPrefix, job.targetModule, uriVersion, matchVersion(job.targetVersion)))
    }

    /** `fillResults`: enrich every job the mapper returned, in order. */
    method FillResults(data: seq<JobRecord>, actor: Actor) returns (result: seq<EnrichedJob>)
      ensures |result| == |data|
      ensures forall i :: 0 <= i < |data| ==> result[i] == Enriched(data[i], actor)
    {
      result := [];
      for i := 0 to |data|
        invariant |result| == i
        invariant forall k :: 0 <= k < i ==> result[k] == Enriched(data[k], actor)
      {
        var job := data[i];
        var canBePushedLive := CanBePushedLive(actor, canMemberGoLive, job.targetModule);
        var link := if matchVersion(job.targetVersion).Some?
          then urlPrefix + job.targetModule + uriVersion + matchVersion(job.targetVersion).value
          else urlPrefix + job.targetModule;
        var enriched := EnrichedJob(
          job,
          consoleUrl(job),
          job.deploymentJobId,
          job.liveJobId,
          job.status.CanGoLive() && canBePushedLive,
          job.status.WentLive() && canBePushedLive,
          canBePushedLive,
          link);
        result := result + [enriched];
      }
    }
  }
}
