/** The deployment job: its closed set of statuses, the persisted record, and
    the in-memory object that the controller mutates before saving it. */
module Jobs {
  import opened Wrappers

  /** The closed set of lifecycle states of a job. */
  datatype JobStatus =
    | Queued
    | Deploying
    | PendingTests
    | TestsPassed
    | TestsFailed
    | DeployFailed
    | QueuedForLive
    | GoingLive
    | GoLiveDone
    | GoLiveFailed
  {
    /** `Job::canGoLive()`: only a job whose tests passed may be promoted. */
    predicate CanGoLive() { this == TestsPassed }

    /** `Job::wentLive()`: only a job that reached production may be rolled back. */
    predicate WentLive() { this == GoLiveDone }

    /** States from which no operator transition leads anywhere. */
    predicate IsTerminal() {
      this == DeployFailed || this == TestsFailed || this == GoLiveDone || this == GoLiveFailed
    }
  }

  /** One stored job, as the mapper persists it. `id` is `None` until the
      first save assigns one. */
  datatype JobRecord = JobRecord(
    id: Option<int>,
    targetModule: string,
    targetVersion: string,
    targetEnvironment: string,
    requestor: string,
    status: JobStatus,
    ticket: Option<string>,
    user: Option<string>,
    rollbackedFrom: Option<int>,
    testJobUrl: Option<string>,
    deploymentJobId: Option<string>,
    liveJobId: Option<string>)

  /** The deploy target and requestor, fixed when a job is created. */
  function Target(job: JobRecord): (string, string, string, string) {
    (job.targetModule, job.targetVersion, job.targetEnvironment, job.requestor)
  }

  /** `Job::createWith`: a job that has never been saved, queued, carrying
      only its target and requestor. */
  function NewJob(targetModule: string, version: string, env: string, requestor: string): (job: JobRecord)
    ensures job.id.None? && job.status == Queued
    ensures Target(job) == (targetModule, version, env, requestor)
    ensures job.ticket.None? && job.user.None? && job.rollbackedFrom.None? && job.testJobUrl.None?
    ensures job.deploymentJobId.None? && job.liveJobId.None?
  {
    JobRecord(None, targetModule, version, env, requestor, Queued, None, None, None, None, None, None)
  }

  /** The job object a controller action loads, mutates and hands back to the
      mapper. The target fields are constants: no mutator can change them. */
  class Job {
    var id: Option<int>
    const targetModule: string
    const targetVersion: string
    const targetEnvironment: string
    const requestor: string
    var status: JobStatus
    var ticket: Option<string>
    var user: Option<string>
    var rollbackedFrom: Option<int>
    var testJobUrl: Option<string>
    const deploymentJobId: Option<string>
    const liveJobId: Option<string>

    /** The record this object would be saved as. */
    function Record(): JobRecord
      reads this
    {
      JobRecord(id, targetModule, targetVersion, targetEnvironment, requestor, status,
                ticket, user, rollbackedFrom, testJobUrl, deploymentJobId, liveJobId)
    }

    /** `Job::createFromArray`: rebuild a job from a stored record. */
    constructor FromRecord(r: JobRecord)
      ensures Record() == r
    {
      id := r.id;
      targetModule := r.targetModule;
      targetVersion := r.targetVersion;
      targetEnvironment := r.targetEnvironment;
      requestor := r.requestor;
      status := r.status;
      ticket := r.ticket;
      user := r.user;
      rollbackedFrom := r.rollbackedFrom;
      testJobUrl := r.testJobUrl;
      deploymentJobId := r.deploymentJobId;
      liveJobId := r.liveJobId;
    }

    /** `Job::createWith`: a fresh, unsaved, queued job. */
    constructor CreateWith(targetModule: string, version: string, env: string, requestor: string)
      ensures Record() == NewJob(targetModule, version, env, requestor)
    {
      id := None;
      this.targetModule := targetModule;
      targetVersion := version;
      targetEnvironment := env;
      this.requestor := requestor;
      status := Queued;
      ticket := None;
      user := None;
      rollbackedFrom := None;
      testJobUrl := None;
      deploymentJobId := None;
      liveJobId := None;
    }

    predicate CanGoLive()
      reads this
    {
      status.CanGoLive()
    }

    predicate WentLive()
      reads this
    {
      status.WentLive()
    }

    method MoveStatusTo(s: JobStatus)
      modifies this
      ensures Record() == old(Record()).(status := s)
    {
      status := s;
    }

    method SetUser(u: Option<string>)
      modifies this
      ensures Record() == old(Record()).(user := u)
    {
      user := u;
    }

    method SetTicket(t: Option<string>)
      modifies this
      ensures Record() == old(Record()).(ticket := t)
    {
      ticket := t;
    }

    method SetRollbackedFrom(from: Option<int>)
      modifies this
      ensures Record() == old(Record()).(rollbackedFrom := from)
    {
      rollbackedFrom := from;
    }

    method SetTestJobUrl(url: Option<string>)
      modifies this
      ensures Record() == old(Record()).(testJobUrl := url)
    {
      testJobUrl := url;
    }
  }
}
