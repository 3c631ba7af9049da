/** The job lifecycle: the authorization gate, the transition rules of cancel,
    go-live, rollback and the test callbacks, and what each controller action
    does to the stored jobs and answers, stated as functions over the mapper's
    rows. External services appear as parameters: the session's actor, the
    ticketing service's capability check, and the outcome of each ticketing
    call the action makes. */
module Lifecycle {
  import opened Wrappers
  import opened Jobs
  import opened Store

  /** The caller as the session resolves them: their permission set (absent
      when none can be resolved), their e-mail and their user name. */
  datatype Actor = Actor(permissions: Option<string>, email: Option<string>, userName: Option<string>)

  /** Why a caught exception ended an action. */
  datatype Fault =
    | JobNotFound(jobId: int)          // the mapper found no job with this id
    | CannotCancel(status: JobStatus)  // "Unable to cancel a job on status: ..."
    | NoCancelPermission(jobId: int)   // "No permissions to cancel: ..."
    | TicketingFailure(detail: string) // the ticketing service raised an exception

  /** The answer of an action, without its JSON framing. */
  datatype Reply =
    | StatusOf(jobStatus: JobStatus, jobId: int)                   // {job_status, job_id}
    | NotPermitted(jobStatus: JobStatus, jobId: int, message: string) // status "Error", with the job's status and no detail
    | Inserted(jobId: int)                                         // "Job inserted in queue"
    | Registered(message: string)                                  // status "success"
    | Failed(message: string, detail: Option<Fault>)               // status "error"

  const CANCEL_PROBLEM := "Problems trying to cancel job"
  const GO_LIVE_PROBLEM := "Problems trying to go live with Job"
  const NOT_INSERTED := "Job not inserted in queue"
  const URL_PROBLEM := "Problems trying to register Test job url"
  const RESULT_PROBLEM := "Problems trying to register Test result"
  const URL_REGISTERED := "Test job url registerd"
  const RESULT_REGISTERED := "Test result registered"
  const GO_LIVE_REFUSED :=
    "The job is not in a valid status to go live or you don't have permissions to do this action"
  const ROLLBACK_REFUSED :=
    "The job is not in a valid status to rollback or you don't have permissions to do this action"
  const INVALID_MODULE_SUFFIX := " is not a valid module to push."

  /** The environment string every job created by `createJob` carries. */
  const TESTING_ENV := "testing"

  /** `canBePushedLive`: the actor has a permission set and the ticketing
      service says that set may deploy the module. */
  function CanBePushedLive(actor: Actor, canMemberGoLive: (string, string) -> bool, targetModule: string): (r: bool)
    ensures r ==> actor.permissions.Some?
    ensures r <==> exists p :: actor.permissions == Some(p) && canMemberGoLive(p, targetModule)
  {
    actor.permissions.Some? && canMemberGoLive(actor.permissions.value, targetModule)
  }

  /** PHP's `empty()` on a string that may be null: null, "" and "0" are empty. */
  predicate IsEmptyString(s: Option<string>) {
    s == None || s == Some("") || s == Some("0")
  }

  /** The user recorded by go-live: the e-mail unless it is empty, else the user name. */
  function Promoter(actor: Actor): (u: Option<string>)
    ensures !IsEmptyString(actor.email) ==> u == actor.email
    ensures IsEmptyString(actor.email) ==> u == actor.userName
  {
    if !IsEmptyString(actor.email) then actor.email else actor.userName
  }

  /** The cancel table: a queued job fails its deploy, a job queued for live
      fails its go-live; nothing else can be cancelled. */
  function CancelTarget(s: JobStatus): (r: Option<JobStatus>)
    ensures r.Some? <==> s == Queued || s == QueuedForLive
    ensures r.Some? ==> r.value.IsTerminal()
  {
    match s
    case Queued => Some(DeployFailed)
    case QueuedForLive => Some(GoLiveFailed)
    case _ => None
  }

  /** `cancel` on a loaded job: the cancelled job to save, or the fault raised.
      Only cancelling a job queued for live needs the gate and calls the
      ticketing service (whose answer is ignored unless it raises). */
  function CancelStep(jobId: int, job: JobRecord, gate: bool, postDeploy: Call<()>): (r: Result<JobRecord, Fault>)
    ensures r.Success? <==>
      CancelTarget(job.status).Some? && (job.status == QueuedForLive ==> gate && postDeploy.Returned?)
    ensures r.Success? ==> r.value == job.(status := r.value.status) && r.value.status.IsTerminal()
    ensures CancelTarget(job.status).None? ==> r == Failure(CannotCancel(job.status))
  {
    match CancelTarget(job.status)
    case None => Failure(CannotCancel(job.status))
    case Some(next) =>
      if job.status == QueuedForLive && !gate then Failure(NoCancelPermission(jobId))
      else if job.status == QueuedForLive && postDeploy.Threw? then Failure(TicketingFailure(postDeploy.detail))
      else Success(job.(status := next))
  }

  /** What go-live or rollback decides for a loaded job. */
  datatype Decision =
    | Refused               // gate or status check failed: answered, nothing saved
    | Raised(fault: Fault)  // an exception was caught: nothing saved
    | Commit(job: JobRecord) // this record is saved

  /** `goLive` on a loaded job. */
  function GoLiveStep(job: JobRecord, gate: bool, actor: Actor, preDeploy: Call<Option<string>>): (r: Decision)
    ensures r.Refused? <==> !(gate && job.status.CanGoLive())
    ensures r.Raised? <==> !r.Refused? && preDeploy.Threw?
    ensures r.Commit? ==> r.job == job.(status := r.job.status, ticket := r.job.ticket, user := Promoter(actor))
    ensures r.Commit? ==> (r.job.status == QueuedForLive <==> preDeploy.value.Some?)
    ensures r.Commit? && r.job.status == QueuedForLive ==> r.job.ticket == preDeploy.value
    ensures r.Commit? && r.job.status != QueuedForLive ==> r.job.status == GoLiveFailed && r.job.ticket == job.ticket
  {
    if !(gate && job.status.CanGoLive()) then Refused
    else
      var promoted := job.(user := Promoter(actor));
      match preDeploy
      case Threw(detail) => Raised(TicketingFailure(detail))
      case Returned(Some(ticket)) => Commit(promoted.(ticket := Some(ticket), status := QueuedForLive))
      case Returned(None) => Commit(promoted.(status := GoLiveFailed))
  }

  /** The job `rollback` creates from one that went live: a new, unsaved job
      for the same target, queued for live, pointing back at the prior one. */
  function RollbackJob(prior: JobRecord, ticket: Option<string>, email: Option<string>): (job: JobRecord)
    ensures job.id.None? && Target(job) == Target(prior)
    ensures job.status == QueuedForLive && job.rollbackedFrom == prior.id
    ensures job.ticket == ticket && job.user == email
    ensures job.testJobUrl.None? && job.deploymentJobId.None? && job.liveJobId.None?
  {
    NewJob(prior.targetModule, prior.targetVersion, prior.targetEnvironment, prior.requestor)
      .(status := QueuedForLive, rollbackedFrom := prior.id, ticket := ticket, user := email)
  }

  /** `rollback` on the loaded prior job. */
  function RollbackStep(prior: JobRecord, gate: bool, actor: Actor, preDeploy: Call<Option<string>>): (r: Decision)
    ensures r.Refused? <==> !(gate && prior.status.WentLive())
    ensures r.Raised? <==> !r.Refused? && preDeploy.Threw?
    ensures r.Commit? ==> r.job.id.None? && Target(r.job) == Target(prior) && r.job.status == QueuedForLive
    ensures r.Commit? ==> r.job.rollbackedFrom == prior.id && r.job.ticket == preDeploy.value && r.job.user == actor.email
    ensures r.Commit? ==> r.job == RollbackJob(prior, preDeploy.value, actor.email)
  {
    if !(gate && prior.status.WentLive()) then Refused
    else
      match preDeploy
      case Threw(detail) => Raised(TicketingFailure(detail))
      case Returned(ticket) => Commit(RollbackJob(prior, ticket, actor.email))
  }

  /** The status a test callback records: the literal "true" means passed. */
  function TestResultStatus(success: string): (s: JobStatus)
    ensures s.CanGoLive() <==> success == "true"
    ensures s == TestsPassed || s == TestsFailed
  {
    if success == "true" then TestsPassed else TestsFailed
  }

  // ---------------------------------------------------------------------------
  // The controller actions over the mapper's rows.

  /** `createJob`. */
  function ServeCreateJob(db: Db, modules: set<string>, targetModule: string, version: string, requestor: string): (Db, Reply)
  {
    if targetModule !in modules then (db, Failed(targetModule + INVALID_MODULE_SUFFIX, None))
    else
      var (saved, id) := Persist(db, NewJob(targetModule, version, TESTING_ENV, requestor));
      (saved, Inserted(id))
  }

  /** `cancel`. */
  function ServeCancel(db: Db, canMemberGoLive: (string, string) -> bool, jobId: int, actor: Actor,
                       postDeploy: Call<()>): (Db, Reply)
  {
    if jobId !in db.rows then (db, Failed(CANCEL_PROBLEM, Some(JobNotFound(jobId))))
    else
      var job := db.rows[jobId];
      match CancelStep(jobId, job, CanBePushedLive(actor, canMemberGoLive, job.targetModule), postDeploy)
      case Success(cancelled) => (Persist(db, cancelled).0, StatusOf(cancelled.status, jobId))
      case Failure(fault) => (db, Failed(CANCEL_PROBLEM, Some(fault)))
  }

  /** `goLive`. */
  function ServeGoLive(db: Db, canMemberGoLive: (string, string) -> bool, jobId: int, actor: Actor,
                       preDeploy: Call<Option<string>>): (Db, Reply)
  {
    if jobId !in db.rows then (db, Failed(GO_LIVE_PROBLEM, Some(JobNotFound(jobId))))
    else
      var job := db.rows[jobId];
      match GoLiveStep(job, CanBePushedLive(actor, canMemberGoLive, job.targetModule), actor, preDeploy)
      case Refused => (db, NotPermitted(job.status, jobId, GO_LIVE_REFUSED))
      case Raised(fault) => (db, Failed(GO_LIVE_PROBLEM, Some(fault)))
      case Commit(promoted) => (Persist(db, promoted).0, StatusOf(promoted.status, jobId))
  }

  /** `rollback`. */
  function ServeRollback(db: Db, canMemberGoLive: (string, string) -> bool, jobId: int, actor: Actor,
                         preDeploy: Call<Option<string>>): (Db, Reply)
  {
    if jobId !in db.rows then (db, Failed(NOT_INSERTED, Some(JobNotFound(jobId))))
    else
      var prior := db.rows[jobId];
      match RollbackStep(prior, CanBePushedLive(actor, canMemberGoLive, prior.targetModule), actor, preDeploy)
      case Refused => (db, NotPermitted(prior.status, jobId, ROLLBACK_REFUSED))
      case Raised(fault) => (db, Failed(NOT_INSERTED, Some(fault)))
      case Commit(job) =>
        var (saved, id) := Persist(db, job);
        (saved, Inserted(id))
  }

  /** `registerTestJobUrl`. */
  function ServeRegisterTestJobUrl(db: Db, jobId: int, url: Option<string>): (Db, Reply)
  {
    if jobId !in db.rows then (db, Failed(URL_PROBLEM, Some(JobNotFound(jobId))))
    else (Persist(db, db.rows[jobId].(testJobUrl := url)).0, Registered(URL_REGISTERED))
  }

  /** `registerTestJobResult` and `registerTestResult`. */
  function ServeRegisterTestResult(db: Db, jobId: int, success: string): (Db, Reply)
  {
    if jobId !in db.rows then (db, Failed(RESULT_PROBLEM, Some(JobNotFound(jobId))))
    else (Persist(db, db.rows[jobId].(status := TestResultStatus(success))).0, Registered(RESULT_REGISTERED))
  }

  /** One request to the controller, with the outcome of every external call
      it makes. */
  datatype Request =
    | CreateJobRequest(targetModule: string, version: string, requestor: string)
    | CancelRequest(jobId: int, actor: Actor, postDeploy: Call<()>)
    | GoLiveRequest(jobId: int, actor: Actor, preDeploy: Call<Option<string>>)
    | RollbackRequest(jobId: int, actor: Actor, preDeploy: Call<Option<string>>)
    | TestJobUrlRequest(jobId: int, url: Option<string>)
    | TestResultRequest(jobId: int, success: string)

  function Serve(db: Db, modules: set<string>, canMemberGoLive: (string, string) -> bool, req: Request): (Db, Reply)
  {
    match req
    case CreateJobRequest(m, v, r) => ServeCreateJob(db, modules, m, v, r)
    case CancelRequest(id, actor, call) => ServeCancel(db, canMemberGoLive, id, actor, call)
    case GoLiveRequest(id, actor, call) => ServeGoLive(db, canMemberGoLive, id, actor, call)
    case RollbackRequest(id, actor, call) => ServeRollback(db, canMemberGoLive, id, actor, call)
    case TestJobUrlRequest(id, url) => ServeRegisterTestJobUrl(db, id, url)
    case TestResultRequest(id, success) => ServeRegisterTestResult(db, id, success)
  }

  /** The rows after serving a sequence of requests in order. */
  function Run(db: Db, modules: set<string>, canMemberGoLive: (string, string) -> bool, reqs: seq<Request>): Db
    decreases |reqs|
  {
    if reqs == [] then db
    else Run(Serve(db, modules, canMemberGoLive, reqs[0]).0, modules, canMemberGoLive, reqs[1..])
  }

  // ---------------------------------------------------------------------------
  // Invariants of the stored jobs.

  /** A row's `rollbackedFrom`, when set, names an older stored job. */
  ghost predicate LinksBack(db: Db, k: int)
    requires k in db.rows
  {
    var from := db.rows[k].rollbackedFrom;
    from.Some? ==> from.value in db.rows && from.value < k
  }

  ghost predicate WellFormed(db: Db) {
    Keyed(db) && forall k | k in db.rows :: LinksBack(db, k)
  }

  /** `later` keeps every job of `earlier`: no row disappears, and a row's
      target, requestor and rollback origin never change. */
  ghost predicate Keeps(earlier: Db, later: Db) {
    && earlier.rows.Keys <= later.rows.Keys
    && earlier.nextId <= later.nextId
    && forall k | k in earlier.rows ::
         Target(later.rows[k]) == Target(earlier.rows[k])
         && later.rows[k].rollbackedFrom == earlier.rows[k].rollbackedFrom
  }

  lemma KeepsTransitive(a: Db, b: Db, c: Db)
    requires Keeps(a, b) && Keeps(b, c)
    ensures Keeps(a, c)
  {
    forall k | k in a.rows
      ensures Target(c.rows[k]) == Target(a.rows[k]) && c.rows[k].rollbackedFrom == a.rows[k].rollbackedFrom
    {
      assert k in b.rows;
    }
  }

  /** Saving a loaded row with some fields changed, but not its target or
      rollback origin, keeps the rows well formed. */
  lemma UpdatePreserves(db: Db, jobId: int, job: JobRecord)
    requires WellFormed(db) && jobId in db.rows
    requires job.id == Some(jobId) && job.rollbackedFrom == db.rows[jobId].rollbackedFrom
    requires Target(job) == Target(db.rows[jobId])
    ensures WellFormed(Persist(db, job).0) && Keeps(db, Persist(db, job).0)
  {
    var after := Persist(db, job).0;
    assert after.rows == db.rows[jobId := job];
    forall k | k in after.rows
      ensures LinksBack(after, k)
    {
      assert LinksBack(db, k);
    }
  }

  /** Inserting a new job whose rollback origin, if any, is a stored job keeps
      the rows well formed. */
  lemma InsertPreserves(db: Db, job: JobRecord)
    requires WellFormed(db) && job.id.None?
    requires job.rollbackedFrom.Some? ==> job.rollbackedFrom.value in db.rows
    ensures WellFormed(Persist(db, job).0) && Keeps(db, Persist(db, job).0)
  {
    var (after, id) := Persist(db, job);
    assert id == db.nextId;
    forall k | k in after.rows
      ensures LinksBack(after, k)
    {
      if k != id {
        assert LinksBack(db, k);
      }
    }
  }

  lemma ServePreservesWellFormed(db: Db, modules: set<string>, canMemberGoLive: (string, string) -> bool, req: Request)
    requires WellFormed(db)
    ensures WellFormed(Serve(db, modules, canMemberGoLive, req).0)
    ensures Keeps(db, Serve(db, modules, canMemberGoLive, req).0)
  {
    match req
    case CreateJobRequest(m, v, r) =>
      if m in modules {
        InsertPreserves(db, NewJob(m, v, TESTING_ENV, r));
      }
    case CancelRequest(id, actor, call) =>
      if id in db.rows {
        var job := db.rows[id];
        var step := CancelStep(id, job, CanBePushedLive(actor, canMemberGoLive, job.targetModule), call);
        if step.Success? {
          UpdatePreserves(db, id, step.value);
        }
      }
    case GoLiveRequest(id, actor, call) =>
      if id in db.rows {
        var job := db.rows[id];
        var step := GoLiveStep(job, CanBePushedLive(actor, canMemberGoLive, job.targetModule), actor, call);
        if step.Commit? {
          UpdatePreserves(db, id, step.job);
        }
      }
    case RollbackRequest(id, actor, call) =>
      if id in db.rows {
        var prior := db.rows[id];
        var step := RollbackStep(prior, CanBePushedLive(actor, canMemberGoLive, prior.targetModule), actor, call);
        if step.Commit? {
          InsertPreserves(db, step.job);
        }
      }
    case TestJobUrlRequest(id, url) =>
      if id in db.rows {
        UpdatePreserves(db, id, db.rows[id].(testJobUrl := url));
      }
    case TestResultRequest(id, success) =>
      if id in db.rows {
        UpdatePreserves(db, id, db.rows[id].(status := TestResultStatus(success)));
      }
  }

  /** Whatever requests arrive, the stored jobs stay well formed and no job's
      history is lost: rows are never deleted, and target, requestor and
      rollback origin never change. */
  lemma {:induction false} RunPreservesWellFormed(db: Db, modules: set<string>, canMemberGoLive: (string, string) -> bool,
                                                  reqs: seq<Request>)
    requires WellFormed(db)
    ensures WellFormed(Run(db, modules, canMemberGoLive, reqs))
    ensures Keeps(db, Run(db, modules, canMemberGoLive, reqs))
    decreases |reqs|
  {
    if reqs != [] {
      var next := Serve(db, modules, canMemberGoLive, reqs[0]).0;
      ServePreservesWellFormed(db, modules, canMemberGoLive, reqs[0]);
      RunPreservesWellFormed(next, modules, canMemberGoLive, reqs[1..]);
      KeepsTransitive(db, next, Run(next, modules, canMemberGoLive, reqs[1..]));
    }
  }

  // ---------------------------------------------------------------------------
  // Properties of the individual actions.

  lemma CreateJobRejectsUnknownModule(db: Db, modules: set<string>, targetModule: string, version: string, requestor: string)
    requires targetModule !in modules
    ensures ServeCreateJob(db, modules, targetModule, version, requestor)
         == (db, Failed(targetModule + " is not a valid module to push.", None))
  {
  }

  lemma CreateJobQueuesTestingJob(db: Db, modules: set<string>, targetModule: string, version: string, requestor: string)
    requires Keyed(db) && targetModule in modules
    ensures var (after, reply) := ServeCreateJob(db, modules, targetModule, version, requestor);
      && reply == Inserted(db.nextId)
      && db.nextId !in db.rows
      && after.rows == db.rows[db.nextId := after.rows[db.nextId]]
      && after.rows[db.nextId].status == Queued
      && Target(after.rows[db.nextId]) == (targetModule, version, TESTING_ENV, requestor)
  {
  }

  /** The cancel table, read through the whole action: a queued job is
      cancelled whoever asks and whatever the ticketing service would say; a
      job queued for live only with the gate and a ticketing cancel that did
      not raise; any other job is left as it is. */
  lemma CancelTable(db: Db, canMemberGoLive: (string, string) -> bool, jobId: int, actor: Actor, postDeploy: Call<()>)
    requires Keyed(db) && jobId in db.rows
    ensures var (after, reply) := ServeCancel(db, canMemberGoLive, jobId, actor, postDeploy);
      var job := db.rows[jobId];
      && (job.status == Queued ==>
            reply == StatusOf(DeployFailed, jobId) && after.rows == db.rows[jobId := job.(status := DeployFailed)])
      && (job.status == QueuedForLive && CanBePushedLive(actor, canMemberGoLive, job.targetModule)
            && postDeploy.Returned? ==>
            reply == StatusOf(GoLiveFailed, jobId) && after.rows == db.rows[jobId := job.(status := GoLiveFailed)])
      && (job.status == QueuedForLive && !CanBePushedLive(actor, canMemberGoLive, job.targetModule) ==>
            reply == Failed(CANCEL_PROBLEM, Some(NoCancelPermission(jobId))) && after == db)
      && (job.status != Queued && job.status != QueuedForLive ==>
            reply == Failed(CANCEL_PROBLEM, Some(CannotCancel(job.status))) && after == db)
  {
    var job := db.rows[jobId];
    assert job.id == Some(jobId);
  }

  /** A second cancel of a job that was just cancelled always fails. */
  lemma CancelTwiceFails(db: Db, canMemberGoLive: (string, string) -> bool, jobId: int,
                         first: Actor, firstCall: Call<()>, second: Actor, secondCall: Call<()>)
    requires Keyed(db)
    requires ServeCancel(db, canMemberGoLive, jobId, first, firstCall).1.StatusOf?
    ensures var after := ServeCancel(db, canMemberGoLive, jobId, first, firstCall).0;
      var (again, reply) := ServeCancel(after, canMemberGoLive, jobId, second, secondCall);
      again == after && reply.Failed? && reply.detail.Some? && reply.detail.value.CannotCancel?
  {
    var job := db.rows[jobId];
    assert job.id == Some(jobId);
    var cancelled := CancelStep(jobId, job, CanBePushedLive(first, canMemberGoLive, job.targetModule), firstCall).value;
    var after := ServeCancel(db, canMemberGoLive, jobId, first, firstCall).0;
    assert after.rows[jobId] == cancelled;
    assert CancelTarget(cancelled.status).None?;
  }

  /** Unless the job is queued for live, cancel neither consults the gate nor
      calls the ticketing service: its effect does not depend on them. */
  lemma CancelConsultsTicketingOnlyWhenQueuedForLive(db: Db, check1: (string, string) -> bool, check2: (string, string) -> bool,
                                                     jobId: int, actor1: Actor, actor2: Actor, call1: Call<()>, call2: Call<()>)
    requires jobId in db.rows && db.rows[jobId].status != QueuedForLive
    ensures ServeCancel(db, check1, jobId, actor1, call1) == ServeCancel(db, check2, jobId, actor2, call2)
  {
  }

  /** A refused go-live answers with status "Error", the current status and
      the refusal message, without the detail a caught exception carries, and
      saves nothing. */
  lemma GoLiveRefusalSavesNothing(db: Db, canMemberGoLive: (string, string) -> bool, jobId: int, actor: Actor,
                                  preDeploy: Call<Option<string>>)
    requires jobId in db.rows
    requires !CanBePushedLive(actor, canMemberGoLive, db.rows[jobId].targetModule) || !db.rows[jobId].status.CanGoLive()
    ensures ServeGoLive(db, canMemberGoLive, jobId, actor, preDeploy)
         == (db, NotPermitted(db.rows[jobId].status, jobId, GO_LIVE_REFUSED))
  {
  }

  /** A permitted go-live records the promoter and saves the job queued for
      live with the returned ticket, or failed with its ticket untouched when
      no ticket came back. */
  lemma GoLivePermitted(db: Db, canMemberGoLive: (string, string) -> bool, jobId: int, actor: Actor, ticket: Option<string>)
    requires Keyed(db) && jobId in db.rows
    requires CanBePushedLive(actor, canMemberGoLive, db.rows[jobId].targetModule) && db.rows[jobId].status == TestsPassed
    ensures var (after, reply) := ServeGoLive(db, canMemberGoLive, jobId, actor, Returned(ticket));
      var job := db.rows[jobId];
      var promoted := job.(user := Promoter(actor));
      && after.nextId == db.nextId
      && (ticket.Some? ==> reply == StatusOf(QueuedForLive, jobId)
                           && after.rows == db.rows[jobId := promoted.(status := QueuedForLive, ticket := ticket)])
      && (ticket.None? ==> reply == StatusOf(GoLiveFailed, jobId)
                           && after.rows == db.rows[jobId := promoted.(status := GoLiveFailed)])
  {
    assert db.rows[jobId].id == Some(jobId);
  }

  /** Go-live never queues a job for live without a ticket. */
  lemma GoLiveQueuesOnlyWithTicket(db: Db, canMemberGoLive: (string, string) -> bool, jobId: int, actor: Actor,
                                   preDeploy: Call<Option<string>>)
    requires Keyed(db) && jobId in db.rows
    requires ServeGoLive(db, canMemberGoLive, jobId, actor, preDeploy).1 == StatusOf(QueuedForLive, jobId)
    ensures ServeGoLive(db, canMemberGoLive, jobId, actor, preDeploy).0.rows[jobId].ticket.Some?
  {
    assert db.rows[jobId].id == Some(jobId);
  }

  /** Go-live tests only that a ticket is set, not that it is non-empty: an
      empty ticket from the pre-deploy call still queues the job for live. */
  lemma GoLiveMayQueueWithEmptyTicket(canMemberGoLive: (string, string) -> bool, actor: Actor)
    requires actor.permissions.Some? && canMemberGoLive(actor.permissions.value, "web")
    ensures var job := JobRecord(Some(1), "web", "1.2.3", TESTING_ENV, "ci-1", TestsPassed,
                                 None, None, None, None, None, None);
      var (after, reply) := ServeGoLive(Db(map[1 := job], 2), canMemberGoLive, 1, actor, Returned(Some("")));
      reply == StatusOf(QueuedForLive, 1) && after.rows[1].ticket == Some("")
  {
  }

  /** The no-ticket path of go-live keeps whatever ticket the job already had:
      a job that once was queued for live with a ticket, then had its tests
      reported again, fails its next go-live still carrying the prior ticket. */
  lemma GoLiveFailureKeepsEarlierTicket(canMemberGoLive: (string, string) -> bool, actor: Actor)
    requires actor.permissions.Some? && canMemberGoLive(actor.permissions.value, "web")
    ensures var job := JobRecord(Some(1), "web", "1.2.3", TESTING_ENV, "ci-1", QueuedForLive,
                                 Some("T-1"), None, None, None, None, None);
      var db := Db(map[1 := job], 2);
      var retested := ServeRegisterTestResult(db, 1, "true").0;
      var (after, reply) := ServeGoLive(retested, canMemberGoLive, 1, actor, Returned(None));
      reply == StatusOf(GoLiveFailed, 1) && after.rows[1].ticket == Some("T-1")
  {
  }

  /** A refused rollback answers with status "Error", the prior job's status
      and the refusal message, without the detail a caught exception carries,
      and saves nothing. */
  lemma RollbackRefusalSavesNothing(db: Db, canMemberGoLive: (string, string) -> bool, jobId: int, actor: Actor,
                                    preDeploy: Call<Option<string>>)
    requires jobId in db.rows
    requires !CanBePushedLive(actor, canMemberGoLive, db.rows[jobId].targetModule) || !db.rows[jobId].status.WentLive()
    ensures ServeRollback(db, canMemberGoLive, jobId, actor, preDeploy)
         == (db, NotPermitted(db.rows[jobId].status, jobId, ROLLBACK_REFUSED))
  {
  }

  /** A rollback inserts one new job under a fresh id, for the same target,
      queued for live, pointing back at the prior job, carrying the rollback
      ticket and the actor's e-mail; the prior job's row is untouched. */
  lemma RollbackInsertsNewJob(db: Db, canMemberGoLive: (string, string) -> bool, jobId: int, actor: Actor,
                              preDeploy: Call<Option<string>>)
    requires Keyed(db) && jobId in db.rows
    requires ServeRollback(db, canMemberGoLive, jobId, actor, preDeploy).1.Inserted?
    ensures var (after, reply) := ServeRollback(db, canMemberGoLive, jobId, actor, preDeploy);
      var id := reply.jobId;
      && id == db.nextId && id != jobId && id !in db.rows
      && after.rows == db.rows[id := after.rows[id]]
      && after.rows[jobId] == db.rows[jobId]
      && Target(after.rows[id]) == Target(db.rows[jobId])
      && after.rows[id].status == QueuedForLive
      && after.rows[id].rollbackedFrom == Some(jobId)
      && after.rows[id].ticket == preDeploy.value
      && after.rows[id].user == actor.email
      && after.rows[id].testJobUrl.None? && after.rows[id].deploymentJobId.None? && after.rows[id].liveJobId.None?
  {
    assert db.rows[jobId].id == Some(jobId);
  }

  /** Rollback does not check the ticket: a rollback that gets no ticket still
      queues the new job for live, without one. */
  lemma RollbackMayQueueWithoutTicket(canMemberGoLive: (string, string) -> bool, actor: Actor)
    requires actor.permissions.Some? && canMemberGoLive(actor.permissions.value, "web")
    ensures var job := JobRecord(Some(1), "web", "1.2.3", TESTING_ENV, "ci-1", GoLiveDone,
                                 Some("T-1"), None, None, None, None, None);
      var (after, reply) := ServeRollback(Db(map[1 := job], 2), canMemberGoLive, 1, actor, Returned(None));
      reply == Inserted(2) && after.rows[2].status == QueuedForLive && after.rows[2].ticket.None?
  {
  }

  /** `registerTestJobUrl` changes the job's test URL and nothing else. */
  lemma RegisterTestJobUrlChangesOnlyUrl(db: Db, jobId: int, url: Option<string>)
    requires Keyed(db) && jobId in db.rows
    ensures ServeRegisterTestJobUrl(db, jobId, url)
         == (Db(db.rows[jobId := db.rows[jobId].(testJobUrl := url)], db.nextId), Registered(URL_REGISTERED))
  {
    assert db.rows[jobId].id == Some(jobId);
  }

  /** The test callbacks record passed exactly for "true", from any status:
      the job can go live afterwards exactly when the result was "true". */
  lemma RegisterTestResultFromAnyStatus(db: Db, jobId: int, success: string)
    requires Keyed(db) && jobId in db.rows
    ensures var (after, reply) := ServeRegisterTestResult(db, jobId, success);
      && reply == Registered(RESULT_REGISTERED)
      && after.rows == db.rows[jobId := db.rows[jobId].(status := after.rows[jobId].status)]
      && (after.rows[jobId].status.CanGoLive() <==> success == "true")
      && (success != "true" ==> after.rows[jobId].status == TestsFailed)
  {
    assert db.rows[jobId].id == Some(jobId);
  }

  // ---------------------------------------------------------------------------
  // Every status change follows the transition table.

  /** The status moves each request may make to a stored job: the cancel and
      go-live edges, and the test callbacks, which the code accepts from any
      status. */
  predicate Allowed(req: Request, from: JobStatus, to: JobStatus) {
    match req
    case CancelRequest(_, _, _) => (from == Queued && to == DeployFailed) || (from == QueuedForLive && to == GoLiveFailed)
    case GoLiveRequest(_, _, _) => from == TestsPassed && (to == QueuedForLive || to == GoLiveFailed)
    case TestResultRequest(_, _) => to == TestsPassed || to == TestsFailed
    case _ => false
  }

  /** The status a job is created with by a request, if it creates one. */
  function CreatedStatus(req: Request): Option<JobStatus> {
    match req
    case CreateJobRequest(_, _, _) => Some(Queued)
    case RollbackRequest(_, _, _) => Some(QueuedForLive)
    case _ => None
  }

  /** A request changes a stored job's status only along an allowed edge, and
      a job it adds starts queued (create) or queued for live (rollback). */
  lemma ServeFollowsTable(db: Db, modules: set<string>, canMemberGoLive: (string, string) -> bool, req: Request, k: int)
    requires Keyed(db)
    ensures var after := Serve(db, modules, canMemberGoLive, req).0;
      && (k in db.rows ==> k in after.rows)
      && (k in db.rows ==>
            after.rows[k].status == db.rows[k].status || Allowed(req, db.rows[k].status, after.rows[k].status))
      && (k in after.rows && k !in db.rows ==> CreatedStatus(req) == Some(after.rows[k].status))
  {
    match req
    case CancelRequest(id, actor, call) =>
      if id in db.rows {
        assert db.rows[id].id == Some(id);
      }
    case GoLiveRequest(id, actor, call) =>
      if id in db.rows {
        assert db.rows[id].id == Some(id);
      }
    case TestJobUrlRequest(id, url) =>
      if id in db.rows {
        assert db.rows[id].id == Some(id);
      }
    case TestResultRequest(id, success) =>
      if id in db.rows {
        assert db.rows[id].id == Some(id);
      }
    case _ =>
  }
}
