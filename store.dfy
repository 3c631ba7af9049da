/** The job mapper (persistence collaborator), reduced to what the controller
    relies on: load a job by id, and save a job, assigning a fresh id to one
    that was never saved. */
module Store {
  import opened Wrappers
  import opened Jobs

  /** The stored rows by id, and the id the next insert receives. */
  datatype Db = Db(rows: map<int, JobRecord>, nextId: int)

  /** Every row is stored under its own id, and every id is below `nextId`,
      so an insert never overwrites a row. */
  ghost predicate Keyed(db: Db) {
    forall k | k in db.rows :: k < db.nextId && db.rows[k].id == Some(k)
  }

  /** `JobMapper::save`: update the row of a job that has an id, otherwise
      insert it under `nextId`. Returns the new rows and the job's id. */
  function Persist(db: Db, job: JobRecord): (r: (Db, int))
    ensures r.0.rows.Keys == db.rows.Keys + {r.1}
    ensures r.0.rows[r.1] == job.(id := Some(r.1))
    ensures forall k | k in db.rows && k != r.1 :: r.0.rows[k] == db.rows[k]
    ensures job.id.Some? ==> r.1 == job.id.value && r.0.nextId == db.nextId
    ensures job.id.None? ==> r.1 == db.nextId && r.0.nextId == db.nextId + 1
    ensures Keyed(db) && job.id.None? ==> r.1 !in db.rows
    ensures Keyed(db) && (job.id.Some? ==> job.id.value < db.nextId) ==> Keyed(r.0)
  {
    match job.id
    case Some(k) => (Db(db.rows[k := job], db.nextId), k)
    case None => (Db(db.rows[db.nextId := job.(id := Some(db.nextId))], db.nextId + 1), db.nextId)
  }

  /** The mapper object: a table of rows and an id counter. */
  class JobMapper {
    var rows: map<int, JobRecord>
    var nextId: int

    function Model(): Db
      reads this
    {
      Db(rows, nextId)
    }

    ghost predicate Valid()
      reads this
    {
      Keyed(Model())
    }

    constructor ()
      ensures Valid() && rows == map[] && nextId == 1
    {
      rows := map[];
      nextId := 1;
    }

    /** `JobMapper::get`: a fresh object built from the stored row, or `None`
        when no row has that id. The mapper's own code is not part of this
        model: an unknown id is assumed to be reported as not found. */
    method Get(jobId: int) returns (job: Option<Job>)
      ensures job.Some? <==> jobId in rows
      ensures job.Some? ==> fresh(job.value) && job.value.Record() == rows[jobId]
    {
      if jobId in rows {
        var loaded := new Job.FromRecord(rows[jobId]);
        job := Some(loaded);
      } else {
        job := None;
      }
    }

    /** `JobMapper::save`: write the job's record, giving it an id first if it
        has none. */
    method Save(job: Job) returns (id: int)
      requires Valid()
      requires job.id.Some? ==> job.id.value < nextId
      modifies this, job
      ensures Valid()
      ensures (Model(), id) == Persist(old(Model()), old(job.Record()))
      ensures job.Record() == old(job.Record()).(id := Some(id))
    {
      match job.id {
        case Some(k) =>
          id := k;
        case None =>
          id := nextId;
          nextId := nextId + 1;
          job.id := Some(id);
      }
      rows := rows[id := job.Record()];
    }
  }
}
