/** Session exports: one worker, a few jobs, and their temporary files. Each
    method is one critical section or one write of the worker; they may follow
    one another in any order. */
module Exports {
  import opened Rows

  const MAX_BYTES := 67_108_864
  const MAX_JOBS := 4

  datatype JobState = Preparing | Failed | Ready

  datatype Job = Job(owner: int, session: string, state: JobState, path: Option<string>, bytes: nat)

  /** What the single preparation in progress is for. */
  datatype Task = Background(job: string) | Direct

  datatype Worker = Worker(task: Task, file: Option<string>, remaining: nat, cancelled: bool)

  datatype Answer = Accepted(job: string) | Closed | TooMany | NotFound | NotReady | Serve(path: string) | Ok

  /** What ended a preparation's context: its deadline or its client, or the removal of
      its job. */
  datatype Cause = Interrupted | Removed(job: string)

  /** A preparation is cancelled for a reason, and removing a job is one for that job's
      own preparation only. */
  ghost predicate CauseOk(worker: Option<Worker>, cause: Option<Cause>) {
    worker.Some? ==>
      && (worker.value.cancelled <==> cause.Some?)
      && (cause.Some? && cause.value.Removed? ==> worker.value.task == Background(cause.value.job))
  }

  /** The file was handed to a job that still has it. */
  ghost predicate Held(jobs: map<string, Job>, holder: map<string, string>, p: string) {
    p in holder && holder[p] in jobs && jobs[holder[p]].path == Some(p)
  }

  /** A file is either being written by the worker or belongs to a finished job. */
  ghost predicate FilesOk(jobs: map<string, Job>, worker: Option<Worker>, files: map<string, nat>, holder: map<string, string>, usedFiles: set<string>) {
    && (forall p :: p in files ==> p in usedFiles && files[p] <= MAX_BYTES)
    && (forall p :: p in files ==> (worker.Some? && worker.value.file == Some(p)) || Held(jobs, holder, p))
    && (worker.Some? && worker.value.file.Some? ==>
          && worker.value.file.value in files
          && files[worker.value.file.value] + worker.value.remaining == MAX_BYTES)
    && (worker.Some? && worker.value.file.None? ==> worker.value.remaining == MAX_BYTES)
  }

  ghost predicate JobsOk(jobs: map<string, Job>, worker: Option<Worker>, files: map<string, nat>, holder: map<string, string>, usedJobs: set<string>) {
    && |jobs| <= MAX_JOBS && jobs.Keys <= usedJobs
    && (forall j :: j in jobs ==> JobOk(jobs, worker, files, holder, j))
    && (worker.Some? && worker.value.task.Background? ==>
          && worker.value.task.job in usedJobs
          && (worker.value.task.job in jobs ==> jobs[worker.value.task.job].state == Preparing)
          && (!worker.value.cancelled ==> worker.value.task.job in jobs))
  }

  ghost predicate JobOk(jobs: map<string, Job>, worker: Option<Worker>, files: map<string, nat>, holder: map<string, string>, j: string)
    requires j in jobs
  {
    var job := jobs[j];
    && (job.state == Ready <==> job.path.Some?)
    && (job.path.Some? ==>
          && job.path.value in files && job.bytes == files[job.path.value]
          && !(worker.Some? && worker.value.file == job.path)
          && job.path.value in holder && holder[job.path.value] == j)
    && (job.state == Preparing ==> worker.Some? && worker.value.task == Background(j))
  }

  ghost predicate AllOk(jobs: map<string, Job>, worker: Option<Worker>, files: map<string, nat>, holder: map<string, string>,
                        usedFiles: set<string>, usedJobs: set<string>)
  {
    FilesOk(jobs, worker, files, holder, usedFiles) && JobsOk(jobs, worker, files, holder, usedJobs)
  }

  /** The job's context is cancelled if the worker is on it. */
  function Stopped(worker: Option<Worker>, id: string): Option<Worker> {
    if worker.Some? && worker.value.task == Background(id) then Some(worker.value.(cancelled := true)) else worker
  }

  function Without(files: map<string, nat>, path: Option<string>): map<string, nat> {
    if path.Some? then files - {path.value} else files
  }

  lemma RemoveKeeps(jobs: map<string, Job>, worker: Option<Worker>, files: map<string, nat>, holder: map<string, string>,
                    usedFiles: set<string>, usedJobs: set<string>, id: string)
    requires AllOk(jobs, worker, files, holder, usedFiles, usedJobs) && id in jobs
    ensures AllOk(jobs - {id}, Stopped(worker, id), Without(files, jobs[id].path), holder, usedFiles, usedJobs)
  {
    var jobs' := jobs - {id};
    assert JobOk(jobs, worker, files, holder, id);
    assert jobs'.Keys == jobs.Keys - {id};
    forall j | j in jobs' ensures JobOk(jobs, worker, files, holder, j) {}
  }

  lemma PreparingIsWorker(jobs: map<string, Job>, worker: Option<Worker>, files: map<string, nat>, holder: map<string, string>,
                          usedFiles: set<string>, usedJobs: set<string>, id: string)
    requires AllOk(jobs, worker, files, holder, usedFiles, usedJobs) && id in jobs && jobs[id].state == Preparing
    ensures worker.Some? && worker.value.task == Background(id)
  {
    assert JobOk(jobs, worker, files, holder, id);
  }

  lemma AddKeeps(jobs: map<string, Job>, files: map<string, nat>, holder: map<string, string>,
                 usedFiles: set<string>, usedJobs: set<string>, id: string, job: Job, w: Worker)
    requires AllOk(jobs, None, files, holder, usedFiles, usedJobs)
    requires id !in usedJobs && |jobs| < MAX_JOBS
    requires job.state == Preparing && job.path.None? && w == Worker(Background(id), None, MAX_BYTES, false)
    ensures AllOk(jobs[id := job], Some(w), files, holder, usedFiles, usedJobs + {id})
  {
    hide JobOk, Held;
    var jobs' := jobs[id := job];
    assert jobs'.Keys == jobs.Keys + {id};
    assert |jobs'.Keys| == |jobs.Keys| + 1;
    forall j | j in jobs' ensures JobOk(jobs', Some(w), files, holder, j) { AddedJob(jobs, files, holder, id, job, w, j); }
    forall p | p in files ensures Held(jobs', holder, p) { HeldStill(jobs, holder, id, job, p); }
  }

  lemma AddedJob(jobs: map<string, Job>, files: map<string, nat>, holder: map<string, string>, id: string, job: Job, w: Worker, j: string)
    requires id !in jobs && (j in jobs ==> JobOk(jobs, None, files, holder, j)) && (j in jobs || j == id)
    requires job.state == Preparing && job.path.None? && w == Worker(Background(id), None, MAX_BYTES, false)
    ensures JobOk(jobs[id := job], Some(w), files, holder, j)
  {}

  lemma HeldStill(jobs: map<string, Job>, holder: map<string, string>, id: string, job: Job, p: string)
    requires Held(jobs, holder, p) && id !in jobs
    ensures Held(jobs[id := job], holder, p)
  {}

  lemma KnownJob(jobs: map<string, Job>, worker: Option<Worker>, files: map<string, nat>, holder: map<string, string>,
                 usedFiles: set<string>, usedJobs: set<string>, id: string)
    requires AllOk(jobs, worker, files, holder, usedFiles, usedJobs) && id in jobs
    ensures id in usedJobs
  {}

  /** The worker ends without handing its file to anyone. */
  lemma DropKeeps(jobs: map<string, Job>, w: Worker, files: map<string, nat>, holder: map<string, string>,
                  usedFiles: set<string>, usedJobs: set<string>)
    requires AllOk(jobs, Some(w), files, holder, usedFiles, usedJobs)
    requires w.task.Background? ==> w.task.job !in jobs
    ensures AllOk(jobs, None, Without(files, w.file), holder, usedFiles, usedJobs)
  {
    forall j | j in jobs ensures JobOk(jobs, Some(w), files, holder, j) {}
  }

  /** Settling the worker's own job changes no other. */
  lemma FailKeeps(jobs: map<string, Job>, w: Worker, files: map<string, nat>, holder: map<string, string>,
                  usedFiles: set<string>, usedJobs: set<string>, id: string)
    requires AllOk(jobs, Some(w), files, holder, usedFiles, usedJobs)
    requires w.task == Background(id) && id in jobs
    ensures var jobs' := jobs[id := jobs[id].(state := Failed, path := None)];
            AllOk(jobs', None, Without(files, w.file), holder, usedFiles, usedJobs)
  {
    var jobs' := jobs[id := jobs[id].(state := Failed, path := None)];
    assert jobs'.Keys == jobs.Keys;
    assert |jobs'| == |jobs|;
    forall j | j in jobs ensures JobOk(jobs, Some(w), files, holder, j) {}
  }

  lemma FinishedIn(jobs: map<string, Job>, w: Worker, files: map<string, nat>, holder: map<string, string>,
                   usedFiles: set<string>, usedJobs: set<string>)
    requires AllOk(jobs, Some(w), files, holder, usedFiles, usedJobs)
    ensures w.file.Some? ==> w.file.value in files
  {}

  lemma HandKeeps(jobs: map<string, Job>, w: Worker, files: map<string, nat>, holder: map<string, string>,
                  usedFiles: set<string>, usedJobs: set<string>, id: string, p: string)
    requires AllOk(jobs, Some(w), files, holder, usedFiles, usedJobs)
    requires w.task == Background(id) && id in jobs && w.file == Some(p)
    ensures var jobs' := jobs[id := jobs[id].(state := Ready, path := w.file, bytes := files[p])];
            AllOk(jobs', None, files, holder[p := id], usedFiles, usedJobs)
  {
    var jobs' := jobs[id := jobs[id].(state := Ready, path := w.file, bytes := files[p])];
    assert jobs'.Keys == jobs.Keys;
    assert |jobs'| == |jobs|;
    forall j | j in jobs ensures JobOk(jobs, Some(w), files, holder, j) {}
    forall j | j in jobs' ensures JobOk(jobs', None, files, holder[p := id], j) {
      if j != id { assert jobs[j].path != Some(p); }
    }
    hide JobOk;
  }

  class Manager {
    var jobs: map<string, Job>
    var busy: bool
    var closed: bool
    // the goroutine that prepares, and the temporary files with their sizes
    var worker: Option<Worker>
    var files: map<string, nat>
    ghost var usedJobs: set<string>
    ghost var usedFiles: set<string>
    // which job a finished file was handed to
    ghost var holder: map<string, string>
    // why the preparation in progress was cancelled, if it was
    ghost var cause: Option<Cause>

    ghost predicate BeingWritten(p: string)
      reads this
    {
      worker.Some? && worker.value.file == Some(p)
    }

    ghost predicate Kept()
      reads this
    {
      && AllOk(jobs, worker, files, holder, usedFiles, usedJobs)
      && (busy <==> worker.Some?) && CauseOk(worker, cause)
    }

    ghost predicate Valid()
      reads this
    {
      Kept() && (closed ==> jobs == map[])
    }

    constructor ()
      ensures Valid() && jobs == map[] && files == map[] && !closed && worker == None
    {
      jobs, busy, closed, worker, files := map[], false, false, None, map[];
      usedJobs, usedFiles, holder, cause := {}, {}, map[], None;
    }

    /** What Valid means to a reader: one preparation, four jobs, no stray file. */
    lemma Bounded()
      requires Valid()
      ensures |jobs| <= 4
      ensures forall i, j :: i in jobs && j in jobs && jobs[i].state == Preparing && jobs[j].state == Preparing ==> i == j
      ensures forall j :: j in jobs && jobs[j].state == Preparing ==> busy
      ensures forall p :: p in files ==> BeingWritten(p) || exists j :: j in jobs && jobs[j].state == Ready && jobs[j].path == Some(p)
      ensures forall j :: j in jobs && jobs[j].state == Ready ==> jobs[j].path.Some? && jobs[j].path.value in files && jobs[j].bytes == files[jobs[j].path.value] <= 67_108_864
      ensures forall p :: p in files ==> files[p] <= 67_108_864
      ensures closed && !busy ==> files == map[]
    {
      forall p | p in files ensures BeingWritten(p) || exists j :: j in jobs && jobs[j].state == Ready && jobs[j].path == Some(p) {
        assert Held(jobs, holder, p) ==> jobs[holder[p]].state == Ready;
      }
    }

    /** Over any run a preparation is cancelled only by its own deadline or client, or
        because its own job was removed. */
    lemma CancelledOnlyBy()
      requires Valid() && worker.Some? && worker.value.cancelled
      ensures cause == Some(Interrupted) || exists id :: cause == Some(Removed(id)) && worker.value.task == Background(id)
    {
      if cause.value.Removed? { assert cause == Some(Removed(cause.value.job)); }
    }

    // ---- Starting ----

    /** handlePrepareSessionExport for a session that exists. */
    method Prepare(owner: int, session: string, id: string) returns (a: Answer)
      requires Valid() && id !in usedJobs
      modifies this
      ensures Valid() && files == old(files) && closed == old(closed)
      // an equal preparation is shared; otherwise it takes an open, idle server with
      // fewer than four jobs
      ensures var shared := exists j :: j in old(jobs) && old(jobs)[j].owner == owner && old(jobs)[j].session == session && old(jobs)[j].state == Preparing;
              && (a == Closed <==> !shared && old(closed))
              && (a == TooMany <==> !shared && !old(closed) && (old(busy) || |old(jobs)| >= 4))
              && (a == Accepted(id) <==> !shared && !old(closed) && !old(busy) && |old(jobs)| < 4)
              && (shared ==>
                    && a.Accepted? && a.job in old(jobs) && old(jobs)[a.job].owner == owner
                    && old(jobs)[a.job].session == session && old(jobs)[a.job].state == Preparing)
      ensures a != Accepted(id) ==> jobs == old(jobs) && worker == old(worker)
      ensures a == Accepted(id) ==>
                && jobs == old(jobs)[id := Job(owner, session, Preparing, None, 0)]
                && worker == Some(Worker(Background(id), None, 67_108_864, false))
      ensures a.Accepted? || a == Closed || a == TooMany
    {
      hide AllOk;
      if j :| j in jobs && jobs[j].owner == owner && jobs[j].session == session && jobs[j].state == Preparing {
        KnownJob(jobs, worker, files, holder, usedFiles, usedJobs, j);
        return Accepted(j);
      }
      if closed {
        return Closed;
      }
      if busy || |jobs| >= MAX_JOBS {
        return TooMany;
      }
      AddKeeps(jobs, files, holder, usedFiles, usedJobs, id, Job(owner, session, Preparing, None, 0), Worker(Background(id), None, MAX_BYTES, false));
      jobs := jobs[id := Job(owner, session, Preparing, None, 0)];
      usedJobs := usedJobs + {id};
      busy, cause := true, None;
      worker := Some(Worker(Background(id), None, MAX_BYTES, false));
      return Accepted(id);
    }

    /** handleExportSession: the same single slot, but no job. */
    method StartDirect() returns (a: Answer)
      requires Valid()
      modifies this`busy, this`worker, this`cause
      ensures Valid()
      ensures a == if old(busy) || closed then TooMany else Ok
      ensures worker == if a == Ok then Some(Worker(Direct, None, 67_108_864, false)) else old(worker)
    {
      if busy || closed {
        return TooMany;
      }
      busy, cause := true, None;
      worker := Some(Worker(Direct, None, MAX_BYTES, false));
      return Ok;
    }

    // ---- Preparing ----

    /** os.CreateTemp gives the preparation a file of its own. */
    method CreateTemp(p: string)
      requires Valid() && worker.Some? && worker.value.file.None? && p !in usedFiles
      modifies this`worker, this`files, this`usedFiles
      ensures Valid() && files == old(files)[p := 0] && worker == Some(old(worker).value.(file := Some(p)))
    {
      files := files[p := 0];
      usedFiles := usedFiles + {p};
      worker := Some(worker.value.(file := Some(p)));
    }

    /** sessionExportWriter.Write: nothing of a write that would pass the cap, and
        nothing once cancelled; `accepted` is how much the file took. */
    method Write(length: nat, accepted: nat) returns (ok: bool)
      requires Valid() && worker.Some? && worker.value.file.Some? && accepted <= length
      modifies this`worker, this`files
      ensures Valid()
      ensures !ok <==> old(worker).value.cancelled || length > old(worker).value.remaining
      ensures !ok ==> files == old(files) && worker == old(worker)
      ensures ok ==>
                && worker.Some? && worker.value.file.Some? && worker.value.file.value in old(files)
                && files == old(files)[worker.value.file.value := old(files)[worker.value.file.value] + accepted]
                && worker == Some(old(worker).value.(remaining := old(worker).value.remaining - accepted))
    {
      var w := worker.value;
      if w.cancelled || length > w.remaining {
        return false;
      }
      files := files[w.file.value := files[w.file.value] + accepted];
      worker := Some(w.(remaining := w.remaining - accepted));
      return true;
    }

    /** The context's deadline, or the client of a direct export going away. */
    method Interrupt()
      requires Valid() && worker.Some?
      modifies this`worker, this`cause
      ensures Valid() && worker == Some(old(worker).value.(cancelled := true))
    {
      if !worker.value.cancelled { cause := Some(Interrupted); }
      worker := Some(worker.value.(cancelled := true));
    }

    /** A preparation that fails removes its file before it reports. */
    method Discard()
      requires Valid() && worker.Some?
      modifies this`worker, this`files
      ensures Valid() && worker == Some(old(worker).value.(file := None, remaining := MAX_BYTES))
      ensures files == if old(worker).value.file.Some? then old(files) - {old(worker).value.file.value} else old(files)
    {
      var w := worker.value;
      if w.file.Some? {
        files := files - {w.file.value};
      }
      worker := Some(w.(file := None, remaining := MAX_BYTES));
    }

    /** The end of runSessionExport: the file goes to the job if the job is still
        there and the file can be closed, and is removed otherwise. */
    method FinishJob(closable: bool)
      requires Valid() && worker.Some? && worker.value.task.Background?
      modifies this
      ensures Valid() && !busy && worker == None && closed == old(closed)
      ensures var w := old(worker).value; var id := w.task.job;
              if id !in old(jobs) then jobs == old(jobs) && files == Without(old(files), w.file)
              else if w.file.Some? && closable then
                && files == old(files)
                && jobs == old(jobs)[id := old(jobs)[id].(state := Ready, path := w.file, bytes := old(files)[w.file.value])]
              else jobs == old(jobs)[id := old(jobs)[id].(state := Failed, path := None)] && files == Without(old(files), w.file)
    {
      hide AllOk;
      var w := worker.value;
      var id := w.task.job;
      busy := false;
      worker := None;
      if id !in jobs {
        DropKeeps(jobs, w, files, holder, usedFiles, usedJobs);
        files := Without(files, w.file);
        return;
      }
      FinishedIn(jobs, w, files, holder, usedFiles, usedJobs);
      if w.file.Some? && closable {
        HandKeeps(jobs, w, files, holder, usedFiles, usedJobs, id, w.file.value);
        holder := holder[w.file.value := id];
        jobs := jobs[id := jobs[id].(state := Ready, path := w.file, bytes := files[w.file.value])];
        return;
      }
      FailKeeps(jobs, w, files, holder, usedFiles, usedJobs, id);
      files := Without(files, w.file);
      jobs := jobs[id := jobs[id].(state := Failed, path := None)];
    }

    /** The end of a direct export: whatever was served, its file goes. */
    method FinishDirect()
      requires Valid() && worker.Some? && worker.value.task.Direct?
      modifies this`busy, this`worker, this`files
      ensures Valid() && !busy && worker == None
      ensures files == Without(old(files), old(worker).value.file)
    {
      var w := worker.value;
      busy := false;
      worker := None;
      files := Without(files, w.file);
    }

    // ---- Ending jobs ----

    /** removeSessionExportLocked: the job, its context and its file go together. */
    method Remove(id: string)
      requires Kept()
      modifies this`jobs, this`worker, this`files, this`cause
      ensures Kept()
      ensures jobs == old(jobs) - {id}
      // only the job's own preparation is cancelled, and only its own file goes
      ensures worker ==
                if id in old(jobs) && old(worker).Some? && old(worker).value.task == Background(id)
                then Some(old(worker).value.(cancelled := true)) else old(worker)
      ensures id in old(jobs) && old(jobs)[id].state == Preparing ==> worker.Some? && worker.value.cancelled
      ensures files == if id in old(jobs) && old(jobs)[id].path.Some? then old(files) - {old(jobs)[id].path.value} else old(files)
    {
      hide AllOk;
      if id !in jobs {
        return;
      }
      if jobs[id].state == Preparing { PreparingIsWorker(jobs, worker, files, holder, usedFiles, usedJobs, id); }
      RemoveKeeps(jobs, worker, files, holder, usedFiles, usedJobs, id);
      var job := jobs[id];
      jobs := jobs - {id};
      if worker.Some? && worker.value.task == Background(id) {
        if !worker.value.cancelled { cause := Some(Removed(id)); }
        worker := Some(worker.value.(cancelled := true));
      }
      if job.path.Some? {
        files := files - {job.path.value};
      }
    }

    /** handleCancelSessionExport. */
    method Cancel(id: string, owner: int) returns (a: Answer)
      requires Valid()
      modifies this`jobs, this`worker, this`files, this`cause
      ensures Valid()
      ensures a == if id in old(jobs) && old(jobs)[id].owner == owner then Ok else NotFound
      ensures jobs == if a == Ok then old(jobs) - {id} else old(jobs)
      ensures worker ==
                if a == Ok && old(worker).Some? && old(worker).value.task == Background(id)
                then Some(old(worker).value.(cancelled := true)) else old(worker)
      ensures files == if a == Ok && old(jobs)[id].path.Some? then old(files) - {old(jobs)[id].path.value} else old(files)
    {
      if id !in jobs || jobs[id].owner != owner {
        return NotFound;
      }
      Remove(id);
      return Ok;
    }

    /** The expiry timer. */
    method Expire(id: string)
      requires Valid()
      modifies this`jobs, this`worker, this`files, this`cause
      ensures Valid() && jobs == old(jobs) - {id}
      ensures worker ==
                if id in old(jobs) && old(worker).Some? && old(worker).value.task == Background(id)
                then Some(old(worker).value.(cancelled := true)) else old(worker)
      ensures files == if id in old(jobs) && old(jobs)[id].path.Some? then old(files) - {old(jobs)[id].path.value} else old(files)
    {
      Remove(id);
    }

    /** closeSessionExports, up to waiting for the worker. */
    method Close()
      requires Valid()
      modifies this`jobs, this`worker, this`files, this`closed, this`cause
      ensures Valid() && closed && jobs == map[]
      ensures worker ==
                if old(worker).Some? && old(worker).value.task.Background? && old(worker).value.task.job in old(jobs)
                then Some(old(worker).value.(cancelled := true)) else old(worker)
      ensures forall p :: p in files ==> BeingWritten(p)
      ensures !busy ==> files == map[]
    {
      closed := true;
      while jobs != map[]
        invariant closed && Kept() && jobs.Keys <= old(jobs).Keys
        invariant worker ==
                    if old(worker).Some? && old(worker).value.task.Background? && old(worker).value.task.job in old(jobs).Keys - jobs.Keys
                    then Some(old(worker).value.(cancelled := true)) else old(worker)
        decreases |jobs|
      {
        var id :| id in jobs;
        Remove(id);
      }
    }

    /** handleDownloadSessionExport: only the owner, only a ready file. */
    method Download(id: string, owner: int) returns (a: Answer)
      requires Valid()
      ensures a.Serve? <==> id in jobs && jobs[id].owner == owner && jobs[id].state == Ready
      ensures a.Serve? ==> jobs[id].path == Some(a.path) && a.path in files && files[a.path] == jobs[id].bytes <= 67_108_864
      ensures a == NotFound <==> id !in jobs || jobs[id].owner != owner
      ensures a == NotReady <==> id in jobs && jobs[id].owner == owner && jobs[id].state != Ready
    {
      if id !in jobs || jobs[id].owner != owner {
        return NotFound;
      }
      if jobs[id].state != Ready {
        return NotReady;
      }
      return Serve(jobs[id].path.value);
    }
  }
}
