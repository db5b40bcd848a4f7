/** The persistent job queue of src/generation-queue.js: jobs move from
    pending through processing to completed or failed, a FIFO of job ids is
    drained one job at a time behind a re-entrance flag, every update is
    merged into the stored job and written to disk, and a restart re-queues
    the jobs that had not finished. The disk is a map from job id to the
    parsed contents of `<id>.json` (`None` when the file does not parse); the
    clock, the uuid and the generation run are parameters. */
module GenerationQueue {
  import opened Wrappers
  import opened Json

  type JobId = string

  datatype Status = Pending | Processing | Completed | Failed {
    /** The statuses `restoreJobs` brings back. */
    predicate Active() {
      this == Pending || this == Processing
    }
  }

  /** A job record; `result` is `null` until it completes, `error`,
      `startedAt` and `completedAt` are `null` until set. */
  datatype Job = Job(
    id: JobId, prompt: string, metadata: Json, status: Status, progress: real,
    steps: seq<string>, result: Json, error: Option<string>, createdAt: int,
    startedAt: Option<int>, completedAt: Option<int>)

  /** The object passed to `updateJob`: each present field is assigned. */
  datatype Updates = Updates(
    status: Option<Status>, progress: Option<real>, steps: Option<seq<string>>,
    result: Option<Json>, error: Option<string>, startedAt: Option<int>,
    completedAt: Option<int>)

  /** One `progress` event of the generator. */
  datatype ProgressEvent = ProgressEvent(step: string, progress: real)

  /** What a generation does when a job is processed: the progress events it
      emits, then its result or the message of the error it throws, and the
      clock readings taken when the job starts and when it ends. */
  datatype Run = Run(events: seq<ProgressEvent>, outcome: Result<Json>, startedAt: int, completedAt: int)

  /** The jobs in memory and the disk. */
  datatype Store = Store(jobs: map<JobId, Job>, disk: map<JobId, Option<Job>>) {
    /** Files are named after the job they hold, and every job in memory is
        also stored, as it is, on disk. */
    ghost predicate Valid() {
      && (forall id :: id in disk && disk[id].Some? ==> disk[id].value.id == id)
      && (forall id :: id in jobs ==> id in disk && disk[id] == Some(jobs[id]))
    }
  }

  /** The queue's fields: the FIFO of ids, the re-entrance flag and the
      store. */
  datatype QState = QState(queue: seq<JobId>, processing: bool, store: Store)

  // ---------------------------------------------------------------------
  // addJob, getJob, updateJob
  // ---------------------------------------------------------------------

  /** The job `addJob` creates. */
  function NewJob(id: JobId, prompt: string, metadata: Json, now: int): Job {
    Job(id, prompt, metadata, Pending, 0.0, [], JNull, None, now, None, None)
  }

  /** `addJob`: the job is written to disk, put in the map and its id
      appended at the tail of the queue. */
  function Added(q: QState, id: JobId, prompt: string, metadata: Json, now: int): (r: QState)
    requires q.store.Valid()
    ensures r.store.Valid()
  {
    var j := NewJob(id, prompt, metadata, now);
    q.(store := Store(q.store.jobs[id := j], q.store.disk[id := Some(j)]), queue := q.queue + [id])
  }

  /** After `addJob` the new job is what `getJob` returns, it is last in the
      queue, and every other id reads as before. */
  lemma AddedSpec(q: QState, id: JobId, prompt: string, metadata: Json, now: int)
    requires q.store.Valid()
    ensures var r := Added(q, id, prompt, metadata, now);
      && Lookup(r.store, id) == Some(NewJob(id, prompt, metadata, now))
      && r.queue == q.queue + [id] && r.processing == q.processing
      && (forall other :: other != id ==> Lookup(r.store, other) == Lookup(q.store, other))
  {
  }

  /** `getJob`: the job in memory, else the one on disk, else `null`. */
  function Lookup(s: Store, id: JobId): (r: Option<Job>)
    requires s.Valid()
    ensures id in s.jobs ==> r == Some(s.jobs[id])
    ensures id !in s.jobs && id in s.disk ==> r == s.disk[id]
    ensures id !in s.jobs && id !in s.disk ==> r.None?
    ensures r.Some? ==> r.value.id == id
  {
    if id in s.jobs then Some(s.jobs[id])
    else if id in s.disk then s.disk[id]
    else None
  }

  /** `Object.assign(job, updates)`. */
  function Merge(j: Job, u: Updates): Job {
    j.(status := u.status.GetOr(j.status),
       progress := u.progress.GetOr(j.progress),
       steps := u.steps.GetOr(j.steps),
       result := u.result.GetOr(j.result),
       error := if u.error.Some? then u.error else j.error,
       startedAt := if u.startedAt.Some? then u.startedAt else j.startedAt,
       completedAt := if u.completedAt.Some? then u.completedAt else j.completedAt)
  }

  /** Merging an empty update changes nothing, merging the same update twice
      is merging it once, and the identity, prompt, metadata and creation time
      never change. */
  lemma MergeLaws(j: Job, u: Updates)
    ensures Merge(j, Updates(None, None, None, None, None, None, None)) == j
    ensures Merge(Merge(j, u), u) == Merge(j, u)
    ensures var m := Merge(j, u);
      m.id == j.id && m.prompt == j.prompt && m.metadata == j.metadata && m.createdAt == j.createdAt
  {
  }

  /** The store after `updateJob`: for a known id the merged job is saved and,
      when the job is in memory, replaces it there; otherwise nothing. */
  function Updated(s: Store, id: JobId, u: Updates): (r: Store)
    requires s.Valid()
    ensures r.Valid() && r.jobs.Keys == s.jobs.Keys
  {
    match Lookup(s, id)
    case None => s
    case Some(j) =>
      var m := Merge(j, u);
      Store(if id in s.jobs then s.jobs[id := m] else s.jobs, s.disk[id := Some(m)])
  }

  /** What `updateJob` returns: the merged job, or `null` for an unknown id. */
  function UpdateResult(s: Store, id: JobId, u: Updates): (r: Option<Job>)
    requires s.Valid()
  {
    match Lookup(s, id)
    case None => None
    case Some(j) => Some(Merge(j, u))
  }

  /** An unknown id changes nothing and yields `null`; a known one is merged,
      persisted and is what `getJob` returns afterwards, while every other id
      reads as before. */
  lemma UpdatedSpec(s: Store, id: JobId, u: Updates)
    requires s.Valid()
    ensures Lookup(s, id).None? ==> Updated(s, id, u) == s && UpdateResult(s, id, u).None?
    ensures Lookup(s, id).Some? ==>
      && UpdateResult(s, id, u) == Some(Merge(Lookup(s, id).value, u))
      && Lookup(Updated(s, id, u), id) == UpdateResult(s, id, u)
      && Updated(s, id, u).disk[id] == UpdateResult(s, id, u)
    ensures forall other :: other != id ==> Lookup(Updated(s, id, u), other) == Lookup(s, other)
  {
  }

  // ---------------------------------------------------------------------
  // processJob
  // ---------------------------------------------------------------------

  function StartUpdate(now: int): Updates {
    Updates(Some(Processing), Some(0.0), None, None, None, Some(now), None)
  }

  function ProgressUpdate(e: ProgressEvent, steps: seq<string>): Updates {
    Updates(None, Some(e.progress), Some(steps + [e.step]), None, None, None, None)
  }

  function CompleteUpdate(result: Json, now: int): Updates {
    Updates(Some(Completed), Some(100.0), None, Some(result), None, None, Some(now))
  }

  function FailUpdate(message: string, now: int): Updates {
    Updates(Some(Failed), None, None, None, Some(message), None, Some(now))
  }

  /** The progress listener over a sequence of events. It appends to
      `job.steps` of the object `processJob` fetched: the live job when it
      is in memory, the unchanging copy read from disk otherwise. */
  function Progressed(s: Store, id: JobId, events: seq<ProgressEvent>, inMemory: bool, snapshot: seq<string>): (r: Store)
    requires s.Valid() && (inMemory ==> id in s.jobs)
    ensures r.Valid() && r.jobs.Keys == s.jobs.Keys
    decreases |events|
  {
    if events == [] then s
    else
      var base := if inMemory then s.jobs[id].steps else snapshot;
      Progressed(Updated(s, id, ProgressUpdate(events[0], base)), id, events[1..], inMemory, snapshot)
  }

  /** `processJob`: mark the job processing, apply its progress events, then
      record its result or its error. An unknown id changes nothing. */
  function Processed(s: Store, id: JobId, run: Run): (r: Store)
    requires s.Valid()
    ensures r.Valid() && r.jobs.Keys == s.jobs.Keys
  {
    match Lookup(s, id)
    case None => s
    case Some(job) =>
      var s1 := Updated(s, id, StartUpdate(run.startedAt));
      var s2 := Progressed(s1, id, run.events, id in s.jobs, job.steps);
      match run.outcome
      case Ok(result) => Updated(s2, id, CompleteUpdate(result, run.completedAt))
      case Err(message) => Updated(s2, id, FailUpdate(message, run.completedAt))
  }

  /** The same steps on one job value. */
  function ProgressJob(j: Job, events: seq<ProgressEvent>, inMemory: bool, snapshot: seq<string>): Job
    decreases |events|
  {
    if events == [] then j
    else
      var base := if inMemory then j.steps else snapshot;
      ProgressJob(Merge(j, ProgressUpdate(events[0], base)), events[1..], inMemory, snapshot)
  }

  function ProcessJobValue(j: Job, run: Run, inMemory: bool): Job {
    var j1 := Merge(j, StartUpdate(run.startedAt));
    var j2 := ProgressJob(j1, run.events, inMemory, j.steps);
    match run.outcome
    case Ok(result) => Merge(j2, CompleteUpdate(result, run.completedAt))
    case Err(message) => Merge(j2, FailUpdate(message, run.completedAt))
  }

  /** The listener changes the job as `ProgressJob` says and nothing else. */
  lemma {:induction false} ProgressedLookup(s: Store, id: JobId, events: seq<ProgressEvent>, inMemory: bool, snapshot: seq<string>)
    requires s.Valid() && Lookup(s, id).Some?
    requires inMemory <==> id in s.jobs
    ensures Lookup(Progressed(s, id, events, inMemory, snapshot), id)
      == Some(ProgressJob(Lookup(s, id).value, events, inMemory, snapshot))
    ensures forall other :: other != id ==>
      Lookup(Progressed(s, id, events, inMemory, snapshot), other) == Lookup(s, other)
    decreases |events|
  {
    if events != [] {
      var base := if inMemory then s.jobs[id].steps else snapshot;
      UpdatedSpec(s, id, ProgressUpdate(events[0], base));
      ProgressedLookup(Updated(s, id, ProgressUpdate(events[0], base)), id, events[1..], inMemory, snapshot);
    }
  }

  /** `processJob` changes the job as `ProcessJobValue` says and nothing
      else. */
  lemma ProcessedLookup(s: Store, id: JobId, run: Run)
    requires s.Valid()
    ensures Lookup(s, id).None? ==> Processed(s, id, run) == s
    ensures Lookup(s, id).Some? ==>
      Lookup(Processed(s, id, run), id) == Some(ProcessJobValue(Lookup(s, id).value, run, id in s.jobs))
    ensures forall other :: other != id ==> Lookup(Processed(s, id, run), other) == Lookup(s, other)
  {
    match Lookup(s, id)
    case None =>
    case Some(job) =>
      var s1 := Updated(s, id, StartUpdate(run.startedAt));
      UpdatedSpec(s, id, StartUpdate(run.startedAt));
      ProgressedLookup(s1, id, run.events, id in s.jobs, job.steps);
      var s2 := Progressed(s1, id, run.events, id in s.jobs, job.steps);
      match run.outcome
      case Ok(result) => UpdatedSpec(s2, id, CompleteUpdate(result, run.completedAt));
      case Err(message) => UpdatedSpec(s2, id, FailUpdate(message, run.completedAt));
  }

  /** The names of the steps of a sequence of events. */
  function StepNames(events: seq<ProgressEvent>): (r: seq<string>)
    ensures |r| == |events|
    ensures forall i :: 0 <= i < |events| ==> r[i] == events[i].step
    decreases |events|
  {
    if events == [] then [] else [events[0].step] + StepNames(events[1..])
  }

  /** Each event sets the progress to its value, so the last one is what
      remains; only progress and steps change. */
  lemma {:induction false} ProgressJobProgress(j: Job, events: seq<ProgressEvent>, inMemory: bool, snapshot: seq<string>)
    ensures var r := ProgressJob(j, events, inMemory, snapshot);
      && r == j.(progress := r.progress, steps := r.steps)
      && r.progress == if events == [] then j.progress else events[|events| - 1].progress
    decreases |events|
  {
    if events != [] {
      var base := if inMemory then j.steps else snapshot;
      ProgressJobProgress(Merge(j, ProgressUpdate(events[0], base)), events[1..], inMemory, snapshot);
    }
  }

  /** A job in memory gets every step name appended, in order. */
  lemma {:induction false} ProgressJobStepsInMemory(j: Job, events: seq<ProgressEvent>, snapshot: seq<string>)
    ensures ProgressJob(j, events, true, snapshot).steps == j.steps + StepNames(events)
    decreases |events|
  {
    if events != [] {
      var j1 := Merge(j, ProgressUpdate(events[0], j.steps));
      ProgressJobStepsInMemory(j1, events[1..], snapshot);
      assert StepNames(events) == [events[0].step] + StepNames(events[1..]);
    }
  }

  /** A job read from disk keeps only its original steps plus the last step
      name: each event starts again from the copy read at the start. */
  lemma {:induction false} ProgressJobStepsFromDisk(j: Job, events: seq<ProgressEvent>, snapshot: seq<string>)
    ensures ProgressJob(j, events, false, snapshot).steps
      == if events == [] then j.steps else snapshot + [events[|events| - 1].step]
    decreases |events|
  {
    if events != [] {
      var j1 := Merge(j, ProgressUpdate(events[0], snapshot));
      ProgressJobStepsFromDisk(j1, events[1..], snapshot);
    }
  }

  /** A processed job ends completed with progress 100, its result and its
      completion time, or failed with the error message and the progress of
      its last event; it has its start time, and a job in memory has every
      step name of the run appended. */
  lemma ProcessJobValueSpec(j: Job, run: Run, inMemory: bool)
    ensures var r := ProcessJobValue(j, run, inMemory);
      && r.id == j.id && r.prompt == j.prompt && r.createdAt == j.createdAt
      && r.startedAt == Some(run.startedAt)
      && r.completedAt == Some(run.completedAt)
      && (run.outcome.Ok? ==> r.status == Completed && r.progress == 100.0 && r.result == run.outcome.value && r.error == j.error)
      && (run.outcome.Err? ==>
            && r.status == Failed && r.error == Some(run.outcome.error) && r.result == j.result
            && r.progress == (if run.events == [] then 0.0 else run.events[|run.events| - 1].progress))
      && (inMemory ==> r.steps == j.steps + StepNames(run.events))
  {
    var j1 := Merge(j, StartUpdate(run.startedAt));
    ProgressJobProgress(j1, run.events, inMemory, j.steps);
    if inMemory {
      ProgressJobStepsInMemory(j1, run.events, j.steps);
    }
  }

  // ---------------------------------------------------------------------
  // startProcessing
  // ---------------------------------------------------------------------

  /** The `while` loop of `startProcessing`: take the head of the queue and
      process it, until the queue is empty. */
  function Drained(q: QState, runs: JobId -> Run): (r: QState)
    requires q.store.Valid()
    ensures r.store.Valid() && r.queue == [] && r.processing == q.processing
    decreases |q.queue|
  {
    if q.queue == [] then q
    else Drained(QState(q.queue[1..], q.processing, Processed(q.store, q.queue[0], runs(q.queue[0]))), runs)
  }

  /** Processing a list of ids one after the other. */
  function ProcessedAll(s: Store, ids: seq<JobId>, runs: JobId -> Run): (r: Store)
    requires s.Valid()
    ensures r.Valid() && r.jobs.Keys == s.jobs.Keys
    decreases |ids|
  {
    if ids == [] then s else ProcessedAll(Processed(s, ids[0], runs(ids[0])), ids[1..], runs)
  }

  /** `startProcessing`: nothing while a drain is under way; otherwise drain
      the queue and clear the flag. */
  function Started(q: QState, runs: JobId -> Run): (r: QState)
    requires q.store.Valid()
    ensures r.store.Valid()
  {
    if q.processing then q else Drained(q.(processing := true), runs).(processing := false)
  }

  /** The queue is drained strictly first in, first out: the jobs end as if
      the queued ids were processed one by one in queue order. */
  lemma {:induction false} DrainedFifo(q: QState, runs: JobId -> Run)
    requires q.store.Valid()
    ensures Drained(q, runs).store == ProcessedAll(q.store, q.queue, runs)
    decreases |q.queue|
  {
    if q.queue != [] {
      DrainedFifo(QState(q.queue[1..], q.processing, Processed(q.store, q.queue[0], runs(q.queue[0]))), runs);
    }
  }

  /** `startProcessing` leaves an empty queue and a cleared flag, unless it
      found a drain under way, in which case nothing changes. */
  lemma StartedSpec(q: QState, runs: JobId -> Run)
    requires q.store.Valid()
    ensures q.processing ==> Started(q, runs) == q
    ensures !q.processing ==>
      && Started(q, runs).queue == [] && !Started(q, runs).processing
      && Started(q, runs).store == ProcessedAll(q.store, q.queue, runs)
  {
    if !q.processing {
      DrainedFifo(q.(processing := true), runs);
    }
  }

  /** An id that is not processed reads as before. */
  lemma {:induction false} ProcessedAllKeeps(s: Store, ids: seq<JobId>, runs: JobId -> Run, id: JobId)
    requires s.Valid() && id !in ids
    ensures Lookup(ProcessedAll(s, ids, runs), id) == Lookup(s, id)
    decreases |ids|
  {
    if ids != [] {
      ProcessedLookup(s, ids[0], runs(ids[0]));
      ProcessedAllKeeps(Processed(s, ids[0], runs(ids[0])), ids[1..], runs, id);
    }
  }

  /** A finished job stays finished when it is processed again. */
  lemma {:induction false} ProcessedAllStaysFinished(s: Store, ids: seq<JobId>, runs: JobId -> Run, id: JobId)
    requires s.Valid() && Lookup(s, id).Some? && Lookup(s, id).value.status in {Completed, Failed}
    ensures Lookup(ProcessedAll(s, ids, runs), id).Some?
    ensures Lookup(ProcessedAll(s, ids, runs), id).value.status in {Completed, Failed}
    decreases |ids|
  {
    if ids != [] {
      var s1 := Processed(s, ids[0], runs(ids[0]));
      ProcessedLookup(s, ids[0], runs(ids[0]));
      if ids[0] == id {
        ProcessJobValueSpec(Lookup(s, id).value, runs(id), id in s.jobs);
      }
      ProcessedAllStaysFinished(s1, ids[1..], runs, id);
    }
  }

  /** After processing a list of ids, each of them that was known holds a
      finished job: completed or failed. */
  lemma {:induction false} ProcessedAllFinished(s: Store, ids: seq<JobId>, runs: JobId -> Run)
    requires s.Valid()
    ensures forall i :: 0 <= i < |ids| && Lookup(s, ids[i]).Some? ==>
      && Lookup(ProcessedAll(s, ids, runs), ids[i]).Some?
      && Lookup(ProcessedAll(s, ids, runs), ids[i]).value.status in {Completed, Failed}
    decreases |ids|
  {
    if ids != [] {
      var s1 := Processed(s, ids[0], runs(ids[0]));
      ProcessedLookup(s, ids[0], runs(ids[0]));
      ProcessedAllFinished(s1, ids[1..], runs);
      if Lookup(s, ids[0]).Some? {
        ProcessJobValueSpec(Lookup(s, ids[0]).value, runs(ids[0]), ids[0] in s.jobs);
        ProcessedAllStaysFinished(s1, ids[1..], runs, ids[0]);
      }
      forall i | 1 <= i < |ids| && Lookup(s, ids[i]).Some?
        ensures Lookup(s1, ids[i]).Some?
      {
        if ids[i] != ids[0] {
          assert Lookup(s1, ids[i]) == Lookup(s, ids[i]);
        }
      }
      assert forall i :: 1 <= i < |ids| ==> ids[1..][i - 1] == ids[i];
    }
  }

  // ---------------------------------------------------------------------
  // restoreJobs
  // ---------------------------------------------------------------------

  /** One listed file: a pending or processing job is put in the map and
      queued, a finished one is skipped. */
  function RestoreOne(q: QState, job: Job): (r: QState)
    requires q.store.Valid() && job.id in q.store.disk && q.store.disk[job.id] == Some(job)
    ensures r.store.Valid() && r.store.disk == q.store.disk && r.processing == q.processing
  {
    if job.status.Active() then
      q.(store := q.store.(jobs := q.store.jobs[job.id := job]), queue := q.queue + [job.id])
    else q
  }

  /** `restoreJobs` over the listed files; a file that does not parse throws
      and so ends the restore. */
  function Restored(q: QState, listing: seq<JobId>): (r: QState)
    requires q.store.Valid()
    requires forall i :: 0 <= i < |listing| ==> listing[i] in q.store.disk
    ensures r.store.Valid() && r.store.disk == q.store.disk && r.processing == q.processing
    decreases |listing|
  {
    if listing == [] then q
    else
      match q.store.disk[listing[0]]
      case None => q
      case Some(job) => Restored(RestoreOne(q, job), listing[1..])
  }

  /** Restoring only appends to the queue, only ids of pending or processing
      jobs that are then in memory, and loads only such jobs. */
  lemma {:induction false} RestoredSpec(q: QState, listing: seq<JobId>)
    requires q.store.Valid()
    requires forall i :: 0 <= i < |listing| ==> listing[i] in q.store.disk
    ensures var r := Restored(q, listing);
      && |r.queue| >= |q.queue| && r.queue[..|q.queue|] == q.queue
      && (forall i :: |q.queue| <= i < |r.queue| ==> r.queue[i] in r.store.jobs && r.store.jobs[r.queue[i]].status.Active())
      && (forall id :: id in r.store.jobs ==> id in q.store.jobs || r.store.jobs[id].status.Active())
      && q.store.jobs.Keys <= r.store.jobs.Keys
    decreases |listing|
  {
    if listing != [] && q.store.disk[listing[0]].Some? {
      var job := q.store.disk[listing[0]].value;
      var next := RestoreOne(q, job);
      RestoredSpec(next, listing[1..]);
      var r := Restored(next, listing[1..]);
      assert r.queue[..|next.queue|] == next.queue;
      assert r.queue[..|q.queue|] == r.queue[..|next.queue|][..|q.queue|];
      if job.status.Active() {
        var i := |q.queue|;
        assert next.queue == q.queue + [job.id];
        assert r.queue[i] == r.queue[..|next.queue|][i];
        assert r.queue[i] == job.id;
        assert r.store.jobs[job.id] == job by {
          assert r.store.disk[job.id] == Some(job);
        }
      } else {
        assert next == q;
      }
    }
  }

  /** When every listed file parses, every pending or processing job listed
      is back in memory and queued. */
  lemma {:induction false} RestoredComplete(q: QState, listing: seq<JobId>)
    requires q.store.Valid()
    requires forall i :: 0 <= i < |listing| ==> listing[i] in q.store.disk && q.store.disk[listing[i]].Some?
    ensures var r := Restored(q, listing);
      forall i :: 0 <= i < |listing| && q.store.disk[listing[i]].value.status.Active() ==>
        listing[i] in r.store.jobs && listing[i] in r.queue
    decreases |listing|
  {
    if listing != [] {
      var job := q.store.disk[listing[0]].value;
      var next := RestoreOne(q, job);
      RestoredComplete(next, listing[1..]);
      RestoredSpec(next, listing[1..]);
      var r := Restored(next, listing[1..]);
      if job.status.Active() {
        assert job.id == listing[0];
        assert next.queue[|next.queue| - 1] == job.id;
        assert r.queue[..|next.queue|] == next.queue;
        assert r.queue[|next.queue| - 1] == job.id;
      }
      assert forall i :: 1 <= i < |listing| ==> listing[1..][i - 1] == listing[i];
    }
  }

  /** One restore round on a job whose file is `id`'s adds `id` to the queue
      once when the job is pending or processing, and touches no other id. */
  lemma RestoreOneCount(q: QState, job: Job, id: JobId)
    requires q.store.Valid() && job.id in q.store.disk && q.store.disk[job.id] == Some(job)
    ensures multiset(RestoreOne(q, job).queue)[id]
      == multiset(q.queue)[id] + (if id == job.id && job.status.Active() then 1 else 0)
  {
    if job.status.Active() {
      assert multiset(q.queue + [job.id]) == multiset(q.queue) + multiset{job.id};
    }
  }

  /** When every listed file parses and no file is listed twice, restoring
      queues each listed pending or processing job exactly once more than it
      was queued before, and queues nothing else. */
  lemma {:induction false} RestoredCount(q: QState, listing: seq<JobId>, id: JobId)
    requires q.store.Valid()
    requires forall i :: 0 <= i < |listing| ==> listing[i] in q.store.disk && q.store.disk[listing[i]].Some?
    requires forall i, j :: 0 <= i < j < |listing| ==> listing[i] != listing[j]
    ensures multiset(Restored(q, listing).queue)[id]
      == multiset(q.queue)[id] + (if id in listing && q.store.disk[id].value.status.Active() then 1 else 0)
    decreases |listing|
  {
    if listing != [] {
      var job := q.store.disk[listing[0]].value;
      assert job.id == listing[0];
      var next := RestoreOne(q, job);
      RestoreOneCount(q, job, id);
      assert forall i :: 0 <= i < |listing[1..]| ==> listing[1..][i] == listing[i + 1];
      RestoredCount(next, listing[1..], id);
      assert id in listing <==> id == listing[0] || id in listing[1..];
      if id == listing[0] {
        assert id !in listing[1..];
      }
    }
  }

  /** A pending or processing job on disk, restored into a queue that does
      not hold it, is queued exactly once. */
  lemma RestoredOnce(q: QState, listing: seq<JobId>, id: JobId)
    requires q.store.Valid()
    requires forall i :: 0 <= i < |listing| ==> listing[i] in q.store.disk && q.store.disk[listing[i]].Some?
    requires forall i, j :: 0 <= i < j < |listing| ==> listing[i] != listing[j]
    requires id in listing && id !in q.queue && q.store.disk[id].value.status.Active()
    ensures multiset(Restored(q, listing).queue)[id] == 1
  {
    RestoredCount(q, listing, id);
  }

  // ---------------------------------------------------------------------
  // The queue object
  // ---------------------------------------------------------------------

  class GenerationQueue {
    var queue: seq<JobId>
    var processing: bool
    var jobs: map<JobId, Job>
    var disk: map<JobId, Option<Job>>

    ghost function Jobs(): Store
      reads this
    {
      Store(jobs, disk)
    }

    ghost function State(): QState
      reads this
    {
      QState(queue, processing, Store(jobs, disk))
    }

    ghost predicate Valid()
      reads this
    {
      Jobs().Valid()
    }

    /** A new queue over the files already on disk. */
    constructor (files: map<JobId, Option<Job>>)
      requires forall id :: id in files && files[id].Some? ==> files[id].value.id == id
      ensures Valid() && State() == QState([], false, Store(map[], files))
    {
      queue, processing, jobs, disk := [], false, map[], files;
    }

    /** `addJob`, returning the new job's id. */
    method AddJob(prompt: string, metadata: Json, id: JobId, now: int) returns (r: JobId)
      requires Valid()
      modifies this
      ensures r == id && Valid() && State() == Added(old(State()), id, prompt, metadata, now)
    {
      var job := NewJob(id, prompt, metadata, now);
      disk := disk[id := Some(job)];
      jobs := jobs[id := job];
      queue := queue + [id];
      r := id;
    }

    /** `getJob`. */
    method GetJob(id: JobId) returns (r: Option<Job>)
      requires Valid()
      ensures r == Lookup(Jobs(), id)
      ensures r.Some? ==> r.value.id == id
      ensures id !in jobs && id !in disk ==> r.None?
    {
      if id in jobs {
        return Some(jobs[id]);
      }
      if id in disk {
        return disk[id];
      }
      return None;
    }

    /** `updateJob`. */
    method UpdateJob(id: JobId, u: Updates) returns (r: Option<Job>)
      requires Valid()
      modifies this
      ensures Valid() && queue == old(queue) && processing == old(processing)
      ensures r == UpdateResult(old(Jobs()), id, u) && Jobs() == Updated(old(Jobs()), id, u)
    {
      var job := GetJob(id);
      if job.None? {
        return None;
      }
      var merged := Merge(job.value, u);
      disk := disk[id := Some(merged)];
      if id in jobs {
        jobs := jobs[id := merged];
      }
      return Some(merged);
    }

    /** `processJob`. */
    method ProcessJob(id: JobId, run: Run)
      requires Valid()
      modifies this
      ensures Valid() && queue == old(queue) && processing == old(processing)
      ensures Jobs() == Processed(old(Jobs()), id, run)
    {
      var job := GetJob(id);
      if job.None? {
        return;
      }
      var inMemory := id in jobs;
      var snapshot := job.value.steps;
      var _ := UpdateJob(id, StartUpdate(run.startedAt));
      ghost var s1 := Jobs();
      var events := run.events;
      for i := 0 to |events|
        invariant Valid() && (inMemory ==> id in jobs)
        invariant queue == old(queue) && processing == old(processing)
        invariant Progressed(Jobs(), id, events[i..], inMemory, snapshot) == Progressed(s1, id, events, inMemory, snapshot)
      {
        var base := if inMemory then jobs[id].steps else snapshot;
        assert events[i..][1..] == events[i + 1..];
        var _ := UpdateJob(id, ProgressUpdate(events[i], base));
      }
      assert events[|events|..] == [];
      match run.outcome
      case Ok(result) =>
        var _ := UpdateJob(id, CompleteUpdate(result, run.completedAt));
      case Err(message) =>
        var _ := UpdateJob(id, FailUpdate(message, run.completedAt));
    }

    /** `startProcessing`: `runs` gives the run of each job. */
    method StartProcessing(runs: JobId -> Run)
      requires Valid()
      modifies this
      ensures Valid() && State() == Started(old(State()), runs)
    {
      if processing {
        return;
      }
      processing := true;
      ghost var q0 := State();
      while |queue| > 0
        invariant Valid() && processing
        invariant Drained(State(), runs) == Drained(q0, runs)
        decreases |queue|
      {
        var id := queue[0];
        queue := queue[1..];
        ProcessJob(id, runs(id));
      }
      processing := false;
    }

    /** `restoreJobs` over the `.json` files the directory lists. */
    method RestoreJobs(listing: seq<JobId>)
      requires Valid()
      requires forall i :: 0 <= i < |listing| ==> listing[i] in disk
      modifies this
      ensures Valid() && State() == Restored(old(State()), listing)
    {
      for i := 0 to |listing|
        invariant Valid() && disk == old(disk)
        invariant Restored(State(), listing[i..]) == Restored(old(State()), listing)
      {
        assert listing[i..][1..] == listing[i + 1..];
        match disk[listing[i]]
        case None =>
          return;
        case Some(job) =>
          ghost var before := State();
          if job.status.Active() {
            jobs := jobs[job.id := job];
            queue := queue + [job.id];
          }
          assert State() == RestoreOne(before, job);
      }
    }
  }
}
