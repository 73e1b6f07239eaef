/** The job records, the stored results, and the events published for each job. */
module JobStores {
  import opened Records

  datatype Status = Pending | Processing | Finished | Failed

  datatype JobRecord = JobRecord(status: Status, total: nat, completed: nat, failed: nat, cacheHits: nat)

  datatype Note =
    | Progressed(completed: nat, total: nat, cacheHits: nat, failed: nat)
    | Finishes(results: seq<Dict>)

  /** The record as readers see it: a missing field, or a missing record, reads as its default. */
  function RecordOf(jobs: map<string, JobRecord>, id: string): JobRecord {
    if id in jobs then jobs[id] else JobRecord(Pending, 1, 0, 0, 0)
  }

  class JobStore {
    var jobs: map<string, JobRecord>
    var results: map<string, seq<Dict>>
    /** The messages sent so far on each job's channel. */
    var published: map<string, seq<Note>>

    constructor ()
      ensures jobs == map[] && results == map[] && published == map[]
    {
      jobs, results, published := map[], map[], map[];
    }

    method Create(id: string, total: nat)
      modifies this`jobs
      ensures jobs - {id} == old(jobs) - {id}
      ensures jobs == old(jobs)[id := JobRecord(Pending, total, 0, 0, 0)]
    {
      jobs := jobs[id := JobRecord(Pending, total, 0, 0, 0)];
    }

    method Start(id: string)
      modifies this`jobs
      ensures jobs - {id} == old(jobs) - {id}
      ensures jobs == old(jobs)[id := RecordOf(old(jobs), id).(status := Processing)]
    {
      jobs := jobs[id := RecordOf(jobs, id).(status := Processing)];
    }

    method IncrementProgress(id: string, completed: nat, failed: nat, cacheHits: nat)
      modifies this`jobs
      ensures jobs - {id} == old(jobs) - {id}
      ensures var job := RecordOf(old(jobs), id);
              jobs == old(jobs)[id := job.(completed := job.completed + completed, failed := job.failed + failed,
                                           cacheHits := job.cacheHits + cacheHits)]
    {
      var job := RecordOf(jobs, id);
      if completed != 0 {
        job := job.(completed := job.completed + completed);
      }
      if failed != 0 {
        job := job.(failed := job.failed + failed);
      }
      if cacheHits != 0 {
        job := job.(cacheHits := job.cacheHits + cacheHits);
      }
      jobs := jobs[id := job];
    }

    method Finish(id: string, list: seq<Dict>)
      modifies this`jobs, this`results
      ensures jobs - {id} == old(jobs) - {id}
      ensures jobs == old(jobs)[id := RecordOf(old(jobs), id).(status := Finished)]
      ensures results == old(results)[id := list]
    {
      jobs := jobs[id := RecordOf(jobs, id).(status := Finished)];
      results := results[id := list];
    }

    method Fail(id: string)
      modifies this`jobs
      ensures jobs - {id} == old(jobs) - {id}
      ensures jobs == old(jobs)[id := RecordOf(old(jobs), id).(status := Failed)]
    {
      jobs := jobs[id := RecordOf(jobs, id).(status := Failed)];
    }

    method Publish(id: string, note: Note)
      modifies this`published
      ensures published - {id} == old(published) - {id}
      ensures published == old(published)[id := Channel(old(published), id) + [note]]
    {
      published := published[id := Channel(published, id) + [note]];
    }
  }

  function Channel(published: map<string, seq<Note>>, id: string): seq<Note> {
    if id in published then published[id] else []
  }
}
