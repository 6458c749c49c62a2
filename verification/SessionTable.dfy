/** A hub session as an object: its table of jobs, its closed flag and the metadata its spoke published. */
module SessionTable {
  import opened Collections
  import opened Wire
  import opened JobWaiter

  /** What failing or feeding one job does to a table of waiters. */
  function Failing(m: map<string, Waiter>, id: string, e: string): map<string, Waiter> {
    if id in m then m[id := Fail(m[id], e)] else m
  }

  function Feeding(m: map<string, Waiter>, id: string, f: Frame): map<string, Waiter> {
    if id in m then m[id := Append(m[id], f)] else m
  }

  class Session {
    var closed: bool
    var jobs: map<string, Job>
    var metadata: map<string, int>

    /** No job is in the table twice. */
    ghost predicate Valid()
      reads this
    {
      forall a, b :: a in jobs && b in jobs && a != b ==> jobs[a] != jobs[b]
    }

    constructor ()
      ensures Valid() && !closed && jobs == map[] && metadata == map[]
    {
      closed, jobs, metadata := false, map[], map[];
    }

    method BeginJob(id: string, stream: bool) returns (waiter: Job)
      requires Valid()
      modifies this`jobs
      ensures Valid() && fresh(waiter) && waiter.View() == Fresh(stream)
      ensures jobs == old(jobs)[id := waiter] && Waiters() == old(Waiters())[id := Fresh(stream)]
    {
      waiter := new Job(stream);
      jobs := jobs[id := waiter];
    }

    method EndJob(id: string)
      requires Valid()
      modifies this`jobs
      ensures Valid() && jobs == old(jobs) - {id} && Waiters() == old(Waiters()) - {id}
    {
      jobs := jobs - {id};
    }

    /** Frames are written only while the session is open. */
    method SendJob() returns (sent: bool)
      ensures sent == !closed
    {
      sent := !closed;
    }

    method CancelJob(id: string)
      requires Valid()
      modifies if id in jobs then {jobs[id]} else {}
      ensures Waiters() == Failing(old(Waiters()), id, "cascade job canceled")
    {
      hide Fail, Job.View;
      if id in jobs {
        jobs[id].FailWith("cascade job canceled");
      }
    }

    method DeliverResult(id: string, f: Frame)
      requires Valid()
      modifies if id in jobs then {jobs[id]} else {}
      ensures Waiters() == Feeding(old(Waiters()), id, f)
    {
      hide Append, Job.View;
      if id !in jobs {
        return;
      }
      jobs[id].AppendChunk(f);
    }

    method DeliverError(id: string, e: string)
      requires Valid()
      modifies if id in jobs then {jobs[id]} else {}
      ensures Waiters() == if id == "" then old(Waiters()) else Failing(old(Waiters()), id, e)
    {
      hide Fail, Job.View;
      if id == "" {
        return;
      }
      if id !in jobs {
        return;
      }
      jobs[id].FailWith(e);
    }

    /** The waiters as values. */
    ghost function Waiters(): map<string, Waiter>
      reads this, set id | id in jobs :: jobs[id]
    {
      map id | id in jobs :: jobs[id].View()
    }

    /** Fails every job there is, in any order, and empties the table. */
    method FailAllJobs(e: string)
      requires Valid()
      modifies this`jobs, set id | id in jobs :: jobs[id]
      ensures Valid() && jobs == map[]
      ensures forall id :: id in old(jobs) ==> old(jobs)[id].View() == Fail(old(Waiters())[id], e)
    {
      hide Fail, Job.View;
      ghost var all, before := jobs, Waiters();
      ghost var objects := set id | id in jobs :: jobs[id];
      while jobs != map[]
        invariant Valid() && jobs.Keys <= all.Keys && forall id :: id in jobs ==> jobs[id] == all[id]
        invariant forall id :: id in all ==> all[id].View() == if id in jobs then before[id] else Fail(before[id], e)
        decreases |jobs.Keys|
      {
        var _ := Inhabited(jobs.Keys);
        var id :| id in jobs;
        assert all[id] in objects;
        FailOne(id, e);
        forall x | x in all && x != id ensures all[x] != all[id] {
          assert x in old(jobs) && id in old(jobs);
        }
      }
    }

    method FailOne(id: string, e: string)
      requires Valid() && id in jobs
      modifies this`jobs, jobs[id]
      ensures Valid() && jobs == old(jobs) - {id} && |jobs.Keys| < |old(jobs).Keys|
      ensures old(jobs)[id].View() == Fail(old(jobs[id].View()), e)
    {
      hide Fail, Job.View;
      var job := jobs[id];
      RemovesOne(jobs, id);
      jobs := jobs - {id};
      job.FailWith(e);
    }

    /** The first close fails all jobs and forgets the metadata; later ones do nothing. */
    method CloseWithReason(reason: string)
      requires Valid()
      modifies this, set id | id in jobs :: jobs[id]
      ensures Valid() && closed
      ensures old(closed) ==> jobs == old(jobs) && metadata == old(metadata) && Waiters() == old(Waiters())
      ensures !old(closed) ==> jobs == map[] && metadata == map[]
      ensures !old(closed) ==> forall id :: id in old(jobs) ==>
                old(jobs)[id].View() == Fail(old(Waiters())[id], "cascade session closed: " + reason)
    {
      hide Fail;
      if closed {
        return;
      }
      closed := true;
      assert Waiters() == old(Waiters());
      FailAllJobs("cascade session closed: " + reason);
      metadata := map[];
    }

    method ReplaceMetadata(models: map<string, int>)
      modifies this`metadata
      ensures metadata == models
    {
      metadata := models;
    }

    method MetadataContextLength(model: string) returns (r: Option<int>)
      ensures r == if model in metadata && metadata[model] > 0 then Some(metadata[model]) else None
    {
      if model !in metadata || metadata[model] <= 0 {
        return None;
      }
      r := Some(metadata[model]);
    }
  }

  lemma RemovesOne<T>(m: map<string, T>, id: string)
    requires id in m
    ensures |(m - {id}).Keys| < |m.Keys|
  {
    assert (m - {id}).Keys == m.Keys - {id};
  }
}
