/**
 The queue of print jobs: a doubly linked list with jobhead and jobtail, changed in place by add_job,
 replace_job and remove_job while joblock is held.
 */
module PrintQueue {
  import opened Basics

  class Job {
    const jobid: int
    var next: Job?
    var prev: Job?

    constructor (id: int)
      ensures jobid == id && next == null
    {
      jobid := id;
      next := null;
    }
  }

  /** The job at place i, or null past the ends. */
  function At(jobs: seq<Job>, i: int): Job? {
    if 0 <= i < |jobs| then jobs[i] else null
  }

  /** next and prev of the job at place i lead to its neighbours. */
  ghost predicate Linked(jobs: seq<Job>, i: int)
    requires 0 <= i < |jobs|
    reads jobs[i]
  {
    jobs[i].next == At(jobs, i + 1) && jobs[i].prev == At(jobs, i - 1)
  }

  class Queue {
    var jobhead: Job?
    var jobtail: Job?
    ghost var jobs: seq<Job>

    /** The list reads the same in both directions. */
    ghost predicate Valid()
      reads this, jobs
    {
      && jobhead == At(jobs, 0) && jobtail == At(jobs, |jobs| - 1) && NoDup(jobs)
      && forall i :: 0 <= i < |jobs| ==> Linked(jobs, i)
    }

    constructor ()
      ensures Valid() && jobs == []
    {
      jobhead, jobtail, jobs := null, null, [];
    }

    /** add_job: a new job at the tail. */
    method AddJob(jobid: int) returns (jp: Job)
      requires Valid()
      modifies this, jobs
      ensures Valid() && fresh(jp) && jp.jobid == jobid && jobs == old(jobs) + [jp]
    {
      jp := new Job(jobid);
      jp.prev := jobtail;
      if jobtail == null {
        jobhead := jp;
      } else {
        jobtail.next := jp;
      }
      jobtail := jp;
      jobs := jobs + [jp];
      forall i | 0 <= i < |jobs|
        ensures Linked(jobs, i)
      {
        assert i < |jobs| - 1 ==> old(Linked(jobs, i));
      }
    }

    /** replace_job: a job that is not on the list goes back to its head. */
    method ReplaceJob(jp: Job)
      requires Valid() && jp !in jobs
      modifies this, jobs, jp
      ensures Valid() && jobs == [jp] + old(jobs)
    {
      jp.prev := null;
      jp.next := jobhead;
      if jobhead == null {
        jobtail := jp;
      } else {
        jobhead.prev := jp;
      }
      jobhead := jp;
      jobs := [jp] + jobs;
      assert forall i :: 0 < i < |jobs| ==> jobs[i] == old(jobs)[i - 1] && old(Linked(jobs, i - 1));
    }

    /** remove_job: any job of the list; its own pointers stay. */
    method RemoveJob(target: Job, ghost k: nat)
      requires Valid() && k < |jobs| && jobs[k] == target
      modifies this, jobs
      ensures Valid() && jobs == old(jobs[..k] + jobs[k + 1..]) && target !in jobs
      ensures target.next == old(target.next) && target.prev == old(target.prev)
    {
      ghost var was := jobs;
      assert Linked(jobs, k);
      if target.next != null {
        target.next.prev := target.prev;
      } else {
        jobtail := target.prev;
      }
      if target.prev != null {
        target.prev.next := target.next;
      } else {
        jobhead := target.next;
      }
      jobs := was[..k] + was[k + 1..];
      assert forall i :: 0 <= i < |jobs| ==> jobs[i] == was[if i < k then i else i + 1];
      forall i | 0 <= i < |jobs|
        ensures Linked(jobs, i)
      {
        assert old(Linked(jobs, if i < k then i else i + 1));
        assert jobs[i] in was;
      }
    }

    /** The printer picks up the job at the head and, when the printer cannot be reached, puts it back. */
    method Defer() returns (jp: Job)
      requires Valid() && jobs != []
      modifies this, jobs
      ensures Valid() && jobs == old(jobs) && jp == jobs[0]
    {
      jp := jobhead;
      RemoveJob(jp, 0);
      ReplaceJob(jp);
    }
  }
}
