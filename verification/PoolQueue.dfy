/** The queue of the worker pool (src/unix/lwt_unix_stubs.c): a circular list of jobs reached through
    its last element. */
module PoolQueue {

  class Job {
    var next: Job?

    constructor ()
      ensures next == null
    {
      next := null;
    }
  }

  class Queue {
    var last: Job?               // pool_queue
    ghost var jobs: seq<Job>     // the queued jobs, oldest first

    ghost predicate Valid()
      reads this, jobs
    {
      && (forall i, k :: 0 <= i < k < |jobs| ==> jobs[i] != jobs[k])
      && (forall i :: 0 <= i < |jobs| - 1 ==> jobs[i].next == jobs[i + 1])
      && if jobs == [] then last == null else last == jobs[|jobs| - 1] && last.next == jobs[0]
    }

    constructor ()
      ensures Valid() && jobs == []
    {
      last, jobs := null, [];
    }

    /** Adds the job at the end of the queue. */
    method Enqueue(job: Job)
      requires Valid() && job !in jobs
      modifies this, job, if last == null then {} else {last}
      ensures Valid() && jobs == old(jobs) + [job]
    {
      if last == null {
        last := job;
        job.next := job;
      } else {
        job.next := last.next;
        last.next := job;
        last := job;
      }
      jobs := jobs + [job];
    }

    /** Takes the first queued job, or tells that there is none. */
    method Dequeue() returns (job: Job?)
      requires Valid()
      modifies this, if last == null then {} else {last}
      ensures Valid()
      ensures if old(jobs) == [] then job == null && jobs == []
              else job == old(jobs)[0] && jobs == old(jobs)[1..]
    {
      job := null;
      if last != null {
        job := last.next;
        assert |jobs| > 1 ==> jobs[0].next == jobs[0 + 1] != jobs[0];
        if job.next == job {
          last := null;
        } else {
          last.next := job.next;
        }
        jobs := jobs[1..];
      }
    }
  }
}
