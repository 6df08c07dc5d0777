/** The linked job queue and its binary semaphore (userspace/io_backend/src/thpool.c), on the heap.

    A queue is a chain of jobs from `front` through `prev` to `rear`.  The methods are the bodies of the
    critical sections; who may run them when is the business of PoolModel and ThreadPool. */
module JobQueue {
  import opened Common

  /** Binary semaphore: the value that `bsem_wait` consumes.  Which threads sleep on it is kept by the pool. */
  class Bsem {
    var v: nat

    constructor (value: nat)
      requires value <= 1
      ensures v == value
    {
      v := value;
    }

    method Reset()
      modifies this
      ensures v == 0
    {
      v := 0;
    }

    method Post()
      modifies this
      ensures v == 1
    {
      v := 1;
    }

    /** The test and the decrement of `bsem_wait`, made under the semaphore's mutex. */
    method TryTake() returns (ok: bool)
      modifies this
      ensures ok == (old(v) == 1)
      ensures v == if ok then 0 else old(v)
    {
      ok := v == 1;
      if ok { v := 0; }
    }
  }

  class Job<T> {
    var prev: Job?<T>
    const work: T

    constructor (work: T)
      ensures this.work == work && prev == null
    {
      this.work := work;
      prev := null;
    }
  }

  function Works<T>(js: seq<Job<T>>): (r: seq<T>)
    ensures |r| == |js| && forall i | 0 <= i < |r| :: r[i] == js[i].work
  {
    seq(|js|, i requires 0 <= i < |js| => js[i].work)
  }

  lemma WorksCons<T>(j: Job<T>, js: seq<Job<T>>)
    ensures Works([j] + js) == [j.work] + Works(js)
  {
  }

  /** What a pull leaves. */
  function Rest<T>(xs: seq<T>): seq<T> {
    if xs == [] then [] else xs[1..]
  }

  class Queue<T> {
    var front: Job?<T>
    var rear: Job?<T>
    var len: nat
    const hasJobs: Bsem
    ghost var jobs: seq<Job<T>>   // the chain, front first

    /** The chain is exactly `jobs`: it has `len` nodes, no node twice, and ends in null. */
    ghost predicate Valid()
      reads this, jobs
    {
      && |jobs| == len
      && (forall i, k :: 0 <= i < k < |jobs| ==> jobs[i] != jobs[k])
      && front == (if len == 0 then null else jobs[0])
      && (len > 0 ==> rear == jobs[len - 1] && jobs[len - 1].prev == null)
      && (forall i :: 0 <= i < |jobs| - 1 ==> jobs[i].prev == jobs[i + 1])
    }

    /** What the queue stands for: the jobs' work in the order it will be handed out. */
    ghost function Contents(): seq<T>
      reads this
    {
      Works(jobs)
    }

    constructor ()
      ensures Valid() && jobs == [] && Contents() == [] && fresh(hasJobs) && hasJobs.v == 0
    {
      front, rear, len, jobs := null, null, 0, [];
      hasJobs := new Bsem(0);
    }

    /** `jobqueue_push` up to, but not including, the post. */
    method Link(newjob: Job<T>)
      requires Valid() && newjob !in jobs
      modifies this, newjob, jobs
      ensures Valid() && jobs == old(jobs) + [newjob]
      ensures Contents() == old(Contents()) + [newjob.work]
    {
      newjob.prev := null;
      if len == 0 {
        front, rear := newjob, newjob;
      } else {
        rear.prev := newjob;
        rear := newjob;
      }
      len := len + 1;
      jobs := jobs + [newjob];
    }

    method Push(newjob: Job<T>)
      requires Valid() && newjob !in jobs
      modifies this, newjob, jobs, hasJobs
      ensures Valid() && jobs == old(jobs) + [newjob]
      ensures Contents() == old(Contents()) + [newjob.work] && hasJobs.v == 1
    {
      Link(newjob);
      hasJobs.Post();
    }

    /** `jobqueue_pull` up to, but not including, the post; `more` says that a post is due. */
    method Unlink() returns (job: Job?<T>, more: bool)
      requires Valid()
      modifies this
      ensures Valid() && more == (|old(jobs)| > 1)
      ensures job == null <==> old(jobs) == []
      ensures jobs == Rest(old(jobs))
      ensures job != null ==> old(jobs) == [job] + jobs && old(Contents()) == [job.work] + Contents()
      ensures job == null ==> Contents() == []
    {
      job := front;
      more := false;
      if len == 0 {
      } else if len == 1 {
        front, rear, len := null, null, 0;
        jobs := [];
        WorksCons(job, jobs);
        assert old(jobs) == [job] + jobs;
      } else {
        front := job.prev;
        len := len - 1;
        jobs := jobs[1..];
        more := true;
        WorksCons(job, jobs);
        assert old(jobs) == [job] + jobs;
      }
    }

    method Pull() returns (job: Job?<T>)
      requires Valid()
      modifies this, hasJobs
      ensures Valid() && jobs == Rest(old(jobs))
      ensures job == null <==> old(Contents()) == []
      ensures job != null ==> old(jobs) == [job] + jobs && old(Contents()) == [job.work] + Contents()
      ensures job == null ==> Contents() == []
      ensures hasJobs.v == if |old(jobs)| > 1 then 1 else old(hasJobs.v)
    {
      var more;
      job, more := Unlink();
      if more { hasJobs.Post(); }
    }

    /** Throws the whole queue away.  `freed` is what it threw away. */
    method Clear() returns (ghost freed: seq<T>)
      requires Valid()
      modifies this, hasJobs
      ensures Valid() && Contents() == [] && hasJobs.v == 0
      ensures front == null && rear == null && len == 0
      ensures freed == old(Contents())
    {
      hide Works;
      ghost var was := Contents();
      freed := [];
      while len != 0
        invariant Valid()
        invariant was == freed + Contents()
        decreases len
      {
        var job := Pull();
        Associate(freed, [job.work], Contents());
        freed := freed + [job.work];
      }
      front := null;
      rear := null;
      hasJobs.Reset();
      len := 0;
    }
  }
}
