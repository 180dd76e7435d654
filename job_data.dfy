/** The in-memory job queue of internal/apis/job_data.go: job records, the
    queue manager that owns the pending and processed collections, and the
    three sequential operations on them (push, one processing tick, listing).
    The background worker, the lock and the singleton are not modelled: a tick
    is an explicit call to ProcessJobQueue. */
module JobData {

  const StatusPending: string := "pending"
  const StatusProcessed: string := "processed"

  /** One unit of work and its outcome (JobModel). */
  datatype Job = Job(id: int, name: string, data: seq<int>, status: string, result: int)

  /** The manager's two ordered collections, as a value. */
  datatype Queue = Queue(pending: seq<Job>, processed: seq<Job>)

  /** The state right after Initialize: both collections empty. */
  function EmptyQueue(): Queue {
    Queue([], [])
  }

  /** The arithmetic sum of a job's data (mathematical integers). */
  function Sum(data: seq<int>): int {
    if |data| == 0 then 0 else data[0] + Sum(data[1..])
  }

  lemma {:induction false} SumAppend(a: seq<int>, b: seq<int>)
    ensures Sum(a + b) == Sum(a) + Sum(b)
  {
    if |a| == 0 {
      assert a + b == b;
    } else {
      assert (a + b)[1..] == a[1..] + b;
      SumAppend(a[1..], b);
    }
  }

  /** The record a push creates: status pending, result left at zero. */
  function NewJob(id: int, name: string, data: seq<int>): Job {
    Job(id, name, data, StatusPending, 0)
  }

  /** The record a tick makes of a pending one. */
  function Complete(j: Job): Job {
    j.(status := StatusProcessed, result := Sum(j.data))
  }

  /** The form in which a record was submitted, whatever has happened to it since. */
  function AsSubmitted(j: Job): Job {
    j.(status := StatusPending, result := 0)
  }

  predicate IsPendingRecord(j: Job) {
    j.status == StatusPending && j.result == 0
  }

  predicate IsProcessedRecord(j: Job) {
    j.status == StatusProcessed && j.result == Sum(j.data)
  }

  /** Every pending record is untouched and every processed one carries its sum. */
  ghost predicate WellFormed(q: Queue) {
    && (forall j :: 0 <= j < |q.pending| ==> IsPendingRecord(q.pending[j]))
    && (forall i :: 0 <= i < |q.processed| ==> IsProcessedRecord(q.processed[i]))
  }

  /** q is what the submissions s, in submission order, have become: the
      oldest |processed| of them are completed, in order, and the rest are
      still pending, in order. */
  ghost predicate Consistent(q: Queue, s: seq<Job>) {
    && |q.processed| + |q.pending| == |s|
    && (forall k :: 0 <= k < |s| ==> IsPendingRecord(s[k]))
    && (forall i :: 0 <= i < |q.processed| ==> q.processed[i] == Complete(s[i]))
    && (forall j :: 0 <= j < |q.pending| ==> q.pending[j] == s[|q.processed| + j])
  }

  /** PushJobTask on a value: the new record's id is the pending length plus one. */
  function Pushed(q: Queue, name: string, data: seq<int>): (r: Queue)
    ensures |r.pending| + |r.processed| == |q.pending| + |q.processed| + 1
  {
    Queue(q.pending + [NewJob(|q.pending| + 1, name, data)], q.processed)
  }

  /** processJobQueue on a value: move the oldest pending record, completed,
      to the end of processed; nothing happens on an empty queue. */
  function Ticked(q: Queue): (r: Queue)
    ensures |r.pending| + |r.processed| == |q.pending| + |q.processed|
    ensures q.processed <= r.processed
  {
    if |q.pending| > 0 then Queue(q.pending[1..], q.processed + [Complete(q.pending[0])])
    else q
  }

  /** n ticks in a row. */
  function TickN(q: Queue, n: nat): Queue
    decreases n
  {
    if n == 0 then q else TickN(Ticked(q), n - 1)
  }

  lemma PushedKeepsConsistent(q: Queue, s: seq<Job>, name: string, data: seq<int>)
    requires Consistent(q, s)
    ensures Consistent(Pushed(q, name, data), s + [NewJob(|q.pending| + 1, name, data)])
  {
  }

  lemma TickedKeepsConsistent(q: Queue, s: seq<Job>)
    requires Consistent(q, s)
    ensures Consistent(Ticked(q), s)
  {
  }

  /** The per-record invariant follows from the history invariant. */
  lemma ConsistentIsWellFormed(q: Queue, s: seq<Job>)
    requires Consistent(q, s)
    ensures WellFormed(q)
  {
  }

  /** FIFO: processed followed by pending is the submission sequence, each
      record differing from its submitted form only in status and result. */
  lemma ProcessedThenPendingIsSubmissionOrder(q: Queue, s: seq<Job>)
    requires Consistent(q, s)
    ensures |q.processed + q.pending| == |s|
    ensures forall k :: 0 <= k < |s| ==> AsSubmitted((q.processed + q.pending)[k]) == s[k]
  {
  }

  /** Ticking as many times as there are pending records drains the queue:
      every submission ends up processed, in submission order, with its sum. */
  lemma {:induction false} DrainAll(q: Queue, s: seq<Job>)
    requires Consistent(q, s)
    ensures TickN(q, |q.pending|).pending == []
    ensures |TickN(q, |q.pending|).processed| == |s|
    ensures forall i :: 0 <= i < |s| ==> TickN(q, |q.pending|).processed[i] == Complete(s[i])
    decreases |q.pending|
  {
    if |q.pending| > 0 {
      TickedKeepsConsistent(q, s);
      DrainAll(Ticked(q), s);
    }
  }

  /** Ids come from the pending length, so they are not unique: after one
      push and one tick, the next push reuses id 1. */
  lemma IdReusedAfterTick(a: string, x: seq<int>, b: string, y: seq<int>)
    ensures var q := Pushed(Ticked(Pushed(EmptyQueue(), a, x)), b, y);
      q.processed[0].id == 1 && q.pending[0].id == 1
  {
  }

  /** All records with the given status, in order. */
  function WithStatus(jobs: seq<Job>, status: string): (r: seq<Job>)
    ensures forall j :: 0 <= j < |r| ==> r[j].status == status
    ensures multiset(r) <= multiset(jobs)
  {
    if |jobs| == 0 then []
    else
      assert jobs == [jobs[0]] + jobs[1..];
      if jobs[0].status == status then [jobs[0]] + WithStatus(jobs[1..], status)
      else WithStatus(jobs[1..], status)
  }

  lemma {:induction false} WithStatusAppend(a: seq<Job>, b: seq<Job>, status: string)
    ensures WithStatus(a + b, status) == WithStatus(a, status) + WithStatus(b, status)
  {
    if |a| > 0 {
      assert (a + b)[1..] == a[1..] + b;
      WithStatusAppend(a[1..], b, status);
    } else {
      assert a + b == b;
    }
  }

  lemma {:induction false} WithStatusAll(jobs: seq<Job>, status: string)
    requires forall j :: 0 <= j < |jobs| ==> jobs[j].status == status
    ensures WithStatus(jobs, status) == jobs
  {
    if |jobs| > 0 {
      WithStatusAll(jobs[1..], status);
    }
  }

  lemma {:induction false} WithStatusNone(jobs: seq<Job>, status: string)
    requires forall j :: 0 <= j < |jobs| ==> jobs[j].status != status
    ensures WithStatus(jobs, status) == []
  {
    if |jobs| > 0 {
      WithStatusNone(jobs[1..], status);
    }
  }

  /** JobQueueManager: the two collections, updated in place. The ghost
      history `submitted` holds every record as it was pushed. */
  class JobQueueManager {
    var pending: seq<Job>
    var processed: seq<Job>
    ghost var submitted: seq<Job>

    ghost predicate Valid()
      reads this
    {
      Consistent(State(), submitted)
    }

    function State(): Queue
      reads this
    {
      Queue(pending, processed)
    }

    /** new(JobQueueManager) followed by Initialize. */
    constructor ()
      ensures Valid()
      ensures pending == [] && processed == [] && submitted == []
    {
      new;
      Initialize();
    }

    method Initialize()
      modifies this
      ensures Valid()
      ensures pending == [] && processed == [] && submitted == []
    {
      pending := [];
      processed := [];
      submitted := [];
    }

    /** Appends a pending record whose id is the current pending length plus one. */
    method PushJobTask(name: string, data: seq<int>)
      requires Valid()
      modifies this
      ensures Valid()
      ensures pending == old(pending) + [NewJob(|old(pending)| + 1, name, data)]
      ensures processed == old(processed)
      ensures submitted == old(submitted) + [NewJob(|old(pending)| + 1, name, data)]
    {
      var newId := |pending| + 1;
      var job := Job(newId, name, data, StatusPending, 0);
      PushedKeepsConsistent(State(), submitted, name, data);
      pending := pending + [job];
      submitted := submitted + [job];
    }

    /** One tick: pops the head of pending, sums its data, marks it processed
        and appends it to processed; a no-op on an empty queue. */
    method ProcessJobQueue()
      requires Valid()
      modifies this
      ensures Valid()
      ensures submitted == old(submitted)
      ensures |old(pending)| == 0 ==> pending == old(pending) && processed == old(processed)
      ensures |old(pending)| > 0 ==>
        && pending == old(pending)[1..]
        && processed == old(processed) + [Complete(old(pending)[0])]
    {
      TickedKeepsConsistent(State(), submitted);
      if |pending| > 0 {
        var currentJob := pending[0];
        pending := pending[1..];
        var sumData := 0;
        for i := 0 to |currentJob.data|
          modifies {}
          invariant sumData == Sum(currentJob.data[..i])
        {
          SumAppend(currentJob.data[..i], [currentJob.data[i]]);
          assert currentJob.data[..i + 1] == currentJob.data[..i] + [currentJob.data[i]];
          sumData := sumData + currentJob.data[i];
        }
        assert currentJob.data[..|currentJob.data|] == currentJob.data;
        currentJob := currentJob.(result := sumData, status := StatusProcessed);
        processed := processed + [currentJob];
      }
    }

    /** "pending" selects pending, "processed" selects processed, and any
        other string selects processed followed by pending. */
    function ListJobs(status: string): (r: seq<Job>)
      reads this
      ensures status == StatusPending ==> r == pending
      ensures status == StatusProcessed ==> r == processed
      ensures status != StatusPending && status != StatusProcessed ==> r == processed + pending
    {
      if status == StatusPending then pending
      else if status == StatusProcessed then processed
      else processed + pending
    }
  }

  /** Listing one status is the same as filtering the full listing by it. */
  lemma ListJobsSelectsByStatus(m: JobQueueManager, status: string, other: string)
    requires m.Valid()
    requires status == StatusPending || status == StatusProcessed
    requires other != StatusPending && other != StatusProcessed
    ensures m.ListJobs(status) == WithStatus(m.ListJobs(other), status)
  {
    ConsistentIsWellFormed(m.State(), m.submitted);
    WithStatusAppend(m.processed, m.pending, status);
    if status == StatusPending {
      WithStatusNone(m.processed, status);
      WithStatusAll(m.pending, status);
    } else {
      WithStatusAll(m.processed, status);
      WithStatusNone(m.pending, status);
    }
  }
}
