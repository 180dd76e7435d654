/** The job routes of internal/apis/api_routes.go, without the web framework:
    the authorization gate and push loop of a batch submission, and the
    listing route's delegation to the queue manager. A request's JSON body
    arrives already decoded, or as a decoding failure; a response is its
    status code and the payload that would be serialised. */
module ApiRoutes {
  import opened JobData

  /** The only Authorization header value that is let through. */
  const AcceptedAuthorization: string := "allow"
  const UnauthorizedMessage: string := "Unauthorized to access this resource"

  const StatusOK: int := 200
  const StatusCreated: int := 201
  const StatusUnauthorized: int := 401
  const StatusInternalServerError: int := 500

  /** One element of a submitted batch (NewJobFormModel). */
  datatype NewJobForm = NewJobForm(name: string, data: seq<int>)

  /** What binding the request body produced. */
  datatype Decoded = Decoded(items: seq<NewJobForm>) | DecodeError

  /** The payload of a response: a job list, the unauthorized error object,
      an empty object, or JSON null. */
  datatype Payload = JobList(jobs: seq<Job>) | ErrorPayload(error: string, status: int) | EmptyObject | Null

  datatype Response = Response(code: int, payload: Payload)

  /** Pushing a batch one item at a time, in the order given. */
  function PushAll(q: Queue, items: seq<NewJobForm>): (r: Queue)
    ensures r.processed == q.processed
    ensures |r.pending| == |q.pending| + |items|
    decreases |items|
  {
    if |items| == 0 then q
    else PushAll(Pushed(q, items[0].name, items[0].data), items[1..])
  }

  /** The records a batch becomes when pushed onto `base` pending records. */
  function Submissions(base: int, items: seq<NewJobForm>): (r: seq<Job>)
    ensures |r| == |items|
    decreases |items|
  {
    if |items| == 0 then []
    else [NewJob(base + 1, items[0].name, items[0].data)] + Submissions(base + 1, items[1..])
  }

  lemma {:induction false} SubmissionsAt(base: int, items: seq<NewJobForm>, k: int)
    requires 0 <= k < |items|
    ensures Submissions(base, items)[k] == NewJob(base + k + 1, items[k].name, items[k].data)
    decreases |items|
  {
    if k > 0 {
      SubmissionsAt(base + 1, items[1..], k - 1);
    }
  }

  lemma {:induction false} PushAllSnoc(q: Queue, items: seq<NewJobForm>, x: NewJobForm)
    ensures PushAll(q, items + [x]) == Pushed(PushAll(q, items), x.name, x.data)
    decreases |items|
  {
    if |items| > 0 {
      assert (items + [x])[1..] == items[1..] + [x];
      PushAllSnoc(Pushed(q, items[0].name, items[0].data), items[1..], x);
    }
  }

  /** A batch lands at the tail of pending, in order, its k-th item with id
      |pending| + k + 1, status pending and result zero. */
  lemma {:induction false} PushAllAppendsInOrder(q: Queue, items: seq<NewJobForm>)
    ensures PushAll(q, items).pending == q.pending + Submissions(|q.pending|, items)
    decreases |items|
  {
    if |items| > 0 {
      var q1 := Pushed(q, items[0].name, items[0].data);
      PushAllAppendsInOrder(q1, items[1..]);
      assert q1.pending == q.pending + [NewJob(|q.pending| + 1, items[0].name, items[0].data)];
    }
  }

  /** Pushing a batch keeps the history invariant, with the batch's records
      appended to the history. */
  lemma {:induction false} PushAllKeepsConsistent(q: Queue, s: seq<Job>, items: seq<NewJobForm>)
    requires Consistent(q, s)
    ensures Consistent(PushAll(q, items), s + Submissions(|q.pending|, items))
    decreases |items|
  {
    if |items| == 0 {
      assert s + Submissions(|q.pending|, items) == s;
    } else {
      var x := NewJob(|q.pending| + 1, items[0].name, items[0].data);
      var q1 := Pushed(q, items[0].name, items[0].data);
      PushedKeepsConsistent(q, s, items[0].name, items[0].data);
      PushAllKeepsConsistent(q1, s + [x], items[1..]);
      var rest := Submissions(|q1.pending|, items[1..]);
      assert Submissions(|q.pending|, items) == [x] + rest;
      assert s + [x] + rest == s + ([x] + rest);
    }
  }

  /** A batch of N items pushed onto an empty queue, followed by N ticks:
      every item is processed, in submission order, with id k + 1 and its sum. */
  lemma SubmitThenDrain(items: seq<NewJobForm>)
    ensures var r := TickN(PushAll(EmptyQueue(), items), |items|);
      && r.pending == []
      && |r.processed| == |items|
      && forall k :: 0 <= k < |items| ==>
           r.processed[k] == Job(k + 1, items[k].name, items[k].data, StatusProcessed, Sum(items[k].data))
  {
    var q := PushAll(EmptyQueue(), items);
    var s := Submissions(0, items);
    PushAllKeepsConsistent(EmptyQueue(), [], items);
    assert [] + s == s;
    DrainAll(q, s);
    forall k | 0 <= k < |items|
      ensures TickN(q, |items|).processed[k] == Job(k + 1, items[k].name, items[k].data, StatusProcessed, Sum(items[k].data))
    {
      SubmissionsAt(0, items, k);
    }
  }

  /** POST /jobs: anything but the exact header "allow" is refused with 401
      and the unauthorized payload; a body that fails to decode gets 500 and
      null; otherwise every item is pushed in order and the answer is 201. */
  method JobsPOST(manager: JobQueueManager, authorization: string, body: Decoded) returns (resp: Response)
    requires manager.Valid()
    modifies manager
    ensures manager.Valid()
    ensures authorization != AcceptedAuthorization ==>
      && resp == Response(StatusUnauthorized, ErrorPayload(UnauthorizedMessage, StatusUnauthorized))
      && manager.State() == old(manager.State())
    ensures authorization == AcceptedAuthorization && body.DecodeError? ==>
      && resp == Response(StatusInternalServerError, Null)
      && manager.State() == old(manager.State())
    ensures authorization == AcceptedAuthorization && body.Decoded? ==>
      && resp == Response(StatusCreated, EmptyObject)
      && manager.State() == PushAll(old(manager.State()), body.items)
  {
    if authorization != AcceptedAuthorization {
      resp := Response(StatusUnauthorized, ErrorPayload(UnauthorizedMessage, StatusUnauthorized));
      return;
    }
    if body.DecodeError? {
      resp := Response(StatusInternalServerError, Null);
      return;
    }
    var items := body.items;
    for i := 0 to |items|
      invariant manager.Valid()
      invariant manager.State() == PushAll(old(manager.State()), items[..i])
    {
      PushAllSnoc(old(manager.State()), items[..i], items[i]);
      assert items[..i + 1] == items[..i] + [items[i]];
      manager.PushJobTask(items[i].name, items[i].data);
    }
    assert items[..|items|] == items;
    resp := Response(StatusCreated, EmptyObject);
  }

  /** GET /jobs and GET /jobs/{status}: status 200 and the manager's listing
      for the path parameter, which is the empty string on /jobs. */
  method JobsGET(manager: JobQueueManager, statusParam: string) returns (resp: Response)
    ensures resp.code == StatusOK
    ensures resp.payload == JobList(manager.ListJobs(statusParam))
  {
    var itemsJob := manager.ListJobs(statusParam);
    resp := Response(StatusOK, JobList(itemsJob));
  }

  /** The three-job submission followed by one tick, as the routes report it. */
  method PushThreeThenTick() returns (before: Response, pendingAfter: Response, processedAfter: Response, allAfter: Response)
    ensures before == Response(StatusOK, JobList([
      Job(1, "1st job", [1, 2, 3], StatusPending, 0),
      Job(2, "2nd job", [10, 20, 30], StatusPending, 0),
      Job(3, "3rd job", [100, 200, 300], StatusPending, 0)]))
    ensures pendingAfter == Response(StatusOK, JobList([
      Job(2, "2nd job", [10, 20, 30], StatusPending, 0),
      Job(3, "3rd job", [100, 200, 300], StatusPending, 0)]))
    ensures processedAfter == Response(StatusOK, JobList([
      Job(1, "1st job", [1, 2, 3], StatusProcessed, 6)]))
    ensures allAfter == Response(StatusOK, JobList([
      Job(1, "1st job", [1, 2, 3], StatusProcessed, 6),
      Job(2, "2nd job", [10, 20, 30], StatusPending, 0),
      Job(3, "3rd job", [100, 200, 300], StatusPending, 0)]))
  {
    var manager := new JobQueueManager();
    var batch := [
      NewJobForm("1st job", [1, 2, 3]),
      NewJobForm("2nd job", [10, 20, 30]),
      NewJobForm("3rd job", [100, 200, 300])];
    var posted := JobsPOST(manager, AcceptedAuthorization, Decoded(batch));
    PushAllAppendsInOrder(EmptyQueue(), batch);
    SubmissionsAt(0, batch, 0);
    SubmissionsAt(0, batch, 1);
    SubmissionsAt(0, batch, 2);
    before := JobsGET(manager, "");
    manager.ProcessJobQueue();
    assert Sum([1, 2, 3]) == 6;
    pendingAfter := JobsGET(manager, StatusPending);
    processedAfter := JobsGET(manager, StatusProcessed);
    allAfter := JobsGET(manager, "");
  }

  /** A submission without an Authorization header is refused and leaves
      the queue empty. */
  method PushWithoutAuthorization() returns (posted: Response, listed: Response)
    ensures posted == Response(401, ErrorPayload("Unauthorized to access this resource", 401))
    ensures listed == Response(StatusOK, JobList([]))
  {
    var manager := new JobQueueManager();
    posted := JobsPOST(manager, "", Decoded([NewJobForm("1st job", [1, 2, 3])]));
    listed := JobsGET(manager, "");
  }
}
