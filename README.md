# Job queue model

A Dafny model of the in-memory job queue of a small Go web service. Callers
submit named jobs, each carrying a list of integers. The jobs wait in a
*pending* collection. A background worker processes one job per tick: it
takes the oldest pending job, sets its result to the sum of its data, marks
it processed and appends it to the *processed* collection. Callers can list
pending jobs, processed jobs, or both, with processed jobs first.

- `job_data.dfy`, module `JobData`, models `internal/apis/job_data.go`.
  `JobQueueManager` is a class whose `pending` and `processed` sequences
  are reassigned in place by `PushJobTask` and `ProcessJobQueue`, as the Go
  slices are. The summing loop stays a loop. A ghost field `submitted`
  records every job as it was pushed. `Valid()` states the history invariant
  `Consistent`: the oldest `|processed|` submissions are completed in order,
  and the rest are still pending in order. The same operations on plain
  values (`Pushed`, `Ticked`) mirror the two methods. `TickN` is n ticks in a
  row, used by the draining lemmas. The lemmas about these functions give
  count conservation, FIFO order, the per-record invariant and draining.
- `api_routes.dfy`, module `ApiRoutes`, models `internal/apis/api_routes.go`
  without the web framework. `JobsPOST` takes the Authorization header and
  the already-decoded body (a batch or a decode failure). `JobsGET` takes
  the path parameter, which is the empty string on `/jobs`. Each returns a
  status code and a payload. Two client methods replay the repository's
  handler tests.

Job ids are not unique: an id is the pending length plus one at push time, so
after a tick a new push can reuse an id (`IdReusedAfterTick`). The model
proves no uniqueness. In the code, a listing of one status returns the live
slice, not a copy. Here every listing is a value. A malformed body gets the
JSON `null` that the handler writes, modelled as `Null`.

## Model

| member | source | states |
|---|---|---|
| `JobData.JobQueueManager.constructor` | internal/apis/job_data.go:39-49 | a new manager, initialized, has empty pending and processed collections |
| `JobData.JobQueueManager.Initialize` | internal/apis/job_data.go:46-49 | after Initialize both collections (and the history) are empty and the invariant holds |
| `JobData.JobQueueManager.PushJobTask` | internal/apis/job_data.go:117-134 | pending becomes pending + [record with id (pending length)+1, the given name and data, status "pending", result 0]; processed is unchanged; the history invariant is kept |
| `JobData.JobQueueManager.ProcessJobQueue` | internal/apis/job_data.go:90-115 | on non-empty pending: pending loses its head, and processed gains that head with status "processed" and result = sum of its data (id, name, data unchanged); on empty pending nothing changes; the invariant is kept |
| `JobData.Pushed` | internal/apis/job_data.go:121-131 | a push grows the total number of records (pending plus processed) by exactly one |
| `JobData.Ticked` | internal/apis/job_data.go:93-111 | a tick preserves the total count, and the old processed collection is a prefix of the new one (processed is append-only) |
| `JobData.SumAppend` | internal/apis/job_data.go:103-106 | the sum of a concatenation is the sum of the parts, which justifies the left-to-right summing loop |
| `JobData.PushedKeepsConsistent` | internal/apis/job_data.go:117-134 | a push keeps the history invariant, with the new record appended to the history |
| `JobData.TickedKeepsConsistent` | internal/apis/job_data.go:93-111 | a tick keeps the history invariant: the submission that leaves pending is the next one processed (FIFO) |
| `JobData.ConsistentIsWellFormed` | internal/apis/job_data.go:103-128 | every pending record has status "pending" and result 0; every processed record has status "processed" and result equal to the sum of its data |
| `JobData.ProcessedThenPendingIsSubmissionOrder` | internal/apis/job_data.go:95-98 | processed followed by pending is the submission sequence, each record differing from its submitted form only in status and result |
| `JobData.DrainAll` | internal/apis/job_data.go:90-115 | as many ticks as there are pending jobs empty pending, and then processed holds every submission completed, in submission order |
| `JobData.IdReusedAfterTick` | internal/apis/job_data.go:121 | push, tick, push on an empty queue gives the processed job and the new pending job the same id 1, so ids are not unique |
| `JobData.JobQueueManager.ListJobs` | internal/apis/job_data.go:136-150 | "pending" gives pending, "processed" gives processed, any other string (the empty string included) gives processed followed by pending |
| `JobData.ListJobsSelectsByStatus` | internal/apis/job_data.go:136-150 | under the invariant, listing "pending" (or "processed") equals the records of the full listing (any other string) that have that status, in order; the full listing is processed followed by pending |
| `ApiRoutes.PushAll` | internal/apis/api_routes.go:52-54 | pushing a batch leaves processed unchanged and grows pending by the batch length |
| `ApiRoutes.PushAllAppendsInOrder` | internal/apis/api_routes.go:52-54 | a batch lands at the tail of pending in the given order; its k-th item gets id (pending length)+k+1, status "pending" and result 0 |
| `ApiRoutes.PushAllKeepsConsistent` | internal/apis/api_routes.go:52-54 | pushing a batch keeps the history invariant, with the batch's records appended to the history |
| `ApiRoutes.SubmitThenDrain` | internal/apis/job_data.go:90-134 | N submissions onto an empty queue followed by N ticks: pending is empty and processed[k] is item k with id k+1, status "processed" and result the sum of its data |
| `ApiRoutes.JobsPOST` | internal/apis/api_routes.go:34-57 | a header other than exactly "allow" gives 401 with the unauthorized error payload and no change; a decode failure gives 500 with null and no change; otherwise the items are pushed one by one in order and the response is 201 with an empty object |
| `ApiRoutes.JobsGET` | internal/apis/api_routes.go:16-22 | status 200 with exactly the manager's listing for the path parameter |
| `ApiRoutes.PushThreeThenTick` | internal/apis/api_routes_test.go:41-126 | after submitting three jobs, listing all gives ids 1, 2, 3 all pending with result 0; after one tick pending is jobs 2 and 3, processed is job 1 with result 6, and all is job 1 then jobs 2 and 3 |
| `ApiRoutes.PushWithoutAuthorization` | internal/apis/api_routes_test.go:19-33 | a submission without the Authorization header gets 401 with error "Unauthorized to access this resource" and status 401, and the queue stays empty |

## Left out

- `StartWorker`, `StopWorker` and `startBackgroundWorker` (goroutine, context cancellation, `WaitGroup`, timer, the `flagStop` flag): concurrency and timing. A tick is an explicit call to `ProcessJobQueue`.
- The `sync.RWMutex` and the unlocked reads in `ListJobs`: they only serialise the operations, or race. Every modelled operation is sequential.
- `JobsPOST`: the model pushes a whole batch with no tick or other push in between. In the code each `PushJobTask` takes the lock on its own, so a worker tick or a concurrent POST can land between two items of one batch. The batch's records are then not contiguous in pending, and their ids are not the consecutive pending length + k + 1 that `PushAllAppendsInOrder` proves.
- Go slice aliasing: `append` onto the processed slice in `ListJobs`, and listings that return the live slice. Every listing here is a fresh value.
- Integer overflow of the Go `int` sum: `Sum` uses mathematical integers.
- The `sync.Once` singleton `InitializeJobQueueManager` and the global `JobQueueManagerShared`: the handlers take the manager as a parameter.
- The global `InvalidRequest` variable that the handler overwrites before answering: the model builds the same payload as a value.
- Echo routing, request binding and JSON serialisation: decoding is an input (`Decoded` or `DecodeError`), and a response is a code plus a payload value.
- The bind error's log line, the zap logger configuration, settings loading (the tick interval), and process lifecycle and signal handling in `cmd/cmd_app.go`: logging, I/O and timing.
