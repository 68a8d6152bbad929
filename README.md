# rinha-ws: payment gateway core in Dafny

This project models the sequential core of a redundant payment-intake
gateway. It has two programs.

- The **load balancer** (`lb/main.go`) takes payment submissions and summary
  queries. It alternates each kind between two backend instances.
- Each **backend instance** (`api/main.go`) forwards a payment to a
  *principal* payment processor. When the principal fails on the fourth
  attempt or a later one, it also tries a *fallback* processor. It records each processed payment in an in-memory
  store keyed by timestamp and retries failures through a retry queue
  (`errChannel`). It serves summaries of the store and can add in its peers'
  summaries (federation).

The model has one module per concern:

- `Payments` (payments.dfy): the payment record, the two-sided summary
  (`default` = taken by the principal, `fallback`), and the accumulation step
  shared by every summary loop. Also reference definitions (the payments of one
  side, their amounts) with lemmas tying the accumulation to them.
- `Store` (store.dfy): the store as `map<int, seq<Payment>>`, the bucket filter
  of the range summaries, and the effect of a save. The summary is defined
  over a *set* of bucket keys, and a lemma proves it does not depend on the
  order the buckets are visited in. Go's map iteration order is unspecified.
- `Pipeline` (pipeline.dfy): `send`'s status handling, `SendPayment`'s
  escalation, one pass of a payment through `worker`/`errWorker` as a
  function on values, and lemmas over repeated passes (retries).
- `Federation` (federation.dfy): the peer URL, how a peer's answer is
  classified, and how the peers' summaries are merged.
- `Instance` (instance.dfy): the backend's state as a class. It holds the store
  `data`, the retry queue `errQueue` of `PaymentRef` objects (Go's `*Payment`),
  the processor URLs and the peer list. Its methods are `Save`, the five summary
  functions, `SendPayment`, one iteration of each worker, and
  `handleGetSummary`. Each method is proved against the functions above.
- `Balancer` (balancer.dfy): the load balancer as a class with the two flags
  `post` and `get`, `handlePost`, `handleGet`, and the URL builders. Lemmas
  cover strict alternation and the even split.

External effects become parameters:

- Each processor call gets the `Reply` the network would give: a transport
  error or a status code.
- A peer GET is answered by an oracle `peers: string -> PeerReply`, keyed by
  the requested URL.
- A load-balancer WebSocket write gets a success flag. A proxied GET gets a
  `GetReply`.
- `time.Now()` is a parameter `now`, the formatted timestamp text.
- `time.Parse` is an abstract function `string -> Option<int>`. The instance
  holds two: RFC 3339 for `Save`, and the millisecond layout for the query
  bounds.
- Timestamps are integers (milliseconds) and amounts are integer cents.

Three behaviours of the code that a reader might not expect:

- An unparseable timestamp at save time is not final. The code marks the
  payment `SAVE` and requeues it (api/main.go:421-426, 452-457).
- Which processor took a payment is the boolean `IsDefault`. It is `false`
  before delivery, after a failed delivery and after a fallback delivery.
- Every summary request, internal or not, takes the worker barrier
  (api/main.go:291-292). The barrier is not modelled (see below).

## Model

| member | source | states |
|---|---|---|
| `Pipeline.Send` | api/main.go:356-391 | a send succeeds iff the URL is non-empty, the request goes through and the status is 200 or 422; an empty URL gives the empty-URL error, any other status gives a status error carrying that code |
| `Pipeline.Deliver` | api/main.go:331-354 | the principal is always called first; the fallback is called iff the principal failed and the incremented attempt count exceeds 3; the flag is true iff the principal took the payment; the call succeeds iff the principal succeeded or (attempt > 3 and the fallback succeeded); the error is the principal's for attempts up to 3, else the fallback's wrapped |
| `Instance.Instance.SendPayment` | api/main.go:331-354 | a nil payment is an error with `false` and no calls; otherwise `attempts` grows by exactly one, whatever the outcome, every other field is unchanged, and the results and calls are those of `Deliver` on the new count |
| `Pipeline.Process` | api/main.go:408-426 | one worker pass: `requestedAt` becomes `now`; a `SAVE`-marked payment makes no call and keeps `attempts` and `isDefault`; otherwise `attempts` grows by one and `isDefault` is the delivery flag; a failed delivery requeues the payment unsaved with `err` unchanged; it is stored iff (marked or delivered) and the timestamp parses; a failed save marks it `SAVE` and requeues it; the mark is never cleared |
| `Pipeline.SaveStageIsFinal` | api/main.go:439-457 | over any number of retries, a payment marked `SAVE` calls no processor, keeps `attempts` and `isDefault`, and stays marked |
| `Pipeline.EscalationOverRetries` | api/main.go:339-349 | over any number of passes, each delivery attempt calls the principal exactly once and adds exactly one to `attempts`; every call carries an attempt number above the starting count; the fallback is only ever called on attempts above 3 |
| `Pipeline.FallbackTakesOver` | api/main.go:339-346 | with the principal always failing and the fallback always succeeding, a fresh payment is stored on its fourth attempt, as taken by the fallback (`isDefault` false, last call to the fallback on attempt 4), in the bucket of that pass's timestamp |
| `Pipeline.SaveStep` | api/main.go:421-426 | the save step makes no calls of its own; the payment is stored iff its timestamp parses, unchanged and at that timestamp; otherwise only `err` changes, to `SAVE`, and the payment is requeued |
| `Pipeline.Run` | api/main.go:431-460 | passes of one payment through the retry queue until it is stored never change its `id` or `amount` |
| `Pipeline.RunStamps` | api/main.go:408-426 | a payment that ends up stored is stored at the parsed timestamp of one of its passes; one still queued carries the clock text of its last pass |
| `Pipeline.RetriesAreUnbounded` | api/main.go:441-446 | with both processors failing, a payment is never stored however often it is retried, and `attempts` grows by one per pass |
| `Instance.Instance.Worker` | api/main.go:393-429 | a message that does not decode changes nothing; otherwise the freshly decoded payment (`err` empty, `attempts` 0) goes through `Process`: when requeued, a fresh object holding the result is appended to the retry queue and the store is unchanged; when stored, the store is the old one with the result appended at its timestamp and the queue is unchanged |
| `Instance.Instance.ErrWorker` | api/main.go:431-460 | with an empty queue nothing changes; otherwise the head payment is taken off the queue and updated in place to the result of `Process`; it is put back at the tail when requeued, or appended to the store at its timestamp when stored |
| `Instance.Instance.Save` | api/main.go:93-111 | an unparseable timestamp is an error and the store is unchanged; otherwise the stored copy of the payment is appended to the bucket of its timestamp |
| `Store.Append` | api/main.go:102-110 | after a save the key set gains the timestamp; the bucket there is the old bucket followed by the payment, or the singleton when it was absent; every other bucket is unchanged |
| `Store.SaveSummary` | api/main.go:93-111 | a save adds exactly the saved payment's contribution to the summary of every range that contains its timestamp and leaves every other range's summary unchanged |
| `Store.SaveCount` | api/main.go:93-111 | a save grows the number of stored payments by exactly one |
| `Store.Window` | api/main.go:134 | the included buckets are store keys; a bucket exactly at `from` or at `to` is never included; with no bounds every bucket is included |
| `Instance.Instance.GetSummary` | api/main.go:113-127 | every combination of present and absent bounds yields the summary of the buckets strictly after `from` (when present) and strictly before `to` (when present) |
| `Instance.Instance.GetFromPaymentsSummary` | api/main.go:129-151 | the accumulated summary is the summary of exactly the buckets strictly after `from`, whatever order the map is visited in |
| `Instance.Instance.GetToPaymentsSummary` | api/main.go:153-174 | the accumulated summary is the summary of exactly the buckets strictly before `to`, whatever order the map is visited in |
| `Instance.Instance.GetFromToPaymentsSummary` | api/main.go:176-198 | the accumulated summary is the summary of exactly the buckets strictly between `from` and `to`, whatever order the map is visited in |
| `Instance.Instance.GetAllPaymentsSummary` | api/main.go:200-220 | the accumulated summary is the summary of every bucket, whatever order the map is visited in |
| `Instance.AddBucket` | api/main.go:135-143 | folding one bucket into the accumulators adds that bucket's summary to them |
| `Store.SummaryOverRemove` | api/main.go:133-145 | any bucket can be visited last: the summary of a set of buckets is the summary of the others plus that bucket's |
| `Store.IncludedRemove` | api/main.go:133-145 | the same order independence for the multiset of included payments |
| `Store.SummaryOverFrame` | api/main.go:133-145 | a summary depends only on the buckets it includes |
| `Store.SummaryOverInsert` | api/main.go:133-145 | visiting one more bucket adds its summary |
| `Store.SummaryOverIsBucketSummary` | api/main.go:200-220 | the summary of a set of buckets equals accumulating all of their payments |
| `Store.IncludedMembers` | api/main.go:133-135 | a payment is among the included ones iff it lies in a bucket whose key is included |
| `Store.Aggregation` | api/main.go:129-220 | for every range: `Default.TotalRequests + Fallback.TotalRequests` is the number of payments in the included buckets; `Default` is the count and amount sum of exactly the payments with `isDefault`, `Fallback` of the others; the two amounts add up to the total amount |
| `Payments.BucketSummaryBySide` | api/main.go:135-143 | a bucket's `default` side counts and sums exactly its payments with `isDefault`, the `fallback` side exactly the others |
| `Payments.SidesPartition` | api/main.go:136-142 | the two sides partition a bucket: their counts add up to its length and their amounts to its amount |
| `Payments.BucketTotals` | api/main.go:135-143 | every payment of a bucket is counted once on exactly one side |
| `Payments.BucketSummaryAppend` | api/main.go:135-143 | accumulating a concatenation is adding the two accumulations |
| `Payments.Side` | api/main.go:136 | the payments of one side are exactly the bucket's payments with that `isDefault` value |
| `Federation.PeerUrl` | api/main.go:228-235 | the peer URL always starts with the peer, the summary path and `internal=true`; with neither bound it is exactly that; each non-empty bound adds its `&from=`/`&to=` parameter and nothing else is added |
| `Instance.GetInstanceSummary` | api/main.go:222-260 | an empty instance is an error and requests nothing; otherwise it requests exactly the peer URL and returns what `Fetch` classifies |
| `Federation.Fetch` | api/main.go:222-260 | the empty-instance error occurs iff the instance is empty; the fetch succeeds iff the instance is non-empty, the peer answers 200 and the body decodes, and then it returns the decoded summary |
| `Federation.Contribution` | api/main.go:297-312 | an empty or failing instance contributes nothing; a succeeding one contributes exactly its summary |
| `Federation.PeerSumAppend` | api/main.go:297-312 | the peers of two lists contribute the sum of each list's contribution |
| `Federation.SkippedPeer` | api/main.go:299-306 | dropping an empty or failing peer from the list leaves the federated summary unchanged: a failed peer yields a partial result, not an error |
| `Federation.Reachable` | api/main.go:299-306 | the reachable instances are exactly the configured ones whose fetch succeeds |
| `Federation.OnlyReachablePeersCount` | api/main.go:296-313 | the peers' total is the total over exactly the reachable peers |
| `Federation.PeerSum` | api/main.go:297-312 | the peer loop: a single peer contributes exactly what `Contribution` gives it |
| `Federation.Merge` | api/main.go:296-313 | an internal request answers exactly the local summary; otherwise the local summary plus the summaries of exactly the reachable peers, so with no reachable peer it is the local summary |
| `Instance.Instance.Federate` | api/main.go:296-313 | the peer loop adds to the local summary exactly the in-order sum of every configured instance's contribution, skipping empty and failing instances |
| `Instance.Instance.HandleGetSummary` | api/main.go:262-313 | a non-empty bound that does not parse is a bad request; otherwise the answer is the local range summary when `internal` is non-empty, or the local summary plus the contribution of every configured peer |
| `Instance.PaymentRef.Decode` | api/main.go:402-406 | a freshly decoded payment has empty `err`, zero `attempts` and `isDefault` false |
| `Instance.Instance.constructor` | api/main.go:18-38 | a new instance has an empty store and an empty retry queue |
| `Balancer.WsUrl` | lb/main.go:90-92 | `ws://` followed by exactly the host, then `/ws` |
| `Balancer.HttpUrl` | lb/main.go:94-96 | `http://` followed by exactly the host |
| `Balancer.Routes` | lb/main.go:29-35 | `n` consecutive requests choose exactly `n` backends |
| `Balancer.Submissions` | lb/main.go:25-50 | a run of `handlePost` calls writes to exactly the backends `Routes` gives from the flag before the run, whatever the writes do; the flag ends where the parity of the run length says |
| `Balancer.RoutesAlternate` | lb/main.go:29-35 | the i-th of consecutive submissions goes where the starting flag points for even i and to the other backend for odd i |
| `Balancer.StrictAlternation` | lb/main.go:29-35 | two consecutive submissions never go to the same backend |
| `Balancer.EvenSplit` | lb/main.go:29-35 | any 2k consecutive submissions send exactly k to each backend, from any starting flag |
| `Balancer.LoadBalancer.constructor` | lb/main.go:14-23 | both flags start `false`, so the first submission and the first query go to API2; the HTTP bases are the URL builder's output for the two hosts |
| `Balancer.LoadBalancer.HandlePost` | lb/main.go:25-50 | the write goes to the backend the old `post` selects, and only to that one, even when it fails; `post` is negated either way; the status is 200 on a successful write and 500 otherwise; only `post` may change |
| `Balancer.LoadBalancer.HandleGet` | lb/main.go:52-88 | the target is the base the old `get` selects plus `/payments-summary`, plus `?` and the query iff the query is non-empty; `get` is negated; the backend's status and body are relayed unchanged; a transport error is 502 and an unreadable body 500; only `get` may change |
| `Balancer.GetsDoNotSteerPosts` | lb/main.go:29-33 | a submission, then any run of queries with any replies, then a submission: whatever the writes do, the first goes where the old `post` points, the second to the other backend, and `post` ends as it was |

## Left out

- Concurrency is not modelled. That covers the store lock `mu`, the worker
  barrier (`workerMutex`, `errWorkerMutex`, `mutualLock`/`mutualUnlock`), and
  the load balancer's `muPost`, `muGet`, `muWs1` and `muWs2`. All calls are
  sequential. The missing `Unlock` after a failed WebSocket write
  (lb/main.go:37-39, 43-45) leaks a lock. That is a concurrency defect outside
  this model.
- Floating point is not modelled. Amounts are integer cents, and
  `roundFloat64` (api/main.go:326-329) is left out. The model states no
  rounding results.
- `time.Parse` and `time.Now` are abstract (see above). The model does not
  show that the worker's timestamp text always parses as RFC 3339.
- JSON encoding and decoding are abstract. A WebSocket message either decodes
  to a `Submission` or is `Garbled`. `json.Marshal` in `send` cannot fail for
  this struct and is not modelled. A failure to build the request counts as a
  transport failure. The encode-error path at the end of `handleGetSummary`
  (api/main.go:318-323) is left out.
- The admission queue `paymentChannel`, channel capacities and blocking, the
  `handleWebSocket` read loop, both `main` functions' environment handling,
  the WebSocket dialing, and logging are left out.
  `Instance.Instance.Worker` takes the message it received as a parameter.
- Go `int` is 64-bit. The model's `attempts` and counters are unbounded
  integers, and overflow is not modelled.
- Instance.Instance.ErrWorker: when the retry queue is empty, Go blocks on the
  channel, while the model returns `idle` and changes nothing.
- Federation.Fetch: the network oracle is keyed by URL, so two configured
  peers with the same URL get the same answer.
- Balancer.LoadBalancer.HandlePost: does not model the error text of the 500
  response or the message body written to the socket.
- Balancer.LoadBalancer.HandleGet: does not model the error text of the 502
  and 500 responses.
- Pipeline.Deliver: does not model the text of the returned errors, only
  their kind and cause.
