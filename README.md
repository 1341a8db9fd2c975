# Deribit authenticated WebSocket client — Dafny model

This project models the deterministic core of `dbt-ws-authenticated-example.py`, an
asyncio client for Deribit's JSON-RPC-over-WebSocket API. The client authenticates, keeps the
session alive with heartbeats and token refreshes, and runs a stress workload of
order-book subscribe/unsubscribe requests, optionally paced by a FIFO `TaskScheduler`.

Modules, following the source's components:

- `Ids` (`ids.dfy`) covers the `ReqID` constants, the two wrapping counters `sub_id`/`unsub_id`,
  the band classifier of reply identifiers, and the lemmas about bands and round trips.
- `Messages` (`messages.dfy`) covers decoded inbound messages, with optional `id`, `method` and the
  reply keys the client reads. It also holds the outbound requests, the reader loop's classification
  and the heartbeat answer.
- `Session` (`session.dfy`) covers the refresh-deadline arithmetic, the
  "authenticated"/"refreshed" choice, the refresh monitor's decision, the timing of its
  150-second checks, and the key-by-key update of an authentication reply.
- `Workload` (`workload.dfy`) covers the operations `stress_test_subscribe` queues (`StressOps`)
  and the requests a queue of operations sends when it runs (`RunOps`), with their lemmas.
- `Scheduler` (`scheduler.dfy`) holds the `TaskScheduler` class, reduced to its queue.
- `Client` (`client.dfy`) holds the `Feeder` class. Its fields are the session fields, the
  counters, the owned scheduler, a log `sent` of the requests handed to the transport, and a
  log `detached` of tasks handed to the event loop when there is no scheduler. Its methods
  mirror the client's methods.

Time is integer seconds, passed as a `now` parameter. Identifiers are unbounded integers;
the counters never leave [0, 500), so no machine width is involved.

In these places the model follows what the code does:

- `stress_test_subscribe` runs on every authentication reply, refreshes included, and it runs
  before the reply's keys are read.
- The refresh request and the heartbeat acknowledgment are sent directly, not through the scheduler.
- The constructor rejects only a zero iteration count. A negative count is accepted and
  produces no iterations (`Client.CheckConfig`, `Workload.StressOps`).
- An authentication reply missing a key stops the reader loop with a `KeyError`. When that
  happens, the refresh token may already be overwritten while the deadline is not
  (`Session.ApplyAuthReply`).

## Model

| member | source | states |
|---|---|---|
| `Ids.Advance` | dbt-ws-authenticated-example.py:245-247 | a counter increment stays below 500 and, from a valid counter, equals (c + 1) mod 500 |
| `Ids.Allocate` | dbt-ws-authenticated-example.py:243-252 | the id issued is band base + counter of that kind; that counter advances modulo 500, the other is unchanged; from valid counters the id lies in [base, base + 500) |
| `Ids.ClassifyId` | dbt-ws-authenticated-example.py:120-154 | the reader loop's `if/elif` chain gives the auth class exactly to id 20, the heartbeat class exactly to ids 10 and 11, and the subscription (unsubscription) class exactly to [1000, 1500) ([2000, 2500)) |
| `Ids.ReplyBandsDisjoint` | dbt-ws-authenticated-example.py:25-31 | the control ids 10, 11, 20 and the bands [1000, 1500) and [2000, 2500) are pairwise disjoint |
| `Ids.ClassifyIdMatchesBands` | dbt-ws-authenticated-example.py:120-154 | the `if/elif` chain gives every id the class of the band that contains it, and "unknown" exactly to ids outside every band, so each id gets exactly one class whatever the branch order |
| `Ids.IssuedIdRoundTrip` | dbt-ws-authenticated-example.py:149-152 | an id issued by a subscribe (unsubscribe) allocation classifies as a subscription (unsubscription) reply |
| `Messages.Classify` | dbt-ws-authenticated-example.py:120-162 | a message carrying an `id` is a reply classified by that id whatever its method; an id-less one is a heartbeat push exactly for method "heartbeat" and a subscription push exactly for "subscription" |
| `Messages.ImmediateAnswer` | dbt-ws-authenticated-example.py:156-162 | a message is answered directly by at most one request, and by one exactly when it has no `id` and method "heartbeat" |
| `Messages.HeartbeatPushAnswered` | dbt-ws-authenticated-example.py:182-194 | the answer to a heartbeat push is one request with id 10, method `public/test`, empty params; a subscription push or any message with an `id` gets none |
| `Messages.OperationReplyRoundTrip` | dbt-ws-authenticated-example.py:254-259 | the message-level form of `Ids.IssuedIdRoundTrip`: a reply carrying the id of an operation request is classified as the reply to that operation, whatever else it carries |
| `Session.RefreshDeadline` | dbt-ws-authenticated-example.py:136-144 | on testnet the deadline is 300 s ahead; otherwise it is exactly 240 s before the declared expiry, so strictly before it |
| `Session.RefreshDeadlineExamples` | dbt-ws-authenticated-example.py:137-140 | a declared lifetime of 3600 s gives now + 3360; testnet gives now + 300 whatever the lifetime |
| `Session.AuthStatusOf` | dbt-ws-authenticated-example.py:123-130 | "authenticated" exactly when no refresh token was stored before the reply, "refreshed" otherwise |
| `Session.ShouldRefresh` | dbt-ws-authenticated-example.py:220-221 | the monitor fires only when a deadline is set, and then exactly when now is strictly past it |
| `Session.FirstFiringPollIsFirst` | dbt-ws-authenticated-example.py:219-234 | with checks every 150 s and a fixed deadline, the computed check is the first to fire and no earlier one fires; when the monitor started no later than the deadline, it comes at most 150 s after the deadline |
| `Session.TestnetDeadlineVersusExpiry` | dbt-ws-authenticated-example.py:137-144 | on testnet the deadline precedes the declared expiry exactly when the declared lifetime exceeds 300 s |
| `Session.RefreshPrecedesExpiry` | dbt-ws-authenticated-example.py:134-144 | on production, for a reply declaring a lifetime of at least 240 s and a monitor started no later than the reply, the new deadline is not before the reply, no check before the computed one fires under that deadline, and the computed check comes after the reply and before the declared lifetime runs out |
| `Session.ShortLifetimeRefreshLate` | dbt-ws-authenticated-example.py:219-234 | with checks at 900 s and 1050 s around a reply at 1000 s declaring 0 s, the first check after the reply is the first refresh and comes 50 s after expiry |
| `Session.ApplyAuthReply` | dbt-ws-authenticated-example.py:134-144 | the refresh token becomes the reply's token as soon as it is read; the deadline is set only when every key is present; a missing key is a fault and leaves the deadline as it was; "deadline set implies token set" is preserved |
| `Workload.IterationOps` | dbt-ws-authenticated-example.py:268-272 | one pass of the inner loop queues one operation per instrument; `Workload.IterationOpsAt` gives operation j as the pass's kind on instrument j's book channel |
| `Workload.StressOps` | dbt-ws-authenticated-example.py:263-273 | the workload queues exactly iterations × \|instruments\| operations, none for a non-positive count |
| `Workload.StressOpsAt` | dbt-ws-authenticated-example.py:264-273 | operation k·\|instruments\| + j subscribes when k is even and unsubscribes when k is odd, on channel "book." + instrument j + ".100ms" |
| `Workload.RunOps` | dbt-ws-authenticated-example.py:243-259 | running a queue of operations, each allocating its id as it runs, sends exactly one request per operation |
| `Workload.RunOpsCounters` | dbt-ws-authenticated-example.py:243-252 | after running queued operations each counter has advanced once per operation of its kind, modulo 500, and stays valid |
| `Workload.RunOpsAllocatesAfterPrefix` | dbt-ws-authenticated-example.py:236-259 | running a queue sends one request per operation in queue order: the i-th request has the i-th operation's method and channel and the id allocated from the counters the operations before it left |
| `Workload.RunOpsRepliesClassify` | dbt-ws-authenticated-example.py:149-152 | from valid counters, the id of every request of a run classifies as the reply to that request's operation, however often the counters wrapped |
| `Workload.TwoIterationScenario` | dbt-ws-authenticated-example.py:263-273 | two iterations over A, B from fresh counters send subscribe A (1000), subscribe B (1001), unsubscribe A (2000), unsubscribe B (2001) |
| `Scheduler.TaskScheduler.constructor` | dbt-ws-authenticated-example.py:35-38 | a new scheduler has an empty queue |
| `Scheduler.TaskScheduler.AddTask` | dbt-ws-authenticated-example.py:40-42 | `add_task` appends at the tail and leaves the queued tasks unchanged |
| `Scheduler.TaskScheduler.PopTask` | dbt-ws-authenticated-example.py:44-52 | one turn of the drain loop removes exactly the head and hands it out; on an empty queue it hands out nothing and changes nothing |
| `Client.CheckConfig` | dbt-ws-authenticated-example.py:81-90 | the configuration is accepted exactly when the iteration count is non-zero and the instrument list non-empty; a zero count is reported first |
| `Client.Feeder.constructor` | dbt-ws-authenticated-example.py:56-91 | a valid configuration gives no token, no deadline, zero counters, and a fresh empty scheduler exactly when the rate limit is positive |
| `Client.Feeder.Create` | dbt-ws-authenticated-example.py:56-91 | a client is created exactly when the checks pass, holding the given URL, credentials, instruments, rate and iteration count with an empty session; otherwise the first failing check's error is raised |
| `Client.Feeder.WsAuth` | dbt-ws-authenticated-example.py:196-212 | sends one client-credentials `public/auth` request with id 20 |
| `Client.Feeder.EstablishHeartbeat` | dbt-ws-authenticated-example.py:168-180 | sends one `public/set_heartbeat` request with id 11 and interval 10 |
| `Client.Feeder.HeartbeatResponse` | dbt-ws-authenticated-example.py:182-194 | sends one `public/test` request with id 10 |
| `Client.Feeder.Start` | dbt-ws-authenticated-example.py:106-110 | the reader loop's prologue sends the auth request and then the heartbeat setup, directly |
| `Client.Feeder.RefreshAuthTick` | dbt-ws-authenticated-example.py:219-234 | a check sends a refresh request iff the deadline is set and strictly passed; that request has id 20, grant `refresh_token` and the stored token |
| `Client.Feeder.WsOperation` | dbt-ws-authenticated-example.py:236-261 | sends one request with the allocated id and advances only that kind's counter; the counters stay in [0, 500) and the id classifies as the reply to that operation |
| `Client.Feeder.CreateTask` | dbt-ws-authenticated-example.py:275-279 | queues on the scheduler when there is one, otherwise hands the task to the event loop |
| `Client.Feeder.CreateIterationTasks` | dbt-ws-authenticated-example.py:268-272 | the inner loop queues one operation per instrument in list order |
| `Client.Feeder.StressTestSubscribe` | dbt-ws-authenticated-example.py:263-273 | queues exactly the workload `StressOps(iterations, instruments)` after what was already pending |
| `Client.Feeder.HandleMessage` | dbt-ws-authenticated-example.py:120-162 | the message is classified by `Classify`; an auth reply logs by the old token, queues the workload and updates token and deadline as `ApplyAuthReply` says; a heartbeat push adds exactly the acknowledgment to the sent log; everything else changes nothing |
| `Client.Feeder.ProcessNextTask` | dbt-ws-authenticated-example.py:45-49 | pops only the head and runs it once, sending its request with a freshly allocated id; an empty queue runs nothing |
| `Client.Feeder.ProcessTasks` | dbt-ws-authenticated-example.py:44-52 | draining the queue sends exactly the requests of `RunOps` over the queue, in enqueue order, none twice and none dropped |

## Left out

- Transport I/O is not modelled: `websockets.connect`, `recv`, `send` and the `while websocket_client.open` loop. Sending is appending to `sent`, and each received message is one `HandleMessage` call.
- `json.loads`/`json.dumps` are not modelled. Messages are datatypes, and an `id` is always an integer.
- A JSON `null` refresh token is not modelled: tokens are strings.
- `logging` is not modelled. Log lines appear only as the `Handled` result: the message class and the "authenticated"/"refreshed" choice.
- `asyncio.Event`, `asyncio.sleep`, `asyncio.create_task` and `asyncio.run` are not modelled. Concurrency and wall-clock scheduling cannot be stated here.
- Tasks handed to the event loop when there is no scheduler are recorded in `detached`. When and in what order they run is not modelled.
- `TaskScheduler.delay` and the float `1. / rate_limit_request_per_sec` are not modelled. The model keeps only "a scheduler exists iff the rate is positive".
- `datetime.now(timezone.utc)` and `timedelta` become an integer `now` parameter.
- The 150-second sleep of `ws_refresh_auth` appears only as the check times in `Session.PollTime`.
- `Session.RefreshDeadline`: the deadline precedes the token's declared expiry only on production. On testnet the declared lifetime is ignored, so for a lifetime of at most 300 s the deadline falls at or after expiry (`Session.TestnetDeadlineVersusExpiry`).
- `Session.RefreshPrecedesExpiry`: promised only for declared lifetimes of at least 240 s; with a shorter one the deadline already lies before the reply, and the first check after the reply can come after expiry (`Session.ShortLifetimeRefreshLate`). It also speaks only of checks under the new deadline: on a refresh reply, checks made before the reply under the earlier deadline may already have sent further refreshes.
- `Client.Feeder.ProcessTasks`: it stops once the queue is empty. At that point the source waits on the event for more tasks and never returns.
- `sys.exit(1)` on connection loss and the `__main__` bootstrap are not modelled. The bootstrap has hard-coded credentials and URL.
- `ws_operation` with an operation string other than "subscribe"/"unsubscribe" is excluded by the `OpKind` type. The source would fail with an unbound `req_id`.
