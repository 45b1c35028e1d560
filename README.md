# hammer: balance workers, modelled in Dafny

hammer queries the balances of cryptocurrency addresses from several
remote providers. Each provider has a worker. A worker takes addresses
from a shared input channel and groups them into batches the provider
accepts. It keeps to the provider's quota, calls the provider, and turns
the reply into `Result` records. Blockcypher sends them on a shared
output channel; Blockonomics sends them on the reply channels its
requests carry. When a call fails, the worker puts the whole batch back
on the input.

This project models the two workers and the helpers they share:

- `common.dfy` (module `Common`) holds the `Result` record, the outcome
  of one HTTP call (`Reply`), channels as FIFO queues (`Channel`), the
  worker descriptor `W` with `Name`, the worker set `WorkersAll` and
  `SubmitAddresses`.
- `blockcypher_com.dfy` (module `BlockcypherCom`) holds the Blockcypher
  worker. Batches hold at most 3 addresses. An hourly counter is
  checked against a quota of 200 addresses per UTC hour. A 429 reply
  forces the counter to the quota. Failed batches are requeued.
  `DurationTillNextUTCHour` is modelled on an integer nanosecond clock.
- `blockonomics_co.dfy` (module `BlockonomicsCo`) holds the Blockonomics
  worker in its per-request reply design. Batches hold at most 25
  requests. Each request carries a reply target. Every returned balance
  for a requested address becomes a result with
  `total = confirmed + unconfirmed`. The result is routed to the target
  of the last request for that address. A balance for an address nobody
  requested is sent on a nil channel and reaches no one.

Each worker's event loop is given twice:

- As a specification: a pure `Step` function over an explicit `State`,
  and `Run`, which folds `Step` over a schedule of events.
- As a class whose methods work on the object's fields and on `Channel`
  objects, as the Go methods do: `Blockcypher` has `Start`, `Do` and
  `Process`; `Blockonomics` has `Start`, `Process` and `Emit`, the send
  loop of `process`. Blockonomics' `do` reads no fields, so it is the
  module-level function `Do`. Each `Start` is proved to end in the state
  `Run` gives.

The Go `select` becomes an explicit event:

- `Receive` takes the head of the input channel. On an empty channel it
  is not enabled and changes nothing.
- `Timeout` is the 5-second ticker.
- `HourTick` is the hourly UTC ticker (Blockcypher only).
- `Stop` is the stop channel (Blockcypher only; the Blockonomics loop has
  no stop case).

`Receive` and `Timeout` carry the reply the provider would give if the
event causes a flush. The reply is a transport error, or a status code
with a body that decoded or did not. This stands in for the HTTP call.

Amounts are integers, because balances are in satoshi (common.go:4).

Notes on the code as written:

- The hourly limit is described as "can query upto this many addresses
  per hour" (blockcypher_com.go:13) and "upto 200 queries per top of the
  UTC hour" (blockcypher_com.go:25). Arrival flushes are charged to the
  counter before the call (blockcypher_com.go:62). Timeout flushes are not
  charged, and the counter can pass 200; see Findings.
- Unlike Blockcypher, which writes to the shared output, Blockonomics
  sends each result to a reply channel taken from its batch's address
  map (blockonomics_co.go:94, :111). When two requests in a batch name
  the same address, the later one overwrites the earlier in that map.
  Only the later requester receives the result; the earlier one gets
  nothing.
- `NewBlockonomics` takes no arguments, yet `WorkersAll` calls it with
  three (common.go:40). It also stores a `chan Request` in a
  `chan string` field. So the Blockonomics class gets its own request
  channel, as `NewBlockonomics` writes it. `WorkersAll` is modelled as
  the wiring its call intends: two worker descriptors, both bound to the
  three shared handles.

## Model

| member | source | states |
|---|---|---|
| `Common.WorkersAll` | common.go:38-43 | exactly two workers, Blockonomics then Blockcypher, each bound to the same input, output and stop handles |
| `Common.SubmitAddresses` | common.go:45-51 | the channel ends as its old contents followed by every address in the given order: it grows by exactly the list's length, nothing is dropped or duplicated (multiset), and an empty list leaves it unchanged |
| `BlockcypherCom.Blockcypher.constructor` | blockcypher_com.go:30-45 | the new worker's descriptor is the one `WorkersAll` lists for Blockcypher, its `Name()` is "blockcypher", the counter is 0 and the last reset is the given time |
| `BlockcypherCom.Blockcypher.Start` | blockcypher_com.go:47-88 | the loop run on the object's fields and channels ends in exactly the state `Run` gives for the same schedule, including the batch it abandons on a stop |
| `BlockcypherCom.Blockcypher.Do` | blockcypher_com.go:96-116 | records only for a decoded 200 reply; a 429 sets the counter to 200; every other status or a transport error is a failure that leaves the counter alone |
| `BlockcypherCom.Blockcypher.Process` | blockcypher_com.go:118-135 | on failure the batch is appended to the input and nothing is emitted; on success the output grows by the results of the records, in record order |
| `BlockcypherCom.CallOutcomeCases` | blockcypher_com.go:99-115 | a call yields records iff the reply is a decoded 200; the counter afterwards is 200 on a 429 and unchanged otherwise |
| `BlockcypherCom.Results` | blockcypher_com.go:125-134 | one result per record, in record order, with source "blockcypher" and address, confirmed, unconfirmed and total copied unchanged |
| `BlockcypherCom.BatchStaysUnderLimit` | blockcypher_com.go:49-65 | through any schedule the pending batch holds fewer than 3 addresses between events |
| `BlockcypherCom.ReceiveFlushesIff` | blockcypher_com.go:58-65 | an arrival appends the head of the input to the batch; the batch is flushed iff its new length is 3 or 200 minus the counter, and otherwise nothing but the batch and the input changes |
| `BlockcypherCom.ArrivalFlushCharges` | blockcypher_com.go:58-65 | an arrival flush empties the batch and adds its length to the counter, keeps the loop running and `lastUTCReset` unchanged, with no refund on failure (only a 429 overrides it with 200); a failed batch goes back on the input behind the rest, a successful one becomes results |
| `BlockcypherCom.TimeoutFlushes` | blockcypher_com.go:66-71 | a timeout on an empty batch changes nothing; on a non-empty batch it flushes and empties it, keeps the loop running and `lastUTCReset` unchanged, and leaves the counter unchanged (200 after a 429), requeueing or emitting as for any flush |
| `BlockcypherCom.TickAndStop` | blockcypher_com.go:72-81 | the hourly tick sets the counter to 0 and the reset time, with the batch untouched and the loop still running; a stop ends the loop without flushing the batch and changes no other field, and no later event changes anything |
| `BlockcypherCom.RunAfterStop` | blockcypher_com.go:78-81 | after the loop has returned, the rest of any schedule leaves the state as it was |
| `BlockcypherCom.ThreeArrivalsFlushOnce` | blockcypher_com.go:57-65 | three addresses arriving before any timeout are sent in a single flush of all three; the counter is 3 and the three results are published |
| `BlockcypherCom.ThreeArrivalsRequeued` | blockcypher_com.go:118-124 | when that call fails at the transport, all three addresses are back on the input in order and no result is published |
| `BlockcypherCom.LastQuotaSlotFlushesAlone` | blockcypher_com.go:60-64 | with one address of quota left, the first arrival is flushed alone rather than waiting for a batch of 3; the counter ends at 200 either way, and on failure the address is requeued behind the rest of the queue |
| `BlockcypherCom.DurationTillNextUTCHour` | blockcypher_com.go:137-141 | the duration lies in (0, 1 hour], ends exactly on a UTC hour boundary, and no boundary comes earlier; the argument `t` plays no part, the clock reading `now` does |
| `BlockcypherCom.TimeoutFlushGoesUncounted` | blockcypher_com.go:66-71 | as written: one address that arrives and then times out is sent and its result published, yet the counter stays 0 |
| `BlockcypherCom.IntendedTimeoutFlushCharges` | blockcypher_com.go:66-71 | corrected: a timeout flush adds the length of the batch it sends to the counter (unless the reply is a 429) |
| `BlockcypherCom.QuotaOverrun` | blockcypher_com.go:51-65 | as written: after a 429 has set the counter to 200, three arrivals are still accepted and flushed, and the counter reaches 203 |
| `BlockcypherCom.IntendedQuotaNeverExceeded` | blockcypher_com.go:51-65 | corrected: through any schedule the counter stays within 0..200 and a pending batch always fits in what is left of the quota |
| `BlockonomicsCo.Blockonomics.constructor` | blockonomics_co.go:30-38 | the worker is named "blockonomics" and has its own new, empty request channel |
| `BlockonomicsCo.Blockonomics.Start` | blockonomics_co.go:40-60 | the loop handles every event of the schedule (there is no stop case) and ends in exactly the state `Run` gives |
| `BlockonomicsCo.Blockonomics.Process` | blockonomics_co.go:89-101 | on failure every request is resubmitted to the input in order and nothing is routed; on success the routed results are those of the reply, sent to the reply map of the batch |
| `BlockonomicsCo.Blockonomics.Emit` | blockonomics_co.go:102-113 | the reply targets receive exactly the routed results of the balances, in reply order |
| `BlockonomicsCo.CollectTargets` | blockonomics_co.go:90-95 | the addresses come out in request order, one per request, and the map is the reply map of the batch |
| `BlockonomicsCo.ReplyTargets` | blockonomics_co.go:91-95 | the reply map's keys are exactly the addresses of the batch |
| `BlockonomicsCo.LaterRequestWins` | blockonomics_co.go:92-95 | for an address requested more than once, the map holds the reply target of its last request |
| `BlockonomicsCo.Do` | blockonomics_co.go:62-87 | balances only for a decoded 200 reply; any other status, a transport error or an undecodable body is a failure |
| `BlockonomicsCo.Routes` | blockonomics_co.go:102-113 | every routed result has source "blockonomics", total = confirmed + unconfirmed, and goes to the target recorded for its address; every balance for a requested address is routed, even when the reply also holds unrequested ones; when every balance is for a requested address, there is one result per balance, in order, with its amounts |
| `BlockonomicsCo.RoutesAppend` | blockonomics_co.go:102-113 | routing a reply split in two gives the routes of the first part followed by those of the second, so results keep reply order and no balance is lost or routed twice |
| `BlockonomicsCo.RoutesOne` | blockonomics_co.go:102-113 | a single balance yields exactly one result, with its own amounts and the target recorded for its address, when that address was requested, and none otherwise; with `RoutesAppend` this fixes `Routes` on every reply |
| `BlockonomicsCo.MixedReplyRoutesRequestedOnly` | blockonomics_co.go:102-113 | for targets {a ↦ 7} and a reply [a, z, a], exactly two results go to 7, each with a's amounts and total 6, and z's balance is dropped |
| `BlockonomicsCo.BatchStaysUnderLimit` | blockonomics_co.go:42-52 | through any schedule the pending batch holds fewer than 25 requests between events |
| `BlockonomicsCo.ReceiveFlushesIff` | blockonomics_co.go:47-52 | an arrival joins the batch; the batch is flushed and emptied iff its new length is 25, and otherwise only the batch and the input change; the 25th arrival's batch is requeued behind the rest of the input on failure, or its balances are routed by the batch's reply map on success |
| `BlockonomicsCo.TimeoutFlushes` | blockonomics_co.go:53-57 | a timeout changes nothing on an empty batch; a non-empty batch is emptied and either appended to the input (failure) or routed by its reply map (success) |
| `BlockonomicsCo.FlushOutcome` | blockonomics_co.go:96-113 | a failed call puts every request of the batch back on the input in order and routes nothing; a successful one routes the reply and leaves the input alone |
| `BlockonomicsCo.SingleRequestWaitsForTimeout` | blockonomics_co.go:43-57 | a single request is not sent on arrival; the timeout sends it alone and its balance is routed back to its requester |
| `BlockonomicsCo.SubmitRequests` | blockonomics_co.go:99 | the requests are appended to the input in order |

## Left out

- HTTP and JSON (URL formatting, `strings.Join`, `http.Get`/`http.Post`, decoding) are left out: foreign library calls. A call is the `Reply` on the event.
- The `json.Marshal` error path (blockonomics_co.go:64-69) is left out: marshalling a map of strings cannot fail.
- Goroutines and blocking channels are left out. Unbuffered channels, backpressure and other producers or consumers on the shared channels are not modelled. A `Channel` is a queue whose sends complete at once.
- The detached resubmission (`go SubmitAddresses`, `go submitRequests`) is modelled as an immediate append to the input.
- Blockonomics sends each result from its own goroutine, so the order in which reply channels see them is not fixed. The model routes results in reply order.
- Time is left out. The 5-second ticker, the 1-second pacing sleep (blockcypher_com.go:86) and the sleep until the next hour when the counter is 200 (blockcypher_com.go:51-54) are not modelled. A sleep changes no worker state, so the model lets any event follow it. Ticker recreation (`nextUTCHourTicker`) and `Blockcypher.Stop`, which only stops a ticker, are also left out.
- `lastUTCReset` is only recorded: the hourly tick sets it to the event's time.
- Balances are `float64` in the source; the model uses integers (satoshi). The addition at blockonomics_co.go:108 is exact here.
- Logging (`fmt.Println`) is left out.
- cmd/hammer/main.go is not part of this model. It is a demo driver for functions not in these files.
- submitRequests is not part of this model: it is called at blockonomics_co.go:99 but not defined in these files. `SubmitRequests` assumes it mirrors `SubmitAddresses`.
- `W.Name` is a plain accessor. Its property, that a worker's name is the one it was built with, is stated by the constructors.
- Blockcypher.Start and Blockonomics.Start run a finite schedule of events; the source's loops run until stopped, or forever.
- DurationTillNextUTCHour ignores leap seconds, as Go's time arithmetic does.

## Findings

| source | as written | input that shows it | evidently intended | confidence | as-written member | corrected member |
|---|---|---|---|---|---|---|
| blockcypher_com.go:66-71 | on a timeout the batch is cleared before `currentHourlyCount += len(addresses)`, so the counter grows by 0 | a fresh worker with input ["a"]: one arrival, then a timeout with a successful reply; "a" is queried and its result published, and the counter stays 0 | every address sent is charged to the hourly quota, as arrival flushes are | high, not executed | `BlockcypherCom.TimeoutFlushGoesUncounted` | `BlockcypherCom.IntendedTimeoutFlushCharges` |
| blockcypher_com.go:51-65 | at 200 the loop sleeps and then enters `select`, where input may be chosen before the hourly tick; at 200 the quota test `len == 200 - count` never holds, so a batch of 3 is flushed | input [x, a, b, c]: an arrival, a timeout answered 429 (counter 200), then three arrivals; the counter ends at 203 | no arrival or timeout is handled while the counter is at the limit, so the counter never exceeds 200 | medium (depends on which ready `select` case Go picks), not executed | `BlockcypherCom.QuotaOverrun` | `BlockcypherCom.IntendedQuotaNeverExceeded` |

Both corrections are in `StepIntended` and `RunIntended`. `Blockcypher.Start` follows the code as written.
