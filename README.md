# Polling scheduler of gomodbus `mb` — a Dafny model

This project models the polling scheduler of the `mb` package in gomodbus (`mb/mb.go`).
A `Client` takes gather jobs: read `Quantity` coils, discrete inputs, holding registers
or input registers of one slave, starting at `Address`, every `ScanRate`.

- `AddGatherJob` first checks the job. It then cuts the job into sub-requests. Each
  sub-request reads at most the per-read limit of its kind: 2000 bits or 125 registers.
- Each sub-request owns a one-shot timer.
- When a timer fires, the sub-request is offered to the bounded `ready` channel without
  blocking. If the channel is full, the timer is re-armed after a random jitter of
  `[0, randValue)` milliseconds.
- A single dispatcher, `readPoll`, takes sub-requests in FIFO order. For each one,
  `procRequest` counts the attempt, issues the read, counts an error or hands the
  payload to the handler, and re-arms the timer. The timer gets a fast jittered retry,
  the cadence, or nothing. Every attempt reports one `Result` snapshot.

Modules, one per component:

- `Base` (`base.dfy`): Go's fixed-width integers `byte`, `uint16` and `uint64`, and
  their wrap-around increments.
- `Modbus` (`modbus.dfy`): the constants the scheduler takes from the MODBUS protocol
  package. Slave addresses are 1..247 (section 2.2 of the MODBUS over Serial Line
  specification). The read function codes are 0x01..0x04. The per-read limits are
  2000 bits and 125 registers (sections 6.1 to 6.4 of the MODBUS Application Protocol
  Specification V1.1b3).
- `Splitting` (`splitting.dfy`): the split of a job's address range into chunks, as a
  pure function, with lemmas for sum, bounds, fullness, contiguity and closed form.
- `Retry` (`retry.dfy`): the re-arm decision of `procRequest` as a pure step function
  over `(failed, Retry, ScanRate, retryCnt)`, and lemmas about runs of attempts.
- `Mb` (`mb.dfy`): the heap model.
  - `SubRequest` is a `*Request`. Its job parameters are constants; its counters and
    timer are mutable fields.
  - `ReadyQueue` is the buffered channel.
  - `Client` holds the closed flag, the running dispatcher, the queue and the timer
    entries. Its methods are `AddGatherJob` (whose split loop is `SplitJob`), `Fire`
    (the timer closure), `ProcRequest` and `Poll` (one turn of `readPoll`).
  - `Client.Valid()` is the client's invariant. Every queued sub-request belongs to the
    client, is queued once, and has a stopped timer. Every sub-request of the client is
    a legal, bounded read with a retry budget of 0, and its retry counter is 0.

Two behaviours of `mb.go` worth knowing:

- Chunks do not inherit the job's `Retry` (mb/mb.go:135-141). Every sub-request that
  `AddGatherJob` creates has a budget of 0, so it never fast-retries (`Retry.NoBudgetNoRetry`),
  and its retry counter never leaves 0 (`Client.Valid()`). `Mb.Client.Poll` states the
  same: a dispatched sub-request is re-armed with its cadence or stays stopped.
- The retry rule itself (mb/mb.go:226-234) never resets the `byte` counter after a
  success. For a request with a budget, once the counter has reached the budget no
  later attempt fast-retries and the counter never decreases
  (`Retry.ExhaustedStaysExhausted`), and a failure at 255 wraps it to 0, after which
  fast retries start again (`Retry.CounterWraps`). This concerns the rule only: no
  sub-request of a `Client` has a budget, so none of them reaches either case.

## Model

| member | source | states |
|---|---|---|
| `Base.IncU8` | mb/mb.go:227 | `retryCnt++` on a byte: +1 below 255, 255 wraps to 0 |
| `Base.IncU64` | mb/mb.go:184 | `txCnt++` / `errCnt++` on a uint64: +1 below the maximum, which wraps to 0 |
| `Base.AddU16` | mb/mb.go:154 | `address += uint16(count)`: the sum modulo 2^16, the plain sum when it fits |
| `Splitting.Split` | mb/mb.go:127-156 | the split loop as a recursive function: no chunks exactly when the quantity is 0, and never more chunks than items; its sum, shape, contiguity and closed form are `SplitTotal`, `SplitShape`, `SplitContiguous` and `SplitAt` |
| `Splitting.SplitTotal` | mb/mb.go:127-156 | the chunk quantities add up to the job's quantity |
| `Splitting.SplitShape` | mb/mb.go:129-133 | every chunk holds between 1 and `quantityMax` items; every chunk but the last is full; there are no chunks exactly when the quantity is 0 |
| `Splitting.SplitContiguous` | mb/mb.go:127-155 | the first chunk starts at the job's address, and each next chunk starts where the previous one ends, modulo 2^16 |
| `Splitting.SplitAt` | mb/mb.go:127-155 | chunk k starts at `(Address + k*quantityMax) mod 2^16` and holds `min(quantityMax, Quantity - k*quantityMax)` items |
| `Splitting.ThreeRegisterReads` | mb/mb.go:127-156 | 300 registers at the 125-register limit make reads of 125, 125 and 50 at consecutive addresses |
| `Retry.RetryStep` | mb/mb.go:226-234 | the re-arm rule of one attempt: a jitter re-arm only after a failed read with a budget, with the bumped counter below the budget and the drawn delay; otherwise the cadence if `ScanRate > 0`, else none; the counter moves only after a failure with a budget; all cases as iffs in `RetryStepCases`, runs of attempts in `ConsecutiveFailures`, `ExhaustedStaysExhausted`, `NoBudgetNoRetry` and `SuccessesKeepCadence` |
| `Retry.RetryStepCases` | mb/mb.go:226-234 | a jitter re-arm happens iff the read failed, `Retry > 0` and the bumped counter is below `Retry`, and then the counter is below the budget; otherwise the cadence if `ScanRate > 0`, else no re-arm; the counter moves iff the read failed with a budget |
| `Retry.ConsecutiveFailures` | mb/mb.go:226-231 | after k+1 consecutive failures from counter c (no byte wrap), the counter is c+k+1, and the attempt fast-retries after its own jitter iff c+k+1 < `Retry`, otherwise it takes the cadence or goes dormant |
| `Retry.ThreeFailuresThenCadence` | mb/mb.go:226-231 | three failures with budget 3 and a cadence: the first two jitters, then the cadence, with the counter at 1, 2, 3 |
| `Retry.ExhaustedStaysExhausted` | mb/mb.go:226-234 | once `retryCnt >= Retry`, no later attempt fast-retries, whatever the outcomes (successes do not reset the counter), and the counter never decreases, until the byte wraps |
| `Retry.CounterWraps` | mb/mb.go:227 | a failure with the counter at 255 wraps it to 0 and fast-retries again |
| `Retry.NoBudgetNoRetry` | mb/mb.go:226-234 | with `Retry == 0`, every attempt keeps the counter and re-arms with the cadence, or goes dormant when `ScanRate <= 0` |
| `Retry.SuccessesKeepCadence` | mb/mb.go:232-234 | successful attempts keep the counter and re-arm with the cadence iff `ScanRate > 0` |
| `Mb.KindOf` | mb/mb.go:185-225 | the read `procRequest` issues: one exactly for the function codes 0x01..0x04, a bit read (coils, discrete inputs) for 0x01 and 0x02, a register read for 0x03 and 0x04 |
| `Mb.QuantityMax` | mb/mb.go:118-125 | the per-read limit is defined exactly for the codes that have a read; it is positive and at most 2000, and it is 125 exactly for the register reads |
| `Mb.JobError` | mb/mb.go:109-125 | a closed client rejects every job with the closed error; a job passes iff the client is open, 1 <= SlaveID <= 247 and the code has a read (see `JobAccepted`) |
| `Mb.JobAccepted` | mb/mb.go:109-125 | a job is accepted iff the client is open, 1 <= SlaveID <= 247 and FuncCode is 0x01..0x04; bit reads get the 2000 limit and register reads the 125 limit; the accepted codes are the ones with a payload callback |
| `Mb.AcceptedJobChunks` | mb/mb.go:118-156 | an accepted job's chunks cover its quantity; each holds at most its kind's limit (at most 2000, and at most 125 for registers); all but the last are full |
| `Mb.SplitJob` | mb/mb.go:127-156 | the loop's sub-requests have exactly the ranges of `Split`; each is new, copies SlaveID, FuncCode and ScanRate, has Retry 0 and zero counters, and has its timer started with ScanRate |
| `Mb.Client.AddGatherJob` | mb/mb.go:106-158 | the error is the first failing check (closed, slave ID, function code); on an error nothing is added; otherwise the new sub-requests follow the old ones and are those of `SplitJob`; the client invariant is kept |
| `Mb.Client.Fire` | mb/mb.go:143-151 | if closed, the queue is unchanged and the timer stays spent; else with room, the sub-request is appended at the tail; else the queue is unchanged and the timer is re-armed after d ms, 0 <= d < randValue; the client invariant is kept |
| `Mb.Client.ProcRequest` | mb/mb.go:174-245 | txCnt goes up by 1 (mod 2^64); errCnt goes up by 1 iff a read was issued and failed; the payload callback of the code's kind fires only on success; the counter and re-arm follow `RetryStep`; the timer is set accordingly; the reported `Result` carries the new counters and the unchanged parameters |
| `Mb.Client.Poll` | mb/mb.go:161-172 | closed: the dispatcher stops with no report; empty queue: nothing happens; otherwise the head is removed and processed as in `ProcRequest`, and its timer is re-armed with the cadence or stays stopped (never a jitter, since budgets are 0); once closed, only the running flag changes, so no read is issued, nothing is counted and no timer is re-armed; when open, only the running flag, the queue and the head sub-request may change; the client invariant is kept |
| `Mb.Client.constructor` | mb/mb.go:71-88 | a client with the given jitter bound and an empty queue of the given capacity, open, not started, without sub-requests |
| `Mb.Client.Start` | mb/mb.go:91-97 | the dispatcher runs iff the connection succeeded; the connect error is returned |
| `Mb.Client.Close` | mb/mb.go:100-103 | the client is closed, and the transport's close error is returned |
| `Mb.ReadyQueue.constructor` | mb/mb.go:86 | an empty channel of the given capacity |
| `Mb.ReadyQueue.TrySend` | mb/mb.go:144-150 | the send succeeds iff the channel holds fewer than its capacity, and then appends at the tail; otherwise the channel is unchanged |
| `Mb.ReadyQueue.TryReceive` | mb/mb.go:165-169 | the oldest sub-request is removed and returned; an empty channel yields nothing and stays empty |
| `Mb.SubRequest.constructor` | mb/mb.go:135-141 | the given parameters, zero counters and a stopped timer |

## Left out

- The MODBUS reads (`ReadCoils`, `ReadDiscreteInputs`, `ReadHoldingRegistersBytes`,
  `ReadInputRegistersBytes`), `Connect` and the transport's `Close` are calls into the
  protocol package. Each is a boolean parameter (`failed`, `connectFailed`,
  `closeFailed`). The bytes a read returns are not modelled; the model records only
  which payload callback fired.
- The `timing` package is replaced by the `tm` field of a sub-request: `Stopped`, or
  `Armed(delay)` in nanoseconds. A cadence re-arm uses `ScanRate`. The model does not
  capture whether `timing.Start(tm)` would reuse an earlier jitter delay; the timer
  package is not part of this model.
- `math/rand`: the jitter is a parameter `d` with `0 <= d < randValue`.
  - `Mb.Client.constructor`: requires `randValue > 0`, because `rand.Intn` panics
    otherwise.
  - `Mb.Client.constructor`: requires `readyQueueSize > 0`. An unbuffered channel, where
    a send succeeds only while the dispatcher is waiting, is a rendezvous between
    goroutines and is not modelled.
- Goroutines and `select`. Timer callbacks and dispatcher turns are separate method
  calls on one sequential state. The model therefore has no concurrency, and it states
  no liveness ("a re-armed producer eventually gets in").
  - `Mb.Client.Fire`: when the client is closed and the channel has room, Go's `select`
    may take either case. The model always takes the closed case.
  - `Mb.Client.Poll`: when the client is closed and a sub-request is queued, Go's
    `select` may take either case. The model always takes the closed case.
- `Mb.Client.Fire`: requires the sub-request's timer to be armed, since only an armed
  timer fires. A firing timer is left `Stopped` unless it is re-armed.
- `recover` and `panicHandle` (mb/mb.go:178-182) are not modelled. The bodies of the
  `Handler` callbacks are not modelled either, including `nopProc`: no read or callback
  panics in the model.
- `time.Duration` arithmetic: `ScanRate` is an integer count of nanoseconds, and a
  jitter of d milliseconds is `d * 1_000_000` of them.
- The client options that set `randValue` and `readyQueueSize` are not part of this
  model. The constructor takes both values directly. `DefaultRandValue` (50) and
  `DefaultReadyQueuesLength` (128) are constants.
- `Client.entries` records the sub-requests whose timer entries `AddGatherJob` created.
  Go keeps no such list; the timer package holds them.
