/**
 * The polling scheduler of mb/mb.go: a client splits gather jobs into
 * sub-requests with one-shot timers; a firing timer hands its sub-request to a
 * bounded FIFO `ready` queue, or re-arms itself with a jitter when the queue
 * is full; a single dispatcher takes sub-requests from the queue in order,
 * reads, counts, re-arms and reports a `Result`.
 */
module Mb {
  import opened Base
  import opened Modbus
  import opened Splitting
  import opened Retry

  /** Default upper bound, in milliseconds, of the jitter delay. */
  const DefaultRandValue: int := 50
  /** Default capacity of the `ready` queue. */
  const DefaultReadyQueuesLength: nat := 128
  /** Nanoseconds in a millisecond: `ScanRate` is a Go `time.Duration`. */
  const Millisecond: int := 1_000_000

  /** A gather job, the `Request` value a caller passes to AddGatherJob. */
  datatype Request = Request(
    slaveID: byte,
    funcCode: byte,
    address: uint16,
    quantity: uint16,
    scanRate: int,   // nanoseconds
    retry: byte)

  /** The snapshot handed to `ProcResult` after every dispatch. */
  datatype Result = Result(
    slaveID: byte,
    funcCode: byte,
    address: uint16,
    quantity: uint16,
    scanRate: int,
    txCnt: uint64,
    errCnt: uint64)

  /** The four reads, each with its payload callback `ProcRead...` of the handler. */
  datatype Kind = Coils | Discretes | HoldingRegisters | InputRegisters

  /** What one dispatch reports to the handler. */
  datatype Report = Report(
    payload: Option<Kind>,  // the payload callback that fired, if any
    failed: bool,           // the error passed to ProcResult is non-nil
    result: Result)

  datatype Error = ErrClosed | ErrSlaveID(slaveID: byte) | ErrFuncCode(funcCode: byte)

  /** A sub-request's one-shot timer entry: stopped, or armed to fire after `delay` nanoseconds. */
  datatype Timer = Stopped | Armed(delay: int)

  /** The read (and payload callback) procRequest issues for a function code. */
  function KindOf(funcCode: byte): (r: Option<Kind>)
    ensures r.Some? <==> FuncCodeReadCoils <= funcCode <= FuncCodeReadInputRegisters
    ensures r.Some? ==> (r.value.Coils? || r.value.Discretes? <==> funcCode <= FuncCodeReadDiscreteInputs)
  {
    if funcCode == FuncCodeReadCoils then Some(Coils)
    else if funcCode == FuncCodeReadDiscreteInputs then Some(Discretes)
    else if funcCode == FuncCodeReadHoldingRegisters then Some(HoldingRegisters)
    else if funcCode == FuncCodeReadInputRegisters then Some(InputRegisters)
    else None
  }

  /** The largest quantity one read of this function code may ask for, if it is a read code. */
  function QuantityMax(funcCode: byte): (r: Option<nat>)
    ensures r.Some? <==> KindOf(funcCode).Some?
    ensures r.Some? ==> 0 < r.value <= ReadBitsQuantityMax
    ensures r.Some? ==> (r.value == ReadRegQuantityMax <==> KindOf(funcCode).value in {HoldingRegisters, InputRegisters})
  {
    if funcCode == FuncCodeReadCoils || funcCode == FuncCodeReadDiscreteInputs then Some(ReadBitsQuantityMax)
    else if funcCode == FuncCodeReadInputRegisters || funcCode == FuncCodeReadHoldingRegisters then Some(ReadRegQuantityMax)
    else None
  }

  /** The error AddGatherJob returns for a job, checked in the source's order, or None. */
  function JobError(closed: bool, job: Request): (r: Option<Error>)
    ensures closed ==> r == Some(ErrClosed)
    ensures r == None <==> !closed && AddressMin <= job.slaveID <= AddressMax && KindOf(job.funcCode).Some?
  {
    if closed then Some(ErrClosed)
    else if job.slaveID < AddressMin || job.slaveID > AddressMax then Some(ErrSlaveID(job.slaveID))
    else if QuantityMax(job.funcCode).None? then Some(ErrFuncCode(job.funcCode))
    else None
  }

  /** The timer state a re-arm decision leaves behind. */
  function TimerAfter(rearm: Rearm, scanRate: int): Timer
  {
    match rearm
    case Jitter(d) => Armed(d * Millisecond)
    case Cadence => Armed(scanRate)
    case NoRearm => Stopped
  }

  /**
   * A job is accepted exactly when the client is open, the slave address is
   * legal and the function code is one of the four reads; the bit reads share
   * one limit and the register reads the other, and the two read families are
   * the codes that have a payload callback.
   */
  lemma JobAccepted(closed: bool, job: Request)
    ensures JobError(closed, job) == None
        <==> !closed && 1 <= job.slaveID <= 247 && job.funcCode in {0x01, 0x02, 0x03, 0x04}
    ensures QuantityMax(job.funcCode).Some? <==> KindOf(job.funcCode).Some?
    ensures job.funcCode in {0x01, 0x02} ==> QuantityMax(job.funcCode) == Some(2000)
    ensures job.funcCode in {0x03, 0x04} ==> QuantityMax(job.funcCode) == Some(125)
  {
  }

  /**
   * The sub-requests of an accepted job cover its whole quantity, each at most
   * the limit of its kind (2000 bits or 125 registers), all but the last full.
   */
  lemma AcceptedJobChunks(closed: bool, job: Request)
    requires JobError(closed, job) == None
    ensures var s := Split(job.address, job.quantity, QuantityMax(job.funcCode).value);
      && Total(s) == job.quantity
      && (forall k :: 0 <= k < |s| ==> 0 < s[k].quantity <= QuantityMax(job.funcCode).value <= 2000)
      && (job.funcCode in {0x03, 0x04} ==> forall k :: 0 <= k < |s| ==> s[k].quantity <= 125)
      && (forall k :: 0 <= k < |s| - 1 ==> s[k].quantity == QuantityMax(job.funcCode).value)
  {
    var q := QuantityMax(job.funcCode).value;
    SplitTotal(job.address, job.quantity, q);
    SplitShape(job.address, job.quantity, q);
  }

  /** A sub-request (`*Request` in the source): the job's parameters plus counters and a timer. */
  class SubRequest {
    const slaveID: byte
    const funcCode: byte
    const address: uint16
    const quantity: uint16
    const scanRate: int
    const retry: byte
    var retryCnt: byte
    var txCnt: uint64
    var errCnt: uint64
    var tm: Timer

    constructor (slaveID: byte, funcCode: byte, address: uint16, quantity: uint16, scanRate: int, retry: byte)
      ensures this.slaveID == slaveID && this.funcCode == funcCode
      ensures this.address == address && this.quantity == quantity
      ensures this.scanRate == scanRate && this.retry == retry
      ensures retryCnt == 0 && txCnt == 0 && errCnt == 0 && tm == Stopped
    {
      this.slaveID := slaveID;
      this.funcCode := funcCode;
      this.address := address;
      this.quantity := quantity;
      this.scanRate := scanRate;
      this.retry := retry;
      retryCnt, txCnt, errCnt := 0, 0, 0;
      tm := Stopped;
    }

    /** The `Result` built from the sub-request's current fields. */
    function Snapshot(): Result
      reads this
    {
      Result(slaveID, funcCode, address, quantity, scanRate, txCnt, errCnt)
    }
  }

  /** The ranges of a list of sub-requests. */
  function Chunks(rs: seq<SubRequest>): seq<Chunk>
  {
    if rs == [] then [] else [Chunk(rs[0].address, rs[0].quantity)] + Chunks(rs[1..])
  }

  lemma {:induction false} ChunksAppend(rs: seq<SubRequest>, r: SubRequest)
    ensures Chunks(rs + [r]) == Chunks(rs) + [Chunk(r.address, r.quantity)]
  {
    if rs != [] {
      assert (rs + [r])[1..] == rs[1..] + [r];
      ChunksAppend(rs[1..], r);
    }
  }

  /** What AddGatherJob guarantees of every sub-request it creates: a legal, bounded read with no retry budget. */
  predicate Admitted(r: SubRequest)
  {
    && AddressMin <= r.slaveID <= AddressMax
    && QuantityMax(r.funcCode).Some?
    && 0 < r.quantity <= QuantityMax(r.funcCode).value
    && r.retry == 0
  }

  /** A sub-request as AddGatherJob creates it for `job`: its parameters, no retry budget, zero counters, timer started. */
  predicate Spawned(job: Request, r: SubRequest)
    reads r
  {
    && r.slaveID == job.slaveID && r.funcCode == job.funcCode && r.scanRate == job.scanRate
    && r.retry == 0 && r.retryCnt == 0 && r.txCnt == 0 && r.errCnt == 0
    && r.tm == Armed(job.scanRate)
  }

  /**
   * The split loop of AddGatherJob: sub-requests of at most `quantityMax`
   * items each, from the job's address on, until its quantity is used up; each
   * gets the job's parameters and its timer started with the scan rate.
   */
  method SplitJob(job: Request, quantityMax: nat) returns (created: seq<SubRequest>)
    requires AddressMin <= job.slaveID <= AddressMax && QuantityMax(job.funcCode) == Some(quantityMax)
    ensures Chunks(created) == Split(job.address, job.quantity, quantityMax)
    ensures forall k :: 0 <= k < |created| ==> fresh(created[k]) && Spawned(job, created[k]) && Admitted(created[k])
  {
    created := [];
    var address := job.address;
    var remain: int := job.quantity;
    while remain > 0
      invariant 0 <= remain <= job.quantity
      invariant Chunks(created) + Split(address, remain, quantityMax) == Split(job.address, job.quantity, quantityMax)
      invariant forall k :: 0 <= k < |created| ==> fresh(created[k]) && Spawned(job, created[k]) && Admitted(created[k])
      decreases remain
    {
      var count := remain;
      if count > quantityMax {
        count := quantityMax;
      }
      // Retry is not copied from the job: every sub-request starts with a budget of 0.
      var req := new SubRequest(job.slaveID, job.funcCode, address, count, job.scanRate, 0);
      req.tm := Armed(req.scanRate);
      SplitStep(Chunks(created), address, remain, quantityMax);
      ChunksAppend(created, req);
      created := created + [req];
      address := AddU16(address, count);
      remain := remain - count;
    }
  }

  /** The buffered channel `ready`: a FIFO of sub-requests with a fixed capacity. */
  class ReadyQueue {
    const capacity: nat
    var items: seq<SubRequest>

    ghost predicate Valid()
      reads this
    {
      |items| <= capacity
    }

    constructor (capacity: nat)
      ensures Valid() && this.capacity == capacity && items == []
    {
      this.capacity := capacity;
      items := [];
    }

    /** A send in a `select` with a `default`: it succeeds only when there is room. */
    method TrySend(r: SubRequest) returns (sent: bool)
      requires Valid()
      modifies this
      ensures Valid()
      ensures sent <==> |old(items)| < capacity
      ensures items == if sent then old(items) + [r] else old(items)
    {
      sent := |items| < capacity;
      if sent {
        items := items + [r];
      }
    }

    /** A receive in a `select`: the oldest sub-request, or None when the channel is empty. */
    method TryReceive() returns (r: Option<SubRequest>)
      requires Valid()
      modifies this
      ensures Valid()
      ensures old(items) == [] ==> r == None && items == []
      ensures old(items) != [] ==> r == Some(old(items)[0]) && items == old(items)[1..]
    {
      if items == [] {
        r := None;
      } else {
        r := Some(items[0]);
        items := items[1..];
      }
    }
  }

  class Client {
    /** Upper bound, in milliseconds, of a jitter delay. */
    const randValue: int
    const ready: ReadyQueue
    /** The client's context has been cancelled by Close. */
    var closed: bool
    /** The dispatcher goroutine (readPoll) is running. */
    var running: bool
    /** Every sub-request AddGatherJob has given a timer entry, in creation order. */
    var entries: seq<SubRequest>

    /**
     * The client's invariant. Every queued sub-request is one of the client's,
     * sits in the queue once, and has a stopped timer, since its timer fired
     * to put it there and is started again only once it has been dispatched.
     * No sub-request of the client has a retry budget, so its retry counter
     * stays at 0.
     */
    ghost predicate Valid()
      reads this, ready, ready.items, entries
    {
      && randValue > 0
      && ready.Valid()
      && ready.capacity > 0
      && (forall e :: e in entries ==> Admitted(e))
      && (forall e :: e in entries ==> e.retryCnt == 0 <= e.retry)
      && (forall i :: 0 <= i < |ready.items| ==> ready.items[i] in entries && ready.items[i].tm == Stopped)
      && (forall i, j :: 0 <= i < j < |ready.items| ==> ready.items[i] != ready.items[j])
    }

    /** NewClient with its options applied: the jitter bound and the queue capacity. */
    constructor (randValue: int, readyQueueSize: nat)
      requires randValue > 0 && readyQueueSize > 0
      ensures Valid() && fresh(ready)
      ensures this.randValue == randValue && ready.capacity == readyQueueSize && ready.items == []
      ensures !closed && !running && entries == []
    {
      this.randValue := randValue;
      ready := new ReadyQueue(readyQueueSize);
      closed, running := false, false;
      entries := [];
    }

    /** Start: connect the transport; on success launch the dispatcher. */
    method Start(connectFailed: bool) returns (failed: bool)
      requires Valid()
      modifies this`running
      ensures Valid()
      ensures failed == connectFailed
      ensures running == (old(running) || !connectFailed)
    {
      failed := connectFailed;
      if !connectFailed {
        running := true;
      }
    }

    /** Close: cancel the client's context, then close the transport. */
    method Close(closeFailed: bool) returns (failed: bool)
      requires Valid()
      modifies this`closed
      ensures Valid()
      ensures closed && failed == closeFailed
    {
      closed := true;
      failed := closeFailed;
    }

    /**
     * AddGatherJob: reject the job if the client is closed, the slave address
     * is illegal or the function code is not a read; otherwise cut it into
     * sub-requests and start each one's timer with the job's scan rate.
     */
    method AddGatherJob(job: Request) returns (err: Option<Error>)
      requires Valid()
      modifies this`entries
      ensures Valid()
      ensures err == JobError(closed, job)
      ensures err.Some? ==> entries == old(entries)
      ensures err.None? ==>
        && |old(entries)| <= |entries|
        && entries[..|old(entries)|] == old(entries)
        && Chunks(entries[|old(entries)|..]) == Split(job.address, job.quantity, QuantityMax(job.funcCode).value)
        && forall k :: |old(entries)| <= k < |entries| ==> fresh(entries[k]) && Spawned(job, entries[k])
    {
      err := JobError(closed, job);
      if err.None? {
        var created := SplitJob(job, QuantityMax(job.funcCode).value);
        entries := entries + created;
        assert entries[..|old(entries)|] == old(entries) && entries[|old(entries)|..] == created;
      }
    }

    /**
     * A sub-request's timer fires: nothing when the client is closed; else
     * the sub-request joins the tail of the queue if there is room, and
     * otherwise its timer is started again after `d` milliseconds, `d` drawn
     * from [0, randValue).
     */
    method Fire(r: SubRequest, d: int)
      requires Valid()
      requires r in entries && r.tm.Armed?
      requires 0 <= d < randValue
      modifies ready, r`tm
      ensures Valid()
      ensures old(closed) ==> ready.items == old(ready.items) && r.tm == Stopped
      ensures !old(closed) && |old(ready.items)| < ready.capacity ==>
                ready.items == old(ready.items) + [r] && r.tm == Stopped
      ensures !old(closed) && |old(ready.items)| >= ready.capacity ==>
                ready.items == old(ready.items) && r.tm == Armed(d * Millisecond)
    {
      r.tm := Stopped;  // a one-shot timer is spent once it has fired
      if closed {
        return;
      }
      var sent := ready.TrySend(r);
      if !sent {
        r.tm := Armed(d * Millisecond);
      }
    }

    /**
     * procRequest: count the attempt, issue the read of the sub-request's
     * function code (`failed` is whether it returns an error), count an error
     * or call the payload callback, decide the re-arm with jitter `d`, and
     * report a snapshot. A function code that is no read issues no read and so
     * cannot fail.
     */
    method ProcRequest(req: SubRequest, failed: bool, d: int) returns (rearm: Rearm, report: Report)
      requires req.tm == Stopped  // its one-shot timer has fired to queue it
      requires 0 <= d < randValue
      modifies req`txCnt, req`errCnt, req`retryCnt, req`tm
      ensures var readErr := failed && KindOf(req.funcCode).Some?;
        && req.txCnt == IncU64(old(req.txCnt))
        && req.errCnt == (if readErr then IncU64(old(req.errCnt)) else old(req.errCnt))
        && RetryStep(readErr, req.retry, req.scanRate, old(req.retryCnt), d) == Step(req.retryCnt, rearm)
        && req.tm == TimerAfter(rearm, req.scanRate)
        && report.payload == (if readErr then None else KindOf(req.funcCode))
        && report.failed == readErr
        && report.result == req.Snapshot()
    {
      req.txCnt := IncU64(req.txCnt);
      var readErr := false;
      var payload: Option<Kind> := None;
      var kind := KindOf(req.funcCode);
      if kind.Some? {
        readErr := failed;
        if readErr {
          req.errCnt := IncU64(req.errCnt);
        } else {
          payload := kind;
        }
      }
      var step := RetryStep(readErr, req.retry, req.scanRate, req.retryCnt, d);
      req.retryCnt := step.retryCnt;
      rearm := step.rearm;
      req.tm := TimerAfter(rearm, req.scanRate);
      report := Report(payload, readErr, req.Snapshot());
    }

    /**
     * One turn of the dispatcher loop readPoll: it stops for good once the
     * client is closed; otherwise it takes the oldest queued sub-request, if
     * any, and processes it. A sub-request of this client never fast-retries,
     * since none has a retry budget.
     */
    method Poll(failed: bool, d: int) returns (report: Option<Report>)
      requires Valid() && running
      requires 0 <= d < randValue
      modifies this`running, ready, if closed || ready.items == [] then {} else {ready.items[0]}
      ensures Valid()
      ensures entries == old(entries) && closed == old(closed)
      ensures old(closed) ==> !running && report == None && ready.items == old(ready.items)
      ensures !old(closed) && old(ready.items) == [] ==> running && report == None && ready.items == []
      ensures !old(closed) && old(ready.items) != [] ==>
        var r := old(ready.items)[0];
        var readErr := failed && KindOf(r.funcCode).Some?;
        && running
        && ready.items == old(ready.items)[1..]
        && r.txCnt == IncU64(old(r.txCnt))
        && r.errCnt == (if readErr then IncU64(old(r.errCnt)) else old(r.errCnt))
        && r.retryCnt == old(r.retryCnt)
        && r.tm == (if r.scanRate > 0 then Armed(r.scanRate) else Stopped)
        && report == Some(Report(if readErr then None else KindOf(r.funcCode), readErr, r.Snapshot()))
    {
      if closed {
        running := false;
        return None;
      }
      var next := ready.TryReceive();
      if next.None? {
        return None;
      }
      var r := next.value;
      assert r == old(ready.items)[0] && r in entries;
      var rearm, rep := ProcRequest(r, failed, d);
      report := Some(rep);
    }
  }
}
