/**
 * The database client and its persister loop (pkg/db/postgresql/server.go):
 * the bounded persist channel, the open batch, the size and timer triggers,
 * the shutdown flag and the ordering of `Close`.
 *
 * The persister goroutine becomes the method `Step`, one iteration of
 * `persistingLoop`, whose inputs are the events that goroutine waits on: the
 * shutdown signal seen at the priority check, and whether the second select
 * delivers a queued record or a ticker fire. Producers call `PersistToDB`.
 */
module Persister {
  import opened Options
  import opened Records
  import opened Executor

  /** `batchSize`: the size trigger and also the capacity of the persist channel. */
  const BATCH_SIZE: nat := 256
  const QUEUE_CAPACITY: nat := BATCH_SIZE

  /** What the non-blocking priority select at the top of the loop receives. */
  datatype Signal = NoSignal | ContextDone | CloseRequested

  /** Which case of the blocking select fires. */
  datatype Wake = Receive | Tick

  /** Which trigger caused a flush. */
  datatype Trigger = SizeTrigger | TimerTrigger

  /** One commit attempt: the batch handed to the executor and how it ended. */
  datatype Flush = Flush(ops: seq<Op>, trigger: Trigger, outcome: FlushOutcome)

  /** The client's lifecycle, in the order things happen. */
  datatype Lifecycle =
    | PersisterLaunched
    | ShutdownSignal(signal: Signal)
    | PersisterExited
    | PoolClosed
    | QueueClosed

  datatype ClientError =
    | EmptyEndpoint
    | ConnectFailed(message: string)
    | PingFailed(message: string)
    | InitTablesFailed(message: string)

  /** `isReadyToPersistFn` */
  predicate IsReadyToPersist(batch: seq<Op>) {
    |batch| >= BATCH_SIZE
  }

  /** The statements of all commit attempts, in order. */
  function FlushedOps(fs: seq<Flush>): seq<Op> {
    if fs == [] then [] else FlushedOps(fs[..|fs| - 1]) + fs[|fs| - 1].ops
  }

  /** `after` keeps the attempts of `before` and adds only size-triggered ones. */
  predicate SizeFlushesSince(before: seq<Flush>, after: seq<Flush>) {
    && |before| <= |after| && after[..|before|] == before
    && forall i :: |before| <= i < |after| ==> after[i].trigger == SizeTrigger
  }

  /** Only size-triggered attempts after only size-triggered attempts are only size-triggered attempts. */
  lemma SizeFlushesCompose(a: seq<Flush>, b: seq<Flush>, c: seq<Flush>)
    requires SizeFlushesSince(a, b) && SizeFlushesSince(b, c)
    ensures SizeFlushesSince(a, c)
  {
    assert c[..|a|] == c[..|b|][..|a|];
    forall i | |a| <= i < |c|
      ensures c[i].trigger == SizeTrigger
    {
      if i < |b| {
        assert c[i] == c[..|b|][i];
      }
    }
  }

  /**
   * Where every record and every statement is: the channel is FIFO (what was
   * received, then what is still queued, is what was sent), each received
   * record was expanded by the mapping switch, and no statement is lost or
   * reordered before its commit attempt; a size-triggered attempt is full.
   */
  ghost predicate Accounting(
    queue: seq<Record>, enqueued: seq<Record>, consumed: seq<Record>,
    expansions: seq<seq<Op>>, batch: seq<Op>, flushes: seq<Flush>)
  {
    && |queue| <= QUEUE_CAPACITY
    && consumed + queue == enqueued
    && Expanded(consumed, expansions)
    && FlushedOps(flushes) + batch == Concat(expansions)
    && (forall i :: 0 <= i < |flushes| ==> flushes[i].trigger == SizeTrigger ==> |flushes[i].ops| >= BATCH_SIZE)
  }

  /** A send appends to the channel and to what was sent alike. */
  lemma SentAccounting(
    queue: seq<Record>, enqueued: seq<Record>, consumed: seq<Record>,
    expansions: seq<seq<Op>>, batch: seq<Op>, flushes: seq<Flush>, r: Record)
    requires Accounting(queue, enqueued, consumed, expansions, batch, flushes)
    requires |queue| < QUEUE_CAPACITY
    ensures Accounting(queue + [r], enqueued + [r], consumed, expansions, batch, flushes)
  {
    assert consumed + (queue + [r]) == (consumed + queue) + [r];
  }

  /** Receiving the front record and appending its expansion to the batch keeps every record and statement accounted for. */
  lemma ReceivedAccounting(
    queue: seq<Record>, enqueued: seq<Record>, consumed: seq<Record>,
    expansions: seq<seq<Op>>, batch: seq<Op>, flushes: seq<Flush>, ops: seq<Op>)
    requires Accounting(queue, enqueued, consumed, expansions, batch, flushes)
    requires |queue| > 0 && IsExpansion(queue[0], ops)
    ensures Accounting(queue[1..], enqueued, consumed + [queue[0]], expansions + [ops], batch + ops, flushes)
  {
    assert queue == [queue[0]] + queue[1..];
    assert consumed + [queue[0]] + queue[1..] == consumed + queue;
    ReceivedStatements(flushes, batch, consumed, expansions, queue[0], ops);
  }

  /** Handing the batch to a commit attempt and starting a fresh one keeps every statement accounted for. */
  lemma FlushedAccounting(
    queue: seq<Record>, enqueued: seq<Record>, consumed: seq<Record>,
    expansions: seq<seq<Op>>, batch: seq<Op>, flushes: seq<Flush>, trigger: Trigger, outcome: FlushOutcome)
    requires Accounting(queue, enqueued, consumed, expansions, batch, flushes)
    requires trigger == SizeTrigger ==> |batch| >= BATCH_SIZE
    ensures Accounting(queue, enqueued, consumed, expansions, [], flushes + [Flush(batch, trigger, outcome)])
  {
    var fs := flushes + [Flush(batch, trigger, outcome)];
    assert fs[..|fs| - 1] == flushes;
    assert FlushedOps(fs) + [] == FlushedOps(flushes) + batch;
  }

  class DBClient {
    const loginStr: string

    /** `persistC`: the buffered channel, front first. */
    var queue: seq<Record>
    var queueOpen: bool
    var poolOpen: bool

    /** The persister goroutine's local state. */
    var batch: seq<Op>
    var readyToFinish: bool
    var running: bool

    /** Every record ever sent, every record received, and the statements each received record expanded into. */
    ghost var enqueued: seq<Record>
    ghost var consumed: seq<Record>
    ghost var expansions: seq<seq<Op>>
    /** Every commit attempt, and the lifecycle events so far. */
    ghost var flushes: seq<Flush>
    ghost var trace: seq<Lifecycle>

    /** The object invariant: the state at the top of every loop iteration. */
    ghost predicate Valid()
      reads this
    {
      // the batch is below the size trigger at the top of every iteration
      Consistent() && |batch| < BATCH_SIZE
    }

    /** Everything `Valid` says except the bound on the batch, which a size-triggered flush restores. */
    ghost predicate Consistent()
      reads this
    {
      && Accounted()
      && (running ==> poolOpen && queueOpen)
      && (!running ==> readyToFinish)
    }

    /** Where every record and every statement is: the part of the invariant the flags do not touch. */
    ghost predicate Accounted()
      reads this`queue, this`enqueued, this`consumed, this`expansions, this`batch, this`flushes
    {
      Accounting(queue, enqueued, consumed, expansions, batch, flushes)
    }

    /** The client just built by `NewDBClient`, with its persister launched. */
    constructor (loginStr: string)
      ensures Valid()
      ensures this.loginStr == loginStr
      ensures queue == [] && queueOpen && poolOpen
      ensures batch == [] && !readyToFinish && running
      ensures enqueued == [] && consumed == [] && expansions == [] && flushes == [] && trace == [PersisterLaunched]
    {
      this.loginStr := loginStr;
      queue, queueOpen, poolOpen := [], true, true;
      batch, readyToFinish, running := [], false, true;
      enqueued, consumed, expansions, flushes := [], [], [], [];
      trace := [PersisterLaunched];
    }

    /**
     * `PersistToDB`: a send on the channel. A send on a full open channel
     * blocks, so the caller only gets here with room left; a send on a
     * closed channel panics and changes nothing.
     */
    method PersistToDB(r: Record) returns (panicked: bool)
      requires Valid()
      requires queueOpen ==> |queue| < QUEUE_CAPACITY
      modifies this`queue, this`enqueued
      ensures Valid()
      ensures panicked == !queueOpen
      ensures !panicked ==> queue == old(queue) + [r] && enqueued == old(enqueued) + [r]
      ensures panicked ==> queue == old(queue) && enqueued == old(enqueued)
    {
      panicked := !queueOpen;
      if !panicked {
        SentAccounting(queue, enqueued, consumed, expansions, batch, flushes, r);
        queue := queue + [r];
        enqueued := enqueued + [r];
      }
    }

    /** `persistBatchFn` followed by the reset to a fresh batch, failed or not. */
    method FlushBatch(trigger: Trigger, db: StoreResponse)
      requires Consistent()
      requires trigger == SizeTrigger ==> |batch| >= BATCH_SIZE
      modifies this`batch, this`flushes
      ensures Valid()
      ensures batch == []
      ensures flushes == old(flushes) + [Flush(old(batch), trigger, FlushResult(old(batch), db))]
    {
      var outcome := PersistBatch(batch, db);
      FlushedAccounting(queue, enqueued, consumed, expansions, batch, flushes, trigger, outcome);
      flushes := flushes + [Flush(batch, trigger, outcome)];
      batch := [];
    }

    /**
     * Receives the front record of the channel and lets the mapping switch
     * append its statements to the batch.
     */
    method ExpandFront()
      requires Valid() && |queue| > 0
      modifies this`queue, this`consumed, this`expansions, this`batch
      ensures queue == old(queue)[1..]
      ensures consumed == old(consumed) + [old(queue)[0]]
      ensures |expansions| == |old(expansions)| + 1 && expansions[..|old(expansions)|] == old(expansions)
      ensures batch == old(batch) + expansions[|expansions| - 1]
      ensures Consistent()
    {
      var r := queue[0];
      var grown := QueueOperations(batch, r);
      var ops := grown[|batch|..];
      assert grown == batch + ops;
      ReceivedAccounting(queue, enqueued, consumed, expansions, batch, flushes, ops);
      queue := queue[1..];
      consumed := consumed + [r];
      expansions := expansions + [ops];
      batch := grown;
    }

    /**
     * The record case of the blocking select: the mapping switch appends the
     * record's statements, then the size trigger is checked.
     */
    method ReceiveRecord(db: StoreResponse)
      requires Valid() && |queue| > 0
      modifies this`queue, this`consumed, this`expansions, this`batch, this`flushes
      ensures Valid()
      ensures queue == old(queue)[1..]
      ensures consumed == old(consumed) + [old(queue)[0]]
      ensures |expansions| == |old(expansions)| + 1 && expansions[..|old(expansions)|] == old(expansions)
      ensures var grown := old(batch) + expansions[|expansions| - 1];
              && (IsReadyToPersist(grown) ==>
                    batch == [] && flushes == old(flushes) + [Flush(grown, SizeTrigger, FlushResult(grown, db))])
              && (!IsReadyToPersist(grown) ==> batch == grown && flushes == old(flushes))
    {
      ExpandFront();
      if IsReadyToPersist(batch) {
        FlushBatch(SizeTrigger, db);
      }
    }

    /**
     * One iteration of `persistingLoop`. `signal` is what the priority select
     * receives; `wake` is the case the blocking select takes (a record only
     * when one is queued); `db` is how the store answers, should this
     * iteration flush.
     */
    method Step(signal: Signal, wake: Wake, db: StoreResponse) returns (exited: bool)
      requires Valid() && running
      requires wake == Receive ==> |queue| > 0
      modifies this
      ensures Valid()
      ensures queueOpen == old(queueOpen) && poolOpen == old(poolOpen)
      ensures enqueued == old(enqueued)
      // the loop ends only once the flag is set and the channel is empty, and the exit does not flush
      ensures exited <==> old(readyToFinish) && |old(queue)| == 0
      ensures exited ==> !running && batch == old(batch) && flushes == old(flushes)
      ensures exited ==> queue == old(queue) && consumed == old(consumed) && expansions == old(expansions)
      ensures exited ==> trace == old(trace) + [PersisterExited]
      // the shutdown flag is set by either signal and never cleared
      ensures !exited ==> running && readyToFinish == (old(readyToFinish) || signal != NoSignal)
      ensures !exited ==> trace == old(trace) + if signal == NoSignal then [] else [ShutdownSignal(signal)]
      // a record: its statements are appended, then the size trigger is checked
      ensures !exited && wake == Receive ==>
                && queue == old(queue)[1..]
                && consumed == old(consumed) + [old(queue)[0]]
                && |expansions| == |old(expansions)| + 1 && expansions[..|old(expansions)|] == old(expansions)
                && var grown := old(batch) + expansions[|expansions| - 1];
                && (IsReadyToPersist(grown) ==>
                      batch == [] && flushes == old(flushes) + [Flush(grown, SizeTrigger, FlushResult(grown, db))])
                && (!IsReadyToPersist(grown) ==> batch == grown && flushes == old(flushes))
      // a tick: whatever has accumulated is flushed, and the batch is reset even if the flush failed
      ensures !exited && wake == Tick ==>
                && queue == old(queue) && consumed == old(consumed) && expansions == old(expansions)
                && batch == []
                && flushes == old(flushes) + [Flush(old(batch), TimerTrigger, FlushResult(old(batch), db))]
    {
      if readyToFinish && |queue| == 0 {
        running := false;
        trace := trace + [PersisterExited];
        return true;
      }
      exited := false;
      if signal != NoSignal {
        readyToFinish := true;
        trace := trace + [ShutdownSignal(signal)];
      }
      Await(wake, db);
    }

    /** The blocking select of an iteration that did not exit. */
    method Await(wake: Wake, db: StoreResponse)
      requires Valid() && running
      requires wake == Receive ==> |queue| > 0
      modifies this`queue, this`consumed, this`expansions, this`batch, this`flushes
      ensures Valid()
      ensures wake == Receive ==>
                && queue == old(queue)[1..]
                && consumed == old(consumed) + [old(queue)[0]]
                && |expansions| == |old(expansions)| + 1 && expansions[..|old(expansions)|] == old(expansions)
                && var grown := old(batch) + expansions[|expansions| - 1];
                && (IsReadyToPersist(grown) ==>
                      batch == [] && flushes == old(flushes) + [Flush(grown, SizeTrigger, FlushResult(grown, db))])
                && (!IsReadyToPersist(grown) ==> batch == grown && flushes == old(flushes))
      ensures wake == Tick ==>
                && queue == old(queue) && consumed == old(consumed) && expansions == old(expansions)
                && batch == []
                && flushes == old(flushes) + [Flush(old(batch), TimerTrigger, FlushResult(old(batch), db))]
    {
      match wake
      case Receive =>
        ReceiveRecord(db);
      case Tick =>
        FlushBatch(TimerTrigger, db);
    }

    /**
     * The rest of the persister's run once the flag is set and no producer
     * sends: it receives what is queued, then leaves the loop without a
     * final flush. `stores(i)` answers the flush of the i-th iteration.
     */
    method Drain(stores: nat -> StoreResponse)
      requires Valid() && running && readyToFinish
      modifies this
      ensures Valid() && !running && queue == []
      ensures enqueued == old(enqueued) && poolOpen == old(poolOpen) && queueOpen == old(queueOpen)
      ensures trace == old(trace) + [PersisterExited]
      ensures |old(queue)| == 0 ==> batch == old(batch) && flushes == old(flushes)
      // earlier attempts stay, and every attempt added is size-triggered: no timer flush, no final flush
      ensures SizeFlushesSince(old(flushes), flushes)
    {
      var i := 1;
      var exited := false;
      while running
        invariant Valid() && readyToFinish
        invariant enqueued == old(enqueued) && poolOpen == old(poolOpen) && queueOpen == old(queueOpen)
        invariant running ==> trace == old(trace)
        invariant !running ==> trace == old(trace) + [PersisterExited] && queue == []
        invariant |old(queue)| == 0 ==> batch == old(batch) && flushes == old(flushes) && queue == []
        invariant SizeFlushesSince(old(flushes), flushes)
        decreases if running then |queue| + 1 else 0
      {
        var wake := if |queue| > 0 then Receive else Tick;
        exited := Step(NoSignal, wake, stores(i));
        i := i + 1;
      }
    }

    /**
     * `Close`: sends on the unbuffered done channel, waits for the persister
     * to leave its loop, closes the pool, then closes the persist channel.
     *
     * The send is only ever received by a persister still in its loop that
     * reaches the priority check: a persister that has stopped, or that will
     * stop at its next iteration (flag set, channel empty), never takes it,
     * and `Close` blocks for ever (`completed` is false). The drain resolves
     * the goroutines' scheduling one way: no producer sends meanwhile, the
     * signal is taken at the next priority check, and a queued record is
     * preferred to a tick. `stores(i)` answers the i-th iteration's flush.
     */
    method Close(stores: nat -> StoreResponse) returns (completed: bool)
      requires Valid()
      modifies this
      ensures Valid()
      ensures enqueued == old(enqueued)
      ensures completed <==> old(running) && !(old(readyToFinish) && |old(queue)| == 0)
      ensures !completed ==> poolOpen == old(poolOpen) && queueOpen == old(queueOpen)
      ensures !completed && old(running) ==> !running && trace == old(trace) + [PersisterExited]
      ensures !completed && old(running) ==> batch == old(batch) && flushes == old(flushes)
      ensures !old(running) ==> trace == old(trace) && flushes == old(flushes)
      // signal, wait for the persister, then the pool, then the channel
      ensures completed ==> trace == old(trace) + [ShutdownSignal(CloseRequested), PersisterExited, PoolClosed, QueueClosed]
      ensures completed ==> !running && !poolOpen && !queueOpen
      // every record sent before Close was received and expanded
      ensures completed ==> queue == [] && consumed == enqueued
      // with nothing queued, the signal is followed by a tick that flushes the pending batch
      ensures completed && |old(queue)| == 0 ==> batch == []
      ensures completed && |old(queue)| == 0 ==>
                flushes == old(flushes) + [Flush(old(batch), TimerTrigger, FlushResult(old(batch), stores(0)))]
      // with records queued, every attempt after the signal is size-triggered: leaving does not flush
      ensures completed && |old(queue)| > 0 ==> SizeFlushesSince(old(flushes), flushes)
    {
      if !running {
        return false;
      }
      if readyToFinish && |queue| == 0 {
        var _ := Step(NoSignal, Tick, stores(0));
        return false;
      }
      ShutDown(stores);
      CloseResources();
      completed := true;
    }

    /**
     * The part of `Close` that waits: the persister takes the done signal at
     * its next priority check, then drains the channel and leaves its loop.
     */
    method ShutDown(stores: nat -> StoreResponse)
      requires Valid() && running && !(readyToFinish && |queue| == 0)
      modifies this
      ensures Valid() && !running && queue == []
      ensures enqueued == old(enqueued) && poolOpen == old(poolOpen) && queueOpen == old(queueOpen)
      ensures trace == old(trace) + [ShutdownSignal(CloseRequested), PersisterExited]
      // with nothing queued, the blocking select can only take the tick, which flushes the pending batch
      ensures |old(queue)| == 0 ==>
                batch == [] && flushes == old(flushes) + [Flush(old(batch), TimerTrigger, FlushResult(old(batch), stores(0)))]
      // with records queued, every attempt after the signal is size-triggered: leaving does not flush
      ensures |old(queue)| > 0 ==> SizeFlushesSince(old(flushes), flushes)
    {
      var idle := |queue| == 0;
      var exited := Step(CloseRequested, if idle then Tick else Receive, stores(0));
      assert !exited;
      ghost var signalled := flushes;
      Drain(stores);
      if !idle {
        SizeFlushesCompose(old(flushes), signalled, flushes);
      }
    }

    /** The end of `Close`, once the persister has left its loop: the pool is closed, then the persist channel. */
    method CloseResources()
      requires Valid() && !running
      modifies this`poolOpen, this`queueOpen, this`trace
      ensures Valid()
      ensures !poolOpen && !queueOpen
      ensures trace == old(trace) + [PoolClosed, QueueClosed]
    {
      poolOpen := false;
      trace := trace + [PoolClosed];
      queueOpen := false;
      trace := trace + [QueueClosed];
    }
  }

  /**
   * `NewDBClient`: an empty login string is refused before anything else;
   * then the connection, the ping and (when asked for) the table setup may
   * fail, and only after all of them is the persister launched. The three
   * error arguments are the answers of those foreign calls.
   */
  method NewDBClient(
    loginStr: string,
    initialized: bool,
    connectError: Option<string>,
    pingError: Option<string>,
    initError: Option<string>)
    returns (client: DBClient?, err: Option<ClientError>)
    ensures client == null <==> err.Some?
    ensures |loginStr| > 0 && connectError.None? && pingError.None? && (!initialized || initError.None?) ==> err.None?
    ensures |loginStr| == 0 ==> err == Some(EmptyEndpoint)
    ensures |loginStr| > 0 && connectError.Some? ==> err == Some(ConnectFailed(connectError.value))
    ensures |loginStr| > 0 && connectError.None? && pingError.Some? ==> err == Some(PingFailed(pingError.value))
    ensures |loginStr| > 0 && connectError.None? && pingError.None? && initialized && initError.Some? ==>
              err == Some(InitTablesFailed(initError.value))
    ensures client != null ==>
              && fresh(client) && client.Valid() && client.loginStr == loginStr
              && client.running && client.queue == [] && client.batch == [] && !client.readyToFinish
              && client.trace == [PersisterLaunched]
              && client.enqueued == [] && client.consumed == [] && client.expansions == [] && client.flushes == []
  {
    if |loginStr| == 0 {
      return null, Some(EmptyEndpoint);
    }
    if connectError.Some? {
      return null, Some(ConnectFailed(connectError.value));
    }
    if pingError.Some? {
      return null, Some(PingFailed(pingError.value));
    }
    if initialized && initError.Some? {
      return null, Some(InitTablesFailed(initError.value));
    }
    client := new DBClient(loginStr);
    err := None;
  }

  /** Every commit attempt holds exactly the statements of the records received, each record's statements contiguous and in receiving order. */
  lemma AccountedStatements(flushes: seq<Flush>, batch: seq<Op>, received: seq<Record>, expansions: seq<seq<Op>>)
    requires Expanded(received, expansions)
    requires FlushedOps(flushes) + batch == Concat(expansions)
    ensures |FlushedOps(flushes)| + |batch| == TotalFanOut(received)
  {
    ConcatSize(received, expansions);
  }
  /** Appending a received record's statements to the batch keeps every statement accounted for. */
  lemma ReceivedStatements(flushes: seq<Flush>, batch: seq<Op>, received: seq<Record>, expansions: seq<seq<Op>>, r: Record, ops: seq<Op>)
    requires Expanded(received, expansions)
    requires FlushedOps(flushes) + batch == Concat(expansions)
    requires IsExpansion(r, ops)
    ensures Expanded(received + [r], expansions + [ops])
    ensures FlushedOps(flushes) + (batch + ops) == Concat(expansions + [ops])
  {
    ConcatAppend(expansions, [ops]);
    assert Concat([ops]) == Concat([]) + ops;
    ExpandedAppend(received, expansions, r, ops);
  }
}
