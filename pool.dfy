/**
 * The WorkerPool: construction with options, task submission, filling the
 * worker slots, and the grace period of the stop function.
 */
module Pool {
  import opened Options
  import opened TaskQueue

  /** Go durations are int64 nanoseconds. */
  const Millisecond := 1_000_000
  const Second := 1_000_000_000
  /** The grace period stop allows per worker. */
  const GraceStep := 10 * Millisecond
  /** The longest grace period stop waits. */
  const MaxGrace := 3 * Second

  const MinInt64 := -0x8000_0000_0000_0000
  const MaxInt64 := 0x7fff_ffff_ffff_ffff

  /** Two's-complement wrap-around of a 64-bit signed result. */
  function WrapInt64(x: int): (r: int)
    ensures MinInt64 <= r <= MaxInt64
    ensures MinInt64 <= x <= MaxInt64 ==> r == x
    ensures (x - r) % 0x1_0000_0000_0000_0000 == 0
  {
    (x - MinInt64) % 0x1_0000_0000_0000_0000 + MinInt64
  }

  /**
   * The grace period of stop, in nanoseconds: ten milliseconds per worker,
   * at most three seconds. The product is an int64 multiplication.
   */
  function GracePeriod(nWorkers: int): (timeout: int)
    ensures timeout <= MaxGrace
    ensures -(MaxInt64 / GraceStep) <= nWorkers <= MaxInt64 / GraceStep ==>
      && (timeout == MaxGrace <==> nWorkers >= 300)
      && (nWorkers < 300 ==> timeout == nWorkers * GraceStep)
    ensures 0 <= nWorkers <= MaxInt64 / GraceStep ==> 0 <= timeout
  {
    var timeout := WrapInt64(nWorkers * GraceStep);
    if timeout > MaxGrace then MaxGrace else timeout
  }

  /**
   * A worker slot: the worker's ID and the channel it reads tasks from.
   * Its private quit channel is not part of this model.
   */
  datatype Worker = Worker(id: int, taskBuffer: Channel?)

  /** The zero value `make` puts in every slot. */
  const IdleWorker := Worker(0, null)

  /**
   * An argument to New: Go's `Option` is a function value, which may be nil.
   * A non-nil one is one of the package's option closures.
   */
  datatype OptionValue = NilOption | Closure(option: Option)

  /** The closures a sequence of arguments holds, when none of them is nil. */
  function Closures(opts: seq<OptionValue>): (r: seq<Option>)
    requires forall i :: 0 <= i < |opts| ==> opts[i].Closure?
    ensures |r| == |opts|
    ensures forall i :: 0 <= i < |opts| ==> opts[i] == Closure(r[i])
  {
    seq(|opts|, i requires 0 <= i < |opts| && opts[i].Closure? => opts[i].option)
  }

  /**
   * The runtime panics of New: calling a nil option, and `make` with a
   * negative size.
   */
  datatype Panic = NilOptionCall | MakeChanSizeOutOfRange | MakeSliceLenOutOfRange

  /** What New ends with: a pool, or the panic of one of its `make` calls. */
  datatype NewResult = Created(pool: WorkerPool) | Panicked(reason: Panic)

  class WorkerPool {
    var nWorkers: int
    var bufferSize: int
    var workers: array?<Worker>
    var taskBufferedChannel: Channel?

    /**
     * A pool as New builds it: counts within their bounds, a channel whose
     * capacity is the buffer size, and one slot per worker.
     */
    ghost predicate Valid()
      reads this, taskBufferedChannel
    {
      && taskBufferedChannel != null && workers != null
      && 0 <= nWorkers <= MaxWorkers && 0 <= bufferSize <= MaxBufferSize
      && taskBufferedChannel.Valid() && taskBufferedChannel.capacity == bufferSize
      && workers.Length == nWorkers
    }

    /** The fields the options write. */
    function Settings(): Config
      reads this
    {
      Config(nWorkers, bufferSize)
    }

    /** The struct literal New starts from: default counts, nothing allocated. */
    constructor ()
      ensures nWorkers == DefaultWorkers && bufferSize == DefaultBufferSize
      ensures workers == null && taskBufferedChannel == null
    {
      nWorkers := DefaultWorkers;
      bufferSize := DefaultBufferSize;
      workers := null;
      taskBufferedChannel := null;
    }

    /**
     * Enqueues a task. A full channel blocks the caller until a worker takes
     * a task; a sequential model cannot proceed there, so room is required.
     */
    method AddTask(task: Task)
      requires Valid()
      requires |taskBufferedChannel.buf| < taskBufferedChannel.capacity
      modifies taskBufferedChannel
      ensures Valid()
      ensures taskBufferedChannel.buf == old(taskBufferedChannel.buf) + [task]
    {
      taskBufferedChannel.Send(task);
    }

    /**
     * Fills every worker slot in order: slot i gets ID i + 1 and the pool's
     * own channel. Starting the workers' goroutines is not part of this model.
     */
    method Run()
      requires Valid()
      modifies workers
      ensures Valid()
      ensures forall i :: 0 <= i < nWorkers ==> workers[i] == Worker(i + 1, taskBufferedChannel)
      ensures taskBufferedChannel.buf == old(taskBufferedChannel.buf)
    {
      for i := 0 to nWorkers
        invariant forall j :: 0 <= j < i ==> workers[j] == Worker(j + 1, taskBufferedChannel)
      {
        workers[i] := Worker(i + 1, taskBufferedChannel);
      }
    }

    /**
     * The grace period stop waits after stopping the workers: GracePeriod
     * of this pool's worker count, whose contract this method specialises
     * to the counts New allows. The worker handshakes and the wait itself
     * are not part of this model.
     */
    method StopTimeout() returns (timeout: int)
      requires Valid()
      ensures 0 <= timeout <= MaxGrace
      ensures timeout == MaxGrace <==> nWorkers >= 300
      ensures nWorkers < 300 ==> timeout == nWorkers * GraceStep
    {
      timeout := GracePeriod(nWorkers);
    }
  }

  /**
   * New: start from the defaults, call the options in order, then make the
   * channel and the worker slots. Calling a nil option panics; `make`
   * panics on a negative size, the channel being made first.
   */
  method New(opts: seq<OptionValue>) returns (r: NewResult)
    ensures (exists i :: 0 <= i < |opts| && opts[i].NilOption?) ==> r == Panicked(NilOptionCall)
    ensures (forall i :: 0 <= i < |opts| ==> opts[i].Closure?) ==>
      var c := Configure(Closures(opts));
      && (r.Created? <==> c.nWorkers >= 0 && c.bufferSize >= 0)
      && (r.Panicked? ==>
            r.reason == if c.bufferSize < 0 then MakeChanSizeOutOfRange else MakeSliceLenOutOfRange)
      && (r.Created? ==>
            var d := r.pool;
            && fresh(d) && fresh(d.taskBufferedChannel) && fresh(d.workers)
            && d.Valid()
            && d.Settings() == c
            && d.taskBufferedChannel.buf == [] && d.taskBufferedChannel.capacity == d.bufferSize
            && d.workers.Length == d.nWorkers
            && forall i :: 0 <= i < d.workers.Length ==> d.workers[i] == IdleWorker)
  {
    var d := new WorkerPool();
    for i := 0 to |opts|
      invariant forall j :: 0 <= j < i ==> opts[j].Closure?
      invariant d.Settings() == ApplyAll(Defaults, Closures(opts[..i]))
      invariant d.workers == null && d.taskBufferedChannel == null
    {
      if opts[i].NilOption? {
        return Panicked(NilOptionCall);
      }
      assert Closures(opts[..i + 1])[..i] == Closures(opts[..i]);
      var c := Apply(opts[i].option, d.Settings());
      d.nWorkers, d.bufferSize := c.nWorkers, c.bufferSize;
    }
    assert opts[..|opts|] == opts;

    if d.bufferSize < 0 {
      return Panicked(MakeChanSizeOutOfRange);
    }
    d.taskBufferedChannel := new Channel(d.bufferSize);
    if d.nWorkers < 0 {
      return Panicked(MakeSliceLenOutOfRange);
    }
    d.workers := new Worker[d.nWorkers](_ => IdleWorker);
    r := Created(d);
  }

  /** Construction and submission as the package's tests exercise them. */
  method ClientUse()
  {
    var closures := [WithNumWorkers(5), WithBufferSize(1)];
    var opts := [Closure(closures[0]), Closure(closures[1])];
    assert forall i :: 0 <= i < |opts| ==> opts[i].Closure?;
    assert Closures(opts) == closures;
    assert closures[..1] == [WithNumWorkers(5)] && [WithNumWorkers(5)][..0] == [];
    assert ApplyAll(Defaults, closures[..1]) == Config(5, DefaultBufferSize);
    assert Configure(closures) == Config(5, 1);
    var r := New(opts);
    assert r.Created?;
    var d := r.pool;
    assert d.nWorkers == 5 && d.taskBufferedChannel.capacity == 1;

    d.AddTask(Task("first"));
    assert |d.taskBufferedChannel.buf| == 1;
    var sent := d.taskBufferedChannel.TrySend(Task("second"));
    assert !sent;

    d.Run();
    assert d.workers[4] == Worker(5, d.taskBufferedChannel);
    var timeout := d.StopTimeout();
    assert timeout == 50 * Millisecond;

    assert Closures([Closure(WithNumWorkers(5000))]) == [WithNumWorkers(5000)];
    assert Configure([WithNumWorkers(5000)]) == Config(MaxWorkers, DefaultBufferSize);
    var clamped := New([Closure(WithNumWorkers(5000))]);
    assert clamped.Created? && clamped.pool.nWorkers == MaxWorkers;
    var negative := New([Closure(WithBufferSize(-1))]);
    assert negative == Panicked(MakeChanSizeOutOfRange);
    var nil := New([Closure(WithNumWorkers(3)), NilOption]);
    assert nil == Panicked(NilOptionCall);
  }
}
