# wpool: the WorkerPool's sequential bookkeeping

This project models the part of the `wpool` worker pool (package `wpool`, file
`pool.go`) that does not depend on goroutines, and proves properties of it:

- **Configuration.** The functional options `WithNumWorkers` and `WithBufferSize`
  clamp their value from above to 1000. `New` starts from 2 workers and a buffer
  of 10, then calls the options in order. Module `Options` holds this pure
  logic. The package's two option closures are a datatype `Option`, and their
  effect on the two fields is the function `Apply`. An argument of `New` is an
  `OptionValue`: a nil function value, which `New` panics on calling, or one
  of those closures.
- **Allocation.** `New` then makes the task channel with capacity `bufferSize`
  and a slice of `nWorkers` zero-valued worker slots. Go's `make` panics on a
  negative size. The model returns each panic of `New` as `Panicked(reason)`:
  a nil option, then the channel's `make`, then the slice's, in the order the
  code reaches them.
- **Submission.** `AddTask` sends on the buffered channel. Module `TaskQueue`
  models the channel as a class with a fixed `capacity` and a `seq<Task>`
  buffer that never grows past it.
- **Run.** `Run` fills slot `i` with a worker whose ID is `i + 1` and which
  shares the pool's own channel object.
- **Stop's grace period.** The grace period is `nWorkers * 10ms`, clamped to 3s.
  It is computed in int64 nanoseconds, and the model writes the int64
  wrap-around out.

The code clamps only from above (`pool.go:22-26`, `pool.go:35-39`): a zero or
negative value is stored as given, and a negative value then makes `New` panic.

## Model

| member | source | states |
|---|---|---|
| `Options.ClampAbove` | pool.go:22-24 | the clamped value is the minimum of the value and the bound; anything at or below the bound, zero and negatives included, is kept |
| `Options.Apply` | pool.go:20-41 | `WithNumWorkers(n)` sets the worker count to `n` when `n <= 1000` and to 1000 above it, and leaves the buffer size alone; `WithBufferSize(b)` does the same for the buffer size and leaves the worker count alone |
| `Options.ApplyAll` | pool.go:67-69 | applying options in order keeps both fields at or below 1000 when they start there |
| `Options.Configure` | pool.go:61-69 | with no options a pool has 2 workers and a buffer of 10; with any options both fields end at or below 1000 |
| `Options.LastNumWorkersWins` | pool.go:67-69 | the last `WithNumWorkers` option alone decides the worker count, whatever came before it and whatever buffer-size options follow |
| `Options.NoNumWorkersKeepsCount` | pool.go:62-69 | when no `WithNumWorkers` option is given, the worker count is the starting one (the default 2 in `New`) |
| `Options.LastBufferSizeWins` | pool.go:67-69 | the last `WithBufferSize` option alone decides the buffer size |
| `Options.NoBufferSizeKeepsSize` | pool.go:62-69 | when no `WithBufferSize` option is given, the buffer size is the starting one (the default 10 in `New`) |
| `TaskQueue.Channel.constructor` | pool.go:71 | a newly made channel is empty and has the requested capacity |
| `TaskQueue.Channel.Send` | pool.go:81 | a send that finds room appends the task at the tail and keeps the length within the capacity |
| `TaskQueue.Channel.TrySend` | pool_test.go:113-118 | a send with a `default` case succeeds exactly when the channel is not full; on success the task is at the tail, otherwise the channel is unchanged |
| `TaskQueue.Channel.Receive` | worker.go:26 | a receive takes the head of the queue, so tasks leave in the order they were sent |
| `TaskQueue.FifoOrder` | worker.go:26 | on an empty channel, two sends followed by two receives give back the tasks in the order they were sent and leave the channel empty |
| `Pool.WrapInt64` | pool.go:104 | the result is a 64-bit signed value, congruent to the exact one modulo 2^64 and equal to it when it is in range |
| `Pool.GracePeriod` | pool.go:104-108 | the grace period never exceeds 3s; for any worker count whose product fits in int64, negative counts included, it equals 3s exactly when there are at least 300 workers and is 10ms per worker below that; for a non-negative count whose product fits in int64 it is non-negative |
| `Pool.WorkerPool.constructor` | pool.go:62-65 | the pool starts with 2 workers, a buffer of 10, and no channel or slots yet |
| `Pool.WorkerPool.AddTask` | pool.go:80-82 | on a channel with room, the task is appended at the tail; counts, capacity and slots are unchanged |
| `Pool.WorkerPool.Run` | pool.go:88-96 | every slot `i` below `nWorkers` holds the worker with ID `i + 1` and the pool's own channel; the queued tasks are unchanged |
| `Pool.WorkerPool.StopTimeout` | pool.go:103-108 | for a pool built by `New`, the grace period is between 0 and 3s, is 3s exactly when `nWorkers >= 300`, and is `nWorkers * 10ms` below that |
| `Pool.Closures` | pool.go:15 | a sequence of non-nil option values holds exactly one closure per argument, in the same order |
| `Pool.New` | pool.go:61-75 | a nil option makes `New` panic. Without one, `New` succeeds exactly when the configured counts are non-negative. On success it gives a fresh pool whose fields are the options applied in order, with an empty channel of capacity `bufferSize` and exactly `nWorkers` zero-valued slots. Otherwise it reports the panic of the first `make` that fails |

## Left out

- Worker goroutines (`worker.go`: `Start`, the `select` between a task and the quit signal, and the blocking `Stop`). They are concurrency and scheduling nondeterminism. The model fills the slots but does not start the workers.
- A worker's private `quit` channel. `Worker` keeps only its ID and its task channel.
- `Task.Do`, the work closure, the `sync.WaitGroup` and the `uuid` call that generates IDs (`task.go`). They are foreign code with no logic of their own. A `Task` is modelled by its ID alone.
- In `stop`, the sequential `Stop` calls on the workers and the `context.WithDeadline` wait (`pool.go:110-119`). These are channel handshakes and wall-clock waiting, so only the computed grace period is modelled. `Run` does not return the stop function; `StopTimeout` stands for it.
- Pool.WorkerPool.AddTask: a send on a full channel blocks until a worker receives. A sequential model cannot wait, so the method requires room in the channel. With a buffer size of 0 the channel is unbuffered, and a Go send completes only by handing the task to a waiting worker; in the model `AddTask` is never enabled on such a pool.
- Options.Option: only the package's two option constructors are modelled. An option written by a caller is any `func(*WorkerPool)` and can change the pool in any way, so it is not modelled; a nil option is, as a panic of `New`.
- A `WorkerPool` built directly as a struct literal with mismatched fields, as some tests do. Every pool in this model comes from `New`.
- Go's `make` also panics on sizes beyond the allocator's limit. Sizes here are at most 1000, so this is not modelled.
