/**
 * The configuration of a WorkerPool: the two functional options, their
 * clamps, and the left-to-right application that New performs.
 */
module Options {

  /** Upper bound on the number of workers. */
  const MaxWorkers := 1000
  /** Upper bound on the capacity of the task channel. */
  const MaxBufferSize := 1000

  /** The values New starts from before it applies any option. */
  const DefaultWorkers := 2
  const DefaultBufferSize := 10

  /**
   * A functional option. Each constructor stands for the closure that the
   * option function of the same name returns; `Apply` is what running the
   * closure on a pool does to it.
   */
  datatype Option = WithNumWorkers(nWorkers: int) | WithBufferSize(bufferSize: int)

  /** The two fields of a WorkerPool that the options write. */
  datatype Config = Config(nWorkers: int, bufferSize: int)

  const Defaults := Config(DefaultWorkers, DefaultBufferSize)

  /**
   * The clamp both option closures use: a value above `max` becomes `max`;
   * every other value, zero and negatives included, is kept.
   * The result is the minimum of `v` and `max`.
   */
  function ClampAbove(v: int, max: int): (r: int)
    ensures r <= v && r <= max
    ensures r == v || r == max
  {
    if v > max then max else v
  }

  /** Runs one option closure on a pool whose fields are `c`. */
  function Apply(o: Option, c: Config): (r: Config)
    ensures o.WithNumWorkers? ==>
      && r.bufferSize == c.bufferSize
      && (o.nWorkers <= MaxWorkers ==> r.nWorkers == o.nWorkers)
      && (o.nWorkers > MaxWorkers ==> r.nWorkers == MaxWorkers)
    ensures o.WithBufferSize? ==>
      && r.nWorkers == c.nWorkers
      && (o.bufferSize <= MaxBufferSize ==> r.bufferSize == o.bufferSize)
      && (o.bufferSize > MaxBufferSize ==> r.bufferSize == MaxBufferSize)
  {
    match o
    case WithNumWorkers(n) => c.(nWorkers := ClampAbove(n, MaxWorkers))
    case WithBufferSize(b) => c.(bufferSize := ClampAbove(b, MaxBufferSize))
  }

  /**
   * Applies `opts` to `c` in order, first option first: the result of the
   * whole sequence is the last option applied to the result of the others.
   */
  function ApplyAll(c: Config, opts: seq<Option>): (r: Config)
    ensures c.nWorkers <= MaxWorkers ==> r.nWorkers <= MaxWorkers
    ensures c.bufferSize <= MaxBufferSize ==> r.bufferSize <= MaxBufferSize
    decreases |opts|
  {
    if opts == [] then c
    else Apply(opts[|opts| - 1], ApplyAll(c, opts[..|opts| - 1]))
  }

  /** The fields New ends its option loop with. */
  function Configure(opts: seq<Option>): (r: Config)
    ensures opts == [] ==> r.nWorkers == 2 && r.bufferSize == 10
    ensures r.nWorkers <= MaxWorkers && r.bufferSize <= MaxBufferSize
  {
    ApplyAll(Defaults, opts)
  }

  /** The last WithNumWorkers option decides the worker count. */
  lemma {:induction false} LastNumWorkersWins(c: Config, opts: seq<Option>, k: int)
    requires 0 <= k < |opts| && opts[k].WithNumWorkers?
    requires forall j :: k < j < |opts| ==> !opts[j].WithNumWorkers?
    ensures ApplyAll(c, opts).nWorkers == ClampAbove(opts[k].nWorkers, MaxWorkers)
  {
    var n := |opts| - 1;
    if k < n {
      LastNumWorkersWins(c, opts[..n], k);
    }
  }

  /** Without a WithNumWorkers option the worker count is the one started from. */
  lemma {:induction false} NoNumWorkersKeepsCount(c: Config, opts: seq<Option>)
    requires forall j :: 0 <= j < |opts| ==> !opts[j].WithNumWorkers?
    ensures ApplyAll(c, opts).nWorkers == c.nWorkers
  {
    if opts != [] {
      NoNumWorkersKeepsCount(c, opts[..|opts| - 1]);
    }
  }

  /** The last WithBufferSize option decides the buffer size. */
  lemma {:induction false} LastBufferSizeWins(c: Config, opts: seq<Option>, k: int)
    requires 0 <= k < |opts| && opts[k].WithBufferSize?
    requires forall j :: k < j < |opts| ==> !opts[j].WithBufferSize?
    ensures ApplyAll(c, opts).bufferSize == ClampAbove(opts[k].bufferSize, MaxBufferSize)
  {
    var n := |opts| - 1;
    if k < n {
      LastBufferSizeWins(c, opts[..n], k);
    }
  }

  /** Without a WithBufferSize option the buffer size is the one started from. */
  lemma {:induction false} NoBufferSizeKeepsSize(c: Config, opts: seq<Option>)
    requires forall j :: 0 <= j < |opts| ==> !opts[j].WithBufferSize?
    ensures ApplyAll(c, opts).bufferSize == c.bufferSize
  {
    if opts != [] {
      NoBufferSizeKeepsSize(c, opts[..|opts| - 1]);
    }
  }
}
