// The integer rules of the write path: when a worker flushes, how it reports
// its load, and which insert mode a destination uses for a batch.
module Policy {
  import opened Environment
  import opened Root
  import Decimal

  /** What FinalizeAndSend tells the worker pool. */
  datatype WorkerStatus = WorkerStatusOK | WorkerStatusOverloaded | WorkerStatusUnderloaded

  /** A time.Time reading in nanosecond ticks, or the zero time.Time. */
  datatype Timestamp = ZeroTime | At(ticks: int)

  /** Bounds of a time.Duration (int64 nanoseconds). */
  const MaxDuration: int := 0x7FFF_FFFF_FFFF_FFFF
  const MinDuration: int := -0x8000_0000_0000_0000

  const NanosPerMilli: nat := 1_000_000

  /**
   * now.Sub(last): the elapsed duration, saturated to the Duration range.
   * From the zero time.Time any present-day reading is further away than
   * a Duration can hold, so the result is the largest Duration.
   */
  function Since(now: int, last: Timestamp): (d: int)
    ensures MinDuration <= d <= MaxDuration
    ensures last == ZeroTime ==> d == MaxDuration
    ensures last.At? && MinDuration <= now - last.ticks <= MaxDuration ==> d == now - last.ticks
    ensures last.At? && now - last.ticks > MaxDuration ==> d == MaxDuration
    ensures last.At? && now - last.ticks < MinDuration ==> d == MinDuration
  {
    match last
    case ZeroTime => MaxDuration
    case At(t) =>
      if now - t > MaxDuration then MaxDuration
      else if now - t < MinDuration then MinDuration
      else now - t
  }

  /** The flush trigger of FinalizeAndSend, on the primary's thresholds. */
  predicate ShouldFlush(batchSize: nat, waitTime: int, primary: Configuration) {
    batchSize >= primary.maximumBatchSize || waitTime >= primary.maximumWaitTime
  }

  /** A batch small enough to count as light load and to be inserted asynchronously. */
  predicate IsSmallBatch(flowCount: nat, config: Configuration, divider: nat)
    requires divider > 0
  {
    flowCount <= config.maximumBatchSize / divider
  }

  /**
   * A batch is small exactly when divider batches of its size fit within
   * MaximumBatchSize: the rounded-down division loses no small batch and
   * admits no larger one.
   */
  lemma SmallBatchFits(flowCount: nat, config: Configuration, divider: nat)
    requires divider > 0
    ensures IsSmallBatch(flowCount, config, divider) <==> flowCount * divider <= config.maximumBatchSize
  {
    FloorDivBound(flowCount, config.maximumBatchSize, divider);
  }

  /** n is at most m / d, rounded down, exactly when n copies of d fit in m. */
  lemma FloorDivBound(n: nat, m: nat, d: nat)
    requires d > 0
    ensures n <= m / d <==> n * d <= m
  {
    var q, r := m / d, m % d;
    assert m == q * d + r && 0 <= r < d;
    if n <= q {
      assert n * d <= q * d by { MulMono(n, q, d); }
    } else {
      assert (q + 1) * d <= n * d by { MulMono(q + 1, n, d); }
    }
  }

  lemma MulMono(a: nat, b: nat, d: nat)
    requires a <= b
    ensures a * d <= b * d
  {
  }

  /**
   * The load reported after a triggered flush. The three cases are
   * exclusive and exhaustive, and being overloaded takes precedence.
   */
  function Classify(batchSize: nat, primary: Configuration, divider: nat): (s: WorkerStatus)
    requires divider > 0
    ensures s == WorkerStatusOverloaded <==> batchSize >= primary.maximumBatchSize
    ensures s == WorkerStatusUnderloaded <==>
              batchSize < primary.maximumBatchSize && batchSize <= primary.maximumBatchSize / divider
    ensures s == WorkerStatusOK <==>
              primary.maximumBatchSize / divider < batchSize < primary.maximumBatchSize
  {
    if batchSize >= primary.maximumBatchSize then WorkerStatusOverloaded
    else if IsSmallBatch(batchSize, primary, divider) then WorkerStatusUnderloaded
    else WorkerStatusOK
  }

  /**
   * The status FinalizeAndSend returns: overloaded exactly when the batch
   * reached the size threshold; underloaded only after a flush forced by the
   * wait time on a small batch; OK when nothing was flushed or the batch was
   * of moderate size.
   */
  function Decide(batchSize: nat, waitTime: int, primary: Configuration, divider: nat): (s: WorkerStatus)
    requires divider > 0
    ensures s == WorkerStatusOverloaded <==> batchSize >= primary.maximumBatchSize
    ensures s == WorkerStatusUnderloaded <==>
              batchSize < primary.maximumBatchSize && waitTime >= primary.maximumWaitTime &&
              IsSmallBatch(batchSize, primary, divider)
    ensures s == WorkerStatusOK <==>
              !ShouldFlush(batchSize, waitTime, primary) ||
              primary.maximumBatchSize / divider < batchSize < primary.maximumBatchSize
  {
    if ShouldFlush(batchSize, waitTime, primary) then Classify(batchSize, primary, divider) else WorkerStatusOK
  }

  /**
   * Without any destination the primary configuration is the zero one:
   * every evaluation flushes and reports an overloaded worker.
   */
  lemma ZeroPrimaryAlwaysOverloaded(batchSize: nat, waitTime: int, divider: nat)
    requires divider > 0
    ensures ShouldFlush(batchSize, waitTime, ZeroConfiguration)
    ensures Decide(batchSize, waitTime, ZeroConfiguration, divider) == WorkerStatusOverloaded
  {
  }

  /**
   * For a batch below the size threshold, the primary destination inserts
   * asynchronously exactly when the flush reports an underloaded worker.
   */
  lemma AsyncIffUnderloaded(batchSize: nat, primary: Configuration, divider: nat)
    requires divider > 0 && batchSize < primary.maximumBatchSize
    ensures IsSmallBatch(batchSize, primary, divider) <==>
              Classify(batchSize, primary, divider) == WorkerStatusUnderloaded
  {
  }

  /** Duration.Milliseconds() of a non-negative duration: the whole milliseconds it holds. */
  function Milliseconds(d: nat): (ms: nat)
    ensures ms * NanosPerMilli <= d < (ms + 1) * NanosPerMilli
  {
    d / NanosPerMilli
  }

  /**
   * The settings of an asynchronous insert: async_insert and
   * wait_for_async_insert forced on, and a busy timeout equal to the
   * destination's maximum wait time in milliseconds, written in decimal.
   */
  function AsyncSettings(config: Configuration): (r: seq<Setting>)
    ensures |r| == 3
    ensures r[0] == Setting("async_insert", "1", true)
    ensures r[1] == Setting("wait_for_async_insert", "1", true)
    ensures r[2].key == "async_insert_busy_timeout_max_ms" && !r[2].important
    ensures Decimal.IsDigits(r[2].value) &&
            Decimal.ParseUint(r[2].value) == Milliseconds(config.maximumWaitTime)
  {
    var timeout := Decimal.FormatUint(Milliseconds(config.maximumWaitTime));
    Decimal.ParseFormat(Milliseconds(config.maximumWaitTime));
    [ Setting("async_insert", "1", true),
      Setting("wait_for_async_insert", "1", true),
      Setting("async_insert_busy_timeout_max_ms", timeout, false) ]
  }

  /**
   * The settings one destination sends a batch with: its asynchronous
   * settings when the batch is small by that destination's own threshold,
   * none otherwise.
   */
  function SettingsFor(flowCount: nat, config: Configuration, divider: nat, asyncSettings: seq<Setting>): (r: seq<Setting>)
    requires divider > 0
    ensures IsSmallBatch(flowCount, config, divider) ==> r == asyncSettings
    ensures !IsSmallBatch(flowCount, config, divider) ==> r == []
  {
    if IsSmallBatch(flowCount, config, divider) then asyncSettings else []
  }
}
