/** The consumer's settings: the defaults put in for missing ones, and the retry delay computed from them. */
module Settings {
  import opened Base
  import Messages
  import Worker

  const DEFAULT_PROCESS_TIMEOUT_MS := 5000
  const DEFAULT_RETRY_BASE_DELAY_MS := 100
  const DEFAULT_RETRY_JITTER_MS := 300
  const DEFAULT_MAX_PROCESS_RETRIES := 3
  const DEFAULT_METRICS_FLUSH_SEC := 15
  const DEFAULT_DLQ_TOPIC_SUFFIX := ".dlq"
  const DEFAULT_SHUTDOWN_DRAIN_TIMEOUT_SEC := 60
  const DEFAULT_BATCH_SIZE := 100
  const DEFAULT_BATCH_FLUSH_INTERVAL_SEC := 5

  /** In nanoseconds. */
  const MAX_RETRY_DELAY := 5_000_000_000

  datatype Settings = Settings(
    topic: string,
    dlqTopic: string,
    processTimeoutMs: int,
    retryBaseDelayMs: int,
    retryJitterMs: int,
    maxProcessRetries: int,
    metricsFlushSec: int,
    shutdownDrainTimeoutSec: int,
    batchSize: int,
    batchFlushIntervalSec: int
  )

  function PositiveOr(value: int, fallback: int): int {
    if value <= 0 then fallback else value
  }

  /** normalizeKafkaConfig. */
  function Normalize(s: Settings): Settings {
    Settings(
      s.topic,
      if s.dlqTopic == "" && s.topic != "" then s.topic + DEFAULT_DLQ_TOPIC_SUFFIX else s.dlqTopic,
      PositiveOr(s.processTimeoutMs, DEFAULT_PROCESS_TIMEOUT_MS),
      PositiveOr(s.retryBaseDelayMs, DEFAULT_RETRY_BASE_DELAY_MS),
      PositiveOr(s.retryJitterMs, DEFAULT_RETRY_JITTER_MS),
      if s.maxProcessRetries < 0 then DEFAULT_MAX_PROCESS_RETRIES else s.maxProcessRetries,
      PositiveOr(s.metricsFlushSec, DEFAULT_METRICS_FLUSH_SEC),
      PositiveOr(s.shutdownDrainTimeoutSec, DEFAULT_SHUTDOWN_DRAIN_TIMEOUT_SEC),
      PositiveOr(s.batchSize, DEFAULT_BATCH_SIZE),
      PositiveOr(s.batchFlushIntervalSec, DEFAULT_BATCH_FLUSH_INTERVAL_SEC))
  }

  /** Settings the consumer can run with: no ticker, channel or loop bound of it is out of range. */
  predicate Usable(s: Settings) {
    && s.processTimeoutMs > 0 && s.retryBaseDelayMs > 0 && s.retryJitterMs > 0 && s.maxProcessRetries >= 0
    && s.metricsFlushSec > 0 && s.shutdownDrainTimeoutSec > 0 && s.batchSize > 0 && s.batchFlushIntervalSec > 0
    && (s.dlqTopic == "" ==> s.topic == "")
  }

  /** What the worker sees of the settings. */
  function WorkerConfig(s: Settings, parse: Messages.Parser, hasWriter: bool): Worker.Config {
    Worker.Config(parse, s.batchSize, s.maxProcessRetries, hasWriter, false)
  }

  /** What each missing setting becomes; a missing dead-letter topic is named after the topic. */
  lemma MissingSettings(s: Settings)
    ensures s.topic != "" && s.dlqTopic == "" ==> Normalize(s).dlqTopic == s.topic + ".dlq"
    ensures s.processTimeoutMs <= 0 ==> Normalize(s).processTimeoutMs == 5000
    ensures s.retryBaseDelayMs <= 0 ==> Normalize(s).retryBaseDelayMs == 100
    ensures s.retryJitterMs <= 0 ==> Normalize(s).retryJitterMs == 300
    ensures s.maxProcessRetries < 0 ==> Normalize(s).maxProcessRetries == 3
    ensures s.metricsFlushSec <= 0 ==> Normalize(s).metricsFlushSec == 15
    ensures s.shutdownDrainTimeoutSec <= 0 ==> Normalize(s).shutdownDrainTimeoutSec == 60
    ensures s.batchSize <= 0 ==> Normalize(s).batchSize == 100
    ensures s.batchFlushIntervalSec <= 0 ==> Normalize(s).batchFlushIntervalSec == 5
  {
  }

  /** A setting that is there stays, whichever others are missing. */
  lemma PresentSettings(s: Settings)
    ensures Normalize(s).topic == s.topic
    ensures s.dlqTopic != "" || s.topic == "" ==> Normalize(s).dlqTopic == s.dlqTopic
    ensures s.processTimeoutMs > 0 ==> Normalize(s).processTimeoutMs == s.processTimeoutMs
    ensures s.retryBaseDelayMs > 0 ==> Normalize(s).retryBaseDelayMs == s.retryBaseDelayMs
    ensures s.retryJitterMs > 0 ==> Normalize(s).retryJitterMs == s.retryJitterMs
    ensures s.maxProcessRetries >= 0 ==> Normalize(s).maxProcessRetries == s.maxProcessRetries
    ensures s.metricsFlushSec > 0 ==> Normalize(s).metricsFlushSec == s.metricsFlushSec
    ensures s.shutdownDrainTimeoutSec > 0 ==> Normalize(s).shutdownDrainTimeoutSec == s.shutdownDrainTimeoutSec
    ensures s.batchSize > 0 ==> Normalize(s).batchSize == s.batchSize
    ensures s.batchFlushIntervalSec > 0 ==> Normalize(s).batchFlushIntervalSec == s.batchFlushIntervalSec
  {
  }

  /**
   * Normalising makes any settings usable, leaves alone exactly those that already are, and so is the same done twice,
   * as it is by the constructor and again by Start. The workers always run with normalised settings.
   */
  lemma NormalizeIsClosure(s: Settings, parse: Messages.Parser, hasWriter: bool)
    ensures Usable(Normalize(s))
    ensures Normalize(s) == s <==> Usable(s)
    ensures Normalize(Normalize(s)) == Normalize(s)
    ensures var cfg := WorkerConfig(Normalize(s), parse, hasWriter);
            && Worker.Normalized(cfg) && cfg.parse == parse && cfg.hasWriter == hasWriter && !cfg.recheckAfterFlush
            && cfg.batchSize == (if s.batchSize <= 0 then 100 else s.batchSize)
            && cfg.maxProcessRetries == (if s.maxProcessRetries < 0 then 3 else s.maxProcessRetries)
  {
    hide Normalize;
    MissingSettings(s);
    PresentSettings(s);
    PresentSettings(Normalize(s));
    assert s.topic != "" ==> s.topic + ".dlq" != "";
  }

  // ---------------------------------------------------------------------------------------------------------
  // The retry delay
  // ---------------------------------------------------------------------------------------------------------

  function Pow2(n: nat): nat {
    if n == 0 then 1 else 2 * Pow2(n - 1)
  }

  /** base * 2^attempt in nanoseconds, as the exact number. */
  function Nominal(baseMs: nat, attempt: nat): nat {
    baseMs * Pow2(attempt) * MILLISECOND
  }

  /**
   * The delay of sleepBackoff in nanoseconds, for a given random jitter. Multiplying by the unit and adding the jitter
   * are int64 operations. Requires the float to be in range of int64, out of which the conversion is implementation-
   * defined in Go.
   */
  function Delay(baseMs: nat, attempt: nat, jitter: nat): int
    requires baseMs * Pow2(attempt) <= MAX_INT64
  {
    var delay := Wrap64(Wrap64(Nominal(baseMs, attempt)) + jitter);
    if delay > MAX_RETRY_DELAY then MAX_RETRY_DELAY else delay
  }

  predicate Fits(baseMs: nat, attempt: nat, jitter: nat) {
    Nominal(baseMs, attempt) + jitter <= MAX_INT64
  }

  predicate DelayOk(baseMs: nat, attempt: nat, jitter: nat) {
    baseMs * Pow2(attempt) <= MAX_INT64 && 0 <= Delay(baseMs, attempt, jitter) <= MAX_RETRY_DELAY
  }

  lemma NominalDoubles(baseMs: nat, attempt: nat)
    ensures Nominal(baseMs, attempt + 1) == 2 * Nominal(baseMs, attempt)
    ensures baseMs * Pow2(attempt + 1) <= Nominal(baseMs, attempt)
  {
    var p := baseMs * Pow2(attempt);
    assert Pow2(attempt + 1) == 2 * Pow2(attempt);
    assert baseMs * (2 * Pow2(attempt)) == 2 * p;
  }

  /** When the sum fits it is not wrapped: the delay is it, capped. */
  lemma FittingDelay(baseMs: nat, attempt: nat, jitter: nat)
    requires Fits(baseMs, attempt, jitter)
    ensures DelayOk(baseMs, attempt, jitter)
    ensures var exact := baseMs * Pow2(attempt) * 1_000_000 + jitter;
            Delay(baseMs, attempt, jitter) == if exact > 5_000_000_000 then 5_000_000_000 else exact
  {
    assert Nominal(baseMs, attempt) == baseMs * Pow2(attempt) * 1_000_000;
    hide Nominal, Delay;
    Unwrapped(baseMs, attempt, jitter);
  }

  lemma Unwrapped(baseMs: nat, attempt: nat, jitter: nat)
    requires Fits(baseMs, attempt, jitter)
    ensures DelayOk(baseMs, attempt, jitter)
    ensures var exact := Nominal(baseMs, attempt) + jitter;
            Delay(baseMs, attempt, jitter) == if exact > MAX_RETRY_DELAY then MAX_RETRY_DELAY else exact
  {
    NominalDoubles(baseMs, attempt);
    hide Nominal;
  }

  lemma {:induction false} FitsEarlier(baseMs: nat, attempt: nat, last: nat, jitter: nat)
    requires attempt <= last && Fits(baseMs, last, jitter)
    ensures Fits(baseMs, attempt, jitter)
    ensures Nominal(baseMs, attempt) <= Nominal(baseMs, last)
    decreases last
  {
    if attempt < last {
      NominalDoubles(baseMs, last - 1);
      hide Nominal;
      FitsEarlier(baseMs, attempt, last - 1, jitter);
    }
  }

  /** For the same jitter a later attempt never waits less. */
  lemma DelayGrows(baseMs: nat, attempt: nat, later: nat, jitter: nat)
    requires attempt <= later && Fits(baseMs, later, jitter)
    ensures DelayOk(baseMs, attempt, jitter) && DelayOk(baseMs, later, jitter)
    ensures Delay(baseMs, attempt, jitter) <= Delay(baseMs, later, jitter)
  {
    hide Nominal, Delay, DelayOk;
    FitsEarlier(baseMs, attempt, later, jitter);
    Unwrapped(baseMs, attempt, jitter);
    Unwrapped(baseMs, later, jitter);
  }

  /** The first attempt that no longer fits overflows into a negative delay, which is no delay at all. */
  lemma FirstOverflowIsNegative(baseMs: nat, attempt: nat, jitter: nat)
    requires Fits(baseMs, attempt, jitter) && !Fits(baseMs, attempt + 1, jitter) && jitter < MAX_INT64
    ensures baseMs * Pow2(attempt + 1) <= MAX_INT64 && Delay(baseMs, attempt + 1, jitter) < 0
    ensures !DelayOk(baseMs, attempt + 1, jitter)
  {
    hide Nominal, Wrap64;
    NominalDoubles(baseMs, attempt);
    NominalDoubles(baseMs, attempt + 1);
    WrapsNegative(Nominal(baseMs, attempt + 1), jitter);
  }

  lemma WrapsNegative(a: nat, b: nat)
    requires MAX_INT64 < a + b <= 2 * MAX_INT64 && b < MAX_INT64
    ensures Wrap64(Wrap64(a) + b) < 0
  {
  }

  lemma {:induction false} FirstOverflow(baseMs: nat, last: nat, jitter: nat) returns (attempt: nat)
    requires Fits(baseMs, 0, jitter) && !Fits(baseMs, last, jitter)
    ensures attempt < last && Fits(baseMs, attempt, jitter) && !Fits(baseMs, attempt + 1, jitter)
    decreases last
  {
    if Fits(baseMs, last - 1, jitter) {
      attempt := last - 1;
    } else {
      attempt := FirstOverflow(baseMs, last - 1, jitter);
    }
  }

  /**
   * All the delays of a retry loop lie between zero and five seconds if and only if the last of them, that of attempt
   * maxRetries, fits int64 before the cap is applied.
   */
  lemma DelaysBoundedIff(baseMs: nat, maxRetries: nat, jitter: nat)
    requires Fits(baseMs, 0, jitter) && jitter < MAX_INT64
    ensures (forall attempt :: 0 <= attempt <= maxRetries ==> DelayOk(baseMs, attempt, jitter))
       <==> Fits(baseMs, maxRetries, jitter)
  {
    hide Fits, DelayOk;
    if Fits(baseMs, maxRetries, jitter) {
      forall attempt: nat | attempt <= maxRetries
        ensures DelayOk(baseMs, attempt, jitter)
      {
        FitsEarlier(baseMs, attempt, maxRetries, jitter);
        FittingDelay(baseMs, attempt, jitter);
      }
    } else {
      var attempt := FirstOverflow(baseMs, maxRetries, jitter);
      FirstOverflowIsNegative(baseMs, attempt, jitter);
    }
  }

  lemma {:induction false} Pow2Add(m: nat, n: nat)
    ensures Pow2(m + n) == Pow2(m) * Pow2(n)
  {
    if n > 0 {
      Pow2Add(m, n - 1);
    }
  }

  lemma DefaultFits(jitter: nat)
    requires jitter < DEFAULT_RETRY_JITTER_MS * MILLISECOND
    ensures Fits(DEFAULT_RETRY_BASE_DELAY_MS, 36, jitter) && !Fits(DEFAULT_RETRY_BASE_DELAY_MS, 37, jitter)
  {
    assert Pow2(9) == 512;
    Pow2Add(9, 9);
    Pow2Add(18, 18);
    Pow2Add(1, 36);
  }

  /** With the default base delay the loops are safe up to 36 retries and no further, whatever the jitter drawn. */
  lemma DefaultDelaysBoundedIff(maxRetries: nat, jitter: nat)
    requires jitter < DEFAULT_RETRY_JITTER_MS * MILLISECOND
    ensures (forall attempt :: 0 <= attempt <= maxRetries ==> DelayOk(DEFAULT_RETRY_BASE_DELAY_MS, attempt, jitter))
       <==> maxRetries <= 36
  {
    hide Fits, DelayOk;
    DefaultFits(jitter);
    FitsEarlier(DEFAULT_RETRY_BASE_DELAY_MS, 0, 36, jitter);
    if maxRetries <= 36 {
      FitsEarlier(DEFAULT_RETRY_BASE_DELAY_MS, maxRetries, 36, jitter);
    } else if Fits(DEFAULT_RETRY_BASE_DELAY_MS, maxRetries, jitter) {
      FitsEarlier(DEFAULT_RETRY_BASE_DELAY_MS, 37, maxRetries, jitter);
    }
    DelaysBoundedIff(DEFAULT_RETRY_BASE_DELAY_MS, maxRetries, jitter);
  }
}
