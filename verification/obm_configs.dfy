/** Batch-scheduler options of an exported model (export/obm_configs.py).
    Construction of `BatchOptions` (`New`) infers a missing `max_batch_size` in place
    from the allowed batch sizes and then validates a list of integer
    constraints, first for the main options and then, after the thread
    count, for the optional low-priority options. */
module ObmConfigs {
  import opened Wrappers

  datatype BatchComponent =
    | NoBatching
    | ModelFunction
    | WholePipeline
    | PreProcessorAndModelFunction
    | ModelFunctionAndPostProcessor

  datatype BatchPaddingPolicy = PadUp | BatchDown | MinimizeTpuCostPerRequest

  /** The `ValueError`s of construction; `lowPriority` says whether the
      message carries the `low_priority_batch_options.` prefix. */
  datatype BatchError =
    | MaxBatchSizeRequired(lowPriority: bool)
    | MaxBatchSizeNotPositive(lowPriority: bool)
    | AllowedSizesNotAscending(lowPriority: bool)
    | AllowedSizesNotPositive(lowPriority: bool)
    | MaxBatchSizeNotLargestAllowed(lowPriority: bool)
    | MaxBatchSizeBelowLargestAllowed(lowPriority: bool)
    | BatchTimeoutNegative(lowPriority: bool)
    | MaxEnqueuedBatchesNotPositive(lowPriority: bool)
    | BatchThreadsNotPositive
  {
    /** Whether the failed check was on the low-priority options. */
    predicate IsLowPriority()
    {
      !BatchThreadsNotPositive? && lowPriority
    }
  }

  /** Python truthiness of `allowed_batch_sizes`: neither None nor empty. */
  predicate NonEmpty(allowed: Option<seq<int>>)
  {
    allowed.Some? && |allowed.value| > 0
  }

  /** The pairwise loop finds no `a >= b` among neighbours. */
  predicate StrictlyIncreasing(s: seq<int>)
  {
    forall i :: 0 <= i < |s| - 1 ==> s[i] < s[i + 1]
  }

  /** Neighbour-wise increase is increase between any two positions. */
  lemma {:induction false} StrictlyIncreasingOrdered(s: seq<int>, i: nat, j: nat)
    requires StrictlyIncreasing(s)
    requires i < j < |s|
    ensures s[i] < s[j]
    decreases j - i
  {
    if i + 1 < j {
      StrictlyIncreasingOrdered(s, i + 1, j);
    }
  }

  /** `_validate_batch_options`. */
  function ValidateBatchOptions(
    disableLargeBatchSplitting: bool,
    maxBatchSize: int,
    allowed: Option<seq<int>>,
    batchTimeoutMicros: int,
    maxEnqueuedBatches: int,
    lowPriority: bool): (r: Option<BatchError>)
    ensures r.None? <==>
      && maxBatchSize >= 1
      && (NonEmpty(allowed) ==>
            && StrictlyIncreasing(allowed.value)
            && (forall a :: a in allowed.value ==> 1 <= a <= maxBatchSize)
            && (disableLargeBatchSplitting ==> maxBatchSize == allowed.value[|allowed.value| - 1]))
      && batchTimeoutMicros >= 0
      && maxEnqueuedBatches >= 1
    ensures r.Some? ==> !r.value.BatchThreadsNotPositive? && r.value.IsLowPriority() == lowPriority
    ensures maxBatchSize < 1 ==> r == Some(MaxBatchSizeNotPositive(lowPriority))
  {
    if maxBatchSize < 1 then Some(MaxBatchSizeNotPositive(lowPriority))
    else if NonEmpty(allowed) && !StrictlyIncreasing(allowed.value) then
      Some(AllowedSizesNotAscending(lowPriority))
    else if NonEmpty(allowed) && allowed.value[0] < 1 then
      assert allowed.value[0] in allowed.value;
      Some(AllowedSizesNotPositive(lowPriority))
    else if NonEmpty(allowed) && disableLargeBatchSplitting
         && maxBatchSize != allowed.value[|allowed.value| - 1] then
      Some(MaxBatchSizeNotLargestAllowed(lowPriority))
    else if NonEmpty(allowed) && !disableLargeBatchSplitting
         && maxBatchSize < allowed.value[|allowed.value| - 1] then
      assert allowed.value[|allowed.value| - 1] in allowed.value;
      Some(MaxBatchSizeBelowLargestAllowed(lowPriority))
    else if batchTimeoutMicros < 0 then Some(BatchTimeoutNegative(lowPriority))
    else if maxEnqueuedBatches <= 0 then Some(MaxEnqueuedBatchesNotPositive(lowPriority))
    else
      AllowedWithinBounds(allowed, maxBatchSize);
      None
  }

  /** What the three checks on a non-empty list establish together: every
      allowed size lies between 1 and the maximum. */
  lemma AllowedWithinBounds(allowed: Option<seq<int>>, maxBatchSize: int)
    ensures
      (NonEmpty(allowed) && StrictlyIncreasing(allowed.value) && allowed.value[0] >= 1
       && maxBatchSize >= allowed.value[|allowed.value| - 1])
      ==> forall a :: a in allowed.value ==> 1 <= a <= maxBatchSize
  {
    if NonEmpty(allowed) && StrictlyIncreasing(allowed.value) && allowed.value[0] >= 1
       && maxBatchSize >= allowed.value[|allowed.value| - 1] {
      var s := allowed.value;
      forall a | a in s ensures 1 <= a <= maxBatchSize {
        var i :| 0 <= i < |s| && s[i] == a;
        if 0 < i { StrictlyIncreasingOrdered(s, 0, i); }
        if i < |s| - 1 { StrictlyIncreasingOrdered(s, i, |s| - 1); }
      }
    }
  }

  /** The in-place inference of a missing `max_batch_size`: the last allowed
      size, or an error when there is none. A given value is kept. */
  function InferMaxBatchSize(maxBatchSize: Option<int>, allowed: Option<seq<int>>, lowPriority: bool)
    : (r: Result<int, BatchError>)
    ensures maxBatchSize.Some? ==> r == Success(maxBatchSize.value)
    ensures maxBatchSize.None? && NonEmpty(allowed) ==>
      r == Success(allowed.value[|allowed.value| - 1])
    ensures maxBatchSize.None? && !NonEmpty(allowed) ==> r == Failure(MaxBatchSizeRequired(lowPriority))
  {
    if maxBatchSize.Some? then Success(maxBatchSize.value)
    else if NonEmpty(allowed) then Success(allowed.value[|allowed.value| - 1])
    else Failure(MaxBatchSizeRequired(lowPriority))
  }

  /** The values of a `LowPriorityBatchOptions` object. */
  datatype LowPriorityConfig = LowPriorityConfig(
    maxBatchSize: Option<int>,
    batchTimeoutMicros: int,
    allowedBatchSizes: Option<seq<int>>,
    maxEnqueuedBatches: int)

  /** The values of a `BatchOptions` object. */
  datatype BatchConfig = BatchConfig(
    batchComponent: BatchComponent,
    maxBatchSize: Option<int>,
    batchTimeoutMicros: int,
    allowedBatchSizes: Option<seq<int>>,
    numBatchThreads: int,
    maxEnqueuedBatches: int,
    disableLargeBatchSplitting: bool,
    batchPaddingPolicy: BatchPaddingPolicy,
    lowPriority: Option<LowPriorityConfig>)

  /** `__post_init__` on values: the error it raises, if any, together with
      the values the objects hold afterwards. An inference done before a
      later check fails stays in place, as in the source. */
  function PostInitOf(c: BatchConfig): (Option<BatchError>, BatchConfig)
  {
    if c.batchComponent == NoBatching then (None, c)
    else match InferMaxBatchSize(c.maxBatchSize, c.allowedBatchSizes, false)
    case Failure(e) => (Some(e), c)
    case Success(m) =>
      var c1 := c.(maxBatchSize := Some(m));
      var mainErr := ValidateBatchOptions(c.disableLargeBatchSplitting, m, c.allowedBatchSizes,
                                          c.batchTimeoutMicros, c.maxEnqueuedBatches, false);
      if mainErr.Some? then (mainErr, c1)
      else if c.numBatchThreads <= 0 then (Some(BatchThreadsNotPositive), c1)
      else if c.lowPriority.None? then (None, c1)
      else
        var lp := c.lowPriority.value;
        match InferMaxBatchSize(lp.maxBatchSize, lp.allowedBatchSizes, true)
        case Failure(e) => (Some(e), c1)
        case Success(lm) =>
          var c2 := c1.(lowPriority := Some(lp.(maxBatchSize := Some(lm))));
          (ValidateBatchOptions(c.disableLargeBatchSplitting, lm, lp.allowedBatchSizes,
                                lp.batchTimeoutMicros, lp.maxEnqueuedBatches, true), c2)
  }

  /** Everything a successfully constructed, batching `BatchOptions` promises. */
  ghost predicate WellFormed(c: BatchConfig)
  {
    && c.maxBatchSize.Some?
    && c.maxBatchSize.value >= 1
    && (NonEmpty(c.allowedBatchSizes) ==>
          && StrictlyIncreasing(c.allowedBatchSizes.value)
          && (forall a :: a in c.allowedBatchSizes.value ==> 1 <= a <= c.maxBatchSize.value)
          && (c.disableLargeBatchSplitting ==>
                c.maxBatchSize.value == c.allowedBatchSizes.value[|c.allowedBatchSizes.value| - 1]))
    && c.batchTimeoutMicros >= 0
    && c.maxEnqueuedBatches >= 1
    && c.numBatchThreads >= 1
    && (c.lowPriority.Some? ==>
          var lp := c.lowPriority.value;
          && lp.maxBatchSize.Some?
          && lp.maxBatchSize.value >= 1
          && (NonEmpty(lp.allowedBatchSizes) ==>
                && StrictlyIncreasing(lp.allowedBatchSizes.value)
                && (forall a :: a in lp.allowedBatchSizes.value ==> 1 <= a <= lp.maxBatchSize.value)
                && (c.disableLargeBatchSplitting ==>
                      lp.maxBatchSize.value == lp.allowedBatchSizes.value[|lp.allowedBatchSizes.value| - 1]))
          && lp.batchTimeoutMicros >= 0
          && lp.maxEnqueuedBatches >= 1)
  }

  /** With batching, construction succeeds exactly when the resulting
      options are well formed; only the two maxima may have been filled in. */
  lemma PostInitSucceedsIffWellFormed(c: BatchConfig)
    requires c.batchComponent != NoBatching
    ensures PostInitOf(c).0.None? <==> WellFormed(PostInitOf(c).1)
    ensures var c' := PostInitOf(c).1;
      && c'.(maxBatchSize := c.maxBatchSize, lowPriority := c.lowPriority) == c
      && (c.maxBatchSize.Some? ==> c'.maxBatchSize == c.maxBatchSize)
      && (c'.lowPriority.Some? <==> c.lowPriority.Some?)
      && (c.lowPriority.Some? ==>
            c'.lowPriority.value.(maxBatchSize := c.lowPriority.value.maxBatchSize) == c.lowPriority.value)
  {
  }

  /** Without batching nothing is checked and nothing is inferred. */
  lemma NoBatchingUnchanged(c: BatchConfig)
    requires c.batchComponent == NoBatching
    ensures PostInitOf(c) == (None, c)
  {
  }

  /** Running the construction checks again on what a successful
      construction produced raises nothing and infers nothing. */
  lemma PostInitIdempotent(c: BatchConfig)
    requires PostInitOf(c).0.None?
    ensures PostInitOf(PostInitOf(c).1) == (None, PostInitOf(c).1)
  {
    if c.batchComponent != NoBatching {
      PostInitSucceedsIffWellFormed(c);
      var c' := PostInitOf(c).1;
      assert c'.batchComponent == c.batchComponent;
      PostInitSucceedsIffWellFormed(c');
    }
  }

  /** The main options are checked before the thread count, and the thread
      count before anything about the low-priority options. */
  lemma CheckOrder(c: BatchConfig)
    requires c.batchComponent != NoBatching
    ensures c.maxBatchSize.None? && !NonEmpty(c.allowedBatchSizes) ==>
      PostInitOf(c).0 == Some(MaxBatchSizeRequired(false))
    ensures PostInitOf(c).0 == Some(BatchThreadsNotPositive) <==>
      c.numBatchThreads <= 0 && MainOptionsValid(c)
    ensures PostInitOf(c).0.Some? && PostInitOf(c).0.value.IsLowPriority() ==>
      c.numBatchThreads >= 1 && MainOptionsValid(c) && c.lowPriority.Some?
  {
  }

  /** The maximum of the main options can be inferred and the main options
      then pass validation. */
  predicate MainOptionsValid(c: BatchConfig)
  {
    var m := InferMaxBatchSize(c.maxBatchSize, c.allowedBatchSizes, false);
    m.Success? &&
    ValidateBatchOptions(c.disableLargeBatchSplitting, m.value, c.allowedBatchSizes,
                         c.batchTimeoutMicros, c.maxEnqueuedBatches, false).None?
  }

  class LowPriorityBatchOptions {
    var maxBatchSize: Option<int>
    var batchTimeoutMicros: int
    var allowedBatchSizes: Option<seq<int>>
    var maxEnqueuedBatches: int

    function Config(): LowPriorityConfig
      reads this
    {
      LowPriorityConfig(maxBatchSize, batchTimeoutMicros, allowedBatchSizes, maxEnqueuedBatches)
    }

    constructor (maxBatchSize: Option<int>, batchTimeoutMicros: int,
                 allowedBatchSizes: Option<seq<int>>, maxEnqueuedBatches: int)
      ensures Config() == LowPriorityConfig(maxBatchSize, batchTimeoutMicros,
                                            allowedBatchSizes, maxEnqueuedBatches)
    {
      this.maxBatchSize := maxBatchSize;
      this.batchTimeoutMicros := batchTimeoutMicros;
      this.allowedBatchSizes := allowedBatchSizes;
      this.maxEnqueuedBatches := maxEnqueuedBatches;
    }
  }

  class BatchOptions {
    var batchComponent: BatchComponent
    var maxBatchSize: Option<int>
    var batchTimeoutMicros: int
    var allowedBatchSizes: Option<seq<int>>
    var numBatchThreads: int
    var maxEnqueuedBatches: int
    var disableLargeBatchSplitting: bool
    var batchPaddingPolicy: BatchPaddingPolicy
    var lowPriorityBatchOptions: LowPriorityBatchOptions?

    function Config(): BatchConfig
      reads this, lowPriorityBatchOptions
    {
      BatchConfig(batchComponent, maxBatchSize, batchTimeoutMicros, allowedBatchSizes,
                  numBatchThreads, maxEnqueuedBatches, disableLargeBatchSplitting,
                  batchPaddingPolicy,
                  if lowPriorityBatchOptions == null then None
                  else Some(lowPriorityBatchOptions.Config()))
    }

    /** The field assignments of the generated `__init__`, before it calls
        `__post_init__`; `New` is the whole construction. */
    constructor (batchComponent: BatchComponent, maxBatchSize: Option<int>,
                 batchTimeoutMicros: int, allowedBatchSizes: Option<seq<int>>,
                 numBatchThreads: int, maxEnqueuedBatches: int,
                 disableLargeBatchSplitting: bool, batchPaddingPolicy: BatchPaddingPolicy,
                 lowPriorityBatchOptions: LowPriorityBatchOptions?)
      ensures this.lowPriorityBatchOptions == lowPriorityBatchOptions
      ensures Config() == BatchConfig(batchComponent, maxBatchSize, batchTimeoutMicros,
                                      allowedBatchSizes, numBatchThreads, maxEnqueuedBatches,
                                      disableLargeBatchSplitting, batchPaddingPolicy,
                                      if lowPriorityBatchOptions == null then None
                                      else Some(lowPriorityBatchOptions.Config()))
    {
      this.batchComponent := batchComponent;
      this.maxBatchSize := maxBatchSize;
      this.batchTimeoutMicros := batchTimeoutMicros;
      this.allowedBatchSizes := allowedBatchSizes;
      this.numBatchThreads := numBatchThreads;
      this.maxEnqueuedBatches := maxEnqueuedBatches;
      this.disableLargeBatchSplitting := disableLargeBatchSplitting;
      this.batchPaddingPolicy := batchPaddingPolicy;
      this.lowPriorityBatchOptions := lowPriorityBatchOptions;
    }

    /** `BatchOptions(...)`: the fields are stored and `__post_init__` runs.
        The caller's low-priority object is updated in place even when a
        later check then raises, so its new state is stated in both cases. */
    static method New(batchComponent: BatchComponent, maxBatchSize: Option<int>,
                      batchTimeoutMicros: int, allowedBatchSizes: Option<seq<int>>,
                      numBatchThreads: int, maxEnqueuedBatches: int,
                      disableLargeBatchSplitting: bool, batchPaddingPolicy: BatchPaddingPolicy,
                      lowPriorityBatchOptions: LowPriorityBatchOptions?)
      returns (r: Result<BatchOptions, BatchError>)
      modifies if lowPriorityBatchOptions == null then {} else {lowPriorityBatchOptions}
      ensures var c := BatchConfig(batchComponent, maxBatchSize, batchTimeoutMicros,
                                   allowedBatchSizes, numBatchThreads, maxEnqueuedBatches,
                                   disableLargeBatchSplitting, batchPaddingPolicy,
                                   if lowPriorityBatchOptions == null then None
                                   else Some(old(lowPriorityBatchOptions.Config())));
        && (r.Failure? <==> PostInitOf(c).0.Some?)
        && (r.Failure? ==> r.error == PostInitOf(c).0.value)
        && (r.Success? ==> fresh(r.value) && r.value.lowPriorityBatchOptions == lowPriorityBatchOptions
                           && r.value.Config() == PostInitOf(c).1)
        && (lowPriorityBatchOptions != null ==>
              PostInitOf(c).1.lowPriority == Some(lowPriorityBatchOptions.Config()))
    {
      var b := new BatchOptions(batchComponent, maxBatchSize, batchTimeoutMicros, allowedBatchSizes,
                                numBatchThreads, maxEnqueuedBatches, disableLargeBatchSplitting,
                                batchPaddingPolicy, lowPriorityBatchOptions);
      var err := b.PostInit();
      if err.Some? {
        return Failure(err.value);
      }
      return Success(b);
    }

    /** `__post_init__`: updates `max_batch_size` here and in the caller's
        low-priority options object in place, and reports the first failed
        check. */
    method PostInit() returns (err: Option<BatchError>)
      modifies this`maxBatchSize
      modifies if lowPriorityBatchOptions == null then {} else {lowPriorityBatchOptions}
      ensures err == PostInitOf(old(Config())).0
      ensures Config() == PostInitOf(old(Config())).1
    {
      if batchComponent == NoBatching {
        return None;
      }
      var inferred := InferMaxBatchSize(maxBatchSize, allowedBatchSizes, false);
      if inferred.Failure? {
        return Some(inferred.error);
      }
      maxBatchSize := Some(inferred.value);
      err := ValidateBatchOptions(disableLargeBatchSplitting, inferred.value, allowedBatchSizes,
                                  batchTimeoutMicros, maxEnqueuedBatches, false);
      if err.Some? {
        return;
      }
      if numBatchThreads <= 0 {
        return Some(BatchThreadsNotPositive);
      }
      var lp := lowPriorityBatchOptions;
      if lp != null {
        var lpInferred := InferMaxBatchSize(lp.maxBatchSize, lp.allowedBatchSizes, true);
        if lpInferred.Failure? {
          return Some(lpInferred.error);
        }
        lp.maxBatchSize := Some(lpInferred.value);
        err := ValidateBatchOptions(disableLargeBatchSplitting, lpInferred.value, lp.allowedBatchSizes,
                                    lp.batchTimeoutMicros, lp.maxEnqueuedBatches, true);
      }
    }
  }
}
