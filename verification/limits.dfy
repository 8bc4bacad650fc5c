/** In-flight byte accounting for checkpoint reads and writes
    (serialization/limits.py). A limited limiter owns a fixed budget
    `maxBytes`; reservations take bytes out of `available` and releases put
    them back. The asynchronous condition-variable wait is not modelled: a
    reservation that would block is excluded by a precondition saying the
    awaited condition already holds. */
module Limits {
  import opened Wrappers

  datatype LimitError =
    | NonPositiveNumBytes(found: int)          // constructor: `num_bytes <= 0`
    | NonPositiveConcurrentBytes(found: int)   // get_byte_limiter: `concurrent_bytes <= 0`
    | RequestTooLarge(requested: int, max: int) // wait_for_bytes: `requested >= max`
    | ReleaseOverflow(available: int, max: int) // release_bytes: assertion `available <= max` failed

  class LimitInFlightBytes {
    /** `_max_bytes`: fixed at construction, never reassigned. */
    const maxBytes: int
    /** `_available_bytes`. */
    var available: int
    /** Bytes currently held by reservations that were not yet released. */
    ghost var reserved: int

    /** The accounting identity: what is available plus what is reserved is the budget. */
    ghost predicate Valid()
      reads this
    {
      maxBytes > 0 && available + reserved == maxBytes
    }

    /** No reservation is outstanding in excess and nothing was released twice. */
    ghost predicate Balanced()
      reads this
    {
      0 <= available <= maxBytes
    }

    /** The constructor after its argument check (see `New`). */
    constructor (numBytes: int)
      requires numBytes > 0
      ensures Valid() && Balanced()
      ensures maxBytes == numBytes && available == numBytes && reserved == 0
    {
      maxBytes := numBytes;
      available := numBytes;
      reserved := 0;
    }

    /** `LimitInFlightBytes(num_bytes)`: a non-positive budget is a ValueError. */
    static method New(numBytes: int) returns (r: Result<LimitInFlightBytes, LimitError>)
      ensures numBytes <= 0 <==> r.Failure?
      ensures r.Failure? ==> r.error == NonPositiveNumBytes(numBytes)
      ensures r.Success? ==> fresh(r.value) && r.value.Valid() && r.value.reserved == 0
      ensures r.Success? ==> r.value.maxBytes == numBytes && r.value.available == numBytes
    {
      if numBytes <= 0 {
        return Failure(NonPositiveNumBytes(numBytes));
      }
      var l := new LimitInFlightBytes(numBytes);
      return Success(l);
    }

    /** `wait_for_bytes`. A request of at least the whole budget is refused
        before waiting (equality included). Otherwise the call proceeds only
        once strictly more than `requested` bytes are available, which the
        precondition states. */
    method WaitForBytes(requested: int) returns (err: Option<LimitError>)
      requires Valid()
      requires requested < maxBytes ==> available > requested
      modifies this
      ensures Valid()
      ensures err.Some? <==> requested >= maxBytes
      ensures err.Some? ==> err.value == RequestTooLarge(requested, maxBytes)
      ensures err.Some? ==> available == old(available) && reserved == old(reserved)
      ensures err.None? ==> available == old(available) - requested
      ensures err.None? ==> reserved == old(reserved) + requested
      ensures err.None? ==> available > 0
      ensures old(Balanced()) && requested >= 0 ==> Balanced()
    {
      if requested >= maxBytes {
        return Some(RequestTooLarge(requested, maxBytes));
      }
      available := available - requested;
      reserved := reserved + requested;
      assert available >= 0;
      return None;
    }

    /** `release_bytes`: the amount is added back first; the assertion that
        this does not exceed the budget is checked afterwards, so a failing
        release still leaves the increased count behind. */
    method ReleaseBytes(released: int) returns (err: Option<LimitError>)
      requires Valid()
      modifies this
      ensures Valid()
      ensures available == old(available) + released
      ensures reserved == old(reserved) - released
      ensures err.None? <==> available <= maxBytes
      ensures err.None? <==> reserved >= 0
      ensures err.Some? ==> err.value == ReleaseOverflow(available, maxBytes)
      ensures err.None? && available >= 0 ==> Balanced()
    {
      available := available + released;
      reserved := reserved - released;
      if available > maxBytes {
        return Some(ReleaseOverflow(available, maxBytes));
      }
      return None;
    }
  }

  /** A `ByteLimiter`: the no-op `UnlimitedInFlightBytes` or a limited one. */
  datatype ByteLimiter = Unlimited | Limited(limiter: LimitInFlightBytes)

  /** `get_byte_limiter`. */
  method GetByteLimiter(concurrentBytes: Option<int>) returns (r: Result<ByteLimiter, LimitError>)
    ensures concurrentBytes.None? ==> r == Success(Unlimited)
    ensures concurrentBytes.Some? && concurrentBytes.value <= 0 ==>
      r == Failure(NonPositiveConcurrentBytes(concurrentBytes.value))
    ensures concurrentBytes.Some? && concurrentBytes.value > 0 ==>
      && r.Success? && r.value.Limited? && fresh(r.value.limiter)
      && r.value.limiter.Valid() && r.value.limiter.Balanced()
      && r.value.limiter.maxBytes == concurrentBytes.value
      && r.value.limiter.available == concurrentBytes.value
  {
    if concurrentBytes.None? {
      return Success(Unlimited);
    }
    if concurrentBytes.value <= 0 {
      return Failure(NonPositiveConcurrentBytes(concurrentBytes.value));
    }
    var l := new LimitInFlightBytes(concurrentBytes.value);
    return Success(Limited(l));
  }

  /** `reserved_bytes`: reserve, run the guarded block, always release the
      same amount. The block itself is not modelled. On a limited limiter the
      balance comes back to where it was, whether or not an error is raised. */
  method ReservedBytes(byteLimiter: ByteLimiter, nbytes: int) returns (err: Option<LimitError>)
    requires byteLimiter.Limited? ==> byteLimiter.limiter.Valid()
    requires byteLimiter.Limited? && nbytes < byteLimiter.limiter.maxBytes ==>
      byteLimiter.limiter.available > nbytes
    modifies if byteLimiter.Limited? then {byteLimiter.limiter} else {}
    ensures byteLimiter.Unlimited? ==> err.None?
    ensures byteLimiter.Limited? ==>
      && byteLimiter.limiter.Valid()
      && byteLimiter.limiter.available == old(byteLimiter.limiter.available)
      && byteLimiter.limiter.reserved == old(byteLimiter.limiter.reserved)
    ensures byteLimiter.Limited? && nbytes >= byteLimiter.limiter.maxBytes ==>
      err == Some(RequestTooLarge(nbytes, byteLimiter.limiter.maxBytes))
    ensures byteLimiter.Limited? && nbytes < byteLimiter.limiter.maxBytes ==>
      (err.None? <==> old(byteLimiter.limiter.available) <= byteLimiter.limiter.maxBytes)
  {
    match byteLimiter
    case Unlimited =>
      return None;
    case Limited(l) =>
      err := l.WaitForBytes(nbytes);
      if err.Some? {
        return;
      }
      err := l.ReleaseBytes(nbytes);
  }
}
