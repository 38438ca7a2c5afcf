/** The run's memory ceiling and timeout: built-in test defaults, the
    process-wide user overrides that `-m` and `-t` set, and the arithmetic
    the driver applies to them when it passes them on or reports them. */
module Limits {
  import opened CInt

  /** `UserMemoryLimit` (bytes) and `UserTimeout`; a negative value means
      "not overridden". */
  datatype Overrides = Overrides(memory: int, timeout: int)

  /** Both overrides start at -1. */
  const Unset: Overrides := Overrides(-1, -1)

  /** What the test suite reports through `GetTestMemoryLimit` (bytes) and
      `GetTestTimeout`; the timeout is an opaque count whose unit differs
      between the two platforms. */
  datatype TestDefaults = TestDefaults(memoryLimit: nat, timeout: nat)

  predicate ValidOverrides(o: Overrides) {
    IsInt(o.memory) && IsInt(o.timeout)
  }

  predicate ValidDefaults(d: TestDefaults) {
    IsSize(d.memoryLimit) && IsInt(d.timeout)
  }

  /** `GetMemoryLimit`: the override when it is non-negative, else the default. */
  function MemoryLimit(o: Overrides, d: TestDefaults): (r: nat)
    requires ValidOverrides(o) && ValidDefaults(d)
    ensures IsSize(r)
    ensures o.memory >= 0 ==> r == o.memory
    ensures o.memory < 0 ==> r == d.memoryLimit
  {
    if o.memory < 0 then d.memoryLimit else o.memory
  }

  /** `GetTimeout`: the override when it is non-negative, else the default. */
  function Timeout(o: Overrides, d: TestDefaults): (r: nat)
    requires ValidOverrides(o) && ValidDefaults(d)
    ensures IsInt(r)
    ensures o.timeout >= 0 ==> r == o.timeout
    ensures o.timeout < 0 ==> r == d.timeout
  {
    if o.timeout < 0 then d.timeout else o.timeout
  }

  /** With no override in force the test defaults govern the run. */
  lemma UnsetUsesDefaults(d: TestDefaults)
    requires ValidDefaults(d)
    ensures MemoryLimit(Unset, d) == d.memoryLimit
    ensures Timeout(Unset, d) == d.timeout
  {
  }

  /** The kibibyte count the driver hands to its helper for a limit of
      `limit` bytes: `(limit + 1023) / 1024` in `size_t` arithmetic. */
  function HelperKiB(limit: nat): (k: nat)
    requires IsSize(limit)
    ensures limit + 1023 < TWO_64 ==> limit <= k * 1024 <= limit + 1023
    ensures k == 0 <==> limit == 0 || limit + 1023 >= TWO_64
  {
    ToSize(limit + 1023) / 1024
  }

  /** A limit given as a whole number of kibibytes comes back unchanged. */
  lemma HelperKiBOfWholeKiB(k: nat)
    requires IsSize(k * 1024)
    ensures HelperKiB(k * 1024) == k
  {
    assert k * 1024 + 1023 < TWO_64;
    assert (k * 1024 + 1023) / 1024 == k;
  }

  /** `RoundUptoThousand`: the least multiple of 1000 not below `n`, computed
      in `unsigned int`; the sum wraps for the top 999 values, which then
      round to 0. */
  function RoundUptoThousand(n: nat): (r: nat)
    requires IsUint(n)
    ensures IsUint(r) && r % 1000 == 0
    ensures n <= UINT_MAX - 999 ==> n <= r < n + 1000
    ensures n > UINT_MAX - 999 ==> r == 0
  {
    ToUint(n + 999) / 1000 * 1000
  }

  /** In the non-wrapping range the rounded value divided by 1000 is the
      ceiling of n / 1000, and no smaller multiple of 1000 reaches n. */
  lemma RoundUptoThousandIsCeiling(n: nat, m: nat)
    requires n <= UINT_MAX - 999
    requires m % 1000 == 0 && n <= m
    ensures RoundUptoThousand(n) <= m
    ensures RoundUptoThousand(n) / 1000 == (n + 999) / 1000
  {
  }
}
