/** `WaitForProcess`, the wait with a timeout that the POSIX launcher
    builds from a non-blocking `wait4` and an interruptible `nanosleep`.
    Both calls are supplied by an oracle. */
module PosixWait {

  const NANOS_PER_SECOND: int := 1_000_000_000

  /** A `struct timespec`: the remaining time budget. */
  datatype Timespec = Timespec(sec: int, nsec: int)

  predicate ValidTimespec(t: Timespec) {
    t.sec >= 0 && 0 <= t.nsec < NANOS_PER_SECOND
  }

  function Nanos(t: Timespec): int {
    t.sec * NANOS_PER_SECOND + t.nsec
  }

  /** The loop condition `tv_sec > 0 || tv_nsec > 0`. */
  predicate HasTimeLeft(t: Timespec) {
    t.sec > 0 || t.nsec > 0
  }

  /** What one `nanosleep(ts, ts)` does: sleep the whole budget (returns 0),
      get interrupted by a signal (EINTR) and write back the remaining
      budget, or fail with any other error. */
  datatype SleepResult = Completed | Interrupted(remaining: Timespec) | Failed

  /** The environment of the k-th poll: `reap(k)` is what `wait4(pid, ...,
      WNOHANG, ...)` returns (0 while the child runs, its pid once reaped,
      -1 on error); `sleep(k, t)` is how `nanosleep` on budget t ends. */
  datatype WaitOracle = WaitOracle(reap: nat -> int, sleep: (nat, Timespec) -> SleepResult)

  /** An interrupted sleep writes back a valid budget strictly smaller than
      the one it was given; this is what makes the loop terminate. */
  ghost predicate Shrinks(o: WaitOracle) {
    forall k: nat, t: Timespec ::
      ValidTimespec(t) && o.sleep(k, t).Interrupted? ==>
        ValidTimespec(o.sleep(k, t).remaining) && Nanos(o.sleep(k, t).remaining) < Nanos(t)
  }

  /** `WaitForProcess(pid, &status, &ts, &rusage)`. Besides the returned
      value `r` the model reports the budget each poll started with
      (`budgets[k]` is the budget of the k-th `wait4` call and of the
      `nanosleep` that follows it) and the total time spent asleep. */
  method WaitForProcess(o: WaitOracle, ts: Timespec) returns (r: int, budgets: seq<Timespec>, slept: nat)
    requires ValidTimespec(ts) && Shrinks(o)
    // `wait4` is called at all only when there is a budget, and first with the whole of it
    ensures |budgets| == 0 <==> Nanos(ts) == 0
    ensures |budgets| == 0 ==> r == 0 && slept == 0
    ensures |budgets| > 0 ==> budgets[0] == ts
    ensures forall k :: 0 <= k < |budgets| ==> ValidTimespec(budgets[k]) && Nanos(budgets[k]) > 0
    // every poll but the last found the child running and was woken early
    ensures forall k :: 0 <= k < |budgets| - 1 ==>
      o.reap(k) == 0 && o.sleep(k, budgets[k]) == Interrupted(budgets[k + 1])
    // how the last poll ended decides the result
    ensures var n := |budgets|; n > 0 && o.reap(n - 1) != 0 ==> r == o.reap(n - 1)
    ensures var n := |budgets|; n > 0 && o.reap(n - 1) == 0 && o.sleep(n - 1, budgets[n - 1]).Completed? ==> r == 0
    ensures var n := |budgets|; n > 0 && o.reap(n - 1) == 0 && o.sleep(n - 1, budgets[n - 1]).Failed? ==> r == -1
    ensures var n := |budgets|; n > 0 && o.reap(n - 1) == 0 && o.sleep(n - 1, budgets[n - 1]).Interrupted? ==>
      r == 0 && Nanos(o.sleep(n - 1, budgets[n - 1]).remaining) == 0
    // the wait never sleeps past its budget, and reports a timeout only
    // after sleeping all of it without ever reaping the child
    ensures slept <= Nanos(ts)
    ensures r == 0 ==> slept == Nanos(ts) && forall k :: 0 <= k < |budgets| ==> o.reap(k) == 0
  {
    budgets := [];
    slept := 0;
    var b := ts;
    while HasTimeLeft(b)
      invariant ValidTimespec(b)
      invariant slept + Nanos(b) == Nanos(ts)
      invariant |budgets| == 0 ==> b == ts
      invariant |budgets| > 0 ==> budgets[0] == ts
      invariant forall k :: 0 <= k < |budgets| ==> ValidTimespec(budgets[k]) && Nanos(budgets[k]) > 0
      invariant forall k :: 0 <= k < |budgets| ==> o.reap(k) == 0
      invariant forall k :: 0 <= k < |budgets| - 1 ==> o.sleep(k, budgets[k]) == Interrupted(budgets[k + 1])
      invariant |budgets| > 0 ==> o.sleep(|budgets| - 1, budgets[|budgets| - 1]) == Interrupted(b)
      decreases Nanos(b)
    {
      var k := |budgets|;
      budgets := budgets + [b];
      var child := o.reap(k);
      if child != 0 {
        r := child;
        return;
      }
      match o.sleep(k, b)
      case Completed =>
        slept := slept + Nanos(b);
        r := 0;
        return;
      case Failed =>
        r := -1;
        return;
      case Interrupted(remaining) =>
        slept := slept + (Nanos(b) - Nanos(remaining));
        b := remaining;
    }
    r := 0;
  }
}
