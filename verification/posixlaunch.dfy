/** `LaunchLabExecutable` on POSIX systems: a SIGCHLD trap around
    `_LaunchLabExecutable`, which checks the working directory, forks,
    waits with `WaitForProcess`, kills the child on timeout and compares
    its peak resident-set size with the limit afterwards. The child side of
    `fork` (redirection and `execl`) runs in another process and is not
    part of the launcher's verdict. */
module PosixLaunch {
  import opened CInt
  import opened RunOutcome
  import opened PosixWait

  /** The unit of `ru_maxrss` differs: bytes on Apple systems, kibibytes
      elsewhere. */
  datatype PosixPlatform = Apple | OtherPosix

  function MaxRssUnits(p: PosixPlatform): nat {
    match p
    case Apple => 1
    case OtherPosix => 1024
  }

  datatype MemoryCheck = MemoryCheck(exceeded: bool, usedBytes: nat)

  /** `CheckMemory`: the peak resident-set size in bytes, computed in
      `size_t`, and whether it is strictly above the limit. */
  function CheckMemory(p: PosixPlatform, limit: nat, maxRss: int): (m: MemoryCheck)
    requires IsSize(limit)
    ensures IsSize(m.usedBytes)
    ensures 0 <= maxRss && maxRss * MaxRssUnits(p) < TWO_64 ==> m.usedBytes == maxRss * MaxRssUnits(p)
    ensures m.exceeded <==> limit < m.usedBytes
  {
    var used := ToSize(ToSize(maxRss) * MaxRssUnits(p));
    MemoryCheck(limit < used, used)
  }

  /** The results of the parent's calls: `access(".")`, `fork`, the value
      `WaitForProcess` returned, the status `wait4` stored for the child,
      `kill`, and the `ru_maxrss` of the reaped child. */
  datatype PosixRun = PosixRun(
    accessOk: bool,
    forkOk: bool,
    waited: int,
    childStatus: int,
    killOk: bool,
    maxRss: int)

  /** The verdict of `_LaunchLabExecutable`. The wait result is stored into
      the very variable `wait4` wrote the child's status to, so that status
      is never looked at: a reaped child passes whenever its memory is
      within the limit, whatever it exited with. */
  function PosixVerdict(p: PosixPlatform, limit: nat, run: PosixRun): (o: Outcome)
    requires IsSize(limit)
    ensures !o.NonZeroExit? && !o.Crashed?
    ensures o.Success? <==>
      run.accessOk && run.forkOk && run.waited != 0 && run.waited != -1
      && CheckMemory(p, limit, run.maxRss).usedBytes <= limit
    ensures o.TimedOut? <==> run.accessOk && run.forkOk && run.waited == 0 && run.killOk
    ensures o.OutOfMemory? <==>
      run.accessOk && run.forkOk && run.waited != 0 && run.waited != -1
      && CheckMemory(p, limit, run.maxRss).exceeded
    ensures o.OutOfMemory? ==> o.usedBytes > limit
    ensures run.accessOk && run.forkOk && run.waited == -1 ==> o == SystemError(Wait4)
    ensures run.accessOk && run.forkOk && run.waited == 0 && !run.killOk ==> o == SystemError(Kill)
  {
    if !run.accessOk then SystemError(Access)
    else if !run.forkOk then SystemError(Fork)
    else if run.waited == -1 then SystemError(Wait4)
    else if run.waited == 0 then (if run.killOk then TimedOut else SystemError(Kill))
    else
      var m := CheckMemory(p, limit, run.maxRss);
      if m.exceeded then OutOfMemory(m.usedBytes) else Success
  }

  /** The child's exit status has no influence on the verdict. */
  lemma VerdictIgnoresExitStatus(p: PosixPlatform, limit: nat, run: PosixRun, status: int)
    requires IsSize(limit)
    ensures PosixVerdict(p, limit, run.(childStatus := status)) == PosixVerdict(p, limit, run)
  {
  }

  /** What the SIGCHLD wrapper returns, and whether it ran the launcher. */
  datatype Trapped = Trapped(result: int, launched: bool)

  /** `LaunchLabExecutable`: install the trap, launch, restore the previous
      disposition. A failed install returns -1 before launching; a failed
      restore returns -1 in place of the launch result. */
  function WithChildTrap(installOk: bool, launchResult: int, restoreOk: bool): (t: Trapped)
    ensures t.launched <==> installOk
    ensures t.result == launchResult <==> (installOk && restoreOk) || launchResult == -1
    ensures t.result != launchResult ==> t.result == -1
  {
    if !installOk then Trapped(-1, false)
    else if !restoreOk then Trapped(-1, true)
    else Trapped(launchResult, true)
  }

  /** The launcher with its environment as oracles: the polling wait is
      run on a budget of `timeout` whole seconds, and its result is
      classified. The launcher's result is 0 exactly when the trap came and
      went cleanly, the child was reaped by some poll and its memory is
      within the limit; it is -1 exactly when the trap could not be
      installed or restored. A timeout is declared only after the whole
      budget was slept through without the child being reaped. */
  method LaunchPosix(
    p: PosixPlatform, limit: nat, timeout: nat,
    installOk: bool, accessOk: bool, forkOk: bool, o: WaitOracle,
    childStatus: int, killOk: bool, maxRss: int, restoreOk: bool)
    returns (result: int, outcome: Outcome, budgets: seq<Timespec>, slept: nat)
    requires IsSize(limit) && Shrinks(o)
    ensures result == -1 || result == 0 || result == 1
    ensures result == -1 <==> !installOk || !restoreOk
    ensures installOk && restoreOk ==> result == ExitCode(outcome)
    ensures result == 0 <==>
      installOk && restoreOk && accessOk && forkOk && |budgets| > 0
      && o.reap(|budgets| - 1) != 0 && o.reap(|budgets| - 1) != -1
      && CheckMemory(p, limit, maxRss).usedBytes <= limit
    ensures !(installOk && accessOk && forkOk) ==> |budgets| == 0
    ensures outcome.TimedOut? ==>
      slept == timeout * NANOS_PER_SECOND && forall k :: 0 <= k < |budgets| ==> o.reap(k) == 0
    ensures slept <= timeout * NANOS_PER_SECOND
  {
    budgets := [];
    slept := 0;
    outcome := SystemError(Sigaction);
    if !installOk {
      result := -1;
      return;
    }
    var waited := 0;
    if accessOk && forkOk {
      waited, budgets, slept := WaitForProcess(o, Timespec(timeout, 0));
    }
    outcome := PosixVerdict(p, limit, PosixRun(accessOk, forkOk, waited, childStatus, killOk, maxRss));
    result := WithChildTrap(installOk, ExitCode(outcome), restoreOk).result;
  }
}
