/** How one launcher run ends, and the process exit code that is the only
    part of it the tester reads back. */
module RunOutcome {

  /** The operating-system call whose failure ended the run. */
  datatype SysCall =
    | Sigaction | Access | Fork | Wait4 | Kill
    | CreateJobObject | SetInformationJobObject | CreateProcess
    | AssignProcessToJobObject | IsProcessInJob | ResumeThread
    | WaitForSingleObject | GetExitCodeProcess
    /** `WaitForSingleObject` answered `WAIT_ABANDONED` (reported as an
        internal error). */
    | WaitAbandoned

  datatype Outcome =
    | Success
    | NonZeroExit(code: nat)
    | Crashed(raw: nat)
    | TimedOut
    | OutOfMemory(usedBytes: nat)
    | SystemError(call: SysCall)

  /** The launcher's return value: 0 for success and 1 for everything else. */
  function ExitCode(o: Outcome): (code: int)
    ensures code == 0 || code == 1
    ensures code == 0 <==> o.Success?
  {
    if o.Success? then 0 else 1
  }
}
