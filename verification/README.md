# Lab test driver: a Dafny model

The test driver (`testDriver.c`) runs a student's executable against numbered
tests. As a **tester** it loops over the tests. For each test it stages the
input file, re-invokes itself through the shell as a **launcher** with
`-m <KiB> -t <timeout> -e <executable>`, and then runs the test's checker.
The launcher runs the executable with stdin from `in.txt` and stdout to
`out.txt`, under a timeout and a memory ceiling, and exits 0 only on success.
The two platforms launch differently:

- **Windows**: a job object with memory and process-count limits, and a timed
  wait. The peak-memory delta of the job is measured.
- **POSIX**: `fork`/`execl`, then a polling wait built from `wait4(WNOHANG)`
  and an interruptible `nanosleep`. A no-op SIGCHLD handler is installed so
  that the sleep wakes up early. The child's `ru_maxrss` is measured.

The model keeps every decision the driver makes and replaces every
operating-system call by its result:

- C integer widths (`int`, `unsigned`, `size_t`) and their wrap-around are
  written out in `CInt`.
- `atoi` and the `%zu`/`%d` formatting are modelled in `Decimal`.
- The limits, their overrides and `RoundUptoThousand` are in `Limits`.
- The flag prefix of `main` and the helper command are in `CommandLine`.
- The test loop and `main` are in `Orchestrator`.
- `WaitForProcess` is in `PosixWait`.
- The POSIX verdict and SIGCHLD wrapper are in `PosixLaunch`.
- The Windows verdict and handle ledger are in `WinLaunch`.
- The launcher outcomes are in `RunOutcome`.
- `HaveGarbageAtTheEnd` is in `Garbage`.

In these places the code does something a reader might not expect, and the
model follows it:

- **Exit status on POSIX.** On POSIX the child's exit status is never
  examined. `WaitForProcess`'s return value overwrites the variable `wait4`
  wrote the status into. So a crash or a nonzero exit passes if memory is
  within the limit (`PosixVerdict`, `VerdictIgnoresExitStatus`).
- **Job membership on Windows.** Only a failure of the `IsProcessInJob` call
  itself aborts the run. The membership answer it returns is not checked.
- **Memory verdict on Windows.** Memory is compared after every wait outcome.
  It turns a clean exit into out-of-memory. After a timeout or a crash the
  exit code is 1 anyway, and the model keeps the wait's outcome.
- **Crash threshold on Windows.** The threshold is the literal `0x8000000`.
- **Unchecked redirection files on Windows.** The two `CreateFile` results
  are never checked. A failed one (for example, a missing `in.txt`) is
  still handed to `CreateProcess` and closed later. The handle ledger is
  therefore legal only when both files opened (`WindowsLedger`).
- **Large memory limits.** The helper multiplies the kibibyte count by 1024
  in `int`. Any limit above 2 GiB − 1 KiB comes back wrong: at 2 GiB it
  wraps negative and the helper uses its own default, and at 4 GiB it wraps
  to 0 bytes (`LargeLimitBreaksRoundTrip`, `TwoGiBLimitLost`, `FourGiBLimitLost`).
- **Command length guard.** The guard on the helper command rejects only a
  formatted length of exactly 4095. Any longer command passes the guard
  (`LongCommandPassesGuard`).

## Model

| member | source | states |
|---|---|---|
| Limits.MemoryLimit | testDriver.c:14-16 | the memory limit is the user override when it is non-negative and the test default otherwise, and it fits a `size_t` |
| Limits.Timeout | testDriver.c:18-20 | the timeout is the user override when it is non-negative and the test default otherwise |
| Limits.UnsetUsesDefaults | testDriver.c:11-20 | with both overrides at their initial -1, both limits are the test defaults |
| Limits.HelperKiB | testDriver.c:26 | the KiB count sent to the helper, times 1024, lies in [limit, limit+1023] when the rounding sum does not wrap; it is 0 exactly for a zero limit or a wrapping sum |
| Limits.HelperKiBOfWholeKiB | testDriver.c:26 | a limit of k×1024 bytes is sent as exactly k KiB |
| Limits.RoundUptoThousand | testDriver.c:160-162 | the result is a multiple of 1000 in [n, n+999] when n ≤ UINT_MAX−999, and 0 for the top 999 values, where the unsigned sum wraps |
| Limits.RoundUptoThousandIsCeiling | testDriver.c:160-162 | no multiple of 1000 that is ≥ n is smaller than the result, and the result divided by 1000 is ⌈n/1000⌉ |
| Decimal.DigitsValueOfNatToString | testDriver.c:24-26 | the digits printed for n denote n |
| Decimal.AtoiOfNatToString | testDriver.c:43-49 | `atoi` reads back the decimal text of n as n when n fits an `int` and as `INT_MAX` above (so a nonzero n never reads as 0) |
| CommandLine.ParseFlags | testDriver.c:43-52 | `-m` is consumed only at argv[1] with argc ≥ 4 and a nonzero `atoi` value, and stores that value ×1024 (wrapped to `int`); otherwise the memory override stays -1. `-t` is then consumed under the same rule at argv[1] of what remains: it stores its `atoi` value and advances argv by 2, and otherwise the timeout override stays -1 and argv is unchanged |
| CommandLine.ParseCommandLine | testDriver.c:53-62 | launcher mode is chosen iff at least three arguments remain after the flags and the second is `-e`, and it launches the third with the parsed overrides. The usage path is taken iff argc < 2. Otherwise a test run keeps argv[0] as the runner and tests the first remaining argument with the parsed overrides |
| CommandLine.RunnerCommand | testDriver.c:22-36 | the helper command is refused exactly when the formatted length equals 4095; otherwise it is the seven-element list runner, `-m`, KiB, `-t`, timeout, `-e`, executable |
| CommandLine.LongCommandPassesGuard | testDriver.c:31-35 | a command at least as long as the 4096-byte buffer is still accepted |
| CommandLine.NoFlagsKeepsDefaults | testDriver.c:43-53 | without `-m`/`-t` at argv[1], argv is untouched and the run uses the test defaults |
| CommandLine.MemoryFlagOnlyFirst | testDriver.c:43-53 | `-t v -m w ...` leaves the memory limit at the default, and `-m` becomes the executable under test |
| CommandLine.MemoryFlagRoundTrip | testDriver.c:43-47 | `-m k` with 0 < k ≤ INT_MAX/1024 gives a limit of exactly k×1024 bytes, which the helper command carries back out as k |
| CommandLine.HelperRoundTrip | testDriver.c:22-55 | for 0 < L ≤ INT_MAX/1024×1024 (2 GiB − 1 KiB) and 0 < timeout ≤ INT_MAX, the helper command parses back as launcher mode on the same executable, with the same timeout and a memory limit in [L, L+1023] (exactly L for whole KiB), whatever defaults the helper has |
| CommandLine.LargeLimitBreaksRoundTrip | testDriver.c:22-55 | for a limit above that bound whose KiB count fits an `int`, the helper still enters launcher mode with the same executable and timeout, but its byte override is the KiB count ×1024 wrapped to `int`, which differs from the value sent |
| CommandLine.TwoGiBLimitLost | testDriver.c:22-55 | a 2 GiB limit reaches the helper as its own default memory limit |
| CommandLine.FourGiBLimitLost | testDriver.c:22-55 | a 4 GiB limit reaches the helper as a limit of 0 bytes |
| CommandLine.ZeroFieldDefeatsLauncher | testDriver.c:24-55 | a zero timeout, or a limit sent as 0 KiB, makes the helper start a test run on an executable called `-m` or `-t` instead of launching |
| Orchestrator.RunTests | testDriver.c:66-81 | the loop stops at the first test whose feeder, command build, `system` or checker fails. All earlier tests passed, and it reaches the test count only if all tests passed |
| Orchestrator.TesterMain | testDriver.c:38-94 | `main` returns the launcher's result in launcher mode and 1 without an executable. As a tester it returns 0 iff every test passes and 1 otherwise |
| PosixWait.WaitForProcess | testDriver.c:453-467 | a zero budget returns 0 with no `wait4` call. Each poll but the last saw the child running and was interrupted with a smaller budget. The last poll's nonzero `wait4` result is returned; a completed sleep or an exhausted budget gives 0, and another sleep error gives -1. Time slept never exceeds the budget, and a 0 result means the whole budget was slept with the child never reaped |
| PosixLaunch.CheckMemory | testDriver.c:406-419 | the usage is `ru_maxrss` × 1 (Apple) or × 1024 (elsewhere), in `size_t`, and it is over the limit iff strictly greater |
| PosixLaunch.PosixVerdict | testDriver.c:501-531 | success iff the working directory is accessible, fork succeeded, a child was reaped (wait result neither 0 nor -1) and its usage is within the limit. Timeout iff the wait gave 0 and `kill` succeeded; a failing `kill` is a system error. The result is never a nonzero-exit or crash verdict |
| PosixLaunch.VerdictIgnoresExitStatus | testDriver.c:502-508 | the status `wait4` stored for the child has no effect on the verdict |
| PosixLaunch.WithChildTrap | testDriver.c:430-451 | the launcher runs iff the trap was installed. The result is -1 when install or restore fails, and otherwise the launcher's result |
| PosixLaunch.LaunchPosix | testDriver.c:469-531 | the POSIX launcher returns -1 iff the trap could not be installed or restored. It returns 0 iff a poll reaped the child and its memory is within the limit; otherwise it returns 1. A timeout is declared only after the full budget was slept with no reap |
| WinLaunch.PeakDelta | testDriver.c:357-367 | the job's peak-memory delta is after − before in `size_t`, wrapping to 2^64 − (before − after) when the second sample is smaller |
| WinLaunch.WaitVerdict | testDriver.c:330-356 | only a signalled wait with a readable exit code 0 is clean. Codes ≥ 0x8000000 are crashes with the raw code kept, other positive codes are nonzero exits, and a timeout is a timeout |
| WinLaunch.WindowsVerdict | testDriver.c:217-371 | the exit code is 0 iff every setup call succeeded, the wait was signalled, the exit code was read and is 0, and the peak-memory delta is within the limit. A setup failure is a system error, and out-of-memory replaces only a clean exit |
| WinLaunch.ChildLedger | testDriver.c:280-378 | from a live child, every return closes the thread, process, job and both files, and the history stays legal iff it was legal before. `TerminateProcess` is called iff assignment, the membership query or the resume failed, or the wait was not signalled |
| WinLaunch.SetupLedger | testDriver.c:242-378 | after the two `CreateFile` calls, every return leaves no handle open and closes both file variables. The history is legal iff both files are open. The process handle is opened iff the process was created, and `TerminateProcess` is called iff the process was created and then a later setup step failed or the wait was not signalled |
| WinLaunch.WindowsLedger | testDriver.c:177-378 | on every return no handle is open and both file variables were closed. The history is legal iff both `CreateFile` calls succeeded; then each handle acquired is closed exactly once and none is used after closing. The process handle is opened iff the process was created, and `TerminateProcess` is called iff the process was created and then a later setup step failed or the wait was not signalled |
| Garbage.HaveGarbageAtTheEnd | testDriver.c:96-108 | returns 1 iff some remaining character is not one of space, tab, CR, LF or NUL, stopping just after the first such character; otherwise it returns 0 after reading everything |

## Left out

- Process creation, redirection, job objects, `fork`/`execl`/`freopen`, `wait4`, `nanosleep`, `kill` and `sigaction`: these are operating-system calls. The model takes only their results, as fields of `PosixRun`/`WinRun` or as a `WaitOracle`.
- The child side of `fork` (lines 483-500) runs in the child process. Its failures show up to the parent only as an exit status, which the POSIX verdict ignores.
- Signal delivery: the SIGCHLD handler's only effect is to interrupt `nanosleep`. This is the `Interrupted` answer of the oracle.
- PosixWait.WaitForProcess: terminates only because the oracle is assumed to write back a strictly smaller budget after EINTR (`Shrinks`). A real `nanosleep` does not promise this.
- Timeout units: the same number is milliseconds for `WaitForSingleObject` and seconds for `tv_sec`. The model treats it as an opaque count and uses whole seconds on POSIX.
- `QueryInformationJobObject` results are ignored by the code. The model takes the two `PeakProcessMemoryUsed` values it leaves behind as given.
- The shell: the helper command is modelled as an argument list. Word splitting of paths that contain blanks is not modelled, and neither is truncation to the 4096-byte buffer.
- `atoi` and signed overflow: C leaves both undefined. The model saturates `atoi` into `int` and wraps `atoi(v)*1024` to 32 bits.
- `ScanInt`, `ScanIntInt`, `ScanUintUint` and `ScanChars` are `fscanf`/`fgets` wrappers, whose behaviour is that of the C library.
- `GetLabPointerSize` returns the constant 8 and makes no decisions.
- The test suite's `GetTestCount`, `Feeder`, `Checker`, `GetTestMemoryLimit`, `GetTestTimeout` and `GetTesterName` are not part of this model. They appear as the `Suite` and `TestDefaults` values.
- All `printf` diagnostic text, beyond the `RoundUptoThousand` arithmetic.
- The Windows `size_t` is taken as 64 bits (Win64).
- CommandLine.CommandLength: counts characters, while the 4095 test in `GetRunnerCommand` counts the bytes `snprintf` writes. The two differ for paths with characters outside ASCII, whose encoding the model does not represent.
- CommandLine.HelperRoundTrip: holds only up to 2 GiB − 1 KiB. Above that the source's `int` multiplication in the helper wraps, and the model states the wrong result instead (`LargeLimitBreaksRoundTrip`).
