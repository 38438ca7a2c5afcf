/** `LaunchLabExecutable` on Windows: the executable is created suspended,
    put into a job object that caps its memory and its process count,
    resumed, and waited for with a timeout; its exit code and the job's
    peak-memory delta decide the verdict. Every operating-system call is
    replaced by its result in a `WinRun`, and the handles the launcher
    owns are tracked in a ledger. */
module WinLaunch {
  import opened CInt
  import opened RunOutcome

  /** Exit codes from 0x8000000 up are reported as exceptions. */
  const CRASH_THRESHOLD: nat := 0x8000000

  /** The handles the launcher acquires: the two redirection files, the
      job object, and the child's process and primary thread. */
  datatype Handle = InFile | OutFile | Job | Process | Thread

  /** The calls that use handles without acquiring or releasing one. */
  datatype Api =
    | SetLimits        // SetInformationJobObject
    | CreateChild      // CreateProcess, inheriting in.txt and out.txt
    | Assign           // AssignProcessToJobObject
    | QueryMembership  // IsProcessInJob
    | QueryPeak        // QueryInformationJobObject
    | Resume           // ResumeThread
    | WaitChild        // WaitForSingleObject
    | QueryExitCode    // GetExitCodeProcess
    | Terminate        // TerminateProcess

  function Uses(a: Api): set<Handle> {
    match a
    case SetLimits => {Job}
    case CreateChild => {InFile, OutFile}
    case Assign => {Job, Process}
    case QueryMembership => {Job, Process}
    case QueryPeak => {Job}
    case Resume => {Thread}
    case WaitChild => {Process}
    case QueryExitCode => {Process}
    case Terminate => {Process}
  }

  /** `Failed(h)` is an acquisition that returned `INVALID_HANDLE_VALUE`:
      the launcher keeps the value in its variable, but no handle is open. */
  datatype Step = Open(h: Handle) | Failed(h: Handle) | Call(api: Api) | Close(h: Handle)

  /** The set of open handles, the steps taken so far, and whether every
      step so far was legal: nothing opened twice, and nothing used or
      closed that was not open. */
  datatype Ledger = Ledger(open: set<Handle>, log: seq<Step>, sound: bool)

  const Fresh: Ledger := Ledger({}, [], true)

  predicate Allowed(open: set<Handle>, s: Step) {
    match s
    case Open(h) => h !in open
    case Failed(h) => h !in open
    case Call(a) => Uses(a) <= open
    case Close(h) => h in open
  }

  function After(open: set<Handle>, s: Step): set<Handle> {
    match s
    case Open(h) => open + {h}
    case Failed(_) => open
    case Call(_) => open
    case Close(h) => open - {h}
  }

  function Do(l: Ledger, s: Step): (r: Ledger)
    ensures r.log == l.log + [s]
  {
    Ledger(After(l.open, s), l.log + [s], l.sound && Allowed(l.open, s))
  }

  /** The two redirection files, and the handles that belong to the child. */
  const FileHandles: set<Handle> := {InFile, OutFile}
  const ChildHandles: set<Handle> := {Job, Process, Thread}
  const AllHandles: set<Handle> := FileHandles + ChildHandles

  /** The cleanup of the early failures: job (when it exists), then the
      files. Both file variables are closed whether or not their `CreateFile`
      succeeded, so the cleanup is legal only when both are open. */
  function CloseFiles(l: Ledger): (r: Ledger)
    requires l.open <= FileHandles
    ensures r.open == {} && (r.sound <==> l.sound && l.open == FileHandles)
    ensures r.log == l.log + [Close(InFile), Close(OutFile)]
  {
    Do(Do(l, Close(InFile)), Close(OutFile))
  }

  /** The cleanup once the child exists: thread, process, job, then the files. */
  function CloseAll(l: Ledger): (r: Ledger)
    requires ChildHandles <= l.open <= AllHandles
    ensures r.open == {} && (r.sound <==> l.sound && l.open == AllHandles)
    ensures forall s :: s in r.log <==> s in l.log || s in [Close(Thread), Close(Process), Close(Job), Close(InFile), Close(OutFile)]
  {
    var j := Do(Do(Do(l, Close(Thread)), Close(Process)), Close(Job));
    assert j.open == l.open - ChildHandles;
    CloseFiles(j)
  }

  /** The raw result of `WaitForSingleObject`; any value other than the
      three named ones is reported as `WAIT_ABANDONED`. */
  datatype WaitAnswer = WaitObject0 | WaitTimeout | WaitFailed | WaitOther

  /** The results of the calls the launcher makes, in order. `peakBefore`
      and `peakAfter` are the `PeakProcessMemoryUsed` values the two job
      queries leave behind. */
  datatype WinRun = WinRun(
    inOpened: bool,
    outOpened: bool,
    jobCreated: bool,
    limitsSet: bool,
    processCreated: bool,
    jobAssigned: bool,
    membershipQueried: bool,
    resumed: bool,
    wait: WaitAnswer,
    exitCodeRead: bool,
    exitCode: nat,
    peakBefore: nat,
    peakAfter: nat)

  predicate ValidWinRun(run: WinRun) {
    IsUint(run.exitCode) && IsSize(run.peakBefore) && IsSize(run.peakAfter)
  }

  /** Every step up to and including `ResumeThread` succeeded. */
  predicate SetupSucceeded(run: WinRun) {
    run.jobCreated && run.limitsSet && run.processCreated && run.jobAssigned
    && run.membershipQueried && run.resumed
  }

  /** The child process exists (and so must be terminated on failure). */
  predicate Spawned(run: WinRun) {
    run.jobCreated && run.limitsSet && run.processCreated
  }

  /** The job's peak-memory delta, subtracted in `size_t` (so a smaller
      second sample wraps to a huge value). */
  function PeakDelta(run: WinRun): (d: nat)
    requires ValidWinRun(run)
    ensures IsSize(d)
    ensures run.peakBefore <= run.peakAfter ==> d == run.peakAfter - run.peakBefore
    ensures run.peakBefore > run.peakAfter ==> d == TWO_64 - (run.peakBefore - run.peakAfter)
  {
    ToSize(run.peakAfter - run.peakBefore)
  }

  /** The `switch` on the wait result; only a signalled wait with a
      readable exit code of 0 leaves the exit code at 0. */
  function WaitVerdict(run: WinRun): (o: Outcome)
    ensures o.Success? <==> run.wait == WaitObject0 && run.exitCodeRead && run.exitCode == 0
    ensures o.Crashed? <==> run.wait == WaitObject0 && run.exitCodeRead && run.exitCode >= CRASH_THRESHOLD
    ensures o.NonZeroExit? <==> run.wait == WaitObject0 && run.exitCodeRead && 0 < run.exitCode < CRASH_THRESHOLD
    ensures o.Crashed? ==> o.raw == run.exitCode
    ensures o.NonZeroExit? ==> o.code == run.exitCode
    ensures o.TimedOut? <==> run.wait == WaitTimeout
  {
    match run.wait
    case WaitObject0 =>
      if !run.exitCodeRead then SystemError(GetExitCodeProcess)
      else if run.exitCode >= CRASH_THRESHOLD then Crashed(run.exitCode)
      else if run.exitCode > 0 then NonZeroExit(run.exitCode)
      else Success
    case WaitTimeout => TimedOut
    case WaitFailed => SystemError(WaitForSingleObject)
    case WaitOther => SystemError(WaitAbandoned)
  }

  /** The launcher's verdict: a failed setup step is a system error; after
      a successful setup the wait verdict stands, except that a clean exit
      whose peak-memory delta exceeds the limit becomes out-of-memory. */
  function WindowsVerdict(limit: nat, run: WinRun): (o: Outcome)
    requires IsSize(limit) && ValidWinRun(run)
    ensures ExitCode(o) == 0 <==>
      SetupSucceeded(run) && run.wait == WaitObject0 && run.exitCodeRead && run.exitCode == 0
      && PeakDelta(run) <= limit
    ensures !SetupSucceeded(run) ==> o.SystemError?
    ensures o.Crashed? <==> SetupSucceeded(run) && run.wait == WaitObject0 && run.exitCodeRead && run.exitCode >= CRASH_THRESHOLD
    ensures o.Crashed? ==> o.raw == run.exitCode
    ensures o.NonZeroExit? <==> SetupSucceeded(run) && run.wait == WaitObject0 && run.exitCodeRead && 0 < run.exitCode < CRASH_THRESHOLD
    ensures o.TimedOut? <==> SetupSucceeded(run) && run.wait == WaitTimeout
    ensures o.OutOfMemory? <==> SetupSucceeded(run) && WaitVerdict(run).Success? && PeakDelta(run) > limit
    ensures o.OutOfMemory? ==> o.usedBytes == PeakDelta(run)
  {
    if !run.jobCreated then SystemError(CreateJobObject)
    else if !run.limitsSet then SystemError(SetInformationJobObject)
    else if !run.processCreated then SystemError(CreateProcess)
    else if !run.jobAssigned then SystemError(AssignProcessToJobObject)
    else if !run.membershipQueried then SystemError(IsProcessInJob)
    else if !run.resumed then SystemError(ResumeThread)
    else
      var verdict := WaitVerdict(run);
      if PeakDelta(run) > limit && verdict.Success? then OutOfMemory(PeakDelta(run))
      else verdict
  }

  /** After the wait: read the exit code of a child that exited, and
      terminate one that did not. */
  function SettlingCall(w: WaitAnswer): Api {
    if w == WaitObject0 then QueryExitCode else Terminate
  }

  /** A ledger in the state the launcher reaches once the child exists and
      before it has been terminated: the child's handles are open, and so
      are the files unless a `CreateFile` failed, which has already made
      the history illegal (the child was created with the invalid handle). */
  predicate ChildLive(l: Ledger) {
    ChildHandles <= l.open <= AllHandles && (l.sound ==> l.open == AllHandles)
    && Open(Process) in l.log && Call(Terminate) !in l.log
  }

  /** A call that needs only the child's handles keeps the ledger as it
      was and adds just itself to the log. */
  lemma CallKeepsLedger(l: Ledger, a: Api)
    requires ChildHandles <= l.open <= AllHandles && Uses(a) <= ChildHandles
    ensures var m := Do(l, Call(a));
      && m.sound == l.sound && m.open == l.open
      && forall s :: s in m.log <==> s in l.log || s == Call(a)
  {
  }

  /** Closing everything after one more call on the child's handles
      empties the ledger, legally when the history was legal, and adds no
      `TerminateProcess` but that call. */
  lemma CloseAllAfterCall(l: Ledger, a: Api)
    requires ChildHandles <= l.open <= AllHandles && (l.sound ==> l.open == AllHandles)
    requires Open(Process) in l.log && Uses(a) <= ChildHandles
    ensures var r := CloseAll(Do(l, Call(a)));
      && r.sound == l.sound && r.open == {} && Open(Process) in r.log
      && Close(InFile) in r.log && Close(OutFile) in r.log
      && (Call(Terminate) in r.log <==> Call(Terminate) in l.log || a == Terminate)
  {
    CallKeepsLedger(l, a);
  }

  /** The end of a run that got past `ResumeThread`. */
  lemma WaitThenCloseAll(waited: Ledger, w: WaitAnswer)
    requires ChildLive(waited)
    ensures var r := CloseAll(Do(Do(waited, Call(SettlingCall(w))), Call(QueryPeak)));
      && r.sound == waited.sound && r.open == {} && Open(Process) in r.log
      && Close(InFile) in r.log && Close(OutFile) in r.log
      && (Call(Terminate) in r.log <==> w != WaitObject0)
  {
    CallKeepsLedger(waited, SettlingCall(w));
    CloseAllAfterCall(Do(waited, Call(SettlingCall(w))), QueryPeak);
  }

  /** The launcher once the child exists, suspended and with its handles
      open: assign it to the job, check the membership, sample the peak,
      resume, wait, then settle and sample again. A failure before the wait
      terminates the child; so does a wait that did not see it exit. */
  function ChildLedger(l: Ledger, run: WinRun): (r: Ledger)
    requires ChildLive(l)
    ensures r.sound == l.sound && r.open == {} && Open(Process) in r.log
    ensures Close(InFile) in r.log && Close(OutFile) in r.log
    ensures Call(Terminate) in r.log <==>
      !(run.jobAssigned && run.membershipQueried && run.resumed && run.wait == WaitObject0)
  {
    CallKeepsLedger(l, Assign);
    var inJob := Do(l, Call(Assign));
    if !run.jobAssigned then
      CloseAllAfterCall(inJob, Terminate);
      CloseAll(Do(inJob, Call(Terminate)))
    else
      CallKeepsLedger(inJob, QueryMembership);
      var checked := Do(inJob, Call(QueryMembership));
      if !run.membershipQueried then
        CloseAllAfterCall(checked, Terminate);
        CloseAll(Do(checked, Call(Terminate)))
      else
        CallKeepsLedger(checked, QueryPeak);
        CallKeepsLedger(Do(checked, Call(QueryPeak)), Resume);
        var resumed := Do(Do(checked, Call(QueryPeak)), Call(Resume));
        if !run.resumed then
          CloseAllAfterCall(resumed, Terminate);
          CloseAll(Do(resumed, Call(Terminate)))
        else
          CallKeepsLedger(resumed, WaitChild);
          var waited := Do(resumed, Call(WaitChild));
          WaitThenCloseAll(waited, run.wait);
          CloseAll(Do(Do(waited, Call(SettlingCall(run.wait))), Call(QueryPeak)))
  }

  /** The step a `CreateFile` call contributes. */
  function Acquire(h: Handle, ok: bool): Step {
    if ok then Open(h) else Failed(h)
  }

  /** The file handles `CreateFile` actually opened. */
  function OpenedFiles(run: WinRun): (fs: set<Handle>)
    ensures fs <= FileHandles
    ensures fs == FileHandles <==> run.inOpened && run.outOpened
  {
    (if run.inOpened then {InFile} else {}) + (if run.outOpened then {OutFile} else {})
  }

  /** The launcher from the moment both `CreateFile` calls have returned:
      create the job and set its limits, create the suspended child, then
      go on as `ChildLedger`; an early failure closes the job (when it
      exists) and the files. The history stays legal exactly when both
      files are open. */
  function SetupLedger(l: Ledger, run: WinRun): (r: Ledger)
    requires l.sound && l.open <= FileHandles
    requires Open(Process) !in l.log && Call(Terminate) !in l.log
    ensures r.open == {}
    ensures r.sound <==> l.open == FileHandles
    ensures Close(InFile) in r.log && Close(OutFile) in r.log
    ensures Call(Terminate) in r.log <==>
      Spawned(run) && !(SetupSucceeded(run) && run.wait == WaitObject0)
    ensures Open(Process) in r.log <==> Spawned(run)
  {
    if !run.jobCreated then CloseFiles(l)
    else
      var limited := Do(Do(l, Open(Job)), Call(SetLimits));
      assert limited.open == l.open + {Job} && limited.sound;
      assert limited.log == l.log + [Open(Job), Call(SetLimits)];
      if !run.limitsSet then
        assert Do(limited, Close(Job)).open == l.open;
        CloseFiles(Do(limited, Close(Job)))
      else
        var created := Do(limited, Call(CreateChild));
        assert created.open == l.open + {Job};
        assert created.sound <==> l.open == FileHandles;
        assert created.log == limited.log + [Call(CreateChild)];
        if !run.processCreated then
          assert Do(created, Close(Job)).open == l.open;
          CloseFiles(Do(created, Close(Job)))
        else
          var child := Do(Do(created, Open(Process)), Open(Thread));
          assert child.log == created.log + [Open(Process), Open(Thread)];
          assert child.open == l.open + ChildHandles;
          assert ChildLive(child);
          ChildLedger(child, run)
  }

  /** The handle ledger of the launcher: what it opens, uses and closes,
      in order, given the results of its calls. Every return leaves no
      handle open. The history is legal (each handle acquired is closed
      exactly once, and none is used unopened or after closing) exactly
      when both `CreateFile` calls succeeded: their results are never
      checked, so a failed one is handed to `CreateProcess` and closed. The
      child is terminated exactly when it was created and then either a
      later setup step failed or the wait did not see it exit. */
  function WindowsLedger(run: WinRun): (l: Ledger)
    ensures l.open == {}
    ensures l.sound <==> run.inOpened && run.outOpened
    ensures Close(InFile) in l.log && Close(OutFile) in l.log
    ensures Call(Terminate) in l.log <==>
      Spawned(run) && !(SetupSucceeded(run) && run.wait == WaitObject0)
    ensures Open(Process) in l.log <==> Spawned(run)
  {
    var files := Do(Do(Fresh, Acquire(InFile, run.inOpened)), Acquire(OutFile, run.outOpened));
    assert files.open == OpenedFiles(run) && files.sound;
    assert files.log == [Acquire(InFile, run.inOpened), Acquire(OutFile, run.outOpened)];
    SetupLedger(files, run)
  }
}
