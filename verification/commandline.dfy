/** The argument handling at the top of `main`: the optional `-m KiB` and
    `-t timeout` prefix, the `-e path` switch into launcher mode, and the
    argument list the tester builds to re-invoke itself as that launcher. */
module CommandLine {
  import opened CInt
  import opened Decimal
  import opened Limits

  datatype Option<T> = None | Some(value: T)

  /** The largest kibibyte count whose byte value `k * 1024` still fits in
      an `int` override. */
  const MAX_FLAG_KIB: nat := INT_MAX / 1024

  /** The largest byte limit that survives the trip through the helper
      command without overflowing the helper's `int` override. */
  const MAX_ROUND_TRIP_LIMIT: nat := MAX_FLAG_KIB * 1024

  /** `sizeof(runnerCommand)`. */
  const COMMAND_BUFFER: nat := 4096

  /** The overrides the flag prefix set and what is left of `argv` after
      the driver advanced it past each consumed flag (`argv += 2`). */
  datatype Flags = Flags(overrides: Overrides, rest: seq<string>)

  /** `flag` followed by a value `atoi` reads as non-zero sits at argv[1],
      and at least one more argument follows. */
  predicate NumericFlagAt(argv: seq<string>, flag: string) {
    |argv| >= 4 && argv[1] == flag && Atoi(argv[2]) != 0
  }

  /** `-m` is tried first and `-t` second, each only at argv[1]. */
  function ParseFlags(argv: seq<string>): (f: Flags)
    ensures ValidOverrides(f.overrides)
    ensures NumericFlagAt(argv, "-m") ==> f.overrides.memory == ToInt(Atoi(argv[2]) * 1024)
    ensures !NumericFlagAt(argv, "-m") ==> f.overrides.memory == -1
    ensures f.overrides.timeout != -1 ==> f.overrides.timeout != 0
    // `-t` is then looked for at argv[1] of what the `-m` step left
    ensures var a := if NumericFlagAt(argv, "-m") then argv[2..] else argv;
      NumericFlagAt(a, "-t") ==> f.overrides.timeout == Atoi(a[2]) && f.rest == a[2..]
    ensures var a := if NumericFlagAt(argv, "-m") then argv[2..] else argv;
      !NumericFlagAt(a, "-t") ==> f.overrides.timeout == -1 && f.rest == a
    ensures f.rest == argv || (|argv| >= 4 && f.rest == argv[2..]) || (|argv| >= 6 && f.rest == argv[4..])
  {
    var afterMemory :=
      if NumericFlagAt(argv, "-m")
      then Flags(Overrides(ToInt(Atoi(argv[2]) * 1024), -1), argv[2..])
      else Flags(Unset, argv);
    var a := afterMemory.rest;
    if NumericFlagAt(a, "-t")
    then Flags(afterMemory.overrides.(timeout := Atoi(a[2])), a[2..])
    else afterMemory
  }

  /** What `main` goes on to do. */
  datatype Invocation =
    | Launch(labExe: string, overrides: Overrides)
    | Usage
    | Test(runnerExe: string, labExe: string, overrides: Overrides)

  /** The dispatch of `main`: launcher mode when `-e path` follows the
      flags, the usage message when no executable is named, the test run
      otherwise. The runner's own name is the original argv[0]. */
  function ParseCommandLine(argv: seq<string>): (inv: Invocation)
    ensures inv.Launch? || inv.Test? ==> ValidOverrides(inv.overrides)
    ensures inv.Launch? ==> inv.labExe in argv
    ensures inv.Test? ==> |argv| >= 2 && inv.runnerExe == argv[0] && inv.labExe in argv[1..]
    ensures var f := ParseFlags(argv);
      inv.Launch? <==> |f.rest| >= 3 && f.rest[1] == "-e"
    ensures var f := ParseFlags(argv);
      inv.Launch? ==> inv == Launch(f.rest[2], f.overrides)
    ensures inv.Usage? <==> |argv| < 2
    ensures var f := ParseFlags(argv);
      inv.Test? ==> inv.labExe == f.rest[1] && inv.overrides == f.overrides
  {
    var f := ParseFlags(argv);
    var a := f.rest;
    if |a| >= 3 && a[1] == "-e" then Launch(a[2], f.overrides)
    else if |a| < 2 then Usage
    else Test(argv[0], a[1], f.overrides)
  }

  /** The arguments of `"%s -m %zu -t %d -e %s"`, kept as a list. */
  function HelperArgv(runnerExe: string, labExe: string, limit: nat, timeout: nat): seq<string>
    requires IsSize(limit)
  {
    [runnerExe, "-m", NatToString(HelperKiB(limit)), "-t", NatToString(timeout), "-e", labExe]
  }

  /** The length `snprintf` reports for the helper command: the three
      separators " -m ", " -t ", " -e " plus the four fields. */
  function CommandLength(runnerExe: string, labExe: string, limit: nat, timeout: nat): nat
    requires IsSize(limit)
  {
    |runnerExe| + 4 + |NatToString(HelperKiB(limit))| + 4 + |NatToString(timeout)| + 4 + |labExe|
  }

  /** `GetRunnerCommand`: refused only when `snprintf` reports exactly one
      less than the buffer size; any other length is accepted. */
  function RunnerCommand(runnerExe: string, labExe: string, limit: nat, timeout: nat): (c: Option<seq<string>>)
    requires IsSize(limit)
    ensures c.None? <==> CommandLength(runnerExe, labExe, limit, timeout) == COMMAND_BUFFER - 1
    ensures c.Some? ==> c.value == HelperArgv(runnerExe, labExe, limit, timeout)
    ensures c.Some? ==> |c.value| == 7 && c.value[0] == runnerExe && c.value[6] == labExe
  {
    if CommandLength(runnerExe, labExe, limit, timeout) == COMMAND_BUFFER - 1 then None
    else Some(HelperArgv(runnerExe, labExe, limit, timeout))
  }

  /** A command longer than the buffer passes the length guard: only the
      single length 4095 is refused, so a truncated command is still run. */
  lemma LongCommandPassesGuard(runnerExe: string, labExe: string, limit: nat, timeout: nat)
    requires IsSize(limit)
    requires CommandLength(runnerExe, labExe, limit, timeout) >= COMMAND_BUFFER
    ensures RunnerCommand(runnerExe, labExe, limit, timeout).Some?
  {
  }

  /** Without a flag prefix the run uses the test defaults and `argv` is
      left as it is. */
  lemma NoFlagsKeepsDefaults(argv: seq<string>, d: TestDefaults)
    requires ValidDefaults(d)
    requires |argv| < 2 || (argv[1] != "-m" && argv[1] != "-t")
    ensures ParseFlags(argv) == Flags(Unset, argv)
    ensures MemoryLimit(ParseFlags(argv).overrides, d) == d.memoryLimit
    ensures Timeout(ParseFlags(argv).overrides, d) == d.timeout
  {
  }

  /** `-m` is seen only before `-t`: when argv[1] is `-t`, a `-m` that
      follows is not read as a flag, the memory limit stays the default,
      and the `-m` becomes the name of the executable under test. */
  lemma MemoryFlagOnlyFirst(argv: seq<string>, d: TestDefaults)
    requires ValidDefaults(d)
    requires NumericFlagAt(argv, "-t") && argv[3] == "-m"
    ensures ParseFlags(argv).overrides.memory == -1
    ensures ParseFlags(argv).overrides.timeout == Atoi(argv[2])
    ensures MemoryLimit(ParseFlags(argv).overrides, d) == d.memoryLimit
    ensures ParseCommandLine(argv) == Test(argv[0], "-m", ParseFlags(argv).overrides)
  {
  }

  /** `-m k` on the tester's own command line, for a k whose byte value
      fits an `int`, sets a limit of exactly k KiB, and the helper command
      carries k back out unchanged. */
  lemma MemoryFlagRoundTrip(argv: seq<string>, d: TestDefaults)
    requires ValidDefaults(d)
    requires |argv| >= 4 && argv[1] == "-m" && 0 < Atoi(argv[2]) <= MAX_FLAG_KIB
    ensures MemoryLimit(ParseFlags(argv).overrides, d) == Atoi(argv[2]) * 1024
    ensures HelperKiB(MemoryLimit(ParseFlags(argv).overrides, d)) == Atoi(argv[2])
  {
    var k := Atoi(argv[2]);
    assert NumericFlagAt(argv, "-m");
    assert ToInt(k * 1024) == k * 1024;
    HelperKiBOfWholeKiB(k);
  }

  /** The helper re-invocation is parsed back as launcher mode on the same
      executable, with the tester's timeout and with a memory limit that is
      the tester's limit rounded up to whole kibibytes: never smaller and at
      most 1023 bytes larger, whatever defaults the helper itself has. */
  lemma {:induction false} HelperRoundTrip(runnerExe: string, labExe: string, limit: nat, timeout: nat, d: TestDefaults)
    requires 0 < limit <= MAX_ROUND_TRIP_LIMIT
    requires 0 < timeout <= INT_MAX
    requires ValidDefaults(d)
    ensures var inv := ParseCommandLine(HelperArgv(runnerExe, labExe, limit, timeout));
      && inv == Launch(labExe, Overrides(HelperKiB(limit) * 1024, timeout))
      && limit <= MemoryLimit(inv.overrides, d) <= limit + 1023
      && (limit % 1024 == 0 ==> MemoryLimit(inv.overrides, d) == limit)
      && Timeout(inv.overrides, d) == timeout
  {
    var k := HelperKiB(limit);
    assert 0 < k <= MAX_FLAG_KIB by {
      assert limit <= k * 1024 <= limit + 1023;
    }
    var argv := HelperArgv(runnerExe, labExe, limit, timeout);
    AtoiOfNatToString(k);
    AtoiOfNatToString(timeout);
    assert NumericFlagAt(argv, "-m");
    assert ToInt(k * 1024) == k * 1024;
    var a := argv[2..];
    assert a == [NatToString(k), "-t", NatToString(timeout), "-e", labExe];
    assert NumericFlagAt(a, "-t");
    assert a[2..] == [NatToString(timeout), "-e", labExe];
    if limit % 1024 == 0 {
      HelperKiBOfWholeKiB(limit / 1024);
      assert limit / 1024 * 1024 == limit;
    }
  }

  /** Above `MAX_ROUND_TRIP_LIMIT` the limit does not survive the helper
      command: the helper multiplies the kibibyte count by 1024 in `int`,
      which wraps. The helper still enters launcher mode, but with a byte
      override other than the one sent. */
  lemma {:induction false} LargeLimitBreaksRoundTrip(runnerExe: string, labExe: string, limit: nat, timeout: nat)
    requires IsSize(limit) && MAX_ROUND_TRIP_LIMIT < limit
    requires 0 < HelperKiB(limit) <= INT_MAX
    requires 0 < timeout <= INT_MAX
    ensures var inv := ParseCommandLine(HelperArgv(runnerExe, labExe, limit, timeout));
      && inv.Launch? && inv.labExe == labExe && inv.overrides.timeout == timeout
      && inv.overrides.memory == ToInt(HelperKiB(limit) * 1024)
      && inv.overrides.memory != HelperKiB(limit) * 1024
  {
    var k := HelperKiB(limit);
    assert MAX_FLAG_KIB < k by {
      assert limit <= k * 1024;
    }
    var argv := HelperArgv(runnerExe, labExe, limit, timeout);
    AtoiOfNatToString(k);
    AtoiOfNatToString(timeout);
    assert NumericFlagAt(argv, "-m");
    var a := argv[2..];
    assert a == [NatToString(k), "-t", NatToString(timeout), "-e", labExe];
    assert NumericFlagAt(a, "-t");
    assert a[2..] == [NatToString(timeout), "-e", labExe];
  }

  /** A 2 GiB limit wraps negative in the helper, which then falls back to
      its own default. */
  lemma TwoGiBLimitLost(runnerExe: string, labExe: string, timeout: nat, d: TestDefaults)
    requires 0 < timeout <= INT_MAX
    requires ValidDefaults(d)
    ensures MemoryLimit(ParseCommandLine(HelperArgv(runnerExe, labExe, 0x8000_0000, timeout)).overrides, d) == d.memoryLimit
  {
    assert HelperKiB(0x8000_0000) == 0x20_0000;
    LargeLimitBreaksRoundTrip(runnerExe, labExe, 0x8000_0000, timeout);
    assert ToInt(0x20_0000 * 1024) == INT_MIN;
  }

  /** A 4 GiB limit wraps to 0 bytes in the helper, so every run exceeds it. */
  lemma FourGiBLimitLost(runnerExe: string, labExe: string, timeout: nat, d: TestDefaults)
    requires 0 < timeout <= INT_MAX
    requires ValidDefaults(d)
    ensures MemoryLimit(ParseCommandLine(HelperArgv(runnerExe, labExe, 0x1_0000_0000, timeout)).overrides, d) == 0
  {
    assert HelperKiB(0x1_0000_0000) == 0x40_0000;
    LargeLimitBreaksRoundTrip(runnerExe, labExe, 0x1_0000_0000, timeout);
    assert ToInt(0x40_0000 * 1024) == 0;
  }

  /** A zero limit or a zero timeout is printed as "0", which `atoi` reads
      as "no flag"; so is a limit within 1023 of `SIZE_MAX`, whose rounding
      sum wraps to 0 KiB. The helper then does not enter launcher mode but
      starts a test run on an executable named after the flag. */
  lemma ZeroFieldDefeatsLauncher(runnerExe: string, labExe: string, limit: nat, timeout: nat)
    requires IsSize(limit)
    requires HelperKiB(limit) == 0 || timeout == 0
    ensures var inv := ParseCommandLine(HelperArgv(runnerExe, labExe, limit, timeout));
      inv.Test? && inv.labExe == (if HelperKiB(limit) == 0 then "-m" else "-t")
  {
    var argv := HelperArgv(runnerExe, labExe, limit, timeout);
    AtoiOfNatToString(HelperKiB(limit));
    AtoiOfNatToString(timeout);
    if HelperKiB(limit) == 0 {
      assert !NumericFlagAt(argv, "-m");
    } else {
      assert NumericFlagAt(argv, "-m");
      var a := argv[2..];
      assert a == [NatToString(HelperKiB(limit)), "-t", NatToString(timeout), "-e", labExe];
      assert !NumericFlagAt(a, "-t");
    }
  }
}
