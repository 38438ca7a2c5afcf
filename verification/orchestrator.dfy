/** `main`: argument dispatch and the test loop. For each test the tester
    stages the input, re-invokes itself as a launcher through the shell,
    and checks the output, stopping at the first test that fails. The test
    suite's callbacks and the shell are supplied as results. */
module Orchestrator {
  import opened Limits
  import opened CommandLine

  /** The test suite and the shell, as seen by the tester: `GetTestCount()`,
      and for test i the results of its `Feeder`, of `system` on the helper
      command, and of its `Checker`; 0 means success for each. */
  datatype Suite = Suite(count: int, feeder: nat -> int, shell: nat -> int, checker: nat -> int)

  /** Test i gets through all four stages; `commandBuilt` is whether
      `GetRunnerCommand` produced a command, which is the same for every test. */
  predicate TestPasses(s: Suite, commandBuilt: bool, i: nat) {
    s.feeder(i) == 0 && commandBuilt && s.shell(i) == 0 && s.checker(i) == 0
  }

  /** The test loop: it returns the index it stopped at, which is the
      first failing test, or the test count when every test passed (0 when
      the count is not positive). */
  method RunTests(s: Suite, commandBuilt: bool) returns (stopped: nat)
    ensures s.count <= 0 ==> stopped == 0
    ensures s.count > 0 ==> stopped <= s.count
    ensures forall j :: 0 <= j < stopped ==> TestPasses(s, commandBuilt, j)
    ensures stopped < s.count ==> !TestPasses(s, commandBuilt, stopped)
  {
    stopped := 0;
    while stopped < s.count
      invariant s.count > 0 ==> stopped <= s.count
      invariant s.count <= 0 ==> stopped == 0
      invariant forall j :: 0 <= j < stopped ==> TestPasses(s, commandBuilt, j)
      decreases s.count - stopped
    {
      if s.feeder(stopped) != 0 {
        break;
      }
      if !commandBuilt {
        break;
      }
      if s.shell(stopped) != 0 {
        break;
      }
      if s.checker(stopped) != 0 {
        break;
      }
      stopped := stopped + 1;
    }
  }

  /** Whether the helper command can be built for a test run. */
  predicate CommandBuilt(inv: Invocation, d: TestDefaults)
    requires inv.Test? && ValidOverrides(inv.overrides) && ValidDefaults(d)
  {
    RunnerCommand(inv.runnerExe, inv.labExe, MemoryLimit(inv.overrides, d), Timeout(inv.overrides, d)).Some?
  }

  /** `main`. In launcher mode it returns what the platform's launcher
      returns (`launchResult`); without an executable it returns 1; as a
      tester it returns 0 exactly when every test passed, and 1 otherwise. */
  method TesterMain(argv: seq<string>, d: TestDefaults, s: Suite, launchResult: int) returns (code: int)
    requires ValidDefaults(d)
    ensures ParseCommandLine(argv).Launch? ==> code == launchResult
    ensures ParseCommandLine(argv).Usage? ==> code == 1
    ensures |argv| < 2 ==> code == 1
    ensures ParseCommandLine(argv).Test? ==>
      && (code == 0 || code == 1)
      && (code == 0 <==> forall j :: 0 <= j < s.count ==> TestPasses(s, CommandBuilt(ParseCommandLine(argv), d), j))
  {
    var inv := ParseCommandLine(argv);
    match inv
    case Launch(_, _) =>
      code := launchResult;
    case Usage =>
      code := 1;
    case Test(runnerExe, labExe, o) =>
      var built := CommandBuilt(inv, d);
      var stopped := RunTests(s, built);
      code := if stopped < s.count then 1 else 0;
  }
}
