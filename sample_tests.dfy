/**
 * The sample fixture `SampleTests` and the program type beside it, as data
 * for the runner, and what a run over that assembly yields: four results in
 * declaration order, three passing, `TestThatFails` failing with its own
 * message, and `NotATest` never run.
 */
module SampleScenario {
  import opened Wrappers
  import opened Queries
  import opened Reflection
  import opened TestResults
  import opened TestRunner

  /** A method body that returns and leaves the instance as it is. */
  function Returns(s: State): Outcome { Returned(s) }

  /** `Setup`: `_testValue = 42`. */
  function SetupBody(s: State): Outcome { Returned(s["_testValue" := 42]) }

  /** `TestThatPasses`: throws unless `_testValue` is 42. */
  function PassesBody(s: State): Outcome
  {
    if "_testValue" in s && s["_testValue"] == 42 then Returned(s)
    else Raised(Exception("Test value should be 42", None), s)
  }

  /** `TestThatFails`: always throws. */
  function FailsBody(s: State): Outcome { Raised(Exception("This test always fails", None), s) }

  /** `TestBasicMath`: `2 + 2` is checked against 4 (the interpolated message is shortened to its fixed part). */
  function MathBody(s: State): Outcome
  {
    var result := 2 + 2;
    if result != 4 then Raised(Exception("Expected 4, got ", None), s) else Returned(s)
  }

  /**
   * `TestStringOperations`: "Hello World" is checked to contain "World".  The
   * containment test is written as a test of the suffix from index 6, which
   * gives the same answer on this fixed string.
   */
  function StringBody(s: State): Outcome
  {
    var text := "Hello World";
    if text[6..] != "World" then Raised(Exception("String should contain 'World'", None), s) else Returned(s)
  }

  const SetupM := MethodInfo("Setup", {Setup}, 0, SetupBody)
  const TeardownM := MethodInfo("Teardown", {Teardown}, 0, Returns)
  const PassesM := MethodInfo("TestThatPasses", {Test}, 0, PassesBody)
  const FailsM := MethodInfo("TestThatFails", {Test}, 0, FailsBody)
  const MathM := MethodInfo("TestBasicMath", {Test}, 0, MathBody)
  const StringM := MethodInfo("TestStringOperations", {Test}, 0, StringBody)
  const NotATestM := MethodInfo("NotATest", {}, 0, Returns)

  /** The `[Test]` methods, in declaration order. */
  const SampleTestList := [PassesM, FailsM, MathM, StringM]

  /** The unmarked public methods: `NotATest` and those inherited from `object`. */
  const Unmarked := [NotATestM, MethodInfo("ToString", {}, 0, Returns), MethodInfo("Equals", {}, 1, Returns),
                     MethodInfo("GetHashCode", {}, 0, Returns), MethodInfo("GetType", {}, 0, Returns)]

  /** The public instance methods of `SampleTests`, in declaration order, then those inherited from `object`. */
  const SampleMethods: seq<MethodInfo> := [SetupM, TeardownM] + SampleTestList + Unmarked

  /** `SampleTests`: a fresh instance has `_testValue == 0`. */
  const SampleTestsClass := ClassInfo("SampleTests", SampleMethods, Constructed(map["_testValue" := 0]))

  /** `Program`: no method carries `[Test]`. */
  const ProgramClass := ClassInfo("Program", [MethodInfo("Main", {}, 1, Returns)], Constructed(map[]))

  const SampleAssembly: Assembly := [ProgramClass, SampleTestsClass]

  lemma ProgramHasNoTest()
    ensures !HasTestMethod(ProgramClass)
  {
    assert !IsTest(ProgramClass.methods[0]);
  }

  /** Discovery keeps `SampleTests` alone. */
  lemma SampleDiscovery()
    ensures DiscoverTestClasses(SampleAssembly) == [SampleTestsClass]
  {
    ProgramHasNoTest();
    assert SampleMethods[2] == PassesM && IsTest(PassesM);
    assert HasTestMethod(SampleTestsClass);
    WhereAppend([ProgramClass], [SampleTestsClass], HasTestMethod);
    assert SampleAssembly == [ProgramClass] + [SampleTestsClass];
    assert Where([ProgramClass], HasTestMethod) == [] by {
      assert [ProgramClass][1..] == [];
    }
    assert Where([SampleTestsClass], HasTestMethod) == [SampleTestsClass] by {
      assert [SampleTestsClass][1..] == [];
    }
  }

  /** Every method of `s` carries `[Test]`, so filtering keeps them all. */
  lemma {:induction false} WhereAllTests(s: seq<MethodInfo>)
    requires forall i :: 0 <= i < |s| ==> IsTest(s[i])
    ensures Where(s, IsTest) == s
  {
    if s != [] {
      WhereAllTests(s[1..]);
    }
  }

  lemma NoTestAmongSetupAndTeardown()
    ensures Where([SetupM, TeardownM], IsTest) == []
  {
    WhereNone([SetupM, TeardownM], IsTest);
  }

  lemma NoTestAmongUnmarked()
    ensures Where(Unmarked, IsTest) == []
  {
    WhereNone(Unmarked, IsTest);
  }

  lemma AllSampleTestsKept()
    ensures Where(SampleTestList, IsTest) == SampleTestList
  {
    WhereAllTests(SampleTestList);
  }

  /** The tests of `SampleTests` are its four marked methods, in declaration order; `NotATest` is not among them. */
  lemma SampleTestMethods()
    ensures TestMethods(SampleTestsClass) == SampleTestList
  {
    NoTestAmongSetupAndTeardown();
    NoTestAmongUnmarked();
    AllSampleTestsKept();
    var head: seq<MethodInfo> := [SetupM, TeardownM];
    WhereAppend(head, SampleTestList, IsTest);
    WhereAppend(head + SampleTestList, Unmarked, IsTest);
  }

  lemma SampleSetup()
    ensures SetupMethod(SampleTestsClass) == Some(SetupM)
  {
    assert SampleMethods[0] == SetupM;
  }

  lemma SampleTeardown()
    ensures TeardownMethod(SampleTestsClass) == Some(TeardownM)
  {
    var ms := SampleMethods;
    assert ms[0] == SetupM && !IsTeardown(SetupM);
    assert FirstOrDefault(ms, IsTeardown) == FirstOrDefault(ms[1..], IsTeardown);
    assert ms[1..][0] == TeardownM;
  }

  /** The three tests that hold pass (setup sets `_testValue` to 42 before `TestThatPasses` checks it), and the runner writes no teardown-error line. */
  lemma SamplePasses(test: MethodInfo, clock: Clock, tick: nat)
    requires test == PassesM || test == MathM || test == StringM
    ensures SingleTest(SampleTestsClass, test, Some(SetupM), Some(TeardownM), clock, tick).result
         == TestResult("SampleTests." + test.name, true, None, clock(tick + 1) - clock(tick))
    ensures SingleTest(SampleTestsClass, test, Some(SetupM), Some(TeardownM), clock, tick).console == []
  {
  }

  /** `TestThatFails` fails with its own message, not the reflection wrapper's. */
  lemma SampleFails(clock: Clock, tick: nat)
    ensures SingleTest(SampleTestsClass, FailsM, Some(SetupM), Some(TeardownM), clock, tick).result
         == TestResult("SampleTests." + FailsM.name, false, Some("This test always fails"), clock(tick + 1) - clock(tick))
    ensures SingleTest(SampleTestsClass, FailsM, Some(SetupM), Some(TeardownM), clock, tick).console == []
  {
  }

  /**
   * What the sample run yields: the four tests in declaration order, at clock
   * readings 0, 2, 4 and 6, `TestThatFails` failing with its own message, and
   * no teardown-error line written by the runner.
   */
  function SampleOutcome(clock: Clock): Batch
  {
    Batch([TestResult("SampleTests." + PassesM.name, true, None, clock(1) - clock(0)),
           TestResult("SampleTests." + FailsM.name, false, Some("This test always fails"), clock(3) - clock(2)),
           TestResult("SampleTests." + MathM.name, true, None, clock(5) - clock(4)),
           TestResult("SampleTests." + StringM.name, true, None, clock(7) - clock(6))], [])
  }

  lemma SampleBatch(clock: Clock)
    ensures ClassBatch(SampleTestsClass, clock, 0) == SampleOutcome(clock)
  {
    SampleTestMethods();
    SampleSetup();
    SampleTeardown();
    SampleClassRun(clock);
  }

  /** The four tests of `SampleTests`, run in order with its setup and teardown, yield the sample's outcome. */
  lemma SampleClassRun(clock: Clock)
    ensures ClassRun(SampleTestsClass, SampleTestList, Some(SetupM), Some(TeardownM), clock, 0, 4) == SampleOutcome(clock)
  {
    var c, ts, su, td := SampleTestsClass, SampleTestList, Some(SetupM), Some(TeardownM);
    var rs := SampleOutcome(clock).results;
    assert ts[0] == PassesM && ts[1] == FailsM && ts[2] == MathM && ts[3] == StringM;
    SamplePasses(PassesM, clock, 0);
    assert ClassRun(c, ts, su, td, clock, 0, 1) == Batch(rs[..1], []);
    SampleFails(clock, 2);
    assert ClassRun(c, ts, su, td, clock, 0, 2) == Batch(rs[..2], []);
    SamplePasses(MathM, clock, 4);
    assert ClassRun(c, ts, su, td, clock, 0, 3) == Batch(rs[..3], []);
    SamplePasses(StringM, clock, 6);
    assert ClassRun(c, ts, su, td, clock, 0, 4) == Batch(rs[..4], []);
    assert rs[..4] == rs;
  }

  /** The run over `Program` and `SampleTests` yields exactly the batch of `SampleTests`. */
  lemma SampleRun(clock: Clock)
    ensures Run(SampleAssembly, clock) == SampleOutcome(clock)
  {
    SampleDiscovery();
    assert RunAll([SampleTestsClass], clock, 0, 0) == Batch([], []);
    SampleBatch(clock);
  }

  /**
   * The sample's verdicts: four results named after the four `[Test]` methods
   * in declaration order, `TestThatFails` the only failure with its own
   * message, three passed and one failed, no result for `NotATest`.
   */
  lemma SampleVerdicts(clock: Clock)
    ensures |SampleOutcome(clock).results| == 4
    ensures forall k :: 0 <= k < 4 ==>
      SampleOutcome(clock).results[k].testName == "SampleTests." + SampleTestList[k].name
    ensures forall k :: 0 <= k < 4 ==> (SampleOutcome(clock).results[k].passed <==> k != 1)
    ensures SampleOutcome(clock).results[1].errorMessage == Some("This test always fails")
    ensures Count(SampleOutcome(clock).results, IsPassed) == 3
    ensures Count(SampleOutcome(clock).results, IsFailed) == 1
    ensures forall r | r in SampleOutcome(clock).results :: r.testName != "SampleTests.NotATest"
  {
    var rs := SampleOutcome(clock).results;
    CountOneFailureInFour(rs);
    forall r | r in rs ensures r.testName != "SampleTests.NotATest" {
      assert |r.testName| != |"SampleTests.NotATest"|;
    }
  }

  /** Counting the verdicts of four results, the second of which alone failed. */
  lemma CountOneFailureInFour(rs: seq<TestResult>)
    requires |rs| == 4 && forall k :: 0 <= k < 4 ==> (rs[k].passed <==> k != 1)
    ensures Count(rs, IsPassed) == 3 && Count(rs, IsFailed) == 1
  {
    assert rs[3..][1..] == [];
    assert Count(rs[3..], IsPassed) == 1 && Count(rs[3..], IsFailed) == 0;
    assert rs[2..][1..] == rs[3..];
    assert Count(rs[2..], IsPassed) == 2 && Count(rs[2..], IsFailed) == 0;
    assert rs[1..][1..] == rs[2..];
    assert Count(rs[1..], IsPassed) == 2 && Count(rs[1..], IsFailed) == 1;
  }

  /**
   * Running the sample assembly: a summary of four tests, three passed and
   * one failed, holding the sample's results, and no teardown-error line written by the runner.
   */
  method RunSampleTests(clock: Clock) returns (summary: TestSummary, console: seq<string>)
    ensures summary.totalTests == 4 && summary.passedTests == 3 && summary.failedTests == 1
    ensures summary.results == SampleOutcome(clock).results
    ensures console == []
  {
    summary, console := RunTests(SampleAssembly, clock);
    SampleRun(clock);
    SampleVerdicts(clock);
  }
}
