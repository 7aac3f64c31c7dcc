# A verified model of the custom test runner

This project models `CustomTestRunner`, the core of a small reflection-based
unit-test runner for .NET, together with its result types `TestResult` and
`TestSummary`. The runner works like this:

- it discovers the types of an assembly that declare at least one
  `[Test]` method;
- for each such type it collects the `[Test]` methods, the first `[Setup]`
  method and the first `[Teardown]` method;
- it runs every test on a fresh instance. Setup, the body and teardown run
  inside a try/catch/finally. One level of reflection wrapping is taken off
  the caught exception. A teardown exception is only logged. Each test is
  timed from before construction to after teardown;
- it collects every result into a summary, whose counters it then computes
  from the result list.

The modules follow the program's structure:

| file | module | what it holds |
|---|---|---|
| `wrappers.dfy` | `Wrappers` | `Option`, used for C#'s `null` |
| `queries.dfy` | `Queries` | the LINQ operators the runner uses: `Where`, `Any`, `FirstOrDefault`, `Count` |
| `reflection.dfy` | `Reflection` | an abstract assembly and how `MethodInfo.Invoke` and `Activator.CreateInstance` report exceptions |
| `test_result.dfy` | `TestResults` | `TestResult` as a value; `TestSummary` as a class with its four mutable properties and a `Valid()` predicate |
| `test_runner.dfy` | `TestRunner` | discovery, role lookups, and the three imperative operations, each proved against a specification function |
| `runner_properties.dfy` | `RunnerProperties` | what the runner guarantees |
| `sample_tests.dfy` | `SampleScenario` | the `SampleTests` fixture as data, and what a run over it yields |

How the model works:

- **Imperative operations.**
  - `RunSingleTest` is a method that builds the result step by step, as the source does. Its postcondition equates what it returns with the function `SingleTest`.
  - `RunTestsInClass` loops over the test methods and appends to a list. Its loop invariant is `ClassRun`, the first `i` tests.
  - `RunTests` extends `summary.results` in place on a fresh `TestSummary`, then assigns the three counters. It promises `summary.Valid()`, and that the result list and console output are `Run(assembly, clock)`.
- **Lifecycle trace.** `RunSingleTest` also has a ghost out-parameter, the sequence of lifecycle steps. The steps are: clock reading, instance creation, setup, body, teardown, clock reading. This trace lets the ordering properties be stated.
- **Instances.** The instance's field values are a `map<string, int>`. A method body is a function from those values to an outcome: normal return, or an exception. Both carry the field values as they then stand. Because the instance is one shared object, teardown sees what the body left, even when the body threw.
- **Reflection calls.** `Reflection.Invoke` and `Reflection.CreateInstance` are the model's definitions of `MethodInfo.Invoke` and `Activator.CreateInstance`, calls into the framework. `InvokeReports` states what the core relies on from `Invoke`.
- **Clock.** The wall clock is an abstract `Clock` that gives the `k`-th `DateTime.Now` reading. Test `k` of a run reads it at `2k` and `2k + 1`.

## Model

| member | source | states |
|---|---|---|
| `Queries.Where` | Core/TestRunner.cs:39-42 | the kept elements all satisfy the predicate and come from the input; an element of the input is kept exactly when it satisfies the predicate; no more elements than the input |
| `Queries.Count` | Core/TestRunner.cs:28-29 | the count never exceeds the number of elements |
| `Queries.FirstOrDefaultFindsFirstMatch` | Core/TestRunner.cs:56-60 | `FirstOrDefault` (the lookup behind `SetupMethod` and `TeardownMethod`) is `None` exactly when no element matches, and otherwise returns the element at the first matching index |
| `Queries.WhereAppend` | Core/TestRunner.cs:39-42 | filtering distributes over concatenation, so order is kept |
| `Queries.WhereAround` | Core/TestRunner.cs:39-42 | filtering around one element: what precedes it, then it if kept, then what follows |
| `Queries.AnyIffWhereNonEmpty` | Core/TestRunner.cs:40-41 | `Any` (the discovery test) holds exactly when `Where` keeps something |
| `Queries.WhereNone` | Core/TestRunner.cs:39-42 | when nothing satisfies the predicate, nothing is kept |
| `Queries.CountIsWhereLength` | Core/TestRunner.cs:28-29 | `Count` with a predicate is the length of the filtered list |
| `Queries.CountComplement` | Core/TestRunner.cs:28-29 | counting a predicate and its negation splits the whole list |
| `Queries.CountAppend` | Core/TestRunner.cs:24-29 | counting distributes over concatenation |
| `Queries.FirstMatchUnique` | Core/TestRunner.cs:56-60 | there is only one first match, so the lookup is deterministic |
| `Reflection.Wrap` | Core/TestRunner.cs:104 | the wrapper reflection puts around an exception has that exception as its inner exception |
| `Reflection.InvokeReports` | Core/TestRunner.cs:92-95 | `Invoke` completes exactly when there is an instance, no parameter is expected and the body returns, and then with the body's field values; an instance survives a throw exactly when there was one; only the invoked code's own exceptions come back wrapped, with the wrapper's message and the instance the body left; every unwrapped exception of the modelled `Invoke` is one of its two refusals ("Non-static method requires a target." on `null`, the parameter-count refusal) |
| `Reflection.CreateInstance` | Core/TestRunner.cs:89 | an instance exists exactly when the type is constructible; every failure leaves no instance |
| `TestResults.NewTestResult` | Core/TestRunner.cs:78-81 | a fresh result has the given name, is not passed and has no message |
| `TestResults.TestSummary.constructor` | Core/TestResult.cs:22-25 | a new summary has all three counters at zero and an empty result list |
| `TestResults.ValidSummaryBalances` | Core/TestRunner.cs:27-29 | `TestSummary.Valid` holds the counters as the runner assigns them from the results, so in a valid summary total = passed + failed = number of results |
| `TestResults.CountsPartition` | Core/TestRunner.cs:28-29 | the passed and failed counts add up to the number of results |
| `TestResults.NoFailuresIffAllPassed` | Core/TestRunner.cs:29 | the failed count is zero exactly when every result passed |
| `TestRunner.DiscoverTestClasses` | Core/TestRunner.cs:37-43 | every discovered type declares a `[Test]` method (the converse and the order: `DiscoveryKeepsExactlyTestClasses`, `DiscoveryKeepsOrder`) |
| `TestRunner.TestMethods` | Core/TestRunner.cs:52-54 | every method kept as a test carries `[Test]` (the converse: `TestMethodsAreTheMarkedOnes`) |
| `RunnerProperties.TryBlockSteps` | Core/TestRunner.cs:86-99 | the `try` block creates the instance, calls setup only on an instance and the body only once construction and setup complete; nothing is caught exactly when the body then returns normally; an instance remains exactly when construction succeeded |
| `RunnerProperties.UnwrapUndoesWrap` | Core/TestRunner.cs:104-105 | `ErrorMessageOf` gives back the invoked code's own message from a reflection wrapper, and an unwrapped exception's own message |
| `RunnerProperties.FinallyBlockSteps` | Core/TestRunner.cs:107-118 | the `finally` block attempts teardown once when there is one and writes at most one line: the "Non-static method requires a target." line on a missing instance; on an instance, a line exactly when teardown does not complete, carrying the wrapper's message when the teardown body throws |
| `TestRunner.SingleTest` | Core/TestRunner.cs:75-124 | the name is "Class.Method"; the message is present exactly when the test did not pass; the duration is the later clock reading minus the earlier one |
| `TestRunner.RunSingleTest` | Core/TestRunner.cs:75-124 | the result, the console lines and the lifecycle steps of the step-by-step try/catch/finally are those of `SingleTest` |
| `TestRunner.ClassRun` | Core/TestRunner.cs:63-67 | running the first `n` tests of a class gives exactly `n` results |
| `TestRunner.ClassBatch` | Core/TestRunner.cs:48-70 | a class's batch has one result per `[Test]` method (each result's content: `ClassResultsFollowTestMethods`) |
| `TestRunner.RunTestsInClass` | Core/TestRunner.cs:48-70 | the results and console lines are those of the class's `[Test]` methods run in order with its first setup and teardown methods; one result per test method |
| `TestRunner.RunAll` | Core/TestRunner.cs:21-25 | the concatenated results number the `[Test]` methods of the classes run |
| `TestRunner.RunTests` | Core/TestRunner.cs:16-32 | returns a fresh summary whose counters agree with its results (`Valid`), and whose results and console lines are those of running the discovered classes in order |
| `RunnerProperties.TestBearingIffHasTests` | Core/TestRunner.cs:37-54 | a type is discovered by the `Any` test exactly when it has at least one `[Test]` method to run |
| `RunnerProperties.DiscoveryKeepsExactlyTestClasses` | Core/TestRunner.cs:37-43 | every discovered type has a test, a type of the assembly is discovered exactly when it has a `[Test]` method, and nothing else is discovered |
| `RunnerProperties.DiscoveryKeepsOrder` | Core/TestRunner.cs:37-43 | discovery keeps assembly order around any type |
| `RunnerProperties.TestMethodsAreTheMarkedOnes` | Core/TestRunner.cs:52-54 | the tests are exactly the methods carrying `[Test]`, whatever their names |
| `RunnerProperties.TestMethodsKeepOrder` | Core/TestRunner.cs:52-54 | test methods keep declaration order |
| `RunnerProperties.SetupIsFirstMarked` | Core/TestRunner.cs:56-57 | the setup method is the first one carrying `[Setup]`, and `None` when none carries it |
| `RunnerProperties.TeardownIsFirstMarked` | Core/TestRunner.cs:59-60 | the teardown method is the first one carrying `[Teardown]`, and `None` when none carries it |
| `RunnerProperties.PassedIffNothingThrows` | Core/TestRunner.cs:86-98 | a test passes exactly when construction, setup and the body all complete normally |
| `RunnerProperties.LifecycleTrace` | Core/TestRunner.cs:83-120 | the steps are, in order: start clock reading, one instance creation, setup if the instance exists, the body if construction and setup completed, teardown whenever there is one, end clock reading |
| `RunnerProperties.BodyInvokedIffReached` | Core/TestRunner.cs:89-95 | the body is invoked once when construction and setup complete, and never otherwise |
| `RunnerProperties.TeardownExactlyOnce` | Core/TestRunner.cs:107-112 | teardown is attempted exactly once when there is one, whatever construction, setup and the body returned or threw, and never otherwise |
| `RunnerProperties.TeardownNeverChangesVerdict` | Core/TestRunner.cs:109-118 | on the same clock readings, the result is the same whatever teardown method there is, or without one |
| `RunnerProperties.TeardownSeesBodyChanges` | Core/TestRunner.cs:112-117 | teardown runs on the instance the body left, even after a throw, and its exception yields only the console line |
| `RunnerProperties.TeardownLineShowsWrapperMessage` | Core/TestRunner.cs:114-117 | the teardown line is not unwrapped: it carries the reflection wrapper's message, not the teardown's own |
| `RunnerProperties.TeardownAttemptedOnConstructionFailure` | Core/TestRunner.cs:84-117 | when construction fails, teardown is still attempted, on `null`, and the resulting "Non-static method requires a target." is only logged |
| `RunnerProperties.SetupFailureSkipsBody` | Core/TestRunner.cs:92-105 | a setup exception fails the test with setup's own message, the body is never invoked and teardown is still attempted |
| `RunnerProperties.BodyFailureReportsItsMessage` | Core/TestRunner.cs:95-106 | an exception from the body fails the test with that exception's own message |
| `RunnerProperties.ConstructionFailureMessage` | Core/TestRunner.cs:89-106 | a constructor exception fails the test with its own message; an exception raised by `CreateInstance` itself is unwrapped one level; the body is never invoked |
| `RunnerProperties.ClassRunAt` | Core/TestRunner.cs:63-67 | result `k` of a class is test `k`'s own lifecycle on its own clock readings |
| `RunnerProperties.TestRunsInIsolation` | Core/TestRunner.cs:65-89 | no instance state leaks between tests: each result is the one the test would get if it ran alone on the same clock readings |
| `RunnerProperties.ClassResultsFollowTestMethods` | Core/TestRunner.cs:63-80 | one result per `[Test]` method, in declaration order, each named "Class.Method" and coming from that method's lifecycle |
| `RunnerProperties.ClassResultsNameMarkedMethods` | Core/TestRunner.cs:52-80 | every result of a class is named after one of its `[Test]` methods |
| `RunnerProperties.TestCountPrefix` | Core/TestRunner.cs:21-25 | the test count over a prefix ignores what follows it |
| `RunnerProperties.TestCountSnoc` | Core/TestRunner.cs:21-25 | appending a type adds its `[Test]` methods to the count |
| `RunnerProperties.DiscoverySnoc` | Core/TestRunner.cs:37-43 | one more type is discovered exactly when it declares a test |
| `RunnerProperties.NonTestClassAddsNothing` | Core/TestRunner.cs:37-54 | a type without a `[Test]` method has no tests to run |
| `RunnerProperties.DiscoveryLosesNoTests` | Core/TestRunner.cs:37-54 | the discovered types hold every `[Test]` method of the assembly |
| `RunnerProperties.OneResultPerTestMethod` | Core/TestRunner.cs:18-27 | a run has exactly one result per `[Test]` method of the assembly, whatever the tests return or throw |
| `RunnerProperties.ClassNamesMarkedIn` | Core/TestRunner.cs:52-80 | every result of one class's batch is named after a `[Test]` method of the classes run |
| `RunnerProperties.RunAllNamesMarkedMethods` | Core/TestRunner.cs:21-25 | every result of the concatenated batches is named after a `[Test]` method of the classes run |
| `RunnerProperties.ClassBatchAt` | Core/TestRunner.cs:63-67 | result `j` of a class's batch is the lifecycle of its `j`-th `[Test]` method with the class's first setup and teardown, on the readings of slot `j` |
| `RunnerProperties.RunAllAt` | Core/TestRunner.cs:21-25 | result `k` of the concatenated batches is the lifecycle of the test in slot `k` of the schedule (classes in order, each class's `[Test]` methods in order), on readings `2k` and `2k + 1` after the start |
| `RunnerProperties.RunResultAt` | Core/TestRunner.cs:16-31 | result `k` of a run is the lifecycle of a `[Test]` method of a discovered type of the assembly, run with that type's first setup and teardown on readings `2k` and `2k + 1` |
| `RunnerProperties.OnlyMarkedMethodsRun` | Core/TestRunner.cs:18-25 | a run has one result per slot of the schedule, and each is the lifecycle of that slot's method, which carries `[Test]` and belongs to a type of the assembly; an unmarked method never runs as a test, even when it shares a marked method's name |
| `RunnerProperties.ResultsNameMarkedMethods` | Core/TestRunner.cs:18-25 | every result of a run is named "Class.Method" after a `[Test]` method of a type of the assembly |
| `RunnerProperties.ClassRunWellFormed` | Core/TestRunner.cs:98-120 | every result of a class has a message exactly when it failed, and a non-negative duration when the clock is monotonic |
| `RunnerProperties.RunAllWellFormed` | Core/TestRunner.cs:21-25 | every result of a run has a message exactly when it failed, and a non-negative duration when the clock is monotonic |
| `RunnerProperties.NoTestClassesNoResults` | Core/TestRunner.cs:18-31 | an assembly without test-bearing types gives no results and no console output, so the summary is 0/0/0 with an empty list |
| `SampleScenario.ProgramHasNoTest` | Program.cs:9-11 | `Program` has no `[Test]` method |
| `SampleScenario.SampleDiscovery` | Examples/SampleTests.cs:13-64 | of `Program` and `SampleTests`, only `SampleTests` is discovered |
| `SampleScenario.WhereAllTests` | Core/TestRunner.cs:52-54 | when every method carries `[Test]`, all are kept |
| `SampleScenario.NoTestAmongSetupAndTeardown` | Examples/SampleTests.cs:17-28 | `Setup` and `Teardown` are not tests |
| `SampleScenario.NoTestAmongUnmarked` | Examples/SampleTests.cs:59-63 | `NotATest` and the inherited methods are not tests |
| `SampleScenario.AllSampleTestsKept` | Examples/SampleTests.cs:30-57 | the four marked methods are all kept |
| `SampleScenario.SampleTestMethods` | Examples/SampleTests.cs:17-63 | the tests of `SampleTests` are its four `[Test]` methods, in declaration order |
| `SampleScenario.SampleSetup` | Examples/SampleTests.cs:17-22 | `Setup` is the setup method |
| `SampleScenario.SampleTeardown` | Examples/SampleTests.cs:24-28 | `Teardown` is the teardown method |
| `SampleScenario.SamplePasses` | Examples/SampleTests.cs:30-57 | `TestThatPasses` (after setup sets the field to 42), `TestBasicMath` and `TestStringOperations` pass, and the runner writes no teardown-error line |
| `SampleScenario.SampleFails` | Examples/SampleTests.cs:37-41 | `TestThatFails` fails with "This test always fails", and the runner writes no teardown-error line |
| `SampleScenario.SampleBatch` | Examples/SampleTests.cs:13-64 | the batch of `SampleTests` is its four results in declaration order |
| `SampleScenario.SampleClassRun` | Examples/SampleTests.cs:30-57 | the four tests run in order with `Setup` and `Teardown` yield the four expected results and no teardown-error line |
| `SampleScenario.SampleRun` | Examples/SampleTests.cs:13-64 | the run over `Program` and `SampleTests` is exactly that batch |
| `SampleScenario.SampleVerdicts` | Examples/SampleTests.cs:30-63 | four results named after the four tests, only `TestThatFails` failing with its own message, 3 passed and 1 failed, no result for `NotATest` |
| `SampleScenario.CountOneFailureInFour` | Core/TestRunner.cs:28-29 | four results with only the second failed count 3 passed and 1 failed |
| `SampleScenario.RunSampleTests` | Program.cs:25 | `RunTests` on the sample assembly returns a summary of 4 tests, 3 passed and 1 failed, and the runner writes no teardown-error line |

## Left out

- Reflection is abstract. An assembly is a sequence of types, and a type is the sequence of its public methods.
  - The order of `GetMethods` is taken as declaration order; .NET does not guarantee that order.
  - A method's markers are the set of role attributes on it. Attribute subclasses and inherited attributes are not modelled.
  - Static methods are listed like instance methods. Invoking a static method would not need a target; the model treats every method as an instance method.
  - Only a parameterless invocation and the parameter-count refusal are modelled. Argument conversion, access checks and the other refusals `MethodInfo.Invoke` raises unwrapped before running the method (an `InvalidOperationException` for a generic method or a method of an open generic type, for instance) are not. Such a refusal would fail the test with the same verdict, but a teardown line would carry its message.
- Method and constructor bodies are total: every body returns or throws a catchable exception. A test that never returns, exits the process or overflows the stack stops the whole run in .NET, with no result for it, no teardown and no later test; the model does not capture that.
- A failure of `Assembly.GetTypes` itself is not modelled. The source does not catch it in `RunTests`.
- The wall clock is an abstract `Clock`. `DateTime.Now` is not monotonic, so a non-negative duration is proved only under the hypothesis `Monotonic(clock)`.
- The clock readings do not depend on how long each step takes: reading `k` is fixed by its index. So `Duration` is compared only on equal readings. In .NET, a slower or missing teardown, or slower earlier tests, change the readings and with them `Duration` (`TeardownNeverChangesVerdict` and `TestRunsInIsolation` are stated on the same readings for this reason).
- `TimeSpan` is an unbounded integer number of clock units.
- The three `int` counters are unbounded integers. A run with more than 2^31-1 tests is not modelled.
- Console output of the runner is the returned sequence of lines. The only line the core writes is the teardown error line. The `Console.WriteLine` calls inside the test fixture's own methods ("Setup called" and so on) are not modelled, because method bodies act only on field values.
- `TestRunner.RunSingleTest`, `TestRunner.RunTestsInClass`, `TestRunner.RunTests`: they return the console lines as an out-parameter instead of writing them. `RunSingleTest` also returns the ghost lifecycle trace.
- `SampleScenario.MathBody`: the interpolated message `$"Expected 4, got {result}"` is shortened to its fixed part. The branch can never be taken.
- `SampleScenario.SampleAssembly` holds only `Program` and `SampleTests`. The other types of the real assembly (the runner, the result classes, the attribute classes, the reporter) declare no `[Test]` method, so discovery would drop them too.
- Reporting/ConsoleReporter.cs is not part of this model: console colouring, file output and floating-point duration formatting.
- The exit-code rule of Program.cs (`FailedTests > 0 ? 1 : 0`) is not part of this model. `NoFailuresIffAllPassed` states the fact it rests on.
- The attribute classes `TestAttribute`, `SetupAttribute` and `TeardownAttribute` are not part of this model. They appear only as the markers `Test`, `Setup` and `Teardown`.
- Only instance field state is modelled. Static fields and other process-wide state, which in .NET survive from one test to the next, are not, and every construction of a type yields the same initial field values. `TestRunsInIsolation` rests partly on this.
- Concurrency and re-entrancy are not modelled. The runner is sequential.
