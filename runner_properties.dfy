/**
 * What the runner guarantees, stated over the specification functions of
 * module TestRunner (and so, through the methods' postconditions, over what
 * `RunSingleTest`, `RunTestsInClass` and `RunTests` compute).
 */
module RunnerProperties {
  import opened Wrappers
  import opened Queries
  import opened Reflection
  import opened TestResults
  import opened TestRunner

  // ---------------------------------------------------------------------------
  // Discovery and roles
  // ---------------------------------------------------------------------------

  /** A type is test-bearing exactly when it has at least one `[Test]` method to run. */
  lemma TestBearingIffHasTests(c: ClassInfo)
    ensures HasTestMethod(c) <==> |TestMethods(c)| > 0
  {
    AnyIffWhereNonEmpty(c.methods, IsTest);
  }

  /**
   * Discovery keeps exactly the test-bearing types of the assembly: every
   * discovered type has a test to run, and a type of the assembly is
   * discovered exactly when it has a `[Test]` method.
   */
  lemma DiscoveryKeepsExactlyTestClasses(assembly: Assembly)
    ensures forall i :: 0 <= i < |DiscoverTestClasses(assembly)| ==> |TestMethods(DiscoverTestClasses(assembly)[i])| > 0
    ensures forall i :: 0 <= i < |assembly| ==> (assembly[i] in DiscoverTestClasses(assembly) <==> HasTestMethod(assembly[i]))
    ensures forall c | c in DiscoverTestClasses(assembly) :: c in assembly
  {
    var d := DiscoverTestClasses(assembly);
    forall i | 0 <= i < |d| ensures |TestMethods(d[i])| > 0 {
      TestBearingIffHasTests(d[i]);
    }
  }

  /** Discovery keeps assembly order: around any type, the types before it come first, then it if it is kept, then the rest. */
  lemma DiscoveryKeepsOrder(before: Assembly, c: ClassInfo, after: Assembly)
    ensures DiscoverTestClasses(before + [c] + after)
         == DiscoverTestClasses(before) + (if HasTestMethod(c) then [c] else []) + DiscoverTestClasses(after)
  {
    WhereAround(before, c, after, HasTestMethod);
  }

  /**
   * The tests of a type are exactly its `[Test]` methods, whatever their names
   * and other attributes, in declaration order.
   */
  lemma TestMethodsAreTheMarkedOnes(c: ClassInfo)
    ensures forall i :: 0 <= i < |TestMethods(c)| ==> Test in TestMethods(c)[i].markers
    ensures forall i :: 0 <= i < |c.methods| ==> (c.methods[i] in TestMethods(c) <==> Test in c.methods[i].markers)
    ensures forall m | m in TestMethods(c) :: m in c.methods
  {
  }

  /** Test methods keep declaration order. */
  lemma TestMethodsKeepOrder(c: ClassInfo, before: seq<MethodInfo>, m: MethodInfo, after: seq<MethodInfo>)
    requires c.methods == before + [m] + after
    ensures TestMethods(c) == Where(before, IsTest) + (if Test in m.markers then [m] else []) + Where(after, IsTest)
  {
    WhereAround(before, m, after, IsTest);
  }

  /** The setup method is the first method carrying `[Setup]`, and `None` when no method carries it. */
  lemma SetupIsFirstMarked(c: ClassInfo)
    ensures SetupMethod(c).None? <==> forall i :: 0 <= i < |c.methods| ==> Setup !in c.methods[i].markers
    ensures forall i :: IsFirstMatch(c.methods, IsSetup, i) ==> SetupMethod(c) == Some(c.methods[i])
  {
    FirstOrDefaultFindsFirstMatch(c.methods, IsSetup);
    forall i | IsFirstMatch(c.methods, IsSetup, i) ensures SetupMethod(c) == Some(c.methods[i]) {
      var j :| IsFirstMatch(c.methods, IsSetup, j) && c.methods[j] == SetupMethod(c).value;
      FirstMatchUnique(c.methods, IsSetup, i, j);
    }
  }

  /** The teardown method is the first method carrying `[Teardown]`, and `None` when no method carries it. */
  lemma TeardownIsFirstMarked(c: ClassInfo)
    ensures TeardownMethod(c).None? <==> forall i :: 0 <= i < |c.methods| ==> Teardown !in c.methods[i].markers
    ensures forall i :: IsFirstMatch(c.methods, IsTeardown, i) ==> TeardownMethod(c) == Some(c.methods[i])
  {
    FirstOrDefaultFindsFirstMatch(c.methods, IsTeardown);
    forall i | IsFirstMatch(c.methods, IsTeardown, i) ensures TeardownMethod(c) == Some(c.methods[i]) {
      var j :| IsFirstMatch(c.methods, IsTeardown, j) && c.methods[j] == TeardownMethod(c).value;
      FirstMatchUnique(c.methods, IsTeardown, i, j);
    }
  }

  // ---------------------------------------------------------------------------
  // One test's lifecycle
  // ---------------------------------------------------------------------------

  /** Setup is absent, or it takes no parameters and returns normally on the fresh instance. */
  predicate SetupCompletes(init: State, setup: Option<MethodInfo>)
  {
    setup.None? || (setup.value.parameterCount == 0 && setup.value.body(init).Returned?)
  }

  /** The field values the test body starts from. */
  function StateAfterSetup(init: State, setup: Option<MethodInfo>): State
  {
    match setup
    case None => init
    case Some(m) => m.body(init).after
  }

  /** Construction and setup both complete, so the test body is reached. */
  predicate ReachesBody(c: ClassInfo, setup: Option<MethodInfo>)
  {
    c.creation.Constructed? && SetupCompletes(c.creation.init, setup)
  }

  predicate IsTeardownCall(e: Event) { e.InvokeAs? && e.role == TeardownRole }

  /** A test passes exactly when construction, setup and the test body all complete normally. */
  lemma PassedIffNothingThrows(c: ClassInfo, test: MethodInfo, setup: Option<MethodInfo>, teardown: Option<MethodInfo>,
                               clock: Clock, tick: nat)
    ensures SingleTest(c, test, setup, teardown, clock, tick).result.passed <==>
      && ReachesBody(c, setup)
      && test.parameterCount == 0
      && test.body(StateAfterSetup(c.creation.init, setup)).Returned?
  {
  }

  /** The setup call, when the instance exists and there is a setup method. */
  function SetupCall(c: ClassInfo, setup: Option<MethodInfo>): seq<Event>
  {
    if c.creation.Constructed? && setup.Some? then [InvokeAs(SetupRole, setup.value.name)] else []
  }

  /** The body call, when construction and setup complete. */
  function BodyCall(c: ClassInfo, test: MethodInfo, setup: Option<MethodInfo>): seq<Event>
  {
    if ReachesBody(c, setup) then [InvokeAs(TestRole, test.name)] else []
  }

  /** The teardown call, whenever there is a teardown method. */
  function TeardownCall(teardown: Option<MethodInfo>): seq<Event>
  {
    if teardown.Some? then [InvokeAs(TeardownRole, teardown.value.name)] else []
  }

  /**
   * The steps of one test, in order: the start time is read, one instance is
   * created, setup runs if the instance exists, the body runs if construction
   * and setup completed, teardown is attempted whenever there is one, and the
   * end time is read last.
   */
  lemma LifecycleTrace(c: ClassInfo, test: MethodInfo, setup: Option<MethodInfo>, teardown: Option<MethodInfo>,
                       clock: Clock, tick: nat)
    ensures SingleTest(c, test, setup, teardown, clock, tick).events
         == [ReadClock, CreateInstanceOf(c.name)] + SetupCall(c, setup) + BodyCall(c, test, setup)
            + TeardownCall(teardown) + [ReadClock]
  {
    TryBlockSteps(c, test, setup);
  }

  /**
   * The `try` block creates the instance, calls setup only on an instance and
   * the body only once construction and setup complete; it catches nothing
   * exactly when the body then returns normally, and the instance outlives
   * any exception thrown after construction.
   */
  lemma TryBlockSteps(c: ClassInfo, test: MethodInfo, setup: Option<MethodInfo>)
    ensures TryBlock(c, test, setup).steps == [CreateInstanceOf(c.name)] + SetupCall(c, setup) + BodyCall(c, test, setup)
    ensures TryBlock(c, test, setup).caught.None? <==>
      && ReachesBody(c, setup)
      && test.parameterCount == 0
      && test.body(StateAfterSetup(c.creation.init, setup)).Returned?
    ensures TryBlock(c, test, setup).instance.Some? <==> c.creation.Constructed?
  {
    if c.creation.Constructed? && setup.Some? {
      InvokeReports(setup.value, Some(c.creation.init));
    }
  }

  /**
   * The `finally` block attempts teardown once when there is one and writes at
   * most one line: on a missing instance it is the "Non-static method requires
   * a target." line; on an instance, a line appears exactly when teardown does
   * not complete, and a teardown body's own exception shows as the reflection
   * wrapper's message.
   */
  lemma FinallyBlockSteps(testName: string, teardown: Option<MethodInfo>, instance: Option<State>)
    ensures FinallyBlock(testName, teardown, instance).steps == TeardownCall(teardown)
    ensures |FinallyBlock(testName, teardown, instance).console| <= |TeardownCall(teardown)|
    ensures teardown.Some? && instance.None? ==>
      FinallyBlock(testName, teardown, instance).console == [TeardownErrorLine(testName, TargetRequiredMessage)]
    ensures teardown.Some? && instance.Some? ==>
      (FinallyBlock(testName, teardown, instance).console == [] <==>
       teardown.value.parameterCount == 0 && teardown.value.body(instance.value).Returned?)
    ensures (teardown.Some? && instance.Some? && teardown.value.parameterCount == 0
             && teardown.value.body(instance.value).Raised?) ==>
      FinallyBlock(testName, teardown, instance).console == [TeardownErrorLine(testName, TargetInvocationMessage)]
  {
  }

  /** The `catch` block undoes the wrapping reflection adds: the message is the invoked code's own. */
  lemma UnwrapUndoesWrap(e: Exception)
    ensures ErrorMessageOf(Wrap(e)) == e.message
    ensures e.inner.None? ==> ErrorMessageOf(e) == e.message
  {
  }

  /**
   * The test body is invoked once when construction and setup complete, and
   * never otherwise.
   */
  lemma BodyInvokedIffReached(c: ClassInfo, test: MethodInfo, setup: Option<MethodInfo>, teardown: Option<MethodInfo>,
                              clock: Clock, tick: nat)
    ensures multiset(SingleTest(c, test, setup, teardown, clock, tick).events)[InvokeAs(TestRole, test.name)]
         == if ReachesBody(c, setup) then 1 else 0
  {
    LifecycleTrace(c, test, setup, teardown, clock, tick);
  }

  /** Teardown is attempted exactly once when there is one, whatever happened before, and never otherwise. */
  lemma TeardownExactlyOnce(c: ClassInfo, test: MethodInfo, setup: Option<MethodInfo>, teardown: Option<MethodInfo>,
                            clock: Clock, tick: nat)
    ensures Count(SingleTest(c, test, setup, teardown, clock, tick).events, IsTeardownCall)
         == if teardown.Some? then 1 else 0
  {
    LifecycleTrace(c, test, setup, teardown, clock, tick);
    var front := [ReadClock, CreateInstanceOf(c.name)] + SetupCall(c, setup) + BodyCall(c, test, setup);
    assert Count(front, IsTeardownCall) == 0 by {
      CountAppend([ReadClock, CreateInstanceOf(c.name)], SetupCall(c, setup), IsTeardownCall);
      CountAppend([ReadClock, CreateInstanceOf(c.name)] + SetupCall(c, setup), BodyCall(c, test, setup), IsTeardownCall);
    }
    CountAppend(front, TeardownCall(teardown), IsTeardownCall);
    CountAppend(front + TeardownCall(teardown), [ReadClock], IsTeardownCall);
  }

  /** Teardown never changes the verdict: the result is the same whatever the teardown method is, or without one. */
  lemma TeardownNeverChangesVerdict(c: ClassInfo, test: MethodInfo, setup: Option<MethodInfo>,
                                    teardown1: Option<MethodInfo>, teardown2: Option<MethodInfo>,
                                    clock: Clock, tick: nat)
    ensures SingleTest(c, test, setup, teardown1, clock, tick).result
         == SingleTest(c, test, setup, teardown2, clock, tick).result
  {
  }

  /**
   * Teardown runs on the instance the body left, even when the body threw, and
   * an exception from it only produces the console line.
   */
  lemma TeardownSeesBodyChanges(c: ClassInfo, test: MethodInfo, setup: Option<MethodInfo>, teardown: Option<MethodInfo>,
                                clock: Clock, tick: nat)
    requires ReachesBody(c, setup) && test.parameterCount == 0 && teardown.Some?
    ensures var td := Invoke(teardown.value, Some(test.body(StateAfterSetup(c.creation.init, setup)).after));
      SingleTest(c, test, setup, teardown, clock, tick).console
        == if td.Threw? then [TeardownErrorLine(c.name + "." + test.name, td.exception.message)] else []
  {
  }

  /**
   * The teardown line is not unwrapped: when the teardown body throws, the line
   * carries the reflection wrapper's message, not the teardown's own.
   */
  lemma TeardownLineShowsWrapperMessage(c: ClassInfo, test: MethodInfo, setup: Option<MethodInfo>,
                                        teardown: Option<MethodInfo>, clock: Clock, tick: nat)
    requires ReachesBody(c, setup) && test.parameterCount == 0
    requires teardown.Some? && teardown.value.parameterCount == 0
    requires teardown.value.body(test.body(StateAfterSetup(c.creation.init, setup)).after).Raised?
    ensures SingleTest(c, test, setup, teardown, clock, tick).console
         == [TeardownErrorLine(c.name + "." + test.name, TargetInvocationMessage)]
  {
    TeardownSeesBodyChanges(c, test, setup, teardown, clock, tick);
  }

  /**
   * When construction fails there is no instance: teardown is still attempted,
   * on `null`, and the resulting `TargetException` is only logged.
   */
  lemma TeardownAttemptedOnConstructionFailure(c: ClassInfo, test: MethodInfo, setup: Option<MethodInfo>,
                                               teardown: Option<MethodInfo>, clock: Clock, tick: nat)
    requires !c.creation.Constructed? && teardown.Some?
    ensures var x := SingleTest(c, test, setup, teardown, clock, tick);
      && !x.result.passed
      && InvokeAs(TeardownRole, teardown.value.name) in x.events
      && x.console == [TeardownErrorLine(c.name + "." + test.name, TargetRequiredMessage)]
  {
  }

  /**
   * A setup exception fails the test with that exception's own message, the
   * body is never invoked, and teardown is still attempted.
   */
  lemma SetupFailureSkipsBody(c: ClassInfo, test: MethodInfo, setup: Option<MethodInfo>, teardown: Option<MethodInfo>,
                              clock: Clock, tick: nat)
    requires c.creation.Constructed? && setup.Some? && setup.value.parameterCount == 0
    requires setup.value.body(c.creation.init).Raised?
    ensures var x := SingleTest(c, test, setup, teardown, clock, tick);
      && !x.result.passed
      && x.result.errorMessage == Some(setup.value.body(c.creation.init).exception.message)
      && InvokeAs(TestRole, test.name) !in x.events
      && (teardown.Some? ==> InvokeAs(TeardownRole, teardown.value.name) in x.events)
  {
  }

  /**
   * An exception from the test body fails the test with that exception's own
   * message: reflection wraps it once and the runner unwraps once, so even an
   * exception with an inner exception of its own reports its own message.
   */
  lemma BodyFailureReportsItsMessage(c: ClassInfo, test: MethodInfo, setup: Option<MethodInfo>, teardown: Option<MethodInfo>,
                                     clock: Clock, tick: nat)
    requires ReachesBody(c, setup) && test.parameterCount == 0
    requires test.body(StateAfterSetup(c.creation.init, setup)).Raised?
    ensures SingleTest(c, test, setup, teardown, clock, tick).result
         == TestResult(c.name + "." + test.name, false,
                       Some(test.body(StateAfterSetup(c.creation.init, setup)).exception.message),
                       clock(tick + 1) - clock(tick))
  {
  }

  /**
   * A constructor exception fails the test with the constructor's message; an
   * exception `Activator.CreateInstance` raises itself is unwrapped one level.
   * Either way the body is never invoked.
   */
  lemma ConstructionFailureMessage(c: ClassInfo, test: MethodInfo, setup: Option<MethodInfo>, teardown: Option<MethodInfo>,
                                   clock: Clock, tick: nat)
    requires !c.creation.Constructed?
    ensures var x := SingleTest(c, test, setup, teardown, clock, tick);
      && !x.result.passed
      && x.result.errorMessage == Some(match c.creation
           case ConstructorThrows(e) => e.message
           case NotCreatable(e) => ErrorMessageOf(e))
      && InvokeAs(TestRole, test.name) !in x.events
  {
  }

  // ---------------------------------------------------------------------------
  // One class
  // ---------------------------------------------------------------------------

  /** Result `k` of a class is the result of test `k`'s own lifecycle, on its own clock readings. */
  lemma {:induction false} ClassRunAt(c: ClassInfo, tests: seq<MethodInfo>, setup: Option<MethodInfo>,
                                      teardown: Option<MethodInfo>, clock: Clock, tick: nat, n: nat, k: nat)
    requires k < n <= |tests|
    ensures ClassRun(c, tests, setup, teardown, clock, tick, n).results[k]
         == SingleTest(c, tests[k], setup, teardown, clock, tick + 2 * k).result
    decreases n
  {
    if k < n - 1 {
      ClassRunAt(c, tests, setup, teardown, clock, tick, n - 1, k);
    }
  }

  /**
   * No state leaks between tests: each test's result is the one it would get
   * if it were the only test of its class, whatever the tests before it did.
   */
  lemma TestRunsInIsolation(c: ClassInfo, tests: seq<MethodInfo>, setup: Option<MethodInfo>,
                            teardown: Option<MethodInfo>, clock: Clock, tick: nat, k: nat)
    requires k < |tests|
    ensures ClassRun(c, tests, setup, teardown, clock, tick, |tests|).results[k]
         == ClassRun(c, [tests[k]], setup, teardown, clock, tick + 2 * k, 1).results[0]
  {
    ClassRunAt(c, tests, setup, teardown, clock, tick, |tests|, k);
    ClassRunAt(c, [tests[k]], setup, teardown, clock, tick + 2 * k, 1, 0);
  }

  /**
   * `RunTestsInClass` gives one result per `[Test]` method, in declaration
   * order, named "Class.Method", each from that method's own lifecycle with
   * the class's first setup and teardown methods.
   */
  lemma ClassResultsFollowTestMethods(c: ClassInfo, clock: Clock, tick: nat)
    ensures |ClassBatch(c, clock, tick).results| == |TestMethods(c)|
    ensures forall k :: 0 <= k < |TestMethods(c)| ==>
      ClassBatch(c, clock, tick).results[k]
        == SingleTest(c, TestMethods(c)[k], SetupMethod(c), TeardownMethod(c), clock, tick + 2 * k).result
    ensures forall k :: 0 <= k < |TestMethods(c)| ==>
      ClassBatch(c, clock, tick).results[k].testName == c.name + "." + TestMethods(c)[k].name
  {
    var tests := TestMethods(c);
    forall k | 0 <= k < |tests|
      ensures ClassBatch(c, clock, tick).results[k]
           == SingleTest(c, tests[k], SetupMethod(c), TeardownMethod(c), clock, tick + 2 * k).result
    {
      ClassRunAt(c, tests, SetupMethod(c), TeardownMethod(c), clock, tick, |tests|, k);
    }
  }

  /** The result's name is "Class.Method" for some `[Test]` method of one of `classes`. */
  ghost predicate NamesMarkedMethod(name: string, classes: seq<ClassInfo>)
  {
    exists i, j :: 0 <= i < |classes| && 0 <= j < |classes[i].methods|
      && Test in classes[i].methods[j].markers
      && name == classes[i].name + "." + classes[i].methods[j].name
  }

  /** Every result of a class is named after one of its `[Test]` methods. */
  lemma ClassResultsNameMarkedMethods(c: ClassInfo, clock: Clock, tick: nat)
    ensures forall k :: 0 <= k < |ClassBatch(c, clock, tick).results| ==>
      exists j :: 0 <= j < |c.methods| && Test in c.methods[j].markers
        && ClassBatch(c, clock, tick).results[k].testName == c.name + "." + c.methods[j].name
  {
    ClassResultsFollowTestMethods(c, clock, tick);
    var tests := TestMethods(c);
    forall k | 0 <= k < |tests|
      ensures exists j :: (0 <= j < |c.methods| && Test in c.methods[j].markers
        && ClassBatch(c, clock, tick).results[k].testName == c.name + "." + c.methods[j].name)
    {
      assert tests[k] in c.methods;
      var j :| 0 <= j < |c.methods| && c.methods[j] == tests[k];
      assert Test in c.methods[j].markers;
    }
  }

  // ---------------------------------------------------------------------------
  // The whole run
  // ---------------------------------------------------------------------------

  /** The count over a prefix ignores what follows it. */
  lemma {:induction false} TestCountPrefix(s: seq<ClassInfo>, t: seq<ClassInfo>, n: nat)
    requires n <= |s|
    ensures TestCount(s + t, n) == TestCount(s, n)
    decreases n
  {
    if n > 0 {
      TestCountPrefix(s, t, n - 1);
      assert (s + t)[n - 1] == s[n - 1];
    }
  }

  /** Appending a type adds its `[Test]` methods to the count. */
  lemma TestCountSnoc(s: seq<ClassInfo>, c: ClassInfo)
    ensures TestCount(s + [c], |s| + 1) == TestCount(s, |s|) + |TestMethods(c)|
  {
    TestCountPrefix(s, [c], |s|);
  }

  /** Discovering over one more type keeps it exactly when it declares a test. */
  lemma DiscoverySnoc(a: Assembly, c: ClassInfo)
    ensures DiscoverTestClasses(a + [c])
         == DiscoverTestClasses(a) + (if HasTestMethod(c) then [c] else [])
  {
    WhereAppend(a, [c], HasTestMethod);
    assert [c][1..] == [];
  }

  /** A type without a test adds nothing to the count. */
  lemma NonTestClassAddsNothing(c: ClassInfo)
    requires !HasTestMethod(c)
    ensures |TestMethods(c)| == 0
  {
    TestBearingIffHasTests(c);
  }

  /** Discovery loses no test: the discovered types hold every `[Test]` method of the assembly. */
  lemma {:induction false} DiscoveryLosesNoTests(assembly: Assembly)
    ensures TestCount(DiscoverTestClasses(assembly), |DiscoverTestClasses(assembly)|) == TestCount(assembly, |assembly|)
    decreases |assembly|
  {
    if |assembly| > 0 {
      var n := |assembly| - 1;
      var a, c := assembly[..n], assembly[n];
      assert assembly == a + [c];
      DiscoveryLosesNoTests(a);
      TestCountSnoc(a, c);
      DiscoverySnoc(a, c);
      var da := DiscoverTestClasses(a);
      if HasTestMethod(c) {
        TestCountSnoc(da, c);
      } else {
        assert da + [] == da;
        NonTestClassAddsNothing(c);
      }
    }
  }

  /** A run has exactly one result per `[Test]` method of the assembly, whatever the tests do. */
  lemma OneResultPerTestMethod(assembly: Assembly, clock: Clock)
    ensures |Run(assembly, clock).results| == TestCount(assembly, |assembly|)
  {
    DiscoveryLosesNoTests(assembly);
  }

  /** Every result of the batch of the `i`-th class is named after a `[Test]` method of `classes`. */
  lemma ClassNamesMarkedIn(classes: seq<ClassInfo>, i: nat, clock: Clock, tick: nat)
    requires i < |classes|
    ensures forall k :: 0 <= k < |ClassBatch(classes[i], clock, tick).results| ==>
      NamesMarkedMethod(ClassBatch(classes[i], clock, tick).results[k].testName, classes)
  {
    var c := classes[i];
    var rs := ClassBatch(c, clock, tick).results;
    ClassResultsNameMarkedMethods(c, clock, tick);
    forall k | 0 <= k < |rs| ensures NamesMarkedMethod(rs[k].testName, classes) {
      var j :| 0 <= j < |c.methods| && Test in c.methods[j].markers
        && rs[k].testName == c.name + "." + c.methods[j].name;
    }
  }

  /** Every result of a run is named after a `[Test]` method of one of the classes run. */
  lemma {:induction false} RunAllNamesMarkedMethods(classes: seq<ClassInfo>, clock: Clock, tick: nat, n: nat)
    requires n <= |classes|
    ensures forall k :: 0 <= k < |RunAll(classes, clock, tick, n).results| ==>
      NamesMarkedMethod(RunAll(classes, clock, tick, n).results[k].testName, classes)
    decreases n
  {
    if n > 0 {
      RunAllNamesMarkedMethods(classes, clock, tick, n - 1);
      var before := RunAll(classes, clock, tick, n - 1).results;
      var after := ClassBatch(classes[n - 1], clock, tick + 2 * |before|).results;
      ClassNamesMarkedIn(classes, n - 1, clock, tick + 2 * |before|);
      var all := RunAll(classes, clock, tick, n).results;
      assert all == before + after;
      forall k | 0 <= k < |all| ensures NamesMarkedMethod(all[k].testName, classes) {
        if k >= |before| {
          assert all[k] == after[k - |before|];
        } else {
          assert all[k] == before[k];
        }
      }
    }
  }

  /** Where a result of a run comes from: the `testIndex`-th `[Test]` method of the `classIndex`-th class run. */
  datatype Slot = Slot(classIndex: nat, testIndex: nat)

  /** The slots of the `m` tests of the `i`-th class, in declaration order. */
  function ClassSlots(i: nat, m: nat): (s: seq<Slot>)
    ensures |s| == m
    ensures forall j :: 0 <= j < m ==> s[j] == Slot(i, j)
  {
    seq(m, j requires 0 <= j => Slot(i, j))
  }

  /** The slots of the first `n` classes: class by class, each class's `[Test]` methods in declaration order. */
  function Schedule(classes: seq<ClassInfo>, n: nat): (s: seq<Slot>)
    requires n <= |classes|
    ensures |s| == TestCount(classes, n)
    ensures forall k :: 0 <= k < |s| ==> s[k].classIndex < n && s[k].testIndex < |TestMethods(classes[s[k].classIndex])|
    decreases n
  {
    if n == 0 then []
    else Schedule(classes, n - 1) + ClassSlots(n - 1, |TestMethods(classes[n - 1])|)
  }

  /** The slot names a `[Test]` method of one of `classes`. */
  predicate InRange(classes: seq<ClassInfo>, s: Slot)
  {
    s.classIndex < |classes| && s.testIndex < |TestMethods(classes[s.classIndex])|
  }

  /** The result the slot's `[Test]` method gets, with its class's first setup and teardown, on clock reading `tick`. */
  function SlotResult(classes: seq<ClassInfo>, s: Slot, clock: Clock, tick: nat): TestResult
    requires InRange(classes, s)
  {
    var c := classes[s.classIndex];
    SingleTest(c, TestMethods(c)[s.testIndex], SetupMethod(c), TeardownMethod(c), clock, tick).result
  }

  /** The results of the first `n` classes are those of the first `n - 1` followed by the `n`-th class's batch. */
  lemma RunAllStep(classes: seq<ClassInfo>, clock: Clock, tick: nat, n: nat)
    requires 0 < n <= |classes|
    ensures RunAll(classes, clock, tick, n).results
         == RunAll(classes, clock, tick, n - 1).results
          + ClassBatch(classes[n - 1], clock, tick + 2 * |RunAll(classes, clock, tick, n - 1).results|).results
  {
  }

  /** Result `j` of the batch of the `i`-th class is the result of slot `(i, j)`, when its clock reading is `tick`. */
  lemma ClassBatchAt(classes: seq<ClassInfo>, i: nat, clock: Clock, start: nat, j: nat, tick: nat)
    requires i < |classes| && j < |TestMethods(classes[i])|
    requires start + 2 * j == tick
    ensures InRange(classes, Slot(i, j))
    ensures ClassBatch(classes[i], clock, start).results[j] == SlotResult(classes, Slot(i, j), clock, tick)
  {
    ClassResultsFollowTestMethods(classes[i], clock, start);
  }

  /** Slot `k` of the schedule, past the earlier classes' tests, is a test of the last class. */
  lemma ScheduleAtLast(classes: seq<ClassInfo>, n: nat, k: nat)
    requires 0 < n <= |classes| && TestCount(classes, n - 1) <= k < TestCount(classes, n)
    ensures Schedule(classes, n)[k] == Slot(n - 1, k - TestCount(classes, n - 1))
  {
  }

  /** Result `k` of the run, past the earlier classes' results, comes from the last class's batch. */
  lemma RunAllIndexLast(classes: seq<ClassInfo>, clock: Clock, tick: nat, n: nat, k: nat)
    requires 0 < n <= |classes| && TestCount(classes, n - 1) <= k < TestCount(classes, n)
    ensures RunAll(classes, clock, tick, n).results[k]
         == ClassBatch(classes[n - 1], clock, tick + 2 * TestCount(classes, n - 1)).results[k - TestCount(classes, n - 1)]
  {
    RunAllStep(classes, clock, tick, n);
  }

  /** A result of the last class's batch is the result of its slot. */
  lemma RunAllAtLast(classes: seq<ClassInfo>, clock: Clock, tick: nat, n: nat, k: nat)
    requires 0 < n <= |classes| && TestCount(classes, n - 1) <= k < TestCount(classes, n)
    ensures InRange(classes, Schedule(classes, n)[k])
    ensures RunAll(classes, clock, tick, n).results[k] == SlotResult(classes, Schedule(classes, n)[k], clock, tick + 2 * k)
  {
    RunAllIndexLast(classes, clock, tick, n, k);
    ClassBatchAt(classes, n - 1, clock, tick + 2 * TestCount(classes, n - 1), k - TestCount(classes, n - 1), tick + 2 * k);
    ScheduleAtLast(classes, n, k);
  }

  /** A result of an earlier class keeps its place when one more class runs. */
  lemma RunAllAtEarlier(classes: seq<ClassInfo>, clock: Clock, tick: nat, n: nat, k: nat)
    requires 0 < n <= |classes| && k < TestCount(classes, n - 1)
    requires InRange(classes, Schedule(classes, n - 1)[k])
    requires RunAll(classes, clock, tick, n - 1).results[k] == SlotResult(classes, Schedule(classes, n - 1)[k], clock, tick + 2 * k)
    ensures InRange(classes, Schedule(classes, n)[k])
    ensures RunAll(classes, clock, tick, n).results[k] == SlotResult(classes, Schedule(classes, n)[k], clock, tick + 2 * k)
  {
    RunAllStep(classes, clock, tick, n);
  }

  /** Result `k` of the first `n` classes run is the result of slot `k` of the schedule, on clock reading `tick + 2 * k`. */
  lemma {:induction false} RunAllAt(classes: seq<ClassInfo>, clock: Clock, tick: nat, n: nat, k: nat)
    requires n <= |classes| && k < TestCount(classes, n)
    ensures InRange(classes, Schedule(classes, n)[k])
    ensures RunAll(classes, clock, tick, n).results[k] == SlotResult(classes, Schedule(classes, n)[k], clock, tick + 2 * k)
    decreases n
  {
    if k < TestCount(classes, n - 1) {
      RunAllAt(classes, clock, tick, n - 1, k);
      RunAllAtEarlier(classes, clock, tick, n, k);
    } else {
      RunAllAtLast(classes, clock, tick, n, k);
    }
  }

  /**
   * Result `k` of a run is the lifecycle of the test in slot `k` of the
   * schedule: a `[Test]` method of a discovered type of the assembly, run with
   * that type's first setup and teardown on the clock readings `2 * k` and
   * `2 * k + 1`.
   */
  lemma RunResultAt(assembly: Assembly, clock: Clock, k: nat)
    requires k < |Run(assembly, clock).results|
    ensures k < |Schedule(DiscoverTestClasses(assembly), |DiscoverTestClasses(assembly)|)|
    ensures var classes := DiscoverTestClasses(assembly);
      var s := Schedule(classes, |classes|)[k];
      && InRange(classes, s)
      && Test in TestMethods(classes[s.classIndex])[s.testIndex].markers
      && classes[s.classIndex] in assembly
      && Run(assembly, clock).results[k] == SlotResult(classes, s, clock, 2 * k)
  {
    RunResultAtIn(DiscoverTestClasses(assembly), clock, k);
    DiscoveredInAssembly(assembly, DiscoverTestClasses(assembly),
                         Schedule(DiscoverTestClasses(assembly), |DiscoverTestClasses(assembly)|)[k].classIndex);
  }

  /** Result `k` of running all of `classes` from the first clock reading is the lifecycle of slot `k`'s `[Test]` method. */
  lemma RunResultAtIn(classes: seq<ClassInfo>, clock: Clock, k: nat)
    requires k < TestCount(classes, |classes|)
    ensures k < |Schedule(classes, |classes|)|
    ensures var s := Schedule(classes, |classes|)[k];
      && InRange(classes, s)
      && Test in TestMethods(classes[s.classIndex])[s.testIndex].markers
      && RunAll(classes, clock, 0, |classes|).results[k] == SlotResult(classes, s, clock, 2 * k)
  {
    RunAllAt(classes, clock, 0, |classes|, k);
  }

  /** A discovered type is a type of the assembly. */
  lemma DiscoveredInAssembly(assembly: Assembly, classes: seq<ClassInfo>, i: nat)
    requires classes == DiscoverTestClasses(assembly) && i < |classes|
    ensures classes[i] in assembly
  {
    DiscoveryKeepsExactlyTestClasses(assembly);
  }

  /**
   * Only `[Test]` methods are run as tests: there is one result per slot of
   * the schedule, and each is the lifecycle of that slot's `[Test]` method.
   */
  lemma OnlyMarkedMethodsRun(assembly: Assembly, clock: Clock)
    ensures var classes := DiscoverTestClasses(assembly);
      && |Run(assembly, clock).results| == |Schedule(classes, |classes|)|
      && (forall k :: 0 <= k < |Run(assembly, clock).results| ==>
            var s := Schedule(classes, |classes|)[k];
            && Test in TestMethods(classes[s.classIndex])[s.testIndex].markers
            && classes[s.classIndex] in assembly
            && Run(assembly, clock).results[k] == SlotResult(classes, s, clock, 2 * k))
  {
    forall k | 0 <= k < |Run(assembly, clock).results|
      ensures var classes := DiscoverTestClasses(assembly);
        var s := Schedule(classes, |classes|)[k];
        && Test in TestMethods(classes[s.classIndex])[s.testIndex].markers
        && classes[s.classIndex] in assembly
        && Run(assembly, clock).results[k] == SlotResult(classes, s, clock, 2 * k)
    {
      RunResultAt(assembly, clock, k);
    }
  }

  /** Every result of a run is named "Class.Method" after a `[Test]` method of a type of the assembly. */
  lemma ResultsNameMarkedMethods(assembly: Assembly, clock: Clock)
    ensures forall k :: 0 <= k < |Run(assembly, clock).results| ==>
      NamesMarkedMethod(Run(assembly, clock).results[k].testName, assembly)
  {
    var classes := DiscoverTestClasses(assembly);
    RunAllNamesMarkedMethods(classes, clock, 0, |classes|);
    DiscoveryKeepsExactlyTestClasses(assembly);
    var rs := Run(assembly, clock).results;
    forall k | 0 <= k < |rs| ensures NamesMarkedMethod(rs[k].testName, assembly) {
      var i, j :| 0 <= i < |classes| && 0 <= j < |classes[i].methods|
        && Test in classes[i].methods[j].markers
        && rs[k].testName == classes[i].name + "." + classes[i].methods[j].name;
      assert classes[i] in assembly;
      var i' :| 0 <= i' < |assembly| && assembly[i'] == classes[i];
      assert 0 <= j < |assembly[i'].methods|;
    }
  }

  /**
   * Every result of a class has its message exactly when it failed, and a
   * non-negative duration when the clock is monotonic.
   */
  lemma {:induction false} ClassRunWellFormed(c: ClassInfo, tests: seq<MethodInfo>, setup: Option<MethodInfo>,
                                              teardown: Option<MethodInfo>, clock: Clock, tick: nat, n: nat)
    requires n <= |tests|
    ensures forall k :: 0 <= k < n ==> Consistent(ClassRun(c, tests, setup, teardown, clock, tick, n).results[k])
    ensures Monotonic(clock) ==>
      forall k :: 0 <= k < n ==> ClassRun(c, tests, setup, teardown, clock, tick, n).results[k].duration >= 0
    decreases n
  {
    if n > 0 {
      ClassRunWellFormed(c, tests, setup, teardown, clock, tick, n - 1);
      var t := tick + 2 * (n - 1);
      assert Monotonic(clock) ==> clock(t) <= clock(t + 1);
    }
  }

  /**
   * Every result of a run has its message exactly when it failed, and a
   * non-negative duration when the clock is monotonic.
   */
  lemma {:induction false} RunAllWellFormed(classes: seq<ClassInfo>, clock: Clock, tick: nat, n: nat)
    requires n <= |classes|
    ensures forall k :: 0 <= k < |RunAll(classes, clock, tick, n).results| ==>
      Consistent(RunAll(classes, clock, tick, n).results[k])
    ensures Monotonic(clock) ==> forall k :: 0 <= k < |RunAll(classes, clock, tick, n).results| ==>
      RunAll(classes, clock, tick, n).results[k].duration >= 0
    decreases n
  {
    if n > 0 {
      RunAllWellFormed(classes, clock, tick, n - 1);
      var before := RunAll(classes, clock, tick, n - 1);
      var c := classes[n - 1];
      ClassRunWellFormed(c, TestMethods(c), SetupMethod(c), TeardownMethod(c), clock, tick + 2 * |before.results|,
                         |TestMethods(c)|);
    }
  }

  /** An assembly without test-bearing types gives no results and no console output. */
  lemma NoTestClassesNoResults(assembly: Assembly, clock: Clock)
    requires forall i :: 0 <= i < |assembly| ==> !HasTestMethod(assembly[i])
    ensures Run(assembly, clock) == Batch([], [])
  {
    WhereNone(assembly, HasTestMethod);
  }
}
