/**
 * The part of .NET reflection the runner depends on, made abstract: an
 * assembly is the sequence of its types, a type lists its public methods in
 * declaration order, each method carries the set of role attributes on it and
 * an abstract behaviour on the instance's field values, and `Invoke` and
 * `CreateInstance` reproduce the way `MethodInfo.Invoke` and
 * `Activator.CreateInstance` report exceptions.
 */
module Reflection {
  import opened Wrappers

  /** The attributes `[Test]`, `[Setup]` and `[Teardown]`. */
  datatype Marker = Test | Setup | Teardown

  /** The field values of an instance of a test class. */
  type State = map<string, int>

  /** A .NET exception: its `Message` and its `InnerException` (or `null`). */
  datatype Exception = Exception(message: string, inner: Option<Exception>)

  /**
   * What running a method body (or a constructor body) on an instance does:
   * it returns normally with the new field values, or it throws, leaving the
   * instance with the field values it had at the throw.
   */
  datatype Outcome = Returned(after: State) | Raised(exception: Exception, after: State)

  /** A public method as `Type.GetMethods` lists it. */
  datatype MethodInfo = MethodInfo(
    name: string,
    markers: set<Marker>,
    parameterCount: nat,
    body: State -> Outcome)

  /** How `Activator.CreateInstance` fares on a type. */
  datatype Creation =
    | Constructed(init: State)             // the parameterless constructor returns
    | ConstructorThrows(exception: Exception)  // the constructor body throws
    | NotCreatable(exception: Exception)   // no parameterless constructor, abstract type, ...

  /** A type of the assembly: `Type.Name`, its public methods in declaration order, and how it is instantiated. */
  datatype ClassInfo = ClassInfo(name: string, methods: seq<MethodInfo>, creation: Creation)

  /** `Assembly.GetTypes()`, in declaration order. */
  type Assembly = seq<ClassInfo>

  /**
   * The result of a reflective call: normal completion with the instance's
   * field values, or an exception together with the instance as it then
   * stands (`None` when there is no instance).
   */
  datatype Invocation = Completed(state: State) | Threw(exception: Exception, instance: Option<State>)

  /** Message of `TargetInvocationException`, the wrapper reflection puts around an exception from the invoked code. */
  const TargetInvocationMessage := "Exception has been thrown by the target of an invocation."
  /** Message of the `TargetException` raised when an instance method is invoked on `null`. */
  const TargetRequiredMessage := "Non-static method requires a target."
  /** Message of the `TargetParameterCountException` raised when the argument list is `null` but the method takes parameters. */
  const ParameterCountMessage := "Parameter count mismatch."

  /** The `TargetInvocationException` wrapping `e`. */
  function Wrap(e: Exception): (w: Exception)
    ensures w.inner == Some(e)
  {
    Exception(TargetInvocationMessage, Some(e))
  }

  /**
   * `m.Invoke(target, null)`: a `null` target is refused, then a method that
   * takes parameters is refused; otherwise the body runs and an exception it
   * throws is wrapped once.
   */
  function Invoke(m: MethodInfo, target: Option<State>): Invocation
  {
    match target
    case None => Threw(Exception(TargetRequiredMessage, None), None)
    case Some(s) =>
      if m.parameterCount != 0 then Threw(Exception(ParameterCountMessage, None), Some(s))
      else
        match m.body(s)
        case Returned(after) => Completed(after)
        case Raised(e, after) => Threw(Wrap(e), Some(after))
  }

  /** How `Invoke` reports: when a call completes, what survives a throw, and which exceptions come back wrapped. */
  lemma InvokeReports(m: MethodInfo, target: Option<State>)
    // The call completes exactly when there is an instance, no parameter is
    // expected and the body returns, and then with the body's field values.
    ensures Invoke(m, target).Completed? <==> (target.Some? && m.parameterCount == 0 && m.body(target.value).Returned?)
    ensures Invoke(m, target).Completed? ==> Invoke(m, target).state == m.body(target.value).after
    // An instance survives a throw exactly when there was one.
    ensures Invoke(m, target).Threw? ==> (Invoke(m, target).instance.Some? <==> target.Some?)
    // Only the invoked code's own exceptions come back wrapped, with the
    // instance as the body left it ...
    ensures var r := Invoke(m, target);
      r.Threw? && r.exception.inner.Some? ==>
        && target.Some? && m.parameterCount == 0 && m.body(target.value).Raised?
        && r.exception.message == TargetInvocationMessage
        && r.exception.inner.value == m.body(target.value).exception
        && r.instance == Some(m.body(target.value).after)
    // ... and an unwrapped exception is one of the two refusals.
    ensures var r := Invoke(m, target);
      r.Threw? && r.exception.inner.None? ==>
        || (target.None? && r.exception.message == TargetRequiredMessage)
        || (target.Some? && m.parameterCount != 0 && r.exception.message == ParameterCountMessage)
  {
  }

  /**
   * `Activator.CreateInstance(type)`: a fresh instance, or an exception and no
   * instance.  An exception from the constructor body is wrapped once; a type
   * that cannot be created at all raises its own exception unwrapped.
   */
  function CreateInstance(c: ClassInfo): (r: Invocation)
    ensures r.Threw? ==> r.instance.None?
    ensures r.Completed? <==> c.creation.Constructed?
  {
    match c.creation
    case Constructed(init) => Completed(init)
    case ConstructorThrows(e) => Threw(Wrap(e), None)
    case NotCreatable(e) => Threw(e, None)
  }
}
