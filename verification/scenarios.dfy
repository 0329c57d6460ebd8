/** Concrete configurations passed to `Mock` against the recorder
    methods of the example interface: most replay the package's own test
    cases; the last two exercise the builder's panics, which no test covers. */
module Scenarios {
  import opened Wrappers
  import opened Reflection
  import opened ServiceMock

  // Recorder methods of the example interface: (ctx, args...) -> *gomock.Call
  const GetByString: Value := Func("GetByString", FuncType(2, false))
  const GetWithVariadic: Value := Func("GetWithVariadic", FuncType(3, true))
  const SingleError: Value := Func("SingleError", FuncType(3, true))
  const WithDoAndReturn: Value := Func("WithDoAndReturn", FuncType(2, false))
  const AnyMethod: Value := Func("Any", FuncType(3, true))

  const Todo: Value := Atom("context.TODO()")
  const Handle: MockServiceClient := MockServiceClient(Atom("MockExampleMock"))
  const Fresh: Controller := Controller([])

  /** Options with every field omitted except the context, the call and a count of one. */
  function Base(call: Value): MockOptions {
    MockOptions(Todo, false, 1, Nil, Nil, call, Nil, false, Nil)
  }

  /** A scalar input and a scalar return bind two arguments and return the value with no error. */
  lemma GetByStringScenario()
    ensures var opts := Base(GetByString).(input := Atom("Hello World"), ret := Atom("Mocked Output"));
            Mock(Handle, Fresh, opts)
            == Success(Mocked(Handle, Controller([Expectation(
                 GetByString,
                 [Set(Todo), Set(Atom("Hello World"))],
                 Return([Atom("Mocked Output"), Nil]),
                 Times(1))]), opts))
  {
    var opts := Base(GetByString).(input := Atom("Hello World"), ret := Atom("Mocked Output"));
    var args := MakeInputForCall(Todo, FuncType(2, false), Atom("Hello World")).value;
    assert args == [Set(Todo), Set(Atom("Hello World"))];
    var e := Mock(Handle, Fresh, opts).value.ctrl.expected[0];
    assert e.action == Return([Atom("Mocked Output"), Nil]);
  }

  /** A slice input spreads over the variadic tail: three values give four arguments. */
  lemma VariadicSliceScenario()
    ensures var opts := Base(GetWithVariadic).(
              input := Slice([Atom("Hello World"), Atom("Another One"), Atom("Another One")]),
              ret := Atom("0"));
            var r := Mock(Handle, Fresh, opts);
            && r.Success?
            && r.value.ctrl.expected[0].args
               == [Set(Todo), Set(Atom("Hello World")), Set(Atom("Another One")), Set(Atom("Another One"))]
  {
  }

  /** A scalar input on a variadic method binds the context and the one argument only. */
  lemma VariadicScalarScenario()
    ensures var opts := Base(GetWithVariadic).(input := Atom("Hello World"), ret := Atom("0"));
            var r := Mock(Handle, Fresh, opts);
            && r.Success?
            && r.value.ctrl.expected[0].args == [Set(Todo), Set(Atom("Hello World"))]
  {
  }

  /** Single-error mode returns exactly the error, or exactly nil. */
  lemma SingleErrorScenario(err: Value)
    ensures var opts := Base(SingleError).(
              input := Slice([Atom("Hello World")]), singleErrorReturned := true, err := err);
            var r := Mock(Handle, Fresh, opts);
            && r.Success?
            && r.value.ctrl.expected[0].action == Return([err])
  {
  }

  /** Custom behaviour is attached as is. */
  lemma DoAndReturnScenario()
    ensures var fn := Func("func(ctx, in) (*Example, error)", FuncType(2, false));
            var opts := Base(WithDoAndReturn).(input := Slice([Atom("&Example{1}")]), doAndReturn := fn);
            var r := Mock(Handle, Fresh, opts);
            && r.Success?
            && r.value.ctrl.expected[0].action == DoAndReturn(fn)
  {
  }

  /** With no input every parameter, the variadic one included, is a wildcard. */
  lemma AbsentInputScenario()
    ensures var r := Mock(Handle, Fresh, Base(AnyMethod));
            && r.Success?
            && r.value.ctrl.expected[0].args == [Set(Todo), Set(Wildcard), Set(Wildcard)]
            && r.value.ctrl.expected[0].action == Return([Nil, Nil])
  {
  }

  /** A scalar input on a method with one ordinary parameter and a variadic one
      makes a one-slot list, and writing slot 1 panics. */
  lemma ScalarInputTooFewParameters()
    ensures Mock(Handle, Fresh, Base(Func("OneArgVariadic", FuncType(2, true))).(input := Atom("x")))
         == Failure(IndexOutOfRange)
  {
  }

  /** A non-function `DoAndReturn` is rejected even when nothing else is wrong. */
  lemma DoAndReturnMustBeFunction()
    ensures Mock(Handle, Fresh, Base(GetByString).(doAndReturn := Atom("not a func")))
         == Failure(DoAndReturnNotFunction)
  {
  }

  /** Two recorder methods of the same shape register different expectations:
      each records the method it was configured on. */
  lemma SameShapeDistinctMethods()
    ensures var opts := Base(SingleError).(input := Slice([Atom("Hello World")]), singleErrorReturned := true);
            var r1 := Mock(Handle, Fresh, opts);
            var r2 := Mock(Handle, Fresh, opts.(call := GetWithVariadic));
            && r1.Success? && r2.Success?
            && r1.value.ctrl.expected[0].call == SingleError
            && r2.value.ctrl.expected[0].call == GetWithVariadic
            && r1 != r2
  {
  }
}
