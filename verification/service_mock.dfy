/** The expectation builder: `Mock` turns one `MockOptions` description into
    a registered, fully configured gomock expectation. */
module ServiceMock {
  import opened Wrappers
  import opened Reflection

  /** Every option a mocked call may have. `Nil` stands for an omitted field. */
  datatype MockOptions = MockOptions(
    ctx: Value,                // matched against the first parameter
    anyTimes: bool,            // the call may happen zero or more times
    times: int,                // the exact number of calls otherwise
    input: Value,              // absent, one argument, or a slice/array of arguments
    ret: Value,                // the successful return value
    call: Value,               // the recorder method being configured
    err: Value,                // the error value to return
    singleErrorReturned: bool, // the method returns only an error
    doAndReturn: Value         // custom behaviour computing the results
  )

  /** The fatal configuration errors (Go panics) of the builder. */
  datatype Panic = CallNotFunction | DoAndReturnNotFunction | IndexOutOfRange

  /** The count policy given to a gomock call. */
  datatype Count = AnyTimes | Times(n: int)

  /** How the registered call resolves: computed behaviour or fixed return values. */
  datatype Action = DoAndReturn(fn: Value) | Return(values: seq<Value>)

  datatype Setup = Setup(action: Action, count: Count)

  /** A registered expectation: the recorder method, its argument matchers and its configuration. */
  datatype Expectation = Expectation(call: Value, args: seq<Arg>, action: Action, count: Count)

  /** The controller's record of registered expectations, oldest first. */
  datatype Controller = Controller(expected: seq<Expectation>)

  /** The mock handle; the service client is an opaque value supplied by the generated code. */
  datatype MockServiceClient = MockServiceClient(serviceClient: Value)

  /** What a successful `Mock` leaves behind: the handle it returns, the
      controller's expectations, and the caller's options after the context default. */
  datatype Mocked = Mocked(client: MockServiceClient, ctrl: Controller, opts: MockOptions)

  /** The context matcher used for slot 0: the given context, or gomock.Any() when nil. */
  function ContextMatcher(ctx: Value): Value {
    if ctx == Nil then Wildcard else ctx
  }

  /** A nil `Ctx` is replaced by the wildcard; nothing else in the options changes. */
  function WithDefaultCtx(opts: MockOptions): (r: MockOptions)
    ensures r.ctx != Nil
    ensures opts.ctx == Nil ==> r.ctx == Wildcard
    ensures opts.ctx != Nil ==> r == opts
    ensures r.(ctx := opts.ctx) == opts
  {
    opts.(ctx := ContextMatcher(opts.ctx))
  }

  /** The number of parameters a scalar input binds: the variadic slot is not counted. */
  function ScalarArity(sig: Signature): nat {
    if sig.variadic then sig.numIn - 1 else sig.numIn
  }

  /** makeInputForCall: the ordered argument list handed to the recorder method.
      Absent input binds every parameter; a slice or array binds its elements
      after the context, whatever the signature; a scalar binds parameter 1 and
      leaves the rest of the non-variadic parameters as zero Values. Writing
      slot 0 or 1 of a shorter list is an index-out-of-range panic. */
  function MakeInputForCall(ctx: Value, sig: Signature, input: Value): (r: Result<seq<Arg>, Panic>)
    ensures r.Failure? <==>
              || (input == Nil && sig.numIn == 0)
              || (input != Nil && !input.IsSequence() && ScalarArity(sig) < 2)
    ensures r.Failure? ==> r.error == IndexOutOfRange
    ensures r.Success? ==> |r.value| >= 1 && r.value[0] == Set(ctx)
    ensures r.Success? && input == Nil ==>
              && |r.value| == sig.numIn
              && forall i :: 1 <= i < |r.value| ==> r.value[i] == Set(Wildcard)
    ensures input.IsSequence() ==>
              && r.Success?
              && |r.value| == |input.items| + 1
              && forall i :: 0 <= i < |input.items| ==> r.value[i + 1] == Set(input.items[i])
    ensures r.Success? && input != Nil && !input.IsSequence() ==>
              && |r.value| == ScalarArity(sig)
              && r.value[1] == Set(input)
              && forall i :: 2 <= i < |r.value| ==> r.value[i] == Unset
  {
    if input == Nil then
      if sig.numIn == 0 then Failure(IndexOutOfRange)
      else Success([Set(ctx)] + seq(sig.numIn - 1, _ => Set(Wildcard)))
    else if input.IsSequence() then
      Success([Set(ctx)] + ValuesOf(input))
    else
      var n := ScalarArity(sig);
      if n < 2 then Failure(IndexOutOfRange)
      else Success([Set(ctx), Set(input)] + seq(n - 2, _ => Unset))
  }

  /** startReturnValues: the non-error return slots. A slice return is NOT
      spread: it becomes a single slot holding its `reflect.Value`s. An array,
      a scalar or nil is the single slot itself. */
  function StartReturnValues(opts: MockOptions): (r: seq<Value>)
    ensures |r| == 1
    ensures opts.ret.IsSlice() ==> r[0].ValueList? && r[0].items == opts.ret.items
    ensures !opts.ret.IsSlice() ==> r[0] == opts.ret
  {
    if opts.ret != Nil && opts.ret.IsSlice() then [ValueList(opts.ret.items)] else [opts.ret]
  }

  /** setupTimes: `AnyTimes` takes precedence; otherwise `Times` verbatim. */
  function SetupTimes(opts: MockOptions): (c: Count)
    ensures c.AnyTimes? <==> opts.anyTimes
    ensures c.Times? ==> c.n == opts.times
  {
    if opts.anyTimes then AnyTimes else Times(opts.times)
  }

  /** setupReturnValues: the resolution mode, chosen in priority order
      (custom behaviour, then single error, then value and error), and the
      count policy, applied once whatever the mode. */
  function SetupReturnValues(opts: MockOptions): (s: Setup)
    ensures s.count == SetupTimes(opts)
    ensures s.action.DoAndReturn? <==> opts.doAndReturn != Nil
    ensures s.action.DoAndReturn? ==> s.action.fn == opts.doAndReturn
    ensures opts.doAndReturn == Nil && opts.singleErrorReturned ==> s.action == Return([opts.err])
    ensures opts.doAndReturn == Nil && !opts.singleErrorReturned ==>
              && s.action.Return?
              && |s.action.values| == 2
              && s.action.values[0] == (if opts.ret.IsSlice() then ValueList(opts.ret.items) else opts.ret)
              && s.action.values[1] == opts.err
  {
    if opts.doAndReturn != Nil then
      Setup(DoAndReturn(opts.doAndReturn), SetupTimes(opts))
    else if opts.singleErrorReturned then
      Setup(Return([opts.err]), SetupTimes(opts))
    else
      Setup(Return(StartReturnValues(opts) + [opts.err]), SetupTimes(opts))
  }

  /** Mock: defaults the context, rejects a non-function `Call` and a non-nil,
      non-function `DoAndReturn` before anything is bound, binds the arguments,
      registers one expectation and configures it. The handle is returned unchanged. */
  function Mock(m: MockServiceClient, ctrl: Controller, opts: MockOptions): (r: Result<Mocked, Panic>)
    ensures !opts.call.Func? ==> r == Failure(CallNotFunction)
    ensures opts.call.Func? && opts.doAndReturn != Nil && !opts.doAndReturn.Func? ==>
              r == Failure(DoAndReturnNotFunction)
    ensures r == Failure(IndexOutOfRange) <==>
              && opts.call.Func?
              && (opts.doAndReturn == Nil || opts.doAndReturn.Func?)
              && MakeInputForCall(ContextMatcher(opts.ctx), opts.call.sig, opts.input).Failure?
    ensures r.Success? <==>
              && opts.call.Func?
              && (opts.doAndReturn == Nil || opts.doAndReturn.Func?)
              && MakeInputForCall(ContextMatcher(opts.ctx), opts.call.sig, opts.input).Success?
    ensures r.Success? ==>
              && r.value.client == m
              && r.value.opts == WithDefaultCtx(opts)
              && |r.value.ctrl.expected| == |ctrl.expected| + 1
              && r.value.ctrl.expected[..|ctrl.expected|] == ctrl.expected
    ensures r.Success? ==>
              var e := r.value.ctrl.expected[|ctrl.expected|];
              && e.call == opts.call
              && e.args == MakeInputForCall(ContextMatcher(opts.ctx), opts.call.sig, opts.input).value
              && e.args[0] == Set(ContextMatcher(opts.ctx))
              && Setup(e.action, e.count) == SetupReturnValues(opts)
  {
    var opts := WithDefaultCtx(opts);
    if !opts.call.Func? then Failure(CallNotFunction)
    else if opts.doAndReturn != Nil && !opts.doAndReturn.Func? then Failure(DoAndReturnNotFunction)
    else
      var args :- MakeInputForCall(opts.ctx, opts.call.sig, opts.input);
      var setup := SetupReturnValues(opts);
      var registered := Controller(ctrl.expected + [Expectation(opts.call, args, setup.action, setup.count)]);
      Success(Mocked(m, registered, opts))
  }

  // ---------------------------------------------------------------------------
  // Properties relating several calls

  /** A slice or array input binds back to exactly its elements, in order. */
  lemma SequenceInputRoundTrip(ctx: Value, sig: Signature, input: Value)
    requires input.IsSequence()
    ensures var r := MakeInputForCall(ctx, sig, input);
            && r.Success?
            && (forall i :: 1 <= i < |r.value| ==> r.value[i].Set?)
            && Held(r.value[1..]) == input.items
  {
  }

  /** A slice or array input is bound the same way for every signature. */
  lemma SequenceInputIgnoresSignature(ctx: Value, sig1: Signature, sig2: Signature, input: Value)
    requires input.IsSequence()
    ensures MakeInputForCall(ctx, sig1, input) == MakeInputForCall(ctx, sig2, input)
  {
  }

  /** A nil context and an explicit gomock.Any() register the same expectation. */
  lemma NilContextMeansAny(m: MockServiceClient, ctrl: Controller, opts: MockOptions)
    requires opts.ctx == Nil
    ensures Mock(m, ctrl, opts) == Mock(m, ctrl, opts.(ctx := Wildcard))
  {
  }

  /** Defaulting the context twice is the same as defaulting it once. */
  lemma DefaultCtxIdempotent(opts: MockOptions)
    ensures WithDefaultCtx(WithDefaultCtx(opts)) == WithDefaultCtx(opts)
  {
  }

  /** With `AnyTimes` set the `Times` field is ignored; without it, any count
      (zero and negative ones included) is passed through unchanged. */
  lemma AnyTimesWins(opts: MockOptions, n: int)
    ensures opts.anyTimes ==> SetupTimes(opts.(times := n)) == AnyTimes
    ensures !opts.anyTimes ==> SetupTimes(opts.(times := n)) == Times(n)
  {
  }

  /** Custom behaviour wins: the static return, error and single-error fields
      have no effect once `DoAndReturn` is set. */
  lemma CustomBehaviourWins(opts: MockOptions, ret: Value, err: Value, single: bool)
    requires opts.doAndReturn != Nil
    ensures SetupReturnValues(opts.(ret := ret, err := err, singleErrorReturned := single))
         == SetupReturnValues(opts)
  {
  }

  /** In single-error mode the return value is ignored. */
  lemma SingleErrorIgnoresReturn(opts: MockOptions, ret: Value)
    requires opts.doAndReturn == Nil && opts.singleErrorReturned
    ensures SetupReturnValues(opts.(ret := ret)) == SetupReturnValues(opts)
  {
  }

  /** Whenever fixed values are returned, the error is the last of them,
      and there are two slots exactly when the single-error flag is off. */
  lemma ErrorIsLast(opts: MockOptions)
    requires opts.doAndReturn == Nil
    ensures var a := SetupReturnValues(opts).action;
            && a.Return?
            && |a.values| == (if opts.singleErrorReturned then 1 else 2)
            && a.values[|a.values| - 1] == opts.err
  {
  }

  /** The number of return slots does not depend on how long a slice return is. */
  lemma SliceReturnIsOneSlot(opts: MockOptions, xs: seq<Value>, ys: seq<Value>)
    requires opts.doAndReturn == Nil && !opts.singleErrorReturned
    ensures |SetupReturnValues(opts.(ret := Slice(xs))).action.values|
         == |SetupReturnValues(opts.(ret := Slice(ys))).action.values|
         == 2
  {
  }
}
