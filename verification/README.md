# service_mock expectation builder, modelled in Dafny

The Go package `service_mock` wraps a gomock-generated client. Its one piece of
logic is `MockServiceClient.Mock(opts *MockOptions)`. `Mock` takes a loosely typed
description of one expected call and does five things:

- it fills in a default context matcher;
- it checks that `Call` (and `DoAndReturn`, when given) are functions;
- it builds the ordered argument list for the recorder method by reflection (`makeInputForCall`);
- it registers the expectation;
- it configures the resolution mode (`setupReturnValues`) and the count policy (`setupTimes`).

This project models that builder with pure functions over immutable data:

- `wrappers.dfy`: `Result`. A Go panic of the builder is a `Failure(Panic)`.
- `reflection.dfy`: the reflection view the builder relies on.
  - `Value` is a dynamic value: nil, a plain value, the `gomock.Any()` wildcard, a function with its name and `Signature`, a slice, an array, or a `[]reflect.Value`.
  - `Signature` is `{numIn, variadic}`.
  - `Arg` is a `reflect.Value` slot: zero (`Unset`) or holding a value.
  - `ValuesOf` models `getValuesFromSliceOrArray`.
- `service_mock.dfy`: `MockOptions`, the builder's operations, and the lemmas that relate them.
- `scenarios.dfy`: concrete configurations passed to `Mock` (most are the package's test cases, two exercise its panics) against the example interface's method shapes. For instance, `GetWithVariadic` is `{3, variadic}` and `GetByString` is `{2, not variadic}`.

The gomock controller is modelled as the list of registered expectations. Each
`Expectation` records the recorder method, the bound argument list, the action
(`DoAndReturn(fn)` or `Return(values)`) and the count (`AnyTimes` or `Times(n)`).

Two behaviours of the code are modelled as written, although one might expect otherwise:

- A slice `Return` is NOT spread over several return slots. `startReturnValues`
  appends the whole `[]reflect.Value` as one element, so normal mode always yields
  exactly two values: `[slot, Error]`.
- Only a slice `Return` gets this treatment. An array `Return` is not of slice kind,
  so it is kept as a single ordinary value.

## Model

| member | source | states |
|---|---|---|
| ServiceMock.Mock | service_mock.go:105-131 | A non-function `Call` panics and a non-nil, non-function `DoAndReturn` panics. Both checks run before binding, and they take precedence over any index panic. When both pass and the binding fails, the result is exactly the index panic. Success holds exactly when both checks pass and binding succeeds. On success the handle comes back unchanged, and exactly one expectation is appended after the earlier ones. That expectation has the call, the bound arguments (slot 0 is the context or the wildcard), and the mode and count of `setupReturnValues`. |
| ServiceMock.WithDefaultCtx | service_mock.go:108-110 | A nil context becomes the wildcard. A non-nil context is left as is. No other option changes. |
| ServiceMock.MakeInputForCall | service_mock.go:133-180 | The binding panics (index out of range) exactly when the input is absent and the method has no parameters, or the input is a scalar and fewer than two non-variadic parameters exist. Absent input gives `numIn` slots: the context, then wildcards (the variadic slot included). A slice or array input gives `len+1` slots: the context, then the elements in order, whatever the signature. A scalar input gives `numIn` (minus one if variadic) slots: the context, the scalar, then zero Values. |
| Reflection.ValuesOf | service_mock.go:226-233 | One `reflect.Value` per element, same length, same order, none of them zero. |
| Reflection.WrapAll | service_mock.go:227-231 | Wrapping keeps the length and puts element `i` in slot `i`. |
| Reflection.HeldWrapAll | service_mock.go:226-233 | Unwrapping the wrapped elements gives back the original sequence. |
| Reflection.WrapAllHeld | service_mock.go:226-233 | Wrapping the values held by non-zero `reflect.Value`s gives back the same list. |
| ServiceMock.StartReturnValues | service_mock.go:218-224 | Always exactly one non-error slot. A slice return becomes one `[]reflect.Value` holding its elements. Nil, a scalar or an array is the slot itself. |
| ServiceMock.SetupTimes | service_mock.go:209-216 | The count is "any times" exactly when `AnyTimes` is set. Otherwise it is `Times` verbatim. |
| ServiceMock.SetupReturnValues | service_mock.go:182-207 | Custom behaviour is used exactly when `DoAndReturn` is non-nil. Otherwise single-error mode returns exactly `[Error]`. Otherwise two values are returned: the return slot, then `Error`. The count policy is the `setupTimes` result in every mode. |
| ServiceMock.SequenceInputRoundTrip | service_mock.go:153-168 | Reading the values back from slots 1.. of a slice or array binding gives exactly the input's elements. |
| ServiceMock.SequenceInputIgnoresSignature | service_mock.go:153-168 | A slice or array input binds identically for any two signatures. |
| ServiceMock.NilContextMeansAny | service_mock.go:108-110 | `Mock` with a nil context gives the same result as `Mock` with an explicit wildcard context. |
| ServiceMock.DefaultCtxIdempotent | service_mock.go:108-110 | Defaulting the context twice is the same as defaulting it once. |
| ServiceMock.AnyTimesWins | service_mock.go:209-216 | With `AnyTimes` set, every `Times` value gives "any times". Without it, every `Times` value n (zero included) gives exactly n. |
| ServiceMock.CustomBehaviourWins | service_mock.go:182-190 | Once `DoAndReturn` is set, changing `Return`, `Error` or `SingleErrorReturned` does not change the configuration. |
| ServiceMock.SingleErrorIgnoresReturn | service_mock.go:192-199 | In single-error mode, changing `Return` does not change the configuration. |
| ServiceMock.ErrorIsLast | service_mock.go:192-204 | Without custom behaviour, fixed values are returned and the error is the last of them. There is one value in single-error mode and two otherwise. |
| ServiceMock.SliceReturnIsOneSlot | service_mock.go:218-221 | Slice returns of any two lengths both give exactly two return values. |
| Scenarios.GetByStringScenario | service_mock_test.go:14-43 | A scalar input and scalar return on `GetByString` register `[ctx, "Hello World"]`, returning `["Mocked Output", nil]` once. |
| Scenarios.VariadicSliceScenario | service_mock_test.go:139-170 | A three-element slice input on `GetWithVariadic` binds four arguments in order. |
| Scenarios.VariadicScalarScenario | service_mock_test.go:171-199 | A scalar input on `GetWithVariadic` binds only the context and that argument. |
| Scenarios.SingleErrorScenario | service_mock_test.go:202-261 | Single-error mode returns exactly the given error, whether it is an error or nil. |
| Scenarios.DoAndReturnScenario | service_mock_test.go:323-355 | A function `DoAndReturn` is attached unchanged as the call's action. |
| Scenarios.AbsentInputScenario | service_mock_test.go:450-474 | No input on `Any` binds the context and two wildcards, and returns `[nil, nil]`. |
| Scenarios.ScalarInputTooFewParameters | service_mock.go:170-179 | A scalar input for a variadic method with two parameters panics on slot 1. |
| Scenarios.SameShapeDistinctMethods | service_mock.go:125-127 | `SingleError` and `GetWithVariadic` have the same shape, yet configuring each registers an expectation on that method and not the other. |
| Scenarios.DoAndReturnMustBeFunction | service_mock.go:119-123 | A non-function `DoAndReturn` is a fatal error. |

## Left out

- `New`, `NewWithCtrl`, `Recorder` and `Client` (service_mock.go:69-103) are not modelled. They only hold an externally supplied generated client. The handle is an opaque value here.
- The recorder method call is not modelled (service_mock.go:126-127: `reflect.Value.Call` plus the `*gomock.Call` assertion). It is replaced by appending the bound arguments to the controller's list.
  - reflect's own checks on that call are outside the model: the arity check, and the rejection of zero-Value arguments.
  - So a scalar input is modelled as succeeding with `Unset` slots whenever `ScalarArity(sig) > 2`: a non-variadic method with more than two parameters, or a variadic one with more than three. The real call of the recorder method would panic on those slots.
- gomock internals are not modelled: argument matching, count verification at controller teardown, and `Return`'s type checks against the method. Nor is the default count of one that the recorder gives a fresh call. `setupTimes` always overrides that default.
- The end-to-end results asserted by the tests are not modelled: the values the client returns and struct equality. They depend on the generated mock and on gomock matching. The tests serve only as concrete inputs in `scenarios.dfy`.
- A nil `Call` panics in `Type()` rather than with the "Call must be a function" message. Both are the same `CallNotFunction` failure here.
- Go `Mock` writes the defaulted context back into the caller's options before it can panic. The model returns the updated options only on success.
- The entries of a `[]reflect.Value` that a caller passes as `Input` or `Return` are taken to be the values they hold. A typed nil passed as `Ctx` or `Input` is not distinguished from other values.
- A nil `*MockOptions` is not modelled. In Go it panics with a nil dereference at service_mock.go:108. Here the options are a value and cannot be nil.
- Slice aliasing is not modelled. The `[]reflect.Value` built from a slice `Return` (service_mock.go:220, 230) points into the caller's backing array. Later writes to that slice show through in the registered return value. `ValueList` records the elements as they were when `Mock` ran.
- A function value is identified by a name standing for the Go function, plus its shape. Go's own function identity (closures, method values bound to a receiver) is not modelled further.
- `internal/example/example.go` is a fixture. It contributes only the method shapes used in `scenarios.dfy`.
