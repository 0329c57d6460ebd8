/** The part of Go's reflection that the expectation builder relies on:
    dynamic values with their kind, function shapes, and `reflect.Value`
    slots that may be the zero Value. */
module Reflection {

  /** The shape of a function type, as `Type().NumIn()` and `Type().IsVariadic()` report it. */
  datatype FuncType = FuncType(numIn: nat, variadic: bool)

  /** Go only admits a variadic function that has at least its variadic parameter. */
  type Signature = t: FuncType | t.variadic ==> t.numIn >= 1 witness FuncType(0, false)

  /** A dynamic (`interface{}`) value, classified by what the builder inspects. */
  datatype Value =
    | Nil                          // the nil interface
    | Atom(name: string)           // any value of another kind: string, int, pointer, struct, error, context
    | Wildcard                     // the matcher returned by gomock.Any()
    | Func(name: string, sig: Signature) // a function value: which function, and its shape
    | Slice(items: seq<Value>)
    | Array(items: seq<Value>)
    | ValueList(items: seq<Value>) // a []reflect.Value whose entries hold `items`
  {
    /** `Kind() == reflect.Slice || Kind() == reflect.Array` */
    predicate IsSequence() {
      Slice? || Array? || ValueList?
    }

    /** `Kind() == reflect.Slice` (an array is not a slice) */
    predicate IsSlice() {
      Slice? || ValueList?
    }
  }

  /** A `reflect.Value`: the zero Value, or one holding a value. */
  datatype Arg = Unset | Set(v: Value)

  /** Wraps every element, in order, as a `reflect.Value`. */
  function WrapAll(xs: seq<Value>): (r: seq<Arg>)
    ensures |r| == |xs|
    ensures forall i :: 0 <= i < |xs| ==> r[i] == Set(xs[i])
  {
    if xs == [] then [] else [Set(xs[0])] + WrapAll(xs[1..])
  }

  /** The values held by a list of non-zero `reflect.Value`s. */
  function Held(args: seq<Arg>): (r: seq<Value>)
    requires forall i :: 0 <= i < |args| ==> args[i].Set?
    ensures |r| == |args|
    ensures forall i :: 0 <= i < |args| ==> Set(r[i]) == args[i]
  {
    if args == [] then [] else [args[0].v] + Held(args[1..])
  }

  /** getValuesFromSliceOrArray: one `reflect.Value` per element of a slice or array. */
  function ValuesOf(v: Value): (r: seq<Arg>)
    requires v.IsSequence()
    ensures |r| == |v.items|
    ensures forall i :: 0 <= i < |r| ==> r[i].Set? && r[i].v == v.items[i]
  {
    WrapAll(v.items)
  }

  /** Unwrapping the values of a slice gives back its elements, in order. */
  lemma HeldWrapAll(xs: seq<Value>)
    ensures Held(WrapAll(xs)) == xs
  {
  }

  /** Wrapping the held values gives back the same `reflect.Value`s. */
  lemma WrapAllHeld(args: seq<Arg>)
    requires forall i :: 0 <= i < |args| ==> args[i].Set?
    ensures WrapAll(Held(args)) == args
  {
  }
}
