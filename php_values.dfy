/**
  The PHP values a SERP request can hold, with the two pieces of PHP semantics
  the request builder relies on: conversion to boolean and loose comparison
  with `null`.
 */
module PhpValues {

  /** An array key after PHP's key normalisation: an integer or a string. */
  datatype Key = IntKey(n: int) | StrKey(s: string)

  /**
    A PHP value. `Null` is also the value of a property that was never set.
    An array is an ordered map; `entries` keeps its insertion order.
   */
  datatype Value =
    | Null
    | Bool(b: bool)
    | Int(n: int)
    | Str(s: string)
    | Arr(entries: seq<(Key, Value)>)

  /** PHP's conversion of a value to boolean. */
  predicate Truthy(v: Value) {
    match v
    case Null => false
    case Bool(b) => b
    case Int(n) => n != 0
    case Str(s) => s != "" && s != "0"
    case Arr(entries) => entries != []
  }

  /**
    `null == v` under PHP's loose comparison. Against a string, null is read
    as the empty string and the two are compared as strings; against any other
    type, both sides are converted to boolean.
   */
  predicate LooselyNull(v: Value) {
    if v.Str? then v.s == "" else !Truthy(v)
  }

  /** The PHP list `array(l[0], l[1], ...)`: keys 0, 1, ... in order. */
  function StringList(l: seq<string>): Value {
    Arr(seq(|l|, i requires 0 <= i < |l| => (IntKey(i), Str(l[i]))))
  }

  /** Exactly null, false, 0, "" and the empty array compare loosely equal to null. */
  lemma LooselyNullValues(v: Value)
    ensures LooselyNull(v) <==> v in {Null, Bool(false), Int(0), Str(""), Arr([])}
  {
  }
}
