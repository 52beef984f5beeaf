// JavaScript values as far as the dashboard inspects them: the untyped
// payload handed to the chart, its truthiness, and reading a property.

module Js {

  datatype Option<T> = None | Some(value: T)

  /** The outcome of an expression that may throw; the only exception the
      dashboard's code can raise is the TypeError of reading a property of
      `null` or `undefined`. */
  datatype Result<T> = Ok(value: T) | TypeError

  /** An untyped JavaScript value. Numbers are opaque integers (no NaN, no
      fractions); an object is its own enumerable string-keyed properties in the
      order `Object.entries` reports them (integer-like keys first, ascending,
      then the rest in insertion order), which the model takes as given. */
  datatype Value =
    | Undefined
    | Null
    | Bool(b: bool)
    | Num(n: int)
    | Str(s: string)
    | Arr(elems: seq<Value>)
    | Obj(fields: seq<(string, Value)>)

  /** `null` and `undefined`, the two values whose properties cannot be read. */
  predicate Nullish(v: Value)
  {
    v.Undefined? || v.Null?
  }

  /** JavaScript's ToBoolean conversion, as `if (v)`, `!v` and `v || w` use it:
      exactly `undefined`, `null`, `false`, `0` and `''` are falsy. */
  predicate Truthy(v: Value): (r: bool)
    ensures !r <==> v in {Undefined, Null, Bool(false), Num(0), Str("")}
  {
    match v
    case Undefined => false
    case Null => false
    case Bool(b) => b
    case Num(n) => n != 0
    case Str(s) => s != ""
    case Arr(_) => true
    case Obj(_) => true
  }

  /** The value of `a || b`. */
  function Or(a: Value, b: Value): (r: Value)
    ensures Truthy(a) ==> r == a
    ensures !Truthy(a) ==> r == b
    ensures Truthy(r) <==> Truthy(a) || Truthy(b)
  {
    if Truthy(a) then a else b
  }

  /** Entry `i` of `fields` is the first one named `key`. */
  predicate FirstWithKey(fields: seq<(string, Value)>, key: string, i: int)
  {
    0 <= i < |fields| && fields[i].0 == key &&
    forall j :: 0 <= j < i ==> fields[j].0 != key
  }

  /** The property `key` of an object: the first entry with that name, or
      `undefined` when there is none. */
  function Lookup(fields: seq<(string, Value)>, key: string): (r: Value)
    ensures (forall j :: 0 <= j < |fields| ==> fields[j].0 != key) ==> r == Undefined
    ensures forall i :: FirstWithKey(fields, key, i) ==> r == fields[i].1
  {
    if |fields| == 0 then Undefined
    else if fields[0].0 == key then
      assert FirstWithKey(fields, key, 0);
      fields[0].1
    else
      var r := Lookup(fields[1..], key);
      assert forall i :: FirstWithKey(fields, key, i) ==> FirstWithKey(fields[1..], key, i - 1);
      assert forall i :: FirstWithKey(fields[1..], key, i) ==> FirstWithKey(fields, key, i + 1);
      r
  }

  /** The property read `v.key` for a key that no built-in prototype defines
      (the dashboard reads only `date` and `value`): an own property of an
      object, `undefined` on arrays, booleans, numbers and strings. Reading from
      `null` or `undefined` throws, so it is excluded here and handled by the
      caller. */
  function Get(v: Value, key: string): (r: Value)
    requires !Nullish(v)
    ensures !v.Obj? ==> r == Undefined
    ensures v.Obj? && (forall j :: 0 <= j < |v.fields| ==> v.fields[j].0 != key) ==> r == Undefined
    ensures v.Obj? ==> forall i :: FirstWithKey(v.fields, key, i) ==> r == v.fields[i].1
  {
    if v.Obj? then Lookup(v.fields, key) else Undefined
  }

  /** With distinct keys, looking up the key of entry `i` finds entry `i`. */
  lemma LookupDistinct(fields: seq<(string, Value)>, i: nat)
    requires i < |fields|
    requires forall j, k :: 0 <= j < k < |fields| ==> fields[j].0 != fields[k].0
    ensures Lookup(fields, fields[i].0) == fields[i].1
  {
    assert FirstWithKey(fields, fields[i].0, i);
  }
}
