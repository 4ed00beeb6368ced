/**
 * JavaScript values as the application receives them from `res.json()` and
 * `JSON.parse` (plus `undefined`), with the property-access, `??`, truthiness
 * and string-conversion rules that the payload adapters rely on.
 *
 * An object is its own enumerable properties in property order, keys distinct.
 * Property access on a string, number, boolean or array yields `undefined`:
 * exact for every key the application reads, none of which is `length`, an
 * array index or a prototype method name.
 */
module JsValues {
  import opened Wrappers
  import opened Text

  datatype Js =
    | Undefined
    | Null
    | Bool(b: bool)
    | Num(n: real)
    | Str(s: string)
    | Arr(items: seq<Js>)
    | Obj(entries: seq<(string, Js)>)

  /**
   * A thrown error: the TypeError of reading a property of null or undefined
   * (or iterating a non-iterable), or any other exception, such as a failed
   * request, a malformed token segment or text that is not JSON.
   */
  datatype Fault = TypeError | OtherError

  /**
   * The parts of the JavaScript engine that the model does not define:
   * Number::toString for non-integral (or huge) numbers, `JSON.parse`, and
   * `JSON.parse(atob(·))` on a token segment. `None` stands for a thrown error.
   */
  datatype Engine = Engine(
    numberToString: real -> string,
    jsonParse: string -> Option<Js>,
    decodeTokenSegment: string -> Option<Js>)

  /** `v === null || v === undefined`, the values `??` and `?.` treat as absent. */
  predicate Nullish(v: Js) {
    v.Undefined? || v.Null?
  }

  /** `Boolean(v)`. JSON cannot produce NaN, so 0 is the only falsy number. */
  predicate Truthy(v: Js) {
    match v
    case Undefined => false
    case Null => false
    case Bool(b) => b
    case Num(n) => n != 0.0
    case Str(s) => s != ""
    case Arr(_) => true
    case Obj(_) => true
  }

  /** The value stored under `k` in an object's properties, or undefined. */
  function Field(entries: seq<(string, Js)>, k: string): Js
    decreases |entries|
  {
    if entries == [] then Undefined
    else if entries[0].0 == k then entries[0].1
    else Field(entries[1..], k)
  }

  /** The first property with a given key is the one a lookup finds. */
  lemma {:induction false} FieldAt(entries: seq<(string, Js)>, i: nat)
    requires i < |entries|
    requires forall j :: 0 <= j < i ==> entries[j].0 != entries[i].0
    ensures Field(entries, entries[i].0) == entries[i].1
    decreases i
  {
    if i > 0 {
      var rest := entries[1..];
      forall j | 0 <= j < i - 1 ensures rest[j].0 != rest[i - 1].0 {
        assert rest[j] == entries[j + 1];
      }
      FieldAt(rest, i - 1);
      assert rest[i - 1] == entries[i];
    }
  }

  /** No two properties share a key, as in any object `res.json()` builds. */
  predicate DistinctKeys(entries: seq<(string, Js)>) {
    forall i, j :: 0 <= i < j < |entries| ==> entries[i].0 != entries[j].0
  }

  /** In an object with distinct keys, every property is found under its own key. */
  lemma FieldsOfDistinct(entries: seq<(string, Js)>)
    requires DistinctKeys(entries)
    ensures forall i :: 0 <= i < |entries| ==> Field(entries, entries[i].0) == entries[i].1
  {
    forall i | 0 <= i < |entries| ensures Field(entries, entries[i].0) == entries[i].1 {
      FieldAt(entries, i);
    }
  }

  /** A key no property has reads as undefined. */
  lemma {:induction false} FieldAbsent(entries: seq<(string, Js)>, k: string)
    requires forall i :: 0 <= i < |entries| ==> entries[i].0 != k
    ensures Field(entries, k) == Undefined
    decreases |entries|
  {
    if entries != [] {
      var rest := entries[1..];
      forall i | 0 <= i < |rest| ensures rest[i].0 != k {
        assert rest[i] == entries[i + 1];
      }
      FieldAbsent(rest, k);
    }
  }

  /** `v?.k`; also `v.k` on a value that is neither null nor undefined. */
  function Get(v: Js, k: string): Js {
    if v.Obj? then Field(v.entries, k) else Undefined
  }

  /** `v.k`, which throws when `v` is null or undefined. */
  function Access(v: Js, k: string): (r: Result<Js, Fault>)
    ensures r.Failure? <==> Nullish(v)
    ensures r.Success? ==> r.value == Get(v, k)
  {
    if Nullish(v) then Failure(TypeError) else Success(Get(v, k))
  }

  /** `v ?? d`. */
  function Coalesce(v: Js, d: Js): (r: Js)
    ensures Nullish(v) ==> r == d
    ensures !Nullish(v) ==> r == v
  {
    if Nullish(v) then d else v
  }

  predicate IsIntegral(n: real) {
    n == n.Floor as real
  }

  /** `String(v)`: the conversion that also turns a value into a property key. */
  function ToStr(v: Js, engine: Engine): string
    decreases v
  {
    match v
    case Undefined => "undefined"
    case Null => "null"
    case Bool(b) => if b then "true" else "false"
    case Num(n) =>
      if IsIntegral(n) && -1000000000000000000000.0 < n < 1000000000000000000000.0
      then IntToString(n.Floor)
      else engine.numberToString(n)
    case Str(s) => s
    case Arr(items) =>
      Join(seq(|items|, i requires 0 <= i < |items| =>
                 if Nullish(items[i]) then "" else ToStr(items[i], engine)), ',')
    case Obj(_) => "[object Object]"
  }

  /** The values a `for...of` loop visits: array elements, or the code points of a string. */
  function Iterate(v: Js): (r: Option<seq<Js>>)
    ensures r.Some? <==> v.Arr? || v.Str?
    ensures v.Arr? ==> r == Some(v.items)
    ensures v.Str? ==> r.Some? && |r.value| == |v.s|
                       && forall i :: 0 <= i < |v.s| ==> r.value[i] == Str([v.s[i]])
  {
    match v
    case Arr(items) => Some(items)
    case Str(s) => Some(seq(|s|, i requires 0 <= i < |s| => Str([s[i]])))
    case _ => None
  }
}
