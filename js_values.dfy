/**
 * The part of JavaScript's value model that the parser stream relies on:
 * `typeof`, truthiness, the `||` operator, the `in` operator for the
 * `@context` key, and `Object.keys` paired with property access.
 */
module JsValues {
  import opened Wrappers

  /**
   * A JavaScript value as the parser sees it: the result of JSON.parse, an
   * object handed in directly, or an option value. An object is its own
   * enumerable properties in `Object.keys` order. JavaScript objects never hold
   * a key twice (JSON.parse keeps one member per key, with its last value), so
   * an `Obj` that repeats a key stands for no JavaScript value and lies outside
   * the model: property access would see its first member while `Object.keys`
   * would list every one.
   */
  datatype Value =
    | Undefined
    | Null
    | Bool(b: bool)
    | Number(n: real)
    | Str(s: string)
    | Arr(elems: seq<Value>)
    | Obj(members: seq<(string, Value)>)
    | Function

  /** What the stream reports through its `error` event. */
  datatype Err =
    | SyntaxError(detail: string)      // thrown by JSON.parse
    | UnknownType                      // `new Error('unknown type')` from toJson
    | InOnPrimitive                    // TypeError of `'@context' in v` when v is not an object
    | KeysOfNullish                    // TypeError of Object.keys(null) or Object.keys(undefined)
    | ConversionError(detail: string)  // rejection of the JSON-LD processor
    | InputError(detail: string)       // error event of the input stream

  /** The `typeof` operator. */
  function TypeOf(v: Value): (t: string)
    ensures t == "string" <==> v.Str?
    ensures t == "object" <==> v.Null? || v.Arr? || v.Obj?
  {
    match v
    case Undefined => "undefined"
    case Null => "object"
    case Bool(_) => "boolean"
    case Number(_) => "number"
    case Str(_) => "string"
    case Arr(_) => "object"
    case Obj(_) => "object"
    case Function => "function"
  }

  /** JavaScript truthiness (NaN is not modelled: numbers are reals). */
  predicate Truthy(v: Value) {
    match v
    case Undefined => false
    case Null => false
    case Bool(b) => b
    case Number(n) => n != 0.0
    case Str(s) => s != ""
    case _ => true
  }

  /** The `a || b` operator: `a` when it is truthy, otherwise `b`. */
  function Or(a: Value, b: Value): (r: Value)
    ensures Truthy(r) <==> Truthy(a) || Truthy(b)
    ensures r == a || r == b
    ensures Truthy(a) ==> r == a
  {
    if Truthy(a) then a else b
  }

  /** The value of the first member named `key`, or None when there is none. */
  function Lookup(members: seq<(string, Value)>, key: string): (r: Option<Value>)
    ensures r.Some? <==> exists i :: 0 <= i < |members| && members[i].0 == key
    ensures r.Some? ==> exists i :: 0 <= i < |members| && members[i] == (key, r.value)
  {
    if members == [] then None
    else if members[0].0 == key then Some(members[0].1)
    else Lookup(members[1..], key)
  }

  /** The decimal digit for d < 10. */
  function Digit(d: nat): (c: char)
    requires d < 10
    ensures '0' <= c <= '9'
  {
    (48 + d) as char
  }

  /** The number a string of decimal digits denotes, most significant digit first. */
  function DecimalValue(s: string): int
  {
    if s == [] then 0 else DecimalValue(s[..|s| - 1]) * 10 + (s[|s| - 1] as int - '0' as int)
  }

  /** The decimal property name of an array or string index, as Object.keys lists it. */
  function IndexName(i: nat): (r: string)
    ensures |r| > 0
    ensures forall k :: 0 <= k < |r| ==> '0' <= r[k] <= '9'
    ensures i >= 10 ==> r[0] != '0'
  {
    if i < 10 then [Digit(i)] else IndexName(i / 10) + [Digit(i % 10)]
  }

  /** The index name of i is the decimal numeral of i: its digits denote i, with no leading zero. */
  lemma {:induction false} IndexNameDenotes(i: nat)
    ensures DecimalValue(IndexName(i)) == i
    ensures |IndexName(i)| > 1 ==> IndexName(i)[0] != '0'
  {
    var r := IndexName(i);
    if i < 10 {
      assert r[..|r| - 1] == [];
    } else {
      IndexNameDenotes(i / 10);
      assert r[..|r| - 1] == IndexName(i / 10);
      assert r[|r| - 1] == Digit(i % 10);
    }
  }

  /**
   * `Object.keys(v)` with each key paired with `v[key]`: the members of an
   * object, the indices of an array or of a string (each character a string of
   * its own), nothing for booleans, numbers and functions, and a TypeError for
   * null and undefined.
   */
  function KeyedEntries(v: Value): (r: Result<seq<(string, Value)>, Err>)
  {
    match v
    case Undefined => Failure(KeysOfNullish)
    case Null => Failure(KeysOfNullish)
    case Obj(ms) => Success(ms)
    case Arr(es) => Success(seq(|es|, i requires 0 <= i < |es| => (IndexName(i), es[i])))
    case Str(s) => Success(seq(|s|, i requires 0 <= i < |s| => (IndexName(i), Str([s[i]]))))
    case _ => Success([])
  }

  /** KeyedEntries throws exactly for null and undefined, and keeps an object's members in order. */
  lemma KeyedEntriesCases(v: Value)
    ensures KeyedEntries(v).Failure? <==> v.Null? || v.Undefined?
    ensures v.Obj? ==> KeyedEntries(v) == Success(v.members)
    ensures v.Arr? ==> KeyedEntries(v).Success? && |KeyedEntries(v).value| == |v.elems|
    ensures v.Arr? ==> forall i :: 0 <= i < |v.elems| ==> KeyedEntries(v).value[i] == (IndexName(i), v.elems[i])
    ensures v.Str? ==> KeyedEntries(v).Success? && |KeyedEntries(v).value| == |v.s|
    ensures v.Str? ==> forall i :: 0 <= i < |v.s| ==> KeyedEntries(v).value[i] == (IndexName(i), Str([v.s[i]]))
    ensures v.Bool? || v.Number? || v.Function? ==> KeyedEntries(v) == Success([])
  {
  }
}
