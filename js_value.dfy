/**
 * JavaScript values as the gateway handles them: what `JSON.parse` produces, plus
 * `undefined`. Numbers are integers. Objects are insertion-ordered tables. Also the
 * promise outcomes, truthiness, `String(v)`, property reads and the array built-ins used.
 */
module JsValue {
  import opened Base
  import Dict
  import opened JsString

  datatype Value =
    | Undefined
    | Null
    | Bool(b: bool)
    | Num(n: int)
    | Str(s: string)
    | Arr(items: seq<Value>)
    | Obj(props: seq<(string, Value)>)

  /** The own properties of an object, in insertion order. */
  type Props = Dict.Table<Value>

  /** How a promise settles: fulfilled with a value or rejected with a reason. */
  datatype Outcome<T> = Resolved(value: T) | Rejected(reason: Value)

  /** The reason an async function rejects with when its body reads a property of
      `undefined`/`null` or calls something that is not a function. */
  const TypeError: Value := Obj([("name", Str("TypeError"))])

  /** JavaScript truthiness: `undefined`, `null`, `false`, `0` and `""` are falsy. */
  predicate Truthy(v: Value)
  {
    !(v == Undefined || v == Null || v == Bool(false) || v == Num(0) || v == Str(""))
  }

  /** `p[k]` on an object. */
  function Field(p: Props, k: string): (v: Value)
    ensures k !in Dict.Keys(p) ==> v == Undefined
    ensures k in Dict.Keys(p) ==> Dict.Get(p, k) == Some(v)
  {
    match Dict.Get(p, k)
    case Some(x) => x
    case None => Undefined
  }

  /** `String(v)`; also the property key that `o[v]` uses. */
  function ToJsString(v: Value): string
  {
    match v
    case Undefined => "undefined"
    case Null => "null"
    case Bool(b) => if b then "true" else "false"
    case Num(n) => IntToString(n)
    case Str(s) => s
    case Arr(items) =>
      // arrays join their elements with commas, `null` and `undefined` as ""
      Join(seq(|items|, i requires 0 <= i < |items| =>
        if items[i] == Null || items[i] == Undefined then "" else ToJsString(items[i])), ',')
    case Obj(_) => "[object Object]"
  }

  /** The array index a property key denotes: a canonical decimal numeral. */
  function ArrayIndex(key: string): (r: Option<nat>)
    ensures r.Some? ==> NatToString(r.value) == key
  {
    if AllDigits(key) && key != [] && NatToString(DigitsValue(key)) == key
    then Some(DigitsValue(key)) else None
  }

  lemma ArrayIndexOfNatToString(i: nat)
    ensures ArrayIndex(NatToString(i)) == Some(i)
  {
    DigitsValueOfNatToString(i);
  }

  /**
   * `v[key]`: `None` when it throws (reading a property of `undefined` or `null`).
   * Array and string elements are read by index; other built-in properties of
   * primitives and arrays (such as `length`) are not needed and read as `undefined`.
   */
  function Access(v: Value, key: string): (r: Option<Value>)
    ensures r.None? <==> v == Undefined || v == Null
  {
    match v
    case Undefined => None
    case Null => None
    case Obj(p) => Some(Field(p, key))
    case Arr(items) =>
      Some(match ArrayIndex(key)
           case Some(i) => if i < |items| then items[i] else Undefined
           case None => Undefined)
    case Str(s) =>
      Some(match ArrayIndex(key)
           case Some(i) => if i < |s| then Str([s[i]]) else Undefined
           case None => Undefined)
    case _ => Some(Undefined)
  }

  /** Reading index `i` of an array gives its `i`-th element. */
  lemma AccessIndex(items: seq<Value>, i: nat)
    requires i < |items|
    ensures Access(Arr(items), NatToString(i)) == Some(items[i])
  {
    ArrayIndexOfNatToString(i);
  }

  /** `parseInt(v)`: the number `parseInt` reads from `String(v)`; `None` is NaN. */
  function ParseIntValue(v: Value): Option<int>
  {
    ParseInt(ToJsString(v))
  }

  lemma ParseIntValueOfNum(n: int)
    ensures ParseIntValue(Num(n)) == Some(n)
  {
    ParseIntOfIntToString(n);
  }

  /**
   * `v.includes(needle)`: a substring test on strings, an element test on arrays;
   * `None` when it throws because `v` has no `includes` method.
   */
  function IncludesValue(v: Value, needle: string): (r: Option<bool>)
    ensures r.Some? <==> v.Str? || v.Arr?
    ensures v.Str? ==> r == Some(Includes(v.s, needle))
    ensures v.Arr? ==> r == Some(Str(needle) in v.items)
  {
    match v
    case Str(s) => Some(Includes(s, needle))
    case Arr(items) => Some(Str(needle) in items)
    case _ => None
  }

  /** `a.indexOf(x)`: the first position of `x`, or -1. */
  function IndexOfElement<T(==)>(a: seq<T>, x: T): (i: int)
    ensures -1 <= i < |a|
    ensures i == -1 <==> x !in a
    ensures i >= 0 ==> a[i] == x && x !in a[..i]
  {
    if a == [] then -1
    else if a[0] == x then 0
    else
      var j := IndexOfElement(a[1..], x);
      assert a[1..][..if j < 0 then 0 else j] == a[1..(if j < 0 then 1 else j + 1)];
      if j == -1 then -1 else j + 1
  }

  /** `a.splice(start, 1)`: a negative start counts from the end, and one element goes. */
  function SpliceOne<T>(a: seq<T>, start: int): (r: seq<T>)
    ensures 0 <= start < |a| ==> r == a[..start] + a[start + 1..]
    ensures -|a| <= start < 0 ==> r == a[..|a| + start] + a[|a| + start + 1..]
    ensures start >= |a| || a == [] ==> r == a
  {
    var from := if start < 0 then (if |a| + start < 0 then 0 else |a| + start)
                else if start > |a| then |a| else start;
    if from < |a| then a[..from] + a[from + 1..] else a
  }
}
