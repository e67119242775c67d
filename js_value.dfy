/**
 * The untyped JavaScript values that travel through the error layer as `unknown`
 * (response bodies, thrown non-Error values). Numbers are mathematical integers.
 */
module JsValue {

  datatype Value =
    | Undefined
    | Null
    | Bool(b: bool)
    | Num(n: int)
    | Str(s: string)
    | Arr(items: seq<Value>)
    | Obj(fields: map<string, Value>)

  /** JavaScript truthiness: `undefined`, `null`, `false`, `0` and `""` are falsy, every array and object is truthy. */
  predicate Truthy(v: Value)
  {
    match v
    case Undefined => false
    case Null => false
    case Bool(b) => b
    case Num(n) => n != 0
    case Str(s) => s != ""
    case Arr(_) => true
    case Obj(_) => true
  }

  /** The `a || b` operator: the left operand when it is truthy, otherwise the right one. */
  function Or(a: Value, b: Value): (r: Value)
    ensures Truthy(a) ==> r == a
    ensures !Truthy(a) ==> r == b
    ensures Truthy(r) <==> Truthy(a) || Truthy(b)
  {
    if Truthy(a) then a else b
  }

  /**
   * Optional-chaining property read `v?.key`: `undefined` for `undefined`/`null`,
   * an object's own field when present, and `undefined` otherwise (primitives and
   * arrays carry no data fields of their own).
   */
  function Get(v: Value, key: string): (r: Value)
    ensures v.Obj? && key in v.fields ==> r == v.fields[key]
    ensures !(v.Obj? && key in v.fields) ==> r == Undefined
  {
    match v
    case Obj(fields) => if key in fields then fields[key] else Undefined
    case _ => Undefined
  }

  function Digit(d: nat): (c: char)
    requires d < 10
    ensures '0' <= c <= '9'
  {
    "0123456789"[d]
  }

  /** Decimal digits of a natural number, most significant first. */
  function NatText(n: nat): (s: string)
    ensures |s| >= 1
    ensures forall i :: 0 <= i < |s| ==> '0' <= s[i] <= '9'
    decreases n
  {
    if n < 10 then [Digit(n)] else NatText(n / 10) + [Digit(n % 10)]
  }

  /** `String(n)` for an integral number. */
  function IntText(n: int): (s: string)
    ensures s != ""
  {
    if n < 0 then "-" + NatText(-n) else NatText(n)
  }

  /** `parts.join(sep)`. */
  function Join(parts: seq<string>, sep: string): (r: string)
    ensures parts == [] ==> r == ""
    ensures |parts| == 1 ==> r == parts[0]
    decreases |parts|
  {
    if parts == [] then ""
    else if |parts| == 1 then parts[0]
    else parts[0] + sep + Join(parts[1..], sep)
  }

  /**
   * `String(v)`, the conversion the `Error` constructor applies to any message other
   * than `undefined` (for which it keeps the message "").
   * An array is its elements joined by commas, `null` and `undefined` elements
   * giving ""; a plain object is "[object Object]".
   */
  function Text(v: Value): (s: string)
    decreases v
  {
    match v
    case Undefined => "undefined"
    case Null => "null"
    case Bool(b) => if b then "true" else "false"
    case Num(n) => IntText(n)
    case Str(s) => s
    case Arr(items) =>
      Join(seq(|items|, i requires 0 <= i < |items| =>
             if items[i].Undefined? || items[i].Null? then "" else Text(items[i])), ",")
    case Obj(_) => "[object Object]"
  }

  /** The falsy values are exactly `undefined`, `null`, `false`, `0` and `""`. */
  lemma FalsyValues(v: Value)
    ensures !Truthy(v) <==> v in {Undefined, Null, Bool(false), Num(0), Str("")}
  {
  }

  /** `String()` on a number, an array (null elements giving "") and a plain object. */
  lemma TextExamples()
    ensures Text(Num(42)) == "42"
    ensures Text(Num(-7)) == "-7"
    ensures Text(Arr([Str("a"), Str("b")])) == "a,b"
    ensures Text(Arr([Null, Num(1)])) == ",1"
    ensures Text(Obj(map[])) == "[object Object]"
  {
    assert NatText(42) == NatText(4) + [Digit(2)];
    var ab := [Str("a"), Str("b")];
    assert seq(|ab|, i requires 0 <= i < |ab| =>
             if ab[i].Undefined? || ab[i].Null? then "" else Text(ab[i])) == ["a", "b"];
    var n1 := [Null, Num(1)];
    assert seq(|n1|, i requires 0 <= i < |n1| =>
             if n1[i].Undefined? || n1[i].Null? then "" else Text(n1[i])) == ["", "1"];
  }

  /** Every truthy value other than an array converts to a non-empty string. */
  lemma TruthyTextNonEmpty(v: Value)
    requires Truthy(v) && !v.Arr?
    ensures Text(v) != ""
  {
  }

  /** An empty array is truthy yet converts to the empty string. */
  lemma EmptyArrayTruthyButBlank()
    ensures Truthy(Arr([])) && Text(Arr([])) == ""
  {
  }
}
