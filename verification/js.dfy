/**
 * JavaScript values as the plugin handlers see them: option objects, the
 * falsiness rule behind `x || d`, the `x !== undefined ? x : d` rule, string
 * case conversion, `String.prototype.includes` and `Math.round`.
 *
 * Numbers are exact reals; `NaN` is its own value. Infinities, negative zero
 * and rounding error of IEEE doubles are not modelled.
 */
module Js {
  import opened Wrappers

  datatype Value =
    | Undefined
    | Null
    | Bool(b: bool)
    | Num(n: real)
    | NaN
    | Str(s: string)
    | Arr(items: seq<Value>)
    | Obj(fields: map<string, Value>)

  /** The `options` object a handler receives. */
  type Options = map<string, Value>

  /** `options.k`: a missing key reads as `undefined`. */
  function Get(o: Options, k: string): Value {
    if k in o then o[k] else Undefined
  }

  /**
   * `v.k` for a nested option such as `stop.color.red`. Reading a key of a
   * value that is not an object yields `undefined` here (JavaScript would
   * raise a TypeError for `undefined` and `null`).
   */
  function Member(v: Value, k: string): Value {
    if v.Obj? && k in v.fields then v.fields[k] else Undefined
  }

  /** JavaScript truthiness: false, 0, NaN, "", null and undefined are falsy. */
  predicate Truthy(v: Value) {
    match v
    case Undefined => false
    case Null => false
    case NaN => false
    case Bool(b) => b
    case Num(n) => n != 0.0
    case Str(s) => s != ""
    case Arr(_) => true
    case Obj(_) => true
  }

  /** `v || d` */
  function Or(v: Value, d: Value): Value {
    if Truthy(v) then v else d
  }

  /** `v !== undefined ? v : d` */
  function Defined(v: Value, d: Value): Value {
    if v != Undefined then v else d
  }

  /** `v !== false` */
  function NotFalse(v: Value): bool {
    v != Bool(false)
  }

  /** `v ? a : b` */
  function If<T>(v: Value, a: T, b: T): T {
    if Truthy(v) then a else b
  }

  /** The two defaulting rules part ways exactly on values that are defined but falsy. */
  lemma OrAgreesWithDefined(v: Value, d: Value)
    requires v != d
    ensures Or(v, d) == Defined(v, d) <==> Truthy(v) || v == Undefined
  {
  }

  /** A list option read with `v || []` and then iterated. */
  function AsList(v: Value): seq<Value> {
    if v.Arr? then v.items else []
  }

  /** `Number(v)` for the values the handlers do arithmetic on. */
  function ToNumber(v: Value): (r: Value)
    ensures r.Num? || r.NaN?
  {
    match v
    case Num(_) => v
    case Null => Num(0.0)
    case Bool(b) => Num(if b then 1.0 else 0.0)
    case Str(s) => if s == "" then Num(0.0) else NaN
    case _ => NaN
  }

  /**
   * `String(v)`, as far as comparing it with a name matters: strings,
   * booleans, `null`, `undefined`, `NaN`, objects and arrays (an empty
   * array, or one holding only `null` or `undefined`, gives ""). `None`
   * stands for a text that holds a digit or a comma (any finite number, an
   * array of two or more items), which no name compared here does.
   */
  function Text(v: Value): Option<string> {
    match v
    case Undefined => Some("undefined")
    case Null => Some("null")
    case Bool(b) => Some(if b then "true" else "false")
    case Num(_) => None
    case NaN => Some("NaN")
    case Str(s) => Some(s)
    case Obj(_) => Some("[object Object]")
    case Arr(items) =>
      if |items| == 0 then Some("")
      else if |items| > 1 then None
      else if items[0].Null? || items[0].Undefined? then Some("")
      else Text(items[0])
  }

  /**
   * The loose comparison `v == name` for a name that is a word: a string
   * compares by value, an array or object by its text; a number, boolean,
   * `null` or `undefined` converts to something no word equals.
   */
  predicate EqualsName(v: Value, name: string) {
    match v
    case Str(s) => s == name
    case Arr(_) => Text(v) == Some(name)
    case Obj(_) => Text(v) == Some(name)
    case _ => false
  }

  /** A one-item array compares as its item does: `["INSIDE"] == "INSIDE"`. */
  lemma {:induction false} WrappedNameEquals(v: Value, name: string, depth: nat)
    requires v.Str? && v.s == name
    ensures EqualsName(Wrapped(v, depth), name)
  {
    if depth > 0 {
      WrappedTextKept(v, depth);
    }
  }

  /** `v` inside `depth` one-item arrays. */
  function Wrapped(v: Value, depth: nat): Value {
    if depth == 0 then v else Arr([Wrapped(v, depth - 1)])
  }

  lemma {:induction false} WrappedTextKept(v: Value, depth: nat)
    requires v.Str?
    ensures Text(Wrapped(v, depth)) == Some(v.s)
  {
    if depth > 0 {
      WrappedTextKept(v, depth - 1);
    }
  }

  // ---------------------------------------------------------------------
  // Strings

  /** ASCII letters only; other characters are kept. */
  function LowerChar(c: char): char {
    if 'A' <= c <= 'Z' then (c as int + 32) as char else c
  }

  function UpperChar(c: char): char {
    if 'a' <= c <= 'z' then (c as int - 32) as char else c
  }

  /** `s.toLowerCase()` */
  function Lower(s: string): (r: string)
    ensures |r| == |s|
    ensures forall i :: 0 <= i < |s| ==> r[i] == LowerChar(s[i])
  {
    if s == [] then [] else [LowerChar(s[0])] + Lower(s[1..])
  }

  /** `s.toUpperCase()` */
  function Upper(s: string): (r: string)
    ensures |r| == |s|
    ensures forall i :: 0 <= i < |s| ==> r[i] == UpperChar(s[i])
  {
    if s == [] then [] else [UpperChar(s[0])] + Upper(s[1..])
  }

  /** The noise distribution names upper-cased, spelled out letter by letter for the verifier. */
  lemma UpperUniform()
    ensures Upper("uniform") == "UNIFORM" && Upper("Uniform") == "UNIFORM"
  {
    assert Upper("form") == "FORM";
  }

  /** `"gaussian".toUpperCase()` */
  lemma UpperGaussian()
    ensures Upper("gaussian") == "GAUSSIAN"
  {
    assert Upper("sian") == "SIAN";
  }

  const TypeError := "TypeError"

  /** `v.toLowerCase()`: only strings have the method. */
  function ToLower(v: Value): Result<string, string> {
    if v.Str? then Ok(Lower(v.s)) else Err(TypeError)
  }

  /** `v.toUpperCase()` */
  function ToUpper(v: Value): Result<string, string> {
    if v.Str? then Ok(Upper(v.s)) else Err(TypeError)
  }

  /** Lower-casing forgets the case of every letter. */
  lemma {:induction false} LowerOfUpper(s: string)
    ensures Lower(Upper(s)) == Lower(s)
  {
    if s != [] {
      LowerOfUpper(s[1..]);
    }
  }

  /** `t` occurs in `s` starting at offset `i`. */
  predicate OccursAt(s: string, t: string, i: int) {
    0 <= i <= |s| - |t| && s[i..i + |t|] == t
  }

  /** `s.includes(t)`: `t` occurs in `s` at some offset. */
  predicate Contains(s: string, t: string) {
    exists i | 0 <= i <= |s| - |t| :: OccursAt(s, t, i)
  }

  /** A witnessed offset shows the occurrence. */
  lemma ContainsAt(s: string, t: string, i: int)
    requires OccursAt(s, t, i)
    ensures Contains(s, t)
  {
  }

  /** A character of `t` missing from `s` rules every offset out. */
  lemma {:induction false} AbsentCharNotContained(s: string, t: string, j: nat)
    requires j < |t| && t[j] !in s
    ensures !Contains(s, t)
  {
    forall i
      ensures !OccursAt(s, t, i)
    {
      if 0 <= i <= |s| - |t| {
        assert s[i + j] in s;
        assert s[i..i + |t|][j] == s[i + j];
      }
    }
  }

  /**
   * `v.includes(t)` on a string or an array; any other receiver has no
   * `includes` method and raises.
   */
  function Includes(v: Value, t: string): Result<bool, string> {
    match v
    case Str(s) => Ok(Contains(s, t))
    case Arr(items) => Ok(Str(t) in items)
    case _ => Err(TypeError)
  }

  // ---------------------------------------------------------------------
  // Numbers

  /** `Math.round`: the nearest integer, halves rounded up. */
  function Round(x: real): (r: int)
    ensures x - 0.5 < r as real <= x + 0.5
  {
    (x + 0.5).Floor
  }

  /** Rounding never reverses an order. */
  lemma RoundMonotone(x: real, y: real)
    requires x <= y
    ensures Round(x) <= Round(y)
  {
  }

  /**
   * A gradient stop location given in percent, scaled to Photoshop's
   * 0..4096 range: `Math.round(loc / 100 * 4096)`.
   */
  function ScaleLocation(loc: Value): (r: Value)
    ensures r.Num? <==> ToNumber(loc).Num?
    ensures r.Num? ==> r.n == Round(ToNumber(loc).n * 4096.0 / 100.0) as real
  {
    match ToNumber(loc)
    case Num(x) => Num(Round(x * 4096.0 / 100.0) as real)
    case _ => NaN
  }

  /** 0 % lands on 0 and 100 % on 4096. */
  lemma ScaleLocationEnds()
    ensures ScaleLocation(Num(0.0)) == Num(0.0)
    ensures ScaleLocation(Num(100.0)) == Num(4096.0)
  {
  }

  /** The scaling keeps the order of locations and maps 0..100 into 0..4096. */
  lemma ScaleLocationMonotone(x: real, y: real)
    requires 0.0 <= x <= y <= 100.0
    ensures ScaleLocation(Num(x)).Num? && ScaleLocation(Num(y)).Num?
    ensures 0.0 <= ScaleLocation(Num(x)).n <= ScaleLocation(Num(y)).n <= 4096.0
  {
    RoundMonotone(0.0, x * 4096.0 / 100.0);
    RoundMonotone(x * 4096.0 / 100.0, y * 4096.0 / 100.0);
    RoundMonotone(y * 4096.0 / 100.0, 4096.0);
  }
}
