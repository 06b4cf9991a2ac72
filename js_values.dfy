/**
 * The slice of JavaScript value semantics the application's code leans on:
 * truthiness, optional property access (`v?.key`), chains of `||`, and
 * conversion to a string (`String(v)`, template literals, `.toString()`).
 */
module JsValues {
  import Decimal

  /** A JSON-like JavaScript value. Numbers are integer-valued. */
  datatype JsVal =
    | Undefined
    | Null
    | Bool(b: bool)
    | Num(n: int)
    | Str(s: string)
    | Arr(items: seq<JsVal>)
    | Obj(fields: map<string, JsVal>)

  /** JavaScript truthiness: `undefined`, `null`, `false`, `0` and `""` are falsy. */
  predicate Truthy(v: JsVal) {
    match v
    case Undefined => false
    case Null => false
    case Bool(b) => b
    case Num(n) => n != 0
    case Str(s) => s != ""
    case Arr(_) => true
    case Obj(_) => true
  }

  /** `o.key` on an object with fields `fields`: `undefined` for a missing key. */
  function Property(fields: map<string, JsVal>, key: string): JsVal {
    if key in fields then fields[key] else Undefined
  }

  /** `v?.key`: the property of an object, `undefined` on anything else. */
  function Get(v: JsVal, key: string): JsVal {
    if v.Obj? then Property(v.fields, key) else Undefined
  }

  /** `v?.k1?.k2...`: a chain of optional property accesses. */
  function GetPath(v: JsVal, path: seq<string>): JsVal
    decreases |path|
  {
    if path == [] then v else GetPath(Get(v, path[0]), path[1..])
  }

  /** `a || b`: the left operand when it is truthy, the right one otherwise. */
  function Or(a: JsVal, b: JsVal): JsVal {
    if Truthy(a) then a else b
  }

  /** `vs[0] || vs[1] || ... || vs[n-1]`, grouped to the left as JavaScript parses it. */
  function OrChain(vs: seq<JsVal>): JsVal
    requires |vs| > 0
    decreases |vs|
  {
    if |vs| == 1 then vs[0] else Or(OrChain(vs[..|vs| - 1]), vs[|vs| - 1])
  }

  /** Operand `i` is the first truthy one of `vs`. */
  predicate IsFirstTruthy(vs: seq<JsVal>, i: int) {
    0 <= i < |vs| && Truthy(vs[i]) && forall j :: 0 <= j < i ==> !Truthy(vs[j])
  }

  /** No operand of `vs` is truthy. */
  predicate NoneTruthy(vs: seq<JsVal>) {
    forall j :: 0 <= j < |vs| ==> !Truthy(vs[j])
  }

  /**
   * A `||` chain evaluates to its first truthy operand, and to its last
   * operand when none is truthy.
   */
  lemma {:induction false} OrChainSpec(vs: seq<JsVal>)
    requires |vs| > 0
    ensures forall i :: IsFirstTruthy(vs, i) ==> OrChain(vs) == vs[i]
    ensures NoneTruthy(vs) ==> OrChain(vs) == vs[|vs| - 1]
    ensures Truthy(OrChain(vs)) <==> !NoneTruthy(vs)
  {
    if |vs| > 1 {
      var init := vs[..|vs| - 1];
      OrChainSpec(init);
      forall i | IsFirstTruthy(vs, i) ensures OrChain(vs) == vs[i] {
        if i < |vs| - 1 {
          assert IsFirstTruthy(init, i);
        } else {
          assert NoneTruthy(init);
        }
      }
      if !NoneTruthy(vs) && NoneTruthy(init) {
        assert Truthy(vs[|vs| - 1]);
      }
    }
  }

  /** The strings of `parts` joined with `sep` between them (`Array.prototype.join`). */
  function Join(parts: seq<string>, sep: string): (r: string)
    ensures parts == [] ==> r == ""
    ensures |parts| == 1 ==> r == parts[0]
  {
    if parts == [] then "" else if |parts| == 1 then parts[0] else parts[0] + sep + Join(parts[1..], sep)
  }

  /**
   * `String(v)`. An array prints its elements joined by commas, with
   * `null` and `undefined` elements printed as empty strings; any other
   * object prints as `[object Object]`.
   */
  function ToStr(v: JsVal): (s: string)
    ensures v.Str? ==> s == v.s
    ensures Truthy(v) && !v.Arr? ==> s != ""
    decreases v
  {
    match v
    case Undefined => "undefined"
    case Null => "null"
    case Bool(b) => if b then "true" else "false"
    case Num(n) => Decimal.IntToString(n)
    case Str(s) => s
    case Arr(items) =>
      Join(seq(|items|, i requires 0 <= i < |items| =>
             if items[i].Undefined? || items[i].Null? then "" else ToStr(items[i])), ",")
    case Obj(_) => "[object Object]"
  }
}
