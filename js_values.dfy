/**
 * The slice of JavaScript's value semantics that the services and route
 * handlers depend on: the values a JSON request body or a search document
 * can hold, `String(value)` coercion, truthiness (`if (x)`), strict
 * equality (`===`, also used by `switch`), and plain objects as ordered
 * property lists (`obj[k] = v`, `delete obj[k]`, `obj.k`).
 */
module JsValues {

  /** The text `String(n)` gives for a number: never empty, and made only of
      digits, sign, point, exponent and the letters of `Infinity`/`NaN`.
      Only the canonical texts `String()` produces are meant ("0", never
      "-0" or "0.0"); `Truthy` and `StrictEquals` rely on that. */
  predicate IsNumeral(s: string)
  {
    |s| > 0 && forall i :: 0 <= i < |s| ==> s[i] in "0123456789.+-eInfinityNaN"
  }

  type Numeral = s: string | IsNumeral(s) witness "0"

  /** A JavaScript value. A number is carried as its `String()` text, so no
      floating-point arithmetic is needed; an object keeps its own
      enumerable properties in enumeration order. */
  datatype JsValue =
    | Undefined
    | Null
    | Bool(b: bool)
    | Num(text: Numeral)
    | Str(s: string)
    | Arr(items: seq<JsValue>)
    | Obj(props: seq<Prop>)

  datatype Prop = Prop(key: string, value: JsValue)

  /** How a call ends: with a value, or by throwing (an exception or a
      rejected promise) with a message. */
  datatype Completion<T> = Normal(value: T) | Throw(message: string)

  /** An optional value; `None` stands for an omitted argument or a failed
      parse. */
  datatype Option<T> = None | Some(value: T)

  /** `String(v)`. Arrays join their elements with "," and render `null` and
      `undefined` elements as the empty string; a plain object renders as
      "[object Object]": every object is taken to have the default
      `toString`, so this coercion never throws. */
  function ToJsString(v: JsValue): string
    decreases v
  {
    match v
    case Undefined => "undefined"
    case Null => "null"
    case Bool(b) => if b then "true" else "false"
    case Num(t) => t
    case Str(s) => s
    case Arr(items) => ArrayJoin(items)
    case Obj(_) => "[object Object]"
  }

  function ArrayJoin(items: seq<JsValue>): string
    decreases items
  {
    if items == [] then ""
    else
      var head := if items[0].Undefined? || items[0].Null? then "" else ToJsString(items[0]);
      if |items| == 1 then head else head + "," + ArrayJoin(items[1..])
  }

  /** `if (v)`: the falsy values are undefined, null, false, 0, NaN and "". */
  predicate Truthy(v: JsValue)
  {
    match v
    case Undefined => false
    case Null => false
    case Bool(b) => b
    case Num(t) => t != "0" && t != "NaN"
    case Str(s) => s != ""
    case Arr(_) => true
    case Obj(_) => true
  }

  /** `a === b`. Arrays and objects compare by reference; the values compared
      here always come from separately decoded documents, so two of them are
      never the same reference. */
  predicate StrictEquals(a: JsValue, b: JsValue)
  {
    match (a, b)
    case (Undefined, Undefined) => true
    case (Null, Null) => true
    case (Bool(x), Bool(y)) => x == y
    case (Num(x), Num(y)) => x == y && x != "NaN"
    case (Str(x), Str(y)) => x == y
    case _ => false
  }

  /** The decimal text of a natural number, as `String(n)` writes an array
      index. */
  function NatToString(n: nat): (s: string)
    ensures |s| > 0 && forall i :: 0 <= i < |s| ==> '0' <= s[i] <= '9'
    ensures |s| == 1 <==> n < 10
  {
    if n < 10 then [Digit(n)] else NatToString(n / 10) + [Digit(n % 10)]
  }

  function Digit(d: nat): (c: char)
    requires d < 10
    ensures '0' <= c <= '9' && c as int - '0' as int == d
  {
    (d + '0' as int) as char
  }

  /** Distinct indices have distinct names. */
  lemma {:induction false} NatToStringInjective(a: nat, b: nat)
    requires NatToString(a) == NatToString(b)
    ensures a == b
  {
    var s := NatToString(a);
    if a >= 10 {
      assert b >= 10;
      assert s[|s| - 1] == Digit(a % 10) == Digit(b % 10);
      assert s[..|s| - 1] == NatToString(a / 10) == NatToString(b / 10);
      NatToStringInjective(a / 10, b / 10);
    } else {
      assert s[0] == Digit(a) == Digit(b);
    }
  }

  /** Number of occurrences of `c` in `s`. */
  function Occurrences(s: string, c: char): nat
  {
    if s == [] then 0 else (if s[0] == c then 1 else 0) + Occurrences(s[1..], c)
  }

  lemma {:induction false} OccurrencesAppend(a: string, b: string, c: char)
    ensures Occurrences(a + b, c) == Occurrences(a, c) + Occurrences(b, c)
  {
    if a != [] {
      assert (a + b)[0] == a[0] && (a + b)[1..] == a[1..] + b;
      OccurrencesAppend(a[1..], b, c);
    } else {
      assert a + b == b;
    }
  }

  lemma {:induction false} OccurrencesAbsent(s: string, c: char)
    requires c !in s
    ensures Occurrences(s, c) == 0
  {
    if s != [] {
      OccurrencesAbsent(s[1..], c);
    }
  }

  /** The property names of an object, in enumeration order. */
  function Keys(props: seq<Prop>): (ks: seq<string>)
    ensures |ks| == |props|
    ensures forall i :: 0 <= i < |props| ==> ks[i] == props[i].key
  {
    if props == [] then [] else [props[0].key] + Keys(props[1..])
  }

  predicate DistinctKeys(props: seq<Prop>)
  {
    forall i, j :: 0 <= i < j < |props| ==> props[i].key != props[j].key
  }

  /** `obj[k]`: undefined when the property is missing. */
  function Get(props: seq<Prop>, k: string): JsValue
  {
    if props == [] then Undefined
    else if props[0].key == k then props[0].value
    else Get(props[1..], k)
  }

  /** `obj[k] = v`: an existing property keeps its place, a new one is
      appended. */
  function Put(props: seq<Prop>, k: string, v: JsValue): seq<Prop>
  {
    if props == [] then [Prop(k, v)]
    else if props[0].key == k then [Prop(k, v)] + props[1..]
    else [props[0]] + Put(props[1..], k, v)
  }

  /** `delete obj[k]`. */
  function Remove(props: seq<Prop>, k: string): seq<Prop>
  {
    if props == [] then []
    else if props[0].key == k then Remove(props[1..], k)
    else [props[0]] + Remove(props[1..], k)
  }

  lemma {:induction false} GetPut(props: seq<Prop>, k: string, v: JsValue, j: string)
    ensures Get(Put(props, k, v), j) == if j == k then v else Get(props, j)
  {
    if props != [] && props[0].key != k {
      GetPut(props[1..], k, v, j);
    }
  }

  lemma {:induction false} KeysPut(props: seq<Prop>, k: string, v: JsValue)
    ensures Keys(Put(props, k, v)) == if k in Keys(props) then Keys(props) else Keys(props) + [k]
  {
    if props != [] && props[0].key != k {
      KeysPut(props[1..], k, v);
      assert Keys(props) == [props[0].key] + Keys(props[1..]);
    }
  }

  lemma {:induction false} DistinctPut(props: seq<Prop>, k: string, v: JsValue)
    requires DistinctKeys(props)
    ensures DistinctKeys(Put(props, k, v))
  {
    KeysPut(props, k, v);
    var r := Put(props, k, v);
    var ks := Keys(props);
    forall i, j | 0 <= i < j < |r| ensures r[i].key != r[j].key {
      assert Keys(r)[i] == r[i].key && Keys(r)[j] == r[j].key;
      if k !in ks && j == |props| {
        assert ks[i] == props[i].key;
      } else {
        assert props[i].key == ks[i] && props[j].key == ks[j];
      }
    }
  }

  lemma {:induction false} GetRemove(props: seq<Prop>, k: string, j: string)
    ensures Get(Remove(props, k), j) == if j == k then Undefined else Get(props, j)
  {
    if props != [] {
      GetRemove(props[1..], k, j);
    }
  }

  lemma {:induction false} KeysRemove(props: seq<Prop>, k: string)
    ensures k !in Keys(Remove(props, k))
    ensures forall j :: j in Keys(Remove(props, k)) <==> j in Keys(props) && j != k
    ensures DistinctKeys(props) ==> DistinctKeys(Remove(props, k))
  {
    if props != [] {
      KeysRemove(props[1..], k);
      assert Keys(props) == [props[0].key] + Keys(props[1..]);
      var rest := Remove(props[1..], k);
      if props[0].key != k && DistinctKeys(props) {
        assert props[0].key !in Keys(props[1..]) by {
          forall i | 0 <= i < |props[1..]| ensures props[1..][i].key != props[0].key {
            assert props[1 + i] == props[1..][i];
          }
        }
        assert DistinctKeys(props[1..]) by {
          forall i, j | 0 <= i < j < |props[1..]| ensures props[1..][i].key != props[1..][j].key {
            assert props[1..][i] == props[1 + i] && props[1..][j] == props[1 + j];
          }
        }
        var r := [props[0]] + rest;
        forall i, j | 0 <= i < j < |r| ensures r[i].key != r[j].key {
          if i == 0 {
            assert r[j] == rest[j - 1];
            assert Keys(rest)[j - 1] == rest[j - 1].key;
          } else {
            assert r[i] == rest[i - 1] && r[j] == rest[j - 1];
          }
        }
      } else if DistinctKeys(props) {
        assert DistinctKeys(props[1..]) by {
          forall i, j | 0 <= i < j < |props[1..]| ensures props[1..][i].key != props[1..][j].key {
            assert props[1..][i] == props[1 + i] && props[1..][j] == props[1 + j];
          }
        }
      }
    }
  }

  /** In an object with distinct keys, the property named `k` holds `Get`. */
  lemma {:induction false} GetAt(props: seq<Prop>, i: nat)
    requires DistinctKeys(props) && i < |props|
    ensures Get(props, props[i].key) == props[i].value
  {
    if i > 0 {
      assert DistinctKeys(props[1..]) by {
        forall a, b | 0 <= a < b < |props[1..]| ensures props[1..][a].key != props[1..][b].key {
          assert props[1..][a] == props[1 + a] && props[1..][b] == props[1 + b];
        }
      }
      assert props[1..][i - 1] == props[i];
      GetAt(props[1..], i - 1);
    }
  }

  /** The six falsy values of JavaScript, and nothing else. */
  lemma FalsyValues(v: JsValue)
    ensures !Truthy(v) <==> v in {Undefined, Null, Bool(false), Num("0"), Num("NaN"), Str("")}
  {
  }

  /** `===` on the values modelled here: identity of primitives, except that
      NaN equals nothing; arrays and objects never compare equal. */
  lemma StrictEqualsIdentity(a: JsValue, b: JsValue)
    ensures StrictEquals(a, b) <==> a == b && !a.Arr? && !a.Obj? && a != Num("NaN")
  {
  }

  /** `v.k`: reading a property of `undefined` or `null` throws a TypeError;
      the keys read here are no properties of primitives or arrays. */
  function Field(v: JsValue, k: string): (r: Completion<JsValue>)
    ensures r.Throw? <==> v.Undefined? || v.Null?
    ensures v.Obj? ==> r == Normal(Get(v.props, k))
  {
    if v.Undefined? || v.Null? then Throw("Cannot read properties of " + ToJsString(v) + " (reading '" + k + "')")
    else if v.Obj? then Normal(Get(v.props, k))
    else Normal(Undefined)
  }
}
