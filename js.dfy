/**
 * The JavaScript value rules the dashboard leans on: truthiness of optional
 * strings and numbers (`a || b`), `filter(Boolean)`, a JSON value as
 * `JSON.parse` yields it, property access `data?.key` and `String(value)`.
 */
module Js {

  import opened Wrappers
  import Text

  /** An optional string is truthy when present and non-empty. */
  predicate Truthy(o: Option<string>) {
    o.Some? && o.value != ""
  }

  /** `a || b` on an optional string. */
  function Or(a: Option<string>, b: string): (r: string)
    ensures Truthy(a) ==> r == a.value
    ensures !Truthy(a) ==> r == b
  {
    if Truthy(a) then a.value else b
  }

  /** An optional string, falsy values turned into `None` (so `a || b || c` chains nest). */
  function OrElse(a: Option<string>, b: Option<string>): (r: Option<string>)
    ensures Truthy(r) <==> Truthy(a) || Truthy(b)
  {
    if Truthy(a) then a else b
  }

  /** An optional number is truthy when present and non-zero. */
  predicate TruthyNum(o: Option<int>) {
    o.Some? && o.value != 0
  }

  /** `a || b` on an optional number. */
  function OrNum(a: Option<int>, b: int): int {
    if TruthyNum(a) then a.value else b
  }

  /** `parts.filter(Boolean)` on optional strings: the present, non-empty ones, in order. */
  function Truthies(parts: seq<Option<string>>): (r: seq<string>)
    ensures |r| <= |parts|
    ensures forall i :: 0 <= i < |r| ==> r[i] != ""
    ensures r == [] <==> forall i :: 0 <= i < |parts| ==> !Truthy(parts[i])
  {
    if parts == [] then []
    else if Truthy(parts[0]) then [parts[0].value] + Truthies(parts[1..])
    else Truthies(parts[1..])
  }

  /** `[a, b].filter(Boolean)`. */
  lemma TruthiesPair(a: Option<string>, b: Option<string>)
    ensures Truthies([a, b]) == (if Truthy(a) then [a.value] else []) + (if Truthy(b) then [b.value] else [])
  {
    assert [a, b][1..] == [b];
    assert [b][1..] == [];
  }

  /** A value as `JSON.parse` produces it. Numbers are integers in this model. */
  datatype Json =
    | JNull
    | JBool(b: bool)
    | JNumber(n: int)
    | JString(s: string)
    | JArray(elems: seq<Json>)
    | JObject(fields: map<string, Json>)

  /** JavaScript truthiness of a JSON value; arrays and objects are always truthy. */
  predicate JsonTruthy(j: Json) {
    match j
    case JNull => false
    case JBool(b) => b
    case JNumber(n) => n != 0
    case JString(s) => s != ""
    case JArray(_) => true
    case JObject(_) => true
  }

  /** `data?.key`: only objects carry the named properties used here. */
  function Field(j: Json, key: string): (r: Option<Json>)
    ensures r.Some? ==> j.JObject? && key in j.fields
  {
    if j.JObject? && key in j.fields then Some(j.fields[key]) else None
  }

  /** `(data?.key)` is truthy. */
  predicate FieldTruthy(j: Json, key: string) {
    Field(j, key).Some? && JsonTruthy(Field(j, key).value)
  }

  /** `String(value)`: how a JSON value reads as text (array elements joined by commas). */
  function ToJsString(j: Json): string
    decreases j
  {
    match j
    case JNull => "null"
    case JBool(b) => if b then "true" else "false"
    case JNumber(n) => Text.IntToDecimal(n)
    case JString(s) => s
    case JArray(es) =>
      Text.Join(seq(|es|, i requires 0 <= i < |es| => if es[i].JNull? then "" else ToJsString(es[i])), ",")
    case JObject(_) => "[object Object]"
  }

  /** Every truthy value other than an array stringifies to a non-empty text. */
  lemma TruthyStringNonEmpty(j: Json)
    requires JsonTruthy(j) && !j.JArray?
    ensures ToJsString(j) != ""
  {
    if j.JNumber? {
      Text.IntToDecimalRoundTrip(j.n);
    }
  }

  /** `xs.find(x => key(x) === want)`: the first element whose key is `want`, if any. */
  function FindByKey<T>(xs: seq<T>, key: T -> string, want: string): (r: Option<T>)
    ensures r.None? <==> forall i :: 0 <= i < |xs| ==> key(xs[i]) != want
    ensures r.Some? ==> r.value in xs && key(r.value) == want
    decreases |xs|
  {
    if xs == [] then None
    else if key(xs[0]) == want then Some(xs[0])
    else FindByKey(xs[1..], key, want)
  }

  /** `find` returns the first element with the key, not merely some element. */
  lemma {:induction false} FindByKeyFirst<T>(xs: seq<T>, key: T -> string, want: string, k: int)
    requires 0 <= k < |xs| && key(xs[k]) == want
    requires forall j :: 0 <= j < k ==> key(xs[j]) != want
    ensures FindByKey(xs, key, want) == Some(xs[k])
    decreases k
  {
    if k > 0 {
      FindByKeyFirst(xs[1..], key, want, k - 1);
    }
  }
}
