/**
 Parsed JSON values and the few JavaScript semantics the pipeline applies to
 them: truthiness (`||`, `filter(Boolean)`), `Array.isArray`, property reads
 and the `String(...)` conversion performed by `Array.prototype.join` and
 template literals.
 */
module JsonValues {
  import opened Wrappers
  import opened Text

  /** A value `JSON.parse` can produce. Numbers are integers in this model. */
  datatype Json =
    | JNull
    | JBool(b: bool)
    | JNumber(n: int)
    | JString(s: string)
    | JArray(items: seq<Json>)
    | JObject(fields: map<string, Json>)

  /** JavaScript truthiness of a possibly-`undefined` (`None`) value. */
  predicate Truthy(v: Option<Json>) {
    match v
    case None => false
    case Some(j) =>
      match j
      case JNull => false
      case JBool(b) => b
      case JNumber(n) => n != 0
      case JString(s) => s != ""
      case JArray(_) => true
      case JObject(_) => true
  }

  /** `v || fallback`. */
  function OrElse(v: Option<Json>, fallback: Json): (r: Json)
    ensures Truthy(v) ==> r == v.value
    ensures !Truthy(v) ==> r == fallback
  {
    if Truthy(v) then v.value else fallback
  }

  /** `xs.filter(Boolean)`: the truthy elements, in order. */
  function Truthies(xs: seq<Json>): (r: seq<Json>)
    ensures |r| <= |xs|
    ensures forall i :: 0 <= i < |r| ==> Truthy(Some(r[i]))
    ensures forall x :: x in r <==> x in xs && Truthy(Some(x))
  {
    if |xs| == 0 then []
    else if Truthy(Some(xs[0])) then [xs[0]] + Truthies(xs[1..])
    else Truthies(xs[1..])
  }

  /** `filter(Boolean)` keeps order and duplicates: it distributes over
      concatenation. */
  lemma {:induction false} TruthiesAppend(a: seq<Json>, b: seq<Json>)
    ensures Truthies(a + b) == Truthies(a) + Truthies(b)
  {
    if |a| == 0 {
      assert a + b == b;
    } else {
      var ab := a + b;
      assert ab[0] == a[0];
      assert ab[1..] == a[1..] + b;
      TruthiesAppend(a[1..], b);
      if Truthy(Some(a[0])) {
        calc {
          Truthies(ab);
          [a[0]] + Truthies(a[1..] + b);
          [a[0]] + (Truthies(a[1..]) + Truthies(b));
          ([a[0]] + Truthies(a[1..])) + Truthies(b);
        }
      }
    }
  }

  /** A single element is kept exactly when it is truthy. */
  lemma TruthiesSingle(x: Json)
    ensures Truthies([x]) == if Truthy(Some(x)) then [x] else []
  {
    assert [x][1..] == [];
  }

  /** `v.key` for a non-null value `v`; reading a property of `null` throws a
      `TypeError`. Only objects have own properties with JSON key names (the
      built-in properties of arrays and strings are not modelled). */
  function Get(v: Json, key: string): (r: Result<Option<Json>, string>)
    ensures r.Err? <==> v.JNull?
    ensures v.JObject? ==> r == Ok(if key in v.fields then Some(v.fields[key]) else None)
    ensures !v.JObject? ==> r.Err? || r == Ok(None)
  {
    match v
    case JNull => Err("Cannot read properties of null (reading '" + key + "')")
    case JObject(m) => Ok(if key in m then Some(m[key]) else None)
    case _ => Ok(None)
  }

  /** `v[0]`: the first element of an array, the first character of a string,
      the property `"0"` of an object; `undefined` when there is none. */
  function First(v: Json): (r: Result<Option<Json>, string>)
    ensures r.Err? <==> v.JNull?
    ensures v.JArray? ==> r == Ok(if |v.items| > 0 then Some(v.items[0]) else None)
  {
    match v
    case JNull => Err("Cannot read properties of null (reading '0')")
    case JArray(items) => Ok(if |items| > 0 then Some(items[0]) else None)
    case JString(s) => Ok(if |s| > 0 then Some(JString(s[..1])) else None)
    case JObject(m) => Ok(if "0" in m then Some(m["0"]) else None)
    case _ => Ok(None)
  }

  /** `v.key` where `v` may be `undefined` (`None`), which throws a `TypeError`. */
  function Read(v: Option<Json>, key: string): (r: Result<Option<Json>, string>)
    ensures v.None? ==> r.Err?
    ensures v.Some? ==> r == Get(v.value, key)
  {
    match v
    case None => Err("Cannot read properties of undefined (reading '" + key + "')")
    case Some(j) => Get(j, key)
  }

  /** `String(v)` for a value inside an array being joined: `null` becomes the
      empty string, as `Array.prototype.join` does. */
  function ElementString(j: Json): string
    decreases j, 1
  {
    if j.JNull? then "" else ToJsString(j)
  }

  /** `String(v)`: the string a template literal or `join` produces. */
  function ToJsString(j: Json): string
    decreases j, 0
  {
    match j
    case JNull => "null"
    case JBool(b) => if b then "true" else "false"
    case JNumber(n) => IntToString(n)
    case JString(s) => s
    case JArray(items) => JoinElements(items)
    case JObject(_) => "[object Object]"
  }

  /** `items.join(",")`, the string form of an array. */
  function JoinElements(items: seq<Json>): string
    decreases items
  {
    if |items| == 0 then ""
    else if |items| == 1 then ElementString(items[0])
    else ElementString(items[0]) + "," + JoinElements(items[1..])
  }
}
