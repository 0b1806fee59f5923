/**
 The few JavaScript runtime notions the suggestion pipeline relies on: the values
 `JSON.parse` produces, truthiness, property reads, the string a template literal
 makes of a value, and calls that either return or throw.
 */
module Js {

  datatype Option<+T> = None | Some(value: T)

  /** A value as `JSON.parse` builds it, or as the code builds one for a JSON response.
      Numbers are finite (JSON text has no NaN) and are kept exact as reals. */
  datatype Json =
    | JNull
    | JBool(b: bool)
    | JNumber(n: real)
    | JString(s: string)
    | JArray(items: seq<Json>)
    | JObject(fields: map<string, Json>)

  /** An exception: either an `Error` instance, which carries a message, or any
      other thrown value, given by what `String(value)` makes of it. */
  datatype Thrown = ErrorObject(message: string) | OtherValue(shown: string)

  /** The outcome of a call that may throw (`await` included). */
  datatype Attempt<+T> = Returned(value: T) | Threw(thrown: Thrown)

  /** Built-ins of the runtime whose algorithms are not part of this model. */
  datatype Host = Host(
    parse: string -> Option<Json>,  // JSON.parse; None when it throws a SyntaxError
    showNumber: real -> string      // Number.prototype.toString; `Decimal` below is its whole-number case
  )

  /** JSON.parse rejects the empty text: a JSON text must contain a value. */
  ghost predicate RejectsEmptyText(host: Host) {
    host.parse("").None?
  }

  /** `value.key`. None stands for `undefined`. None of the keys this code reads
      (`category`, `latitude`, ...) is an own property of an array or a string or
      an inherited property of an object, so only objects yield a value. */
  function Prop(v: Json, key: string): Option<Json> {
    if v.JObject? && key in v.fields then Some(v.fields[key]) else None
  }

  /** JavaScript truthiness of a value read by `Prop`: `undefined`, `null`,
      `false`, `0` and `""` are falsy, every array and object is truthy. */
  predicate Truthy(v: Option<Json>) {
    match v
    case None => false
    case Some(JNull) => false
    case Some(JBool(b)) => b
    case Some(JNumber(n)) => n != 0.0
    case Some(JString(s)) => s != ""
    case Some(JArray(_)) => true
    case Some(JObject(_)) => true
  }

  /** `typeof v === 'number'`. */
  predicate IsNumber(v: Option<Json>) {
    v.Some? && v.value.JNumber?
  }

  /** `typeof v === 'string'`. */
  predicate IsString(v: Option<Json>) {
    v.Some? && v.value.JString?
  }

  /** `Array.isArray(v)`. */
  predicate IsArray(v: Option<Json>) {
    v.Some? && v.value.JArray?
  }

  /** `typeof v === 'object'` (true of `null` as well). */
  predicate IsObjectTyped(v: Json) {
    v.JNull? || v.JArray? || v.JObject?
  }

  /** `Array.prototype.join`. */
  function Join(parts: seq<string>, sep: string): string {
    if |parts| == 0 then ""
    else if |parts| == 1 then parts[0]
    else parts[0] + sep + Join(parts[1..], sep)
  }

  /** Every part occurs in the joined string; `at` is where part `k` starts. */
  lemma {:induction false} JoinContains(parts: seq<string>, sep: string, k: nat) returns (at: nat)
    requires k < |parts|
    ensures at + |parts[k]| <= |Join(parts, sep)|
    ensures Join(parts, sep)[at..at + |parts[k]|] == parts[k]
    decreases |parts|
  {
    var joined := Join(parts, sep);
    if |parts| == 1 {
      at := 0;
    } else if k == 0 {
      at := 0;
      assert joined == parts[0] + sep + Join(parts[1..], sep);
      assert joined[..|parts[0]|] == parts[0];
    } else {
      var rest := Join(parts[1..], sep);
      var inner := JoinContains(parts[1..], sep, k - 1);
      at := |parts[0]| + |sep| + inner;
      assert joined == (parts[0] + sep) + rest;
      assert joined[at..at + |parts[k]|] == rest[inner..inner + |parts[k]|];
    }
  }

  /** A slice of the second half of a concatenation. */
  lemma SliceOfSecond(p: string, q: string, i: nat, n: nat)
    requires i + n <= |q|
    ensures |p| + i + n <= |p + q|
    ensures (p + q)[|p| + i..|p| + i + n] == q[i..i + n]
  {
  }

  /** Whether `String(v)` throws a TypeError. A parsed object with an own
      `toString` key holds a value that is not callable there, and the
      inherited `valueOf` returns the object itself, so no primitive is found;
      an array throws when one of its elements does. */
  predicate ShowThrows(v: Json) {
    match v
    case JObject(fields) => "toString" in fields
    case JArray(items) => exists i :: 0 <= i < |items| && ShowThrows(items[i])
    case _ => false
  }

  /** The strings of a list of outcomes, when none of them failed. */
  function Collect(xs: seq<Option<string>>): (r: Option<seq<string>>)
    ensures r.None? <==> exists i :: 0 <= i < |xs| && xs[i].None?
    ensures r.Some? ==> |r.value| == |xs| && forall i :: 0 <= i < |xs| ==> xs[i] == Some(r.value[i])
  {
    if |xs| == 0 then Some([])
    else match (xs[0], Collect(xs[1..]))
      case (Some(head), Some(tail)) => Some([head] + tail)
      case _ => None
  }

  /** What a template literal `${v}` makes of a value: `String(v)`, or `None`
      when that throws. An array is joined with "," and its `null` elements
      become empty. */
  function Show(host: Host, v: Json): (r: Option<string>)
    ensures r.None? <==> ShowThrows(v)
    ensures v.JString? ==> r == Some(v.s)
  {
    match v
    case JNull => Some("null")
    case JBool(b) => Some(if b then "true" else "false")
    case JNumber(n) => Some(host.showNumber(n))
    case JString(s) => Some(s)
    case JArray(items) =>
      var parts := seq(|items|, i requires 0 <= i < |items| => if items[i].JNull? then Some("") else Show(host, items[i]));
      assert forall i :: 0 <= i < |items| ==> (parts[i].None? <==> ShowThrows(items[i]));
      (match Collect(parts)
       case None => None
       case Some(shown) => Some(Join(shown, ",")))
    case JObject(fields) => if "toString" in fields then None else Some("[object Object]")
  }

  /** `error instanceof Error ? error.message : String(error)`. */
  function Details(e: Thrown): string {
    match e
    case ErrorObject(m) => m
    case OtherValue(s) => s
  }

  /** Decimal digits of a natural number, as `Number.prototype.toString` writes
      an integer. */
  function Decimal(n: nat): (r: string)
    ensures |r| > 0
    ensures forall k :: 0 <= k < |r| ==> '0' <= r[k] <= '9'
    ensures r[0] == '0' ==> n == 0 && |r| == 1
    decreases n
  {
    if n < 10 then [DigitChar(n)] else Decimal(n / 10) + [DigitChar(n % 10)]
  }

  function DigitChar(d: nat): (c: char)
    requires d < 10
  {
    ('0' as int + d) as char
  }

  function DigitValue(c: char): nat
    requires '0' <= c <= '9'
  {
    c as int - '0' as int
  }

  /** The number a string of decimal digits denotes. */
  function DecimalValue(s: string): nat
    requires forall k :: 0 <= k < |s| ==> '0' <= s[k] <= '9'
    decreases |s|
  {
    if |s| == 0 then 0 else 10 * DecimalValue(s[..|s| - 1]) + DigitValue(s[|s| - 1])
  }

  /** Reading back the digits `Decimal` writes gives the number. */
  lemma {:induction false} DecimalRoundTrip(n: nat)
    ensures DecimalValue(Decimal(n)) == n
    decreases n
  {
    var r := Decimal(n);
    if n < 10 {
      assert DigitValue(DigitChar(n)) == n;
    } else {
      DecimalRoundTrip(n / 10);
      assert r[..|r| - 1] == Decimal(n / 10);
      assert DigitValue(DigitChar(n % 10)) == n % 10;
    }
  }
}
