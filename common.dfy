/**
 * Values shared by the request handlers: optional values, the numbers and
 * JSON values the handlers receive, the outcome of calls to external
 * collaborators, HTTP replies, and the row type of the `emergency_services`
 * table.
 */
module Common {

  datatype Option<+T> = None | Some(value: T)

  /** Looks a key up in a dictionary, as Python's `dict.get` does. */
  function Get<K, V>(m: map<K, V>, k: K): (r: Option<V>)
    ensures r.Some? <==> k in m
    ensures r.Some? ==> r.value == m[k]
  {
    if k in m then Some(m[k]) else None
  }

  /**
   * A number as the handlers see it after Python's `float()`. The model uses
   * integers as a stand-in: rounding, NaN and the infinities are not modelled.
   */
  type Num = int

  /**
   * A PostGIS point built by `ST_MakePoint(x, y)`: `x` is the longitude and
   * `y` the latitude, as `ST_X` and `ST_Y` read them back.
   */
  datatype Point = Point(x: Num, y: Num)

  /**
   * A JSON value as Flask decodes a request body. Arrays and objects are
   * never looked into by the handlers, so their contents are not kept.
   */
  datatype Json = JNull | JBool(b: bool) | JNum(n: Num) | JStr(s: string) | JArray | JObject

  /** What Python's `float(v)` does: a number, or one of two exceptions. */
  datatype FloatOutcome = Float(value: Num) | ValueError | TypeError

  /**
   * `float(s)` on a string. `parse` is the text-to-number conversion, given
   * by the caller; it answers `None` where Python raises `ValueError`.
   */
  function FloatOfText(s: string, parse: string -> Option<Num>): (r: FloatOutcome)
    ensures r != TypeError
    ensures r.Float? <==> parse(s).Some?
    ensures r.Float? ==> r.value == parse(s).value
  {
    match parse(s)
    case Some(n) => Float(n)
    case None => ValueError
  }

  /**
   * `float(v)` on a decoded JSON value: numbers convert, booleans convert to
   * 1 and 0 (a Python `bool` is an `int`), strings are parsed, and `None`,
   * lists and dicts raise `TypeError`.
   */
  function FloatOfJson(v: Json, parse: string -> Option<Num>): (r: FloatOutcome)
    ensures r == TypeError <==> v.JNull? || v.JArray? || v.JObject?
    ensures v.JNum? ==> r == Float(v.n)
    ensures v.JBool? ==> r == Float(if v.b then 1 else 0)
    ensures v.JStr? ==> r == FloatOfText(v.s, parse)
  {
    match v
    case JNull => TypeError
    case JBool(b) => Float(if b then 1 else 0)
    case JNum(n) => Float(n)
    case JStr(s) => FloatOfText(s, parse)
    case JArray => TypeError
    case JObject => TypeError
  }

  /**
   * The outcome of an HTTP call made with `requests`: the decoded response,
   * or a `RequestException` (network failure, timeout, an error status
   * raised by `raise_for_status`, a body that is not JSON) whose text is
   * `detail`.
   */
  datatype Fetch<+T> = Got(value: T) | RequestFailed(detail: string)

  /** The outcome of calling a Python function: a value, or an exception that escapes it. */
  datatype Call<+T> = Returned(value: T) | Raised

  /**
   * The JSON body of a reply: `{"error": ...}`, `{"message": ...}`, a
   * payload, or Flask's own error page for an exception no handler caught.
   */
  datatype Body<+T> = Error(error: string) | Message(message: string) | Data(value: T) | Unhandled

  /** An HTTP reply: status code and body. */
  datatype Reply<+T> = Reply(status: nat, body: Body<T>)

  /**
   * A row of the `emergency_services` table. The text columns hold the JSON
   * values the row was inserted with.
   */
  datatype ServiceRow = ServiceRow(
    id: nat,
    name: Json,
    kind: Json,
    location: Point,
    address: Json,
    contactInfo: Json)

  /** The elements of `s` that satisfy `keep`, in their original order. */
  function Filter<T(!new)>(s: seq<T>, keep: T -> bool): (r: seq<T>)
    ensures |r| <= |s|
    ensures forall x :: x in r <==> x in s && keep(x)
    ensures (forall x :: x in s ==> keep(x)) ==> r == s
  {
    if s == [] then []
    else if keep(s[0]) then [s[0]] + Filter(s[1..], keep)
    else Filter(s[1..], keep)
  }

  /** Filtering a concatenation filters each part: `Filter` keeps the original order. */
  lemma {:induction false} FilterAppend<T(!new)>(a: seq<T>, b: seq<T>, keep: T -> bool)
    ensures Filter(a + b, keep) == Filter(a, keep) + Filter(b, keep)
  {
    if a == [] {
      assert a + b == b;
    } else {
      assert (a + b)[1..] == a[1..] + b;
      FilterAppend(a[1..], b, keep);
    }
  }

  /**
   * Reads a text back at its first `sep`: the part before it and the part
   * after it (the whole text and "" when `sep` does not occur).
   */
  function SplitAt(s: string, sep: char): (r: (string, string))
    ensures sep !in r.0
    ensures sep in s ==> s == r.0 + [sep] + r.1
    ensures sep !in s ==> r == (s, "")
  {
    if s == [] then ("", "")
    else if s[0] == sep then ("", s[1..])
    else
      var (before, after) := SplitAt(s[1..], sep);
      assert s == [s[0]] + s[1..];
      ([s[0]] + before, after)
  }

  /** Joining two texts with a separator that the first does not contain is undone by `SplitAt`. */
  lemma {:induction false} SplitAtJoin(a: string, b: string, sep: char)
    requires sep !in a
    ensures SplitAt(a + [sep] + b, sep) == (a, b)
  {
    if a == [] {
      assert a + [sep] + b == [sep] + b;
    } else {
      var s := a + [sep] + b;
      assert s[0] == a[0] != sep;
      assert s[1..] == a[1..] + [sep] + b;
      SplitAtJoin(a[1..], b, sep);
      assert a == [a[0]] + a[1..];
    }
  }

  /** The decimal digit for `d`. */
  function Digit(d: nat): (c: char)
    requires d < 10
    ensures '0' <= c <= '9'
    ensures (c as int) - ('0' as int) == d
  {
    ('0' as int + d) as char
  }

  /** Python's `str(n)` for a non-negative integer: its decimal digits. */
  function NatToString(n: nat): (s: string)
    ensures |s| >= 1
    ensures forall i :: 0 <= i < |s| ==> '0' <= s[i] <= '9'
    ensures n == 0 ==> s == "0"
    ensures n > 0 ==> s[0] != '0'
  {
    if n < 10 then [Digit(n)] else NatToString(n / 10) + [Digit(n % 10)]
  }

  /** The number a text of decimal digits denotes. */
  function DecimalValue(s: string): nat
    requires forall i :: 0 <= i < |s| ==> '0' <= s[i] <= '9'
  {
    if s == [] then 0
    else 10 * DecimalValue(s[..|s| - 1]) + ((s[|s| - 1] as int) - ('0' as int))
  }

  /** `NatToString` writes exactly the number it is given. */
  lemma {:induction false} NatToStringValue(n: nat)
    ensures DecimalValue(NatToString(n)) == n
  {
    var s := NatToString(n);
    if n >= 10 {
      var prefix := NatToString(n / 10);
      assert s[..|s| - 1] == prefix;
      NatToStringValue(n / 10);
    }
  }
}
