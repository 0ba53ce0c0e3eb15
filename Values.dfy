// The JSON-like values that flow between the HTTP layer, the datastore and
// the services, together with the few pieces of Python semantics the core
// relies on: truthiness, `dict.get`, `str()` of a value, string slicing and
// the text of a raised exception.

module Values {

  datatype Option<T> = None | Some(value: T)

  datatype Result<T, E> = Success(value: T) | Failure(error: E)

  /** A decoded JSON value as Python sees it after the datastore client has
      parsed a row: None, bool, int, str or dict. */
  datatype Value =
    | Null
    | Bool(b: bool)
    | Int(i: int)
    | Str(s: string)
    | Object(fields: map<string, Value>)

  /** A Python dict with string keys: a request body, a datastore row, an
      activity's metadata. */
  type Row = map<string, Value>

  /** `row.get(key, default)` */
  function Get(row: Row, key: string, default: Value): Value
  {
    if key in row then row[key] else default
  }

  /** Python's `bool(v)`: None, False, 0, "" and {} are falsy. */
  predicate Truthy(v: Value)
  {
    match v
    case Null => false
    case Bool(b) => b
    case Int(i) => i != 0
    case Str(s) => s != ""
    case Object(m) => m != map[]
  }

  /** The exceptions the core raises or lets through. `HttpExc` is FastAPI's
      HTTPException, `KeyErr` a failed `d[key]`, `Raised` any other exception
      carrying a message (a plain `Exception(msg)`, an adapter failure). */
  datatype Exc =
    | HttpExc(code: int, detail: string)
    | KeyErr(key: string)
    | Raised(message: string)

  /** Python's `str(e)`. An HTTPException prints as "<code>: <detail>", a
      KeyError as its quoted key, any other exception as its message. */
  function ExcText(e: Exc): string
  {
    match e
    case HttpExc(code, detail) => IntToString(code) + ": " + detail
    case KeyErr(key) => "'" + key + "'"
    case Raised(message) => message
  }

  function DigitChar(d: nat): (c: char)
    requires d < 10
    ensures c as int - '0' as int == d
  {
    ('0' as int + d) as char
  }

  /** Decimal text of a natural number, most significant digit first. */
  function NatToString(n: nat): (s: string)
    ensures |s| >= 1
    ensures forall i :: 0 <= i < |s| ==> '0' <= s[i] <= '9'
  {
    if n < 10 then [DigitChar(n)] else NatToString(n / 10) + [DigitChar(n % 10)]
  }

  /** The number a string of decimal digits denotes. */
  function DecimalValue(s: string): int
  {
    if s == [] then 0
    else 10 * DecimalValue(s[..|s| - 1]) + (s[|s| - 1] as int - '0' as int)
  }

  /** Reading back the decimal text of `n` gives `n`: the rendering loses
      nothing, so distinct numbers have distinct texts. */
  lemma {:induction false} DecimalRoundTrip(n: nat)
    ensures DecimalValue(NatToString(n)) == n
  {
    var s := NatToString(n);
    if n < 10 {
      assert s[..|s| - 1] == [];
    } else {
      var q, d := n / 10, n % 10;
      DecimalRoundTrip(q);
      assert s[..|s| - 1] == NatToString(q);
      assert s[|s| - 1] == DigitChar(d);
      assert 10 * q + d == n;
    }
  }

  function IntToString(i: int): string
  {
    if i < 0 then "-" + NatToString(-i) else NatToString(i)
  }

  /** Python's `str(v)` inside an f-string. A nested dict is rendered as a
      fixed placeholder: the model's maps do not keep Python's key order. */
  function Render(v: Value): string
  {
    match v
    case Null => "None"
    case Bool(b) => if b then "True" else "False"
    case Int(i) => IntToString(i)
    case Str(s) => s
    case Object(_) => "{...}"
  }

  /** Python's slice `s[:n]`. */
  function Prefix(s: string, n: nat): (r: string)
    ensures |r| == if n < |s| then n else |s|
    ensures r <= s
  {
    if n < |s| then s[..n] else s
  }
}
