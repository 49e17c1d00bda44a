/** A JSON value as `json.loads` hands it to Python code, and the handful of
    Python operations the service applies to it: truthiness, `str()`,
    `x[k]` and `d.get(k, default)`. Failing operations give the text of the
    exception CPython (3.11 and later) raises. */
module PyJson {
  import opened Wrappers
  import opened Text

  /** `None`, `bool`, `int`, `float`, `str`, `list` and `dict`. A float is
      carried with its value and the text of its `repr`. An object's members
      are in insertion order and have distinct keys. */
  datatype Json =
    | JNull
    | JBool(b: bool)
    | JInt(i: int)
    | JFloat(value: real, repr: string)
    | JString(s: string)
    | JArray(items: seq<Json>)
    | JObject(members: seq<(string, Json)>)

  /** The message of a Python exception, as `str(e)` gives it. */
  datatype PyError = PyError(text: string)

  /** A subscript: `x[0]` or `x["key"]`. */
  datatype Key = Index(n: nat) | Name(name: string)

  /** `type(x).__name__`. */
  function TypeName(x: Json): string
  {
    match x
    case JNull => "NoneType"
    case JBool(_) => "bool"
    case JInt(_) => "int"
    case JFloat(_, _) => "float"
    case JString(_) => "str"
    case JArray(_) => "list"
    case JObject(_) => "dict"
  }

  /** `bool(x)`. */
  predicate Truthy(x: Json)
  {
    match x
    case JNull => false
    case JBool(b) => b
    case JInt(i) => i != 0
    case JFloat(v, _) => v != 0.0
    case JString(s) => s != []
    case JArray(items) => items != []
    case JObject(members) => members != []
  }

  /** The value stored under `key` in an object's members, if any. */
  function Lookup(members: seq<(string, Json)>, key: string): (found: Option<Json>)
    ensures found.Some? <==> exists i :: 0 <= i < |members| && members[i].0 == key
    ensures found.Some? ==> exists i :: 0 <= i < |members| && members[i] == (key, found.value)
  {
    if members == [] then None
    else if members[0].0 == key then Some(members[0].1)
    else Lookup(members[1..], key)
  }

  /** `x.get(key, default)`: only a `dict` has a `get` method. */
  function Get(x: Json, key: string, default: Json): (r: Result<Json, PyError>)
    ensures r.Success? <==> x.JObject?
  {
    match x
    case JObject(members) =>
      (match Lookup(members, key)
       case Some(v) => Success(v)
       case None => Success(default))
    case _ => Failure(NoAttribute(x, "get"))
  }

  /** The `AttributeError` for a method the value's type does not have. */
  function NoAttribute(x: Json, attribute: string): PyError
  {
    PyError("'" + TypeName(x) + "' object has no attribute '" + attribute + "'")
  }

  /** `KeyError(key)`: its text is the key's `repr`. */
  function KeyError(key: string): PyError
  {
    PyError(Repr(JString(key)))
  }

  /** `x[key]`. */
  function Subscript(x: Json, key: Key): (r: Result<Json, PyError>)
    ensures r.Success? <==>
      (x.JObject? && key.Name? && Lookup(x.members, key.name).Some?)
      || (x.JArray? && key.Index? && key.n < |x.items|)
      || (x.JString? && key.Index? && key.n < |x.s|)
  {
    match x
    case JObject(members) =>
      (match key
       case Name(name) =>
         (match Lookup(members, name)
          case Some(v) => Success(v)
          case None => Failure(KeyError(name)))
       case Index(n) => Failure(PyError(IntToString(n))))
    case JArray(items) =>
      (match key
       case Index(n) => if n < |items| then Success(items[n]) else Failure(PyError("list index out of range"))
       case Name(_) => Failure(PyError("list indices must be integers or slices, not str")))
    case JString(s) =>
      (match key
       case Index(n) => if n < |s| then Success(JString([s[n]])) else Failure(PyError("string index out of range"))
       case Name(_) => Failure(PyError("string indices must be integers, not 'str'")))
    case _ => Failure(PyError("'" + TypeName(x) + "' object is not subscriptable"))
  }

  /** `str(x)`: a string is itself, anything else is its `repr`. */
  function Str(x: Json): string
  {
    if x.JString? then x.s else Repr(x)
  }

  /** `repr(x)`. Non-ASCII characters that Python would escape are kept as they are. */
  function Repr(x: Json): (r: string)
    ensures x.JObject? ==> |r| >= 2 && r[0] == '{' && r[|r| - 1] == '}'
    ensures x.JArray? ==> |r| >= 2 && r[0] == '[' && r[|r| - 1] == ']'
  {
    match x
    case JNull => "None"
    case JBool(b) => if b then "True" else "False"
    case JInt(i) => IntToString(i)
    case JFloat(_, text) => text
    case JString(s) => QuoteString(s)
    case JArray(items) =>
      "[" + JoinWithSeparator(seq(|items|, k requires 0 <= k < |items| => Repr(items[k]))) + "]"
    case JObject(members) =>
      "{" + JoinWithSeparator(seq(|members|, k requires 0 <= k < |members| =>
                               QuoteString(members[k].0) + ": " + Repr(members[k].1))) + "}"
  }

  /** `", ".join(parts)`. */
  function JoinWithSeparator(parts: seq<string>): string
  {
    if parts == [] then []
    else if |parts| == 1 then parts[0]
    else parts[0] + ", " + JoinWithSeparator(parts[1..])
  }

  /** `repr` of a `str`: single quotes unless the text holds a single quote
      and no double quote. */
  function QuoteString(s: string): (r: string)
    ensures |r| >= 2 && r[0] == r[|r| - 1] && (r[0] == '\'' || r[0] == '"')
  {
    var quote := if '\'' in s && '"' !in s then '"' else '\'';
    [quote] + Escape(s, quote) + [quote]
  }

  function Escape(s: string, quote: char): string
  {
    if s == [] then []
    else EscapeChar(s[0], quote) + Escape(s[1..], quote)
  }

  function EscapeChar(c: char, quote: char): string
  {
    if c == '\\' then "\\\\"
    else if c == quote then ['\\', c]
    else if c == '\n' then "\\n"
    else if c == '\r' then "\\r"
    else if c == '\t' then "\\t"
    else if c < ' ' || c == '\U{7f}' then "\\x" + [HexDigit(c as int / 16), HexDigit(c as int % 16)]
    else [c]
  }

  function HexDigit(d: nat): char
    requires d < 16
  {
    "0123456789abcdef"[d]
  }
}
