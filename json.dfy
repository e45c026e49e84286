/** The decoded body of an API answer, as the Python `json` module hands it
    over: None, bool, int, str, list or dict, nested. */
module Json {
  import opened PyText

  /** A JSON object decodes to a dict; its keys are strings. */
  datatype Value =
    | Null
    | Bool(b: bool)
    | Int(i: int)
    | Str(s: string)
    | List(items: seq<Value>)
    | Object(fields: map<string, Value>)

  /** `d.get(key)`: the value under key, or None when the key is absent. */
  function Get(fields: map<string, Value>, key: string): Value {
    if key in fields then fields[key] else Null
  }

  /** `str(v)`, as an f-string renders a value. A string is shown as itself;
      inside a list, elements are shown by `repr`. A non-empty dict is drawn
      as `{...}`, since a map does not keep the dict's insertion order. */
  function Display(v: Value): (s: string)
    ensures v.Str? ==> s == v.s
    ensures s == [] ==> v == Str([])
    ensures v.List? ==> StartsWith(s, "[") && EndsWith(s, "]")
    ensures v.Int? ==> (v.i < 0 <==> StartsWith(s, "-"))
    decreases v, 0
  {
    match v
    case Null => "None"
    case Bool(b) => if b then "True" else "False"
    case Int(i) => NatDigitsRoundTrip(if i < 0 then -i else i); Decimal(i)
    case Str(s) => s
    case List(items) =>
      "[" + Join(seq(|items|, k requires 0 <= k < |items| => Repr(items[k]))) + "]"
    case Object(fields) => if fields == map[] then "{}" else "{...}"
  }

  /** `repr(v)`: strings quoted and escaped, everything else as `str`. */
  function Repr(v: Value): string
    decreases v, 1
  {
    if v.Str? then StrRepr(v.s) else Display(v)
  }

  /** `', '.join(parts)` */
  function Join(parts: seq<string>): string {
    if parts == [] then ""
    else if |parts| == 1 then parts[0]
    else parts[0] + ", " + Join(parts[1..])
  }
}
