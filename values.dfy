/** JSON payloads as the API client decodes them, with the few Python
    operations the handlers apply to them: truthiness, `dict.get` with a
    default, and `str()` inside an f-string. */
module Values {
  import opened Text

  datatype Option<+T> = None | Some(value: T)

  /** A decoded JSON value. Integers and floats are kept apart because
      Python decodes them to `int` and `float`. */
  datatype Json =
    | JNull
    | JBool(b: bool)
    | JInt(i: int)
    | JFloat(f: real)
    | JStr(s: string)
    | JArr(items: seq<Json>)
    | JObj(fields: map<string, Json>)

  /** A JSON object as a Python dict. */
  type Record = map<string, Json>

  /** Python truthiness: `None`, `False`, zero, and empty strings, lists and
      dicts are falsy. */
  predicate Truthy(j: Json) {
    match j
    case JNull => false
    case JBool(b) => b
    case JInt(i) => i != 0
    case JFloat(f) => f != 0.0
    case JStr(s) => s != ""
    case JArr(xs) => xs != []
    case JObj(m) => m != map[]
  }

  /** The falsy values are exactly Python's: `None`, `False`, `0`, `0.0`,
      `""`, `[]` and `{}`. */
  lemma FalsyValues(j: Json)
    ensures !Truthy(j) <==>
      j == JNull || j == JBool(false) || j == JInt(0) || j == JFloat(0.0) ||
      j == JStr("") || j == JArr([]) || j == JObj(map[])
  {
  }

  /** The fields of a record; anything that is not an object reads as `{}`. */
  function Fields(j: Json): Record {
    if j.JObj? then j.fields else map[]
  }

  /** The elements iterated over; anything that is not an array reads as `[]`. */
  function Items(j: Json): seq<Json> {
    if j.JArr? then j.items else []
  }

  /** `rec.get(key, default)`. */
  function Get(rec: Record, key: string, default: Json): Json {
    if key in rec then rec[key] else default
  }

  /** `f"{rec.get(key, default)}"`: the field rendered, or the default rendered
      when the key is absent. */
  function Field(rec: Record, key: string, default: Json): (r: string)
    ensures key in rec ==> r == Show(rec[key])
    ensures key !in rec ==> r == Show(default)
  {
    Show(Get(rec, key, default))
  }

  function Digit(d: nat): (c: char)
    requires d < 10
    ensures '0' <= c <= '9'
  {
    (48 + d) as char
  }

  /** The decimal digits of `n`, as Python's `str` gives them. */
  function NatToString(n: nat): (s: string)
    ensures |s| > 0
    ensures forall k :: 0 <= k < |s| ==> '0' <= s[k] <= '9'
    ensures s[0] == '0' <==> n == 0
    ensures s[0] == '0' ==> s == "0"
    decreases n
  {
    if n < 10 then [Digit(n)] else NatToString(n / 10) + [Digit(n % 10)]
  }

  /** The value of a string of decimal digits. */
  function DigitsValue(s: string): nat
    requires forall k :: 0 <= k < |s| ==> '0' <= s[k] <= '9'
    decreases |s|
  {
    if |s| == 0 then 0 else DigitsValue(s[..|s| - 1]) * 10 + (s[|s| - 1] as int - 48)
  }

  /** Reading the digits back gives the number. */
  lemma {:induction false} NatToStringRoundTrip(n: nat)
    ensures DigitsValue(NatToString(n)) == n
    decreases n
  {
    if n >= 10 {
      var s := NatToString(n);
      NatToStringRoundTrip(n / 10);
      assert s[..|s| - 1] == NatToString(n / 10);
    }
  }

  /** Python's `str` of an integer: a minus sign exactly for negatives, then
      the digits of the magnitude with no leading zero. */
  function IntToString(i: int): (s: string)
    ensures |s| > 0 && (s[0] == '-' <==> i < 0)
    ensures var digits := if i < 0 then s[1..] else s;
      && |digits| > 0
      && (forall k :: 0 <= k < |digits| ==> '0' <= digits[k] <= '9')
      && DigitsValue(digits) == (if i < 0 then -i else i)
      && (digits[0] == '0' ==> digits == "0")
  {
    if i < 0 then
      NatToStringRoundTrip(-i);
      assert ("-" + NatToString(-i))[1..] == NatToString(-i);
      "-" + NatToString(-i)
    else
      NatToStringRoundTrip(i);
      NatToString(i)
  }

  /** Python's `str(j)` for the values the formatters print. Strings, `None`,
      booleans, integers and integral floats below 1e16 are rendered as
      Python renders them; other floats, lists and dicts are rendered as a
      fixed placeholder. */
  function Show(j: Json): string
  {
    match j
    case JNull => "None"
    case JBool(b) => if b then "True" else "False"
    case JInt(i) => IntToString(i)
    case JFloat(f) =>
      if f == f.Floor as real && -10000000000000000.0 < f < 10000000000000000.0
      then IntToString(f.Floor) + ".0"
      else "<float>"
    case JStr(s) => s
    case JArr(_) => "[...]"
    case JObj(_) => "{...}"
  }

  /** What `str()` gives for each kind of JSON value. */
  lemma ShowCases(j: Json)
    ensures j.JNull? ==> Show(j) == "None"
    ensures j.JBool? ==> Show(j) == (if j.b then "True" else "False")
    ensures j.JInt? ==> Show(j) == IntToString(j.i)
    ensures j.JFloat? && j.f == j.f.Floor as real && -10000000000000000.0 < j.f < 10000000000000000.0
      ==> Show(j) == IntToString(j.f.Floor) + ".0"
    ensures j.JStr? ==> Show(j) == j.s
    ensures j.JArr? ==> Show(j) == "[...]"
    ensures j.JObj? ==> Show(j) == "{...}"
  {
  }

  /** No string anywhere inside `j` has a newline directly followed by '-'. */
  predicate DashSafe(j: Json) {
    match j
    case JStr(s) => NoNewlineDash(s)
    case JArr(xs) => forall k :: 0 <= k < |xs| ==> DashSafe(xs[k])
    case JObj(m) => forall key :: key in m ==> DashSafe(m[key])
    case _ => true
  }

  lemma DigitsNoNewline(s: string)
    requires forall k :: 0 <= k < |s| ==> '0' <= s[k] <= '9'
    ensures NoNewlineDash(s)
  {
  }

  lemma IntToStringNoNewlineDash(i: int)
    ensures NoNewlineDash(IntToString(i))
  {
    if i < 0 {
      DigitsNoNewline(NatToString(-i));
      NoNewlineDashConcat("-", NatToString(-i));
    } else {
      DigitsNoNewline(NatToString(i));
    }
  }

  /** Rendering a dash-safe value never puts a dash at the start of a line. */
  lemma ShowNoNewlineDash(j: Json)
    requires DashSafe(j)
    ensures NoNewlineDash(Show(j))
  {
    match j
    case JInt(i) => IntToStringNoNewlineDash(i);
    case JFloat(f) =>
      if f == f.Floor as real && -10000000000000000.0 < f < 10000000000000000.0 {
        IntToStringNoNewlineDash(f.Floor);
        NoNewlineDashConcat(IntToString(f.Floor), ".0");
      }
    case _ =>
  }

  lemma FieldNoNewlineDash(rec: Record, key: string, default: Json)
    requires DashSafe(JObj(rec)) && DashSafe(default)
    ensures NoNewlineDash(Field(rec, key, default))
  {
    ShowNoNewlineDash(Get(rec, key, default));
  }
}
