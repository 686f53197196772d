/**
 * The values `json.loads` produces (None, bool, int, str, list, dict) and
 * the few Python operations the agent applies to them: truthiness, the `in`
 * operator, `d[key]`, `d.get(key)`, the slice `v[:100]`, `str(v)` and
 * `repr(v)`. Operations that raise in Python give `Raise` with the text of
 * CPython's exception.
 */
module PyJson {
  import opened Interfaces
  import opened PyText

  /** A decoded JSON document. An object keeps its keys in insertion order,
    * as a Python dict does. */
  datatype Json =
    | JNull
    | JBool(b: bool)
    | JNum(n: int)
    | JStr(s: string)
    | JArr(items: seq<Json>)
    | JObj(entries: seq<(string, Json)>)

  /** A Python expression either evaluates to a value or raises. */
  datatype PyResult<+T> = Ok(value: T) | Raise(message: string)

  /** The name of the Python type of a decoded value. */
  function TypeName(v: Json): string {
    match v
    case JNull => "NoneType"
    case JBool(_) => "bool"
    case JNum(_) => "int"
    case JStr(_) => "str"
    case JArr(_) => "list"
    case JObj(_) => "dict"
  }

  /** `bool(v)`: None, False, 0 and empty containers are false. */
  predicate Truthy(v: Json)
    ensures !Truthy(v) <==> v in {JNull, JBool(false), JNum(0), JStr(""), JArr([]), JObj([])}
  {
    match v
    case JNull => false
    case JBool(b) => b
    case JNum(n) => n != 0
    case JStr(s) => s != ""
    case JArr(items) => items != []
    case JObj(entries) => entries != []
  }

  /** The keys of a dict, in order. */
  function Keys(entries: seq<(string, Json)>): (r: seq<string>)
    ensures |r| == |entries|
    ensures forall k :: 0 <= k < |entries| ==> r[k] == entries[k].0
  {
    if entries == [] then [] else [entries[0].0] + Keys(entries[1..])
  }

  /** The value stored under `key`, if any. */
  function Lookup(entries: seq<(string, Json)>, key: string): (r: Option<Json>)
    ensures r.None? <==> key !in Keys(entries)
    ensures r.Some? ==> (key, r.value) in entries
  {
    if entries == [] then None
    else if entries[0].0 == key then Some(entries[0].1)
    else Lookup(entries[1..], key)
  }

  /** `key in v` for a string `key`: a key test on a dict, an element test on
    * a list, a substring test on a str; other types are not iterable. */
  function Contains(v: Json, key: string): (r: PyResult<bool>)
    ensures r.Raise? <==> (v.JNull? || v.JBool? || v.JNum?)
    ensures v.JObj? ==> r == Ok(key in Keys(v.entries))
    ensures v.JArr? ==> r == Ok(JStr(key) in v.items)
    ensures v.JStr? ==> r == Ok(IsInfix(key, v.s))
  {
    match v
    case JObj(entries) => Ok(key in Keys(entries))
    case JArr(items) => Ok(JStr(key) in items)
    case JStr(s) => Ok(IsInfix(key, s))
    case _ => Raise("argument of type '" + TypeName(v) + "' is not iterable")
  }

  /** `v[key]` for a string `key`, where `key in v` already holds. */
  function Subscript(v: Json, key: string): (r: PyResult<Json>)
    requires Contains(v, key) == Ok(true)
    ensures r.Ok? <==> v.JObj?
    ensures v.JObj? ==> Some(r.value) == Lookup(v.entries, key)
  {
    match v
    case JObj(entries) => Ok(Lookup(entries, key).value)
    case JStr(_) => Raise("string indices must be integers, not 'str'")
    case JArr(_) => Raise("list indices must be integers or slices, not str")
  }

  /** `v.get(key)`: the value under `key`, or None when it is absent; only a
    * dict has the method. */
  function GetMethod(v: Json, key: string): (r: PyResult<Json>)
    ensures r.Ok? <==> v.JObj?
    ensures v.JObj? && key !in Keys(v.entries) ==> r == Ok(JNull)
    ensures v.JObj? && key in Keys(v.entries) ==> Some(r.value) == Lookup(v.entries, key)
  {
    match v
    case JObj(entries) =>
      (match Lookup(entries, key)
       case Some(x) => Ok(x)
       case None => Ok(JNull))
    case _ => Raise("'" + TypeName(v) + "' object has no attribute 'get'")
  }

  /** A str or a list: the values on which `v[:100]` succeeds and which a
    * tool can be handed. */
  type Sliceable = v: Json | v.JStr? || v.JArr? witness JStr("")

  /** The TypeError message for subscripting a value of the named type. */
  function NotSubscriptable(typeName: string): string {
    "'" + typeName + "' object is not subscriptable"
  }

  /** `v[:n]` for `n >= 0`: a prefix of a str or list; None, bool and int are
    * not subscriptable, and a dict looks the slice object up as a key. */
  function SlicePrefix(v: Json, n: nat): (r: PyResult<Json>)
    ensures r.Ok? <==> (v.JStr? || v.JArr?)
    ensures v.JStr? ==> r == Ok(JStr(if |v.s| <= n then v.s else v.s[..n]))
    ensures v.JArr? ==> r == Ok(JArr(if |v.items| <= n then v.items else v.items[..n]))
  {
    match v
    case JStr(s) => Ok(JStr(if |s| <= n then s else s[..n]))
    case JArr(items) => Ok(JArr(if |items| <= n then items else items[..n]))
    case JObj(_) => Raise("slice(None, " + IntToString(n) + ", None)")
    case _ => Raise(NotSubscriptable(TypeName(v)))
  }

  /** `v in d` for a dict `d` whose keys are `keys`: lists and dicts are
    * unhashable; only a str can equal a str key. */
  function InStrKeyedDict(v: Json, keys: set<string>): (r: PyResult<bool>)
    ensures r.Raise? <==> (v.JArr? || v.JObj?)
    ensures r.Ok? ==> (r.value <==> v.JStr? && v.s in keys)
  {
    match v
    case JArr(_) => Raise("unhashable type: 'list'")
    case JObj(_) => Raise("unhashable type: 'dict'")
    case JStr(s) => Ok(s in keys)
    case _ => Ok(false)
  }

  /** `str(v)`: a str is itself; everything else is its `repr`. */
  function Str(v: Json): string {
    if v.JStr? then v.s else Repr(v)
  }

  /** `repr(v)`. */
  function Repr(v: Json): string
    decreases v, 1
  {
    match v
    case JNull => "None"
    case JBool(b) => if b then "True" else "False"
    case JNum(n) => IntToString(n)
    case JStr(s) => ReprStr(s)
    case JArr(items) => "[" + ReprItems(items) + "]"
    case JObj(entries) => "{" + ReprEntries(entries) + "}"
  }

  /** The items of a list, each as its `repr`, separated by ", ". */
  function ReprItems(items: seq<Json>): string
    decreases items, 0
  {
    if items == [] then ""
    else if |items| == 1 then Repr(items[0])
    else Repr(items[0]) + ", " + ReprItems(items[1..])
  }

  /** The entries of a dict as `repr(key): repr(value)`, separated by ", ". */
  function ReprEntries(entries: seq<(string, Json)>): string
    decreases entries, 0
  {
    if entries == [] then ""
    else
      var e := entries[0];
      assert e in entries && e.1 < e;
      var first := ReprStr(e.0) + ": " + Repr(e.1);
      if |entries| == 1 then first else first + ", " + ReprEntries(entries[1..])
  }

  /** `repr(s)` for a str: single quotes, unless `s` holds a single quote and
    * no double quote. */
  function ReprStr(s: string): (r: string)
    ensures |r| >= 2 && r[0] == r[|r| - 1] == QuoteFor(s)
  {
    var q := QuoteFor(s);
    [q] + EscapeAll(s, q) + [q]
  }

  function QuoteFor(s: string): char {
    if '\'' in s && '"' !in s then '"' else '\''
  }

  function EscapeAll(s: string, q: char): string {
    if s == [] then "" else Escape(s[0], q) + EscapeAll(s[1..], q)
  }

  /** How `repr` writes one character inside quotes `q`. */
  function Escape(c: char, q: char): string {
    if c == q || c == '\\' then ['\\', c]
    else if c == '\t' then "\\t"
    else if c == '\n' then "\\n"
    else if c == '\r' then "\\r"
    else if IsPrintable(c) then [c]
    else if c as int < 0x100 then "\\x" + Hex(c as int, 2)
    else if c as int < 0x10000 then "\\u" + Hex(c as int, 4)
    else "\\U" + Hex(c as int, 8)
  }

  /** `c.isprintable()`: exact up to U+00FF (controls, no-break space and
    * soft hyphen are not printable); above that only the whitespace
    * characters are taken as not printable. */
  predicate IsPrintable(c: char) {
    if c as int < 0x100 then
      (' ' <= c < '\U{007F}') || ('\U{00A1}' <= c && c != '\U{00AD}')
    else
      !IsSpace(c)
  }

  /** The last `width` lower-case hexadecimal digits of `n`. */
  function Hex(n: nat, width: nat): (r: string)
    ensures |r| == width
  {
    if width == 0 then ""
    else Hex(n / 16, width - 1) + [HexDigit(n % 16)]
  }

  function HexDigit(d: nat): char
    requires d < 16
  {
    if d < 10 then '0' + d as char else 'a' + (d - 10) as char
  }
}
