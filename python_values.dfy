/** Python values as the bot sees them: the JSON document decoded by
    `response.json()`, the exception object that `get_api_answer` may return
    instead of a document, string subscripting of either, and `str()` of a
    JSON value (the text an f-string inserts). */
module PyValues {

  datatype Option<T> = None | Some(value: T)

  datatype Result<T, E> = Ok(value: T) | Err(error: E)

  /** A decoded JSON value. An object keeps its members in document order,
      as a Python dict built by `json.loads` does. */
  datatype Json =
    | Null
    | Bool(b: bool)
    | Int(i: int)
    | Float(text: string)  // a JSON number with a fraction; `text` is Python's repr of it
    | Str(s: string)
    | List(items: seq<Json>)
    | Dict(entries: seq<(string, Json)>)

  /** What `get_api_answer` hands back: a decoded document, or an exception
      object of the named class that it returned instead of raising. */
  datatype PyObject = Document(json: Json) | ExceptionObject(className: string)

  /** The outcome of `obj[key]` with a string key. */
  datatype Lookup = Found(v: Json) | KeyMissing | NotAMapping(typeName: string)

  /** The name of the Python type of a decoded value. */
  function TypeName(v: Json): string {
    match v
    case Null => "NoneType"
    case Bool(_) => "bool"
    case Int(_) => "int"
    case Float(_) => "float"
    case Str(_) => "str"
    case List(_) => "list"
    case Dict(_) => "dict"
  }

  /** `key in d` for the members of a decoded object. */
  predicate HasKey(entries: seq<(string, Json)>, key: string) {
    exists i :: 0 <= i < |entries| && entries[i].0 == key
  }

  /** `d[key]` on a dict built from `entries`: a later member with the same
      key overrides an earlier one. */
  function Get(entries: seq<(string, Json)>, key: string): (r: Option<Json>)
    ensures r.Some? <==> HasKey(entries, key)
    ensures r.Some? ==> exists i :: 0 <= i < |entries| && entries[i] == (key, r.value)
                                   && forall j :: i < j < |entries| ==> entries[j].0 != key
  {
    if |entries| == 0 then None
    else if entries[|entries| - 1].0 == key then Some(entries[|entries| - 1].1)
    else
      var r := Get(entries[..|entries| - 1], key);
      assert forall i :: 0 <= i < |entries| - 1 ==> entries[..|entries| - 1][i] == entries[i];
      r
  }

  /** `v[key]`: only a dict can be subscripted by a string; a missing key is
      a KeyError and any other value is a TypeError raised by the interpreter. */
  function Subscript(v: Json, key: string): (r: Lookup)
    ensures r.NotAMapping? <==> !v.Dict?
    ensures r.NotAMapping? ==> r.typeName == TypeName(v)
    ensures r.KeyMissing? <==> v.Dict? && !HasKey(v.entries, key)
    ensures r.Found? ==> v.Dict? && Get(v.entries, key) == Some(r.v)
  {
    match v
    case Dict(entries) =>
      (match Get(entries, key)
       case Some(x) => Found(x)
       case None => KeyMissing)
    case _ => NotAMapping(TypeName(v))
  }

  /** `obj[key]` on what `get_api_answer` returned. */
  function SubscriptObject(obj: PyObject, key: string): (r: Lookup)
    ensures obj.ExceptionObject? ==> r == NotAMapping(obj.className)
    ensures obj.Document? ==> r == Subscript(obj.json, key)
  {
    match obj
    case Document(v) => Subscript(v, key)
    case ExceptionObject(c) => NotAMapping(c)
  }

  /** `dict.get(key, default)` on a document already known to be a dict. */
  function GetOr(v: Json, key: string, default: Json): (r: Json)
    requires v.Dict?
    ensures HasKey(v.entries, key) ==> Get(v.entries, key) == Some(r)
    ensures !HasKey(v.entries, key) ==> r == default
  {
    match Get(v.entries, key)
    case Some(x) => x
    case None => default
  }

  /** The characters `0` to `9`. */
  predicate IsDigit(c: char) {
    '0' <= c <= '9'
  }

  /** The number a string of decimal digits denotes. */
  function DigitsValue(s: string): nat
    requires forall i | 0 <= i < |s| :: IsDigit(s[i])
  {
    if |s| == 0 then 0
    else
      assert IsDigit(s[|s| - 1]);
      DigitsValue(s[..|s| - 1]) * 10 + (s[|s| - 1] as int - '0' as int)
  }

  /** Decimal digits of a natural number: digits only, no leading zero, and
      they denote `n`. */
  function NatDigits(n: nat): (r: string)
    ensures |r| > 0 && forall i | 0 <= i < |r| :: IsDigit(r[i])
    ensures n > 0 ==> r[0] != '0'
    ensures DigitsValue(r) == n
    decreases n
  {
    var d := ('0' as int + n % 10) as char;
    if n < 10 then [d]
    else
      var r := NatDigits(n / 10) + [d];
      assert r[..|r| - 1] == NatDigits(n / 10);
      r
  }

  /** `str(n)` for an integer: a minus sign before the digits of a negative
      number, and the digits alone otherwise. */
  function IntText(n: int): (r: string)
    ensures n >= 0 ==> (forall i | 0 <= i < |r| :: IsDigit(r[i])) && DigitsValue(r) == n
    ensures n < 0 ==> |r| > 1 && r[0] == '-' && (forall i | 1 <= i < |r| :: IsDigit(r[i]))
                      && DigitsValue(r[1..]) == -n
  {
    if n < 0 then
      var r := "-" + NatDigits(-n);
      assert r[1..] == NatDigits(-n);
      r
    else NatDigits(n)
  }

  /** `str(v)`: a string is inserted as it is, every other value as its repr. */
  function Display(v: Json): (r: string)
    ensures v.Str? ==> r == v.s
    ensures !v.Str? ==> r == Repr(v)
    ensures v.Int? ==> r == IntText(v.i)
    ensures v.Null? ==> r == "None"
  {
    if v.Str? then v.s else Repr(v)
  }

  /** `repr(v)`, with strings between single quotes: a string quoted, a
      list between brackets and a dict between braces, empty brackets and
      braces exactly when there is nothing inside. */
  function Repr(v: Json): (r: string)
    ensures v.Null? || v.Bool? || v.Int? || v.Str? || v.List? || v.Dict? ==> |r| > 0
    ensures v.Str? ==> r == "'" + v.s + "'"
    ensures v.List? ==> |r| >= 2 && r[0] == '[' && r[|r| - 1] == ']'
                        && (r == "[]" <==> ReprItems(v, v.items) == "")
    ensures v.Dict? ==> |r| >= 2 && r[0] == '{' && r[|r| - 1] == '}'
                        && (r == "{}" <==> |v.entries| == 0)
    decreases v, 1
  {
    match v
    case Null => "None"
    case Bool(b) => if b then "True" else "False"
    case Int(n) => IntText(n)
    case Float(t) => t
    case Str(s) => "'" + s + "'"
    case List(items) =>
      var inner := ReprItems(v, items);
      assert ("[" + inner + "]" == "[]") == (inner == "");
      "[" + inner + "]"
    case Dict(entries) =>
      var inner := ReprEntries(v, entries);
      assert ("{" + inner + "}" == "{}") == (inner == "");
      "{" + inner + "}"
  }

  /** The repr of the elements of a list, separated by ", ": empty for no
      elements, never empty for two or more, and starting with the first
      element's repr. */
  function ReprItems(ghost owner: Json, items: seq<Json>): (r: string)
    requires forall i | 0 <= i < |items| :: items[i] < owner
    ensures |items| == 0 ==> r == ""
    ensures |items| > 1 ==> r != ""
    ensures |items| > 0 ==> StartsWithText(r, Repr(items[0]))
    decreases owner, 0, |items|
  {
    if |items| == 0 then ""
    else if |items| == 1 then Repr(items[0])
    else
      var r := Repr(items[0]) + ", " + ReprItems(owner, items[1..]);
      assert r[..|Repr(items[0])|] == Repr(items[0]);
      r
  }

  /** The repr of the members of a dict, `'key': value`, separated by ", ":
      empty exactly for no members, and starting with the first key quoted. */
  function ReprEntries(ghost owner: Json, entries: seq<(string, Json)>): (r: string)
    requires forall i | 0 <= i < |entries| :: entries[i].1 < owner
    ensures r == "" <==> |entries| == 0
    ensures |entries| > 0 ==> StartsWithText(r, "'" + entries[0].0 + "': ")
    decreases owner, 0, |entries|
  {
    if |entries| == 0 then ""
    else
      var key := "'" + entries[0].0 + "': ";
      var member := key + Repr(entries[0].1);
      assert member[..|key|] == key;
      if |entries| == 1 then member
      else
        var r := member + ", " + ReprEntries(owner, entries[1..]);
        assert r[..|key|] == key;
        r
  }

  /** `text.startswith(prefix)`. */
  predicate StartsWithText(text: string, prefix: string) {
    |prefix| <= |text| && text[..|prefix|] == prefix
  }
}
