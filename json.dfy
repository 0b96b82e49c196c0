/**
 * Values as Python's json.loads produces them, with the few Python behaviours
 * the core applies to them: truthiness, dict.get, type(v).__name__, str() and repr().
 */
module Json {
  import opened Wrappers
  import opened Strings

  /** A decoded JSON value. Numbers are integers; an object keeps its keys in
      insertion order. The type does not rule out a repeated key: the parse input
      is assumed to give each key once, as json.loads's dict does (it keeps the
      last of repeated keys, while Lookup finds the first). */
  datatype Value =
    | Null
    | Bool(b: bool)
    | Num(n: int)
    | Str(s: string)
    | Arr(items: seq<Value>)
    | Obj(fields: seq<(string, Value)>)

  /** Python's truth value: None, False, 0, "", [] and {} are false. */
  predicate Truthy(v: Value) {
    match v
    case Null => false
    case Bool(b) => b
    case Num(n) => n != 0
    case Str(s) => s != ""
    case Arr(items) => items != []
    case Obj(fields) => fields != []
  }

  function Keys(fields: seq<(string, Value)>): seq<string> {
    seq(|fields|, i requires 0 <= i < |fields| => fields[i].0)
  }

  lemma KeysAppend(a: seq<(string, Value)>, b: seq<(string, Value)>)
    ensures Keys(a + b) == Keys(a) + Keys(b)
  {
  }

  /** The value stored under key, if the key is present. */
  function Lookup(fields: seq<(string, Value)>, key: string): (r: Option<Value>)
    ensures r.Some? <==> key in Keys(fields)
    ensures r.Some? ==> exists i :: 0 <= i < |fields| && fields[i] == (key, r.value)
  {
    if fields == [] then None
    else if fields[0].0 == key then assert Keys(fields)[0] == key; Some(fields[0].1)
    else
      var r := Lookup(fields[1..], key);
      assert Keys(fields) == [fields[0].0] + Keys(fields[1..]);
      if r.Some? then
        ghost var i :| 0 <= i < |fields[1..]| && fields[1..][i] == (key, r.value);
        assert fields[i + 1] == (key, r.value);
        r
      else r
  }

  /** A key of the first part is found there; any other key is looked up in the second. */
  lemma LookupAppend(a: seq<(string, Value)>, b: seq<(string, Value)>, key: string)
    ensures Lookup(a + b, key) == if key in Keys(a) then Lookup(a, key) else Lookup(b, key)
  {
    if a != [] {
      LookupAppend(a[1..], b, key);
      assert (a + b)[0] == a[0];
      assert (a + b)[1..] == a[1..] + b;
      assert Keys(a) == [a[0].0] + Keys(a[1..]);
    } else {
      assert a + b == b;
    }
  }

  /** A key at the front is found at once. */
  lemma LookupHead(p: (string, Value), rest: seq<(string, Value)>, key: string)
    requires p.0 == key
    ensures Lookup([p] + rest, key) == Some(p.1)
  {
  }

  /** obj.get(key): the stored value, or None when the key is absent. */
  function Get(v: Value, key: string): Value
    requires v.Obj?
  {
    match Lookup(v.fields, key)
    case Some(x) => x
    case None => Null
  }

  /** Python's `key in v` for a string key: a dict tests its keys, a list its
      elements, a string its substrings; anything else raises. */
  function Contains(v: Value, key: string): (r: Result<bool>)
    ensures v.Obj? ==> r == Ok(key in Keys(v.fields))
    ensures v.Arr? ==> r == Ok(Str(key) in v.items)
    ensures r.Err? <==> v.Null? || v.Bool? || v.Num?
  {
    match v
    case Obj(fields) => Ok(key in Keys(fields))
    case Arr(items) => Ok(Str(key) in items)
    case Str(s) => Ok(ContainsText(s, key))
    case _ => Err("argument of type '" + TypeName(v) + "' is not iterable")
  }

  /** Python's `v[key]` for a string key that `key in v` has just found. */
  function Index(v: Value, key: string): (r: Result<Value>)
    requires Contains(v, key) == Ok(true)
    ensures v.Obj? ==> r.Ok? && Lookup(v.fields, key) == Some(r.value)
    ensures !v.Obj? ==> r.Err?
  {
    match v
    case Obj(fields) => Ok(Get(v, key))
    case Arr(_) => Err("list indices must be integers or slices, not str")
    case _ => Err("string indices must be integers, not 'str'")
  }

  /** type(v).__name__ */
  function TypeName(v: Value): string {
    match v
    case Null => "NoneType"
    case Bool(_) => "bool"
    case Num(_) => "int"
    case Str(_) => "str"
    case Arr(_) => "list"
    case Obj(_) => "dict"
  }

  /** Python's str(v): a string is itself, everything else is its repr. */
  function PyStr(v: Value): string {
    if v.Str? then v.s else PyRepr(v)
  }

  /** Python's repr(v). */
  function PyRepr(v: Value): string
    decreases v
  {
    match v
    case Null => "None"
    case Bool(b) => if b then "True" else "False"
    case Num(n) => IntToString(n)
    case Str(s) => QuoteString(s)
    case Arr(items) =>
      "[" + Join(", ", seq(|items|, i requires 0 <= i < |items| => PyRepr(items[i]))) + "]"
    case Obj(fields) =>
      "{" + Join(", ", seq(|fields|, i requires 0 <= i < |fields| =>
                             QuoteString(fields[i].0) + ": " + PyRepr(fields[i].1))) + "}"
  }

  function HexDigit(d: nat): char
    requires d < 16
  {
    if d < 10 then DigitChar(d) else ('a' as int + d - 10) as char
  }

  /** A character that repr() writes as a \xNN escape (ASCII controls, DEL,
      the C1 controls, no-break space and soft hyphen). */
  predicate EscapedAsHex(c: char) {
    c < ' ' || ('\U{007F}' <= c <= '\U{00A0}') || c == '\U{00AD}'
  }

  function EscapeChar(c: char, quote: char): string {
    if c == quote || c == '\\' then ['\\', c]
    else if c == '\t' then "\\t"
    else if c == '\n' then "\\n"
    else if c == '\r' then "\\r"
    else if EscapedAsHex(c) then "\\x" + [HexDigit(c as int / 16), HexDigit(c as int % 16)]
    else [c]
  }

  function EscapeString(s: string, quote: char): string {
    if s == [] then "" else EscapeChar(s[0], quote) + EscapeString(s[1..], quote)
  }

  /** repr() of a string: single quotes unless the text holds a single quote and no double quote. */
  function QuoteString(s: string): string {
    var quote := if '\'' in s && '"' !in s then '"' else '\'';
    [quote] + EscapeString(s, quote) + [quote]
  }
}
