/** The few PHP language rules the client depends on: dynamically typed
    values, `empty`, `is_array`, `is_numeric`, `strtolower`, `trim`, string
    conversion, and deterministic stand-ins for `json_encode` and
    `http_build_query`. */
module Php {
  import opened Wrappers

  /** A PHP value as the client receives it from its callers. PHP arrays
      are either lists (keys 0, 1, ...) or string-keyed maps. */
  datatype Value =
    | Null
    | Int(n: int)
    | Str(s: string)
    | List(items: seq<Value>)
    | Assoc(entries: seq<(string, Value)>)

  /** `empty($s)` on a string: the empty string and "0" are empty. */
  predicate EmptyString(s: string) {
    s == "" || s == "0"
  }

  /** `empty($v)` on any value. */
  predicate Empty(v: Value) {
    match v
    case Null => true
    case Int(n) => n == 0
    case Str(s) => EmptyString(s)
    case List(items) => |items| == 0
    case Assoc(entries) => |entries| == 0
  }

  predicate IsArray(v: Value) {
    v.List? || v.Assoc?
  }

  predicate IsDigit(c: char) {
    '0' <= c <= '9'
  }

  /** A string of decimal digits, optionally signed. This is narrower than
      PHP's `is_numeric`, which also accepts fractions, exponents and
      surrounding whitespace. */
  predicate NumericString(s: string) {
    var digits := if |s| > 0 && (s[0] == '-' || s[0] == '+') then s[1..] else s;
    |digits| > 0 && forall i :: 0 <= i < |digits| ==> IsDigit(digits[i])
  }

  /** `is_numeric($v)`: integers always, strings when they read as a number. */
  predicate IsNumeric(v: Value) {
    match v
    case Int(_) => true
    case Str(s) => NumericString(s)
    case _ => false
  }

  function LowerChar(c: char): char {
    if 'A' <= c <= 'Z' then (c as int + 32) as char else c
  }

  /** `strtolower` on ASCII letters. */
  function Lower(s: string): (r: string)
    ensures |r| == |s|
    ensures forall i :: 0 <= i < |s| ==> r[i] == LowerChar(s[i])
  {
    seq(|s|, i requires 0 <= i < |s| => LowerChar(s[i]))
  }

  /** The characters PHP's `trim` strips by default. */
  predicate TrimmedChar(c: char) {
    c == ' ' || c == '\t' || c == '\n' || c == '\r' || c == '\0' || c == '\U{000B}'
  }

  function TrimLeft(s: string): string
    decreases |s|
  {
    if |s| > 0 && TrimmedChar(s[0]) then TrimLeft(s[1..]) else s
  }

  function TrimRight(s: string): string
    decreases |s|
  {
    if |s| > 0 && TrimmedChar(s[|s| - 1]) then TrimRight(s[..|s| - 1]) else s
  }

  /** `trim($s)`. */
  function Trim(s: string): string {
    TrimRight(TrimLeft(s))
  }

  function DigitChar(d: nat): char
    requires d < 10
  {
    ('0' as int + d) as char
  }

  function NatText(n: nat): string
    decreases n
  {
    if n < 10 then [DigitChar(n)] else NatText(n / 10) + [DigitChar(n % 10)]
  }

  /** Decimal text of an integer, as PHP's string conversion writes it. */
  function IntText(n: int): string {
    if n < 0 then "-" + NatText(-n) else NatText(n)
  }

  /** String conversion `(string)$v` of a value; PHP turns any array into
      the text "Array". */
  function Text(v: Value): string {
    match v
    case Null => ""
    case Int(n) => IntText(n)
    case Str(s) => s
    case List(_) => "Array"
    case Assoc(_) => "Array"
  }

  function Join(parts: seq<string>, sep: string): string
    decreases |parts|
  {
    if |parts| == 0 then ""
    else if |parts| == 1 then parts[0]
    else parts[0] + sep + Join(parts[1..], sep)
  }

  /** The first value stored under `key` in a string-keyed array. */
  function Lookup(entries: seq<(string, Value)>, key: string): Option<Value>
    decreases |entries|
  {
    if |entries| == 0 then None
    else if entries[0].0 == key then Some(entries[0].1)
    else Lookup(entries[1..], key)
  }

  /** A deterministic stand-in for `json_encode`: lists become JSON arrays,
      string-keyed arrays become JSON objects, and the empty array is "[]".
      String escaping is not modelled. */
  function JsonEncode(v: Value): string
    decreases v
  {
    match v
    case Null => "null"
    case Int(n) => IntText(n)
    case Str(s) => "\"" + s + "\""
    case List(items) =>
      "[" + Join(seq(|items|, i requires 0 <= i < |items| => JsonEncode(items[i])), ",") + "]"
    case Assoc(entries) =>
      if |entries| == 0 then "[]"
      else
        "{" + Join(seq(|entries|, i requires 0 <= i < |entries| =>
                         assert entries[i] in entries;
                         "\"" + entries[i].0 + "\":" + JsonEncode(entries[i].1)), ",") + "}"
  }

  /** The text of one query-string field; a nested array is written with
      JsonEncode instead of PHP's bracketed keys. */
  function FieldText(v: Value): string {
    if IsArray(v) then JsonEncode(v) else Text(v)
  }

  /** `key=value` for every entry whose value is not null, in order. */
  function QueryFields(entries: seq<(string, Value)>): seq<string>
    decreases |entries|
  {
    if |entries| == 0 then []
    else
      (if entries[0].1.Null? then [] else [entries[0].0 + "=" + FieldText(entries[0].1)])
      + QueryFields(entries[1..])
  }

  /** A deterministic stand-in for `http_build_query`: list positions are
      the keys of a list, fields are joined with "&", and percent-encoding is
      not modelled. */
  function BuildQuery(v: Value): string
    requires IsArray(v)
  {
    var entries := if v.Assoc? then v.entries
                   else seq(|v.items|, i requires 0 <= i < |v.items| => (IntText(i), v.items[i]));
    Join(QueryFields(entries), "&")
  }

  /** Looking a key up in two arrays laid end to end finds it in the first
      when it is there, and in the second otherwise. */
  lemma {:induction false} LookupAppend(xs: seq<(string, Value)>, ys: seq<(string, Value)>, key: string)
    ensures Lookup(xs + ys, key) == if Lookup(xs, key).Some? then Lookup(xs, key) else Lookup(ys, key)
    decreases |xs|
  {
    if |xs| == 0 {
      assert xs + ys == ys;
    } else {
      assert (xs + ys)[1..] == xs[1..] + ys;
      LookupAppend(xs[1..], ys, key);
    }
  }
}
