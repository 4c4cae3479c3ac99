/**
 * PHP's dynamic values, as far as the plugins and widgets rely on them:
 * truthiness (`empty`), the `(int)` cast, string interpolation, and the
 * few string builtins the code calls (strtolower, str_replace of one
 * character, trim with a character list, strpos as a prefix or substring
 * test).
 */
module Php {

  datatype Option<+T> = None | Some(value: T)

  /** A PHP value. `Arr` is an array with string keys, `List` one with
      consecutive integer keys, and `Json` the string json_encode produces
      for its payload (its text is not modelled). */
  datatype Value =
    | Null
    | Bool(b: bool)
    | Int(i: int)
    | Str(s: string)
    | List(items: seq<Value>)
    | Arr(fields: map<string, Value>)
    | Json(payload: Value)

  /** An associative array of arguments, such as the args of a request. */
  type Args = map<string, Value>

  /** All meta of one object: each key holds the list of its stored rows. */
  type Meta = map<string, seq<Value>>

  /** PHP truthiness; `empty($v)` is its negation. */
  predicate Truthy(v: Value)
  {
    match v
    case Null => false
    case Bool(b) => b
    case Int(i) => i != 0
    case Str(s) => s != "" && s != "0"
    case List(items) => |items| > 0
    case Arr(fields) => |fields| > 0
    case Json(_) => true
  }

  /** `$a[$k]`, null when the key is missing. */
  function Get(a: Args, k: string): Value
  {
    if k in a then a[k] else Null
  }

  /** `isset($a[$k])`: the key is there and its value is not null. */
  predicate IsSet(a: Args, k: string)
  {
    k in a && a[k] != Null
  }

  predicate IsDigit(c: char)
  {
    '0' <= c <= '9'
  }

  /** The number spelled by the longest run of decimal digits at the start of `s`. */
  function DigitsValue(s: string, acc: nat): nat
    decreases |s|
  {
    if |s| > 0 && IsDigit(s[0]) then DigitsValue(s[1..], acc * 10 + (s[0] as int - '0' as int))
    else acc
  }

  predicate IsSpace(c: char)
  {
    c == ' ' || c == '\t' || c == '\n' || c == '\r' || c == '\U{000B}' || c == '\U{000C}'
  }

  function TrimLeadingSpace(s: string): string
    decreases |s|
  {
    if |s| > 0 && IsSpace(s[0]) then TrimLeadingSpace(s[1..]) else s
  }

  /** The bounds of a 64-bit PHP integer. */
  const IntMax: int := 0x7FFF_FFFF_FFFF_FFFF
  const IntMin: int := -0x8000_0000_0000_0000

  /** A numeric string out of range saturates at PHP_INT_MAX or PHP_INT_MIN. */
  function Saturate(x: int): (r: int)
    ensures IntMin <= r <= IntMax
    ensures IntMin <= x <= IntMax ==> r == x
  {
    if x > IntMax then IntMax else if x < IntMin then IntMin else x
  }

  /** `(int)` of a string: leading white space, an optional sign, then digits, saturated to 64 bits. */
  function StrToInt(s: string): int
  {
    var t := TrimLeadingSpace(s);
    if |t| > 0 && t[0] == '-' then Saturate(0 - DigitsValue(t[1..], 0))
    else if |t| > 0 && t[0] == '+' then Saturate(DigitsValue(t[1..], 0))
    else Saturate(DigitsValue(t, 0))
  }

  /** PHP's `(int)` cast and `intval`. */
  function IntOf(v: Value): int
  {
    match v
    case Null => 0
    case Bool(b) => if b then 1 else 0
    case Int(i) => i
    case Str(s) => StrToInt(s)
    case List(items) => if |items| == 0 then 0 else 1
    case Arr(fields) => if |fields| == 0 then 0 else 1
    case Json(_) => 0
  }

  function DigitChar(d: nat): char
    requires d < 10
  {
    ('0' as int + d) as char
  }

  /** The decimal spelling of a natural number. */
  function NatToString(n: nat): (r: string)
    ensures |r| > 0
    ensures forall k :: 0 <= k < |r| ==> IsDigit(r[k])
  {
    if n < 10 then [DigitChar(n)] else NatToString(n / 10) + [DigitChar(n % 10)]
  }

  /** The decimal spelling of an integer, as string interpolation writes it. */
  function IntToString(i: int): (r: string)
    ensures |r| > 0
  {
    if i < 0 then "-" + NatToString(-i) else NatToString(i)
  }

  /** String interpolation `"{$v}"` of a value. */
  function StrOf(v: Value): string
  {
    match v
    case Null => ""
    case Bool(b) => if b then "1" else ""
    case Int(i) => IntToString(i)
    case Str(s) => s
    case List(_) => "Array"
    case Arr(_) => "Array"
    case Json(_) => ""
  }

  predicate StartsWith(s: string, prefix: string)
  {
    |prefix| <= |s| && s[..|prefix|] == prefix
  }

  /** `strpos($s, $sub) !== false`. */
  predicate Contains(s: string, sub: string)
    decreases |s|
  {
    StartsWith(s, sub) || (|s| > 0 && Contains(s[1..], sub))
  }

  predicate IsUpper(c: char)
  {
    'A' <= c <= 'Z'
  }

  function LowerChar(c: char): (r: char)
    ensures !IsUpper(r)
  {
    if IsUpper(c) then (c as int + 32) as char else c
  }

  /** strtolower: ASCII letters only. */
  function Lower(s: string): (r: string)
    ensures |r| == |s|
    ensures forall k :: 0 <= k < |r| ==> !IsUpper(r[k])
  {
    seq(|s|, k requires 0 <= k < |s| => LowerChar(s[k]))
  }

  /** str_replace of one character by another. */
  function ReplaceChar(s: string, from: char, to: char): (r: string)
    ensures |r| == |s|
    ensures from != to ==> forall k :: 0 <= k < |r| ==> r[k] != from
  {
    seq(|s|, k requires 0 <= k < |s| => if s[k] == from then to else s[k])
  }

  function TrimLeft(s: string, c: char): string
    decreases |s|
  {
    if |s| > 0 && s[0] == c then TrimLeft(s[1..], c) else s
  }

  function TrimRight(s: string, c: char): string
    decreases |s|
  {
    if |s| > 0 && s[|s| - 1] == c then TrimRight(s[..|s| - 1], c) else s
  }

  /** `trim($s, $c)` for a single character `c`. */
  function Trim(s: string, c: char): string
  {
    TrimRight(TrimLeft(s, c), c)
  }

  /** `$list[0]`, or null when the list is empty. */
  function First(values: seq<Value>): Value
  {
    if |values| > 0 then values[0] else Null
  }

  /** get_*_meta($id, $key, true): the first row, or '' when there is none. */
  function GetSingle(m: Meta, key: string): Value
  {
    if key in m && |m[key]| > 0 then m[key][0] else Str("")
  }

  /** The meta of object `id` in a store, empty when it has none. */
  function MetaOf(store: map<int, Meta>, id: int): Meta
  {
    if id in store then store[id] else map[]
  }

  /** wp_parse_args($args, $defaults): the caller's keys win. */
  function ParseArgs(args: Args, defaults: Args): Args
  {
    defaults + args
  }
}
