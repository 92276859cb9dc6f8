/** JavaScript values as the handlers and models see them, and the few
    built-in string operations the core relies on (truthiness, `||`,
    `String(v)`, `indexOf`, `includes`, `replace` with a string pattern,
    `parseInt`). */
module Js {

  datatype Option<+T> = None | Some(value: T)

  /** A JavaScript value. Numbers are modelled as integers. */
  datatype Value =
    | Undefined
    | Null
    | Bool(b: bool)
    | Num(n: int)
    | Str(s: string)
    | Arr(items: seq<Value>)
    | Object(fields: map<string, Value>)

  /** `Number.MAX_SAFE_INTEGER`, 2^53 - 1: the largest integer a double
      holds exactly, together with all smaller ones. */
  const MAX_SAFE_INTEGER: int := 0x1F_FFFF_FFFF_FFFF

  /** `Number.isSafeInteger` for an integer. */
  predicate IsSafeInteger(n: int)
  {
    -MAX_SAFE_INTEGER <= n <= MAX_SAFE_INTEGER
  }

  /** A plain object: request bodies, query objects, database rows, filters. */
  type Obj = map<string, Value>

  /** `o.key`: a missing property reads as undefined. */
  function Get(o: Obj, key: string): Value
  {
    if key in o then o[key] else Undefined
  }

  /** `s.length`: the number of UTF-16 code units, two for each character
      outside the Basic Multilingual Plane. */
  function Utf16Length(s: string): (n: nat)
    ensures |s| <= n <= 2 * |s|
    ensures (forall i :: 0 <= i < |s| ==> s[i] as int <= 0xFFFF) ==> n == |s|
  {
    if s == [] then 0 else (if s[0] as int > 0xFFFF then 2 else 1) + Utf16Length(s[1..])
  }

  /** JavaScript truthiness (`if (v)`, `!v`). */
  predicate Truthy(v: Value)
  {
    match v
    case Undefined => false
    case Null => false
    case Bool(b) => b
    case Num(n) => n != 0
    case Str(s) => s != ""
    case Arr(_) => true
    case Object(_) => true
  }

  /** `a || b` */
  function Or(a: Value, b: Value): (r: Value)
    ensures Truthy(a) ==> r == a
    ensures !Truthy(a) ==> r == b
  {
    if Truthy(a) then a else b
  }

  /** `v.key` on any value: None when `v` is null or undefined (a TypeError). */
  function Member(v: Value, key: string): (r: Option<Value>)
    ensures r.None? <==> v == Null || v == Undefined
  {
    match v
    case Undefined => None
    case Null => None
    case Object(m) => Some(Get(m, key))
    case _ => Some(Undefined)
  }

  /** `req.user?.id` for an optional user row. */
  function OptionalId(user: Option<Obj>): (r: Value)
    ensures user.None? ==> r == Undefined
  {
    match user
    case None => Undefined
    case Some(u) => Get(u, "id")
  }

  // ---------------------------------------------------------------- strings

  function DigitChar(d: nat): char
    requires d < 10
  {
    "0123456789"[d]
  }

  /** Decimal digits of a natural number, most significant first. */
  function NatToString(n: nat): string
    decreases n
  {
    if n < 10 then [DigitChar(n)] else NatToString(n / 10) + [DigitChar(n % 10)]
  }

  /** `String(n)` for an integer. */
  function IntToString(n: int): string
  {
    if n < 0 then "-" + NatToString(-n) else NatToString(n)
  }

  lemma {:induction false} NatToStringLong(n: nat)
    requires n >= 10
    ensures |NatToString(n)| >= 2
  {
    if n / 10 >= 10 {
      NatToStringLong(n / 10);
    }
  }

  /** Only 0 prints as "0" and only 1 prints as "1". */
  lemma IntToStringSingleDigit(n: int)
    ensures IntToString(n) == "0" <==> n == 0
    ensures IntToString(n) == "1" <==> n == 1
  {
    if n < 0 {
      assert IntToString(n)[0] == '-';
    } else if n >= 10 {
      NatToStringLong(n);
    } else {
      assert IntToString(n) == [DigitChar(n)];
    }
  }

  /** `String(v)` (also the conversion of a value used as a property key). */
  function ToJsString(v: Value): string
    decreases v, 1
  {
    match v
    case Undefined => "undefined"
    case Null => "null"
    case Bool(b) => if b then "true" else "false"
    case Num(n) => IntToString(n)
    case Str(s) => s
    case Arr(items) => JoinElements(v, items)
    case Object(_) => "[object Object]"
  }

  /** `items.join(",")`, where null and undefined elements print as "". */
  function JoinElements(whole: Value, items: seq<Value>): string
    requires forall i :: 0 <= i < |items| ==> items[i] < whole
    decreases whole, 0, |items|
  {
    if items == [] then ""
    else
      var first := if items[0] == Null || items[0] == Undefined then "" else ToJsString(items[0]);
      if |items| == 1 then first else first + "," + JoinElements(whole, items[1..])
  }

  /** `parts.join(sep)` */
  function Join(parts: seq<string>, sep: string): string
  {
    if parts == [] then "" else if |parts| == 1 then parts[0] else parts[0] + sep + Join(parts[1..], sep)
  }

  predicate StartsWith(s: string, prefix: string)
  {
    |prefix| <= |s| && s[..|prefix|] == prefix
  }

  /** `s.indexOf(pattern)`: the first index where `pattern` occurs, or None (-1). */
  function IndexOf(s: string, pattern: string): (r: Option<nat>)
    ensures r.Some? ==> r.value + |pattern| <= |s|
    decreases |s|
  {
    if StartsWith(s, pattern) then Some(0)
    else if s == [] then None
    else match IndexOf(s[1..], pattern)
      case None => None
      case Some(i) => Some(i + 1)
  }

  /** `pattern` occurs in `s` at index `i`. */
  predicate OccursAt(s: string, pattern: string, i: int)
  {
    0 <= i && i + |pattern| <= |s| && s[i..i + |pattern|] == pattern
  }

  /** IndexOf finds an occurrence, and none earlier; None means no occurrence at all. */
  lemma {:induction false} IndexOfIsFirst(s: string, pattern: string)
    ensures IndexOf(s, pattern).Some? ==> OccursAt(s, pattern, IndexOf(s, pattern).value)
    ensures forall j :: 0 <= j < (if IndexOf(s, pattern).Some? then IndexOf(s, pattern).value else |s| + 1)
                        ==> !OccursAt(s, pattern, j)
    decreases |s|
  {
    if StartsWith(s, pattern) {
    } else if s == [] {
    } else {
      IndexOfIsFirst(s[1..], pattern);
      forall j | 1 <= j && OccursAt(s, pattern, j)
        ensures OccursAt(s[1..], pattern, j - 1)
      {
        assert s[1..][j - 1..j - 1 + |pattern|] == s[j..j + |pattern|];
      }
      forall j | 0 <= j < |s[1..]| + 1 && OccursAt(s[1..], pattern, j)
        ensures OccursAt(s, pattern, j + 1)
      {
        assert s[1..][j..j + |pattern|] == s[j + 1..j + 1 + |pattern|];
      }
    }
  }

  /** `s.includes(pattern)` */
  predicate Includes(s: string, pattern: string)
  {
    IndexOf(s, pattern).Some?
  }

  lemma IncludesIff(s: string, pattern: string)
    ensures Includes(s, pattern) <==> exists i :: OccursAt(s, pattern, i)
  {
    IndexOfIsFirst(s, pattern);
    if exists i :: OccursAt(s, pattern, i) {
      var i :| OccursAt(s, pattern, i);
      assert i < |s| + 1;
    }
  }

  /** `s.replace(pattern, replacement)` with a string pattern: only the first
      occurrence is replaced, wherever it is. */
  function ReplaceFirst(s: string, pattern: string, replacement: string): string
  {
    match IndexOf(s, pattern)
    case None => s
    case Some(i) => s[..i] + replacement + s[i + |pattern|..]
  }

  /** A string that starts with the pattern loses exactly that prefix. */
  lemma ReplaceFirstAtStart(pattern: string, rest: string, replacement: string)
    ensures ReplaceFirst(pattern + rest, pattern, replacement) == replacement + rest
  {
    var s := pattern + rest;
    assert s[..|pattern|] == pattern;
    assert IndexOf(s, pattern) == Some(0);
    assert s[|pattern|..] == rest;
  }

  /** A string in which the pattern does not occur is returned unchanged. */
  lemma ReplaceFirstWithoutMatch(s: string, pattern: string, replacement: string)
    requires forall i :: !OccursAt(s, pattern, i)
    ensures ReplaceFirst(s, pattern, replacement) == s
  {
    IndexOfIsFirst(s, pattern);
  }

  /** `parseInt(s)` for a string: optional leading blanks and sign, then the
      longest run of decimal digits; None is NaN. */
  function ParseInt(s: string): (r: Option<int>)
  {
    var t := SkipBlanks(s);
    if t != [] && (t[0] == '-' || t[0] == '+') then
      match DigitsPrefix(t[1..], 0, false)
      case None => None
      case Some(v) => var n: int := v; Some(if t[0] == '-' then -n else n)
    else DigitsPrefix(t, 0, false)
  }

  function SkipBlanks(s: string): string
  {
    if s != [] && s[0] in {' ', '\t', '\n', '\r'} then SkipBlanks(s[1..]) else s
  }

  /** Reads the leading digits of `s`, accumulating into `acc`. */
  function DigitsPrefix(s: string, acc: nat, seen: bool): Option<nat>
  {
    if s != [] && '0' <= s[0] <= '9' then DigitsPrefix(s[1..], acc * 10 + (s[0] as int - '0' as int), true)
    else if seen then Some(acc) else None
  }
}
