/**
 * The slice of PHP that the SDK relies on: a tagged value type standing for
 * the mixed values stored in configuration arrays and request payloads, and
 * the builtins the SDK applies to them (`empty`, the `(bool)` and `(int)`
 * casts, scalar-to-string coercion, `rtrim`/`ltrim` with a one-character
 * mask, `array_merge` on string keys, `$a[$k]` and `$a[$k] ?? $d`).
 */
module Php {
  import opened Wrappers

  /** A PHP value. Lists and string-keyed arrays are both PHP arrays. */
  datatype Value =
    | Null
    | Bool(b: bool)
    | Int(i: int)
    | Str(s: string)
    | List(items: seq<Value>)
    | Dict(entries: map<string, Value>)

  /** `empty($s)` for a string: the empty string and "0" are both empty. */
  predicate IsEmptyString(s: string)
    ensures IsEmptyString(s) <==> |s| == 0 || (|s| == 1 && s[0] == '0')
  {
    s == "" || s == "0"
  }

  /** PHP `empty($v)`, case by case as the language manual lists it. */
  predicate Empty(v: Value)
    ensures Empty(v) <==>
      v == Null || v == Bool(false) || v == Int(0) || v == Str("") || v == Str("0")
      || v == List([]) || v == Dict(map[])
  {
    match v
    case Null => true
    case Bool(b) => b == false
    case Int(i) => i == 0
    case Str(s) => IsEmptyString(s)
    case List(items) => |items| == 0
    case Dict(entries) => |entries| == 0
  }

  /** `empty($a[$k])`: an absent key is empty too, and raises no notice. */
  predicate EmptyAt(a: map<string, Value>, k: string)
    ensures EmptyAt(a, k) <==> Empty(Index(a, k))
  {
    k !in a || Empty(a[k])
  }

  /** The `(bool)` cast: PHP's truthiness, which is the negation of `empty`. */
  function ToBool(v: Value): (r: bool)
    ensures r <==> !Empty(v)
  {
    match v
    case Null => false
    case Bool(b) => b
    case Int(i) => i != 0
    case Str(s) => s != "" && s != "0"
    case List(items) => items != []
    case Dict(entries) => entries != map[]
  }

  /** `$a[$k]`: an undefined index reads as null (PHP also emits a warning). */
  function Index(a: map<string, Value>, k: string): (r: Value)
    ensures k in a ==> r == a[k]
    ensures k !in a ==> r.Null?
  {
    if k in a then a[k] else Null
  }

  /** `$a[$k] ?? $d`: the stored value unless the key is absent or holds null. */
  function Coalesce(a: map<string, Value>, k: string, d: Value): (r: Value)
    ensures k in a && !a[k].Null? ==> r == a[k]
    ensures k !in a || a[k].Null? ==> r == d
  {
    match Index(a, k)
    case Null => d
    case v => v
  }

  /** `array_merge($base, $over)` on string keys: every key of `$over` takes
      its value from `$over`, every other key of `$base` keeps its own. */
  function ArrayMerge(base: map<string, Value>, over: map<string, Value>): (r: map<string, Value>)
    ensures r.Keys == base.Keys + over.Keys
    ensures forall k :: k in over ==> r[k] == over[k]
    ensures forall k :: k in base && k !in over ==> r[k] == base[k]
  {
    base + over
  }

  /** `rtrim($s, $c)` for a one-character mask: the longest prefix of `s` that
      does not end in `c`. */
  function TrimRight(s: string, c: char): (r: string)
    ensures |r| <= |s| && r == s[..|r|]
    ensures |r| == 0 || r[|r| - 1] != c
    ensures forall i :: |r| <= i < |s| ==> s[i] == c
    decreases |s|
  {
    if |s| > 0 && s[|s| - 1] == c then TrimRight(s[..|s| - 1], c) else s
  }

  /** `ltrim($s, $c)` for a one-character mask: the longest suffix of `s` that
      does not start with `c`. */
  function TrimLeft(s: string, c: char): (r: string)
    ensures |r| <= |s| && r == s[|s| - |r|..]
    ensures |r| == 0 || r[0] != c
    ensures forall i :: 0 <= i < |s| - |r| ==> s[i] == c
    ensures (|s| == 0 || s[0] != c) ==> r == s
    decreases |s|
  {
    if |s| > 0 && s[0] == c then TrimLeft(s[1..], c) else s
  }

  /** A run of `n` copies of `c`. */
  function Repeat(c: char, n: nat): (r: string)
    ensures |r| == n && forall i :: 0 <= i < n ==> r[i] == c
  {
    seq(n, _ => c)
  }

  /** Characters that mark a number in a numeric string. */
  predicate IsDigit(c: char)
  {
    '0' <= c <= '9'
  }

  predicate AllDigits(s: string)
  {
    forall i :: 0 <= i < |s| ==> IsDigit(s[i])
  }

  /** The whitespace PHP skips before a numeric string: space, \t, \n, \r, \v, \f. */
  predicate IsWhitespace(c: char)
  {
    c == ' ' || c == '\t' || c == '\n' || c == '\r' || c == '\U{B}' || c == '\U{C}'
  }

  /** `s` with its leading whitespace removed. */
  function SkipWhitespace(s: string): (r: string)
    ensures |r| <= |s| && r == s[|s| - |r|..]
    ensures |r| == 0 || !IsWhitespace(r[0])
    ensures forall i :: 0 <= i < |s| - |r| ==> IsWhitespace(s[i])
  {
    if |s| > 0 && IsWhitespace(s[0]) then SkipWhitespace(s[1..]) else s
  }

  /** The longest prefix of `s` made of decimal digits. */
  function LeadingDigits(s: string): (r: string)
    ensures |r| <= |s| && r == s[..|r|]
    ensures AllDigits(r)
    ensures |r| == |s| || !IsDigit(s[|r|])
  {
    if |s| > 0 && IsDigit(s[0]) then [s[0]] + LeadingDigits(s[1..]) else []
  }

  /** The number a string of decimal digits denotes, most significant first. */
  function DigitsValue(ds: string): nat
    requires AllDigits(ds)
  {
    if ds == [] then 0
    else DigitsValue(ds[..|ds| - 1]) * 10 + (ds[|ds| - 1] as int - '0' as int)
  }

  /** The decimal digits of `n`, without leading zeros ("0" for zero). */
  function Digits(n: nat): (r: string)
    ensures |r| > 0 && AllDigits(r)
    ensures |r| > 1 ==> r[0] != '0'
  {
    if n < 10 then [('0' as int + n) as char]
    else Digits(n / 10) + [('0' as int + n % 10) as char]
  }

  /** How PHP writes an integer as a string. */
  function DecimalString(i: int): (r: string)
    ensures |r| > 0
    ensures i >= 0 ==> r == Digits(i)
    ensures i < 0 ==> r == "-" + Digits(-i)
  {
    if i < 0 then "-" + Digits(-i) else Digits(i)
  }

  /** `(int)` of a string: leading whitespace, an optional sign, then as many
      decimal digits as follow; no digits gives 0. */
  function StringToInt(s: string): int
  {
    var t := SkipWhitespace(s);
    if |t| > 0 && t[0] == '-' then -(DigitsValue(LeadingDigits(t[1..])) as int)
    else if |t| > 0 && t[0] == '+' then DigitsValue(LeadingDigits(t[1..]))
    else DigitsValue(LeadingDigits(t))
  }

  /** The `(int)` cast. */
  function ToInt(v: Value): (r: int)
    ensures v.Int? ==> r == v.i
    ensures v.Bool? ==> r == (if v.b then 1 else 0)
    ensures v.Str? ==> r == StringToInt(v.s)
    ensures (v.Null? || v.List? || v.Dict?) ==> r == (if Empty(v) then 0 else 1)
  {
    match v
    case Null => 0
    case Bool(b) => if b then 1 else 0
    case Int(i) => i
    case Str(s) => StringToInt(s)
    case List(items) => if items == [] then 0 else 1
    case Dict(entries) => if entries == map[] then 0 else 1
  }

  /** A scalar written as a string: true is "1", false is "", integers in decimal.
      Arrays have no string form (PHP raises a TypeError). */
  function ScalarString(v: Value): (r: Option<string>)
    ensures r.None? <==> v.Null? || v.List? || v.Dict?
    ensures v.Str? ==> r == Some(v.s)
  {
    match v
    case Bool(b) => Some(if b then "1" else "")
    case Int(i) => Some(DecimalString(i))
    case Str(s) => Some(s)
    case _ => None
  }

  /** A value passed to a `string` parameter of a builtin such as `rtrim`, in
      coercive typing mode: null becomes "" (deprecated since PHP 8.1). */
  function StringArgument(v: Value): (r: Option<string>)
    ensures r.None? <==> v.List? || v.Dict?
    ensures v.Null? ==> r == Some("")
    ensures v.Str? ==> r == Some(v.s)
    ensures v.Int? ==> r == Some(DecimalString(v.i))
    ensures v.Bool? ==> r == Some(if v.b then "1" else "")
  {
    if v.Null? then Some("") else ScalarString(v)
  }

  /** A value returned from a function declared `: string`, in coercive
      typing mode: null and arrays raise a TypeError. */
  function StringReturn(v: Value): (r: Option<string>)
    ensures r.None? <==> v.Null? || v.List? || v.Dict?
    ensures v.Str? ==> r == Some(v.s)
    ensures v.Int? ==> r == Some(DecimalString(v.i))
    ensures v.Bool? ==> r == Some(if v.b then "1" else "")
  {
    ScalarString(v)
  }

  /** A string of digits is its own numeric prefix. */
  lemma LeadingDigitsOfDigits(ds: string)
    requires AllDigits(ds)
    ensures LeadingDigits(ds) == ds
  {
  }

  lemma {:induction false} DigitsValueOfDigits(n: nat)
    ensures DigitsValue(Digits(n)) == n
  {
    if n >= 10 {
      DigitsValueOfDigits(n / 10);
      var ds := Digits(n);
      assert ds[..|ds| - 1] == Digits(n / 10);
    }
  }

  /** Reading back the decimal form of an integer with `(int)` gives the
      integer: PHP's two coercions are inverse to each other. */
  lemma DecimalStringRoundTrip(i: int)
    ensures StringToInt(DecimalString(i)) == i
    ensures ToInt(Str(DecimalString(i))) == i
  {
    var n: nat := if i < 0 then -i else i;
    var ds := Digits(n);
    LeadingDigitsOfDigits(ds);
    DigitsValueOfDigits(n);
    var s := DecimalString(i);
    assert !IsWhitespace(s[0]);
    assert SkipWhitespace(s) == s;
    if i < 0 {
      assert s[1..] == ds;
    } else {
      assert IsDigit(s[0]);
    }
  }

  /** The round trip for every integer at once. */
  lemma DecimalStringRoundTripAll()
    ensures forall i :: StringToInt(DecimalString(i)) == i
  {
    forall i {
      DecimalStringRoundTrip(i);
    }
  }

}
