/**
 * The PHP and WordPress coercions the plugin's server side applies to decoded
 * values: truthiness (`empty`), `isset`, `is_scalar`, the `(string)` cast,
 * `intval`/`absint`, `sanitize_key`, `sanitize_text_field`, and byte-wise
 * `substr`. A PHP string is a byte string; each byte is one `char` here.
 */
module Php {
  import opened Values

  const PhpWhitespace: set<char> := {' ', '\t', '\n', '\r', '\U{0B}', '\U{0C}'}

  predicate IsArray(v: Json)
  {
    v.JList? || v.JObject?
  }

  predicate IsScalar(v: Json)
  {
    v.JBool? || v.JInt? || v.JStr?
  }

  /** `isset($v[$key])`: the member exists and is not null. */
  predicate Isset(v: Json, key: string)
  {
    Get(v, key).Some? && Get(v, key).value != JNull
  }

  /** Reading `$v[$key]`, which yields null when the member is missing. */
  function Field(v: Json, key: string): (r: Json)
    ensures !Isset(v, key) <==> r == JNull
  {
    if Get(v, key).Some? then Get(v, key).value else JNull
  }

  /** `empty($x)`: null, false, 0, '', '0' and the empty array. */
  predicate IsEmpty(v: Json)
  {
    match v
    case JNull => true
    case JBool(b) => !b
    case JInt(i) => i == 0
    case JStr(s) => s == "" || s == "0"
    case JList(items) => |items| == 0
    case JObject(members) => |members| == 0
  }

  /** `!empty($v[$key])`, the coercion the plugin uses for every boolean flag. */
  predicate BoolField(v: Json, key: string)
  {
    !IsEmpty(Field(v, key))
  }

  // ---------------------------------------------------------------- digits

  predicate IsDigit(c: char)
  {
    '0' <= c <= '9'
  }

  predicate AllDigits(s: string)
  {
    forall i :: 0 <= i < |s| ==> IsDigit(s[i])
  }

  function DigitValue(c: char): nat
    requires IsDigit(c)
  {
    (c as int) - ('0' as int)
  }

  function DigitChar(d: nat): (c: char)
    requires d < 10
    ensures IsDigit(c) && DigitValue(c) == d
  {
    (('0' as int) + d) as char
  }

  /** The number a string of decimal digits denotes. */
  function DigitsValue(s: string): nat
    requires AllDigits(s)
    decreases |s|
  {
    if |s| == 0 then 0 else DigitsValue(s[..|s| - 1]) * 10 + DigitValue(s[|s| - 1])
  }

  /** The decimal representation PHP's `(string)` gives a non-negative integer. */
  function NatToString(n: nat): (s: string)
    ensures |s| > 0 && AllDigits(s)
    decreases n
  {
    if n < 10 then [DigitChar(n)] else NatToString(n / 10) + [DigitChar(n % 10)]
  }

  lemma {:induction false} DigitsValueOfNatToString(n: nat)
    ensures DigitsValue(NatToString(n)) == n
    decreases n
  {
    var s := NatToString(n);
    if n >= 10 {
      DigitsValueOfNatToString(n / 10);
      assert s[..|s| - 1] == NatToString(n / 10);
    }
  }

  /** A list as the PHP array it decodes to: its members under their decimal keys. */
  function Indexed(items: seq<Json>): (r: seq<(string, Json)>)
    ensures |r| == |items| && forall i :: 0 <= i < |items| ==> r[i] == (NatToString(i), items[i])
  {
    seq(|items|, i requires 0 <= i < |items| => (NatToString(i), items[i]))
  }

  /** The longest prefix of `s` made of digits. */
  function DigitPrefix(s: string): (r: string)
    ensures AllDigits(r) && |r| <= |s| && r == s[..|r|]
    ensures |r| < |s| ==> !IsDigit(s[|r|])
    decreases |s|
  {
    if |s| > 0 && IsDigit(s[0]) then
      var rest := DigitPrefix(s[1..]);
      assert rest == s[1..][..|rest|];
      assert [s[0]] + rest == s[..|rest| + 1];
      [s[0]] + rest
    else ""
  }

  lemma {:induction false} DigitPrefixOfDigits(s: string)
    requires AllDigits(s)
    ensures DigitPrefix(s) == s
    decreases |s|
  {
    if |s| > 0 {
      DigitPrefixOfDigits(s[1..]);
    }
  }

  function SkipWhitespace(s: string): (r: string)
    ensures |r| <= |s| && r == s[|s| - |r|..]
    ensures |r| > 0 ==> r[0] !in PhpWhitespace
    decreases |s|
  {
    if |s| > 0 && s[0] in PhpWhitespace then SkipWhitespace(s[1..]) else s
  }

  /** `intval` of a string: optional leading whitespace, an optional sign, then the leading digits. */
  function LeadingInt(s: string): int
  {
    var t := SkipWhitespace(s);
    if |t| > 0 && t[0] == '-' then -(DigitsValue(DigitPrefix(t[1..])) as int)
    else if |t| > 0 && t[0] == '+' then DigitsValue(DigitPrefix(t[1..]))
    else DigitsValue(DigitPrefix(t))
  }

  lemma LeadingIntOfNatToString(n: nat)
    ensures LeadingInt(NatToString(n)) == n
  {
    var s := NatToString(n);
    assert IsDigit(s[0]);
    assert s[0] !in PhpWhitespace;
    assert SkipWhitespace(s) == s;
    assert s[0] != '-' && s[0] != '+';
    DigitPrefixOfDigits(s);
    DigitsValueOfNatToString(n);
    assert LeadingInt(s) == DigitsValue(DigitPrefix(s));
  }

  function Pow10(k: nat): (r: nat)
    ensures r >= 1
  {
    if k == 0 then 1 else 10 * Pow10(k - 1)
  }

  lemma {:induction false} Pow10Monotone(j: nat, k: nat)
    requires j <= k
    ensures Pow10(j) <= Pow10(k)
    decreases k
  {
    if j < k {
      Pow10Monotone(j, k - 1);
    }
  }

  /** `k` digits denote a number below 10^k. */
  lemma {:induction false} DigitsValueBound(s: string)
    requires AllDigits(s)
    ensures DigitsValue(s) < Pow10(|s|)
    decreases |s|
  {
    if |s| > 0 {
      DigitsValueBound(s[..|s| - 1]);
    }
  }

  /** A number below 10^k prints in at most `k` digits. */
  lemma {:induction false} NatToStringLength(n: nat, k: nat)
    requires k >= 1 && n < Pow10(k)
    ensures |NatToString(n)| <= k
    decreases n
  {
    if n >= 10 {
      NatToStringLength(n / 10, k - 1);
    }
  }

  /** The integer `intval` reads from a string has fewer digits than the string has characters. */
  lemma LeadingIntBound(s: string)
    ensures Abs(LeadingInt(s)) < Pow10(|s|)
  {
    var t := SkipWhitespace(s);
    if |t| > 0 && (t[0] == '-' || t[0] == '+') {
      DigitsValueBound(DigitPrefix(t[1..]));
      Pow10Monotone(|DigitPrefix(t[1..])|, |s|);
    } else {
      DigitsValueBound(DigitPrefix(t));
      Pow10Monotone(|DigitPrefix(t)|, |s|);
    }
  }

  /** `intval($v)` for each decoded kind of value. */
  function IntVal(v: Json): int
  {
    match v
    case JNull => 0
    case JBool(b) => if b then 1 else 0
    case JInt(i) => i
    case JStr(s) => LeadingInt(s)
    case JList(items) => if |items| == 0 then 0 else 1
    case JObject(members) => if |members| == 0 then 0 else 1
  }

  function Abs(i: int): nat
  {
    if i < 0 then -i else i
  }

  /** WordPress `absint`: the magnitude of `intval`, so '-5' becomes 5. */
  function AbsInt(v: Json): nat
  {
    Abs(IntVal(v))
  }

  /** PHP's `(string)` cast of a decoded value (an array casts to 'Array'). */
  function ToStr(v: Json): string
  {
    match v
    case JNull => ""
    case JBool(b) => if b then "1" else ""
    case JInt(i) => if i < 0 then "-" + NatToString(-i) else NatToString(i)
    case JStr(s) => s
    case JList(_) => "Array"
    case JObject(_) => "Array"
  }

  // ---------------------------------------------------------------- sanitize_key

  /** The characters `sanitize_key` keeps. */
  predicate KeyChar(c: char)
  {
    'a' <= c <= 'z' || IsDigit(c) || c == '_' || c == '-'
  }

  predicate IsKey(s: string)
  {
    forall i :: 0 <= i < |s| ==> KeyChar(s[i])
  }

  function ToLower(c: char): char
  {
    if 'A' <= c <= 'Z' then ((c as int) + 32) as char else c
  }

  /** WordPress `sanitize_key`: lower-case ASCII letters, then drop everything but [a-z0-9_-]. */
  function SanitizeKey(s: string): (r: string)
    ensures IsKey(r) && |r| <= |s|
    decreases |s|
  {
    if |s| == 0 then ""
    else (if KeyChar(ToLower(s[0])) then [ToLower(s[0])] else []) + SanitizeKey(s[1..])
  }

  lemma {:induction false} SanitizeKeyOfKey(s: string)
    requires IsKey(s)
    ensures SanitizeKey(s) == s
    decreases |s|
  {
    if |s| > 0 {
      SanitizeKeyOfKey(s[1..]);
    }
  }

  /** `sanitize_key` is idempotent: sanitizing a key again changes nothing. */
  lemma SanitizeKeyIdempotent(s: string)
    ensures SanitizeKey(SanitizeKey(s)) == SanitizeKey(s)
  {
    SanitizeKeyOfKey(SanitizeKey(s));
  }

  /** `sanitize_key($v)`: a scalar is cast to a string first, anything else gives ''. */
  function SanitizeKeyValue(v: Json): (r: string)
    ensures IsKey(r)
  {
    if IsScalar(v) then SanitizeKey(ToStr(v)) else ""
  }

  // ---------------------------------------------------------------- sanitize_text_field

  /**
   * The characters the simplified `sanitize_text_field` keeps: everything but
   * control characters (line breaks, tabs, NUL) and the angle brackets that
   * open and close tags.
   */
  predicate TextChar(c: char)
  {
    c >= ' ' && c != '<' && c != '>'
  }

  predicate IsCleanText(s: string)
  {
    forall i :: 0 <= i < |s| ==> TextChar(s[i])
  }

  /** A simplification of WordPress `sanitize_text_field`: drops every character `TextChar` rejects. */
  function SanitizeTextField(s: string): (r: string)
    ensures IsCleanText(r) && |r| <= |s|
    decreases |s|
  {
    if |s| == 0 then ""
    else (if TextChar(s[0]) then [s[0]] else []) + SanitizeTextField(s[1..])
  }

  lemma {:induction false} SanitizeTextFieldOfClean(s: string)
    requires IsCleanText(s)
    ensures SanitizeTextField(s) == s
    decreases |s|
  {
    if |s| > 0 {
      SanitizeTextFieldOfClean(s[1..]);
    }
  }

  /** `substr($s, 0, $n)` when `strlen($s) > $n`, else `$s`: the byte-length cap. */
  function Truncate(s: string, n: nat): (r: string)
    ensures |r| <= n && |r| <= |s| && r == s[..|r|]
    ensures |s| <= n ==> r == s
    ensures |s| > n ==> |r| == n
  {
    if |s| > n then s[..n] else s
  }

  /** Keys and decimal numbers contain nothing `sanitize_text_field` removes. */
  lemma KeysAreClean(s: string)
    requires IsKey(s) || AllDigits(s)
    ensures IsCleanText(s)
  {
    assert forall i :: 0 <= i < |s| ==> TextChar(s[i]) by {
      forall i | 0 <= i < |s|
        ensures TextChar(s[i])
      {
        assert KeyChar(s[i]) || IsDigit(s[i]);
      }
    }
  }

  lemma TruncateKeepsClean(s: string, n: nat)
    requires IsCleanText(s)
    ensures IsCleanText(Truncate(s, n))
  {
  }

  /** The string comparison PHP 8 applies to two non-numeric strings: byte-wise lexicographic order. */
  predicate LexLess(a: string, b: string)
    decreases |a|
  {
    if |b| == 0 then false
    else if |a| == 0 then true
    else if a[0] != b[0] then a[0] < b[0]
    else LexLess(a[1..], b[1..])
  }

  lemma {:induction false} LexLessIrreflexive(a: string)
    ensures !LexLess(a, a)
    decreases |a|
  {
    if |a| > 0 {
      LexLessIrreflexive(a[1..]);
    }
  }

  lemma {:induction false} LexLessAsymmetric(a: string, b: string)
    requires LexLess(a, b)
    ensures !LexLess(b, a)
    decreases |a|
  {
    if |a| > 0 && |b| > 0 && a[0] == b[0] {
      LexLessAsymmetric(a[1..], b[1..]);
    }
  }

  lemma {:induction false} LexLessTrichotomy(a: string, b: string)
    ensures a == b || LexLess(a, b) || LexLess(b, a)
    decreases |a|
  {
    if |a| > 0 && |b| > 0 && a[0] == b[0] {
      LexLessTrichotomy(a[1..], b[1..]);
      if a[1..] == b[1..] {
        assert a == [a[0]] + a[1..] && b == [b[0]] + b[1..];
      }
    }
  }
}
