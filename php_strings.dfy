/** The string functions of PHP the framework relies on: decimal text of
    integers, canonical integer keys, `implode`, ASCII case mapping. */
module PhpStrings {

  predicate IsDigit(c: char)
  {
    '0' <= c <= '9'
  }

  function DigitChar(d: nat): (c: char)
    requires d < 10
    ensures IsDigit(c)
  {
    ('0' as int + d) as char
  }

  function DigitValue(c: char): nat
    requires IsDigit(c)
  {
    c as int - '0' as int
  }

  predicate AllDigits(s: string)
  {
    forall i :: 0 <= i < |s| ==> IsDigit(s[i])
  }

  /** The number a string of decimal digits denotes. */
  function DigitsValue(s: string): nat
    requires AllDigits(s)
  {
    if |s| == 0 then 0 else DigitsValue(s[..|s| - 1]) * 10 + DigitValue(s[|s| - 1])
  }

  /** Decimal text of a natural number, as PHP prints an int. */
  function NatString(n: nat): string
    decreases n
  {
    if n < 10 then [DigitChar(n)] else NatString(n / 10) + [DigitChar(n % 10)]
  }

  /** Decimal text of an int (string interpolation, `implode`). */
  function IntString(i: int): string
  {
    if i < 0 then "-" + NatString(-i) else NatString(i)
  }

  /** A canonical natural-number string: no sign, no leading zero. */
  predicate IsNatKey(s: string)
  {
    |s| > 0 && AllDigits(s) && (s[0] == '0' ==> |s| == 1)
  }

  /** A string PHP converts into an integer array key. */
  predicate IsIntKey(s: string)
  {
    IsNatKey(s) || (|s| >= 2 && s[0] == '-' && s[1] != '0' && IsNatKey(s[1..]))
  }

  /** The decimal text of `n` is canonical and reads back as `n`. */
  lemma {:induction false} NatStringIsCanonical(n: nat)
    ensures IsNatKey(NatString(n)) && DigitsValue(NatString(n)) == n
  {
    if n >= 10 {
      var t := NatString(n / 10);
      NatStringIsCanonical(n / 10);
      var s := t + [DigitChar(n % 10)];
      assert s[..|s| - 1] == t;
      assert t[0] == '0' ==> |t| == 1;
      assert DigitsValue(t) >= 1;
    }
  }

  /** `implode($sep, $parts)`. */
  function Implode(sep: string, parts: seq<string>): string
  {
    if |parts| == 0 then ""
    else if |parts| == 1 then parts[0]
    else parts[0] + sep + Implode(sep, parts[1..])
  }

  /** Each string of `parts` with `p` in front. */
  function Prefixed(p: string, parts: seq<string>): (r: seq<string>)
    ensures |r| == |parts| && forall i :: 0 <= i < |parts| ==> r[i] == p + parts[i]
  {
    seq(|parts|, i requires 0 <= i < |parts| => p + parts[i])
  }

  /** `':' . implode(', :', $keys)` is the list of `:key` placeholders,
      one per key and in the keys' order. */
  lemma {:induction false} PlaceholderList(keys: seq<string>)
    requires |keys| > 0
    ensures ":" + Implode(", :", keys) == Implode(", ", Prefixed(":", keys))
  {
    if |keys| > 1 {
      PlaceholderList(keys[1..]);
      assert Prefixed(":", keys)[1..] == Prefixed(":", keys[1..]);
      calc {
        ":" + Implode(", :", keys);
        ":" + (keys[0] + ", :" + Implode(", :", keys[1..]));
        (":" + keys[0]) + ", " + (":" + Implode(", :", keys[1..]));
        Implode(", ", Prefixed(":", keys));
      }
    }
  }

  /** ASCII upper case, as PHP 8's `ucwords` and `ucfirst` use. */
  function ToUpper(c: char): char
  {
    if 'a' <= c <= 'z' then (c as int - 32) as char else c
  }

  /** ASCII lower case, as PHP 8's `lcfirst` uses. */
  function ToLower(c: char): char
  {
    if 'A' <= c <= 'Z' then (c as int + 32) as char else c
  }

  /** `str_replace($from, $to, $s)` for single characters. */
  function ReplaceChar(s: string, from: char, to: char): (r: string)
    ensures |r| == |s|
    ensures forall i :: 0 <= i < |s| ==> r[i] == if s[i] == from then to else s[i]
  {
    seq(|s|, i requires 0 <= i < |s| => if s[i] == from then to else s[i])
  }

  /** `str_replace($c, '', $s)` for a single character. */
  function RemoveChar(s: string, c: char): string
  {
    if |s| == 0 then "" else (if s[0] == c then "" else [s[0]]) + RemoveChar(s[1..], c)
  }

  /** The whitespace PHP skips before the digits of a numeric string. */
  predicate IsNumericSpace(c: char)
  {
    c == ' ' || c == '\t' || c == '\n' || c == '\r' || c as int == 11 || c as int == 12
  }

  function SkipSpace(s: string): string
  {
    if |s| > 0 && IsNumericSpace(s[0]) then SkipSpace(s[1..]) else s
  }

  /** The longest prefix of `s` made of decimal digits. */
  function LeadingDigits(s: string): (r: string)
    ensures AllDigits(r) && r <= s
  {
    if |s| > 0 && IsDigit(s[0]) then [s[0]] + LeadingDigits(s[1..]) else ""
  }

  /** `(int)$s`: leading whitespace, an optional sign, then as many digits
      as follow; anything else ends the number (a string with no digits is 0). */
  function IntCast(s: string): int
  {
    var t := SkipSpace(s);
    if |t| > 0 && t[0] == '-' then 0 - DigitsValue(LeadingDigits(t[1..])) as int
    else if |t| > 0 && t[0] == '+' then DigitsValue(LeadingDigits(t[1..]))
    else DigitsValue(LeadingDigits(t))
  }

  lemma {:induction false} LeadingDigitsOfDigits(s: string)
    requires AllDigits(s)
    ensures LeadingDigits(s) == s
  {
    if |s| > 0 {
      assert AllDigits(s[1..]);
      LeadingDigitsOfDigits(s[1..]);
    }
  }

  /** Casting the decimal text of an int back gives the int. */
  lemma IntCastOfIntString(i: int)
    ensures IntCast(IntString(i)) == i
  {
    var n: nat := if i < 0 then -i else i;
    NatStringIsCanonical(n);
    LeadingDigitsOfDigits(NatString(n));
    if i < 0 {
      assert IntString(i)[1..] == NatString(n);
    }
  }
}
