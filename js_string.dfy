/**
 * The JavaScript string built-ins the core depends on, with their edge cases:
 * `trim`, `split` with a one-character separator, `slice(1, -1)`, `includes`,
 * `startsWith`, `replace` with a string pattern, `parseInt` and `String(n)`.
 * A JavaScript string is a sequence of UTF-16 code units; here a string is a
 * sequence of Unicode scalar values, which agrees with it on ASCII text.
 */
module JsString {

  /** A JavaScript number as far as the core produces one: an integer or NaN. */
  datatype Num = Int(value: int) | NaN

  /** The WhiteSpace and LineTerminator code points: what `trim` removes and `parseInt` skips. */
  predicate IsSpace(c: char) {
    || c == ' ' || c == '\t' || c == '\n' || c == '\r' || c == '\U{000B}' || c == '\U{000C}'
    || c == '\U{00A0}' || c == '\U{1680}' || ('\U{2000}' <= c <= '\U{200A}')
    || c == '\U{2028}' || c == '\U{2029}' || c == '\U{202F}' || c == '\U{205F}'
    || c == '\U{3000}' || c == '\U{FEFF}'
  }

  /** `s.trimStart()`: the suffix of `s` that starts at its first non-space character. */
  function TrimStart(s: string): (r: string)
    ensures |r| <= |s| && r == s[|s| - |r|..]
    ensures r == [] || !IsSpace(r[0])
    ensures forall k :: 0 <= k < |s| - |r| ==> IsSpace(s[k])
  {
    if s != [] && IsSpace(s[0]) then TrimStart(s[1..]) else s
  }

  /** `s.trimEnd()`: the prefix of `s` that ends at its last non-space character. */
  function TrimEnd(s: string): (r: string)
    ensures |r| <= |s| && r == s[..|r|]
    ensures r == [] || !IsSpace(r[|r| - 1])
    ensures forall k :: |r| <= k < |s| ==> IsSpace(s[k])
  {
    if s != [] && IsSpace(s[|s| - 1]) then TrimEnd(s[..|s| - 1]) else s
  }

  /** `s.trim()` */
  function Trim(s: string): (r: string)
    ensures |r| <= |s|
    ensures r == [] || (!IsSpace(r[0]) && !IsSpace(r[|r| - 1]))
  {
    TrimEnd(TrimStart(s))
  }

  /** A string that neither starts nor ends with white space is its own trim. */
  lemma TrimOfTrimmed(s: string)
    requires s == [] || (!IsSpace(s[0]) && !IsSpace(s[|s| - 1]))
    ensures Trim(s) == s
  {
  }

  /** Leading spaces make no difference to the trim. */
  lemma {:induction false} TrimAfterSpaces(sp: string, s: string)
    requires forall k :: 0 <= k < |sp| ==> IsSpace(sp[k])
    ensures TrimStart(sp + s) == TrimStart(s)
    ensures Trim(sp + s) == Trim(s)
  {
    if sp != [] {
      assert (sp + s)[0] == sp[0];
      assert (sp + s)[1..] == sp[1..] + s;
      TrimAfterSpaces(sp[1..], s);
    } else {
      assert sp + s == s;
    }
  }

  /** `s.split([c])`: the pieces of `s` between the occurrences of `c`, in order. */
  function Split(s: string, c: char): (r: seq<string>)
    ensures |r| >= 1
    ensures forall k :: 0 <= k < |r| ==> c !in r[k]
    ensures |r| == 1 <==> c !in s
    ensures c !in s ==> r == [s]
  {
    if s == [] then [""]
    else
      var rest := Split(s[1..], c);
      if s[0] == c then [""] + rest
      else
        assert [s[0]] + s[1..] == s;
        [[s[0]] + rest[0]] + rest[1..]
  }

  /** `parts.join([c])` */
  function Join(parts: seq<string>, c: char): string
  {
    if parts == [] then ""
    else if |parts| == 1 then parts[0]
    else parts[0] + [c] + Join(parts[1..], c)
  }

  /** Joining the pieces again gives back the string that was split. */
  lemma {:induction false} JoinSplit(s: string, c: char)
    ensures Join(Split(s, c), c) == s
  {
    if s != [] {
      var rest := Split(s[1..], c);
      JoinSplit(s[1..], c);
      if s[0] == c {
        assert Split(s, c) == [""] + rest;
        assert ([""] + rest)[1..] == rest;
      } else if |rest| > 1 {
        assert Split(s, c) == [[s[0]] + rest[0]] + rest[1..];
        assert Join(rest, c) == rest[0] + [c] + Join(rest[1..], c);
        assert ([[s[0]] + rest[0]] + rest[1..])[1..] == rest[1..];
      }
    }
  }

  /** A separator splits a string into the pieces of what precedes it and of what follows it. */
  lemma {:induction false} SplitAround(a: string, b: string, c: char)
    ensures Split(a + [c] + b, c) == Split(a, c) + Split(b, c)
  {
    if a == [] {
      assert ([c] + b)[1..] == b;
      assert a + [c] + b == [c] + b;
    } else {
      assert (a + [c] + b)[1..] == a[1..] + [c] + b;
      SplitAround(a[1..], b, c);
    }
  }

  /** Splitting a join of separator-free pieces gives back the pieces. */
  lemma {:induction false} SplitJoin(parts: seq<string>, c: char)
    requires parts != []
    requires forall k :: 0 <= k < |parts| ==> c !in parts[k]
    ensures Split(Join(parts, c), c) == parts
  {
    if |parts| > 1 {
      SplitJoin(parts[1..], c);
      SplitAround(parts[0], Join(parts[1..], c), c);
      assert parts == [parts[0]] + parts[1..];
    }
  }

  /** `s.slice(1, -1)`: drops the first and the last character, and is empty below two characters. */
  function SliceInner(s: string): (r: string)
    ensures |s| >= 2 ==> [s[0]] + r + [s[|s| - 1]] == s
    ensures |s| < 2 ==> r == ""
  {
    if |s| >= 2 then s[1..|s| - 1] else ""
  }

  /** `s.startsWith(p)` */
  predicate StartsWith(s: string, p: string) {
    |p| <= |s| && s[..|p|] == p
  }

  /** `s.includes(p)` */
  predicate Contains(s: string, p: string)
    decreases |s|
  {
    StartsWith(s, p) || (s != [] && Contains(s[1..], p))
  }

  lemma {:induction false} ContainsInside(a: string, p: string, b: string)
    ensures Contains(a + p + b, p)
  {
    if a == [] {
      assert (a + p + b)[..|p|] == p;
    } else {
      assert (a + p + b)[1..] == a[1..] + p + b;
      ContainsInside(a[1..], p, b);
    }
  }

  lemma {:induction false} ContainsAfter(a: string, b: string, p: string)
    requires Contains(b, p)
    ensures Contains(a + b, p)
  {
    if a != [] {
      assert (a + b)[1..] == a[1..] + b;
      ContainsAfter(a[1..], b, p);
    } else {
      assert a + b == b;
    }
  }

  /** `s.replace(p, rep)` with a string pattern: only the first occurrence is replaced. */
  function ReplaceFirst(s: string, p: string, rep: string): string
    decreases |s|
  {
    if StartsWith(s, p) then rep + s[|p|..]
    else if s == [] then s
    else [s[0]] + ReplaceFirst(s[1..], p, rep)
  }

  /** When the pattern's first character does not occur in `a`, the first occurrence is the one after `a`. */
  lemma {:induction false} ReplaceFirstAfter(a: string, p: string, b: string, rep: string)
    requires p != []
    requires p[0] !in a
    ensures ReplaceFirst(a + p + b, p, rep) == a + rep + b
  {
    var s := a + p + b;
    if a == [] {
      assert s == p + b && s[..|p|] == p && s[|p|..] == b;
    } else {
      assert s[0] == a[0] && s[..|p|][0] != p[0];
      assert s[1..] == a[1..] + p + b;
      ReplaceFirstAfter(a[1..], p, b, rep);
    }
  }

  /** The value of a character as a digit; 36 for a character that is a digit in no radix. */
  function DigitValue(c: char): nat {
    if '0' <= c <= '9' then c as int - '0' as int
    else if 'a' <= c <= 'z' then c as int - 'a' as int + 10
    else if 'A' <= c <= 'Z' then c as int - 'A' as int + 10
    else 36
  }

  /** The longest prefix of `s` made of digits of the radix. */
  function LeadingDigits(s: string, radix: nat): (r: string)
    ensures |r| <= |s| && r == s[..|r|]
    ensures forall k :: 0 <= k < |r| ==> DigitValue(r[k]) < radix
    ensures |r| < |s| ==> DigitValue(s[|r|]) >= radix
  {
    if s != [] && DigitValue(s[0]) < radix then [s[0]] + LeadingDigits(s[1..], radix) else []
  }

  /** The number a digit string denotes in the radix. */
  function DigitsValue(ds: string, radix: nat): nat {
    if ds == [] then 0 else DigitsValue(ds[..|ds| - 1], radix) * radix + DigitValue(ds[|ds| - 1])
  }

  /**
   * `parseInt(s, 10)` when `detectHex` is false, `parseInt(s)` when it is true: skip leading
   * white space, take an optional sign, (with `detectHex`) let a `0x`/`0X` prefix select
   * radix 16, then read the longest run of digits; NaN when there is none.
   */
  function ParseIntRadix(s: string, detectHex: bool): Num {
    var t := TrimStart(s);
    var negative := t != [] && t[0] == '-';
    var u := if t != [] && (t[0] == '-' || t[0] == '+') then t[1..] else t;
    var hex := detectHex && |u| >= 2 && u[0] == '0' && (u[1] == 'x' || u[1] == 'X');
    var radix := if hex then 16 else 10;
    var ds := LeadingDigits(if hex then u[2..] else u, radix);
    var v: int := DigitsValue(ds, radix);
    if ds == [] then NaN else Int(if negative then -v else v)
  }

  /** `parseInt(s, 10)` */
  function ParseInt10(s: string): Num {
    ParseIntRadix(s, false)
  }

  /** `parseInt(s)` with no radix */
  function ParseInt(s: string): Num {
    ParseIntRadix(s, true)
  }

  function DecimalDigit(d: nat): (c: char)
    requires d < 10
    ensures '0' <= c <= '9' && DigitValue(c) == d
  {
    ('0' as int + d) as char
  }

  /** `String(n)` for a non-negative integer: its decimal digits, without leading zeros. */
  function NatToString(n: nat): (r: string)
    ensures |r| >= 1
    ensures forall k :: 0 <= k < |r| ==> '0' <= r[k] <= '9'
    ensures |r| > 1 ==> r[0] != '0'
  {
    if n < 10 then [DecimalDigit(n)] else NatToString(n / 10) + [DecimalDigit(n % 10)]
  }

  lemma {:induction false} DecimalValue(n: nat)
    ensures DigitsValue(NatToString(n), 10) == n
  {
    if n >= 10 {
      var s := NatToString(n);
      assert s[..|s| - 1] == NatToString(n / 10);
      DecimalValue(n / 10);
    }
  }

  lemma {:induction false} AllDigitsLead(s: string, radix: nat)
    requires forall k :: 0 <= k < |s| ==> DigitValue(s[k]) < radix
    ensures LeadingDigits(s, radix) == s
  {
    if s != [] {
      AllDigitsLead(s[1..], radix);
    }
  }

  /** Text with no white space, sign or `0x` prefix in front reads as the value of its leading digits. */
  lemma UnsignedParse(s: string, detectHex: bool)
    requires s != [] && TrimStart(s) == s && s[0] != '-' && s[0] != '+'
    requires !(|s| >= 2 && s[0] == '0' && (s[1] == 'x' || s[1] == 'X'))
    requires LeadingDigits(s, 10) == s
    ensures ParseIntRadix(s, detectHex) == Int(DigitsValue(s, 10))
  {
  }

  /** A digit string that starts with no `0x` prefix reads as its decimal value under both forms. */
  lemma PlainDigitsParse(s: string, detectHex: bool)
    requires s != [] && forall k :: 0 <= k < |s| ==> '0' <= s[k] <= '9'
    requires |s| > 1 ==> s[0] != '0'
    ensures ParseIntRadix(s, detectHex) == Int(DigitsValue(s, 10))
  {
    assert !IsSpace(s[0]);
    AllDigitsLead(s, 10);
    UnsignedParse(s, detectHex);
  }

  /** Both forms of `parseInt` read back what `String(n)` wrote. */
  lemma DecimalRoundTrip(n: nat)
    ensures ParseInt10(NatToString(n)) == Int(n)
    ensures ParseInt(NatToString(n)) == Int(n)
  {
    var s := NatToString(n);
    DecimalValue(n);
    PlainDigitsParse(s, false);
    PlainDigitsParse(s, true);
  }

  /** After leading white space and an optional sign, the text does not begin with a decimal digit. */
  predicate NoLeadingDigit(s: string) {
    var t := TrimStart(s);
    var u := if t != [] && (t[0] == '-' || t[0] == '+') then t[1..] else t;
    u == [] || DigitValue(u[0]) >= 10
  }

  /** `parseInt` gives NaN when, after white space and a sign, no digit follows. */
  lemma NoDigitIsNaN(s: string)
    requires NoLeadingDigit(s)
    ensures ParseInt10(s) == NaN && ParseInt(s) == NaN
  {
  }
}
