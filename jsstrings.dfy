/** The JavaScript string built-ins the server relies on: `split` on one
    character, `trim`, the decimal `toString` of a non-negative integer,
    `slice` with a negative start and `padStart`. */
module JsStrings {

  /** `parts.join(sep)`. */
  function Join(parts: seq<string>, sep: char): string
    requires |parts| >= 1
    decreases |parts|
  {
    if |parts| == 1 then parts[0] else parts[0] + [sep] + Join(parts[1..], sep)
  }

  /** `s.split(sep)` for a one-character separator: the maximal runs of
      characters other than `sep`, empty runs included, which joined with `sep`
      give back `s`. */
  function Split(s: string, sep: char): (parts: seq<string>)
    ensures |parts| >= 1
    ensures forall i :: 0 <= i < |parts| ==> sep !in parts[i]
    ensures Join(parts, sep) == s
    decreases |s|
  {
    if s == [] then [""]
    else
      var rest := Split(s[1..], sep);
      if s[0] == sep then [""] + rest
      else
        var parts := [[s[0]] + rest[0]] + rest[1..];
        assert |rest| > 1 ==> Join(parts, sep) == [s[0]] + Join(rest, sep) by {
          if |rest| > 1 {
            assert parts[1..] == rest[1..];
          }
        }
        parts
  }

  /** A string without the separator splits into itself alone. */
  lemma {:induction false} SplitWithoutSeparator(s: string, sep: char)
    requires sep !in s
    ensures Split(s, sep) == [s]
    decreases |s|
  {
    if s != [] {
      SplitWithoutSeparator(s[1..], sep);
      assert [s[0]] + s[1..] == s;
    }
  }

  /** The first separator ends the first component. */
  lemma {:induction false} SplitAtFirstSeparator(a: string, sep: char, b: string)
    requires sep !in a
    ensures Split(a + [sep] + b, sep) == [a] + Split(b, sep)
    decreases |a|
  {
    var s := a + [sep] + b;
    if a == [] {
      assert s[1..] == b;
    } else {
      assert s[1..] == a[1..] + [sep] + b;
      SplitAtFirstSeparator(a[1..], sep, b);
      assert [a[0]] + a[1..] == a;
    }
  }

  /** The characters `String.prototype.trim` removes: white space and line
      terminators. */
  predicate IsWhitespace(c: char) {
    || c == '\t' || c == '\n' || c == '\U{000B}' || c == '\U{000C}' || c == '\r'
    || c == ' ' || c == '\U{00A0}' || c == '\U{1680}'
    || ('\U{2000}' <= c <= '\U{200A}')
    || c == '\U{2028}' || c == '\U{2029}' || c == '\U{202F}' || c == '\U{205F}'
    || c == '\U{3000}' || c == '\U{FEFF}'
  }

  function TrimStart(s: string): (t: string)
    ensures |t| <= |s| && t == s[|s| - |t|..]
    ensures forall i :: 0 <= i < |s| - |t| ==> IsWhitespace(s[i])
    ensures t != [] ==> !IsWhitespace(t[0])
  {
    if s != [] && IsWhitespace(s[0]) then TrimStart(s[1..]) else s
  }

  function TrimEnd(s: string): (t: string)
    ensures |t| <= |s| && t == s[..|t|]
    ensures forall i :: |t| <= i < |s| ==> IsWhitespace(s[i])
    ensures t != [] ==> !IsWhitespace(t[|t| - 1])
  {
    if s != [] && IsWhitespace(s[|s| - 1]) then TrimEnd(s[..|s| - 1]) else s
  }

  /** `t` is `s[k..]` cut to `|t|`, and everything of `s` before and after it
      is white space. */
  predicate TrimmedAt(s: string, t: string, k: int) {
    && 0 <= k <= |s| - |t| && s[k..][..|t|] == t
    && (forall i :: 0 <= i < k ==> IsWhitespace(s[i]))
    && (forall i :: k + |t| <= i < |s| ==> IsWhitespace(s[i]))
  }

  /** `s.trim()`: `s` without its leading and trailing white space; what is
      left neither starts nor ends with white space, and it is empty exactly
      when `s` is all white space. */
  function Trim(s: string): (t: string)
    ensures |t| <= |s|
    ensures exists k :: TrimmedAt(s, t, k)
    ensures t == [] <==> forall i :: 0 <= i < |s| ==> IsWhitespace(s[i])
    ensures t != [] ==> !IsWhitespace(t[0]) && !IsWhitespace(t[|t| - 1])
  {
    var front := TrimStart(s);
    var t := TrimEnd(front);
    var k := |s| - |front|;
    assert s[k..][..|t|] == t;
    forall i | k + |t| <= i < |s| ensures IsWhitespace(s[i]) {
      assert s[i] == front[i - k];
    }
    assert TrimmedAt(s, t, k);
    t
  }

  /** Trimming twice is trimming once. */
  lemma TrimIdempotent(s: string)
    ensures Trim(Trim(s)) == Trim(s)
  {
    var t := Trim(s);
    assert TrimStart(t) == t;
    assert TrimEnd(t) == t;
  }

  function Pow10(k: nat): (p: nat)
    ensures p >= 1
  {
    if k == 0 then 1 else 10 * Pow10(k - 1)
  }

  predicate IsDigit(c: char) {
    '0' <= c <= '9'
  }

  predicate AllDigits(s: string) {
    forall i :: 0 <= i < |s| ==> IsDigit(s[i])
  }

  function DigitChar(d: nat): (c: char)
    requires d < 10
    ensures IsDigit(c) && c as int - '0' as int == d
  {
    (d + '0' as int) as char
  }

  /** The value of a string of decimal digits (leading zeros allowed). */
  function ParseDecimal(s: string): (n: nat)
    requires AllDigits(s)
    ensures n < Pow10(|s|)
  {
    if s == [] then 0 else 10 * ParseDecimal(s[..|s| - 1]) + (s[|s| - 1] as int - '0' as int)
  }

  /** `n.toString()` for a non-negative integer: digits without a leading
      zero, read back as `n`. */
  function DecimalString(n: nat): (s: string)
    ensures |s| >= 1 && AllDigits(s) && ParseDecimal(s) == n
    ensures s[0] == '0' ==> n == 0 && s == "0"
  {
    if n < 10 then [DigitChar(n)]
    else
      var s := DecimalString(n / 10) + [DigitChar(n % 10)];
      assert s[..|s| - 1] == DecimalString(n / 10);
      s
  }

  /** A number of at least `Pow10(k)` has more than `k` digits. */
  lemma {:induction false} DecimalStringLength(n: nat, k: nat)
    requires n >= Pow10(k)
    ensures |DecimalString(n)| > k
    decreases k
  {
    if k > 0 {
      DecimalStringLength(n / 10, k - 1);
    }
  }

  lemma AllDigitsAppend(a: string, b: string)
    requires AllDigits(a) && AllDigits(b)
    ensures AllDigits(a + b)
  {
    var s := a + b;
    forall i | 0 <= i < |s| ensures IsDigit(s[i]) {
      if i >= |a| { assert s[i] == b[i - |a|]; }
    }
  }

  lemma ShiftByTen(p: int, q: int)
    ensures 10 * (p * q) == p * (10 * q)
  {
  }

  /** Reading a concatenation of digit strings. */
  lemma {:induction false} ParseDecimalAppend(a: string, b: string)
    requires AllDigits(a) && AllDigits(b)
    ensures AllDigits(a + b)
    ensures ParseDecimal(a + b) == ParseDecimal(a) * Pow10(|b|) + ParseDecimal(b)
    decreases |b|
  {
    AllDigitsAppend(a, b);
    if b == [] {
      assert a + b == a;
    } else {
      var b' := b[..|b| - 1];
      var d := b[|b| - 1] as int - '0' as int;
      assert (a + b)[..|a + b| - 1] == a + b';
      assert (a + b)[|a + b| - 1] == b[|b| - 1];
      ParseDecimalAppend(a, b');
      var p, q, r := ParseDecimal(a), Pow10(|b'|), ParseDecimal(b');
      assert ParseDecimal(a + b) == 10 * (p * q + r) + d;
      assert ParseDecimal(b) == 10 * r + d;
      assert Pow10(|b|) == 10 * q;
      ShiftByTen(p, q);
    }
  }

  /** `s.slice(-k)` for k > 0: the last k characters, or all of a shorter s. */
  function SliceFromEnd(s: string, k: nat): string
    requires k > 0
  {
    if |s| <= k then s else s[|s| - k..]
  }

  function Repeat(c: char, n: nat): (r: string)
    ensures |r| == n && forall i :: 0 <= i < n ==> r[i] == c
  {
    if n == 0 then [] else [c] + Repeat(c, n - 1)
  }

  /** `s.padStart(n, c)` for a one-character pad. */
  function PadStart(s: string, n: nat, c: char): string {
    if |s| >= n then s else Repeat(c, n - |s|) + s
  }

  lemma {:induction false} ZerosValue(n: nat)
    ensures AllDigits(Repeat('0', n)) && ParseDecimal(Repeat('0', n)) == 0
    decreases n
  {
    if n > 0 {
      var z := Repeat('0', n);
      assert z[..n - 1] == Repeat('0', n - 1);
      ZerosValue(n - 1);
    }
  }

  /** Padding a digit string with zeros keeps its digits and its value. */
  lemma PadZerosValue(s: string, n: nat)
    requires AllDigits(s)
    ensures |PadStart(s, n, '0')| == if |s| >= n then |s| else n
    ensures AllDigits(PadStart(s, n, '0'))
    ensures ParseDecimal(PadStart(s, n, '0')) == ParseDecimal(s)
  {
    if |s| < n {
      ZerosValue(n - |s|);
      ParseDecimalAppend(Repeat('0', n - |s|), s);
    }
  }
}
