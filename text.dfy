/**
 * The string operations of the JavaScript runtime that the core relies on:
 * `trim`, `toLowerCase`, `startsWith`, `includes`, `split(' ')`, the
 * decimal rendering of an integer inside a template literal, and `length`
 * (counted in UTF-16 code units).
 */
module Text {

  /** WhiteSpace and LineTerminator code points of ECMAScript: what `trim` removes. */
  predicate IsWhitespace(c: char) {
    || c == ' ' || c == '\t' || c == '\n' || c == '\r'
    || c == '\U{000B}' || c == '\U{000C}' || c == '\U{00A0}' || c == '\U{1680}'
    || ('\U{2000}' <= c <= '\U{200A}')
    || c == '\U{2028}' || c == '\U{2029}' || c == '\U{202F}' || c == '\U{205F}'
    || c == '\U{3000}' || c == '\U{FEFF}'
  }

  /** Every character is white space (the empty string included). */
  predicate IsBlank(s: string) {
    forall i :: 0 <= i < |s| ==> IsWhitespace(s[i])
  }

  /** Prefixing a blank text with a whitespace character keeps it blank. */
  lemma BlankCons(c: char, t: string)
    requires IsWhitespace(c) && IsBlank(t)
    ensures IsBlank([c] + t)
  {
    assert forall i :: 0 < i < |[c] + t| ==> ([c] + t)[i] == t[i - 1];
  }

  /** How many white-space characters open `s`. */
  function LeadingBlanks(s: string): (n: nat)
    ensures n <= |s|
    ensures n < |s| ==> !IsWhitespace(s[n])
  {
    if |s| > 0 && IsWhitespace(s[0]) then
      var m := LeadingBlanks(s[1..]);
      assert m < |s| - 1 ==> s[1..][m] == s[m + 1];
      1 + m
    else
      0
  }

  /** The characters `LeadingBlanks` counts are white space. */
  lemma {:induction false} LeadingBlanksAreBlank(s: string)
    ensures forall k :: 0 <= k < LeadingBlanks(s) ==> IsWhitespace(s[k])
  {
    if |s| > 0 && IsWhitespace(s[0]) {
      LeadingBlanksAreBlank(s[1..]);
      forall k | 0 < k < LeadingBlanks(s) ensures IsWhitespace(s[k]) {
        assert s[k] == s[1..][k - 1];
      }
    }
  }

  /** How many white-space characters close `s`. */
  function TrailingBlanks(s: string): (n: nat)
    ensures n <= |s|
    ensures n < |s| ==> !IsWhitespace(s[|s| - 1 - n])
  {
    if |s| > 0 && IsWhitespace(s[|s| - 1]) then
      var m := TrailingBlanks(s[..|s| - 1]);
      assert m < |s| - 1 ==> s[..|s| - 1][|s| - 2 - m] == s[|s| - 2 - m];
      1 + m
    else
      0
  }

  /** The characters `TrailingBlanks` counts are white space. */
  lemma {:induction false} TrailingBlanksAreBlank(s: string)
    ensures forall k :: |s| - TrailingBlanks(s) <= k < |s| ==> IsWhitespace(s[k])
  {
    if |s| > 0 && IsWhitespace(s[|s| - 1]) {
      TrailingBlanksAreBlank(s[..|s| - 1]);
      forall k | |s| - TrailingBlanks(s) <= k < |s| - 1 ensures IsWhitespace(s[k]) {
        assert s[k] == s[..|s| - 1][k];
      }
    }
  }

  /** Drops leading white space. */
  function TrimStart(s: string): (r: string)
    ensures |r| <= |s| && r == s[|s| - |r|..]
    ensures r == [] || !IsWhitespace(r[0])
  {
    s[LeadingBlanks(s)..]
  }

  /** What `TrimStart` drops is white space. */
  lemma TrimStartDropsBlank(s: string)
    ensures IsBlank(s[..|s| - |TrimStart(s)|])
  {
    LeadingBlanksAreBlank(s);
  }

  /** Drops trailing white space. */
  function TrimEnd(s: string): (r: string)
    ensures |r| <= |s| && r == s[..|r|]
    ensures r == [] || !IsWhitespace(r[|r| - 1])
  {
    s[..|s| - TrailingBlanks(s)]
  }

  /** What `TrimEnd` drops is white space. */
  lemma TrimEndDropsBlank(s: string)
    ensures IsBlank(s[|TrimEnd(s)|..])
  {
    TrailingBlanksAreBlank(s);
  }

  /** `String.prototype.trim`. */
  function Trim(s: string): string {
    TrimEnd(TrimStart(s))
  }

  /** `s.trim()` is falsy (the empty string) exactly when `s` is all white space. */
  lemma TrimEmptyIffBlank(s: string)
    ensures Trim(s) == [] <==> IsBlank(s)
  {
    var a := TrimStart(s);
    TrimStartDropsBlank(s);
    TrimEndDropsBlank(a);
    if Trim(s) == [] {
      assert a == [];
      assert s[..|s| - |a|] == s;
    } else if a != [] {
      assert !IsWhitespace(s[|s| - |a|]);
    }
  }

  /** The trimmed text starts and ends with a non-blank character and is a slice of the input. */
  lemma TrimShape(s: string)
    ensures |Trim(s)| <= |s|
    ensures Trim(s) != [] ==> !IsWhitespace(Trim(s)[0]) && !IsWhitespace(Trim(s)[|Trim(s)| - 1])
    ensures |s| - |TrimStart(s)| + |Trim(s)| <= |s|
    ensures Trim(s) == s[|s| - |TrimStart(s)|..|s| - |TrimStart(s)| + |Trim(s)|]
  {
    var a := TrimStart(s);
    var r := TrimEnd(a);
    var i := |s| - |a|;
    assert a[..|r|] == s[i..i + |r|];
    if r != [] {
      assert r[0] == a[0];
    }
  }

  /** `t` is the slice of `s` at offset `i`, with only white space around it. */
  predicate TrimmedAt(s: string, t: string, i: int) {
    && 0 <= i && i + |t| <= |s|
    && t == s[i..i + |t|]
    && IsBlank(s[..i]) && IsBlank(s[i + |t|..])
  }

  /** The trimmed text is a slice of the original with only white space cut off either side. */
  lemma TrimSlice(s: string)
    ensures TrimmedAt(s, Trim(s), |s| - |TrimStart(s)|)
    ensures exists i :: TrimmedAt(s, Trim(s), i)
  {
    var a := TrimStart(s);
    var r := TrimEnd(a);
    var i := |s| - |a|;
    TrimShape(s);
    TrimStartDropsBlank(s);
    TrimEndDropsBlank(a);
    assert a[|r|..] == s[i + |r|..];
    assert TrimmedAt(s, r, i);
  }

  /** Trimming twice is trimming once. */
  lemma TrimIdempotent(s: string)
    ensures Trim(Trim(s)) == Trim(s)
  {
    var r := Trim(s);
    TrimShape(s);
    if r != [] {
      assert TrimStart(r) == r;
      assert TrimEnd(r) == r;
    }
  }

  /** `toLowerCase` on one character, for the ASCII letters. */
  function ToLowerChar(c: char): char {
    if 'A' <= c <= 'Z' then (c as int + 32) as char else c
  }

  /** `toLowerCase`, for the ASCII letters; every other character is kept. */
  function ToLower(s: string): (r: string)
    ensures |r| == |s|
  {
    seq(|s|, i requires 0 <= i < |s| => ToLowerChar(s[i]))
  }

  /** Lower-casing keeps every character that is not an upper-case letter, `?` among them. */
  lemma ToLowerKeepsChar(s: string, c: char)
    requires !('A' <= c <= 'Z') && !('a' <= c <= 'z')
    ensures c in ToLower(s) <==> c in s
  {
    if c in s {
      var i :| 0 <= i < |s| && s[i] == c;
      assert ToLower(s)[i] == c;
    }
    if c in ToLower(s) {
      var i :| 0 <= i < |s| && ToLower(s)[i] == c;
      assert s[i] == c;
    }
  }

  /** Lower-casing twice is lower-casing once. */
  lemma ToLowerIdempotent(s: string)
    ensures ToLower(ToLower(s)) == ToLower(s)
  {
    forall i | 0 <= i < |s|
      ensures ToLower(ToLower(s))[i] == ToLower(s)[i]
    {
    }
  }

  /** `s.startsWith(p)`. */
  predicate StartsWith(s: string, p: string) {
    |p| <= |s| && s[..|p|] == p
  }

  /** `s.endsWith(p)`. */
  predicate EndsWith(s: string, p: string) {
    |p| <= |s| && s[|s| - |p|..] == p
  }

  /** A string that ends with a non-empty `p` ends with `p`'s last character. */
  lemma EndsWithLastChar(s: string, p: string)
    ensures EndsWith(s, p) && |p| >= 1 ==> s[|s| - 1] == p[|p| - 1]
  {
    if EndsWith(s, p) && |p| >= 1 {
      assert s[|s| - |p|..][|p| - 1] == s[|s| - 1];
    }
  }

  /** A concatenation starts with its first part, continues with its second and ends where the second ends. */
  lemma ConcatParts(head: string, tail: string, suffix: string)
    requires |tail| >= 1
    ensures StartsWith(head + tail, head) && (head + tail)[|head|..] == tail
    ensures (head + tail)[|head + tail| - 1] == tail[|tail| - 1]
    ensures EndsWith(tail, suffix) ==> EndsWith(head + tail, suffix)
  {
    var text := head + tail;
    assert text[..|head|] == head;
    assert text[|head|..] == tail;
    if EndsWith(tail, suffix) {
      assert text[|text| - |suffix|..] == tail[|tail| - |suffix|..];
    }
  }

  /** `s.includes(p)`. */
  predicate Contains(s: string, p: string)
    decreases |s|
  {
    StartsWith(s, p) || (|s| > 0 && Contains(s[1..], p))
  }

  /** A string contains each of its prefixes. */
  lemma StartsWithContains(s: string, p: string)
    requires StartsWith(s, p)
    ensures Contains(s, p)
  {
  }

  /** `s.includes(c)` for a one-character `c` is membership. */
  lemma {:induction false} ContainsChar(s: string, c: char)
    ensures Contains(s, [c]) <==> c in s
    decreases |s|
  {
    if s != [] {
      ContainsChar(s[1..], c);
      assert s == [s[0]] + s[1..];
    }
  }

  /** Number of occurrences of `c` in `s`. */
  function CountChar(s: string, c: char): (n: nat)
    ensures n <= |s|
    ensures n == 0 <==> c !in s
  {
    if s == [] then 0
    else (if s[0] == c then 1 else 0) + CountChar(s[1..], c)
  }

  /** `s.split(c)` for a one-character separator: the pieces between the separators. */
  function Split(s: string, c: char): (pieces: seq<string>)
    ensures |pieces| >= 1
    decreases |s|
  {
    if s == [] then [""]
    else
      var rest := Split(s[1..], c);
      if s[0] == c then [""] + rest
      else [[s[0]] + rest[0]] + rest[1..]
  }

  /** `pieces.join(c)`. */
  function Join(pieces: seq<string>, c: char): string
    requires |pieces| >= 1
    decreases |pieces|
  {
    if |pieces| == 1 then pieces[0] else pieces[0] + [c] + Join(pieces[1..], c)
  }

  /** `s.split(c).length` is one more than the number of separators. */
  lemma {:induction false} SplitLength(s: string, c: char)
    ensures |Split(s, c)| == CountChar(s, c) + 1
    decreases |s|
  {
    if s != [] {
      SplitLength(s[1..], c);
    }
  }

  /** Joining the pieces with the separator gives back the string, and no piece holds the separator. */
  lemma {:induction false} SplitJoin(s: string, c: char)
    ensures Join(Split(s, c), c) == s
    ensures forall k :: 0 <= k < |Split(s, c)| ==> c !in Split(s, c)[k]
    decreases |s|
  {
    if s != [] {
      var rest := Split(s[1..], c);
      SplitJoin(s[1..], c);
      if s[0] == c {
        assert Split(s, c)[1..] == rest;
      } else {
        var p := Split(s, c);
        assert p[0] == [s[0]] + rest[0];
        if |rest| == 1 {
          assert Join(p, c) == p[0];
        } else {
          assert p[1..] == rest[1..];
          assert Join(p, c) == p[0] + [c] + Join(rest[1..], c);
          assert Join(rest, c) == rest[0] + [c] + Join(rest[1..], c);
        }
        forall k | 0 <= k < |p| ensures c !in p[k] {
          if k > 0 {
            assert p[k] == rest[k];
          }
        }
      }
    }
  }

  /** The number of UTF-16 code units of `s`: JavaScript's `s.length`. */
  function Utf16Length(s: string): (n: nat)
    ensures |s| <= n <= 2 * |s|
  {
    if s == [] then 0
    else (if s[0] as int > 0xFFFF then 2 else 1) + Utf16Length(s[1..])
  }

  predicate IsDigit(c: char) {
    '0' <= c <= '9'
  }

  function DigitChar(d: nat): (c: char)
    requires d < 10
    ensures IsDigit(c)
  {
    ('0' as int + d) as char
  }

  function DigitValue(c: char): (d: nat)
    requires IsDigit(c)
    ensures d < 10 && DigitChar(d) == c
  {
    c as int - '0' as int
  }

  /** Decimal digits of a natural number, without leading zeros. */
  function NatToString(n: nat): (s: string)
    ensures |s| >= 1
    ensures forall i :: 0 <= i < |s| ==> IsDigit(s[i])
  {
    if n < 10 then [DigitChar(n)] else NatToString(n / 10) + [DigitChar(n % 10)]
  }

  /** The value of a string of decimal digits. */
  function ParseNat(s: string): nat
    requires forall i :: 0 <= i < |s| ==> IsDigit(s[i])
  {
    if s == [] then 0 else 10 * ParseNat(s[..|s| - 1]) + DigitValue(s[|s| - 1])
  }

  /** Reading back the decimal digits of `n` gives `n`. */
  lemma {:induction false} ParseNatToString(n: nat)
    ensures ParseNat(NatToString(n)) == n
  {
    var s := NatToString(n);
    if n >= 10 {
      assert s[..|s| - 1] == NatToString(n / 10);
      ParseNatToString(n / 10);
    }
  }

  /** The integer as a template literal renders it (`${n}`): an optional minus sign and decimal digits. */
  function IntToString(n: int): (s: string)
    ensures |s| >= 1 && IsDigit(s[|s| - 1])
    ensures forall i :: 0 < i < |s| ==> IsDigit(s[i])
    ensures s[0] == '-' <==> n < 0
    ensures s[0] == '-' || IsDigit(s[0])
  {
    if n < 0 then "-" + NatToString(-n) else NatToString(n)
  }

  /** A negative integer renders as a minus sign before its magnitude. */
  lemma NegativeRendering(n: int)
    requires n < 0
    ensures IntToString(n)[0] == '-' && IntToString(n)[1..] == NatToString(-n)
  {
    assert ("-" + NatToString(-n))[1..] == NatToString(-n);
  }

  /** Different integers render differently. */
  lemma IntToStringInjective(a: int, b: int)
    requires IntToString(a) == IntToString(b)
    ensures a == b
  {
    if a < 0 {
      NegativeRendering(a);
      NegativeRendering(b);
      NatToStringInjective(-a, -b);
    } else {
      NatToStringInjective(a, b);
    }
  }

  /** Different naturals have different digits. */
  lemma NatToStringInjective(a: nat, b: nat)
    requires NatToString(a) == NatToString(b)
    ensures a == b
  {
    ParseNatToString(a);
    ParseNatToString(b);
  }
}
