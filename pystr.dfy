/** The parts of Python's `str` and `int` behaviour that the bot relies on:
    `split`, `join`, `strip`, `replace(c, '')`, `lower`, `isalnum`, `isdigit`,
    `int(text)` and `str(n)`. Strings are sequences of Unicode scalar values,
    as Python's are sequences of code points. */
module PyStr {
  import opened Wrappers

  // ---------------------------------------------------------------------
  // Character classes
  // ---------------------------------------------------------------------

  /** `c.isspace()`: the characters Python 3 treats as whitespace. */
  predicate IsSpace(c: char) {
    || c == ' '
    || ('\t' <= c <= '\r')
    || ('\U{1C}' <= c <= '\U{1F}')
    || c == '\U{85}' || c == '\U{A0}' || c == '\U{1680}'
    || ('\U{2000}' <= c <= '\U{200A}')
    || c == '\U{2028}' || c == '\U{2029}' || c == '\U{202F}' || c == '\U{205F}'
    || c == '\U{3000}'
  }

  predicate IsAsciiDigit(c: char) {
    '0' <= c <= '9'
  }

  /** `s.isdigit()` for ASCII digits: non-empty and every character a digit. */
  predicate IsDigits(s: string) {
    |s| > 0 && forall c :: c in s ==> IsAsciiDigit(c)
  }

  /** `c.isalnum()` for ASCII and the Cyrillic block (the scripts the shop's
      product names use): letters and digits. */
  predicate IsAlnum(c: char) {
    || ('0' <= c <= '9') || ('A' <= c <= 'Z') || ('a' <= c <= 'z')
    || ('\U{400}' <= c <= '\U{481}') || ('\U{48A}' <= c <= '\U{4FF}')
  }

  /** `c.lower()` for the capitals of ASCII and of the Cyrillic block: the
      basic capitals, and the extended ones, which mostly sit just before
      their small letters. */
  function LowerChar(c: char): char {
    if 'A' <= c <= 'Z' then (c as int + 32) as char
    else if '\U{410}' <= c <= '\U{42F}' then (c as int + 32) as char
    else if '\U{400}' <= c <= '\U{40F}' then (c as int + 80) as char
    else if c == '\U{4C0}' then '\U{4CF}'
    else if ('\U{460}' <= c <= '\U{480}' || '\U{48A}' <= c <= '\U{4BE}' || '\U{4D0}' <= c <= '\U{4FE}') && c as int % 2 == 0
    then (c as int + 1) as char
    else if '\U{4C1}' <= c <= '\U{4CD}' && c as int % 2 == 1 then (c as int + 1) as char
    else c
  }

  /** `s.lower()`. */
  function Lower(s: string): (r: string)
    ensures |r| == |s|
    ensures forall i :: 0 <= i < |s| ==> r[i] == LowerChar(s[i])
  {
    if s == [] then [] else [LowerChar(s[0])] + Lower(s[1..])
  }

  /** The only characters whose lower case is a given Cyrillic small letter are
      that letter and its capital. */
  lemma LowerCharCyrillic(c: char, small: char)
    requires '\U{430}' <= small <= '\U{44F}'
    ensures LowerChar(c) == small <==> c == small || c as int == small as int - 32
  {
  }

  // ---------------------------------------------------------------------
  // Counting and removing a character
  // ---------------------------------------------------------------------

  /** `s.count(x)` for one character. */
  function Count(s: string, x: char): (n: nat)
    ensures n <= |s|
  {
    if s == [] then 0 else (if s[0] == x then 1 else 0) + Count(s[1..], x)
  }

  /** `s.replace(x, '')`: every occurrence of `x` removed, the rest kept in order. */
  function RemoveAll(s: string, x: char): (r: string)
    ensures forall c :: c in r <==> c in s && c != x
    ensures |r| == |s| - Count(s, x)
  {
    if s == [] then []
    else if s[0] == x then RemoveAll(s[1..], x)
    else [s[0]] + RemoveAll(s[1..], x)
  }

  /** A character that occurs is counted. */
  lemma {:induction false} CountPositive(s: string, x: char, i: nat)
    requires i < |s| && s[i] == x
    ensures Count(s, x) >= 1
  {
    if i > 0 {
      CountPositive(s[1..], x, i - 1);
    }
  }

  /** Removing a character that does not occur changes nothing. */
  lemma {:induction false} RemoveAllAbsent(s: string, x: char)
    requires x !in s
    ensures RemoveAll(s, x) == s
  {
    if s != [] {
      RemoveAllAbsent(s[1..], x);
      assert [s[0]] + s[1..] == s;
    }
  }

  // ---------------------------------------------------------------------
  // split and join
  // ---------------------------------------------------------------------

  /** `s.split(sep)` with an explicit one-character separator: never empty,
      one more part than there are separators, no part holds the separator. */
  function Split(s: string, sep: char): (parts: seq<string>)
    ensures |parts| == Count(s, sep) + 1
    ensures forall i :: 0 <= i < |parts| ==> sep !in parts[i]
  {
    if s == [] then [""]
    else
      var rest := Split(s[1..], sep);
      if s[0] == sep then [""] + rest
      else [[s[0]] + rest[0]] + rest[1..]
  }

  /** `sep.join(parts)`. */
  function Join(parts: seq<string>, sep: char): string
  {
    if |parts| == 0 then ""
    else if |parts| == 1 then parts[0]
    else parts[0] + [sep] + Join(parts[1..], sep)
  }

  /** `parts[-1]`. */
  function Last(parts: seq<string>): string
    requires |parts| > 0
  {
    parts[|parts| - 1]
  }

  /** Joining the parts of a split gives back the string. */
  lemma {:induction false} JoinSplit(s: string, sep: char)
    ensures Join(Split(s, sep), sep) == s
  {
    if s != [] {
      var rest := Split(s[1..], sep);
      JoinSplit(s[1..], sep);
      if s[0] != sep && |rest| > 1 {
        var parts := Split(s, sep);
        assert parts[1..] == rest[1..];
        assert Join(rest, sep) == rest[0] + [sep] + Join(rest[1..], sep);
        assert s == [s[0]] + s[1..];
      }
    }
  }

  /** A string without the separator splits into itself. */
  lemma {:induction false} SplitNoSep(s: string, sep: char)
    requires sep !in s
    ensures Split(s, sep) == [s]
  {
    if s != [] {
      SplitNoSep(s[1..], sep);
      assert [s[0]] + s[1..] == s;
    }
  }

  /** Splitting is a homomorphism at a separator: the parts left of it and the
      parts right of it. */
  lemma {:induction false} SplitAt(a: string, b: string, sep: char)
    ensures Split(a + [sep] + b, sep) == Split(a, sep) + Split(b, sep)
  {
    var s := a + [sep] + b;
    if a == [] {
      assert s == [sep] + b;
      assert s[1..] == b;
    } else {
      var a1 := a[1..];
      assert s[0] == a[0];
      assert s[1..] == a1 + [sep] + b;
      SplitAt(a1, b, sep);
      SplitStep(a, sep);
      SplitStep(s, sep);
    }
  }

  /** One unfolding of Split on a non-empty string. */
  lemma SplitStep(s: string, sep: char)
    requires s != []
    ensures s[0] == sep ==> Split(s, sep) == [""] + Split(s[1..], sep)
    ensures s[0] != sep ==> Split(s, sep) == [[s[0]] + Split(s[1..], sep)[0]] + Split(s[1..], sep)[1..]
  {
  }

  // ---------------------------------------------------------------------
  // strip
  // ---------------------------------------------------------------------

  /** `s.lstrip()`: the suffix left after dropping leading whitespace. */
  function LStrip(s: string): (r: string)
    ensures |r| <= |s| && r == s[|s| - |r|..]
    ensures r != [] ==> !IsSpace(r[0])
    ensures forall i :: 0 <= i < |s| - |r| ==> IsSpace(s[i])
  {
    if s != [] && IsSpace(s[0]) then LStrip(s[1..]) else s
  }

  /** `s.rstrip()`: the prefix left after dropping trailing whitespace. */
  function RStrip(s: string): (r: string)
    ensures |r| <= |s| && r == s[..|r|]
    ensures r != [] ==> !IsSpace(r[|r| - 1])
    ensures forall i :: |r| <= i < |s| ==> IsSpace(s[i])
  {
    if s != [] && IsSpace(s[|s| - 1]) then RStrip(s[..|s| - 1]) else s
  }

  /** `s.strip()`. */
  function Strip(s: string): (r: string)
    ensures r != [] ==> !IsSpace(r[0]) && !IsSpace(r[|r| - 1])
  {
    RStrip(LStrip(s))
  }

  /** `s.strip()` is the middle of `s` left after dropping whitespace at both
      ends: it starts where `lstrip` cuts, everything dropped is whitespace,
      and what is left starts and ends with something else, which fixes it. */
  lemma StripMeans(s: string)
    ensures |s| - |LStrip(s)| + |Strip(s)| <= |s|
    ensures Strip(s) == s[|s| - |LStrip(s)|..|s| - |LStrip(s)| + |Strip(s)|]
    ensures forall k :: 0 <= k < |s| - |LStrip(s)| ==> IsSpace(s[k])
    ensures forall k :: |s| - |LStrip(s)| + |Strip(s)| <= k < |s| ==> IsSpace(s[k])
  {
    var l := LStrip(s);
    var r := RStrip(l);
    StripMiddle(s, l, r);
  }

  /** Where the two halves of `strip` cut `s`: `l` is a suffix of `s` after
      whitespace, `r` a prefix of `l` before whitespace. */
  lemma StripMiddle(s: string, l: string, r: string)
    requires |l| <= |s| && l == s[|s| - |l|..] && forall k :: 0 <= k < |s| - |l| ==> IsSpace(s[k])
    requires |r| <= |l| && r == l[..|r|] && forall k :: |r| <= k < |l| ==> IsSpace(l[k])
    ensures |s| - |l| + |r| <= |s| && r == s[|s| - |l|..|s| - |l| + |r|]
    ensures forall k :: |s| - |l| + |r| <= k < |s| ==> IsSpace(s[k])
  {
    var i := |s| - |l|;
    forall k | i + |r| <= k < |s|
      ensures IsSpace(s[k])
    {
      assert s[k] == l[k - i];
    }
  }

  /** A string with no whitespace at either end is its own strip. */
  lemma StripUnpadded(s: string)
    requires s != [] ==> !IsSpace(s[0]) && !IsSpace(s[|s| - 1])
    ensures Strip(s) == s
  {
  }

  // ---------------------------------------------------------------------
  // int(text) and str(n)
  // ---------------------------------------------------------------------

  function DigitOf(c: char): nat {
    if IsAsciiDigit(c) then c as int - '0' as int else 0
  }

  function DigitChar(d: nat): (c: char)
    requires d < 10
    ensures IsAsciiDigit(c) && DigitOf(c) == d
  {
    ('0' as int + d) as char
  }

  /** The digits of a Python integer literal, with single underscores allowed
      between digits ("1_000"). */
  predicate IsDigitGroups(s: string) {
    && |s| > 0 && IsAsciiDigit(s[0]) && IsAsciiDigit(s[|s| - 1])
    && (forall i :: 0 <= i < |s| ==> IsAsciiDigit(s[i]) || s[i] == '_')
    && (forall i :: 0 <= i < |s| - 1 ==> s[i] == '_' ==> s[i + 1] != '_')
  }

  /** The decimal value of a digit string, underscores skipped. */
  function DigitsValue(s: string): nat {
    if s == [] then 0
    else if s[|s| - 1] == '_' then DigitsValue(s[..|s| - 1])
    else DigitsValue(s[..|s| - 1]) * 10 + DigitOf(s[|s| - 1])
  }

  /** `int(s)`: surrounding whitespace ignored, an optional sign, then digit
      groups; `None` where Python raises `ValueError`. */
  function ParseInt(s: string): Option<int> {
    var t := Strip(s);
    if t != [] && (t[0] == '-' || t[0] == '+') then
      if IsDigitGroups(t[1..]) then
        var v: int := DigitsValue(t[1..]);
        Some(if t[0] == '-' then -v else v)
      else None
    else if IsDigitGroups(t) then Some(DigitsValue(t))
    else None
  }

  /** `str(n)` for n >= 0. */
  function NatToStr(n: nat): (s: string)
    ensures |s| > 0
    ensures forall i :: 0 <= i < |s| ==> IsAsciiDigit(s[i])
    ensures DigitsValue(s) == n
  {
    if n < 10 then [DigitChar(n)]
    else
      var s := NatToStr(n / 10) + [DigitChar(n % 10)];
      assert s[..|s| - 1] == NatToStr(n / 10);
      s
  }

  /** `str(n)`. */
  function IntToStr(n: int): (s: string)
    ensures |s| > 0
    ensures forall c :: c in s ==> c == '-' || IsAsciiDigit(c)
  {
    if n < 0 then "-" + NatToStr(-n) else NatToStr(n)
  }

  /** `int(str(n)) == n`. */
  lemma IntRoundTrip(n: int)
    ensures ParseInt(IntToStr(n)) == Some(n)
  {
    if n < 0 {
      var d := NatToStr(-n);
      NatDigitGroups(-n);
      assert ("-" + d)[1..] == d;
      ParseNegative("-" + d);
    } else {
      NatDigitGroups(n);
      ParseUnsigned(NatToStr(n));
    }
  }

  /** An unsigned digit string parses to its value. */
  lemma ParseUnsigned(s: string)
    requires IsDigitGroups(s)
    ensures ParseInt(s) == Some(DigitsValue(s))
  {
    assert !IsSpace(s[0]) && !IsSpace(s[|s| - 1]);
    StripUnpadded(s);
  }

  /** A minus sign and a digit string parse to the negated value. */
  lemma ParseNegative(s: string)
    requires |s| > 1 && s[0] == '-' && IsDigitGroups(s[1..])
    ensures ParseInt(s) == Some(-(DigitsValue(s[1..]) as int))
  {
    assert s[|s| - 1] == s[1..][|s| - 2];
    assert !IsSpace(s[0]) && !IsSpace(s[|s| - 1]);
    StripUnpadded(s);
  }

  /** `str(n)` of a natural number is a digit string. */
  lemma NatDigitGroups(n: nat)
    ensures IsDigitGroups(NatToStr(n))
  {
  }

  // ---------------------------------------------------------------------
  // Prefixes
  // ---------------------------------------------------------------------

  /** `s.startswith(p)`. */
  predicate StartsWith(s: string, p: string) {
    |p| <= |s| && s[..|p|] == p
  }

  /** `str(p)` holds no underscore. */
  lemma IntToStrNoUnderscore(p: int)
    ensures '_' !in IntToStr(p)
  {
  }

  /** A string starts with whatever it was built from. */
  lemma StartsWithConcat(prefix: string, rest: string)
    ensures StartsWith(prefix + rest, prefix)
  {
    assert (prefix + rest)[..|prefix|] == prefix;
  }

  /** A leading word and its separator split off as one part. */
  lemma SplitAfterWord(a: string, x: string, sep: char)
    requires sep !in a
    ensures Split(a + [sep] + x, sep) == [a] + Split(x, sep)
  {
    SplitAt(a, x, sep);
    SplitNoSep(a, sep);
  }
}
