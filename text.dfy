/** The String.prototype operations the client relies on, over strings as sequences of characters. */
module Text {

  /** The characters `String.prototype.trim` strips and the regular-expression class `\s` matches
      (WhiteSpace and LineTerminator of ECMAScript). */
  predicate IsWhitespace(c: char) {
    c == '\t' || c == '\n' || c == '\U{000B}' || c == '\U{000C}' || c == '\r' || c == ' '
    || c == '\U{00A0}' || c == '\U{1680}' || ('\U{2000}' <= c <= '\U{200A}')
    || c == '\U{2028}' || c == '\U{2029}' || c == '\U{202F}' || c == '\U{205F}'
    || c == '\U{3000}' || c == '\U{FEFF}'
  }

  predicate IsAsciiLetter(c: char) {
    ('a' <= c <= 'z') || ('A' <= c <= 'Z')
  }

  predicate IsAsciiDigit(c: char) {
    '0' <= c <= '9'
  }

  predicate IsAsciiAlnum(c: char) {
    IsAsciiLetter(c) || IsAsciiDigit(c)
  }

  // ---------------------------------------------------------------------------
  // split and join

  /** `s.split(d)` for a one-character separator: always at least one piece, none holding `d`. */
  function Split(s: string, d: char): (r: seq<string>)
    ensures |r| >= 1
    ensures forall i :: 0 <= i < |r| ==> d !in r[i]
    decreases |s|
  {
    if s == [] then [""]
    else if s[0] == d then [""] + Split(s[1..], d)
    else
      var rest := Split(s[1..], d);
      [[s[0]] + rest[0]] + rest[1..]
  }

  /** `parts.join(d)`. */
  function Join(parts: seq<string>, d: char): string
    decreases |parts|
  {
    if parts == [] then ""
    else if |parts| == 1 then parts[0]
    else parts[0] + [d] + Join(parts[1..], d)
  }

  lemma {:induction false} JoinConsHead(c: char, parts: seq<string>, d: char)
    requires |parts| >= 1
    ensures Join([[c] + parts[0]] + parts[1..], d) == [c] + Join(parts, d)
  {
    var q := [[c] + parts[0]] + parts[1..];
    assert q[1..] == parts[1..];
  }

  /** Joining the pieces of a split gives back the string. */
  lemma {:induction false} JoinSplit(s: string, d: char)
    ensures Join(Split(s, d), d) == s
    decreases |s|
  {
    if s == [] {
    } else if s[0] == d {
      JoinSplit(s[1..], d);
      var rest := Split(s[1..], d);
      assert ([""] + rest)[1..] == rest;
      assert s == [d] + s[1..];
    } else {
      JoinSplit(s[1..], d);
      var rest := Split(s[1..], d);
      JoinConsHead(s[0], rest, d);
      assert s == [s[0]] + s[1..];
    }
  }

  /** A string without the separator splits into itself. */
  lemma {:induction false} SplitWithoutSeparator(s: string, d: char)
    requires d !in s
    ensures Split(s, d) == [s]
    decreases |s|
  {
    if s != [] {
      assert d !in s[1..];
      SplitWithoutSeparator(s[1..], d);
      assert s == [s[0]] + s[1..];
    }
  }

  /** The first separator ends the first piece. */
  lemma {:induction false} SplitAtFirstSeparator(a: string, d: char, b: string)
    requires d !in a
    ensures Split(a + [d] + b, d) == [a] + Split(b, d)
    decreases |a|
  {
    var s := a + [d] + b;
    if a == [] {
      assert s[1..] == b;
    } else {
      assert s[0] == a[0];
      assert s[1..] == a[1..] + [d] + b;
      assert d !in a[1..];
      SplitAtFirstSeparator(a[1..], d, b);
      assert a == [a[0]] + a[1..];
    }
  }

  /** Splitting a join of separator-free pieces gives back the pieces. */
  lemma {:induction false} SplitJoin(parts: seq<string>, d: char)
    requires |parts| >= 1
    requires forall i :: 0 <= i < |parts| ==> d !in parts[i]
    ensures Split(Join(parts, d), d) == parts
    decreases |parts|
  {
    if |parts| == 1 {
      SplitWithoutSeparator(parts[0], d);
    } else {
      SplitJoin(parts[1..], d);
      SplitAtFirstSeparator(parts[0], d, Join(parts[1..], d));
      assert parts == [parts[0]] + parts[1..];
    }
  }

  lemma {:induction false} JoinAppend(parts: seq<string>, d: char, b: string)
    requires |parts| >= 1
    ensures Join(parts + [b], d) == Join(parts, d) + [d] + b
    decreases |parts|
  {
    if |parts| == 1 {
      assert (parts + [b])[1..] == [b];
    } else {
      assert (parts + [b])[1..] == parts[1..] + [b];
      JoinAppend(parts[1..], d, b);
    }
  }

  /** A separator-free piece appended after one more separator becomes one more last piece. */
  lemma SplitAppend(a: string, d: char, b: string)
    requires d !in b
    ensures Split(a + [d] + b, d) == Split(a, d) + [b]
  {
    var p := Split(a, d);
    JoinSplit(a, d);
    JoinAppend(p, d, b);
    forall i | 0 <= i < |p + [b]| ensures d !in (p + [b])[i] {
      if i < |p| { assert (p + [b])[i] == p[i]; }
    }
    SplitJoin(p + [b], d);
  }

  // ---------------------------------------------------------------------------
  // trim

  /** `s.trimStart()`: the longest suffix that does not start with whitespace. */
  function TrimStart(s: string): (r: string)
    ensures |r| <= |s| && r == s[|s| - |r|..]
    ensures r == [] || !IsWhitespace(r[0])
    ensures forall i :: 0 <= i < |s| - |r| ==> IsWhitespace(s[i])
    decreases |s|
  {
    if |s| > 0 && IsWhitespace(s[0]) then TrimStart(s[1..]) else s
  }

  /** `s.trimEnd()`: the longest prefix that does not end with whitespace. */
  function TrimEnd(s: string): (r: string)
    ensures |r| <= |s| && r == s[..|r|]
    ensures r == [] || !IsWhitespace(r[|r| - 1])
    ensures forall i :: |r| <= i < |s| ==> IsWhitespace(s[i])
    decreases |s|
  {
    if |s| > 0 && IsWhitespace(s[|s| - 1]) then TrimEnd(s[..|s| - 1]) else s
  }

  /** `s.trim()`. */
  function Trim(s: string): string {
    TrimEnd(TrimStart(s))
  }

  /** A string that `trim` leaves as it is. */
  predicate TrimStable(s: string) {
    s == [] || (!IsWhitespace(s[0]) && !IsWhitespace(s[|s| - 1]))
  }

  lemma TrimOfTrimStable(s: string)
    requires TrimStable(s)
    ensures Trim(s) == s
  {
  }

  /** A string of whitespace only trims to the empty string. */
  lemma TrimOfBlank(s: string)
    requires forall i :: 0 <= i < |s| ==> IsWhitespace(s[i])
    ensures Trim(s) == ""
  {
  }

  // ---------------------------------------------------------------------------
  // includes, startsWith, toLowerCase, number formatting

  /** `s.startsWith(prefix)`. */
  predicate StartsWith(s: string, prefix: string) {
    |prefix| <= |s| && s[..|prefix|] == prefix
  }

  /** `s.includes(sub)`. */
  predicate Contains(s: string, sub: string)
    decreases |s|
  {
    StartsWith(s, sub) || (|s| > 0 && Contains(s[1..], sub))
  }

  /** A string that lacks the first character of `sub` does not include `sub`. */
  lemma {:induction false} NotContainsWithoutFirst(s: string, sub: string)
    requires |sub| > 0 && sub[0] !in s
    ensures !Contains(s, sub)
    decreases |s|
  {
    if |sub| <= |s| {
      assert s[..|sub|][0] == s[0];
    }
    if |s| > 0 {
      assert sub[0] !in s[1..];
      NotContainsWithoutFirst(s[1..], sub);
    }
  }

  /** Lower-casing of one character, restricted to the ASCII letters. */
  function AsciiLower(c: char): (r: char)
    ensures 'A' <= c <= 'Z' ==> r as int == c as int + 32
    ensures !('A' <= c <= 'Z') ==> r == c
  {
    if 'A' <= c <= 'Z' then (c as int + 32) as char else c
  }

  /** `s.toLowerCase()` as an ASCII case fold. */
  function LowerCase(s: string): (r: string)
    ensures |r| == |s|
    ensures forall i :: 0 <= i < |s| ==> r[i] == AsciiLower(s[i])
  {
    seq(|s|, i requires 0 <= i < |s| => AsciiLower(s[i]))
  }

  function DigitChar(d: nat): (c: char)
    requires d < 10
    ensures IsAsciiDigit(c) && c as int - '0' as int == d
  {
    (48 + d) as char
  }

  /** The number a string of decimal digits spells, most significant digit first. */
  function DigitsValue(s: string): nat
    requires forall i :: 0 <= i < |s| ==> IsAsciiDigit(s[i])
    decreases |s|
  {
    if s == [] then 0
    else
      assert IsAsciiDigit(s[|s| - 1]);
      DigitsValue(s[..|s| - 1]) * 10 + (s[|s| - 1] as int - '0' as int)
  }

  /** The decimal text of a number, as a template string prints it: the digits that spell `n`,
      without a leading zero. */
  function Decimal(n: nat): (r: string)
    ensures |r| >= 1
    ensures forall i :: 0 <= i < |r| ==> IsAsciiDigit(r[i])
    ensures DigitsValue(r) == n
    ensures |r| > 1 ==> r[0] != '0'
    ensures n < 10 ==> |r| == 1
    decreases n
  {
    if n < 10 then [DigitChar(n)]
    else
      var front := Decimal(n / 10);
      var r := front + [DigitChar(n % 10)];
      assert r[..|r| - 1] == front;
      r
  }
}
