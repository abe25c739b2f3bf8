/** The string primitives the TypeScript code relies on: `trim`, the `\s` class,
    `toLowerCase`/`toUpperCase` (on ASCII letters), `startsWith`/`endsWith`,
    `includes`, number formatting and `parseInt` on decimal digits. */
module Strings {
  import opened Wrappers

  /** The characters JavaScript's `trim` removes and `\s` matches:
      WhiteSpace and LineTerminator code points. */
  predicate IsWhitespace(c: char) {
    var k := c as int;
    k == 0x09 || k == 0x0A || k == 0x0B || k == 0x0C || k == 0x0D || k == 0x20
    || k == 0xA0 || k == 0x1680 || (0x2000 <= k <= 0x200A) || k == 0x2028
    || k == 0x2029 || k == 0x202F || k == 0x205F || k == 0x3000 || k == 0xFEFF
  }

  /** `!s.trim()`: nothing but whitespace (the empty string included). */
  predicate IsBlank(s: string) {
    forall i :: 0 <= i < |s| ==> IsWhitespace(s[i])
  }

  function TrimStart(s: string): (r: string)
    ensures |r| <= |s| && r == s[|s| - |r|..]
    ensures forall i :: 0 <= i < |s| - |r| ==> IsWhitespace(s[i])
    ensures r != [] ==> !IsWhitespace(r[0])
  {
    if s != [] && IsWhitespace(s[0]) then TrimStart(s[1..]) else s
  }

  function TrimEnd(s: string): (r: string)
    ensures |r| <= |s| && r == s[..|r|]
    ensures forall i :: |r| <= i < |s| ==> IsWhitespace(s[i])
    ensures r != [] ==> !IsWhitespace(r[|r| - 1])
  {
    if s != [] && IsWhitespace(s[|s| - 1]) then TrimEnd(s[..|s| - 1]) else s
  }

  /** `s.trim()`: the slice of `s` left after dropping leading and trailing whitespace. */
  function Trim(s: string): (r: string)
    ensures |r| <= |s|
    ensures r != [] ==> !IsWhitespace(r[0]) && !IsWhitespace(r[|r| - 1])
  {
    TrimEnd(TrimStart(s))
  }

  /** The trimmed text is a slice of the input, and what was cut off on
      either side is whitespace. */
  lemma TrimIsSlice(s: string)
    ensures exists k :: 0 <= k <= |s| - |Trim(s)| && Trim(s) == s[k..k + |Trim(s)|]
                        && IsBlank(s[..k]) && IsBlank(s[k + |Trim(s)|..])
  {
    var t := TrimStart(s);
    var k := |s| - |t|;
    var r := TrimEnd(t);
    assert r == Trim(s);
    assert r == s[k..k + |r|] by {
      assert t == s[k..];
    }
    assert IsBlank(s[..k]) by {
      assert forall i :: 0 <= i < k ==> s[..k][i] == s[i];
    }
    assert IsBlank(s[k + |r|..]) by {
      assert s[k + |r|..] == t[|r|..];
    }
  }

  /** A character outside the Basic Multilingual Plane, which JavaScript
      stores as two UTF-16 code units (a surrogate pair). */
  predicate IsAstral(c: char) { c as int >= 0x1_0000 }

  /** JavaScript's `.length`: the number of UTF-16 code units. */
  function Utf16Length(s: string): (n: nat)
    ensures |s| <= n <= 2 * |s|
  {
    if s == [] then 0 else (if IsAstral(s[0]) then 2 else 1) + Utf16Length(s[1..])
  }

  /** A whitespace run before text that does not start with whitespace is
      exactly what `trimStart` drops. */
  lemma {:induction false} TrimStartBlankPrefix(gap: string, rest: string)
    requires IsBlank(gap) && (rest == [] || !IsWhitespace(rest[0]))
    ensures TrimStart(gap + rest) == rest
  {
    if gap != [] {
      assert (gap + rest)[0] == gap[0] && (gap + rest)[1..] == gap[1..] + rest;
      TrimStartBlankPrefix(gap[1..], rest);
    } else {
      assert gap + rest == rest;
    }
  }

  /** Text that starts with `p` and ends with `x` is `p`, its middle and `x`. */
  lemma SplitAround(s: string, p: string, m: string, x: string)
    requires |p| + |x| <= |s| && s[..|p|] == p && s[|s| - |x|..] == x && s[|p|..|s| - |x|] == m
    ensures s == p + m + x
  {
    assert s == s[..|p|] + s[|p|..|s| - |x|] + s[|s| - |x|..];
  }

  /** The trimmed string is empty exactly when the input is blank, which is
      why the source's `!x.trim()` guards and `IsBlank` agree. */
  lemma TrimEmptyIffBlank(s: string)
    ensures Trim(s) == [] <==> IsBlank(s)
  {
    var t := TrimStart(s);
    if Trim(s) == [] {
      assert t == [];
    } else {
      var r := Trim(s);
      var k := |s| - |t|;
      assert r[0] == t[0] == s[k];
    }
  }

  /** A string with non-whitespace ends is its own trim. */
  lemma TrimOfTrimmed(s: string)
    requires s != [] ==> !IsWhitespace(s[0]) && !IsWhitespace(s[|s| - 1])
    ensures Trim(s) == s
  {
  }

  /** Trimming twice is trimming once. */
  lemma TrimIdempotent(s: string)
    ensures Trim(Trim(s)) == Trim(s)
  {
    TrimOfTrimmed(Trim(s));
  }

  predicate IsAsciiUpper(c: char) { 'A' <= c <= 'Z' }
  predicate IsAsciiLower(c: char) { 'a' <= c <= 'z' }
  predicate IsDigit(c: char) { '0' <= c <= '9' }

  function LowerChar(c: char): char {
    if IsAsciiUpper(c) then (c as int + 32) as char else c
  }

  function UpperChar(c: char): char {
    if IsAsciiLower(c) then (c as int - 32) as char else c
  }

  /** `s.toLowerCase()` on ASCII letters; every other character is kept. */
  function ToLower(s: string): (r: string)
    ensures |r| == |s| && forall i :: 0 <= i < |s| ==> r[i] == LowerChar(s[i])
  {
    seq(|s|, i requires 0 <= i < |s| => LowerChar(s[i]))
  }

  predicate StartsWith(s: string, prefix: string) {
    |prefix| <= |s| && s[..|prefix|] == prefix
  }

  predicate EndsWith(s: string, suffix: string) {
    |suffix| <= |s| && s[|s| - |suffix|..] == suffix
  }

  /** `t` occurs in `s` starting at position `i`. */
  predicate OccursAt(s: string, t: string, i: int) {
    0 <= i <= |s| - |t| && s[i..i + |t|] == t
  }

  /** `s.includes(t)`: `t` occurs in `s` at some position. */
  predicate Contains(s: string, t: string) {
    exists i :: 0 <= i <= |s| - |t| && OccursAt(s, t, i)
  }

  /** The first position at or after `from` where `t` occurs in `s` (`indexOf`). */
  function IndexOf(s: string, t: string, from: nat): (r: Option<nat>)
    ensures r.Some? ==> from <= r.value && OccursAt(s, t, r.value)
    ensures r.Some? ==> forall j :: from <= j < r.value ==> !OccursAt(s, t, j)
    ensures r.None? ==> forall j :: from <= j ==> !OccursAt(s, t, j)
    decreases |s| - from
  {
    if from + |t| > |s| then None
    else if OccursAt(s, t, from) then Some(from)
    else IndexOf(s, t, from + 1)
  }

  /** `s.replace(t, "")` with a string pattern: only the first occurrence is removed. */
  function RemoveFirst(s: string, t: string): (r: string)
    ensures !Contains(s, t) ==> r == s
    ensures Contains(s, t) ==>
              exists i :: 0 <= i <= |s| - |t| && OccursAt(s, t, i)
                && (forall j :: 0 <= j < i ==> !OccursAt(s, t, j))
                && r == s[..i] + s[i + |t|..]
  {
    match IndexOf(s, t, 0)
    case None => s
    case Some(i) => s[..i] + s[i + |t|..]
  }

  /** When the pattern occurs only as the suffix, removing it gives the stem. */
  lemma RemoveFirstSuffix(stem: string, t: string)
    requires forall j :: 0 <= j < |stem| ==> !OccursAt(stem + t, t, j)
    ensures RemoveFirst(stem + t, t) == stem
  {
    var s := stem + t;
    assert OccursAt(s, t, |stem|) by { assert s[|stem|..|stem| + |t|] == t; }
    var r := IndexOf(s, t, 0);
    assert r == Some(|stem|);
    assert s[..|stem|] == stem;
  }

  /** A text whose only occurrence of the pattern is its suffix loses exactly that suffix. */
  lemma RemoveSuffixOnly(s: string, t: string)
    ensures EndsWith(s, t) && (forall j :: 0 <= j < |s| - |t| ==> !OccursAt(s, t, j)) ==> RemoveFirst(s, t) == s[..|s| - |t|]
  {
    if EndsWith(s, t) && (forall j :: 0 <= j < |s| - |t| ==> !OccursAt(s, t, j)) {
      var stem := s[..|s| - |t|];
      assert s == stem + t;
      RemoveFirstSuffix(stem, t);
    }
  }

  predicate IsDigits(s: string) {
    forall i :: 0 <= i < |s| ==> IsDigit(s[i])
  }

  function DigitChar(d: nat): char
    requires d < 10
  {
    ('0' as int + d) as char
  }

  function DigitValue(c: char): int {
    c as int - '0' as int
  }

  /** Template-literal formatting of a non-negative integer: decimal digits,
      no leading zero. */
  function NatToString(n: nat): (r: string)
    ensures r != [] && IsDigits(r)
    ensures |r| > 1 ==> r[0] != '0'
  {
    if n < 10 then [DigitChar(n)] else NatToString(n / 10) + [DigitChar(n % 10)]
  }

  /** `parseInt(s, 10)` on a string of decimal digits. */
  function ParseDecimal(s: string): int {
    if s == [] then 0 else ParseDecimal(s[..|s| - 1]) * 10 + DigitValue(s[|s| - 1])
  }

  lemma {:induction false} ParseDecimalNonNegative(s: string)
    requires IsDigits(s)
    ensures ParseDecimal(s) >= 0
  {
    if s != [] {
      ParseDecimalNonNegative(s[..|s| - 1]);
    }
  }

  /** Formatting a number and parsing it back gives the number. */
  lemma {:induction false} ParseNatToString(n: nat)
    ensures ParseDecimal(NatToString(n)) == n
  {
    if n >= 10 {
      var r := NatToString(n);
      assert r[..|r| - 1] == NatToString(n / 10);
      ParseNatToString(n / 10);
    }
  }
}
