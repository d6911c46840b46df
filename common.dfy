/**
 * Values and string helpers shared by the backend and frontend models:
 * an Option type standing for JavaScript's "absent" (undefined/null),
 * the few string operations the controllers rely on (`endsWith`,
 * `split('\n')[0]`, `join`, decimal rendering of a number, ASCII
 * lower-casing, `trim()` truthiness), and the add-or-delete toggle that two
 * UI components apply to a `Set`.
 */
module Common {

  datatype Option<+T> = None | Some(value: T)

  datatype Result<+T, +E> = Ok(value: T) | Err(error: E)

  type byte = x: int | 0 <= x < 256

  // ----------------------------------------------------------------------
  // Prefixes, suffixes, infixes

  predicate StartsWith(s: string, prefix: string) {
    |prefix| <= |s| && s[..|prefix|] == prefix
  }

  predicate EndsWith(s: string, suffix: string) {
    |suffix| <= |s| && s[|s| - |suffix|..] == suffix
  }

  /** `needle` occurs somewhere inside `hay`. */
  predicate IsInfix(needle: string, hay: string) {
    exists i :: 0 <= i <= |hay| && StartsWith(hay[i..], needle)
  }

  lemma InfixOfConcat(a: string, needle: string, b: string)
    ensures IsInfix(needle, a + needle + b)
  {
    var hay := a + needle + b;
    assert hay[|a|..][..|needle|] == needle;
  }

  // ----------------------------------------------------------------------
  // `s.split('\n')[0]`: everything before the first line feed

  function FirstLine(s: string): (r: string)
    ensures '\n' !in r
    ensures StartsWith(s, r)
    ensures r == s || (|r| < |s| && s[|r|] == '\n')
    decreases |s|
  {
    if s == [] then []
    else if s[0] == '\n' then []
    else [s[0]] + FirstLine(s[1..])
  }

  lemma {:induction false} FirstLineOfSingleLine(s: string)
    requires '\n' !in s
    ensures FirstLine(s) == s
    decreases |s|
  {
    if s != [] {
      assert '\n' !in s[1..] by {
        forall k | 0 <= k < |s[1..]| ensures s[1..][k] != '\n' { assert s[1..][k] == s[k + 1]; }
      }
      FirstLineOfSingleLine(s[1..]);
    }
  }

  // ----------------------------------------------------------------------
  // `parts.join(sep)`

  function Join(parts: seq<string>, sep: string): (r: string)
    decreases |parts|
  {
    if |parts| == 0 then ""
    else if |parts| == 1 then parts[0]
    else parts[0] + sep + Join(parts[1..], sep)
  }

  lemma {:induction false} JoinEmpty(parts: seq<string>, sep: string)
    requires |sep| > 0
    ensures Join(parts, sep) == "" <==> (|parts| == 0 || (|parts| == 1 && parts[0] == ""))
    decreases |parts|
  {
    if |parts| > 1 {
      assert |Join(parts, sep)| >= |sep|;
    }
  }

  /** Appending a piece to a non-empty list appends the separator and the piece. */
  lemma {:induction false} JoinSnoc(parts: seq<string>, x: string, sep: string)
    requires |parts| > 0
    ensures Join(parts + [x], sep) == Join(parts, sep) + sep + x
    decreases |parts|
  {
    if |parts| > 1 {
      assert (parts + [x])[1..] == parts[1..] + [x];
      JoinSnoc(parts[1..], x, sep);
    } else {
      assert parts + [x] == [parts[0], x];
      assert [parts[0], x][1..] == [x];
    }
  }

  /** Joining non-empty pieces gives the empty string only for no pieces. */
  lemma JoinOfNonEmpty(parts: seq<string>, sep: string)
    requires |sep| > 0
    requires forall k :: 0 <= k < |parts| ==> parts[k] != ""
    ensures Join(parts, sep) == "" <==> |parts| == 0
  {
    JoinEmpty(parts, sep);
  }

  // ----------------------------------------------------------------------
  // Decimal rendering of a non-negative integer (template literal `${n}`)

  function DigitChar(d: nat): (c: char)
    requires d < 10
    ensures '0' <= c <= '9'
    ensures c as int - '0' as int == d
  {
    ['0', '1', '2', '3', '4', '5', '6', '7', '8', '9'][d]
  }

  predicate IsDigits(s: string) {
    forall k :: 0 <= k < |s| ==> '0' <= s[k] <= '9'
  }

  /** The number a string of decimal digits denotes, most significant digit first. */
  function DigitsValue(s: string): nat
    requires IsDigits(s)
  {
    if |s| == 0 then 0 else DigitsValue(s[..|s| - 1]) * 10 + (s[|s| - 1] as int - '0' as int)
  }

  /** `${n}`: the decimal digits of `n`. */
  function NatToString(n: nat): (r: string)
    ensures |r| >= 1 && IsDigits(r)
    decreases n
  {
    if n < 10 then [DigitChar(n)] else NatToString(n / 10) + [DigitChar(n % 10)]
  }

  /** The digits denote `n`, and only `0` is written with a leading zero. */
  lemma {:induction false} NatToStringValue(n: nat)
    ensures DigitsValue(NatToString(n)) == n
    ensures NatToString(n)[0] == '0' ==> n == 0
    decreases n
  {
    if n >= 10 {
      var r := NatToString(n);
      NatToStringValue(n / 10);
      assert r[..|r| - 1] == NatToString(n / 10);
      assert r[0] == NatToString(n / 10)[0];
    }
  }

  // ----------------------------------------------------------------------
  // ASCII case folding (the case-insensitive colour match)

  function LowerChar(c: char): char {
    if 'A' <= c <= 'Z' then (c as int + 32) as char else c
  }

  function Lower(s: string): (r: string)
    ensures |r| == |s|
    ensures forall k :: 0 <= k < |s| ==> r[k] == LowerChar(s[k])
  {
    seq(|s|, k requires 0 <= k < |s| => LowerChar(s[k]))
  }

  // ----------------------------------------------------------------------
  // `s.trim()` is truthy exactly when `s` has a non-whitespace character

  /** The white space and line terminators `trim()` removes. */
  predicate IsWhitespace(c: char) {
    c == ' ' || c == '\t' || c == '\n' || c == '\r' || c == '\U{B}' || c == '\U{C}'
    || c == '\U{A0}' || c == '\U{1680}' || ('\U{2000}' <= c <= '\U{200A}')
    || c == '\U{2028}' || c == '\U{2029}' || c == '\U{202F}' || c == '\U{205F}'
    || c == '\U{3000}' || c == '\U{FEFF}'
  }

  predicate TrimIsNonEmpty(s: string) {
    exists k :: 0 <= k < |s| && !IsWhitespace(s[k])
  }

  /** `s.trimStart()`: the suffix left after the leading white space. */
  function TrimStart(s: string): (r: string)
    ensures |r| <= |s| && r == s[|s| - |r|..]
    ensures forall k :: 0 <= k < |s| - |r| ==> IsWhitespace(s[k])
    ensures |r| > 0 ==> !IsWhitespace(r[0])
  {
    if |s| > 0 && IsWhitespace(s[0]) then TrimStart(s[1..]) else s
  }

  /** `s.trimEnd()`: the prefix left before the trailing white space. */
  function TrimEnd(s: string): (r: string)
    ensures |r| <= |s| && r == s[..|r|]
    ensures forall k :: |r| <= k < |s| ==> IsWhitespace(s[k])
    ensures |r| > 0 ==> !IsWhitespace(r[|r| - 1])
  {
    if |s| > 0 && IsWhitespace(s[|s| - 1]) then TrimEnd(s[..|s| - 1]) else s
  }

  /**
   * `r` is `s` with its leading and trailing `drop` characters removed: a
   * slice of `s` with only such characters around it, and none at its own ends.
   */
  ghost predicate StrippedFrom(r: string, s: string, drop: char -> bool) {
    && (exists i, j :: 0 <= i <= j <= |s| && r == s[i..j]
                       && forall k :: 0 <= k < i || j <= k < |s| ==> drop(s[k]))
    && (|r| > 0 ==> !drop(r[0]) && !drop(r[|r| - 1]))
  }

  /** A stripped `s` is empty exactly when every character of `s` is dropped. */
  lemma StrippedFromEmpty(r: string, s: string, drop: char -> bool)
    requires StrippedFrom(r, s, drop)
    ensures r == "" <==> forall k :: 0 <= k < |s| ==> drop(s[k])
  {
    var i, j :| 0 <= i <= j <= |s| && r == s[i..j]
                && forall k :: 0 <= k < i || j <= k < |s| ==> drop(s[k]);
    if r != "" {
      assert s[i] == r[0];
    }
  }

  /** At most one string is `s` stripped. */
  lemma StrippedFromUnique(r1: string, r2: string, s: string, drop: char -> bool)
    requires StrippedFrom(r1, s, drop) && StrippedFrom(r2, s, drop)
    ensures r1 == r2
  {
    if r1 == "" || r2 == "" {
      StrippedFromEmpty(r1, s, drop);
      StrippedFromEmpty(r2, s, drop);
    } else {
      var i1, j1 := KeptSpan(r1, s, drop);
      var i2, j2 := KeptSpan(r2, s, drop);
      KeptSpanUnique(s, drop, i1, j1, i2, j2);
    }
  }

  /** Where a non-empty stripped `s` sits in `s`: it starts and ends with kept characters. */
  lemma KeptSpan(r: string, s: string, drop: char -> bool) returns (i: nat, j: nat)
    requires StrippedFrom(r, s, drop) && r != ""
    ensures i < j <= |s| && r == s[i..j]
    ensures forall k :: 0 <= k < i || j <= k < |s| ==> drop(s[k])
    ensures !drop(s[i]) && !drop(s[j - 1])
  {
    i, j :| 0 <= i <= j <= |s| && r == s[i..j]
            && forall k :: 0 <= k < i || j <= k < |s| ==> drop(s[k]);
    assert s[i] == r[0] && s[j - 1] == r[|r| - 1];
  }

  /** Two spans with kept characters at both ends and only dropped ones around them coincide. */
  lemma KeptSpanUnique(s: string, drop: char -> bool, i1: nat, j1: nat, i2: nat, j2: nat)
    requires i1 < j1 <= |s| && i2 < j2 <= |s|
    requires forall k :: 0 <= k < i1 || j1 <= k < |s| ==> drop(s[k])
    requires forall k :: 0 <= k < i2 || j2 <= k < |s| ==> drop(s[k])
    requires !drop(s[i1]) && !drop(s[j1 - 1]) && !drop(s[i2]) && !drop(s[j2 - 1])
    ensures i1 == i2 && j1 == j2
  {
  }

  /** `s` with its leading and trailing white space removed. */
  ghost predicate TrimmedFrom(r: string, s: string) {
    StrippedFrom(r, s, IsWhitespace)
  }

  /** Dropping a prefix and then a suffix of `drop` characters strips `s`. */
  lemma StripBothEnds(s: string, t: string, r: string, drop: char -> bool)
    requires |t| <= |s| && t == s[|s| - |t|..]
    requires forall k :: 0 <= k < |s| - |t| ==> drop(s[k])
    requires |t| > 0 ==> !drop(t[0])
    requires |r| <= |t| && r == t[..|r|]
    requires forall k :: |r| <= k < |t| ==> drop(t[k])
    requires |r| > 0 ==> !drop(r[|r| - 1])
    ensures StrippedFrom(r, s, drop)
  {
    var i := |s| - |t|;
    var j := i + |r|;
    assert r == s[i..j];
    forall k | j <= k < |s| ensures drop(s[k]) {
      assert s[k] == t[k - i];
    }
    if |r| > 0 {
      assert r[0] == t[0];
    }
  }

  /** `s.trim()`. */
  function Trim(s: string): (r: string)
    ensures TrimmedFrom(r, s)
  {
    var t := TrimStart(s);
    var r := TrimEnd(t);
    StripBothEnds(s, t, r, IsWhitespace);
    r
  }

  /** Whatever is `s` trimmed is `Trim(s)`. */
  lemma TrimUnique(r: string, s: string)
    requires TrimmedFrom(r, s)
    ensures r == Trim(s)
  {
    StrippedFromUnique(r, Trim(s), s, IsWhitespace);
  }

  /** `s.trim()` is truthy exactly when `s` has a character that is not white space. */
  lemma TrimEmptyIff(s: string)
    ensures Trim(s) != "" <==> TrimIsNonEmpty(s)
  {
    var t := TrimStart(s);
    var r := TrimEnd(t);
    if r == "" {
      assert forall k :: 0 <= k < |s| ==> IsWhitespace(s[k]);
    } else {
      assert s[|s| - |t|] == r[0];
    }
  }

  /** JavaScript truthiness of a `string | null`: present and not empty. */
  predicate Truthy(o: Option<string>) {
    o.Some? && o.value != ""
  }

  // ----------------------------------------------------------------------
  // Copy a Set, then delete the element if present, otherwise add it

  function Toggled<T(!new)>(s: set<T>, x: T): (r: set<T>)
    ensures x in r <==> x !in s
    ensures forall y :: y != x ==> (y in r <==> y in s)
  {
    if x in s then s - {x} else s + {x}
  }

  lemma ToggledTwice<T(!new)>(s: set<T>, x: T)
    ensures Toggled(Toggled(s, x), x) == s
  {
  }

  // ----------------------------------------------------------------------
  // `current === id ? null : id`: a click on the chosen entry clears the
  // choice, a click on any other entry chooses it

  function ToggledChoice<T(==)>(current: Option<T>, x: T): (r: Option<T>)
    ensures r.None? <==> current == Some(x)
    ensures r.Some? ==> r.value == x
  {
    if current == Some(x) then None else Some(x)
  }

  /** Clicking the same entry twice returns to no choice, or to that entry. */
  lemma ToggledChoiceTwice<T>(current: Option<T>, x: T)
    requires current.None? || current == Some(x)
    ensures ToggledChoice(ToggledChoice(current, x), x) == current
  {
  }
}
