/** Option/Result wrappers used for the source's `null` returns and thrown exceptions. */
module Outcomes {
  datatype Option<T> = None | Some(value: T)

  datatype Result<T, E> = Ok(value: T) | Err(error: E)
}

/**
 * String primitives of JavaScript that the core relies on: the character classes
 * of its regular expressions, `trim`, ASCII case mapping, `split`/`join`,
 * `includes`, `replace` with a string pattern, and decimal digit strings.
 */
module Text {
  import opened Outcomes

  // ---------------------------------------------------------------------------
  // Character classes
  // ---------------------------------------------------------------------------

  /** `\d`: the ASCII digits only. */
  predicate IsDigit(c: char) { '0' <= c <= '9' }

  /** `[a-z]` under the `i` flag: the ASCII letters of either case. */
  predicate IsAsciiLetter(c: char) { 'a' <= c <= 'z' || 'A' <= c <= 'Z' }

  /** The line terminators, which the regular-expression `.` does not match. */
  predicate IsLineTerminator(c: char) {
    c == '\n' || c == '\r' || c == '\U{2028}' || c == '\U{2029}'
  }

  /**
   * `\s`, which is also the set of code points `String.prototype.trim` removes:
   * the ECMAScript WhiteSpace code points (tab, vertical tab, form feed, space,
   * no-break space, byte-order mark and the Unicode space separators) plus the
   * line terminators.
   */
  predicate IsSpace(c: char) {
    c == '\t' || c == '\U{000B}' || c == '\U{000C}' || c == ' ' || c == '\U{00A0}'
    || c == '\U{FEFF}' || c == '\U{1680}' || ('\U{2000}' <= c <= '\U{200A}')
    || c == '\U{202F}' || c == '\U{205F}' || c == '\U{3000}' || IsLineTerminator(c)
  }

  predicate AllDigits(s: string) { forall i :: 0 <= i < |s| ==> IsDigit(s[i]) }

  predicate AllSpace(s: string) { forall i :: 0 <= i < |s| ==> IsSpace(s[i]) }

  predicate AllAsciiLetters(s: string) { forall i :: 0 <= i < |s| ==> IsAsciiLetter(s[i]) }

  predicate NoLineTerminator(s: string) { forall i :: 0 <= i < |s| ==> !IsLineTerminator(s[i]) }

  // ---------------------------------------------------------------------------
  // Case mapping (ASCII letters only)
  // ---------------------------------------------------------------------------

  function UpperChar(c: char): char {
    if 'a' <= c <= 'z' then (c as int - 32) as char else c
  }

  function LowerChar(c: char): char {
    if 'A' <= c <= 'Z' then (c as int + 32) as char else c
  }

  /**
   * `toUpperCase`, restricted to the ASCII letters, character by character;
   * what that means for the month lookup and the search is `UpperIgnoresCase`.
   */
  function Upper(s: string): (r: string)
    ensures |r| == |s| && forall i :: 0 <= i < |s| ==> r[i] == UpperChar(s[i])
  {
    seq(|s|, i requires 0 <= i < |s| => UpperChar(s[i]))
  }

  /**
   * `toLowerCase`, restricted to the ASCII letters, character by character;
   * what that means for the month lookup and the search is `LowerIgnoresCase`.
   */
  function Lower(s: string): (r: string)
    ensures |r| == |s| && forall i :: 0 <= i < |s| ==> r[i] == LowerChar(s[i])
  {
    seq(|s|, i requires 0 <= i < |s| => LowerChar(s[i]))
  }

  /**
   * Upper-casing leaves no lower-case ASCII letter, changes nothing but ASCII
   * letters, and forgets the case the string was written in.
   */
  lemma UpperIgnoresCase(s: string)
    ensures forall i :: 0 <= i < |s| ==> !('a' <= Upper(s)[i] <= 'z')
    ensures forall i :: 0 <= i < |s| && !IsAsciiLetter(s[i]) ==> Upper(s)[i] == s[i]
    ensures Upper(Upper(s)) == Upper(s)
    ensures Upper(Lower(s)) == Upper(s)
  {
  }

  // ---------------------------------------------------------------------------
  // trim
  // ---------------------------------------------------------------------------

  function TrimStart(s: string): string {
    if |s| > 0 && IsSpace(s[0]) then TrimStart(s[1..]) else s
  }

  function TrimEnd(s: string): string {
    if |s| > 0 && IsSpace(s[|s| - 1]) then TrimEnd(s[..|s| - 1]) else s
  }

  /** `String.prototype.trim`: the string without its leading and trailing `\s` run. */
  function Trim(s: string): string {
    TrimStart(TrimEnd(s))
  }

  /** A string with no white space at either end is its own trim. */
  lemma TrimUnchanged(s: string)
    requires s == [] || (!IsSpace(s[0]) && !IsSpace(s[|s| - 1]))
    ensures Trim(s) == s
  {
  }

  /** A string without upper-case ASCII letters is its own lower case. */
  lemma LowerUnchanged(s: string)
    requires forall i :: 0 <= i < |s| ==> !('A' <= s[i] <= 'Z')
    ensures Lower(s) == s
  {
  }

  /** Appending white space does not change what `trim` returns. */
  lemma {:induction false} TrimEndAppendSpace(s: string, w: string)
    requires AllSpace(w)
    ensures TrimEnd(s + w) == TrimEnd(s)
    decreases |w|
  {
    if |w| > 0 {
      var v := w[..|w| - 1];
      assert (s + w)[..|s + w| - 1] == s + v;
      TrimEndAppendSpace(s, v);
    } else {
      assert s + w == s;
    }
  }

  lemma TrimAppendSpace(s: string, w: string)
    requires AllSpace(w)
    ensures Trim(s + w) == Trim(s)
  {
    TrimEndAppendSpace(s, w);
  }

  // ---------------------------------------------------------------------------
  // split / join
  // ---------------------------------------------------------------------------

  /** `s.split(sep)` for a one-character separator: never empty, `sep` in no part. */
  function Split(s: string, sep: char): (parts: seq<string>)
    ensures |parts| >= 1
    ensures forall k :: 0 <= k < |parts| ==> sep !in parts[k]
  {
    if |s| == 0 then [""]
    else
      var rest := Split(s[1..], sep);
      if s[0] == sep then [""] + rest
      else [[s[0]] + rest[0]] + rest[1..]
  }

  /** `parts.join(sep)`. */
  function Join(parts: seq<string>, sep: char): string
    requires |parts| >= 1
  {
    if |parts| == 1 then parts[0] else parts[0] + [sep] + Join(parts[1..], sep)
  }

  /** Splitting and joining again gives the original string back. */
  lemma {:induction false} JoinSplit(s: string, sep: char)
    ensures Join(Split(s, sep), sep) == s
  {
    if |s| > 0 {
      var rest := Split(s[1..], sep);
      JoinSplit(s[1..], sep);
      if s[0] == sep {
        assert Split(s, sep)[1..] == rest;
      } else {
        var parts := Split(s, sep);
        assert parts[1..] == rest[1..];
        if |rest| == 1 {
          assert Join(parts, sep) == [s[0]] + rest[0];
        } else {
          assert rest[1..] == rest[1..];
          assert Join(rest, sep) == rest[0] + [sep] + Join(rest[1..], sep);
          assert Join(parts, sep) == [s[0]] + rest[0] + [sep] + Join(rest[1..], sep);
        }
        assert [s[0]] + s[1..] == s;
      }
    }
  }

  /** Splitting `a + tail` where `a` has no separator glues `a` to the first part of `tail`'s split. */
  lemma {:induction false} SplitAfterPlainPrefix(a: string, tail: string, sep: char)
    requires sep !in a
    ensures Split(a + tail, sep) == [a + Split(tail, sep)[0]] + Split(tail, sep)[1..]
  {
    if |a| > 0 {
      assert (a + tail)[1..] == a[1..] + tail;
      assert sep !in a[1..] by { assert forall i :: 0 <= i < |a| - 1 ==> a[1..][i] == a[i + 1]; }
      SplitAfterPlainPrefix(a[1..], tail, sep);
      assert [a[0]] + (a[1..] + Split(tail, sep)[0]) == a + Split(tail, sep)[0];
    } else {
      assert a + tail == tail;
      var parts := Split(tail, sep);
      assert a + parts[0] == parts[0];
      assert parts == [parts[0]] + parts[1..];
    }
  }

  /** Joining parts that do not contain the separator and splitting again gives the parts back. */
  lemma {:induction false} SplitJoin(parts: seq<string>, sep: char)
    requires |parts| >= 1 && forall k :: 0 <= k < |parts| ==> sep !in parts[k]
    ensures Split(Join(parts, sep), sep) == parts
  {
    if |parts| == 1 {
      SplitAfterPlainPrefix(parts[0], "", sep);
      assert parts[0] + "" == parts[0];
    } else {
      SplitJoin(parts[1..], sep);
      var tail := [sep] + Join(parts[1..], sep);
      assert tail[1..] == Join(parts[1..], sep);
      assert Split(tail, sep) == [""] + parts[1..];
      SplitAfterPlainPrefix(parts[0], tail, sep);
      assert parts[0] + [sep] + Join(parts[1..], sep) == parts[0] + tail;
      assert parts[0] + "" == parts[0];
      assert [parts[0]] + parts[1..] == parts;
    }
  }

  /**
   * The last element of `split`, i.e. `split(sep).pop()`: the text after the last
   * separator, or the whole string when it has none.
   */
  function LastPart(s: string, sep: char): (r: string)
    ensures sep !in r
    ensures |r| <= |s| && r == s[|s| - |r|..]
    ensures |r| < |s| ==> s[|s| - |r| - 1] == sep
    ensures sep !in s ==> r == s
  {
    var parts := Split(s, sep);
    SplitLastIsSuffix(s, sep);
    parts[|parts| - 1]
  }

  /**
   * The last part of a split ends the string and follows a separator, or is the
   * whole string; with two or more parts it is shorter than the string.
   */
  lemma {:induction false} SplitLastIsSuffix(s: string, sep: char)
    ensures var parts := Split(s, sep);
            var r := parts[|parts| - 1];
            && |r| <= |s| && r == s[|s| - |r|..]
            && (|r| < |s| ==> s[|s| - |r| - 1] == sep)
            && (|parts| == 1 ==> r == s)
            && (|parts| >= 2 ==> |r| < |s|)
  {
    if |s| > 0 {
      var t := s[1..];
      var rest := Split(t, sep);
      SplitLastIsSuffix(t, sep);
      var last := rest[|rest| - 1];
      assert t[|t| - |last|..] == s[|s| - |last|..];
      if |last| < |t| {
        assert t[|t| - |last| - 1] == s[|s| - |last| - 1];
      }
      if s[0] != sep && |rest| == 1 {
        assert [s[0]] + t == s;
      }
    }
  }

  // ---------------------------------------------------------------------------
  // includes / indexOf / replace
  // ---------------------------------------------------------------------------

  predicate IsPrefix(p: string, s: string) { |p| <= |s| && s[..|p|] == p }

  /** `p` occurs in `s` at position `j`. */
  predicate OccursAt(s: string, p: string, j: nat) { j + |p| <= |s| && s[j..j + |p|] == p }

  lemma OccursAtTail(s: string, p: string, j: nat)
    requires |s| > 0 && j >= 1
    ensures OccursAt(s, p, j) <==> OccursAt(s[1..], p, j - 1)
  {
    if j + |p| <= |s| {
      assert s[j..j + |p|] == s[1..][j - 1..j - 1 + |p|];
    }
  }

  /** `s.indexOf(p)`: the first position where `p` occurs, if any. */
  function IndexOf(s: string, p: string): (r: Option<nat>)
    ensures r.Some? ==> OccursAt(s, p, r.value)
    ensures r.Some? ==> forall j: nat :: j < r.value ==> !OccursAt(s, p, j)
    ensures r.None? ==> forall j: nat :: !OccursAt(s, p, j)
    decreases |s|
  {
    if IsPrefix(p, s) then Some(0)
    else if |s| == 0 then None
    else match IndexOf(s[1..], p)
      case None =>
        assert forall j: nat :: !OccursAt(s, p, j) by {
          forall j: nat ensures !OccursAt(s, p, j) {
            if j >= 1 { OccursAtTail(s, p, j); }
          }
        }
        None
      case Some(k) =>
        assert OccursAt(s, p, k + 1) && forall j: nat :: j < k + 1 ==> !OccursAt(s, p, j) by {
          OccursAtTail(s, p, k + 1);
          forall j: nat | j < k + 1 ensures !OccursAt(s, p, j) {
            if j >= 1 { OccursAtTail(s, p, j); }
          }
        }
        Some(k + 1)
  }

  /** `s.includes(p)`. */
  predicate Includes(s: string, p: string) { IndexOf(s, p).Some? }

  /** `s.toLowerCase().includes(p.toLowerCase())`: a case-insensitive substring test. */
  predicate ContainsIgnoringCase(s: string, p: string) { Includes(Lower(s), Lower(p)) }

  /**
   * Lower-casing leaves no upper-case ASCII letter, changes nothing but ASCII
   * letters, and forgets the case the string was written in.
   */
  lemma LowerIgnoresCase(s: string)
    ensures forall i :: 0 <= i < |s| ==> !('A' <= Lower(s)[i] <= 'Z')
    ensures forall i :: 0 <= i < |s| && !IsAsciiLetter(s[i]) ==> Lower(s)[i] == s[i]
    ensures Lower(Upper(s)) == Lower(s) && Lower(Lower(s)) == Lower(s)
  {
  }

  /**
   * The case-insensitive test does not depend on the case of either side, every
   * string contains itself and the empty string, and what it finds is really there.
   */
  lemma ContainsIgnoringCaseFacts(s: string, p: string)
    ensures ContainsIgnoringCase(Upper(s), p) == ContainsIgnoringCase(s, p)
    ensures ContainsIgnoringCase(s, Upper(p)) == ContainsIgnoringCase(s, p)
    ensures ContainsIgnoringCase(s, s) && ContainsIgnoringCase(s, "")
    ensures ContainsIgnoringCase(s, p) <==> exists j: nat :: OccursAt(Lower(s), Lower(p), j)
  {
    LowerIgnoresCase(s);
    LowerIgnoresCase(p);
    assert OccursAt(Lower(s), Lower(s), 0);
    assert OccursAt(Lower(s), Lower(""), 0);
  }

  /** `s.replace(p, "")` with a string pattern: removes the FIRST occurrence only. */
  function RemoveFirst(s: string, p: string): (r: string)
    ensures IndexOf(s, p).None? ==> r == s
    ensures IndexOf(s, p).Some? ==> |r| == |s| - |p|
    ensures IndexOf(s, p).Some? ==>
              var i := IndexOf(s, p).value;
              i <= |r| && s == r[..i] + p + r[i..] && forall j: nat :: j < i ==> !OccursAt(s, p, j)
  {
    match IndexOf(s, p)
    case None => s
    case Some(i) => s[..i] + s[i + |p|..]
  }

  /** `s.replace(/\\/g, '/')`. */
  function BackslashToSlash(s: string): (r: string)
    ensures |r| == |s| && '\\' !in r
    ensures forall i :: 0 <= i < |s| && s[i] != '\\' ==> r[i] == s[i]
    ensures forall i :: 0 <= i < |s| && s[i] == '\\' ==> r[i] == '/'
  {
    seq(|s|, i requires 0 <= i < |s| => if s[i] == '\\' then '/' else s[i])
  }

  // ---------------------------------------------------------------------------
  // Decimal digit strings
  // ---------------------------------------------------------------------------

  function DigitValue(c: char): nat
    requires IsDigit(c)
  {
    c as int - '0' as int
  }

  function DigitChar(d: nat): char
    requires d < 10
  {
    ('0' as int + d) as char
  }

  function Pow10(n: nat): (r: nat)
    ensures r >= 1
  {
    if n == 0 then 1 else 10 * Pow10(n - 1)
  }

  /** `parseInt` of a string of decimal digits. */
  function DigitsValue(s: string): (v: nat)
    requires AllDigits(s)
    ensures v < Pow10(|s|)
  {
    if |s| == 0 then 0 else 10 * DigitsValue(s[..|s| - 1]) + DigitValue(s[|s| - 1])
  }

  /** The `width` least significant decimal digits of `n`, zero-padded (as `padStart(width, '0')` does). */
  function Digits(n: nat, width: nat): (s: string)
    ensures |s| == width && AllDigits(s)
  {
    if width == 0 then [] else Digits(n / 10, width - 1) + [DigitChar(n % 10)]
  }

  /** Reading a digit string and writing it back at the same width is the identity. */
  lemma {:induction false} DigitsRoundTrip(s: string)
    requires AllDigits(s)
    ensures Digits(DigitsValue(s), |s|) == s
  {
    if |s| > 0 {
      var init := s[..|s| - 1];
      var v := DigitsValue(init);
      var d := DigitValue(s[|s| - 1]);
      assert (10 * v + d) / 10 == v;
      assert (10 * v + d) % 10 == d;
      DigitsRoundTrip(init);
      assert init + [s[|s| - 1]] == s;
    }
  }

  /** Writing a number below `10^width` and reading it back is the identity. */
  lemma {:induction false} ValueOfDigits(n: nat, width: nat)
    requires n < Pow10(width)
    ensures DigitsValue(Digits(n, width)) == n
  {
    if width > 0 {
      var s := Digits(n, width);
      assert s[..|s| - 1] == Digits(n / 10, width - 1);
      ValueOfDigits(n / 10, width - 1);
    }
  }

  /** Number of decimal digits `String(n)` has. */
  function DecimalWidth(n: nat): (w: nat)
    ensures w >= 1 && n < Pow10(w)
  {
    if n < 10 then 1 else 1 + DecimalWidth(n / 10)
  }

  /** `String(n)` for a non-negative integer. */
  function DecimalString(n: nat): (s: string)
    ensures AllDigits(s) && |s| >= 1
    ensures DigitsValue(s) == n
  {
    ValueOfDigits(n, DecimalWidth(n));
    Digits(n, DecimalWidth(n))
  }
}
