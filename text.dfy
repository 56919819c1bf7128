/** Strings as sequences of characters, and the small string operations the
    threat detector relies on: case-insensitive literal matching (what its
    `/.../i` regular expressions over plain words amount to), JavaScript's
    whitespace and line-terminator classes, `includes`, `join` and the
    decimal rendering of a count. */
module Text {
  import opened Wrappers

  /** Lower-cases an ASCII letter and leaves every other character alone.
      Without the `u` flag, JavaScript's case-insensitive matching never folds
      a non-ASCII character onto an ASCII one, so for the ASCII literals
      matched here this is exact. */
  function LowerChar(c: char): char
  {
    if 'A' <= c <= 'Z' then (c as int + 32) as char else c
  }

  function Lower(s: string): (r: string)
    ensures |r| == |s|
    ensures forall i :: 0 <= i < |s| ==> r[i] == LowerChar(s[i])
  {
    seq(|s|, i requires 0 <= i < |s| => LowerChar(s[i]))
  }

  /** Lower-casing distributes over concatenation. */
  lemma LowerAppend(a: string, b: string)
    ensures Lower(a + b) == Lower(a) + Lower(b)
  {
    assert forall i :: 0 <= i < |a + b| ==> Lower(a + b)[i] == (Lower(a) + Lower(b))[i];
  }

  /** `lit` occurs at position `i` of `s` exactly (JavaScript `includes`). */
  predicate MatchAt(s: string, i: nat, lit: string)
  {
    i + |lit| <= |s| && s[i..i + |lit|] == lit
  }

  predicate Includes(s: string, lit: string)
  {
    exists i :: 0 <= i <= |s| && MatchAt(s, i, lit)
  }

  /** `lit` occurs at position `i` of `s`, ignoring the case of ASCII letters. */
  predicate MatchCIAt(s: string, i: nat, lit: string)
  {
    i + |lit| <= |s| && forall k :: 0 <= k < |lit| ==> LowerChar(s[i + k]) == LowerChar(lit[k])
  }

  /** A `/lit/i` regular expression test. */
  predicate ContainsCI(s: string, lit: string)
  {
    exists i :: 0 <= i <= |s| && MatchCIAt(s, i, lit)
  }

  /** A `/^lit/i` test. */
  predicate StartsWithCI(s: string, lit: string)
  {
    MatchCIAt(s, 0, lit)
  }

  /** A `/lit$/i` test (`$` without the `m` flag: the end of the input). */
  predicate EndsWithCI(s: string, lit: string)
  {
    |lit| <= |s| && MatchCIAt(s, |s| - |lit|, lit)
  }

  /** The first position at or after `from` where `lit` occurs, ignoring case:
      the leftmost match a regular-expression engine finds. */
  function FindCI(s: string, lit: string, from: nat): (r: Option<nat>)
    requires from <= |s|
    ensures r.Some? ==> from <= r.value && MatchCIAt(s, r.value, lit)
    ensures r.Some? ==> forall k :: from <= k < r.value ==> !MatchCIAt(s, k, lit)
    ensures r.None? ==> forall k :: from <= k ==> !MatchCIAt(s, k, lit)
    decreases |s| - from
  {
    if MatchCIAt(s, from, lit) then Some(from)
    else if from == |s| then None
    else FindCI(s, lit, from + 1)
  }

  /** The characters at which `.` stops when the `s` flag is absent. */
  predicate IsLineTerminator(c: char)
  {
    c == '\n' || c == '\r' || c == '\U{2028}' || c == '\U{2029}'
  }

  /** The characters JavaScript's `\s` class matches. */
  predicate IsJsSpace(c: char)
  {
    || c == '\t' || c == '\n' || c as int == 0x0B || c as int == 0x0C || c == '\r'
    || c == ' ' || c as int == 0xA0 || c as int == 0x1680
    || (0x2000 <= c as int <= 0x200A)
    || c == '\U{2028}' || c == '\U{2029}'
    || c as int == 0x202F || c as int == 0x205F || c as int == 0x3000 || c as int == 0xFEFF
  }

  /** No line terminator among `s[i..j]`: `.*` can span that stretch. */
  predicate OnOneLine(s: string, i: nat, j: nat)
    requires i <= j <= |s|
  {
    forall k :: i <= k < j ==> !IsLineTerminator(s[k])
  }

  /** A `/a.*b/i` test: `a`, then later on the same line `b`. */
  predicate FollowsOnLine(s: string, a: string, b: string)
  {
    exists i, j :: 0 <= i <= |s| && i + |a| <= j <= |s|
      && MatchCIAt(s, i, a) && MatchCIAt(s, j, b) && OnOneLine(s, i + |a|, j)
  }

  /** A `/a.*b.*c/i` test. */
  predicate FollowsOnLine3(s: string, a: string, b: string, c: string)
  {
    exists i, j, k :: 0 <= i <= |s| && i + |a| <= j <= |s| && j + |b| <= k <= |s|
      && MatchCIAt(s, i, a) && MatchCIAt(s, j, b) && MatchCIAt(s, k, c)
      && OnOneLine(s, i + |a|, j) && OnOneLine(s, j + |b|, k)
  }

  /** A literal whose `k`-th character never occurs in `s` (ignoring case)
      occurs nowhere in `s`. */
  lemma AbsentCharExcludes(s: string, lit: string, k: nat)
    requires k < |lit|
    requires forall i :: 0 <= i < |s| ==> LowerChar(s[i]) != LowerChar(lit[k])
    ensures !ContainsCI(s, lit)
  {
    forall i | 0 <= i <= |s| ensures !MatchCIAt(s, i, lit) {
      if i + |lit| <= |s| {
        assert LowerChar(s[i + k]) != LowerChar(lit[k]);
      }
    }
  }

  /** A two-character opening that never occurs in `s` (ignoring case)
      rules out the whole literal. */
  lemma AbsentPairExcludes(s: string, lit: string)
    requires |lit| >= 2
    requires forall i :: 0 <= i < |s| - 1 ==>
      LowerChar(s[i]) != LowerChar(lit[0]) || LowerChar(s[i + 1]) != LowerChar(lit[1])
    ensures !ContainsCI(s, lit)
  {
    forall i | 0 <= i <= |s| ensures !MatchCIAt(s, i, lit) {
      if i + |lit| <= |s| {
        assert LowerChar(s[i]) != LowerChar(lit[0]) || LowerChar(s[i + 1]) != LowerChar(lit[1]);
      }
    }
  }

  /** `a.*b` and `a.*b.*c` need an occurrence of `a`. */
  lemma FollowsNeedsFirst(s: string, a: string, b: string, c: string)
    ensures FollowsOnLine(s, a, b) ==> ContainsCI(s, a)
    ensures FollowsOnLine3(s, a, b, c) ==> ContainsCI(s, a)
  {
  }

  /** The middle part of a concatenation is included in it. */
  lemma IncludesMiddle(p: string, m: string, q: string)
    ensures Includes(p + m + q, m)
  {
    assert (p + m + q)[|p|..|p| + |m|] == m;
    assert MatchAt(p + m + q, |p|, m);
  }

  /** A template literal: its fixed text and interpolated values, in order. */
  function Concat(parts: seq<string>): string
  {
    if |parts| == 0 then "" else parts[0] + Concat(parts[1..])
  }

  lemma IncludesExtend(p: string, s: string, m: string)
    requires Includes(s, m)
    ensures Includes(p + s, m)
  {
    var i :| 0 <= i <= |s| && MatchAt(s, i, m);
    assert (p + s)[|p| + i..|p| + i + |m|] == s[i..i + |m|];
    assert MatchAt(p + s, |p| + i, m);
  }

  /** Every fragment of a template occurs in the text it produces. */
  lemma {:induction false} ConcatIncludesPart(parts: seq<string>, i: nat)
    requires i < |parts|
    ensures Includes(Concat(parts), parts[i])
    decreases |parts|
  {
    if i == 0 {
      IncludesMiddle("", parts[0], Concat(parts[1..]));
      assert "" + parts[0] + Concat(parts[1..]) == Concat(parts);
    } else {
      ConcatIncludesPart(parts[1..], i - 1);
      IncludesExtend(parts[0], Concat(parts[1..]), parts[i]);
    }
  }

  /** JavaScript `Array.prototype.join`. */
  function Join(xs: seq<string>, sep: string): string
  {
    if |xs| == 0 then ""
    else if |xs| == 1 then xs[0]
    else xs[0] + sep + Join(xs[1..], sep)
  }

  function DigitChar(d: nat): char
    requires d < 10
  {
    ('0' as int + d) as char
  }

  predicate IsDigit(c: char)
  {
    '0' <= c <= '9'
  }

  function DigitValue(c: char): nat
    requires IsDigit(c)
  {
    c as int - '0' as int
  }

  /** JavaScript's `String(n)` for a non-negative integer. */
  function NatToString(n: nat): (r: string)
    ensures |r| >= 1
    ensures forall i :: 0 <= i < |r| ==> IsDigit(r[i])
    ensures r[0] == '0' ==> n == 0
    decreases n
  {
    if n < 10 then [DigitChar(n)] else NatToString(n / 10) + [DigitChar(n % 10)]
  }

  /** Reads a string of decimal digits back as a number. */
  function ParseDecimal(s: string): nat
    requires forall i :: 0 <= i < |s| ==> IsDigit(s[i])
  {
    if |s| == 0 then 0
    else ParseDecimal(s[..|s| - 1]) * 10 + DigitValue(s[|s| - 1])
  }

  /** The decimal rendering of a count reads back as that count. */
  lemma {:induction false} NatToStringRoundTrip(n: nat)
    ensures ParseDecimal(NatToString(n)) == n
    decreases n
  {
    if n >= 10 {
      var r := NatToString(n);
      assert r[..|r| - 1] == NatToString(n / 10);
      NatToStringRoundTrip(n / 10);
    }
  }
}
