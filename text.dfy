/** String helpers shared by the scanners and the message builders: the
    JavaScript `\s` character class, substring search, ASCII lowering,
    decimal rendering of counts and `Array.prototype.join`. */
module Text {
  import opened Types

  /** JavaScript's `\s`: the Unicode white-space and line-terminator
      characters (tab, LF, VT, FF, CR, space, NBSP, U+1680, U+2000-U+200A,
      U+2028, U+2029, U+202F, U+205F, U+3000, U+FEFF). */
  predicate IsSpace(c: char)
  {
    || c == '\t' || c == '\n' || c == '\U{B}' || c == '\U{C}' || c == '\r' || c == ' '
    || c == '\U{A0}' || c == '\U{1680}' || ('\U{2000}' <= c <= '\U{200A}')
    || c == '\U{2028}' || c == '\U{2029}' || c == '\U{202F}' || c == '\U{205F}'
    || c == '\U{3000}' || c == '\U{FEFF}'
  }

  /** `p` occurs in `s` starting at index `i`. */
  predicate IsAt(s: string, i: nat, p: string)
  {
    i + |p| <= |s| && forall j :: 0 <= j < |p| ==> s[i + j] == p[j]
  }

  /** `s.includes(p)` */
  predicate Contains(s: string, p: string)
  {
    exists k :: 0 <= k <= |s| && IsAt(s, k, p)
  }

  /** The first index at or after `i` where `p` occurs (`s.indexOf(p, i)`). */
  function FindFrom(s: string, p: string, i: nat): (r: Option<nat>)
    decreases |s| - i
    ensures r.Some? ==> i <= r.value && IsAt(s, r.value, p)
    ensures r.Some? ==> forall k :: i <= k < r.value ==> !IsAt(s, k, p)
    ensures r.None? ==> forall k :: i <= k ==> !IsAt(s, k, p)
  {
    if |s| < i + |p| then None
    else if IsAt(s, i, p) then Some(i)
    else FindFrom(s, p, i + 1)
  }

  /** The end of the run of `\s` characters that starts at `i` (what a greedy
      `\s*` consumes). */
  function SkipSpaces(s: string, i: nat): (j: nat)
    requires i <= |s|
    decreases |s| - i
    ensures i <= j <= |s|
    ensures forall k :: i <= k < j ==> IsSpace(s[k])
    ensures j == |s| || !IsSpace(s[j])
  {
    if i == |s| || !IsSpace(s[i]) then i else SkipSpaces(s, i + 1)
  }

  /** The end of the run that starts at `i` of characters that are neither
      `\s` nor `stop` (what a greedy `[^\s<stop>]*` consumes). */
  function RunEnd(s: string, i: nat, stop: char): (j: nat)
    requires i <= |s|
    decreases |s| - i
    ensures i <= j <= |s|
    ensures forall k :: i <= k < j ==> !IsSpace(s[k]) && s[k] != stop
    ensures j == |s| || IsSpace(s[j]) || s[j] == stop
  {
    if i == |s| || IsSpace(s[i]) || s[i] == stop then i else RunEnd(s, i + 1, stop)
  }

  /** A run that is followed by `stop` ends exactly there. */
  lemma {:induction false} RunEndAt(s: string, i: nat, stop: char, e: nat)
    requires i <= e < |s| && s[e] == stop
    requires forall k :: i <= k < e ==> !IsSpace(s[k]) && s[k] != stop
    ensures RunEnd(s, i, stop) == e
    decreases e - i
  {
    if i < e {
      RunEndAt(s, i + 1, stop, e);
    }
  }

  /** A run that is followed by a space ends exactly there. */
  lemma {:induction false} RunEndAtSpace(s: string, i: nat, stop: char, e: nat)
    requires i <= e < |s| && IsSpace(s[e])
    requires forall k :: i <= k < e ==> !IsSpace(s[k]) && s[k] != stop
    ensures RunEnd(s, i, stop) == e
    decreases e - i
  {
    if i < e {
      RunEndAtSpace(s, i + 1, stop, e);
    }
  }

  /** `s.endsWith(suffix)` */
  predicate EndsWith(s: string, suffix: string)
  {
    |suffix| <= |s| && IsAt(s, |s| - |suffix|, suffix)
  }

  /** A suffix of the right operand is a suffix of the concatenation. */
  lemma EndsWithConcat(x: string, y: string, suffix: string)
    requires EndsWith(y, suffix)
    ensures EndsWith(x + y, suffix)
  {
    IsAtConcatRight(x, y, |y| - |suffix|, suffix);
  }

  /** Appending the same text to a string and to its suffix keeps it a
      suffix. */
  lemma EndsWithAppend(x: string, suffix: string, c: string)
    requires EndsWith(x, suffix)
    ensures EndsWith(x + c, suffix + c)
  {
  }

  /** A text that ends with `a + b`, where `a` ends with `c`, ends with
      `c + b`. */
  lemma EndsWithShorter(t: string, a: string, b: string, c: string)
    requires EndsWith(t, a + b) && EndsWith(a, c)
    ensures EndsWith(t, c + b)
  {
    EndsWithAppend(a, c, b);
    IsAtTrans(t, |t| - |a + b|, a + b, |a + b| - |c + b|, c + b);
  }

  /** An occurrence inside a slice is an occurrence in the whole text,
      shifted by the slice's start. */
  lemma IsAtSlice(s: string, a: nat, b: nat, k: nat, p: string)
    requires a <= b <= |s|
    ensures IsAt(s[a..b], k, p) <==> k + |p| <= b - a && IsAt(s, a + k, p)
  {
  }

  /** An occurrence is the slice it covers. */
  lemma IsAtSliceEq(s: string, k: nat, p: string)
    requires IsAt(s, k, p)
    ensures s[k..k + |p|] == p
  {
  }

  /** A string occurs at the start of any extension of it. */
  lemma IsAtPrefix(x: string, y: string)
    ensures IsAt(x + y, 0, x)
  {
  }

  /** Occurrences in the right operand of a concatenation. */
  lemma IsAtConcatRight(x: string, y: string, k: nat, p: string)
    ensures IsAt(x + y, |x| + k, p) <==> IsAt(y, k, p)
  {
  }

  /** Occurrences that end inside the left operand of a concatenation. */
  lemma IsAtConcatLeft(x: string, y: string, k: nat, p: string)
    requires k + |p| <= |x|
    ensures IsAt(x + y, k, p) <==> IsAt(x, k, p)
  {
  }

  /** An occurrence of an occurrence is an occurrence. */
  lemma IsAtTrans(s: string, i: nat, t: string, j: nat, p: string)
    requires IsAt(s, i, t) && IsAt(t, j, p)
    ensures IsAt(s, i + j, p)
  {
    forall k | 0 <= k < |p| ensures s[i + j + k] == p[k] {
      assert t[j + k] == p[k];
    }
  }

  /** An occurrence in the second part of a text's opening is an
      occurrence in the text. */
  lemma IsAtAfter(text: string, x: string, y: string, j: nat, q: string)
    requires IsAt(text, 0, x + y) && IsAt(y, j, q)
    ensures IsAt(text, |x| + j, q)
  {
    IsAtConcatRight(x, y, j, q);
    IsAtTrans(text, 0, x + y, |x| + j, q);
  }

  /** Inside an occurrence of `x`, the occurrences of a shorter pattern are
      those of `x` shifted. */
  lemma IsAtInside(s: string, i: nat, x: string, k: nat, p: string)
    requires IsAt(s, i, x) && k + |p| <= |x|
    ensures IsAt(s, i + k, p) <==> IsAt(x, k, p)
  {
    if IsAt(x, k, p) {
      forall j | 0 <= j < |p| ensures s[i + k + j] == p[j] {
        assert s[i + (k + j)] == x[k + j];
      }
    }
    if IsAt(s, i + k, p) {
      forall j | 0 <= j < |p| ensures x[k + j] == p[j] {
        assert s[i + (k + j)] == x[k + j];
      }
    }
  }

  /** A pattern that has a character absent from `s` does not occur in `s`. */
  lemma AbsentCharNotContained(s: string, p: string, j: nat)
    requires j < |p| && p[j] !in s
    ensures !Contains(s, p)
  {
    forall k | 0 <= k <= |s| ensures !IsAt(s, k, p) {
      assert k + j < |s| ==> s[k + j] in s;
    }
  }

  /** An occurrence in `a + b` lies in `a`, in `b`, or straddles the seam;
      a seam character that the pattern lacks rules out the last case. */
  lemma NotContainedJoin(a: string, b: string, p: string)
    requires !Contains(a, p) && !Contains(b, p)
    requires (|a| > 0 && a[|a| - 1] !in p) || (|b| > 0 && b[0] !in p)
    ensures !Contains(a + b, p)
  {
    var s := a + b;
    forall k | 0 <= k <= |s| ensures !IsAt(s, k, p) {
      if k + |p| <= |a| {
        assert !IsAt(a, k, p);
      } else if |a| <= k {
        assert !IsAt(b, k - |a|, p);
      } else {
        assert |a| > 0 && a[|a| - 1] !in p ==> p[|a| - 1 - k] != s[|a| - 1];
        assert |b| > 0 && b[0] !in p ==> p[|a| - k] != s[|a|];
      }
    }
  }

  /** No occurrence starts inside `pre` when `pre` holds none and its last
      character is not one of the pattern's. */
  lemma NoOccurrenceBefore(pre: string, rest: string, p: string, k: nat)
    requires !Contains(pre, p)
    requires |pre| > 0 && pre[|pre| - 1] !in p
    requires k < |pre|
    ensures !IsAt(pre + rest, k, p)
  {
    if k + |p| <= |pre| {
      IsAtConcatLeft(pre, rest, k, p);
      assert !IsAt(pre, k, p);
    } else {
      assert p[|pre| - 1 - k] != (pre + rest)[|pre| - 1];
    }
  }

  /** When `p` occurs nowhere in `a + p + c` between `from` and the seam, the
      first occurrence at or after `from` is the one at `|a|`. */
  lemma FindAfterPrefix(a: string, p: string, c: string, from: nat)
    requires from <= |a|
    requires forall k :: from <= k < |a| ==> !IsAt(a + p + c, k, p)
    ensures FindFrom(a + p + c, p, from) == Some(|a|)
  {
    assert IsAt(a + p + c, |a|, p);
  }

  /** ASCII lower-casing of one character. */
  function LowerChar(c: char): (r: char)
    ensures 'A' <= c <= 'Z' ==> 'a' <= r <= 'z'
    ensures !('A' <= c <= 'Z') ==> r == c
  {
    if 'A' <= c <= 'Z' then (c as int + 32) as char else c
  }

  /** `s.toLowerCase()` restricted to ASCII letters. */
  function Lower(s: string): (r: string)
    ensures |r| == |s|
    ensures forall i :: 0 <= i < |s| ==> r[i] == LowerChar(s[i])
  {
    seq(|s|, i requires 0 <= i < |s| => LowerChar(s[i]))
  }

  /** Lowering twice is lowering once. */
  lemma LowerIdempotent(s: string)
    ensures Lower(Lower(s)) == Lower(s)
  {
  }

  function DigitChar(d: nat): (c: char)
    requires d < 10
    ensures '0' <= c <= '9'
  {
    (d + '0' as int) as char
  }

  /** Decimal rendering of a count, as a template literal `${n}` prints it. */
  function NatToString(n: nat): (r: string)
    ensures |r| > 0
    ensures forall i :: 0 <= i < |r| ==> '0' <= r[i] <= '9'
  {
    if n < 10 then [DigitChar(n)] else NatToString(n / 10) + [DigitChar(n % 10)]
  }

  /** Reads a non-empty string of decimal digits back as a number. */
  function DigitsValue(s: string): (n: nat)
    requires forall i :: 0 <= i < |s| ==> '0' <= s[i] <= '9'
  {
    if s == [] then 0 else 10 * DigitsValue(s[..|s| - 1]) + (s[|s| - 1] as int - '0' as int)
  }

  /** Rendering a count and reading it back gives the count. */
  lemma {:induction false} NatToStringRoundTrip(n: nat)
    ensures DigitsValue(NatToString(n)) == n
  {
    if n >= 10 {
      var r := NatToString(n);
      assert r[..|r| - 1] == NatToString(n / 10);
      NatToStringRoundTrip(n / 10);
    }
  }

  /** `pieces.join(sep)` */
  function Join(pieces: seq<string>, sep: string): (r: string)
    ensures |pieces| == 1 ==> r == pieces[0]
  {
    if |pieces| == 0 then ""
    else if |pieces| == 1 then pieces[0]
    else pieces[0] + sep + Join(pieces[1..], sep)
  }
}
