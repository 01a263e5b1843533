/**
 * The handful of JavaScript string operations the storefront relies on:
 * `toLowerCase`/`toUpperCase` (ASCII letters only), `trim`, `includes`,
 * `replace` with a string pattern (first occurrence only) and the decimal
 * rendering of an integer (`Number.prototype.toString`).
 */
module Text {

  // ---------------------------------------------------------------------------
  // Case mapping
  // ---------------------------------------------------------------------------

  predicate IsUpperAscii(c: char) { 'A' <= c <= 'Z' }
  predicate IsLowerAscii(c: char) { 'a' <= c <= 'z' }

  function LowerChar(c: char): (r: char)
    ensures !IsUpperAscii(r)
    ensures !IsUpperAscii(c) ==> r == c
  {
    if IsUpperAscii(c) then (c as int - 'A' as int + 'a' as int) as char else c
  }

  function UpperChar(c: char): (r: char)
    ensures !IsLowerAscii(r)
    ensures !IsLowerAscii(c) ==> r == c
  {
    if IsLowerAscii(c) then (c as int - 'a' as int + 'A' as int) as char else c
  }

  /** `s.toLowerCase()` on ASCII letters; every other character is kept. */
  function Lower(s: string): (r: string)
    ensures |r| == |s|
    ensures forall i :: 0 <= i < |s| ==> r[i] == LowerChar(s[i])
  {
    seq(|s|, i requires 0 <= i < |s| => LowerChar(s[i]))
  }

  /** `s.toUpperCase()` on ASCII letters; every other character is kept. */
  function Upper(s: string): (r: string)
    ensures |r| == |s|
    ensures forall i :: 0 <= i < |s| ==> r[i] == UpperChar(s[i])
  {
    seq(|s|, i requires 0 <= i < |s| => UpperChar(s[i]))
  }

  /** Lower-casing a slice is slicing the lower-cased string. */
  lemma LowerSlice(s: string, i: nat, j: nat)
    requires i <= j <= |s|
    ensures Lower(s)[i..j] == Lower(s[i..j])
  {
  }

  /** A string without upper-case ASCII letters is its own lower-case form. */
  lemma LowerOfLowerCase(s: string)
    requires forall i :: 0 <= i < |s| ==> !IsUpperAscii(s[i])
    ensures Lower(s) == s
  {
  }

  /** Lower-casing twice is lower-casing once. */
  lemma LowerIdempotent(s: string)
    ensures Lower(Lower(s)) == Lower(s)
  {
  }

  // ---------------------------------------------------------------------------
  // Trimming
  // ---------------------------------------------------------------------------

  /** The characters `String.prototype.trim` removes: ECMAScript WhiteSpace and LineTerminator. */
  predicate IsSpace(c: char) {
    c == ' ' || c == '\t' || c == '\n' || c == '\r' || c == '\U{000B}' || c == '\U{000C}'
    || c == '\U{00A0}' || c == '\U{1680}' || ('\U{2000}' <= c <= '\U{200A}')
    || c == '\U{2028}' || c == '\U{2029}' || c == '\U{202F}' || c == '\U{205F}'
    || c == '\U{3000}' || c == '\U{FEFF}'
  }

  function TrimStart(s: string): (r: string)
    ensures |r| <= |s| && r == s[|s| - |r|..]
    ensures |r| > 0 ==> !IsSpace(r[0])
    ensures forall i :: 0 <= i < |s| - |r| ==> IsSpace(s[i])
  {
    if |s| > 0 && IsSpace(s[0]) then TrimStart(s[1..]) else s
  }

  function TrimEnd(s: string): (r: string)
    ensures |r| <= |s| && r == s[..|r|]
    ensures |r| > 0 ==> !IsSpace(r[|r| - 1])
    ensures forall i :: |r| <= i < |s| ==> IsSpace(s[i])
  {
    if |s| > 0 && IsSpace(s[|s| - 1]) then TrimEnd(s[..|s| - 1]) else s
  }

  /**
   * `r` is `s` with its white-space ends cut off, `r` starting at offset `i`:
   * only white space stands before and after it, and, when not empty, it
   * neither starts nor ends with white space.
   */
  predicate TrimmedAt(r: string, s: string, i: nat) {
    && i + |r| <= |s| && r == s[i..i + |r|]
    && (forall k :: 0 <= k < i ==> IsSpace(s[k]))
    && (forall k :: i + |r| <= k < |s| ==> IsSpace(s[k]))
    && (|r| > 0 ==> !IsSpace(r[0]) && !IsSpace(r[|r| - 1]))
  }

  /** `s.trim()`: `s` without its leading and trailing white space. */
  function Trim(s: string): (r: string)
    ensures |r| > 0 ==> !IsSpace(r[0]) && !IsSpace(r[|r| - 1])
    ensures Contains(s, r)
    ensures exists i: nat :: TrimmedAt(r, s, i)
  {
    var r := TrimEnd(TrimStart(s));
    TrimBothEnds(s);
    assert OccursAt(s, r, |s| - |TrimStart(s)|);
    r
  }

  /** Cutting the leading, then the trailing white space leaves the trim, at the first non-space offset. */
  lemma TrimBothEnds(s: string)
    ensures TrimmedAt(TrimEnd(TrimStart(s)), s, |s| - |TrimStart(s)|)
  {
    var t := TrimStart(s);
    var r := TrimEnd(t);
    var i := |s| - |t|;
    assert i <= |s| && t == s[i..];
    assert forall k :: 0 <= k < i ==> IsSpace(s[k]);
    assert |t| > 0 ==> !IsSpace(t[0]);
    assert |r| <= |t| && r == t[..|r|];
    assert forall k :: |r| <= k < |t| ==> IsSpace(t[k]);
    assert |r| > 0 ==> !IsSpace(r[|r| - 1]);
    TrimmedOfParts(s, t, r, i);
  }

  /**
   * The two halves put together: white space before offset `i`, `t` the rest,
   * and `r` a prefix of `t` followed only by white space.
   */
  lemma TrimmedOfParts(s: string, t: string, r: string, i: nat)
    requires i <= |s| && t == s[i..]
    requires forall k :: 0 <= k < i ==> IsSpace(s[k])
    requires |t| > 0 ==> !IsSpace(t[0])
    requires |r| <= |t| && r == t[..|r|]
    requires forall k :: |r| <= k < |t| ==> IsSpace(t[k])
    requires |r| > 0 ==> !IsSpace(r[|r| - 1])
    ensures TrimmedAt(r, s, i)
  {
    assert r == s[i..i + |r|];
    if |r| > 0 {
      assert r[0] == t[0];
    }
    forall k | i + |r| <= k < |s| ensures IsSpace(s[k]) {
      assert s[k] == t[k - i];
    }
  }

  /** At most one string is a trim of `s`. */
  lemma TrimmedAtUnique(r: string, t: string, s: string, i: nat, j: nat)
    requires TrimmedAt(r, s, i) && TrimmedAt(t, s, j)
    ensures r == t
  {
    if |r| > 0 && |t| > 0 {
      assert s[i] == r[0] && s[j] == t[0];
      assert i == j;
      assert s[i + |r| - 1] == r[|r| - 1] && s[j + |t| - 1] == t[|t| - 1];
      assert |r| == |t|;
    }
  }

  /** Any trim of `s` is `Trim(s)`: the white-space-free ends pin the result down. */
  lemma TrimUnique(r: string, s: string, i: nat)
    requires TrimmedAt(r, s, i)
    ensures r == Trim(s)
  {
    var j: nat :| TrimmedAt(Trim(s), s, j);
    TrimmedAtUnique(r, Trim(s), s, i, j);
  }

  /** A string is blank (`!s.trim()` holds) exactly when all of it is white space. */
  lemma BlankIffAllSpace(s: string)
    ensures Trim(s) == "" <==> forall i :: 0 <= i < |s| ==> IsSpace(s[i])
  {
    var t := TrimStart(s);
    if Trim(s) != "" {
      assert !IsSpace(s[|s| - |t|]);
    }
  }

  /** Leading white space is dropped whatever follows it. */
  lemma {:induction false} TrimStartSkipsSpace(p: string, s: string)
    requires forall i :: 0 <= i < |p| ==> IsSpace(p[i])
    ensures TrimStart(p + s) == TrimStart(s)
    decreases |p|
  {
    if |p| > 0 {
      assert (p + s)[1..] == p[1..] + s;
      TrimStartSkipsSpace(p[1..], s);
    } else {
      assert p + s == s;
    }
  }

  /** Trailing white space is dropped whatever precedes it. */
  lemma {:induction false} TrimEndSkipsSpace(s: string, q: string)
    requires forall i :: 0 <= i < |q| ==> IsSpace(q[i])
    ensures TrimEnd(s + q) == TrimEnd(s)
    decreases |q|
  {
    if |q| > 0 {
      assert (s + q)[..|s + q| - 1] == s + q[..|q| - 1];
      TrimEndSkipsSpace(s, q[..|q| - 1]);
    } else {
      assert s + q == s;
    }
  }

  /** Appending after a string with some non-space character leaves its leading trim alone. */
  lemma {:induction false} TrimStartAppend(s: string, q: string)
    ensures TrimStart(s) != "" ==> TrimStart(s + q) == TrimStart(s) + q
    ensures TrimStart(s) == "" && (forall i :: 0 <= i < |q| ==> IsSpace(q[i])) ==> TrimStart(s + q) == ""
    decreases |s|
  {
    if |s| == 0 {
      assert s + q == q;
      if forall i :: 0 <= i < |q| ==> IsSpace(q[i]) {
        TrimStartSkipsSpace(q, "");
        assert q + "" == q;
      }
    } else {
      assert (s + q)[0] == s[0];
      if IsSpace(s[0]) {
        assert (s + q)[1..] == s[1..] + q;
        TrimStartAppend(s[1..], q);
      }
    }
  }

  /** White space on either side does not survive `trim`. */
  lemma TrimSurroundingSpace(p: string, s: string, q: string)
    requires forall i :: 0 <= i < |p| ==> IsSpace(p[i])
    requires forall i :: 0 <= i < |q| ==> IsSpace(q[i])
    ensures Trim(p + s + q) == Trim(s)
  {
    assert p + s + q == p + (s + q);
    TrimStartSkipsSpace(p, s + q);
    TrimStartAppend(s, q);
    if TrimStart(s) != "" {
      TrimEndSkipsSpace(TrimStart(s), q);
    }
  }

  // ---------------------------------------------------------------------------
  // Searching and replacing
  // ---------------------------------------------------------------------------

  predicate IsPrefix(p: string, s: string) {
    |p| <= |s| && s[..|p|] == p
  }

  /** `t` occurs in `s` starting at offset `k`. */
  predicate OccursAt(s: string, t: string, k: nat) {
    k + |t| <= |s| && s[k..k + |t|] == t
  }

  /** `s.includes(t)`: `t` occurs in `s` at some offset. */
  predicate Contains(s: string, t: string) {
    exists k: nat | k <= |s| :: OccursAt(s, t, k)
  }

  /** Every string includes the empty string. */
  lemma ContainsEmpty(s: string)
    ensures Contains(s, "")
  {
    assert OccursAt(s, "", 0);
  }

  /** What a string contains is no longer than it and made of its characters. */
  lemma ContainedCharacters(s: string, t: string)
    requires Contains(s, t)
    ensures |t| <= |s|
    ensures forall i :: 0 <= i < |t| ==> t[i] in s
  {
    var k: nat :| k <= |s| && OccursAt(s, t, k);
    forall i | 0 <= i < |t| ensures t[i] in s {
      assert t[i] == s[k + i];
    }
  }

  /** An occurrence in the tail is an occurrence one position further on in the whole. */
  lemma OccursInTail(s: string, t: string, k: nat)
    requires |s| > 0
    ensures OccursAt(s[1..], t, k) <==> OccursAt(s, t, k + 1)
  {
    if k + |t| <= |s| - 1 {
      assert s[1..][k..k + |t|] == s[k + 1..k + 1 + |t|];
    }
  }

  /**
   * `s.replace(pat, rep)` with a string pattern: only the FIRST occurrence
   * of `pat` is replaced, wherever it stands; no occurrence leaves `s` as is.
   */
  function ReplaceFirst(s: string, pat: string, rep: string): (r: string)
    requires |pat| > 0
    ensures IsPrefix(pat, s) ==> r == rep + s[|pat|..]
    ensures r == s || |r| == |s| - |pat| + |rep|
    decreases |s|
  {
    if |s| < |pat| then s
    else if IsPrefix(pat, s) then rep + s[|pat|..]
    else [s[0]] + ReplaceFirst(s[1..], pat, rep)
  }

  /** With no occurrence of the pattern the string is returned unchanged. */
  lemma {:induction false} ReplaceFirstAbsent(s: string, pat: string, rep: string)
    requires |pat| > 0 && !Contains(s, pat)
    ensures ReplaceFirst(s, pat, rep) == s
    decreases |s|
  {
    if |s| >= |pat| {
      assert !OccursAt(s, pat, 0);
      if Contains(s[1..], pat) {
        var k: nat :| k <= |s[1..]| && OccursAt(s[1..], pat, k);
        OccursInTail(s, pat, k);
        assert false;
      }
      ReplaceFirstAbsent(s[1..], pat, rep);
    }
  }

  /** The two common cases together: a leading occurrence, or none at all. */
  lemma ReplaceFirstCases(s: string, pat: string, rep: string)
    requires |pat| > 0
    ensures IsPrefix(pat, s) ==> ReplaceFirst(s, pat, rep) == rep + s[|pat|..]
    ensures !Contains(s, pat) ==> ReplaceFirst(s, pat, rep) == s
  {
    if !Contains(s, pat) {
      ReplaceFirstAbsent(s, pat, rep);
    }
  }

  /**
   * With `k` the least offset where the pattern occurs, the result is the
   * text before `k`, then `rep`, then the text after that occurrence.
   */
  lemma {:induction false} ReplaceFirstAtFirst(s: string, pat: string, rep: string, k: nat)
    requires |pat| > 0 && OccursAt(s, pat, k)
    requires forall j: nat :: j < k ==> !OccursAt(s, pat, j)
    ensures ReplaceFirst(s, pat, rep) == s[..k] + rep + s[k + |pat|..]
    decreases k
  {
    if k == 0 {
      assert IsPrefix(pat, s);
    } else {
      assert !OccursAt(s, pat, 0);
      TailOccurrences(s, pat, k);
      ReplaceFirstAtFirst(s[1..], pat, rep, k - 1);
      ReplaceFirstSkips(s, pat, rep);
      PrependSplice(s, k, |pat|, rep);
    }
  }

  /** Putting the first character back in front of a splice of the tail is the same splice of the whole. */
  lemma PrependSplice(s: string, k: nat, n: nat, rep: string)
    requires 0 < k && k + n <= |s|
    ensures [s[0]] + (s[1..][..k - 1] + rep + s[1..][k - 1 + n..]) == s[..k] + rep + s[k + n..]
  {
    assert s[1..][..k - 1] == s[1..k] && s[1..][k - 1 + n..] == s[k + n..];
    assert [s[0]] + s[1..k] == s[..k];
  }

  /** `k` is the least offset where `pat` occurs in `s`. */
  predicate FirstOccurrence(s: string, pat: string, k: nat) {
    OccursAt(s, pat, k) && forall j: nat :: j < k ==> !OccursAt(s, pat, j)
  }

  /** Occurrences shift by one in the tail, so a first occurrence at `k > 0` is one at `k - 1` there. */
  lemma TailOccurrences(s: string, pat: string, k: nat)
    requires 0 < k && OccursAt(s, pat, k)
    requires forall j: nat :: j < k ==> !OccursAt(s, pat, j)
    ensures |s| > 0 && OccursAt(s[1..], pat, k - 1)
    ensures forall j: nat :: j < k - 1 ==> !OccursAt(s[1..], pat, j)
  {
    OccursInTail(s, pat, k - 1);
    forall j: nat | j < k - 1
      ensures !OccursAt(s[1..], pat, j)
    {
      OccursInTail(s, pat, j);
    }
  }

  /** Where the pattern does not start the string, the first character is kept and the rest is searched. */
  lemma ReplaceFirstSkips(s: string, pat: string, rep: string)
    requires |pat| > 0 && |s| >= |pat| && !IsPrefix(pat, s)
    ensures ReplaceFirst(s, pat, rep) == [s[0]] + ReplaceFirst(s[1..], pat, rep)
  {
  }

  // ---------------------------------------------------------------------------
  // Decimal rendering of integers
  // ---------------------------------------------------------------------------

  predicate IsDigit(c: char) { '0' <= c <= '9' }

  function DigitChar(d: nat): (c: char)
    requires d < 10
    ensures IsDigit(c)
  {
    ('0' as int + d) as char
  }

  function DigitValue(c: char): nat
    requires IsDigit(c)
  {
    c as int - '0' as int
  }

  /** The decimal digits of `n`, most significant first, without leading zeros. */
  function NatToString(n: nat): (r: string)
    ensures |r| > 0
    ensures forall i :: 0 <= i < |r| ==> IsDigit(r[i])
    decreases n
  {
    if n < 10 then [DigitChar(n)] else NatToString(n / 10) + [DigitChar(n % 10)]
  }

  /** `n.toString()` for an integral JavaScript number: a minus sign, then the digits of |n|. */
  function IntToString(n: int): (r: string)
    ensures IsDecimal(r)
    ensures r[0] == '-' <==> n < 0
  {
    if n < 0 then "-" + NatToString(-n) else NatToString(n)
  }

  /** Reads a string of decimal digits back as a number. */
  function ParseDigits(s: string): nat
    requires forall i :: 0 <= i < |s| ==> IsDigit(s[i])
    decreases |s|
  {
    if |s| == 0 then 0 else ParseDigits(s[..|s| - 1]) * 10 + DigitValue(s[|s| - 1])
  }

  /** Decimal text of an integer: digits, optionally after a leading minus sign. */
  predicate IsDecimal(s: string) {
    |s| > 0 && forall i :: 0 <= i < |s| ==> IsDigit(s[i]) || (i == 0 && s[i] == '-')
  }

  /** Reads an optional minus sign followed by digits. */
  function ParseInt(s: string): int
    requires IsDecimal(s)
  {
    if s[0] == '-' then -(ParseDigits(s[1..]) as int) else ParseDigits(s)
  }

  lemma {:induction false} ParseNatToString(n: nat)
    ensures ParseDigits(NatToString(n)) == n
    decreases n
  {
    if n >= 10 {
      var s := NatToString(n);
      assert s[..|s| - 1] == NatToString(n / 10);
      ParseNatToString(n / 10);
    }
  }

  /** Decimal rendering is undone by parsing, so it loses no information. */
  lemma ParseIntToString(n: int)
    ensures ParseInt(IntToString(n)) == n
  {
    if n < 0 {
      assert IntToString(n)[1..] == NatToString(-n);
      ParseNatToString(-n);
    } else {
      ParseNatToString(n);
    }
  }

  /** Two integers render to the same decimal string only when they are equal. */
  lemma IntToStringInjective(a: int, b: int)
    ensures IntToString(a) == IntToString(b) <==> a == b
  {
    if IntToString(a) == IntToString(b) {
      ParseIntToString(a);
      ParseIntToString(b);
    }
  }
}
