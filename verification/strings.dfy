/**
 * The pieces of Go's `strings`, `unicode` and `fmt` packages that the
 * redirector relies on: lower-casing, whitespace trimming, searching for a
 * character, and printing an integer in decimal (with a parser as its
 * inverse).
 */
module Strings {
  import opened Wrappers

  // ---------------------------------------------------------------------
  // Lower-casing (ASCII letters only)
  // ---------------------------------------------------------------------

  predicate IsUpper(c: char) { 'A' <= c <= 'Z' }

  /** The lower-case form of one character; only ASCII letters change. */
  function LowerChar(c: char): (d: char)
    ensures !IsUpper(d)
    ensures IsUpper(c) ==> d as int == c as int + 32
    ensures !IsUpper(c) ==> d == c
  {
    if IsUpper(c) then (c as int + 32) as char else c
  }

  /** `strings.ToLower`, restricted to ASCII letters. */
  function Lower(s: string): (r: string)
    ensures |r| == |s|
    ensures forall i :: 0 <= i < |s| ==> r[i] == LowerChar(s[i])
  {
    seq(|s|, i requires 0 <= i < |s| => LowerChar(s[i]))
  }

  predicate NoUpper(s: string) { forall i :: 0 <= i < |s| ==> !IsUpper(s[i]) }

  lemma LowerIsLowerCase(s: string)
    ensures NoUpper(Lower(s))
  {
  }

  /** Lower-casing twice is lower-casing once. */
  lemma LowerIdempotent(s: string)
    ensures Lower(Lower(s)) == Lower(s)
  {
    assert forall i :: 0 <= i < |s| ==> Lower(Lower(s))[i] == Lower(s)[i];
  }

  /** Lower-casing commutes with concatenation. */
  lemma LowerAppend(a: string, b: string)
    ensures Lower(a + b) == Lower(a) + Lower(b)
  {
    assert forall i :: 0 <= i < |a + b| ==> Lower(a + b)[i] == (Lower(a) + Lower(b))[i];
  }

  /** Lower-casing neither creates nor removes whitespace. */
  lemma LowerKeepsSpace(s: string, i: nat)
    requires i < |s|
    ensures IsSpace(Lower(s)[i]) <==> IsSpace(s[i])
  {
  }

  /** A character that is not an upper-case letter occurs in the
      lower-cased string exactly where it occurs in the original. */
  lemma LowerKeeps(s: string, c: char, i: nat)
    requires !IsUpper(c) && !('a' <= c <= 'z')
    requires i < |s|
    ensures Lower(s)[i] == c <==> s[i] == c
  {
  }

  // ---------------------------------------------------------------------
  // Whitespace trimming
  // ---------------------------------------------------------------------

  /** `unicode.IsSpace`: the ASCII and Latin-1 spaces and the other
      characters with the Unicode White_Space property. */
  predicate IsSpace(c: char)
  {
    || c == ' '
    || '\t' <= c <= '\r'
    || c == '\U{0085}' || c == '\U{00A0}' || c == '\U{1680}'
    || '\U{2000}' <= c <= '\U{200A}'
    || c == '\U{2028}' || c == '\U{2029}' || c == '\U{202F}'
    || c == '\U{205F}' || c == '\U{3000}'
  }

  /** The position of the first non-whitespace character of `s` at or
      after `i` (or `|s|` when there is none). */
  function SkipSpace(s: string, i: nat): (n: nat)
    requires i <= |s|
    ensures i <= n <= |s|
    ensures forall k :: i <= k < n ==> IsSpace(s[k])
    ensures n == |s| || !IsSpace(s[n])
    decreases |s| - i
  {
    if i < |s| && IsSpace(s[i]) then SkipSpace(s, i + 1) else i
  }

  /** The number of whitespace characters `s` starts with. */
  function LeadingSpace(s: string): (n: nat)
    ensures n <= |s|
    ensures forall k :: 0 <= k < n ==> IsSpace(s[k])
    ensures n == |s| || !IsSpace(s[n])
  {
    SkipSpace(s, 0)
  }

  /** The position just after the last non-whitespace character of `s`
      before `j`, looking no further back than `lo`. */
  function SkipSpaceBack(s: string, lo: nat, j: nat): (n: nat)
    requires lo <= j <= |s|
    ensures lo <= n <= j
    ensures forall k :: n <= k < j ==> IsSpace(s[k])
    ensures n == lo || !IsSpace(s[n - 1])
    decreases j
  {
    if lo < j && IsSpace(s[j - 1]) then SkipSpaceBack(s, lo, j - 1) else j
  }

  /** `r` is the slice of `s` starting at `i`, and only whitespace lies
      outside it. */
  predicate SliceAmidSpace(s: string, r: string, i: nat)
  {
    && i + |r| <= |s| && r == s[i..i + |r|]
    && (forall k :: 0 <= k < i ==> IsSpace(s[k]))
    && (forall k :: i + |r| <= k < |s| ==> IsSpace(s[k]))
  }

  /** `strings.TrimSpace`: the slice of `s` that neither starts nor ends
      with whitespace, with only whitespace outside it. */
  function TrimSpace(s: string): (r: string)
    ensures SliceAmidSpace(s, r, LeadingSpace(s))
    ensures r == [] || (!IsSpace(r[0]) && !IsSpace(r[|r| - 1]))
  {
    var i := LeadingSpace(s);
    s[i..SkipSpaceBack(s, i, |s|)]
  }

  /** Trimming leaves nothing exactly when the string is all whitespace. */
  lemma TrimSpaceEmpty(s: string)
    ensures TrimSpace(s) == [] <==> forall k :: 0 <= k < |s| ==> IsSpace(s[k])
  {
    if TrimSpace(s) != [] {
      assert s[LeadingSpace(s)] == TrimSpace(s)[0];
    }
  }

  // ---------------------------------------------------------------------
  // Searching
  // ---------------------------------------------------------------------

  /** `strings.Index` for a one-character needle: the position of the first
      occurrence of `c`, or `None` (Go's -1) when there is none. */
  function IndexOf(s: string, c: char): (r: Option<nat>)
    ensures r.None? <==> c !in s
    ensures r.Some? ==> r.value < |s| && s[r.value] == c && c !in s[..r.value]
  {
    if s == [] then None
    else if s[0] == c then Some(0)
    else match IndexOf(s[1..], c)
      case None => None
      case Some(i) => Some(i + 1)
  }

  /** Searching a concatenation whose first part lacks `c`. */
  lemma {:induction false} IndexOfAppend(a: string, b: string, c: char)
    requires c !in a
    ensures IndexOf(a + b, c) == match IndexOf(b, c)
                                 case None => None
                                 case Some(i) => Some(|a| + i)
  {
    if a != [] {
      assert (a + b)[1..] == a[1..] + b;
      IndexOfAppend(a[1..], b, c);
    } else {
      assert a + b == b;
    }
  }

  // ---------------------------------------------------------------------
  // Decimal printing (`%d`) and its inverse
  // ---------------------------------------------------------------------

  predicate IsDigit(c: char) { '0' <= c <= '9' }

  predicate AllDigits(s: string) { forall i :: 0 <= i < |s| ==> IsDigit(s[i]) }

  function DigitChar(d: nat): (c: char)
    requires d < 10
    ensures IsDigit(c) && c as int - '0' as int == d
  {
    ('0' as int + d) as char
  }

  /** The decimal form of a natural number, without leading zeros. */
  function NatDecimal(n: nat): (r: string)
    ensures |r| >= 1 && AllDigits(r)
    ensures r[0] == '0' ==> n == 0
  {
    if n < 10 then [DigitChar(n)] else NatDecimal(n / 10) + [DigitChar(n % 10)]
  }

  /** `fmt`'s `%d` of an `int`: a minus sign, then the magnitude. */
  function IntDecimal(n: int): (r: string)
    ensures |r| >= 1
    ensures n < 0 <==> r[0] == '-'
    ensures forall i :: 0 < i < |r| ==> IsDigit(r[i])
  {
    if n < 0 then "-" + NatDecimal(-n) else NatDecimal(n)
  }

  /** Reads a string of digits as a number (the inverse of NatDecimal). */
  function ParseNat(s: string): nat
    requires AllDigits(s)
  {
    if s == [] then 0
    else ParseNat(s[..|s| - 1]) * 10 + (s[|s| - 1] as int - '0' as int)
  }

  /** Reads an optionally signed decimal (the inverse of IntDecimal). */
  function ParseInt(s: string): int
    requires |s| >= 1 && (s[0] == '-' || IsDigit(s[0]))
    requires forall i :: 0 < i < |s| ==> IsDigit(s[i])
  {
    if s[0] == '-' then 0 - ParseNat(s[1..]) else ParseNat(s)
  }

  lemma {:induction false} ParseNatDecimal(n: nat)
    ensures ParseNat(NatDecimal(n)) == n
  {
    if n >= 10 {
      var s := NatDecimal(n);
      assert s[..|s| - 1] == NatDecimal(n / 10);
      ParseNatDecimal(n / 10);
    }
  }

  /** Printing an integer and reading it back gives the integer. */
  lemma ParseIntDecimal(n: int)
    ensures ParseInt(IntDecimal(n)) == n
  {
    if n < 0 {
      assert IntDecimal(n)[1..] == NatDecimal(-n);
      ParseNatDecimal(-n);
    } else {
      ParseNatDecimal(n);
    }
  }

  /** Different numbers print differently. */
  lemma NatDecimalInjective(m: nat, n: nat)
    requires NatDecimal(m) == NatDecimal(n)
    ensures m == n
  {
    ParseNatDecimal(m);
    ParseNatDecimal(n);
  }

  /** A run of digits followed by a non-digit is read back unambiguously. */
  lemma DigitsThenStop(x: string, xs: string, y: string, ys: string)
    requires AllDigits(x) && AllDigits(y)
    requires xs != [] && !IsDigit(xs[0]) && ys != [] && !IsDigit(ys[0])
    requires x + xs == y + ys
    ensures x == y && xs == ys
  {
    assert x == (x + xs)[..|x|];
    assert y == (y + ys)[..|y|];
    assert xs == (x + xs)[|x|..];
    assert ys == (y + ys)[|y|..];
  }

  /** Equal strings with an equal prefix have equal remainders. */
  lemma SamePrefix(p: string, x: string, y: string)
    requires p + x == p + y
    ensures x == y
  {
    assert x == (p + x)[|p|..];
    assert y == (p + y)[|p|..];
  }
}
