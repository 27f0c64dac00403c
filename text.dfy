/** Plain-text helpers shared by the ledger report and the spend chart:
    repetition, left and right justification, truncation, and decimal
    rendering of natural numbers with its inverse. */
module Text {

  /** `[c] * n` as Python evaluates it: empty when `n` is zero or negative. */
  function Repeat(c: char, n: int): (r: string)
    ensures |r| == if n <= 0 then 0 else n
    ensures forall i :: 0 <= i < |r| ==> r[i] == c
    decreases if n <= 0 then 0 else n
  {
    if n <= 0 then "" else [c] + Repeat(c, n - 1)
  }

  /** `s.ljust(w)`, the default alignment of a string in a format field:
      `s` followed by as many spaces as it takes to reach width `w`. */
  function PadRight(s: string, w: int): (r: string)
    ensures |r| == if |s| >= w then |s| else w
    ensures r[..|s|] == s
    ensures forall i :: |s| <= i < |r| ==> r[i] == ' '
  {
    s + Repeat(' ', w - |s|)
  }

  /** `s.rjust(w)`, the alignment of a number in a format field: spaces
      in front of `s` up to width `w`, `s` unchanged when already wider. */
  function PadLeft(s: string, w: int): (r: string)
    ensures |r| == if |s| >= w then |s| else w
    ensures r[|r| - |s|..] == s
    ensures forall i :: 0 <= i < |r| - |s| ==> r[i] == ' '
  {
    Repeat(' ', w - |s|) + s
  }

  /** The slice `s[:n]`: the first `n` characters, or all of `s` if shorter. */
  function Take(s: string, n: nat): (r: string)
    ensures |r| == if |s| < n then |s| else n
    ensures r == s[..|r|]
  {
    if |s| < n then s else s[..n]
  }

  /** Leading spaces removed (the inverse of `PadLeft` on texts that do
      not themselves start with a space). */
  function TrimLeft(s: string): (r: string)
    ensures |r| <= |s| && r == s[|s| - |r|..]
    ensures r == [] || r[0] != ' '
    ensures forall i :: 0 <= i < |s| - |r| ==> s[i] == ' '
  {
    if s != [] && s[0] == ' ' then TrimLeft(s[1..]) else s
  }

  lemma {:induction false} TrimLeftPadLeft(s: string, w: int)
    requires s == [] || s[0] != ' '
    ensures TrimLeft(PadLeft(s, w)) == s
  {
    var p := PadLeft(s, w);
    var k := |p| - |s|;
    TrimLeftSpaces(p, k);
  }

  /** Removing a run of `k` leading spaces in front of a text that does
      not start with a space leaves exactly that text. */
  lemma {:induction false} TrimLeftSpaces(p: string, k: nat)
    requires k <= |p|
    requires forall i :: 0 <= i < k ==> p[i] == ' '
    requires k == |p| || p[k] != ' '
    ensures TrimLeft(p) == p[k..]
    decreases k
  {
    if k > 0 {
      assert p[1..][k - 1..] == p[k..];
      TrimLeftSpaces(p[1..], k - 1);
    }
  }

  predicate IsDigit(c: char) {
    '0' <= c <= '9'
  }

  predicate AllDigits(s: string) {
    forall i :: 0 <= i < |s| ==> IsDigit(s[i])
  }

  function DigitChar(d: nat): (c: char)
    requires d < 10
    ensures IsDigit(c) && (c as int) - ('0' as int) == d
  {
    (('0' as int) + d) as char
  }

  function DigitValue(c: char): (d: nat)
    requires IsDigit(c)
    ensures d < 10 && DigitChar(d) == c
  {
    (c as int) - ('0' as int)
  }

  /** `str(n)` for a natural number: its decimal digits, most significant
      first, without leading zeros. */
  function NatToString(n: nat): (r: string)
    ensures |r| >= 1 && AllDigits(r)
    ensures r[0] == '0' ==> n == 0
    ensures n < 10 <==> |r| == 1
  {
    if n < 10 then [DigitChar(n)] else NatToString(n / 10) + [DigitChar(n % 10)]
  }

  /** The number a string of decimal digits denotes. */
  function DigitsValue(s: string): (n: nat)
    requires AllDigits(s)
  {
    if s == [] then 0 else DigitsValue(s[..|s| - 1]) * 10 + DigitValue(s[|s| - 1])
  }

  /** Reading back the decimal rendering gives the number. */
  lemma {:induction false} NatToStringRoundTrip(n: nat)
    ensures DigitsValue(NatToString(n)) == n
  {
    var r := NatToString(n);
    if n >= 10 {
      NatToStringRoundTrip(n / 10);
      assert r[..|r| - 1] == NatToString(n / 10);
    }
  }

  /** Numbers below 1000 take at most three digits. */
  lemma NatToStringBelowThousand(n: nat)
    requires n < 1000
    ensures |NatToString(n)| <= 3
  {
    if n >= 10 {
      assert |NatToString(n / 10)| <= 2;
    }
  }

  function Pow10(k: nat): (r: nat)
    ensures r >= 1
  {
    if k == 0 then 1 else 10 * Pow10(k - 1)
  }

  /** A number takes at most `k` digits exactly when it is below `10^k`. */
  lemma {:induction false} NatToStringWidth(n: nat, k: nat)
    requires k >= 1
    ensures |NatToString(n)| <= k <==> n < Pow10(k)
  {
    if n >= 10 && k >= 2 {
      NatToStringWidth(n / 10, k - 1);
      assert n / 10 < Pow10(k - 1) <==> n < 10 * Pow10(k - 1);
    } else if n < 10 && k >= 2 {
      assert Pow10(k) == 10 * Pow10(k - 1);
    }
  }

  /** A slice that lies inside the second part of a concatenation. */
  lemma SliceRight(a: string, b: string, i: nat, j: nat)
    requires i <= j <= |b|
    ensures (a + b)[|a| + i..|a| + j] == b[i..j]
  {
  }

  /** A slice that lies inside the first part of a concatenation. */
  lemma SliceLeft(a: string, b: string, i: nat, j: nat)
    requires i <= j <= |a|
    ensures (a + b)[i..j] == a[i..j]
  {
  }

  /** A three-column block of a text that grows by one more block: the
      blocks already there stay in place and the new one comes last. */
  lemma BlockOfSnoc(a: string, b: string, i: nat, block: string)
    requires |b| == 3 && (3 * i == |a| || 3 * i + 3 <= |a|)
    requires 3 * i + 3 <= |a| ==> a[3 * i..3 * i + 3] == block
    requires 3 * i == |a| ==> b == block
    ensures (a + b)[3 * i..3 * i + 3] == block
  {
    if 3 * i + 3 <= |a| {
      assert (a + b)[3 * i..3 * i + 3] == a[3 * i..3 * i + 3];
    } else {
      assert (a + b)[3 * i..3 * i + 3] == b;
    }
  }

  /** The three parts of a three-part concatenation, sliced back out of it. */
  lemma SliceThree(a: string, b: string, c: string)
    ensures var r := a + b + c;
      && |r| == |a| + |b| + |c|
      && r[..|a|] == a && r[|a|..|a| + |b|] == b && r[|a| + |b|..] == c
  {
    var r := a + b + c;
    assert r[..|a|] == a;
    assert r[|a|..|a| + |b|] == b;
    assert r[|a| + |b|..] == c;
  }

  /** A prefix of a prefix. */
  lemma PrefixOfPrefix(r: string, d: string, m: nat)
    requires |d| <= |r| && r[..|d|] == d && m <= |d|
    ensures r[..m] == d[..m]
    ensures forall i :: 0 <= i < |d| ==> r[i] == d[i]
  {
    forall i | 0 <= i < |d|
      ensures r[i] == d[i]
    {
      assert r[..|d|][i] == r[i];
    }
  }

  /** A text that ends with `front + last` ends with `last`, and so with
      the last character of `last`. */
  lemma EndsWithLast(prefix: string, front: string, last: string)
    requires last != []
    ensures var c := prefix + (front + last);
      |c| >= |last| && c[|c| - |last|..] == last && c[|c| - 1] == last[|last| - 1]
  {
    var c := prefix + (front + last);
    assert c[|c| - |last|..] == last;
  }

  /** The concatenation of a sequence of texts, in order. */
  function Concat(parts: seq<string>): (r: string)
  {
    if parts == [] then "" else Concat(parts[..|parts| - 1]) + parts[|parts| - 1]
  }

  lemma ConcatSnoc(parts: seq<string>, last: string)
    ensures Concat(parts + [last]) == Concat(parts) + last
  {
    assert (parts + [last])[..|parts|] == parts;
  }
}
