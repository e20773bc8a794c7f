/**
 * Character and string helpers shared by the ticket matcher and the reason
 * text: ASCII case folding (the behaviour of a JavaScript regular expression
 * with the `i` flag on ASCII letters), decimal digits as `\d` matches them,
 * and the decimal rendering of a number inside a template string.
 */
module Text {

  /** `\d` in a JavaScript regular expression: the ASCII digits only. */
  predicate IsDigit(c: char) {
    '0' <= c <= '9'
  }

  predicate AllDigits(s: string) {
    forall k :: 0 <= k < |s| ==> IsDigit(s[k])
  }

  /** What `\d+` can capture: one or more ASCII digits. */
  predicate IsDigitString(s: string) {
    |s| > 0 && AllDigits(s)
  }

  /** ASCII case folding: `A`..`Z` become `a`..`z`, every other character stays. */
  function Fold(c: char): (r: char)
    ensures ('A' <= c <= 'Z') <==> r != c
    ensures 'a' <= r <= 'z' <==> ('a' <= c <= 'z' || 'A' <= c <= 'Z')
  {
    if 'A' <= c <= 'Z' then (c as int + 32) as char else c
  }

  /** Folding never changes a digit, and only a digit folds to a digit. */
  lemma FoldDigit(c: char, d: char)
    requires IsDigit(d)
    ensures Fold(c) == d <==> c == d
  {
  }

  /** `p` occurs case-insensitively in `t` starting at position `i`. */
  predicate CiPrefix(p: string, t: string, i: nat) {
    i + |p| <= |t| && forall k :: 0 <= k < |p| ==> Fold(t[i + k]) == Fold(p[k])
  }

  /** Two strings that differ at most in the case of ASCII letters. */
  predicate FoldEqual(s: string, s': string) {
    |s| == |s'| && forall k :: 0 <= k < |s| ==> Fold(s[k]) == Fold(s'[k])
  }

  /** A case-insensitive occurrence of `a + b` is one of `a` followed by one of `b`. */
  lemma CiPrefixConcat(a: string, b: string, t: string, i: nat)
    ensures CiPrefix(a + b, t, i) <==> CiPrefix(a, t, i) && CiPrefix(b, t, i + |a|)
  {
    if CiPrefix(a, t, i) && CiPrefix(b, t, i + |a|) {
      forall k | 0 <= k < |a + b| ensures Fold(t[i + k]) == Fold((a + b)[k]) {
        if k >= |a| {
          assert Fold(t[i + |a| + (k - |a|)]) == Fold(b[k - |a|]);
        }
      }
    }
    if CiPrefix(a + b, t, i) {
      forall k | 0 <= k < |a| ensures Fold(t[i + k]) == Fold(a[k]) {
        assert (a + b)[k] == a[k];
      }
      forall k | 0 <= k < |b| ensures Fold(t[i + |a| + k]) == Fold(b[k]) {
        assert (a + b)[|a| + k] == b[k];
      }
    }
  }

  /** A case-insensitive occurrence of `[c] + u` is a matching first character followed by one of `u`. */
  lemma CiPrefixCons(c: char, u: string, t: string, i: nat)
    ensures CiPrefix([c] + u, t, i) <==> i < |t| && Fold(t[i]) == Fold(c) && CiPrefix(u, t, i + 1)
  {
    CiPrefixConcat([c], u, t, i);
    if i < |t| {
      assert CiPrefix([c], t, i) <==> Fold(t[i + 0]) == Fold([c][0]);
    }
  }

  /** Whether `p` occurs at `i` depends on `p` only up to ASCII case. */
  lemma CiPrefixFoldEqual(p: string, p': string, t: string, i: nat)
    requires FoldEqual(p, p')
    ensures CiPrefix(p, t, i) <==> CiPrefix(p', t, i)
  {
  }

  /** Whether `p` occurs at `i` depends on `t` only up to ASCII case. */
  lemma CiPrefixFoldEqualText(p: string, t: string, t': string, i: nat)
    requires FoldEqual(t, t')
    ensures CiPrefix(p, t, i) <==> CiPrefix(p, t', i)
  {
    if CiPrefix(p, t, i) {
      forall k | 0 <= k < |p| ensures Fold(t'[i + k]) == Fold(p[k]) {
        assert Fold(t[i + k]) == Fold(t'[i + k]);
      }
    }
    if CiPrefix(p, t', i) {
      forall k | 0 <= k < |p| ensures Fold(t[i + k]) == Fold(p[k]) {
        assert Fold(t[i + k]) == Fold(t'[i + k]);
      }
    }
  }

  /**
   * Length of the longest run of digits in `t` starting at `i`: what a greedy
   * `\d+` (or `\d*`) consumes there.
   */
  function DigitRun(t: string, i: nat): (n: nat)
    requires i <= |t|
    ensures i + n <= |t|
    ensures AllDigits(t[i..i + n])
    ensures i + n == |t| || !IsDigit(t[i + n])
    decreases |t| - i
  {
    if i < |t| && IsDigit(t[i]) then
      var n := 1 + DigitRun(t, i + 1);
      assert t[i..i + n] == [t[i]] + t[i + 1..i + n];
      n
    else 0
  }

  /** A digit run is pinned down by its end: digits up to `i + n`, then a non-digit or the end. */
  lemma DigitRunExact(t: string, i: nat, n: nat)
    requires i + n <= |t|
    requires forall k :: i <= k < i + n ==> IsDigit(t[k])
    requires i + n == |t| || !IsDigit(t[i + n])
    ensures DigitRun(t, i) == n
  {
  }

  /** A greedy run covers every run of digits that starts at the same place. */
  lemma DigitRunCovers(t: string, i: nat, n: nat)
    requires i + n <= |t|
    requires forall k :: i <= k < i + n ==> IsDigit(t[k])
    ensures DigitRun(t, i) >= n
  {
  }

  function DigitChar(d: nat): (c: char)
    requires d < 10
    ensures IsDigit(c)
  {
    "0123456789"[d]
  }

  function DigitValue(c: char): (d: nat)
    requires IsDigit(c)
    ensures d < 10
  {
    c as int - '0' as int
  }

  /** `${n}` in a JavaScript template string, for a non-negative integer `n`. */
  function DecimalString(n: nat): (s: string)
    ensures IsDigitString(s)
    ensures s[0] == '0' ==> n == 0
    decreases n
  {
    if n < 10 then [DigitChar(n)] else DecimalString(n / 10) + [DigitChar(n % 10)]
  }

  /** The number a string of decimal digits denotes. */
  function DecimalValue(s: string): nat
    requires AllDigits(s)
    decreases |s|
  {
    if s == [] then 0 else DecimalValue(s[..|s| - 1]) * 10 + DigitValue(s[|s| - 1])
  }

  /** Reading the rendered number back gives the number: the rendering loses nothing. */
  lemma {:induction false} DecimalRoundTrip(n: nat)
    ensures DecimalValue(DecimalString(n)) == n
    decreases n
  {
    var s := DecimalString(n);
    if n < 10 {
      assert s[..|s| - 1] == [];
    } else {
      DecimalRoundTrip(n / 10);
      assert s[..|s| - 1] == DecimalString(n / 10);
    }
  }
}
