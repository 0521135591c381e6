/**
 * The Python `str` operations the bot relies on, over `string` (`seq<char>`):
 * substring tests, `endswith`, `join`, `str(n)` and the ordering `sorted` uses.
 */
module Text {

  /** `w` occurs in `t` starting at index `k`. */
  predicate StartsAt(t: string, k: nat, w: string) {
    k + |w| <= |t| && t[k..k + |w|] == w
  }

  /** Python's `s in t` for two strings. */
  predicate IsSubstring(s: string, t: string) {
    exists k: nat | k <= |t| :: StartsAt(t, k, s)
  }

  /** Python's `s.endswith(suffix)`. */
  predicate EndsWith(s: string, suffix: string) {
    |suffix| <= |s| && s[|s| - |suffix|..] == suffix
  }

  /** Python's `sep.join(xs)`. */
  function Join(xs: seq<string>, sep: string): (joined: string) {
    if |xs| == 0 then ""
    else if |xs| == 1 then xs[0]
    else xs[0] + sep + Join(xs[1..], sep)
  }

  /** Appending one item to a list of at least one item adds the separator and the item to the joined text. */
  lemma {:induction false} JoinSnoc(xs: seq<string>, y: string, sep: string)
    requires |xs| >= 1
    ensures Join(xs + [y], sep) == Join(xs, sep) + sep + y
    decreases |xs|
  {
    if |xs| > 1 {
      assert (xs + [y])[1..] == xs[1..] + [y];
      JoinSnoc(xs[1..], y, sep);
    } else {
      assert (xs + [y])[1..] == [y];
    }
  }

  /** The character of the decimal digit `d`. */
  function Digit(d: nat): (c: char)
    requires d < 10
    ensures '0' <= c <= '9' && c as int - '0' as int == d
  {
    ('0' as int + d) as char
  }

  /** Python's `str(n)` for a non-negative integer. */
  function NatToString(n: nat): (s: string)
    ensures |s| >= 1
    ensures forall k :: 0 <= k < |s| ==> '0' <= s[k] <= '9'
    ensures s[0] == '0' <==> n == 0
    ensures s[0] == '0' ==> |s| == 1
  {
    if n < 10 then [Digit(n)] else NatToString(n / 10) + [Digit(n % 10)]
  }

  /** The number a string of decimal digits denotes, most significant digit first. */
  function DigitsValue(s: string): (n: nat)
    requires forall k :: 0 <= k < |s| ==> '0' <= s[k] <= '9'
  {
    if s == [] then 0 else DigitsValue(s[..|s| - 1]) * 10 + (s[|s| - 1] as int - '0' as int)
  }

  /** Reading back the digits `str(n)` writes gives `n`. */
  lemma {:induction false} NatToStringInverse(n: nat)
    ensures DigitsValue(NatToString(n)) == n
  {
    var s := NatToString(n);
    if n >= 10 {
      assert s[..|s| - 1] == NatToString(n / 10);
      NatToStringInverse(n / 10);
    } else {
      assert s[..|s| - 1] == [];
    }
  }

  /** The digits are canonical: no leading zero, except for zero itself. */
  predicate Canonical(s: string) {
    |s| >= 1 && (forall k :: 0 <= k < |s| ==> '0' <= s[k] <= '9') && (s[0] != '0' || |s| == 1)
  }

  /** A string of digits whose first digit is not zero denotes a positive number. */
  lemma {:induction false} LeadingDigitPositive(s: string)
    requires |s| >= 1 && forall k :: 0 <= k < |s| ==> '0' <= s[k] <= '9'
    requires s[0] != '0'
    ensures DigitsValue(s) > 0
    decreases |s|
  {
    if |s| > 1 {
      LeadingDigitPositive(s[..|s| - 1]);
    }
  }

  /** `str(n)` is the only canonical string of digits denoting `n`. */
  lemma {:induction false} CanonicalIsNatToString(s: string)
    requires Canonical(s)
    ensures s == NatToString(DigitsValue(s))
    decreases |s|
  {
    var init, d := s[..|s| - 1], s[|s| - 1] as int - '0' as int;
    assert s == init + [s[|s| - 1]];
    if |s| == 1 {
      assert DigitsValue(init) == 0 by { assert init == []; }
      assert Digit(d) == s[0];
    } else {
      assert init[0] == s[0];
      LeadingDigitPositive(init);
      CanonicalIsNatToString(init);
      var n := DigitsValue(s);
      assert n / 10 == DigitsValue(init) && n % 10 == d;
      assert Digit(n % 10) == s[|s| - 1];
    }
  }

  /** Different numbers are written differently. */
  lemma NatToStringInjective(m: nat, n: nat)
    requires NatToString(m) == NatToString(n)
    ensures m == n
  {
    NatToStringInverse(m);
    NatToStringInverse(n);
  }

  /** Python's `a < b` on strings: lexicographic comparison of code points. */
  predicate Below(a: string, b: string) {
    if a == [] then b != []
    else if b == [] then false
    else if a[0] != b[0] then a[0] < b[0]
    else Below(a[1..], b[1..])
  }

  lemma {:induction false} BelowIrreflexive(a: string)
    ensures !Below(a, a)
    decreases |a|
  {
    if a != [] { BelowIrreflexive(a[1..]); }
  }

  lemma {:induction false} BelowTransitive(a: string, b: string, c: string)
    requires Below(a, b) && Below(b, c)
    ensures Below(a, c)
    decreases |a|
  {
    if a != [] && b != [] && c != [] && a[0] == b[0] && b[0] == c[0] {
      BelowTransitive(a[1..], b[1..], c[1..]);
    }
  }

  /** Any two different strings are ordered one way or the other. */
  lemma {:induction false} BelowTotal(a: string, b: string)
    requires a != b
    ensures Below(a, b) || Below(b, a)
    decreases |a|
  {
    if a != [] && b != [] && a[0] == b[0] {
      assert a == [a[0]] + a[1..] && b == [b[0]] + b[1..];
      BelowTotal(a[1..], b[1..]);
    }
  }

  lemma {:induction false} BelowAsymmetric(a: string, b: string)
    requires Below(a, b)
    ensures !Below(b, a)
    decreases |a|
  {
    if a != [] && b != [] && a[0] == b[0] {
      BelowAsymmetric(a[1..], b[1..]);
    }
  }
}
