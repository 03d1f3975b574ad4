/**
 * Decimal rendering of record counts, as Python's f-string formatting of an
 * int produces it, and the reading of such a rendering back from a status line.
 */
module Decimal {

  predicate IsDigit(c: char) {
    '0' <= c <= '9'
  }

  predicate AllDigits(s: string) {
    forall i :: 0 <= i < |s| ==> IsDigit(s[i])
  }

  function DigitChar(d: nat): (c: char)
    requires d < 10
    ensures IsDigit(c) && c as int - '0' as int == d
  {
    ('0' as int + d) as char
  }

  /** The decimal digits of n: no sign, and no leading zero unless n is 0. */
  function Show(n: nat): (s: string)
    ensures |s| >= 1 && AllDigits(s)
    ensures s[0] == '0' ==> n == 0
    decreases n
  {
    if n < 10 then [DigitChar(n)] else Show(n / 10) + [DigitChar(n % 10)]
  }

  /** The number a string of decimal digits denotes. */
  function Parse(s: string): nat
    requires AllDigits(s)
    decreases |s|
  {
    if s == [] then 0
    else Parse(s[..|s| - 1]) * 10 + (s[|s| - 1] as int - '0' as int)
  }

  /** How many digits s ends with. */
  function TrailingDigits(s: string): (k: nat)
    ensures k <= |s|
    decreases |s|
  {
    if s == [] || !IsDigit(s[|s| - 1]) then 0 else 1 + TrailingDigits(s[..|s| - 1])
  }

  /** Parsing a rendered count gives the count back. */
  lemma {:induction false} ParseShow(n: nat)
    ensures Parse(Show(n)) == n
    decreases n
  {
    var s := Show(n);
    if n >= 10 {
      assert s[..|s| - 1] == Show(n / 10);
      ParseShow(n / 10);
    } else {
      assert s[..|s| - 1] == [];
    }
  }

  /** Distinct counts are rendered differently. */
  lemma ShowInjective(m: nat, n: nat)
    requires Show(m) == Show(n)
    ensures m == n
  {
    ParseShow(m);
    ParseShow(n);
  }

  /** A run of digits after a non-digit is exactly the trailing digit run. */
  lemma {:induction false} TrailingDigitsAfter(p: string, d: string)
    requires AllDigits(d)
    requires p == [] || !IsDigit(p[|p| - 1])
    ensures TrailingDigits(p + d) == |d|
    decreases |d|
  {
    if d == [] {
      assert p + d == p;
    } else {
      var d' := d[..|d| - 1];
      assert (p + d)[..|p + d| - 1] == p + d';
      TrailingDigitsAfter(p, d');
    }
  }

  /** The trailing digit run is made of digits. */
  lemma {:induction false} TrailingAreDigits(s: string)
    ensures AllDigits(s[|s| - TrailingDigits(s)..])
    decreases |s|
  {
    if s != [] && IsDigit(s[|s| - 1]) {
      var s' := s[..|s| - 1];
      TrailingAreDigits(s');
      var run, run' := s[|s| - TrailingDigits(s)..], s'[|s'| - TrailingDigits(s')..];
      assert run == run' + [s[|s| - 1]];
      forall i | 0 <= i < |run|
        ensures IsDigit(run[i])
      {
        if i < |run'| {
          assert run[i] == run'[i];
        }
      }
    }
  }
}
