/** Decimal rendering of non-negative integers, as JavaScript's `String(n)`
 *  and template literals produce it, with its inverse. */
module Decimal {
  predicate IsDigit(c: char) {
    '0' <= c <= '9'
  }

  predicate AllDigits(s: string) {
    forall i :: 0 <= i < |s| ==> IsDigit(s[i])
  }

  function DigitValue(c: char): nat
    requires IsDigit(c)
  {
    c as int - '0' as int
  }

  function DigitChar(d: nat): (c: char)
    requires d < 10
    ensures IsDigit(c) && DigitValue(c) == d
  {
    ('0' as int + d) as char
  }

  /** The number a string of decimal digits denotes; leading zeros are allowed. */
  function Value(s: string): nat
    requires AllDigits(s)
  {
    if s == [] then 0 else Value(s[..|s| - 1]) * 10 + DigitValue(s[|s| - 1])
  }

  /** `String(n)`: the decimal digits of n, without leading zeros. */
  function Show(n: nat): (s: string)
    ensures AllDigits(s) && Value(s) == n
    ensures n < 10 <==> |s| == 1
    ensures n < 100 <==> |s| <= 2
    ensures |s| == 1 || s[0] != '0'
    decreases n
  {
    if n < 10 then
      [DigitChar(n)]
    else
      var s := Show(n / 10) + [DigitChar(n % 10)];
      assert s[..|s| - 1] == Show(n / 10);
      assert s[0] == Show(n / 10)[0];
      s
  }

  lemma ShowInjective(m: nat, n: nat)
    ensures Show(m) == Show(n) <==> m == n
  {
  }

  /** `String(n).padStart(2, '0')`. */
  function Pad2(n: nat): (s: string)
    ensures AllDigits(s) && Value(s) == n
    ensures n < 100 <==> |s| == 2
    ensures |s| == 2 || s[0] != '0'
  {
    var d := Show(n);
    if |d| < 2 then
      var s := ['0'] + d;
      assert s[..1] == ['0'] && s[..1][..0] == [];
      s
    else
      d
  }

  /** Index of the last occurrence of c in s, or -1. */
  function LastIndexOf(s: string, c: char): (k: int)
    ensures -1 <= k < |s|
  {
    if s == [] then -1
    else if s[|s| - 1] == c then |s| - 1
    else LastIndexOf(s[..|s| - 1], c)
  }

  lemma {:induction false} LastSeparator(a: string, sep: char, d: string)
    requires !IsDigit(sep) && AllDigits(d)
    ensures LastIndexOf(a + [sep] + d, sep) == |a|
    decreases |d|
  {
    var s := a + [sep] + d;
    if d != [] {
      assert s[..|s| - 1] == a + [sep] + d[..|d| - 1];
      LastSeparator(a, sep, d[..|d| - 1]);
    }
  }

  /** A name built as `prefix + sep + String(n)` with a separator that is not
   *  a digit determines both its prefix and its number: the number's digits
   *  never contain the separator, so the last separator splits the name. */
  lemma JoinInjective(a: string, b: string, sep: char, m: nat, n: nat)
    requires !IsDigit(sep)
    ensures a + [sep] + Show(m) == b + [sep] + Show(n) <==> a == b && m == n
  {
    var x, y := a + [sep] + Show(m), b + [sep] + Show(n);
    if x == y {
      LastSeparator(a, sep, Show(m));
      LastSeparator(b, sep, Show(n));
      assert a == x[..|a|] && b == y[..|b|];
      assert Show(m) == x[|a| + 1..] && Show(n) == y[|b| + 1..];
      ShowInjective(m, n);
    }
  }
}
