/** Decimal rendering of natural numbers, as Python's f-string `{i}` writes an int. */
module Decimal {

  /** The decimal digit character for `d`. */
  function Digit(d: nat): (c: char)
    requires d < 10
    ensures '0' <= c <= '9'
    ensures c as int - '0' as int == d
  {
    "0123456789"[d]
  }

  /** True when every character of `s` is a decimal digit. */
  predicate IsDigits(s: string) {
    forall i :: 0 <= i < |s| ==> '0' <= s[i] <= '9'
  }

  /** The number a digit string denotes, read most significant digit first. */
  function Value(s: string): nat
    requires IsDigits(s)
    decreases |s|
  {
    if s == [] then 0 else Value(s[..|s| - 1]) * 10 + (s[|s| - 1] as int - '0' as int)
  }

  /** The decimal representation of `n`, most significant digit first, without leading zeros. */
  function NatToString(n: nat): (s: string)
    ensures 1 <= |s|
    ensures n < 10 <==> |s| == 1
    ensures IsDigits(s)
    ensures Value(s) == n
    ensures 2 <= |s| ==> s[0] != '0'
    decreases n
  {
    if n < 10 then [Digit(n)]
    else
      var prefix := NatToString(n / 10);
      var s := prefix + [Digit(n % 10)];
      assert s[..|s| - 1] == prefix;
      s
  }

  /** Different numbers have different decimal representations. */
  lemma {:induction false} NatToStringInjective(a: nat, b: nat)
    requires NatToString(a) == NatToString(b)
    ensures a == b
    decreases a
  {
    var s := NatToString(a);
    if a < 10 {
      assert |NatToString(b)| == 1;
      assert Digit(a) == s[0] == Digit(b);
    } else {
      assert 10 <= b;
      assert NatToString(a / 10) == s[..|s| - 1] == NatToString(b / 10);
      assert Digit(a % 10) == s[|s| - 1] == Digit(b % 10);
      NatToStringInjective(a / 10, b / 10);
    }
  }
}
