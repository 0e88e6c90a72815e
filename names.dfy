/** Decimal rendering of integers, as Python's f-strings do it, and the
    "AIN{i}" register names built from it. */
module Names {

  /** The character of one decimal digit. */
  function Digit(d: nat): char
    requires d < 10
  {
    (48 + d) as char
  }

  /** The decimal digits of `n`, most significant first, without leading zeros. */
  function NatToString(n: nat): (s: string)
    ensures 1 <= |s|
    ensures forall k :: 0 <= k < |s| ==> '0' <= s[k] <= '9'
    ensures s[0] == '0' <==> n == 0
    decreases n
  {
    if n < 10 then [Digit(n)] else NatToString(n / 10) + [Digit(n % 10)]
  }

  /** `str(i)` for an integer: a minus sign before the digits of a negative number. */
  function IntToString(i: int): string
  {
    if i < 0 then "-" + NatToString(-i) else NatToString(i)
  }

  /** The name of analog input `i`: `f"AIN{i}"`. */
  function AinName(i: int): string
  {
    "AIN" + IntToString(i)
  }

  /** `[f"AIN{i}" for i in range(n)]`. */
  function DefaultChannelNames(n: nat): seq<string>
  {
    seq(n, i => AinName(i))
  }

  /** Different numbers have different decimal renderings. */
  lemma {:induction false} NatToStringInjective(a: nat, b: nat)
    requires NatToString(a) == NatToString(b)
    ensures a == b
    decreases a
  {
    var s := NatToString(a);
    if a < 10 && b < 10 {
      assert Digit(a) == s[0] == Digit(b);
    } else if 10 <= a && 10 <= b {
      var sa, sb := NatToString(a / 10), NatToString(b / 10);
      assert s == sa + [Digit(a % 10)] == sb + [Digit(b % 10)];
      assert sa == s[..|s| - 1] == sb;
      assert Digit(a % 10) == s[|s| - 1] == Digit(b % 10);
      NatToStringInjective(a / 10, b / 10);
    }
  }

  /** Different integers have different renderings, the sign included. */
  lemma IntToStringInjective(a: int, b: int)
    requires IntToString(a) == IntToString(b)
    ensures a == b
  {
    var s := IntToString(a);
    if a < 0 && b < 0 {
      assert NatToString(-a) == s[1..] == NatToString(-b);
      NatToStringInjective(-a, -b);
    } else if 0 <= a && 0 <= b {
      NatToStringInjective(a, b);
    }
  }

  /** Two channels never share an "AIN" name. */
  lemma AinNameInjective(a: int, b: int)
    requires AinName(a) == AinName(b)
    ensures a == b
  {
    assert IntToString(a) == AinName(a)[3..] == AinName(b)[3..] == IntToString(b);
    IntToStringInjective(a, b);
  }

  /** The default channel list names every channel exactly once. */
  lemma DefaultChannelNamesDistinct(n: nat)
    ensures forall i, j :: 0 <= i < j < n ==> DefaultChannelNames(n)[i] != DefaultChannelNames(n)[j]
  {
    forall i, j | 0 <= i < j < n
      ensures DefaultChannelNames(n)[i] != DefaultChannelNames(n)[j]
    {
      if AinName(i) == AinName(j) {
        AinNameInjective(i, j);
      }
    }
  }
}
