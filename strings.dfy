/**
 * The few string operations the dashboard relies on: the decimal rendering
 * of a number, a suffix of at most k characters (`slice(-k)`) and substring
 * search (`includes`).
 */
module Strings {

  function DigitChar(d: nat): (c: char)
    requires d < 10
    ensures '0' <= c <= '9'
  {
    "0123456789"[d]
  }

  /** The decimal digits of n, most significant first, without leading zeros. */
  function Decimal(n: nat): (s: string)
    ensures 1 <= |s|
    ensures forall i :: 0 <= i < |s| ==> '0' <= s[i] <= '9'
    ensures n < 10 <==> |s| == 1
  {
    if n < 10 then [DigitChar(n)] else Decimal(n / 10) + [DigitChar(n % 10)]
  }

  /** `s.slice(-k)`: the last k characters, or all of s when it is shorter. */
  function TakeLast(s: string, k: nat): (r: string)
    ensures |r| == if |s| < k then |s| else k
    ensures r == s[|s| - |r|..]
  {
    if |s| <= k then s else s[|s| - k..]
  }

  /** `s.includes(sub)`, by searching every start position in turn. */
  function Contains(s: string, sub: string): bool
  {
    |sub| <= |s| && (s[..|sub|] == sub || Contains(s[1..], sub))
  }

  /** Occurs(s, sub, i): sub sits in s at position i. */
  ghost predicate OccursAt(s: string, sub: string, i: int)
  {
    0 <= i && i + |sub| <= |s| && s[i..i + |sub|] == sub
  }

  /** The search finds sub exactly when sub occurs at some position of s. */
  lemma {:induction false} ContainsIffOccurs(s: string, sub: string)
    ensures Contains(s, sub) <==> exists i :: OccursAt(s, sub, i)
  {
    if |sub| > |s| {
      assert forall i :: !OccursAt(s, sub, i);
    } else if s[..|sub|] == sub {
      assert OccursAt(s, sub, 0);
    } else {
      ContainsIffOccurs(s[1..], sub);
      if Contains(s[1..], sub) {
        var i :| OccursAt(s[1..], sub, i);
        assert s[1..][i..i + |sub|] == s[i + 1..i + 1 + |sub|];
        assert OccursAt(s, sub, i + 1);
      } else {
        forall i | OccursAt(s, sub, i) ensures false {
          if 0 < i {
            assert s[1..][i - 1..i - 1 + |sub|] == s[i..i + |sub|];
            assert OccursAt(s[1..], sub, i - 1);
          }
        }
      }
    }
  }

  /** The last four decimal digits of n, zero-padded. */
  function LowDigits(n: nat): (s: string)
    ensures |s| == 4
  {
    [DigitChar(n / 1000 % 10), DigitChar(n / 100 % 10), DigitChar(n / 10 % 10), DigitChar(n % 10)]
  }

  lemma DivTenTwice(n: nat)
    ensures n / 10 / 10 == n / 100 && n / 100 / 10 == n / 1000
  {
  }

  lemma ShiftByTenThousand(n: nat)
    ensures (n + 10000) / 1000 == n / 1000 + 10
    ensures (n + 10000) / 100 == n / 100 + 100
    ensures (n + 10000) / 10 == n / 10 + 1000
    ensures LowDigits(n + 10000) == LowDigits(n)
  {
    assert (n / 1000 + 10) % 10 == n / 1000 % 10;
    assert (n / 100 + 100) % 10 == n / 100 % 10;
    assert (n / 10 + 1000) % 10 == n / 10 % 10;
  }

  /** For n of at least four digits, its last four characters are its four low digits. */
  lemma {:induction false} LastFourDigits(n: nat)
    requires 1000 <= n
    ensures TakeLast(Decimal(n), 4) == LowDigits(n)
  {
    DivTenTwice(n);
    var n1, n2, n3 := n / 10, n / 100, n / 1000;
    var pre := if n3 < 10 then [] else Decimal(n3 / 10);
    var d0, d1, d2, d3 := DigitChar(n % 10), DigitChar(n1 % 10), DigitChar(n2 % 10), DigitChar(n3 % 10);
    assert Decimal(n3) == pre + [d3];
    assert Decimal(n2) == pre + [d3] + [d2];
    assert Decimal(n1) == pre + [d3] + [d2] + [d1];
    assert Decimal(n) == pre + [d3] + [d2] + [d1] + [d0];
    assert Decimal(n)[|Decimal(n)| - 4..] == [d3, d2, d1, d0];
  }

  /** Numbers ten thousand apart end in the same four characters. */
  lemma LastFourPeriodic(n: nat)
    requires 1000 <= n
    ensures TakeLast(Decimal(n + 10000), 4) == TakeLast(Decimal(n), 4)
  {
    LastFourDigits(n);
    LastFourDigits(n + 10000);
    ShiftByTenThousand(n);
  }
}
