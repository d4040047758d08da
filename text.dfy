/** Decimal formatting used for identifiers: str(n) and the zero-padded f"{n:07d}". */
module Text {

  /** The character of the decimal digit d. */
  function DigitChar(d: nat): (c: char)
    requires d < 10
    ensures '0' <= c <= '9'
    ensures c as int - '0' as int == d
  {
    ('0' as int + d) as char
  }

  predicate IsDigits(s: string) {
    forall i :: 0 <= i < |s| ==> '0' <= s[i] <= '9'
  }

  /** Python's str(n) for a non-negative integer. */
  function NatToString(n: nat): (s: string)
    ensures |s| >= 1 && IsDigits(s)
    ensures |s| > 1 ==> s[0] != '0'
    decreases n
  {
    if n < 10 then [DigitChar(n)] else NatToString(n / 10) + [DigitChar(n % 10)]
  }

  function Pow10(k: nat): (p: nat)
    ensures p >= 1
  {
    if k == 0 then 1 else 10 * Pow10(k - 1)
  }

  /** Distinct numbers print differently, so "O-" + str(n) names are distinct. */
  lemma {:induction false} NatToStringInjective(a: nat, b: nat)
    requires NatToString(a) == NatToString(b)
    ensures a == b
    decreases a
  {
    var s := NatToString(a);
    if a >= 10 && b >= 10 {
      var k := |s| - 1;
      assert DigitChar(a % 10) == s[k] == DigitChar(b % 10);
      assert NatToString(a / 10) == s[..k] == NatToString(b / 10);
      NatToStringInjective(a / 10, b / 10);
    } else if a < 10 && b < 10 {
      assert DigitChar(a) == s[0] == DigitChar(b);
    }
  }

  /** A number below 10^k prints in at most k digits. */
  lemma {:induction false} NatToStringLength(n: nat, k: nat)
    requires 1 <= k && n < Pow10(k)
    ensures |NatToString(n)| <= k
    decreases k
  {
    if n >= 10 {
      assert k >= 2 && n / 10 < Pow10(k - 1);
      NatToStringLength(n / 10, k - 1);
    }
  }

  /** Python's format of a digit string to a minimum width with leading zeros. */
  function ZeroPad(s: string, width: nat): (r: string)
    ensures |r| == if |s| >= width then |s| else width
    ensures r[|r| - |s|..] == s
    ensures forall i :: 0 <= i < |r| - |s| ==> r[i] == '0'
  {
    if |s| >= width then s else seq(width - |s|, _ => '0') + s
  }

  /** The range of random.randint(0, 9999999) used for lineage ids. */
  type LineageNumber = n: nat | n <= 9999999

  /** f"L-{n:07d}": a lineage id is "L-" followed by exactly seven digits. */
  function LineageTag(n: LineageNumber): (t: string)
    ensures |t| == 9 && t[..2] == "L-" && IsDigits(t[2..])
  {
    NatToStringLength(n, 7);
    "L-" + ZeroPad(NatToString(n), 7)
  }
}
