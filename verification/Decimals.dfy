/** Numbers as decimal text: fmt's %d for a natural number, and reading it back. */
module Decimals {

  function Number(p: string): nat {
    if p == "" then 0
    else Number(p[..|p| - 1]) * 10 + if '0' <= p[|p| - 1] <= '9' then (p[|p| - 1] as int - '0' as int) else 0
  }

  function Decimal(n: nat): (r: string)
    ensures |r| > 0 && forall i :: 0 <= i < |r| ==> '0' <= r[i] <= '9'
    ensures n > 0 ==> r[0] != '0'
  {
    if n < 10 then [('0' as int + n) as char] else Decimal(n / 10) + [('0' as int + n % 10) as char]
  }

  lemma {:induction false} DecimalReads(n: nat)
    ensures Number(Decimal(n)) == n
  {
    if n < 10 {
      assert Decimal(n)[..0] == "";
    } else {
      DecimalReads(n / 10);
      assert Decimal(n)[..|Decimal(n)| - 1] == Decimal(n / 10);
    }
  }
}
