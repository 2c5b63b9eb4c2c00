/** Reading a number back from the end of a colon-separated key. */
module Keys {
  import Amounts

  /** `effect_key.rsplit(":", 1)[1]`: the text after the last colon. */
  function AfterLastColon(s: string): string {
    if s == "" || s[|s| - 1] == ':' then ""
    else AfterLastColon(s[..|s| - 1]) + [s[|s| - 1]]
  }

  lemma {:induction false} AfterColonDigits(prefix: string, digits: string)
    requires Amounts.AllDigits(digits)
    ensures AfterLastColon(prefix + ":" + digits) == digits
  {
    var s := prefix + ":" + digits;
    if digits != "" {
      assert s[..|s| - 1] == prefix + ":" + digits[..|digits| - 1];
      AfterColonDigits(prefix, digits[..|digits| - 1]);
    }
  }

  /** A key that ends in a number determines the number and the text before it. */
  lemma KeyEndsInNumber(p: string, m: nat, q: string, n: nat)
    requires p + ":" + Amounts.Decimal(m) == q + ":" + Amounts.Decimal(n)
    ensures p == q && m == n
  {
    var d, e := Amounts.Decimal(m), Amounts.Decimal(n);
    AfterColonDigits(p, d);
    AfterColonDigits(q, e);
    Amounts.IntOfDecimal(m);
    Amounts.IntOfDecimal(n);
    assert p == (p + ":" + d)[..|p|];
    assert q == (q + ":" + e)[..|q|];
  }
}
