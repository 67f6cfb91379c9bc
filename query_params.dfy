/**
 * How the list endpoint reads its raw query-string values: Python truthiness
 * of an optional string, the exact-literal boolean flags, and the decimal
 * integer conversion that the id lookup and the slice apply to a string.
 */
module QueryParams {
  import opened Wrappers

  /** `if category:` — an absent parameter and the empty string are both false. */
  predicate Present(p: Option<string>)
  {
    p.Some? && p.value != ""
  }

  /** `get(name) == "true"` — on for the exact lowercase literal only. */
  predicate IsTrue(p: Option<string>)
  {
    p == Some("true")
  }

  predicate IsDigit(c: char)
  {
    '0' <= c <= '9'
  }

  predicate AllDigits(s: string)
  {
    forall i :: 0 <= i < |s| ==> IsDigit(s[i])
  }

  /** The value of a string of decimal digits, most significant first. */
  function DigitsValue(s: string): nat
    requires AllDigits(s)
  {
    if s == [] then 0
    else 10 * DigitsValue(s[..|s| - 1]) + (s[|s| - 1] as int - '0' as int)
  }

  function ParseNat(s: string): Option<nat>
  {
    if |s| > 0 && AllDigits(s) then Some(DigitsValue(s)) else None
  }

  /**
   * Integer conversion of a query-string value: an optional sign followed by
   * one or more decimal digits; anything else is a conversion error (None).
   */
  function ParseInt(s: string): (r: Option<int>)
    ensures r.Some? ==> |s| > 0 && AllDigits(s[1..])
    ensures r.Some? ==> IsDigit(s[0]) || ((s[0] == '-' || s[0] == '+') && |s| > 1)
    ensures |s| > 0 && AllDigits(s[1..]) && (IsDigit(s[0]) || ((s[0] == '-' || s[0] == '+') && |s| > 1)) ==> r.Some?
    ensures r.Some? && s[0] != '-' ==> r.value >= 0
    ensures r.Some? && s[0] == '-' ==> r.value <= 0
  {
    if |s| > 0 && (s[0] == '-' || s[0] == '+') then
      match ParseNat(s[1..])
      case None => None
      case Some(n) => var k: int := n; Some(if s[0] == '-' then -k else k)
    else
      ParseNat(s)
  }

  function DigitChar(d: nat): char
    requires d < 10
  {
    ('0' as int + d) as char
  }

  /** The canonical decimal spelling of a natural number. */
  function ShowNat(n: nat): string
  {
    if n < 10 then [DigitChar(n)] else ShowNat(n / 10) + [DigitChar(n % 10)]
  }

  /** The canonical decimal spelling of an integer, as a client writes an id. */
  function ShowInt(i: int): string
  {
    if i < 0 then "-" + ShowNat(-i) else ShowNat(i)
  }

  lemma {:induction false} ShowNatDigits(n: nat)
    ensures |ShowNat(n)| > 0 && AllDigits(ShowNat(n))
    ensures DigitsValue(ShowNat(n)) == n
  {
    if n >= 10 {
      ShowNatDigits(n / 10);
      var s := ShowNat(n);
      assert s[..|s| - 1] == ShowNat(n / 10);
    }
  }

  /** Every integer written canonically converts back to itself. */
  lemma ParseShowInt(i: int)
    ensures ParseInt(ShowInt(i)) == Some(i)
  {
    if i < 0 {
      ShowNatDigits(-i);
      assert ShowInt(i)[1..] == ShowNat(-i);
    } else {
      ShowNatDigits(i);
    }
  }

  /** Leading zeros and an explicit plus sign are accepted: both spellings read as 7. */
  lemma ParseIntLenient()
    ensures ParseInt("007") == Some(7) && ParseInt("+7") == Some(7)
  {
    assert "007"[..2] == "00" && "00"[..1] == "0" && "0"[..0] == [];
    assert DigitsValue("007") == 7;
    assert "+7"[1..] == "7" && "7"[..0] == [];
  }

  /** Only a sign and digits convert: a string holding any other character is rejected. */
  lemma ParseIntRejects(s: string, k: nat)
    requires k < |s| && !IsDigit(s[k])
    requires k > 0 || (s[0] != '-' && s[0] != '+')
    ensures ParseInt(s) == None
  {
  }
}
