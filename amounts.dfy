/** Ledger amounts. The ledger counts in stroops, ten million to the token, and
    writes amounts as decimal text with seven fractional digits. Numbers parsed
    from text, as `parseFloat` and `Number` do, are modelled as exact reals. */
module Amounts {
  import opened Common

  const StroopsPerToken: nat := 10_000_000
  const FractionDigits: nat := 7

  /** Decimal text of an amount of stroops: whole tokens, '.', seven digits. */
  function FormatAmount(stroops: nat): (s: string)
    ensures |s| > 0
  {
    NatToString(stroops / StroopsPerToken) + "." + FixedDigits(stroops, FractionDigits)
  }

  /** Index of the first '.' in `s`, or |s| when there is none. */
  function DotIndex(s: string): (k: nat)
    ensures k <= |s|
    ensures k < |s| ==> s[k] == '.'
    ensures forall j :: 0 <= j < k ==> s[j] != '.'
  {
    if s == [] then 0 else if s[0] == '.' then 0 else 1 + DotIndex(s[1..])
  }

  /** Number text without a sign: digits, optionally followed by '.' and digits.
      `None` stands for NaN. */
  function ParseUnsigned(s: string): Option<real> {
    var k := DotIndex(s);
    var whole := s[..k];
    var fraction := if k < |s| then s[k + 1..] else "";
    if |whole| > 0 && AllDigits(whole) && AllDigits(fraction) then
      Some(DigitsToNat(whole) as real + DigitsToNat(fraction) as real / Pow10(|fraction|) as real)
    else
      None
  }

  /** The numeric value of decimal text: an optional '-', then `ParseUnsigned`. */
  function ParseDecimal(s: string): Option<real> {
    if |s| > 0 && s[0] == '-' then
      match ParseUnsigned(s[1..])
      case None => None
      case Some(v) => Some(-v)
    else
      ParseUnsigned(s)
  }

  /** Reading back the text of an amount gives its exact value in tokens. */
  lemma {:induction false} ParseFormatAmount(stroops: nat)
    ensures ParseDecimal(FormatAmount(stroops)) == Some(stroops as real / StroopsPerToken as real)
  {
    var w := NatToString(stroops / StroopsPerToken);
    var f := FixedDigits(stroops, FractionDigits);
    var s := FormatAmount(stroops);
    assert s == w + "." + f;
    DotAfterDigits(w, f);
    assert s[..|w|] == w;
    assert s[|w| + 1..] == f;
    assert IsDigit(s[0]);
    NatToStringRoundTrip(stroops / StroopsPerToken);
    FixedDigitsValue(stroops, FractionDigits);
    assert Pow10(FractionDigits) == StroopsPerToken;
    var q := stroops / StroopsPerToken;
    var r := stroops % StroopsPerToken;
    assert stroops == q * StroopsPerToken + r;
    assert ParseDecimal(s) == Some(q as real + r as real / StroopsPerToken as real);
    assert q as real + r as real / StroopsPerToken as real == stroops as real / StroopsPerToken as real;
  }

  lemma {:induction false} DotAfterDigits(w: string, f: string)
    requires AllDigits(w)
    ensures DotIndex(w + "." + f) == |w|
  {
    if w != [] {
      assert (w + "." + f)[1..] == w[1..] + "." + f;
      DotAfterDigits(w[1..], f);
    }
  }

  /** The text of a whole number parses to that number. */
  lemma ParseNatText(n: nat)
    ensures ParseDecimal(NatToString(n)) == Some(n as real)
  {
    var s := NatToString(n);
    NoDotInDigits(s);
    assert IsDigit(s[0]);
    assert s[..|s|] == s;
    NatToStringRoundTrip(n);
  }

  lemma {:induction false} NoDotInDigits(s: string)
    requires AllDigits(s)
    ensures DotIndex(s) == |s|
  {
    if s != [] {
      NoDotInDigits(s[1..]);
    }
  }
}
