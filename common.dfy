/** Shared vocabulary: optional values, results that carry a thrown error's
    message, JavaScript truthiness of optional strings, and decimal text. */
module Common {

  datatype Option<+T> = None | Some(value: T)

  /** The outcome of a call that may throw: `Err` carries the `Error.message`. */
  datatype Result<+T> = Ok(value: T) | Err(message: string)

  /** `!x` in JavaScript for an optional string: undefined, null and "" are falsy. */
  predicate Falsy(x: Option<string>) {
    x.None? || x.value == ""
  }

  /** `String.prototype.startsWith`. */
  predicate StartsWith(s: string, prefix: string) {
    |prefix| <= |s| && s[..|prefix|] == prefix
  }

  /** Looks a name up in a parameter record; `None` stands for `undefined`. */
  function Lookup<V>(m: map<string, V>, name: string): (r: Option<V>)
    ensures r.Some? <==> name in m
    ensures r.Some? ==> r.value == m[name]
  {
    if name in m then Some(m[name]) else None
  }

  /** The first index of `s` whose element satisfies `p`, as `Array.prototype.find`
      and `findIndex` scan it. */
  function FirstIndex<T>(s: seq<T>, p: T -> bool): (r: Option<nat>)
    ensures r.Some? ==> r.value < |s| && p(s[r.value])
    ensures r.Some? ==> forall j :: 0 <= j < r.value ==> !p(s[j])
    ensures r.None? <==> forall j :: 0 <= j < |s| ==> !p(s[j])
  {
    if s == [] then None
    else if p(s[0]) then Some(0)
    else match FirstIndex(s[1..], p)
      case None => None
      case Some(k) => Some(k + 1)
  }

  // ---------------------------------------------------------------------
  // Decimal digits

  predicate IsDigit(c: char) {
    '0' <= c <= '9'
  }

  predicate AllDigits(s: string) {
    forall i :: 0 <= i < |s| ==> IsDigit(s[i])
  }

  function DigitChar(d: nat): (c: char)
    requires d < 10
    ensures IsDigit(c)
  {
    ('0' as int + d) as char
  }

  function DigitValue(c: char): (d: nat)
    requires IsDigit(c)
    ensures d < 10
  {
    c as int - '0' as int
  }

  function Pow10(k: nat): (p: nat)
    ensures p >= 1
  {
    if k == 0 then 1 else 10 * Pow10(k - 1)
  }

  /** The value of a string of decimal digits ("" is 0). */
  function DigitsToNat(s: string): nat
    requires AllDigits(s)
  {
    if s == [] then 0 else DigitsToNat(s[..|s| - 1]) * 10 + DigitValue(s[|s| - 1])
  }

  /** The shortest decimal text of `n`, as JavaScript renders a safe integer. */
  function NatToString(n: nat): (s: string)
    ensures |s| > 0 && AllDigits(s)
  {
    if n < 10 then [DigitChar(n)] else NatToString(n / 10) + [DigitChar(n % 10)]
  }

  /** The last `width` decimal digits of `n`, padded with leading zeros. */
  function FixedDigits(n: nat, width: nat): (s: string)
    ensures |s| == width && AllDigits(s)
  {
    if width == 0 then [] else FixedDigits(n / 10, width - 1) + [DigitChar(n % 10)]
  }

  /** Integer text with a leading '-' for negative numbers. */
  function IntToString(i: int): (s: string)
    ensures |s| > 0
  {
    if i < 0 then "-" + NatToString(-i) else NatToString(i)
  }

  /** Reads back what `IntToString` writes: an optional '-' and one or more digits. */
  function ParseInt(s: string): Option<int> {
    if |s| > 1 && s[0] == '-' && AllDigits(s[1..]) then Some(0 - DigitsToNat(s[1..]) as int)
    else if |s| > 0 && AllDigits(s) then Some(DigitsToNat(s))
    else None
  }

  lemma DigitRoundTrip(d: nat)
    requires d < 10
    ensures DigitValue(DigitChar(d)) == d
  {
  }

  lemma {:induction false} NatToStringRoundTrip(n: nat)
    ensures DigitsToNat(NatToString(n)) == n
  {
    var s := NatToString(n);
    if n < 10 {
      DigitRoundTrip(n);
    } else {
      NatToStringRoundTrip(n / 10);
      assert s[..|s| - 1] == NatToString(n / 10);
      DigitRoundTrip(n % 10);
    }
  }

  lemma {:induction false} FixedDigitsValue(n: nat, width: nat)
    ensures DigitsToNat(FixedDigits(n, width)) == n % Pow10(width)
  {
    if width > 0 {
      var s := FixedDigits(n, width);
      FixedDigitsValue(n / 10, width - 1);
      assert s[..|s| - 1] == FixedDigits(n / 10, width - 1);
      DigitRoundTrip(n % 10);
      ModOfDivMod(n, Pow10(width - 1));
    }
  }

  /** (n / 10) % p * 10 + n % 10 is n % (10 * p). */
  lemma ModOfDivMod(n: nat, p: nat)
    requires p >= 1
    ensures (n / 10) % p * 10 + n % 10 == n % (10 * p)
  {
    var q := n / 10;
    var a := q / p;
    var b := q % p;
    assert q == a * p + b;
    assert n == 10 * q + n % 10;
    assert n == (10 * p) * a + (10 * b + n % 10);
    assert 0 <= 10 * b + n % 10 < 10 * p;
    UniqueMod(n, 10 * p, a, 10 * b + n % 10);
  }

  lemma UniqueMod(n: int, m: int, a: int, r: int)
    requires m > 0 && 0 <= r < m && n == m * a + r
    ensures n % m == r && n / m == a
  {
    var a' := n / m;
    var r' := n % m;
    assert n == m * a' + r';
    if a' > a {
      assert m * a' >= m * (a + 1) by { MulMono(m, a + 1, a'); }
    } else if a' < a {
      assert m * a >= m * (a' + 1) by { MulMono(m, a' + 1, a); }
    }
  }

  lemma MulMono(m: int, x: int, y: int)
    requires m > 0 && x <= y
    ensures m * x <= m * y
  {
  }

  lemma {:induction false} IntToStringRoundTrip(i: int)
    ensures ParseInt(IntToString(i)) == Some(i)
  {
    var s := IntToString(i);
    if i < 0 {
      var t := NatToString(-i);
      assert s[1..] == t;
      NatToStringRoundTrip(-i);
      assert ParseInt(s) == Some(0 - DigitsToNat(t) as int);
    } else {
      assert IsDigit(s[0]);
      NatToStringRoundTrip(i);
    }
  }
}
