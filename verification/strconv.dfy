/**
 * The parts of Go's `strconv` and `%d` formatting that the core relies on:
 * `ParseUint`, `ParseInt` and `Atoi` in base 10, over the bytes of a string,
 * and decimal rendering of integers.
 */
module Strconv {
  import opened Wrappers
  import opened Utf8

  function Pow2(n: nat): (r: nat)
    ensures r >= 1
  {
    if n == 0 then 1 else 2 * Pow2(n - 1)
  }

  /** Wider ranges hold narrower ones. */
  lemma {:induction false} Pow2Monotone(a: nat, b: nat)
    requires a <= b
    ensures Pow2(a) <= Pow2(b)
    decreases b - a
  {
    if a < b {
      Pow2Monotone(a + 1, b);
    }
  }

  predicate IsDigit(b: byte)
  {
    '0' as int <= b <= '9' as int
  }

  predicate AllDigits(s: seq<byte>)
  {
    forall i :: 0 <= i < |s| ==> IsDigit(s[i])
  }

  /** The value of a run of decimal digits, most significant first. */
  function DigitsValue(s: seq<byte>): nat
    requires AllDigits(s)
  {
    if s == [] then 0 else DigitsValue(s[..|s| - 1]) * 10 + (s[|s| - 1] - '0' as int)
  }

  /**
   * strconv.ParseUint(s, 10, bitSize): one or more decimal digits and no sign;
   * a value that does not fit in bitSize bits is a range error.
   */
  function ParseUint(s: seq<byte>, bitSize: nat): (r: Option<nat>)
    ensures r.Some? ==> |s| > 0 && r.value < Pow2(bitSize)
  {
    if |s| > 0 && AllDigits(s) && DigitsValue(s) < Pow2(bitSize) then Some(DigitsValue(s)) else None
  }

  /**
   * strconv.ParseInt(s, 10, bitSize): an optional '+' or '-' and then what
   * ParseUint accepts; the result must lie in the signed bitSize-bit range.
   */
  function ParseInt(s: seq<byte>, bitSize: nat): (r: Option<int>)
    requires bitSize > 0
    ensures r.Some? ==> -(Pow2(bitSize - 1) as int) <= r.value < Pow2(bitSize - 1)
  {
    var neg := |s| > 0 && s[0] == '-' as int;
    var digits := if |s| > 0 && (s[0] == '+' as int || s[0] == '-' as int) then s[1..] else s;
    match ParseUint(digits, bitSize)
    case None => None
    case Some(u) =>
      if !neg && u >= Pow2(bitSize - 1) then None
      else if neg && u > Pow2(bitSize - 1) then None
      else if neg then Some(-(u as int)) else Some(u)
  }

  /** strconv.Atoi on a 64-bit platform. */
  function Atoi(s: seq<byte>): (r: Option<int>)
    ensures r.Some? ==> -(Pow2(63) as int) <= r.value < Pow2(63)
  {
    ParseInt(s, 64)
  }

  function DigitChar(d: nat): (c: char)
    requires d < 10
    ensures '0' <= c <= '9'
  {
    ['0', '1', '2', '3', '4', '5', '6', '7', '8', '9'][d]
  }

  /** The decimal digits of n, as `%d` prints a non-negative integer. */
  function FormatNat(n: nat): (r: string)
    ensures |r| > 0
  {
    if n < 10 then [DigitChar(n)] else FormatNat(n / 10) + [DigitChar(n % 10)]
  }

  /** `%d` / strconv.Itoa. */
  function FormatInt(n: int): (r: string)
  {
    if n < 0 then "-" + FormatNat(-n) else FormatNat(n)
  }

  /** One decimal digit is one ASCII byte. */
  lemma EncodeDigit(d: nat)
    requires d < 10
    ensures Encode([DigitChar(d)]) == [d + '0' as int]
  {
  }

  /** Appending a digit multiplies the value by ten and adds the digit. */
  lemma DigitsValueAppend(p: seq<byte>, x: byte)
    requires AllDigits(p) && IsDigit(x)
    ensures AllDigits(p + [x])
    ensures DigitsValue(p + [x]) == DigitsValue(p) * 10 + (x - '0' as int)
  {
    var e := p + [x];
    assert e[..|e| - 1] == p;
  }

  lemma {:induction false} FormatNatBytes(n: nat)
    ensures |Encode(FormatNat(n))| > 0
    ensures AllDigits(Encode(FormatNat(n)))
    ensures DigitsValue(Encode(FormatNat(n))) == n
  {
    if n < 10 {
      EncodeDigit(n);
    } else {
      FormatNatBytes(n / 10);
      EncodeAppend(FormatNat(n / 10), [DigitChar(n % 10)]);
      EncodeDigit(n % 10);
      DigitsValueAppend(Encode(FormatNat(n / 10)), n % 10 + '0' as int);
    }
  }

  /** Reading back what `%d` prints gives the number again, for every width. */
  lemma ParseIntFormatInt(n: int, bitSize: nat)
    requires bitSize > 0
    requires -(Pow2(bitSize - 1) as int) <= n < Pow2(bitSize - 1)
    ensures ParseInt(Encode(FormatInt(n)), bitSize) == Some(n)
  {
    var m: nat := if n < 0 then -n else n;
    FormatNatBytes(m);
    var d := Encode(FormatNat(m));
    assert IsDigit(d[0]);
    assert Pow2(bitSize) == 2 * Pow2(bitSize - 1);
    assert ParseUint(d, bitSize) == Some(m);
    if n < 0 {
      EncodeAppend("-", FormatNat(m));
      assert Encode(FormatInt(n)) == ['-' as int] + d;
      assert (['-' as int] + d)[1..] == d;
    }
  }

  /** strconv.Atoi inverts strconv.Itoa on the 64-bit range. */
  lemma AtoiFormatInt(n: int)
    requires -(Pow2(63) as int) <= n < Pow2(63)
    ensures Atoi(Encode(FormatInt(n))) == Some(n)
  {
    ParseIntFormatInt(n, 64);
  }

  lemma {:induction false} FormatNatHead(n: nat)
    ensures '0' <= FormatNat(n)[0] <= '9'
  {
    if n >= 10 {
      FormatNatHead(n / 10);
    }
  }

  /** Different integers print differently. */
  lemma FormatIntInjective(a: int, b: int)
    requires FormatInt(a) == FormatInt(b)
    ensures a == b
  {
    var ma: nat := if a < 0 then -a else a;
    var mb: nat := if b < 0 then -b else b;
    if (a < 0) != (b < 0) {
      var m := if a < 0 then mb else ma;
      FormatNatHead(m);
    } else {
      if a < 0 {
        assert FormatNat(ma) == FormatInt(a)[1..] == FormatInt(b)[1..] == FormatNat(mb);
      }
      FormatNatBytes(ma);
      FormatNatBytes(mb);
    }
  }
}
