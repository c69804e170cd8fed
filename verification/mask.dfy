/** The configuration report's masking of secrets (bot token, API keys). */
module Mask {
  import opened Utf8

  type Bytes = seq<byte>

  /** "(not set)" for an empty secret. */
  const NotSet: Bytes := Ascii("(not set)")

  const Stars: Bytes := Ascii("***")

  const Ellipsis: Bytes := Ascii("...")

  /**
   * The printable form of a secret: nothing of a secret of at most 8
   * bytes is shown, and a longer one shows only its first and last 4 bytes.
   */
  function MaskSecret(secret: Bytes): (r: Bytes)
    ensures secret == [] ==> r == NotSet
    ensures 1 <= |secret| <= 8 ==> r == Stars
    ensures |secret| > 8 ==>
      && |r| == 11
      && r[..4] == secret[..4] && r[4..7] == Ellipsis && r[7..] == secret[|secret| - 4..]
  {
    if secret == [] then NotSet
    else if |secret| <= 8 then Stars
    else secret[..4] + Ellipsis + secret[|secret| - 4..]
  }

  /**
   * Masked output reveals at most 8 bytes of a long secret: outside the
   * fixed "..." at positions 4..6, each of the 11 output bytes copies one
   * of the secret's first four or last four bytes.
   */
  lemma MaskRevealsAtMostEight(secret: Bytes)
    requires |secret| > 8
    ensures var r := MaskSecret(secret);
      forall i | 0 <= i < |r| && !(4 <= i < 7) ::
        r[i] == (if i < 4 then secret[i] else secret[|secret| - 11 + i])
  {
    var r := MaskSecret(secret);
    forall i | 0 <= i < |r| && !(4 <= i < 7)
      ensures r[i] == (if i < 4 then secret[i] else secret[|secret| - 11 + i])
    {
      if i < 4 {
        assert r[..4][i] == r[i];
      } else {
        assert r[7..][i - 7] == r[i];
      }
    }
  }

  /** Two short secrets are indistinguishable once masked. */
  lemma ShortSecretsLookAlike(a: Bytes, b: Bytes)
    requires 1 <= |a| <= 8 && 1 <= |b| <= 8
    ensures MaskSecret(a) == MaskSecret(b)
  {
  }

  /** Long secrets that share their first and last four bytes are masked identically. */
  lemma MaskDependsOnlyOnEnds(a: Bytes, b: Bytes)
    requires |a| > 8 && |b| > 8
    requires a[..4] == b[..4] && a[|a| - 4..] == b[|b| - 4..]
    ensures MaskSecret(a) == MaskSecret(b)
  {
  }
}
