/** Base-62 encoding of a natural number. The encoder is a third-party
    library outside this model; it is ASSUMED here to use the alphabet
    0-9, A-Z, a-z, most significant digit first, with 0 written "0".
    `Decode` is its inverse, defined here to state what the encoding keeps. */
module Base62 {
  import opened Wrappers

  const BASE: nat := 62

  /** The character for one digit. */
  function DigitChar(d: nat): (c: char)
    requires d < BASE
  {
    if d < 10 then ('0' as int + d) as char
    else if d < 36 then ('A' as int + (d - 10)) as char
    else ('a' as int + (d - 36)) as char
  }

  /** The digit a character stands for, if it is one of the alphabet. */
  function DigitValue(c: char): (r: Option<nat>)
    ensures r.Some? ==> r.value < BASE && DigitChar(r.value) == c
  {
    if '0' <= c <= '9' then Some(c as int - '0' as int)
    else if 'A' <= c <= 'Z' then Some(c as int - 'A' as int + 10)
    else if 'a' <= c <= 'z' then Some(c as int - 'a' as int + 36)
    else None
  }

  lemma DigitRoundTrip(d: nat)
    requires d < BASE
    ensures DigitValue(DigitChar(d)) == Some(d)
  {
  }

  predicate IsAlphabetChar(c: char) { DigitValue(c).Some? }

  function Encode(n: nat): (s: string)
    ensures |s| >= 1
    ensures forall i :: 0 <= i < |s| ==> IsAlphabetChar(s[i])
  {
    DigitRoundTrip(n % BASE);
    if n < BASE then [DigitChar(n)] else Encode(n / BASE) + [DigitChar(n % BASE)]
  }

  /** Reads the digits most significant first; a character outside the
      alphabet makes the whole string undecodable. */
  function Decode(s: string): (r: Option<nat>)
    ensures s == [] ==> r == Some(0)
  {
    if |s| == 0 then Some(0)
    else
      match (Decode(s[..|s| - 1]), DigitValue(s[|s| - 1]))
      case (Some(high), Some(low)) => Some(high * BASE + low)
      case _ => None
  }

  /** Decoding undoes encoding. */
  lemma {:induction false} DecodeEncode(n: nat)
    ensures Decode(Encode(n)) == Some(n)
  {
    DigitRoundTrip(n % BASE);
    if n < BASE {
      assert Encode(n)[..0] == [];
    } else {
      var s := Encode(n);
      assert s[..|s| - 1] == Encode(n / BASE);
      DecodeEncode(n / BASE);
    }
  }

  /** Distinct numbers get distinct codes. */
  lemma EncodeInjective(a: nat, b: nat)
    requires Encode(a) == Encode(b)
    ensures a == b
  {
    DecodeEncode(a);
    DecodeEncode(b);
  }

  /** 62^k. */
  function Pow62(k: nat): nat {
    if k == 0 then 1 else BASE * Pow62(k - 1)
  }

  /** A number below 62^k has at most k digits. */
  lemma {:induction false} EncodeLength(n: nat, k: nat)
    requires k >= 1 && n < Pow62(k)
    ensures |Encode(n)| <= k
  {
    if n >= BASE {
      assert k >= 2;
      assert n / BASE < Pow62(k - 1);
      EncodeLength(n / BASE, k - 1);
    }
  }

  /** Only the number 0 is written with a leading "0". */
  lemma {:induction false} NoLeadingZero(n: nat)
    requires n > 0
    ensures Encode(n)[0] != '0'
  {
    if n >= BASE {
      NoLeadingZero(n / BASE);
    }
  }

  /** A number below 2^48 has at most 9 digits, since 62^8 < 2^48 < 62^9. */
  lemma LengthBelow48Bits(n: nat)
    requires n < 0x1_0000_0000_0000
    ensures 1 <= |Encode(n)| <= 9
  {
    assert Pow62(9) == 13537086546263552;
    EncodeLength(n, 9);
  }
}
