/**
 * Numerals as Python's `%d`, `%x`, `%X`, `%08x` and `bytes.hex()` write
 * them, over an arbitrary digit alphabet, with the reading back that shows
 * they lose nothing.
 */
module Numerals {
  import opened PdbRecords
  import PyStr

  const DecimalDigits := "0123456789"
  const HexLower := "0123456789abcdef"
  const HexUpper := "0123456789ABCDEF"

  /** An alphabet of at least two distinct digit characters. */
  ghost predicate IsAlphabet(alphabet: string) {
    |alphabet| >= 2 && forall i, j | 0 <= i < j < |alphabet| :: alphabet[i] != alphabet[j]
  }

  lemma AlphabetsAreAlphabets()
    ensures IsAlphabet(DecimalDigits) && IsAlphabet(HexLower) && IsAlphabet(HexUpper)
  {
  }

  function Pow(b: nat, w: nat): nat {
    if w == 0 then 1 else b * Pow(b, w - 1)
  }

  /** The position of `c` in `alphabet`, i.e. the value of the digit `c`. */
  function DigitValue(alphabet: string, c: char): (d: nat)
    requires c in alphabet
    ensures d < |alphabet| && alphabet[d] == c
  {
    if alphabet[0] == c then 0 else 1 + DigitValue(alphabet[1..], c)
  }

  /** `n` in base `|alphabet|`, most significant digit first, no leading zeros. */
  function Digits(n: nat, alphabet: string): (r: string)
    requires |alphabet| >= 2
    ensures |r| >= 1
    ensures forall i | 0 <= i < |r| :: r[i] in alphabet
    decreases n
  {
    var b := |alphabet|;
    if n < b then [alphabet[n]]
    else
      QuotientSmaller(n, b);
      Digits(n / b, alphabet) + [alphabet[n % b]]
  }

  /** The number a digit string denotes (the reading used to state round trips). */
  function Value(s: string, alphabet: string): nat
    requires forall i | 0 <= i < |s| :: s[i] in alphabet
  {
    if s == [] then 0
    else Value(s[..|s| - 1], alphabet) * |alphabet| + DigitValue(alphabet, s[|s| - 1])
  }

  /** Left-pad with the zero digit to at least `width` characters (`%0<width>x`). */
  function ZeroPad(s: string, width: nat, alphabet: string): (r: string)
    requires |alphabet| >= 1
  {
    if |s| < width then seq(width - |s|, _ => alphabet[0]) + s else s
  }

  /** `%0<width>x` of `n` over `alphabet`. */
  function PaddedDigits(n: nat, width: nat, alphabet: string): string
    requires |alphabet| >= 2
  {
    ZeroPad(Digits(n, alphabet), width, alphabet)
  }

  /** `bytes.hex()`: two digits per byte, in order. */
  function HexBytes(bs: seq<byte>, alphabet: string): string
    requires |alphabet| == 16
  {
    if bs == [] then "" else PaddedDigits(bs[0] as nat, 2, alphabet) + HexBytes(bs[1..], alphabet)
  }

  lemma DigitValueOf(alphabet: string, d: nat)
    requires IsAlphabet(alphabet) && d < |alphabet|
    ensures DigitValue(alphabet, alphabet[d]) == d
  {
    var v := DigitValue(alphabet, alphabet[d]);
    assert alphabet[v] == alphabet[d];
  }

  lemma DivMod(n: nat, b: nat)
    requires b >= 1
    ensures n == (n / b) * b + n % b
  {
  }

  lemma QuotientBound(n: nat, b: nat, p: nat)
    requires b >= 1 && n < b * p
    ensures n / b < p
  {
    DivMod(n, b);
  }

  /** Reading back the digits of `n` gives `n`. */
  lemma {:induction false} DigitsRoundTrip(n: nat, alphabet: string)
    requires IsAlphabet(alphabet)
    ensures Value(Digits(n, alphabet), alphabet) == n
    decreases n
  {
    var b := |alphabet|;
    if n < b {
      DigitValueOf(alphabet, n);
      assert Digits(n, alphabet)[..0] == [];
    } else {
      var q, r := n / b, n % b;
      var hi := Digits(q, alphabet);
      assert Digits(n, alphabet) == hi + [alphabet[r]];
      QuotientSmaller(n, b);
      DigitsRoundTrip(q, alphabet);
      DigitValueOf(alphabet, r);
      ValueSnoc(hi, alphabet[r], alphabet);
      assert Value(hi, alphabet) == q;
      assert DigitValue(alphabet, alphabet[r]) == r;
      assert Value(Digits(n, alphabet), alphabet) == q * b + r;
      DivMod(n, b);
    }
  }

  lemma QuotientSmaller(n: nat, b: nat)
    requires b >= 2 && n >= 1
    ensures n / b < n
  {
  }

  /** Appending a digit multiplies by the base and adds the digit. */
  lemma ValueSnoc(s: string, c: char, alphabet: string)
    requires forall i | 0 <= i < |s| :: s[i] in alphabet
    requires c in alphabet
    ensures Value(s + [c], alphabet) == Value(s, alphabet) * |alphabet| + DigitValue(alphabet, c)
  {
    assert (s + [c])[..|s|] == s;
  }

  lemma DigitsInjective(n: nat, m: nat, alphabet: string)
    requires IsAlphabet(alphabet)
    requires Digits(n, alphabet) == Digits(m, alphabet)
    ensures n == m
  {
    DigitsRoundTrip(n, alphabet);
    DigitsRoundTrip(m, alphabet);
  }

  /** A number below `b^w` needs at most `w` digits. */
  lemma {:induction false} DigitsLength(n: nat, w: nat, alphabet: string)
    requires |alphabet| >= 2 && w >= 1 && n < Pow(|alphabet|, w)
    ensures |Digits(n, alphabet)| <= w
    decreases n
  {
    var b := |alphabet|;
    if n >= b {
      assert Pow(b, 1) == b;
      var p := Pow(b, w - 1);
      assert Pow(b, w) == b * p;
      QuotientBound(n, b, p);
      DigitsLength(n / b, w - 1, alphabet);
    }
  }

  /** Leading zero digits do not change the value. */
  lemma {:induction false} ValueIgnoresLeadingZeros(k: nat, s: string, alphabet: string)
    requires IsAlphabet(alphabet)
    requires forall i | 0 <= i < |s| :: s[i] in alphabet
    ensures Value(seq(k, _ => alphabet[0]) + s, alphabet) == Value(s, alphabet)
    decreases k + |s|
  {
    var z := seq(k, _ => alphabet[0]);
    if s == [] {
      assert z + s == z;
      if k > 0 {
        assert z[..k - 1] == seq(k - 1, _ => alphabet[0]) + [];
        ValueIgnoresLeadingZeros(k - 1, [], alphabet);
        DigitValueOf(alphabet, 0);
      }
    } else {
      var init := s[..|s| - 1];
      assert (z + s)[..|z + s| - 1] == z + init;
      ValueIgnoresLeadingZeros(k, init, alphabet);
    }
  }

  /** Padding loses nothing: the padded numeral still reads back as `n`. */
  lemma PaddedRoundTrip(n: nat, width: nat, alphabet: string)
    requires IsAlphabet(alphabet)
    ensures Value(PaddedDigits(n, width, alphabet), alphabet) == n
  {
    var d := Digits(n, alphabet);
    DigitsRoundTrip(n, alphabet);
    if |d| < width {
      ValueIgnoresLeadingZeros(width - |d|, d, alphabet);
    }
  }

  /** Below `b^w` the padded numeral has exactly `w` characters. */
  lemma PaddedLength(n: nat, width: nat, alphabet: string)
    requires |alphabet| >= 2 && width >= 1 && n < Pow(|alphabet|, width)
    ensures |PaddedDigits(n, width, alphabet)| == width
  {
    DigitsLength(n, width, alphabet);
  }

  lemma PaddedInAlphabet(n: nat, width: nat, alphabet: string)
    requires |alphabet| >= 2
    ensures forall i | 0 <= i < |PaddedDigits(n, width, alphabet)| :: PaddedDigits(n, width, alphabet)[i] in alphabet
  {
  }

  lemma PaddedInjective(n: nat, m: nat, width: nat, alphabet: string)
    requires IsAlphabet(alphabet)
    requires PaddedDigits(n, width, alphabet) == PaddedDigits(m, width, alphabet)
    ensures n == m
  {
    PaddedRoundTrip(n, width, alphabet);
    PaddedRoundTrip(m, width, alphabet);
  }

  /** `bytes.hex()` spends exactly two characters per byte. */
  lemma {:induction false} HexBytesLength(bs: seq<byte>, alphabet: string)
    requires |alphabet| == 16
    ensures |HexBytes(bs, alphabet)| == 2 * |bs|
    decreases |bs|
  {
    if bs != [] {
      assert Pow(16, 2) == 256;
      PaddedLength(bs[0] as nat, 2, alphabet);
      HexBytesLength(bs[1..], alphabet);
    }
  }

  /** Distinct byte strings of the same length have distinct `hex()`. */
  lemma {:induction false} HexBytesInjective(bs: seq<byte>, cs: seq<byte>, alphabet: string)
    requires |alphabet| == 16 && IsAlphabet(alphabet) && |bs| == |cs|
    requires HexBytes(bs, alphabet) == HexBytes(cs, alphabet)
    ensures bs == cs
    decreases |bs|
  {
    if bs != [] {
      assert Pow(16, 2) == 256;
      var p, q := PaddedDigits(bs[0] as nat, 2, alphabet), PaddedDigits(cs[0] as nat, 2, alphabet);
      PaddedLength(bs[0] as nat, 2, alphabet);
      PaddedLength(cs[0] as nat, 2, alphabet);
      var h := HexBytes(bs, alphabet);
      assert p == h[..2] == q;
      PaddedInjective(bs[0] as nat, cs[0] as nat, 2, alphabet);
      assert HexBytes(bs[1..], alphabet) == h[2..] == HexBytes(cs[1..], alphabet);
      HexBytesInjective(bs[1..], cs[1..], alphabet);
      assert bs == [bs[0]] + bs[1..];
      assert cs == [cs[0]] + cs[1..];
    }
  }

  /** Upper-casing lower-case hex digits gives the upper-case hex digits (`%x` vs `%X`). */
  lemma {:induction false} UpperOfLowerHex(n: nat)
    ensures PyStr.Upper(Digits(n, HexLower)) == Digits(n, HexUpper)
    decreases n
  {
    var lo, up := Digits(n, HexLower), Digits(n, HexUpper);
    if n < 16 {
      assert PyStr.UpperChar(HexLower[n]) == HexUpper[n];
    } else {
      UpperOfLowerHex(n / 16);
      assert PyStr.UpperChar(HexLower[n % 16]) == HexUpper[n % 16];
      assert PyStr.Upper(lo) == PyStr.Upper(Digits(n / 16, HexLower)) + [PyStr.UpperChar(HexLower[n % 16])];
    }
  }
}
