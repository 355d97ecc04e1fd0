/**
 * Digest formatting: the source turns a SHA-256 digest into text with
 * BitConverter.ToString(...).Replace("-", "").ToLowerInvariant(). That is the
 * lower-case base 16 encoding of section 8 of RFC 4648.
 */
module Hex {
  import opened Wrappers
  import Text

  type Bytes = seq<bv8>

  const LowerDigits: string := "0123456789abcdef"
  const UpperDigits: string := "0123456789ABCDEF"

  predicate IsLowerHexDigit(c: char) { '0' <= c <= '9' || 'a' <= c <= 'f' }

  /** The two digits of one byte, most significant first. */
  function Pair(digits: string, x: bv8): string
    requires |digits| == 16
  {
    [digits[x as int / 16], digits[x as int % 16]]
  }

  /** Base 16 encoding with the lower-case alphabet, two digits per byte, most significant first, no separators. */
  function Base16(b: Bytes): string {
    if b == [] then "" else Pair(LowerDigits, b[0]) + Base16(b[1..])
  }

  /** BitConverter.ToString: upper-case digit pairs joined by '-'. */
  function BitConverterString(b: Bytes): string {
    if b == [] then ""
    else if |b| == 1 then Pair(UpperDigits, b[0])
    else Pair(UpperDigits, b[0]) + "-" + BitConverterString(b[1..])
  }

  /** string.Replace("-", ""). */
  function RemoveDashes(s: string): string {
    if s == "" then "" else (if s[0] == '-' then "" else [s[0]]) + RemoveDashes(s[1..])
  }

  /** The digest text exactly as the source builds it. */
  function DigestString(b: Bytes): string {
    Text.AsciiLower(RemoveDashes(BitConverterString(b)))
  }

  function DigitValue(c: char): Option<nat> {
    if '0' <= c <= '9' then Some(c as int - '0' as int)
    else if 'a' <= c <= 'f' then Some(c as int - 'a' as int + 10)
    else if 'A' <= c <= 'F' then Some(c as int - 'A' as int + 10)
    else None
  }

  /** Base 16 decoding; None for odd length or a character outside the alphabet. */
  function DecodeBase16(s: string): Option<Bytes>
    decreases |s|
  {
    if s == "" then Some([])
    else if |s| == 1 then None
    else match (DigitValue(s[0]), DigitValue(s[1]), DecodeBase16(s[2..]))
      case (Some(h), Some(l), Some(rest)) => Some([(h * 16 + l) as bv8] + rest)
      case _ => None
  }

  lemma DigitFacts(d: nat)
    requires d < 16
    ensures Text.AsciiLowerChar(UpperDigits[d]) == LowerDigits[d]
    ensures IsLowerHexDigit(LowerDigits[d]) && DigitValue(LowerDigits[d]) == Some(d)
    ensures UpperDigits[d] != '-'
  {
    if d < 10 {
      assert LowerDigits[d] as int == '0' as int + d;
      assert UpperDigits[d] as int == '0' as int + d;
    } else {
      assert LowerDigits[d] as int == 'a' as int + d - 10;
      assert UpperDigits[d] as int == 'A' as int + d - 10;
    }
  }

  /** An upper-case pair has no dash. */
  lemma PairUndashed(x: bv8)
    ensures RemoveDashes(Pair(UpperDigits, x)) == Pair(UpperDigits, x)
  {
    DigitFacts(x as int / 16);
    DigitFacts(x as int % 16);
    var pair := Pair(UpperDigits, x);
    assert RemoveDashes(pair) == [pair[0]] + RemoveDashes(pair[1..]);
    assert RemoveDashes(pair[1..]) == [pair[1]] + RemoveDashes([]);
  }

  /** An upper-case pair lower-cases to the lower-case pair. */
  lemma PairLowered(x: bv8)
    ensures Text.AsciiLower(Pair(UpperDigits, x)) == Pair(LowerDigits, x)
  {
    DigitFacts(x as int / 16);
    DigitFacts(x as int % 16);
    var pair := Pair(UpperDigits, x);
    Text.AsciiLowerAt(pair, 0);
    Text.AsciiLowerAt(pair, 1);
  }

  /** A dash between a dash-free pair and the rest disappears. */
  lemma UndashJoin(pair: string, rest: string)
    requires RemoveDashes(pair) == pair
    ensures RemoveDashes(pair + ("-" + rest)) == pair + RemoveDashes(rest)
  {
    RemoveDashesConcat(pair, "-" + rest);
    RemoveDashesConcat("-", rest);
    assert RemoveDashes("-") == "";
  }

  /** Removing the dashes from BitConverter.ToString leaves the upper-case digit pairs back to back. */
  lemma {:induction false} UndashedIsUpperBase16(b: Bytes)
    ensures RemoveDashes(BitConverterString(b)) == UpperBase16(b)
  {
    if b != [] {
      var pair := Pair(UpperDigits, b[0]);
      PairUndashed(b[0]);
      if |b| == 1 {
        assert b[1..] == [];
        assert UpperBase16(b) == pair + "";
      } else {
        var rest := BitConverterString(b[1..]);
        assert BitConverterString(b) == pair + ("-" + rest);
        UndashJoin(pair, rest);
        UndashedIsUpperBase16(b[1..]);
      }
    }
  }

  /** Upper-case base 16, the dash-free form of BitConverter.ToString. */
  function UpperBase16(b: Bytes): string {
    if b == [] then "" else Pair(UpperDigits, b[0]) + UpperBase16(b[1..])
  }

  lemma {:induction false} LoweredUpperBase16(b: Bytes)
    ensures Text.AsciiLower(UpperBase16(b)) == Base16(b)
  {
    if b != [] {
      PairLowered(b[0]);
      Text.AsciiLowerConcat(Pair(UpperDigits, b[0]), UpperBase16(b[1..]));
      LoweredUpperBase16(b[1..]);
    }
  }

  /** The source's BitConverter/Replace/ToLowerInvariant chain is exactly lower-case base 16. */
  lemma DigestStringIsBase16(b: Bytes)
    ensures DigestString(b) == Base16(b)
  {
    UndashedIsUpperBase16(b);
    LoweredUpperBase16(b);
  }

  lemma {:induction false} RemoveDashesConcat(a: string, b: string)
    ensures RemoveDashes(a + b) == RemoveDashes(a) + RemoveDashes(b)
  {
    if a != "" {
      assert (a + b)[1..] == a[1..] + b;
      RemoveDashesConcat(a[1..], b);
    } else {
      assert a + b == b;
    }
  }

  /** Two lower-case hex digits per byte. */
  lemma {:induction false} Base16Shape(b: Bytes)
    ensures |Base16(b)| == 2 * |b|
    ensures forall i | 0 <= i < |Base16(b)| :: IsLowerHexDigit(Base16(b)[i])
  {
    if b != [] {
      DigitFacts(b[0] as int / 16);
      DigitFacts(b[0] as int % 16);
      Base16Shape(b[1..]);
    }
  }

  /** The digits of a lower-case pair read back as the byte. */
  lemma PairDecodes(x: bv8)
    ensures var p := Pair(LowerDigits, x);
      && DigitValue(p[0]).Some? && DigitValue(p[1]).Some?
      && (DigitValue(p[0]).value * 16 + DigitValue(p[1]).value) as bv8 == x
  {
    var hi, lo := x as int / 16, x as int % 16;
    DigitFacts(hi);
    DigitFacts(lo);
    assert hi * 16 + lo == x as int;
  }

  /** Decoding the encoding gives the bytes back (RFC 4648 round trip). */
  lemma {:induction false} Base16RoundTrip(b: Bytes)
    ensures DecodeBase16(Base16(b)) == Some(b)
  {
    if b != [] {
      var s := Base16(b);
      PairDecodes(b[0]);
      assert s[..2] == Pair(LowerDigits, b[0]) && s[2..] == Base16(b[1..]);
      Base16RoundTrip(b[1..]);
      assert DecodeBase16(s) == Some([b[0]] + b[1..]);
      assert [b[0]] + b[1..] == b;
    }
  }

  /** Distinct digests never format to the same text. */
  lemma Base16Injective(a: Bytes, b: Bytes)
    ensures Base16(a) == Base16(b) <==> a == b
  {
    if Base16(a) == Base16(b) {
      Base16RoundTrip(a);
      Base16RoundTrip(b);
    }
  }

  /** The formatted digest has no upper-case letter, so a case-insensitive comparison with another formatted digest is plain equality. */
  lemma DigestsIgnoreCase(a: Bytes, b: Bytes)
    ensures Text.EqualsIgnoreCase(Base16(a), Base16(b)) <==> a == b
  {
    Base16Shape(a);
    Base16Shape(b);
    Text.EqualsIgnoreCaseLower(Base16(a), Base16(b));
    Base16Injective(a, b);
  }
}
