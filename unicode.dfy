/**
 * UTF-16 as .NET strings hold it: code units, surrogate pairs (section 3.9 of
 * the Unicode Standard, section 2.1 of RFC 2781) and the rune enumeration of
 * String.EnumerateRunes, which reads an unpaired surrogate as U+FFFD.
 */
module Unicode {

  /** A UTF-16 code unit (C# char, Windows wchar_t). */
  newtype u16 = x: int | 0 <= x < 0x1_0000

  /** A C# string: a sequence of UTF-16 code units, not necessarily well formed. */
  type Utf16 = seq<u16>

  const ReplacementCharacter: int := 0xFFFD

  predicate IsHighSurrogate(u: u16) { 0xD800 <= u <= 0xDBFF }

  predicate IsLowSurrogate(u: u16) { 0xDC00 <= u <= 0xDFFF }

  predicate IsSurrogate(u: u16) { 0xD800 <= u <= 0xDFFF }

  /** A Unicode scalar value: a code point that is not a surrogate. */
  predicate IsScalar(v: int) { 0 <= v <= 0x10_FFFF && !(0xD800 <= v <= 0xDFFF) }

  /** The unit at k is one half of a high-then-low surrogate pair. */
  predicate Paired(s: Utf16, k: nat)
    requires k < |s|
  {
    || (IsHighSurrogate(s[k]) && k + 1 < |s| && IsLowSurrogate(s[k + 1]))
    || (IsLowSurrogate(s[k]) && 0 < k && IsHighSurrogate(s[k - 1]))
  }

  /** Every surrogate in s belongs to a pair. */
  predicate WellFormed(s: Utf16) {
    forall k | 0 <= k < |s| :: IsSurrogate(s[k]) ==> Paired(s, k)
  }

  /** s with every unpaired surrogate replaced by U+FFFD, unit for unit. */
  function Scrubbed(s: Utf16): Utf16 {
    seq(|s|, k requires 0 <= k < |s| =>
      if IsSurrogate(s[k]) && !Paired(s, k) then ReplacementCharacter as u16 else s[k])
  }

  /** The scalar value a surrogate pair stands for. */
  function PairValue(hi: u16, lo: u16): int
    requires IsHighSurrogate(hi) && IsLowSurrogate(lo)
  {
    0x1_0000 + (hi as int - 0xD800) * 0x400 + (lo as int - 0xDC00)
  }

  function HighSurrogateOf(v: int): u16
    requires 0x1_0000 <= v <= 0x10_FFFF
  {
    (0xD800 + (v - 0x1_0000) / 0x400) as u16
  }

  function LowSurrogateOf(v: int): u16
    requires 0x1_0000 <= v <= 0x10_FFFF
  {
    (0xDC00 + (v - 0x1_0000) % 0x400) as u16
  }

  /** Rune.ToString(): the code units of one scalar value. */
  function RuneUnits(v: int): Utf16
    requires IsScalar(v)
  {
    if v <= 0xFFFF then [v as u16] else [HighSurrogateOf(v), LowSurrogateOf(v)]
  }

  /**
   * One step of String.EnumerateRunes: the first rune of s and the number of
   * code units it spans. An unpaired surrogate is read as U+FFFD.
   */
  function FirstRune(s: Utf16): (r: (int, nat))
    requires |s| > 0
    ensures IsScalar(r.0) && 1 <= r.1 <= |s|
    ensures r.1 == 2 <==> IsHighSurrogate(s[0]) && Paired(s, 0)
  {
    if IsHighSurrogate(s[0]) && 1 < |s| && IsLowSurrogate(s[1]) then
      SurrogatePairRoundTrip(s[0], s[1]);
      (PairValue(s[0], s[1]), 2)
    else if IsSurrogate(s[0]) then (ReplacementCharacter, 1)
    else (s[0] as int, 1)
  }

  /** The scalar values String.EnumerateRunes yields, in order. */
  function Runes(s: Utf16): seq<int>
    decreases |s|
  {
    if s == [] then [] else [FirstRune(s).0] + Runes(s[FirstRune(s).1..])
  }

  /** The UTF-16 encoding of a string of scalar values. */
  function Utf16Of(str: string): Utf16 {
    if str == [] then [] else RuneUnits(str[0] as int) + Utf16Of(str[1..])
  }

  /** Decoding a surrogate pair and re-encoding the value gives the same pair back. */
  lemma SurrogatePairRoundTrip(hi: u16, lo: u16)
    requires IsHighSurrogate(hi) && IsLowSurrogate(lo)
    ensures 0x1_0000 <= PairValue(hi, lo) <= 0x10_FFFF
    ensures HighSurrogateOf(PairValue(hi, lo)) == hi && LowSurrogateOf(PairValue(hi, lo)) == lo
  {
    var d := PairValue(hi, lo) - 0x1_0000;
    assert d == (hi as int - 0xD800) * 0x400 + (lo as int - 0xDC00);
    assert d / 0x400 == hi as int - 0xD800 && d % 0x400 == lo as int - 0xDC00;
  }

  /** Encoding a supplementary scalar value and decoding the pair gives the value back. */
  lemma ScalarRoundTrip(v: int)
    requires 0x1_0000 <= v <= 0x10_FFFF
    ensures IsHighSurrogate(HighSurrogateOf(v)) && IsLowSurrogate(LowSurrogateOf(v))
    ensures PairValue(HighSurrogateOf(v), LowSurrogateOf(v)) == v
  {
    var d := v - 0x1_0000;
    assert d == (d / 0x400) * 0x400 + d % 0x400;
  }

  /** Splitting s after its first rune: the scrubbed units of that rune come first. */
  lemma ScrubbedByRunes(s: Utf16)
    requires |s| > 0
    ensures RuneUnits(FirstRune(s).0) + Scrubbed(s[FirstRune(s).1..]) == Scrubbed(s)
  {
    var (v, n) := FirstRune(s);
    var rest := s[n..];
    if n == 2 {
      SurrogatePairRoundTrip(s[0], s[1]);
    }
    assert |RuneUnits(v)| == n;
    forall k | 0 <= k < |rest|
      ensures Scrubbed(rest)[k] == Scrubbed(s)[n + k]
    {
      if k == 0 && IsLowSurrogate(rest[0]) {
        assert !IsHighSurrogate(s[n - 1]);
      }
    }
  }

  /** A well-formed string is left unchanged by scrubbing. */
  lemma ScrubbedWellFormed(s: Utf16)
    requires WellFormed(s)
    ensures Scrubbed(s) == s
  {
  }

  /** Prepending the units of a scalar value keeps a string well formed, provided it does not start with a low surrogate. */
  lemma WellFormedPrepend(v: int, rest: Utf16)
    requires IsScalar(v) && WellFormed(rest)
    requires rest == [] || !IsLowSurrogate(rest[0])
    ensures WellFormed(RuneUnits(v) + rest)
  {
    var u := RuneUnits(v);
    var s := u + rest;
    if v > 0xFFFF {
      ScalarRoundTrip(v);
    }
    forall k | 0 <= k < |s| && IsSurrogate(s[k])
      ensures Paired(s, k)
    {
      if k >= |u| {
        assert s[k] == rest[k - |u|];
        assert Paired(rest, k - |u|);
      }
    }
  }

  /** The UTF-16 encoding of any string is well formed and never starts with a low surrogate. */
  lemma {:induction false} Utf16OfWellFormed(str: string)
    ensures WellFormed(Utf16Of(str))
    ensures Utf16Of(str) == [] || !IsLowSurrogate(Utf16Of(str)[0])
  {
    if str != [] {
      var v := str[0] as int;
      if v > 0xFFFF {
        ScalarRoundTrip(v);
      }
      Utf16OfWellFormed(str[1..]);
      WellFormedPrepend(v, Utf16Of(str[1..]));
    }
  }

  /** Enumerating the runes of the UTF-16 encoding of a string gives back its scalar values. */
  lemma {:induction false} RunesOfUtf16(str: string)
    ensures Runes(Utf16Of(str)) == seq(|str|, i requires 0 <= i < |str| => str[i] as int)
  {
    if str != [] {
      var v := str[0] as int;
      var u := RuneUnits(v);
      var s := Utf16Of(str);
      assert s == u + Utf16Of(str[1..]);
      if v > 0xFFFF {
        ScalarRoundTrip(v);
        assert FirstRune(s) == (v, 2);
      } else {
        assert FirstRune(s) == (v, 1);
      }
      assert s[|u|..] == Utf16Of(str[1..]);
      RunesOfUtf16(str[1..]);
    }
  }

  /** Only U+0000 encodes to the code unit 0, so a string without it has no 0 unit. */
  lemma {:induction false} Utf16OfNoNul(str: string)
    requires forall i | 0 <= i < |str| :: str[i] != '\0'
    ensures forall k | 0 <= k < |Utf16Of(str)| :: Utf16Of(str)[k] != 0
  {
    if str != [] {
      var v := str[0] as int;
      if v > 0xFFFF {
        ScalarRoundTrip(v);
      }
      Utf16OfNoNul(str[1..]);
      assert Utf16Of(str) == RuneUnits(v) + Utf16Of(str[1..]);
    }
  }

  lemma {:induction false} Utf16OfConcat(a: string, b: string)
    ensures Utf16Of(a + b) == Utf16Of(a) + Utf16Of(b)
  {
    if a == [] {
      assert a + b == b;
    } else {
      assert (a + b)[0] == a[0] && (a + b)[1..] == a[1..] + b;
      Utf16OfConcat(a[1..], b);
    }
  }
}
