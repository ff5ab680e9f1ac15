/**
 The 64-bit FNV-1a digest that graph identities are derived from, on natural
 numbers below 2^64 with the wrap-around written out, and its rendering as 16
 hexadecimal digits.
 */
module Digest {
  const WORD: nat := 0x1_0000_0000_0000_0000
  const OFFSET: nat := 0xcbf2_9ce4_8422_2325
  const PRIME: nat := 0x0000_0100_0000_01b3

  newtype Byte = b: int | 0 <= b < 256

  /** Exclusive or of the low `n` bits, dropping the others. */
  function Xor(a: nat, b: nat, n: nat): nat {
    if n == 0 then 0 else 2 * Xor(a / 2, b / 2, n - 1) + if a % 2 == b % 2 then 0 else 1
  }

  function Power2(n: nat): nat {
    if n == 0 then 1 else 2 * Power2(n - 1)
  }

  lemma {:induction false} XorInjective(a: nat, c: nat, b: nat, n: nat)
    requires a < Power2(n) && c < Power2(n) && Xor(a, b, n) == Xor(c, b, n)
    ensures a == c
  {
    if n > 0 {
      XorInjective(a / 2, c / 2, b / 2, n - 1);
    }
  }

  lemma {:induction false} XorCommutes(a: nat, b: nat, n: nat)
    ensures Xor(a, b, n) == Xor(b, a, n)
    ensures Xor(a, b, n) < Power2(n)
  {
    if n > 0 {
      XorCommutes(a / 2, b / 2, n - 1);
    }
  }

  /** A byte reaches only the low eight bits of the hash. */
  function XorByte(hash: nat, b: Byte): nat {
    hash / 256 * 256 + Xor(hash % 256, b as nat, 8)
  }

  function Step(hash: nat, b: Byte): (r: nat)
    ensures r < WORD
  {
    XorByte(hash, b) * PRIME % WORD
  }

  function Fold(hash: nat, bytes: seq<Byte>): nat {
    if bytes == [] then hash else Step(Fold(hash, bytes[..|bytes| - 1]), bytes[|bytes| - 1])
  }

  function Fnv1a(bytes: seq<Byte>): nat {
    Fold(OFFSET, bytes)
  }

  // ------------------------------------------------------------------ Injectivity

  lemma PowerOf8()
    ensures Power2(8) == 256
  {
    assert Power2(2) == 4 && Power2(4) == 16 && Power2(6) == 64;
  }

  lemma XorByteBounds(hash: nat, b: Byte)
    ensures hash < WORD ==> XorByte(hash, b) < WORD
    ensures XorByte(hash, b) / 256 == hash / 256 && XorByte(hash, b) % 256 == Xor(hash % 256, b as nat, 8)
  {
    PowerOf8();
    XorCommutes(hash % 256, b as nat, 8);
    assert WORD % 256 == 0;
  }

  /** The inverse of the multiplier modulo 2^64. */
  const INVERSE: nat := 0xce96_5057_aff6_957b

  lemma MultiplyInjective(x: nat, y: nat)
    requires x < WORD && y < WORD && x * PRIME % WORD == y * PRIME % WORD
    ensures x == y
  {
    var k := x * PRIME / WORD - y * PRIME / WORD;
    assert x * PRIME == y * PRIME + k * WORD;
    var c := PRIME * INVERSE / WORD;
    assert PRIME * INVERSE == c * WORD + 1;
    assert x * PRIME * INVERSE == x * (c * WORD + 1);
    assert y * PRIME * INVERSE == y * (c * WORD + 1);
    assert x - y == WORD * (y * c + k * INVERSE - x * c);
  }

  /** A step forgets nothing: neither the state, given the byte, nor the byte, given the state. */
  lemma StepInjective(h: nat, g: nat, b: Byte, c: Byte)
    requires h < WORD && g < WORD && Step(h, b) == Step(g, c)
    ensures b == c ==> h == g
    ensures h == g ==> b == c
  {
    XorByteBounds(h, b);
    XorByteBounds(g, c);
    MultiplyInjective(XorByte(h, b), XorByte(g, c));
    PowerOf8();
    if b == c {
      XorInjective(h % 256, g % 256, b as nat, 8);
    }
    if h == g {
      XorCommutes(h % 256, b as nat, 8);
      XorCommutes(g % 256, c as nat, 8);
      XorInjective(b as nat, c as nat, h % 256, 8);
    }
  }

  lemma {:induction false} FoldBounds(hash: nat, bytes: seq<Byte>)
    requires hash < WORD
    ensures Fold(hash, bytes) < WORD
  {
  }

  /** The same suffix keeps different states different. */
  lemma {:induction false} FoldInjective(h: nat, g: nat, bytes: seq<Byte>)
    requires h < WORD && g < WORD && Fold(h, bytes) == Fold(g, bytes)
    ensures h == g
  {
    if bytes != [] {
      var init, last := bytes[..|bytes| - 1], bytes[|bytes| - 1];
      FoldBounds(h, init);
      FoldBounds(g, init);
      StepInjective(Fold(h, init), Fold(g, init), last, last);
      FoldInjective(h, g, init);
    }
  }

  lemma {:induction false} FoldAppend(hash: nat, a: seq<Byte>, b: seq<Byte>)
    ensures Fold(hash, a + b) == Fold(Fold(hash, a), b)
  {
    if b == [] {
      assert a + b == a;
    } else {
      assert (a + b)[..|a + b| - 1] == a + b[..|b| - 1];
      FoldAppend(hash, a, b[..|b| - 1]);
    }
  }

  // --------------------------------------------------------------------- Rendering

  const DIGITS := "0123456789abcdef"

  /** The low `n` hexadecimal digits, most significant first. */
  function Hex(value: nat, n: nat): (s: string)
    ensures |s| == n
  {
    if n == 0 then "" else Hex(value / 16, n - 1) + [DIGITS[value % 16]]
  }

  function Power16(n: nat): nat {
    if n == 0 then 1 else 16 * Power16(n - 1)
  }

  function DigitValue(c: char): nat {
    if '0' <= c <= '9' then c as nat - '0' as nat else if 'a' <= c <= 'f' then 10 + (c as nat - 'a' as nat) else 0
  }

  /** The number a hexadecimal text stands for. */
  function Parse(s: string): nat {
    if s == "" then 0 else 16 * Parse(s[..|s| - 1]) + DigitValue(s[|s| - 1])
  }

  lemma DigitRoundTrip(i: nat)
    requires i < 16
    ensures DigitValue(DIGITS[i]) == i
  {
  }

  /** Rendering loses nothing: the text read back is the number. */
  lemma {:induction false} HexRoundTrip(value: nat, n: nat)
    requires value < Power16(n)
    ensures Parse(Hex(value, n)) == value
  {
    if n > 0 {
      HexRoundTrip(value / 16, n - 1);
      assert Hex(value, n)[..n - 1] == Hex(value / 16, n - 1);
      DigitRoundTrip(value % 16);
    }
  }

  lemma SixteenDigits()
    ensures Power16(16) == WORD
  {
    assert Power16(2) == 256 && Power16(4) == 0x1_0000 && Power16(6) == 0x100_0000 && Power16(8) == 0x1_0000_0000;
    assert Power16(10) == 0x100_0000_0000 && Power16(12) == 0x1_0000_0000_0000 && Power16(14) == 0x100_0000_0000_0000;
  }

  function DigestText(bytes: seq<Byte>): string {
    Hex(Fnv1a(bytes), 16)
  }

  method DigestHex(bytes: seq<Byte>) returns (text: string)
    ensures text == DigestText(bytes)
  {
    var hash := OFFSET;
    for i := 0 to |bytes|
      invariant hash == Fold(OFFSET, bytes[..i])
    {
      assert bytes[..i + 1][..i] == bytes[..i];
      hash := XorByte(hash, bytes[i]);
      hash := hash * PRIME % WORD;
    }
    assert bytes[..|bytes|] == bytes;
    text := Hex(hash, 16);
  }

  /** Digests are equal as texts exactly when they are equal as numbers. */
  lemma TextsAgree(a: seq<Byte>, b: seq<Byte>)
    ensures DigestText(a) == DigestText(b) <==> Fnv1a(a) == Fnv1a(b)
  {
    FoldBounds(OFFSET, a);
    FoldBounds(OFFSET, b);
    SixteenDigits();
    HexRoundTrip(Fnv1a(a), 16);
    HexRoundTrip(Fnv1a(b), 16);
  }

  /** Two byte strings that differ in exactly one byte have different digests. */
  lemma OneByteApart(before: seq<Byte>, b: Byte, c: Byte, after: seq<Byte>)
    requires b != c
    ensures DigestText(before + [b] + after) != DigestText(before + [c] + after)
  {
    TextsAgree(before + [b] + after, before + [c] + after);
    FoldAppend(OFFSET, before + [b], after);
    FoldAppend(OFFSET, before + [c], after);
    FoldBounds(OFFSET, before);
    assert (before + [b])[..|before|] == before && (before + [c])[..|before|] == before;
    var h := Fold(OFFSET, before);
    if Fnv1a(before + [b] + after) == Fnv1a(before + [c] + after) {
      FoldInjective(Step(h, b), Step(h, c), after);
      StepInjective(h, h, b, c);
    }
  }

  lemma XorOfA()
    ensures Xor(0x25, 0x61, 8) == 0x44
  {
    assert Xor(0x00, 0x01, 2) == 1;
    assert Xor(0x02, 0x06, 4) == 4;
    assert Xor(0x09, 0x18, 6) == 0x11;
  }

  lemma StepOfA(hash: nat)
    requires hash == 0xcbf2_9ce4_8422_2325
    ensures Step(hash, 97) == 0xaf63_dc4c_8601_ec8c
  {
    XorOfA();
    assert hash % 256 == 0x25 && hash / 256 * 256 == 0xcbf2_9ce4_8422_2300;
    assert XorByte(hash, 97) == 0xcbf2_9ce4_8422_2344;
  }

  /** The published 64-bit FNV-1a hashes of the empty string and of the letter a. */
  lemma PublishedVectors()
    ensures Fnv1a([]) == 0xcbf2_9ce4_8422_2325
    ensures Fnv1a([97]) == 0xaf63_dc4c_8601_ec8c
  {
    OneByte(OFFSET, 97);
    StepOfA(OFFSET);
  }

  lemma OneByte(hash: nat, b: Byte)
    ensures Fold(hash, [b]) == Step(hash, b)
  {
    assert [b][..0] == [];
  }
}
