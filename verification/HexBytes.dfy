/**
  Fixed-width hexadecimal ids and their bytes: `hex_to_bytes` of
  crates/cairn-app/src/metrics_otel.rs, over the hex alphabet of section 8 of
  RFC 4648, against the zero-padded printing that produces the ids.
 */
module HexBytes {

  newtype Byte = x: int | 0 <= x < 256

  function Nibble(c: Byte): Byte {
    if 0x30 <= c <= 0x39 then c - 0x30
    else if 0x61 <= c <= 0x66 then c - 0x61 + 10
    else if 0x41 <= c <= 0x46 then c - 0x41 + 10
    else 0
  }

  /** Byte `i` comes from digits 2i and 2i+1; bytes whose digit pair is not
      complete are 0, and digits past the target are ignored. */
  function Decoded(hex: seq<Byte>, target: nat): seq<Byte> {
    seq(target, i requires 0 <= i < target =>
      if 2 * i + 1 < |hex| then 16 * Nibble(hex[2 * i]) + Nibble(hex[2 * i + 1]) else 0)
  }

  method HexToBytes(hex: seq<Byte>, target: nat) returns (bytes: seq<Byte>)
    ensures bytes == Decoded(hex, target)
    ensures |bytes| == target
  {
    var out := new Byte[target](i => 0);
    var i := 0;
    while i < target
      invariant 0 <= i <= target
      invariant out[..] == Decoded(hex, target)[..i] + seq(target - i, k => 0)
    {
      var hi := 2 * i;
      var lo := hi + 1;
      if lo >= |hex| {
        break;
      }
      out[i] := 16 * Nibble(hex[hi]) + Nibble(hex[lo]);
      i := i + 1;
    }
    return out[..];
  }

  // ----- printing

  function HexDigit(d: nat): Byte
    requires d < 16
  {
    if d < 10 then 0x30 + d as Byte else 0x61 + (d - 10) as Byte
  }

  /** The last `width` lower-case hex digits of n: zero-padded printing, for an
      n that fits. */
  function PrintHex(n: nat, width: nat): (s: seq<Byte>)
    ensures |s| == width
  {
    if width == 0 then [] else PrintHex(n / 16, width - 1) + [HexDigit(n % 16)]
  }

  function BigEndian(n: nat, len: nat): (bs: seq<Byte>)
    ensures |bs| == len
  {
    if len == 0 then [] else BigEndian(n / 256, len - 1) + [(n % 256) as Byte]
  }

  function Value(bs: seq<Byte>): nat {
    if bs == [] then 0 else 256 * Value(bs[..|bs| - 1]) + bs[|bs| - 1] as nat
  }

  function Power256(len: nat): nat {
    if len == 0 then 1 else 256 * Power256(len - 1)
  }

  lemma {:induction false} ValueOfBigEndian(n: nat, len: nat)
    requires n < Power256(len)
    ensures Value(BigEndian(n, len)) == n
  {
    if len > 0 {
      ValueOfBigEndian(n / 256, len - 1);
    }
  }

  lemma DecodedSnoc(hex: seq<Byte>, hi: Byte, lo: Byte, len: nat)
    requires |hex| == 2 * len
    ensures Decoded(hex + [hi, lo], len + 1) == Decoded(hex, len) + [16 * Nibble(hi) + Nibble(lo)]
  {
    var all := hex + [hi, lo];
    forall i | 0 <= i < len ensures Decoded(all, len + 1)[i] == Decoded(hex, len)[i] {
      assert all[2 * i] == hex[2 * i] && all[2 * i + 1] == hex[2 * i + 1];
    }
  }

  lemma DigitPair(n: nat)
    ensures 16 * Nibble(HexDigit(n / 16 % 16)) + Nibble(HexDigit(n % 16)) == (n % 256) as Byte
  {
    assert n == 256 * (n / 256) + 16 * (n / 16 % 16) + n % 16;
  }

  lemma PrintHexPair(n: nat, width: nat)
    ensures PrintHex(n, width + 2) == PrintHex(n / 256, width) + [HexDigit(n / 16 % 16), HexDigit(n % 16)]
  {
    assert n / 16 / 16 == n / 256;
    assert PrintHex(n / 16, width + 1) == PrintHex(n / 16 / 16, width) + [HexDigit(n / 16 % 16)];
  }

  /**
    Decoding undoes printing: the 2·len hex digits of an n of at most len
    bytes decode to the big-endian bytes of n, whose value is n.
   */
  lemma {:induction false} DecodeUndoesPrint(n: nat, len: nat)
    requires n < Power256(len)
    ensures Decoded(PrintHex(n, 2 * len), len) == BigEndian(n, len)
    ensures Value(Decoded(PrintHex(n, 2 * len), len)) == n
  {
    ValueOfBigEndian(n, len);
    DecodesToBigEndian(n, len);
  }

  lemma {:induction false} DecodesToBigEndian(n: nat, len: nat)
    ensures Decoded(PrintHex(n, 2 * len), len) == BigEndian(n, len)
  {
    if len > 0 {
      DecodesToBigEndian(n / 256, len - 1);
      PrintHexPair(n, 2 * len - 2);
      DecodedSnoc(PrintHex(n / 256, 2 * len - 2), HexDigit(n / 16 % 16), HexDigit(n % 16), len - 1);
      DigitPair(n);
    }
  }

  /** Distinct ids stay distinct: 64-bit span ids in 16 digits, and 128-bit
      trace ids in 32. */
  lemma IdsStayDistinct(m: nat, n: nat)
    requires m != n
    ensures m < 0x1_0000_0000_0000_0000 && n < 0x1_0000_0000_0000_0000 ==>
      Decoded(PrintHex(m, 16), 8) != Decoded(PrintHex(n, 16), 8)
    ensures m < 0x1_0000_0000_0000_0000_0000_0000_0000_0000 && n < 0x1_0000_0000_0000_0000_0000_0000_0000_0000 ==>
      Decoded(PrintHex(m, 32), 16) != Decoded(PrintHex(n, 32), 16)
  {
    PowersOf256();
    if m < Power256(8) && n < Power256(8) {
      DecodeUndoesPrint(m, 8);
      DecodeUndoesPrint(n, 8);
    }
    if m < Power256(16) && n < Power256(16) {
      DecodeUndoesPrint(m, 16);
      DecodeUndoesPrint(n, 16);
    }
  }

  lemma PowersOf256()
    ensures Power256(8) == 0x1_0000_0000_0000_0000
    ensures Power256(16) == 0x1_0000_0000_0000_0000_0000_0000_0000_0000
  {
    assert Power256(4) == 0x1_0000_0000;
    assert Power256(8) == 0x1_0000_0000_0000_0000;
    assert Power256(12) == 0x1_0000_0000_0000_0000_0000_0000;
  }

  // ----- other inputs

  function Upper(c: Byte): Byte {
    if 0x61 <= c <= 0x66 then c - 0x20 else c
  }

  predicate IsHexDigit(c: Byte) {
    0x30 <= c <= 0x39 || 0x41 <= c <= 0x46 || 0x61 <= c <= 0x66
  }

  function Mapped(f: Byte -> Byte, s: seq<Byte>): seq<Byte> {
    seq(|s|, i requires 0 <= i < |s| => f(s[i]))
  }

  /** Upper case letters mean the same, and whatever is no hex digit counts
      as the digit 0. */
  lemma CaseAndJunk(hex: seq<Byte>, target: nat)
    ensures Decoded(Mapped(Upper, hex), target) == Decoded(hex, target)
    ensures Decoded(Mapped(c => if IsHexDigit(c) then c else 0x30, hex), target) == Decoded(hex, target)
  {
    forall i: nat | i < target && 2 * i + 1 < |hex|
      ensures Decoded(Mapped(Upper, hex), target)[i] == Decoded(hex, target)[i]
    {
      assert Mapped(Upper, hex)[2 * i] == Upper(hex[2 * i]) && Mapped(Upper, hex)[2 * i + 1] == Upper(hex[2 * i + 1]);
    }
  }

  /** Digits past the target are ignored; where pairs of digits are wanting,
      zero bytes follow. */
  lemma LongAndShort(hex: seq<Byte>, target: nat)
    ensures 2 * target <= |hex| ==> Decoded(hex, target) == Decoded(hex[..2 * target], target)
    ensures 2 * target > |hex| ==>
      Decoded(hex, target) == Decoded(hex[..|hex| / 2 * 2], |hex| / 2) + seq(target - |hex| / 2, i => 0)
  {
  }
}
