/** Register bytes and the integers the driver packs into them: the
    conversions `(uint8_t)x`, the masks the getters apply, and the digit
    arithmetic that shows a value split over several bytes joins back up. */
module Bytes {

  /** An integer 0 .. 255 as a register byte. */
  function ToByte(y: int): (b: bv8)
    requires 0 <= y < 256
    ensures b as int == y
  {
    y as bv8
  }

  /** `(uint8_t)x` of a non-negative value: its low eight bits. */
  function ByteOf(x: int): (b: bv8)
    requires x >= 0
    ensures b as int == x % 256
  {
    ToByte(x % 256)
  }

  /** The masks of the getters as arithmetic on the byte's value. */
  lemma MaskLow2(b: bv8)
    ensures (b & 0x03) as int == b as int % 4
  {}

  lemma MaskLow4(b: bv8)
    ensures (b & 0x0F) as int == b as int % 16
  {}

  lemma MaskLow6(b: bv8)
    ensures (b & 0x3F) as int == b as int % 64
  {}

  lemma MaskLow7(b: bv8)
    ensures (b & 0x7F) as int == b as int % 128
  {}

  lemma MaskHigh4(b: bv8)
    ensures (b & 0xF0) as int == b as int / 16 * 16
  {}

  /* ---------------- digit arithmetic ---------------- */

  /** Euclidean division is unique. */
  lemma ModUnique(x: int, d: int, h: int, s: int)
    requires d > 0 && 0 <= s < d && x == d * h + s
    ensures x % d == s && x / d == h
  {
    var h' := x / d;
    var s' := x % d;
    assert x == d * h' + s';
    if h' > h {
      assert d * h' >= d * h + d by { MulAtLeast(d, h' - h); }
    }
    if h' < h {
      assert d * h >= d * h' + d by { MulAtLeast(d, h - h'); }
    }
  }

  lemma MulAtLeast(d: int, k: int)
    requires d > 0 && k >= 1
    ensures d * k >= d
  {}

  /** The moduli below 256 that divide it, one per field width the chip uses. */
  predicate DividesByte(k: int) {
    k == 4 || k == 16 || k == 64 || k == 128
  }

  /** A field of the low bits of `(uint8_t)q` is the same field of q. */
  lemma ModOfByte(q: int, k: int)
    requires q >= 0 && DividesByte(k)
    ensures q % 256 % k == q % k
  {
    var g := q / 256;
    var h := q / k;
    var l := q % k;
    assert q == 256 * g + q % 256;
    assert q == k * h + l;
    var c := if k == 4 then 64 else if k == 16 then 16 else if k == 64 then 4 else 2;
    assert 256 * g == k * (c * g);
    ModUnique(q % 256, k, h - c * g, l);
  }

  /** Two bytes hold the low sixteen bits. */
  lemma Low16(p: int)
    requires p >= 0
    ensures (p / 256) % 256 * 256 + p % 256 == p % 0x10000
  {
    var q := p / 256;
    assert p == 0x10000 * (q / 256) + (256 * (q % 256) + p % 256);
    ModUnique(p, 0x10000, q / 256, 256 * (q % 256) + p % 256);
  }

  /** A byte and the low nibble of the next hold the low twelve bits. */
  lemma Low12(p: int)
    requires p >= 0
    ensures (p / 256) % 256 % 16 * 256 + p % 256 == p % 0x1000
  {
    var q := p / 256;
    assert p == 0x1000 * (q / 16) + (256 * (q % 16) + p % 256);
    ModUnique(p, 0x1000, q / 16, 256 * (q % 16) + p % 256);
    ModOfByte(q, 16);
  }

  /** A byte and seven bits of the next hold the low fifteen bits. */
  lemma Low15(p: int)
    requires p >= 0
    ensures (p / 256) % 256 % 128 * 256 + p % 256 == p % 0x8000
  {
    var q := p / 256;
    assert p == 0x8000 * (q / 128) + (256 * (q % 128) + p % 256);
    ModUnique(p, 0x8000, q / 128, 256 * (q % 128) + p % 256);
    ModOfByte(q, 128);
  }

  /** Two bytes and the low two bits of a third hold the low eighteen bits. */
  lemma High18(p: int)
    requires p >= 0
    ensures (p / 0x10000) % 256 % 4 * 0x10000 + (p / 256) % 256 * 256 + p % 256 == p % 0x40000
  {
    Low16(p);
    var q := p / 0x10000;
    assert p == 0x40000 * (q / 4) + (0x10000 * (q % 4) + p % 0x10000);
    ModUnique(p, 0x40000, q / 4, 0x10000 * (q % 4) + p % 0x10000);
    ModOfByte(q, 4);
  }

  /** Two bytes and the low nibble of a third hold the low twenty bits. */
  lemma High20(p: int)
    requires p >= 0
    ensures (p / 0x10000) % 256 % 16 * 0x10000 + (p / 256) % 256 * 256 + p % 256 == p % 0x10_0000
  {
    Low16(p);
    var q := p / 0x10000;
    assert p == 0x10_0000 * (q / 16) + (0x10000 * (q % 16) + p % 0x10000);
    ModUnique(p, 0x10_0000, q / 16, 0x10000 * (q % 16) + p % 0x10000);
    ModOfByte(q, 16);
  }

  /** Two bytes and six bits of a third hold the low twenty-two bits. */
  lemma High22(p: int)
    requires p >= 0
    ensures (p / 0x10000) % 256 % 64 * 0x10000 + (p / 256) % 256 * 256 + p % 256 == p % 0x40_0000
  {
    Low16(p);
    var q := p / 0x10000;
    assert p == 0x40_0000 * (q / 64) + (0x10000 * (q % 64) + p % 0x10000);
    ModUnique(p, 0x40_0000, q / 64, 0x10000 * (q % 64) + p % 0x10000);
    ModOfByte(q, 64);
  }

  /** Bits 7:4 of `(uint8_t)(p >> 12)` are bits 19:16 of p. */
  lemma NibbleAt16(p: int)
    requires p >= 0
    ensures (p / 0x1000) % 256 / 16 == (p / 0x10000) % 16
  {
    var a := p / 0x1000;
    assert p == 0x10000 * (a / 16) + (0x1000 * (a % 16) + p % 0x1000);
    ModUnique(p, 0x10000, a / 16, 0x1000 * (a % 16) + p % 0x1000);
    NibbleOfByte(a);
  }

  /** Bits 7:4 of `(uint8_t)(u >> 4)` are bits 11:8 of u. */
  lemma NibbleAt8(u: int)
    requires u >= 0
    ensures (u / 16) % 256 / 16 == (u / 256) % 16
  {
    var a := u / 16;
    assert u == 256 * (a / 16) + (16 * (a % 16) + u % 16);
    ModUnique(u, 256, a / 16, 16 * (a % 16) + u % 16);
    NibbleOfByte(a);
  }

  /** The high nibble of `(uint8_t)a` is the low nibble of a >> 4. */
  lemma NibbleOfByte(a: int)
    requires a >= 0
    ensures a % 256 / 16 == (a / 16) % 16
  {
    var g := a / 256;
    var t := a % 256;
    assert a == 16 * (16 * g + t / 16) + t % 16;
    ModUnique(a, 16, 16 * g + t / 16, t % 16);
    ModUnique(a / 16, 16, g, t / 16);
  }
}
