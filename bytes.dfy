/** Byte-level conventions of the sensor's serial protocol: the read/write bit of
    an address byte, and the assembly of a signed 16-bit count from two bytes. */
module Bytes {

  /** Bit 7 of an address byte marks a write transaction. */
  predicate IsWriteAddress(a: bv8) {
    a & 0x80 == 0x80
  }

  /** The register number an address byte designates (its low seven bits). */
  function RegisterOf(a: bv8): bv8 {
    a & 0x7F
  }

  /** The address byte that starts a register write: bit 7 set. */
  function WriteAddress(reg: bv8): (a: bv8)
    ensures IsWriteAddress(a)
    ensures RegisterOf(a) == RegisterOf(reg)
  {
    reg | 0x80
  }

  /** The address byte that starts a register read (single or burst): bit 7 cleared. */
  function ReadAddress(reg: bv8): (a: bv8)
    ensures !IsWriteAddress(a)
    ensures RegisterOf(a) == RegisterOf(reg)
    ensures reg < 0x80 ==> a == reg
  {
    reg & !0x80
  }

  /** An address byte is determined by its direction and its register number,
      so the direction bit and the register number decode every address byte. */
  lemma AddressDecodes(a: bv8)
    ensures IsWriteAddress(a) ==> a == WriteAddress(RegisterOf(a))
    ensures !IsWriteAddress(a) ==> a == ReadAddress(RegisterOf(a))
  {
  }

  /** The unsigned 16-bit word with high byte `hi` and low byte `lo`. */
  function Word(hi: bv8, lo: bv8): (w: int)
    ensures 0 <= w < 0x10000
  {
    hi as int * 0x100 + lo as int
  }

  /** The signed 16-bit value (two's complement) whose bytes are `hi` and `lo`:
      the value an `int16_t` holds after `(hi << 8) | lo` is stored into it. */
  function Int16Of(hi: bv8, lo: bv8): (v: int)
    ensures -0x8000 <= v < 0x8000
    ensures (v - Word(hi, lo)) % 0x10000 == 0
    ensures v < 0 <==> hi as int >= 0x80
  {
    var w := Word(hi, lo);
    if w < 0x8000 then w else w - 0x10000
  }

  /** High byte of the two's-complement encoding of `v`. */
  function HighByte(v: int): bv8 {
    (v % 0x10000 / 0x100) as bv8
  }

  /** Low byte of the two's-complement encoding of `v`. */
  function LowByte(v: int): bv8 {
    (v % 0x100) as bv8
  }

  lemma ByteValue(x: int)
    requires 0 <= x < 0x100
    ensures (x as bv8) as int == x
  {
    assert x % 0x100 == x;
  }

  lemma ByteBits(b: bv8)
    ensures (b as int) as bv8 == b
  {
  }

  /** Reducing modulo 2^16 first does not change the low byte. */
  lemma LowByteOfWord(v: int)
    ensures v % 0x10000 % 0x100 == v % 0x100
  {
    var k := v / 0x10000;
    assert v == k * 0x10000 + v % 0x10000;
    assert v == (k * 0x100) * 0x100 + v % 0x10000;
  }

  /** Splitting a signed 16-bit value into bytes and assembling it again gives the value back. */
  lemma {:induction false} Int16OfBytes(v: int)
    requires -0x8000 <= v < 0x8000
    ensures Int16Of(HighByte(v), LowByte(v)) == v
  {
    var u := v % 0x10000;
    assert u == if v < 0 then v + 0x10000 else v;
    var q, r := u / 0x100, u % 0x100;
    assert LowByte(v) == r as bv8 by { LowByteOfWord(v); }
    assert HighByte(v) == q as bv8;
    assert Word(HighByte(v), LowByte(v)) == q * 0x100 + r by {
      ByteValue(q);
      ByteValue(r);
    }
    assert q * 0x100 + r == u;
  }

  /** The word keeps both bytes: its high byte is `hi` and its low byte `lo`. */
  lemma WordBytes(hi: bv8, lo: bv8)
    ensures Word(hi, lo) / 0x100 == hi as int
    ensures Word(hi, lo) % 0x100 == lo as int
  {
  }

  lemma SignedModulo(w: int)
    requires 0 <= w < 0x10000
    ensures (if w < 0x8000 then w else w - 0x10000) % 0x10000 == w
  {
  }

  lemma Int16OfModulo(hi: bv8, lo: bv8)
    ensures Int16Of(hi, lo) % 0x10000 == Word(hi, lo)
  {
    SignedModulo(Word(hi, lo));
  }

  /** Assembling two bytes and splitting the value again gives the bytes back. */
  lemma {:induction false} BytesOfInt16(hi: bv8, lo: bv8)
    ensures HighByte(Int16Of(hi, lo)) == hi
    ensures LowByte(Int16Of(hi, lo)) == lo
  {
    var v := Int16Of(hi, lo);
    Int16OfModulo(hi, lo);
    WordBytes(hi, lo);
    LowByteOfWord(v);
    assert HighByte(v) == (hi as int) as bv8;
    assert LowByte(v) == (lo as int) as bv8;
    ByteBits(hi);
    ByteBits(lo);
  }
}
