/** Bit widths of the signals of the SISC-F cores, and the small wrappers the model uses.
    Amaranth truncates every assignment to the width of its target and reinterprets the bits
    as signed when the target is `signed(32)`; the functions here make that explicit. */
module Types {

  datatype Option<+T> = None | Some(value: T)

  datatype Result<+T, +E> = Success(value: T) | Failure(error: E)

  /** An unsigned 32-bit signal (`Signal(32)`). */
  type Word = x: int | 0 <= x < 0x1_0000_0000

  /** A signed 32-bit signal (`Signal(signed(32))`). */
  type SWord = x: int | -0x8000_0000 <= x < 0x8000_0000

  /** An unsigned 16-bit signal of the byte-wide prototype. */
  type Word16 = x: int | 0 <= x < 0x1_0000

  /** An unsigned 8-bit signal of the byte-wide prototype. */
  type Byte = x: int | 0 <= x < 0x100

  /** The three general registers an instruction variant is bound to. */
  datatype Reg = RA | RB | RX

  /** Truncation of any integer to the low 32 bits (two's complement for negative values). */
  function Wrap32(x: int): Word
  {
    x % 0x1_0000_0000
  }

  /** Truncation to the low 16 bits. */
  function Wrap16(x: int): Word16
  {
    x % 0x1_0000
  }

  /** The signed reading of a 32-bit pattern: assigning an unsigned signal to a signed one. */
  function ToSigned(w: Word): (x: SWord)
    ensures x < 0 <==> w >= 0x8000_0000
  {
    if w < 0x8000_0000 then w else w - 0x1_0000_0000
  }

  /** A signed result truncated back into `signed(32)`. */
  function WrapSigned(x: int): SWord
  {
    ToSigned(Wrap32(x))
  }

  /** Reading a pattern as signed and truncating it again gives the pattern back. */
  lemma UnsignedRoundTrip(w: Word)
    ensures Wrap32(ToSigned(w)) == w
  {
  }

  lemma SignedRoundTrip(x: SWord)
    ensures ToSigned(Wrap32(x)) == x
  {
  }

  lemma WrapSignedIsCongruent(x: int)
    ensures (WrapSigned(x) - x) % 0x1_0000_0000 == 0
    ensures -0x8000_0000 <= x < 0x8000_0000 ==> WrapSigned(x) == x
  {
  }

  lemma Wrap32Add(x: int, k: int)
    ensures Wrap32(Wrap32(x) + k) == Wrap32(x + k)
  {
  }

  /** `Cat(lo, hi)` of two byte signals: `lo` supplies bits 0-7 and `hi` bits 8-15. */
  function Cat8(lo: Byte, hi: Byte): (w: Word16)
    ensures w % 0x100 == lo && w / 0x100 == hi
  {
    lo + hi * 0x100
  }

  /** Bit `i` of the 8-bit flags register. */
  function Bit(f: bv8, i: nat): bool
    requires i < 8
  {
    f & Mask(i) != 0
  }

  /** The mask `1 << i` of bit `i` of a byte. */
  function Mask(i: nat): bv8
    requires i < 8
  {
    if i == 0 then 0x01 else if i == 1 then 0x02 else if i == 2 then 0x04 else if i == 3 then 0x08
    else if i == 4 then 0x10 else if i == 5 then 0x20 else if i == 6 then 0x40 else 0x80
  }

  /** Setting or clearing bit `i` makes it read back as set or clear. */
  lemma OwnBit(f: bv8, i: nat, b: bool)
    requires i < 8
    ensures Bit(if b then f | Mask(i) else f & !Mask(i), i) == b
  {
    assert Mask(i) != 0;
  }

  /** Setting or clearing bit `i` leaves every other bit as it was. */
  lemma OtherBit(f: bv8, i: nat, j: nat, b: bool)
    requires i < 8 && j < 8 && i != j
    ensures Bit(if b then f | Mask(i) else f & !Mask(i), j) == Bit(f, j)
  {
    assert Mask(i) & Mask(j) == 0;
  }

  /** `flags[i].eq(b)`: the partial assignment of one bit. */
  function SetBit(f: bv8, i: nat, b: bool): (g: bv8)
    requires i < 8
    ensures Bit(g, i) == b
    ensures forall j | 0 <= j < 8 && j != i :: Bit(g, j) == Bit(f, j)
  {
    OwnBit(f, i, b);
    forall j | 0 <= j < 8 && j != i ensures Bit(if b then f | Mask(i) else f & !Mask(i), j) == Bit(f, j) {
      OtherBit(f, i, j, b);
    }
    if b then f | Mask(i) else f & !Mask(i)
  }

  /** Writing the same bit twice is writing it once. */
  lemma SetBitIdempotent(f: bv8, i: nat, b: bool)
    requires i < 8
    ensures SetBit(SetBit(f, i, b), i, b) == SetBit(f, i, b)
  {
  }
}
