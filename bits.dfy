/** Bytes, 16-bit words and sub-byte fields, as the driver manipulates them. */
module Bits {

  type Byte = bv8
  type Word = bv16

  /** The `width` low bits set; `width == 8` gives 0xFF. */
  function Mask(width: Byte): Byte
    requires width <= 8
  {
    ((1 as Byte) << width) - 1
  }

  /** The bits of a field `width` wide at bit `offset`, in place. */
  function FieldMask(width: Byte, offset: Byte): Byte
    requires width <= 8 && offset <= 8 - width
  {
    Mask(width) << offset
  }

  /** A field fits in a byte and is at least one bit wide. */
  predicate Fits(width: Byte, offset: Byte)
  {
    1 <= width <= 8 && offset <= 8 - width
  }

  /** The value of the field `width` wide at bit `offset` of `b`. */
  function GetBits(b: Byte, width: Byte, offset: Byte): (r: Byte)
    requires Fits(width, offset)
    ensures r <= Mask(width)
  {
    (b >> offset) & Mask(width)
  }

  /**
   * `b` with its field `width` wide at bit `offset` replaced by `v`; the bits of
   * `v` above `width` are dropped, and every bit outside the field is kept.
   */
  function SetBits(b: Byte, width: Byte, offset: Byte, v: Byte): (r: Byte)
    requires Fits(width, offset)
    ensures GetBits(r, width, offset) == v & Mask(width)
    ensures r & !FieldMask(width, offset) == b & !FieldMask(width, offset)
  {
    (b & !FieldMask(width, offset)) | ((v & Mask(width)) << offset)
  }

  /** Writing back the value a field holds changes nothing. */
  lemma SetBitsOfGetBits(b: Byte, width: Byte, offset: Byte)
    requires Fits(width, offset)
    ensures SetBits(b, width, offset, GetBits(b, width, offset)) == b
  {
  }

  /** Of two writes to the same field, the second wins. */
  lemma SetBitsTwice(b: Byte, width: Byte, offset: Byte, v: Byte, w: Byte)
    requires Fits(width, offset)
    ensures SetBits(SetBits(b, width, offset, v), width, offset, w) == SetBits(b, width, offset, w)
  {
  }

  /** The low byte of a 16-bit word. */
  function Lo(w: Word): Byte
  {
    (w & 0xFF) as Byte
  }

  /** The high byte of a 16-bit word. */
  function Hi(w: Word): Byte
  {
    (w >> 8) as Byte
  }

  /** The word whose low byte is `lo` and whose high byte is `hi` (`lo | hi << 8`). */
  function LittleEndian(lo: Byte, hi: Byte): (w: Word)
    ensures Lo(w) == lo && Hi(w) == hi
  {
    (lo as Word) | ((hi as Word) << 8)
  }

  /** Splitting a word into its bytes and joining them again gives the word back. */
  lemma LittleEndianOfBytes(w: Word)
    ensures LittleEndian(Lo(w), Hi(w)) == w
  {
  }
}
