/**
 * The two helpers that star.cpp and colors.cpp each define privately, with
 * identical bodies: rgb8_to_f and is_in_range.
 */
module Palette {

  /** A std::uint8_t. */
  type Byte = b: int | 0 <= b <= 0xff

  /**
   * The x, y, z channels rgb8_to_f fills in. Its w channel is left
   * default-initialised by the source and every reader drops it.
   */
  datatype Rgb = Rgb(r: real, g: real, b: real)

  /** One channel of rgb8_to_f: c / 255. */
  function ByteToF(c: Byte): (f: real)
    ensures 0.0 <= f <= 1.0
    ensures f == 0.0 <==> c == 0x00
    ensures f == 1.0 <==> c == 0xff
    ensures f * 255.0 == c as real
  {
    c as real / 255.0
  }

  /** rgb8_to_f(r, g, b); multiplying each channel back by 255 recovers the byte. */
  function Rgb8ToF(r: Byte, g: Byte, b: Byte): (c: Rgb)
    ensures 0.0 <= c.r <= 1.0 && 0.0 <= c.g <= 1.0 && 0.0 <= c.b <= 1.0
    ensures c.r * 255.0 == r as real && c.g * 255.0 == g as real && c.b * 255.0 == b as real
  {
    Rgb(ByteToF(r), ByteToF(g), ByteToF(b))
  }

  /** is_in_range(min, max, x). */
  predicate IsInRange(min: real, max: real, x: real)
    ensures IsInRange(min, max, x) ==> min <= max
  {
    x >= min && x <= max
  }

  /** The range is closed: both ends belong to it, and nothing outside does. */
  lemma InRangeInclusive(min: real, max: real, x: real)
    ensures min <= max ==> IsInRange(min, max, min) && IsInRange(min, max, max)
    ensures x < min || max < x ==> !IsInRange(min, max, x)
  {
  }
}
