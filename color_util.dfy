/**
 * The display's grey-level codec (class ColorUtil): an 8-bit grey shade is packed into
 * the three fields of a 16-bit RGB565 word, and a word is turned back into one shade.
 */
module ColorUtil {
  import opened Numeric
  import opened Wrappers

  /** Widens a 5-bit field to 8 bits by copying its top 3 bits below it. */
  function Widen5(f: bv8): (w: bv8)
    requires f < 32
    ensures w >> 3 == f
  {
    (f << 3) | (f >> 2)
  }

  /** Widens a 6-bit field to 8 bits by copying its top 2 bits below it. */
  function Widen6(f: bv8): (w: bv8)
    requires f < 64
    ensures w >> 2 == f
  {
    (f << 2) | (f >> 4)
  }

  /** The `uint8_t r` of gray16ToRGB565: bits 11-15 masked into place, top bits or-ed below. */
  function Red(shade: bv16): bv8
  {
    var r := ((shade >> 8) & 0xF8) as bv8;
    r | (r >> 5)
  }

  /** The `uint8_t g` of gray16ToRGB565, from bits 5-10. */
  function Green(shade: bv16): bv8
  {
    var g := ((shade >> 3) & 0xFC) as bv8;
    g | (g >> 6)
  }

  /** The `uint8_t b` of gray16ToRGB565, from bits 0-4 (the shift is done in 32-bit `int`). */
  function Blue(shade: bv16): bv8
  {
    var b := (((shade as bv32) << 3) & 0xF8) as bv8;
    b | (b >> 5)
  }

  function ChannelSum(shade: bv16): nat
  {
    Red(shade) as nat + Green(shade) as nat + Blue(shade) as nat
  }

  /** The three channels are the word's 5-6-5 fields, each widened to 8 bits. */
  lemma ChannelsWidenFields(shade: bv16)
    ensures Red(shade) == Widen5((shade >> 11) as bv8)
    ensures Green(shade) == Widen6(((shade >> 5) & 0x3F) as bv8)
    ensures Blue(shade) == Widen5((shade & 0x1F) as bv8)
  {
  }

  /**
   * grayRGB565To16: the shade's top 5 bits go to red and to blue, its top 6 bits to green.
   * The expression is evaluated in 32-bit `int`; the value always fits the `uint16_t` result.
   */
  function GrayRGB565To16(shade: u8): (c: bv16)
    ensures c >> 11 == (shade as bv16) >> 3
    ensures (c >> 5) & 0x3F == (shade as bv16) >> 2
    ensures c & 0x1F == (shade as bv16) >> 3
  {
    var s := shade as bv32;
    var w := ((s & 0xF8) << 8) | ((s & 0xFC) << 3) | (s >> 3);
    w as bv16
  }

  /**
   * gray16ToRGB565 as written: `(r+g+b)/3` is an integer division, so the `round` around
   * it receives a whole number and the average of the channels is floored.
   */
  function Gray16ToRGB565(shade: bv16): (v: u8)
    ensures 3 * v <= ChannelSum(shade) < 3 * v + 3
  {
    (Red(shade) as int + Green(shade) as int + Blue(shade) as int) / 3
  }

  /** The average of the channels rounded to nearest, as `round` on the true quotient does. */
  function Gray16ToRGB565Nearest(shade: bv16): (v: u8)
    ensures 3 * v <= ChannelSum(shade) + 1 && ChannelSum(shade) <= 3 * v + 1
  {
    (Red(shade) as int + Green(shade) as int + Blue(shade) as int + 1) / 3
  }

  /**
   * grayFloatTo16: a brightness scaled by 255 and rounded with C `round`, then packed.
   * The rounded value is converted to the `uint8_t` parameter of grayRGB565To16; outside
   * 0..255 that conversion is undefined, and the result is a `NarrowingOutOfRange` fault.
   */
  function GrayFloatTo16(shade: real): (r: Result<bv16, Fault>)
    ensures r.Success? <==> 0 <= CRound(shade * 255.0) < 0x100
    ensures r.Failure? ==> r.error == NarrowingOutOfRange
    ensures r.Success? ==> r.value >> 11 == (CRound(shade * 255.0) as bv16) >> 3
    ensures r.Success? ==> (r.value >> 5) & 0x3F == (CRound(shade * 255.0) as bv16) >> 2
    ensures r.Success? ==> r.value & 0x1F == (CRound(shade * 255.0) as bv16) >> 3
    ensures shade == 0.0 ==> r == Success(0)
    ensures shade == 1.0 ==> r == Success(0xFFFF)
  {
    var v := CRound(shade * 255.0);
    if 0 <= v < 0x100 then Success(GrayRGB565To16(v)) else Failure(NarrowingOutOfRange)
  }

  /**
   * Every brightness in [0, 1] packs without a fault, and decoding the word gives back the
   * rounded shade to within 6 levels.
   */
  lemma FloatShadeRoundTrip(shade: real)
    requires 0.0 <= shade <= 1.0
    ensures GrayFloatTo16(shade).Success?
    ensures -6 <= Gray16ToRGB565(GrayFloatTo16(shade).value) - CRound(shade * 255.0) <= 6
  {
    CRoundWithin(shade * 255.0, 255);
    RoundTripWithin6(CRound(shade * 255.0));
  }

  /** Packing then unpacking a shade loses only low bits: the result is within 6 of it. */
  lemma RoundTripWithin6(shade: u8)
    ensures -6 <= Gray16ToRGB565(GrayRGB565To16(shade)) - shade <= 6
  {
    var b := shade as bv8;
    GreyChannels(shade);
    Widen5Near(b);
    Widen6Near(b);
  }

  /** A packed shade comes back as its top 5 bits in red and blue and its top 6 in green. */
  lemma GreyChannels(shade: u8)
    ensures Red(GrayRGB565To16(shade)) == Widen5((shade as bv8) >> 3)
    ensures Green(GrayRGB565To16(shade)) == Widen6((shade as bv8) >> 2)
    ensures Blue(GrayRGB565To16(shade)) == Widen5((shade as bv8) >> 3)
  {
    ChannelsWidenFields(GrayRGB565To16(shade));
  }

  /** Widening the top 5 bits of a byte stays within 7 of it. */
  lemma Widen5Near(b: bv8)
    ensures b as int - 7 <= Widen5(b >> 3) as int <= b as int + 7
  {
  }

  /** Widening the top 6 bits of a byte stays within 3 of it. */
  lemma Widen6Near(b: bv8)
    ensures b as int - 3 <= Widen6(b >> 2) as int <= b as int + 3
  {
  }

  /** Black, white and the sample shade 131 survive the round trip exactly. */
  lemma RoundTripFixedPoints()
    ensures GrayRGB565To16(0) == 0 && Gray16ToRGB565(0) == 0
    ensures GrayRGB565To16(255) == 0xFFFF && Gray16ToRGB565(0xFFFF) == 255
    ensures GrayRGB565To16(131) == 33808 && Gray16ToRGB565(33808) == 131
  {
  }

  /** The floored and the rounded averages differ exactly when the channel sum is 2 mod 3. */
  lemma FloorVersusNearest(shade: bv16)
    ensures Gray16ToRGB565Nearest(shade)
      == Gray16ToRGB565(shade) + (if ChannelSum(shade) % 3 == 2 then 1 else 0)
  {
  }

  /**
   * Inputs that show the floor: shade 32 packs to 0x2104 (channels 33+32+33), which the
   * floor keeps and rounding would move to 33; word 1 decodes to 2 instead of 3.
   */
  lemma FloorDecoderExamples()
    ensures GrayRGB565To16(32) == 0x2104
    ensures Gray16ToRGB565(0x2104) == 32 && Gray16ToRGB565Nearest(0x2104) == 33
    ensures Gray16ToRGB565(1) == 2 && Gray16ToRGB565Nearest(1) == 3
  {
  }
}
