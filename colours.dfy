/**
 * The host-side colour helpers: a Python mirror of the device codec, used to pick and
 * check RGB565 colour constants. Python integers are unbounded; the inputs here are the
 * byte channels and 16-bit words the helpers are written for, so 32-bit vectors hold
 * every intermediate value exactly.
 */
module Colours {
  import opened Numeric
  import ColorUtil

  datatype Rgb = Rgb(r: bv8, g: bv8, b: bv8)

  /** Python's `round` on a number: nearest integer, ties to the even neighbour. */
  function PyRound(x: real): (n: int)
    ensures -0.5 <= x - n as real <= 0.5
    ensures x - n as real == 0.5 || n as real - x == 0.5 ==> n % 2 == 0
  {
    var f := x.Floor;
    var d := x - f as real;
    if d < 0.5 then f
    else if d > 0.5 then f + 1
    else if f % 2 == 0 then f
    else f + 1
  }

  /** colour_rgb565to16bit: the top 5, 6 and 5 bits of red, green and blue, in that order. */
  function ColourRgb565To16bit(r: u8, g: u8, b: u8): (c: bv16)
    ensures c >> 11 == (r as bv16) >> 3
    ensures (c >> 5) & 0x3F == (g as bv16) >> 2
    ensures c & 0x1F == (b as bv16) >> 3
  {
    var w := (((r as bv32) & 0xF8) << 8) | (((g as bv32) & 0xFC) << 3) | ((b as bv32) >> 3);
    w as bv16
  }

  /** The red channel of colour_16bittorgb565 in Python integers; it fits a byte. */
  function PyRed(colour: bv16): (r: bv8)
    ensures r == ColorUtil.Red(colour)
  {
    var r := ((colour as bv32) >> 8) & 0xF8;
    (r | (r >> 5)) as bv8
  }

  /** The green channel of colour_16bittorgb565. */
  function PyGreen(colour: bv16): (g: bv8)
    ensures g == ColorUtil.Green(colour)
  {
    var g := ((colour as bv32) >> 3) & 0xFC;
    (g | (g >> 6)) as bv8
  }

  /** The blue channel of colour_16bittorgb565; Python's `<< 3` never drops bits. */
  function PyBlue(colour: bv16): (b: bv8)
    ensures b == ColorUtil.Blue(colour)
  {
    var b := ((colour as bv32) << 3) & 0xF8;
    (b | (b >> 5)) as bv8
  }

  /** colour_16bittorgb565: the tuple of channels, each the widened field of its word. */
  function Colour16bitToRgb565(colour: bv16): (rgb: Rgb)
    ensures rgb.r == ColorUtil.Widen5((colour >> 11) as bv8)
    ensures rgb.g == ColorUtil.Widen6(((colour >> 5) & 0x3F) as bv8)
    ensures rgb.b == ColorUtil.Widen5((colour & 0x1F) as bv8)
  {
    ColorUtil.ChannelsWidenFields(colour);
    Rgb(PyRed(colour), PyGreen(colour), PyBlue(colour))
  }

  /** gray_rgb565to16bit: the same packing with one shade for all three channels. */
  function GrayRgb565To16bit(shade: u8): (c: bv16)
    ensures c == ColourRgb565To16bit(shade, shade, shade)
    ensures c == ColorUtil.GrayRGB565To16(shade)
  {
    var s := shade as bv32;
    var w := ((s & 0xF8) << 8) | ((s & 0xFC) << 3) | (s >> 3);
    w as bv16
  }

  /**
   * gray_16bittorgb565: Python's true division and `round`, i.e. the channel average
   * rounded to the nearest shade (a sum of three integers over 3 is never a tie).
   */
  function Gray16bitToRgb565(shade: bv16): (v: int)
    ensures 3 * v <= ColorUtil.ChannelSum(shade) + 1 && ColorUtil.ChannelSum(shade) <= 3 * v + 1
    ensures v == ColorUtil.Gray16ToRGB565Nearest(shade)
  {
    var sum := PyRed(shade) as int + PyGreen(shade) as int + PyBlue(shade) as int;
    var n := PyRound(sum as real / 3.0);
    assert -1.5 <= sum as real - 3.0 * n as real <= 1.5;
    n
  }

  /** Packing a colour and unpacking it keeps each channel's top bits and refills the rest. */
  lemma ChannelRoundTrip(r: u8, g: u8, b: u8)
    ensures Colour16bitToRgb565(ColourRgb565To16bit(r, g, b)) == Rgb(
      (((r as bv8) & 0xF8) | ((r as bv8) >> 5)),
      (((g as bv8) & 0xFC) | ((g as bv8) >> 6)),
      (((b as bv8) & 0xF8) | ((b as bv8) >> 5)))
  {
  }

  /** The sample values the helpers are exercised with. */
  lemma SampleValues()
    ensures ColourRgb565To16bit(255, 97, 97) == 64268
    ensures Colour16bitToRgb565(25567) == Rgb(99, 121, 255)
    ensures GrayRgb565To16bit(131) == 33808
    ensures Gray16bitToRgb565(33808) == 131
  {
  }
}
