/**
 * The host-side Python reference of the demodulator (util/demodulator.py): the echo
 * generator, the natural peak finder and the natural downsampler that the firmware
 * transcribes, and the grey codec (the same expressions as the colour helpers, see
 * the Colours module). Python integers are unbounded and its floats are modelled as
 * reals; an IndexError or ZeroDivisionError is a Failure.
 */
module DemodulatorPy {
  import opened Numeric
  import opened Wrappers
  import opened EnvelopeSpec
  import opened Waveform
  import Demodulator
  import ColorUtil
  import Colours

  /** `A = rand.uniform(0.2, 0.6)` is immediately overwritten by the constant 0.4. */
  const AMPLITUDE: real := 0.4

  /** `k = 0.2` is a Python float: unlike the firmware's `uint8_t k`, it keeps its value. */
  const FLOOR: real := 0.2

  lemma FloorKept()
    ensures FLOOR > DEVICE_FLOOR as real
  {
    DeviceFloorIsZero();
  }

  /**
   * The number of leading samples `echo[:tstart] = 0` clears from n: a bound past the
   * end clears everything, and a negative bound counts from the end.
   */
  function SliceStop(tstart: int, n: nat): (z: nat)
    ensures z <= n
    ensures 0 <= tstart <= n ==> z == tstart
    ensures tstart < 0 <= n + tstart ==> z == n + tstart
    ensures n + tstart < 0 ==> z == 0
  {
    if tstart >= 0 then (if tstart <= n then tstart else n)
    else if n + tstart >= 0 then n + tstart
    else 0
  }

  /** `tstart = int(h*res/tlim)`: the true quotient truncated toward zero. */
  function EchoStart(h: real, res: nat, tlim: int): (r: int)
    requires tlim != 0
    ensures h >= 0.0 && tlim > 0 ==>
      0 <= r && r as real <= h * (res as real) / (tlim as real) < r as real + 1.0
  {
    Trunc(h * (res as real) / (tlim as real))
  }

  /**
   * gen_echo(t, h, tlim): one sample per entry of t, cleared before tstart and
   * otherwise the absolute waveform sample with amplitude 0.4 and floor 0.2.
   */
  function GenEcho(w: Shape, t: seq<real>, h: real, tlim: int): (r: Result<seq<real>, Fault>)
    ensures r.Success? <==> tlim != 0
    ensures r.Success? ==> |r.value| == |t| && NonNegative(r.value)
    ensures r.Success? ==> forall i :: 0 <= i < |t| ==>
      r.value[i] == (if i < SliceStop(EchoStart(h, |t|, tlim), |t|) then 0.0
                     else Sample(w, AMPLITUDE, t[i], h, FLOOR))
  {
    if tlim == 0 then Failure(DivideByZero)
    else Success(Echo(w, _ => AMPLITUDE, t, h, SliceStop(EchoStart(h, |t|, tlim), |t|), |t|, FLOOR))
  }

  /** For whole echo times the truncated true quotient is the integer quotient. */
  lemma {:induction false} StartIsIntegerQuotient(h: nat, res: nat, tlim: nat)
    requires tlim > 0
    ensures EchoStart(h as real, res, tlim) == h * res / tlim
  {
    var y := h * res;
    EchoStartOfProduct(h, res, tlim, y);
    TruncOfQuotient(y, tlim);
  }

  /** With y the product h*res, EchoStart truncates the real quotient y / tlim. */
  lemma EchoStartOfProduct(h: nat, res: nat, tlim: nat, y: nat)
    requires tlim > 0 && y == h * res
    ensures EchoStart(h as real, res, tlim) == Trunc((y as real) / (tlim as real))
  {
    var hr, rr, tr := h as real, res as real, tlim as real;
    RealOfProduct(h, res);
    assert hr * rr == y as real;
    assert EchoStart(hr, res, tlim) == Trunc(hr * rr / tr);
  }

  lemma RealOfProduct(a: nat, b: nat)
    ensures (a as real) * (b as real) == (a * b) as real
  {
  }

  /** Truncating the true quotient of two naturals gives their integer quotient. */
  lemma TruncOfQuotient(y: nat, d: nat)
    requires d > 0
    ensures Trunc((y as real) / (d as real)) == y / d
  {
    var q, r := y / d, y % d;
    assert y == d * q + r && 0 <= r < d;
    var f := (r as real) / (d as real);
    assert 0.0 <= f < 1.0;
    assert (y as real) == (d as real) * (q as real) + (r as real);
    assert (y as real) / (d as real) == (q as real) + f;
  }

  /**
   * For an echo time the firmware can hold, gen_echo clears exactly the samples the
   * firmware's generateEcho clears (res 250, tlim 8); only amplitude and floor differ.
   */
  lemma SameClearedPrefix(h: u16, i: nat)
    requires h * Demodulator.RES < 0x1_0000 * Demodulator.TLIM && i < Demodulator.RES
    ensures i < SliceStop(EchoStart(h as real, Demodulator.RES, Demodulator.TLIM), Demodulator.RES)
      <==> i < Demodulator.EchoStart(h)
  {
    StartIsIntegerQuotient(h, Demodulator.RES, Demodulator.TLIM);
  }

  /** A negative echo time still clears samples: all but the last |tstart|, counted from the end. */
  lemma NegativeStartClearsFromEnd()
    ensures EchoStart(-0.032, 250, 8) == -1
    ensures SliceStop(EchoStart(-0.032, 250, 8), 250) == 249
  {
  }

  /** What find_peaks_natural returns: the recorded indices, then `len(signal)-1`. */
  function NaturalPeaks(s: seq<real>): (r: seq<int>)
    ensures |r| >= 1 && r[|r| - 1] == |s| - 1
  {
    ScanPeaks(s, |s|) + [|s| - 1]
  }

  /**
   * The natural peaks of a non-empty signal: a strictly increasing list of indices
   * ending at the last one, holding exactly the local maxima before it.
   */
  lemma NaturalPeaksShape(s: seq<real>)
    requires |s| >= 1
    ensures |NaturalPeaks(s)| >= 1 && NaturalPeaks(s)[|NaturalPeaks(s)| - 1] == |s| - 1
    ensures Increasing(NaturalPeaks(s))
    ensures forall i :: 0 <= i < |NaturalPeaks(s)| ==> 0 <= NaturalPeaks(s)[i] < |s|
    ensures forall p :: 0 <= p < |s| - 1 ==> (p in NaturalPeaks(s) <==> IsPeak(s, p))
  {
    var r := NaturalPeaks(s);
    ScanPeaksFacts(s, |s|);
    assert forall i :: 0 <= i < |r| - 1 ==> r[i] == ScanPeaks(s, |s|)[i];
    forall p | 0 <= p < |s| - 1
      ensures p in r <==> IsPeak(s, p)
    {
      assert p in r <==> p in ScanPeaks(s, |s|);
    }
  }

  /** Within the firmware's 16-bit lengths the Python peaks are the firmware's peaks. */
  lemma NaturalPeaksMatchFirmware(s: seq<real>)
    requires 1 <= |s| < 0x1_0000
    ensures NaturalPeaks(s) == PeakIndices(s)
  {
  }

  /**
   * find_peaks_natural(signal): the enumerate loop with the previous derivative m_,
   * then the final index. An empty signal gives `[-1]`.
   */
  method FindPeaksNatural(signal: seq<real>) returns (peaks: seq<int>)
    ensures peaks == NaturalPeaks(signal)
    ensures |signal| == 0 ==> peaks == [-1]
  {
    peaks := [];
    var mPrev := 0.0;
    var x := 0;
    while x < |signal|
      invariant 0 <= x <= |signal|
      invariant peaks == ScanPeaks(signal, x)
      invariant mPrev == if x == 0 then 0.0 else Slope(signal, x - 1)
    {
      var y := signal[x];
      var xPrev := if x - 1 > 0 then x - 1 else 0;
      var yPrev := signal[xPrev];
      var m := if x == 0 then 0.0 else (y - yPrev) / ((x - xPrev) as real);
      if mPrev >= 0.0 && m < 0.0 {
        peaks := peaks + [xPrev];
      }
      mPrev := m;
      x := x + 1;
    }
    peaks := peaks + [|signal| - 1];
  }

  /**
   * downsample_natural(array, npts): a zero-filled result of npts entries whose pass i
   * writes the blend of `array[idx]` and `array[idx+1]`, then the last entry. For npts
   * of at least 1 this is the firmware's downsample; with npts 0 the final write
   * `array_ds[-1]` is past the end of the empty result.
   */
  method DownsampleNatural(a: seq<real>, npts: nat) returns (r: Result<seq<real>, Fault>)
    ensures npts == 0 ==> r == Failure(ReadOutOfRange)
    ensures npts >= 1 ==> r == DownsampleSpec(a, npts)
  {
    var ds := new real[npts](_ => 0.0);
    var size := |a|;
    var i := 0;
    while i < npts - 1
      invariant 0 <= i && (npts >= 1 ==> i <= npts - 1)
      invariant i > 0 ==> size >= 2
      invariant forall j :: 0 <= j < i ==> npts >= 2 && size >= 2 && ds[j] == DsEntry(a, npts, j)
    {
      if size < 2 {
        // idx is 0, and `array[idx+1]` is past the end
        return Failure(ReadOutOfRange);
      }
      var v := NaturalBlend(a, npts, i);
      ds[i] := v;
      i := i + 1;
    }
    if npts == 0 || size == 0 {
      return Failure(ReadOutOfRange);
    }
    ds[npts - 1] := a[size - 1];
    DownsampleAssembled(a, npts, ds[..]);
    r := Success(ds[..]);
  }

  /**
   * Pass i of downsample_natural: idx is `int()` of the true quotient, which equals the
   * integer quotient; p is the integer remainder.
   */
  method NaturalBlend(a: seq<real>, npts: nat, i: nat) returns (v: real)
    requires |a| >= 1 && i < npts - 1 && !(|a| == 1 && npts >= 2)
    ensures |a| >= 2 && v == DsEntry(a, npts, i)
  {
    var m, d := |a| - 1, npts - 1;
    var prod: nat := i * m;
    var idx := Trunc((prod as real) / (d as real));
    var p := prod % d;
    TruncOfQuotient(prod, d);
    DsEntryAt(a, npts, i, m, d, prod, idx, p);
    v := Blend(a[idx], a[idx + 1], p, d);
  }

  /** gray_rgb565to16bit: the same expression as the colour helpers, in the device encoder's layout. */
  function GrayRgb565To16bit(shade: u8): (c: bv16)
    ensures c == ColorUtil.GrayRGB565To16(shade)
    ensures c >> 11 == (shade as bv16) >> 3 && c & 0x1F == (shade as bv16) >> 3
  {
    Colours.GrayRgb565To16bit(shade)
  }

  /**
   * gray_16bittorgb565: the channel average rounded to nearest, which is the corrected
   * device decoder and not the flooring one.
   */
  function Gray16bitToRgb565(shade: bv16): (v: int)
    ensures v == ColorUtil.Gray16ToRGB565Nearest(shade)
    ensures 3 * v <= ColorUtil.ChannelSum(shade) + 1 && ColorUtil.ChannelSum(shade) <= 3 * v + 1
  {
    Colours.Gray16bitToRgb565(shade)
  }
}
