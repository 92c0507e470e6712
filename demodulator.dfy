/**
 * src/demodulator.hpp: the older A-scan generator that the main loop still calls. It
 * shares linspace, findPeaks and downsample with SignalProcessing (the code is the same),
 * but builds 250-point waveforms, normalises each column by its own maximum taken from
 * sample 0 on, keeps only the envelope values and rounds `envelope*255` to a byte.
 */
module Demodulator {
  import opened Numeric
  import opened Wrappers
  import opened EnvelopeSpec
  import opened Waveform
  import SignalProcessing

  /** `res`: points per generated waveform. */
  const RES: nat := 250
  /** `tlim`: the time window in microseconds, a `uint8_t`. */
  const TLIM: nat := 8
  /** Rows of a column: `IMG_HEIGHT`. */
  const IMG_HEIGHT: nat := 112
  /** Columns of an image: `IMG_WIDTH`. */
  const IMG_WIDTH: nat := 112

  /** The time axis `linspace<res>(0, tlim)`. */
  function Tspan(): (r: seq<real>)
    ensures |r| == RES && r[0] == 0.0 && r[RES - 1] == TLIM as real
  {
    LinspaceSpec(0.0, TLIM as real, RES)
  }

  /**
   * `tstart = int(t*res/tlim)` in integer arithmetic stored as `uint16_t`: the quotient
   * truncates, and fits whenever `t*250/8` does.
   */
  function EchoStart(t: u16): (s: u16)
    ensures t * RES < 0x1_0000 * TLIM ==> TLIM * s <= t * RES < TLIM * s + TLIM
  {
    ToU16(t * RES / TLIM)
  }

  /** With the echo times of the main loop the echoes start at samples 0, 31, 93, 93, 156, 187, 218. */
  lemma EchoStartsOfMainLoop()
    ensures seq(7, t requires 0 <= t < 7 => EchoStart(EchoTimes()[t])) == [0, 31, 93, 93, 156, 187, 218]
  {
    var hs := EchoTimes();
    assert hs == [0, 1, 3, 3, 5, 6, 7];
  }

  /** generateEcho: zero before tstart, then the waveform sample with `uint8_t k = 0.2`, that is 0. */
  method GenerateEcho(w: Shape, amps: nat -> real, tspan: seq<real>, t: u16) returns (echo: seq<real>)
    requires |tspan| >= RES
    ensures echo == Echo(w, amps, tspan, t as real, EchoStart(t), RES, DEVICE_FLOOR as real)
  {
    var tstart := ToU16(t * RES / TLIM);
    var k := DEVICE_FLOOR as real;
    echo := [];
    var i := 0;
    while i < RES
      invariant 0 <= i <= RES && |echo| == i
      invariant forall j :: 0 <= j < i ==> echo[j] == EchoAt(w, amps, tspan, t as real, tstart, k, j)
    {
      if i < tstart {
        echo := echo + [0.0];
      } else {
        var amp := amps(i);
        var cyc := w.carrier(tspan[i]);
        var cycDecay := w.ringing(amp, tspan[i], t as real) + k;
        var expDecay := w.decay(amp, tspan[i], t as real) + k;
        echo := echo + [Abs(cyc * cycDecay * expDecay)];
      }
      i := i + 1;
    }
  }

  /** The echoes of one column: echo t at time hs[t], its amplitudes drawn from draws(t). */
  function Echoes(w: Shape, draws: nat -> nat -> real, hs: seq<u16>): (es: seq<seq<real>>)
    ensures |es| == |hs| && Uniform(es, RES)
    ensures forall t :: 0 <= t < |es| ==> NonNegative(es[t])
  {
    var es := seq(|hs|, t requires 0 <= t < |hs| => ColumnEcho(w, draws(t), hs[t]));
    assert forall t :: 0 <= t < |es| ==> es[t] == ColumnEcho(w, draws(t), hs[t]);
    es
  }

  function ColumnEcho(w: Shape, amps: nat -> real, h: u16): (e: seq<real>)
    ensures |e| == RES && NonNegative(e)
  {
    Echo(w, amps, Tspan(), h as real, EchoStart(h), RES, DEVICE_FLOOR as real)
  }

  /** `sspan` after the compile loop: each echo divided by its index plus 3, summed. */
  function Sspan(w: Shape, draws: nat -> nat -> real, hs: seq<u16>): (s: seq<real>)
    ensures |s| == RES && NonNegative(s)
  {
    MixNonNegative(Echoes(w, draws, hs), RES);
    Mix(Echoes(w, draws, hs), RES)
  }

  /** Every sample divided by the maximum. */
  function Normalise(s: seq<real>, m: real): (n: seq<real>)
    requires m != 0.0
    ensures |n| == |s|
  {
    seq(|s|, i requires 0 <= i < |s| => s[i] / m)
  }

  /** The maximum of generateAScan: from `sspan[0]` over samples 1..res-1. */
  function PeakLevel(s: seq<real>): (m: real)
    requires |s| >= 1
    ensures forall i :: 0 <= i < |s| ==> s[i] <= m
    ensures exists i :: 0 <= i < |s| && s[i] == m
  {
    RunningMax(s, 1, |s|, s[0])
  }

  /** The peak time `peaks_idx[i]*tlim/res` in integer arithmetic: truncated to whole microseconds. */
  function PeakTime(idx: u16): (t: u16)
    ensures RES * t <= TLIM * idx < RES * t + RES
  {
    var q := idx * TLIM / RES;
    DivUnique(idx * TLIM, RES, q);
    q
  }

  /** The last sample's time, 7.968 microseconds, truncates to 7; sample 31 (0.992) to 0. */
  lemma PeakTimesTruncate()
    ensures PeakTime(249) == 7 && PeakTime(31) == 0
  {
  }

  /**
   * The column of one normalised waveform: the values at the peaks, downsampled to
   * IMG_HEIGHT points, each `round(v*255)` narrowed to a byte.
   */
  function EnvelopeColumn(n: seq<real>): (r: Result<seq<u8>, Fault>)
    requires |n| == RES
    ensures r.Success? ==> |r.value| == IMG_HEIGHT
  {
    PeakIndicesInRange(n);
    var idx := PeakIndices(n);
    var envelope := seq(|idx|, i requires 0 <= i < |idx| => n[idx[i]]);
    match DownsampleSpec(envelope, IMG_HEIGHT)
    case Failure(e) => Failure(e)
    case Success(ds) => Levels(ds)
  }

  /** `round(v*255)` for each of the first IMG_HEIGHT values, as `uint8_t`. */
  function Levels(ds: seq<real>): (r: Result<seq<u8>, Fault>)
    requires |ds| >= IMG_HEIGHT
    ensures r.Success? <==> forall i :: 0 <= i < IMG_HEIGHT ==> 0 <= CRound(ds[i] * 255.0) < 0x100
    ensures r.Success? ==> |r.value| == IMG_HEIGHT
    ensures r.Success? ==> forall i :: 0 <= i < IMG_HEIGHT ==> r.value[i] == CRound(ds[i] * 255.0)
  {
    if forall i :: 0 <= i < IMG_HEIGHT ==> 0 <= CRound(ds[i] * 255.0) < 0x100
    then Success(seq(IMG_HEIGHT, i requires 0 <= i < IMG_HEIGHT => CRound(ds[i] * 255.0) as u8))
    else Failure(NarrowingOutOfRange)
  }

  /**
   * generateAScan on a summed waveform: divide by the maximum (a zero maximum divides
   * by zero), then build the column.
   */
  function AScanColumn(s: seq<real>): (r: Result<seq<u8>, Fault>)
    requires |s| == RES
    ensures r.Success? ==> |r.value| == IMG_HEIGHT
  {
    var m := PeakLevel(s);
    if m == 0.0 then Failure(DivideByZero) else EnvelopeColumn(Normalise(s, m))
  }

  /**
   * After normalisation by a positive maximum every sample of a non-negative waveform
   * lies in [0, 1], and the maximum is exactly 1.
   */
  lemma NormalisedPeakIsOne(s: seq<real>)
    requires |s| == RES && NonNegative(s) && PeakLevel(s) > 0.0
    ensures var n := Normalise(s, PeakLevel(s));
      (forall i :: 0 <= i < RES ==> 0.0 <= n[i] <= 1.0) && (exists i :: 0 <= i < RES && n[i] == 1.0)
  {
    var m := PeakLevel(s);
    var n := Normalise(s, m);
    forall i | 0 <= i < RES
      ensures 0.0 <= n[i] <= 1.0
    {
      FractionOfMax(s[i], m);
    }
    var k :| 0 <= k < RES && s[k] == m;
    FractionOfMax(s[k], m);
    assert n[k] == m / m;
  }

  lemma FractionOfMax(v: real, m: real)
    requires 0.0 <= v <= m && m > 0.0
    ensures 0.0 <= v / m <= 1.0
    ensures v == m ==> v / m == 1.0
  {
    assert v / m * m == v;
  }

  /** The maximum of a non-negative waveform is zero exactly when every sample is. */
  lemma SilentIffZeroPeak(s: seq<real>)
    requires |s| == RES && NonNegative(s)
    ensures PeakLevel(s) == 0.0 <==> forall i :: 0 <= i < RES ==> s[i] == 0.0
  {
  }

  /**
   * Grey levels of a non-negative waveform never leave 0..255: the column is built
   * exactly when the maximum is positive and the envelope has more than one peak (the
   * appended last index included); otherwise the divide or downsample's read of
   * `array[1]` faults.
   */
  lemma AScanColumnNeverNarrows(s: seq<real>)
    requires |s| == RES && NonNegative(s)
    ensures AScanColumn(s) != Failure(NarrowingOutOfRange)
    ensures AScanColumn(s).Success? <==> PeakLevel(s) > 0.0 && |PeakIndices(s)| >= 2
  {
    var m := PeakLevel(s);
    assert m >= s[0] >= 0.0;
    if m != 0.0 {
      NormalisedPeakIsOne(s);
      var n := Normalise(s, m);
      assert AScanColumn(s) == EnvelopeColumn(n);
      EnvelopeColumnNeverNarrows(n);
      NormalisedPeaksMatch(s, m);
    }
  }

  /** A column of values in [0, 1] fails only when the envelope has a single point. */
  lemma EnvelopeColumnNeverNarrows(n: seq<real>)
    requires |n| == RES && forall i :: 0 <= i < RES ==> 0.0 <= n[i] <= 1.0
    ensures EnvelopeColumn(n) != Failure(NarrowingOutOfRange)
    ensures EnvelopeColumn(n).Success? <==> |PeakIndices(n)| >= 2
  {
    PeakIndicesInRange(n);
    var idx := PeakIndices(n);
    var envelope := seq(|idx|, i requires 0 <= i < |idx| => n[idx[i]]);
    assert forall j :: 0 <= j < |envelope| ==> 0.0 <= envelope[j] <= 1.0;
    if DownsampleSpec(envelope, IMG_HEIGHT).Success? {
      var ds := DownsampleSpec(envelope, IMG_HEIGHT).value;
      DownsampleWithin(envelope, IMG_HEIGHT, 0.0, 1.0);
      forall i | 0 <= i < IMG_HEIGHT
        ensures 0 <= CRound(ds[i] * 255.0) < 0x100
      {
        CRoundWithin(ds[i] * 255.0, 255);
      }
      assert EnvelopeColumn(n) == Levels(ds);
    }
  }

  /** Dividing by a positive maximum changes no slope's sign, so the peaks stay where they were. */
  lemma NormalisedPeaksMatch(s: seq<real>, m: real)
    requires |s| == RES && m > 0.0
    ensures PeakIndices(Normalise(s, m)) == PeakIndices(s)
  {
    var n := Normalise(s, m);
    forall i | 0 <= i < |s|
      ensures n[i] * m == s[i]
    {
      assert n[i] == s[i] / m;
    }
    ScaledScanPeaks(s, n, m, |s|);
  }

  lemma {:induction false} ScaledScanPeaks(s: seq<real>, n: seq<real>, m: real, k: nat)
    requires |n| == |s| && k <= |s| && m > 0.0
    requires forall i :: 0 <= i < |s| ==> n[i] * m == s[i]
    ensures ScanPeaks(n, k) == ScanPeaks(s, k)
  {
    if k > 0 {
      ScaledScanPeaks(s, n, m, k - 1);
      if k >= 2 {
        ScaledSlope(s, n, m, k - 1);
        ScaledSlope(s, n, m, k - 2);
      } else {
        ScaledSlope(s, n, m, k - 1);
      }
    }
  }

  lemma ScaledSlope(s: seq<real>, n: seq<real>, m: real, x: nat)
    requires |n| == |s| && x < |s| && m > 0.0
    requires forall i :: 0 <= i < |s| ==> n[i] * m == s[i]
    ensures Slope(n, x) * m == Slope(s, x)
    ensures (Slope(n, x) >= 0.0 <==> Slope(s, x) >= 0.0) && (Slope(n, x) < 0.0 <==> Slope(s, x) < 0.0)
  {
  }

  // ----------------------------------------------------------------- the loops

  /** The compile loop: a zero-filled `sspan`, every echo added divided by t+3. */
  method CompileWaveform(w: Shape, draws: nat -> nat -> real, hs: seq<u16>) returns (sspan: array<real>)
    requires |hs| < 0x100
    ensures fresh(sspan) && sspan[..] == Sspan(w, draws, hs)
  {
    var tspan := SignalProcessing.Linspace(0.0, TLIM as real, RES as u16);
    sspan := new real[RES](_ => 0.0);
    ghost var es := Echoes(w, draws, hs);
    var t := 0;
    while t < |hs|
      invariant 0 <= t <= |hs|
      invariant sspan[..] == Mix(es[..t], RES)
    {
      var echo := GenerateEcho(w, draws(t), tspan, hs[t]);
      assert echo == es[t];
      SignalProcessing.AddWeighted(sspan, echo, t);
      MixStep(es, RES, t);
      t := t + 1;
    }
    assert es[..|hs|] == es;
  }

  /** The maximum loop: start from `sspan[0]`, keep any larger sample from index 1 on. */
  method FindMax(sspan: array<real>) returns (max: real)
    requires sspan.Length == RES
    ensures max == PeakLevel(sspan[..])
  {
    max := sspan[0];
    var i := 1;
    while i < RES
      invariant 1 <= i <= RES
      invariant max == RunningMax(sspan[..], 1, i, sspan[0])
    {
      if sspan[i] > max {
        max := sspan[i];
      }
      i := i + 1;
    }
  }

  /** The normalisation loop, in place: `sspan[i] /= max`. */
  method NormaliseInPlace(sspan: array<real>, max: real)
    requires max != 0.0
    modifies sspan
    ensures sspan[..] == Normalise(old(sspan[..]), max)
  {
    var i := 0;
    while i < sspan.Length
      invariant 0 <= i <= sspan.Length
      invariant forall j :: 0 <= j < i ==> sspan[j] == old(sspan[j]) / max
      invariant forall j :: i <= j < sspan.Length ==> sspan[j] == old(sspan[j])
    {
      sspan[i] := sspan[i] / max;
      i := i + 1;
    }
  }

  /**
   * The envelope and conversion loops: peak times (computed, then unused), peak values,
   * downsample to IMG_HEIGHT, and `round(v*255)` pushed into the column.
   */
  method Demodulate(n: seq<real>) returns (scan: Result<seq<u8>, Fault>)
    requires |n| == RES
    ensures scan == EnvelopeColumn(n)
  {
    var peaksIdx := SignalProcessing.FindPeaks(n);
    var peaks: seq<u16>, envelope := [], [];
    var i := 0;
    while i < |peaksIdx|
      invariant 0 <= i <= |peaksIdx| && |peaks| == i && |envelope| == i
      invariant forall j :: 0 <= j < i ==> envelope[j] == n[peaksIdx[j]]
    {
      peaks := peaks + [PeakTime(peaksIdx[i])];
      envelope := envelope + [n[peaksIdx[i]]];
      i := i + 1;
    }
    assert envelope == seq(|peaksIdx|, j requires 0 <= j < |peaksIdx| => n[peaksIdx[j]]);
    DownsampleProductsFit(|envelope|, IMG_HEIGHT);
    var envDs := SignalProcessing.Downsample(envelope, IMG_HEIGHT as u16);
    if envDs.Failure? {
      return Failure(envDs.error);
    }
    scan := ToLevels(envDs.value);
  }

  /** The conversion loop: push `round(v*255)` for each of the first IMG_HEIGHT values. */
  method ToLevels(ds: seq<real>) returns (scan: Result<seq<u8>, Fault>)
    requires |ds| >= IMG_HEIGHT
    ensures scan == Levels(ds)
  {
    var column: seq<u8> := [];
    var i := 0;
    while i < IMG_HEIGHT
      invariant 0 <= i <= IMG_HEIGHT && |column| == i
      invariant forall j :: 0 <= j < i ==> 0 <= CRound(ds[j] * 255.0) < 0x100 && column[j] == CRound(ds[j] * 255.0)
    {
      var g := CRound(ds[i] * 255.0);
      if !(0 <= g < 0x100) {
        return Failure(NarrowingOutOfRange);
      }
      column := column + [g];
      i := i + 1;
    }
    assert column == seq(IMG_HEIGHT, j requires 0 <= j < IMG_HEIGHT => CRound(ds[j] * 255.0) as u8);
    scan := Success(column);
  }

  /**
   * generateAScan(echos, col): echo times hs (the caller's floats truncated to
   * `uint16_t`), the column index unused.
   */
  method GenerateAScan(w: Shape, draws: nat -> nat -> real, hs: seq<u16>, col: u16) returns (scan: Result<seq<u8>, Fault>)
    requires |hs| < 0x100
    ensures scan == AScanColumn(Sspan(w, draws, hs))
  {
    var sspan := CompileWaveform(w, draws, hs);
    var max := FindMax(sspan);
    if max == 0.0 {
      return Failure(DivideByZero);
    }
    NormaliseInPlace(sspan, max);
    scan := Demodulate(sspan[..]);
  }

  /** The first n columns of generateBScan, in order: column c is the A-scan column of waveform c. */
  function BScanImage(ss: seq<seq<real>>, n: nat): (image: seq<Result<seq<u8>, Fault>>)
    requires n <= |ss| && forall c :: 0 <= c < |ss| ==> |ss[c]| == RES
    ensures |image| == n
    ensures forall c :: 0 <= c < n ==> image[c] == AScanColumn(ss[c])
  {
    if n == 0 then [] else BScanImage(ss, n - 1) + [AScanColumn(ss[n - 1])]
  }

  /** The waveforms of generateBScan: column c draws its amplitudes from draws[c]. */
  function Signals(w: Shape, draws: seq<nat -> nat -> real>, hs: seq<u16>): (ss: seq<seq<real>>)
    ensures |ss| == |draws| && forall c :: 0 <= c < |ss| ==> |ss[c]| == RES
  {
    seq(|draws|, c requires 0 <= c < |draws| => Sspan(w, draws[c], hs))
  }

  /** generateBScan: IMG_WIDTH columns in order, column c drawing its amplitudes from draws[c]. */
  method GenerateBScan(w: Shape, draws: seq<nat -> nat -> real>, hs: seq<u16>) returns (image: seq<Result<seq<u8>, Fault>>)
    requires |hs| < 0x100 && |draws| == IMG_WIDTH
    ensures image == BScanImage(Signals(w, draws, hs), |draws|)
  {
    ghost var ss := Signals(w, draws, hs);
    image := [];
    var col := 0;
    while col < |draws|
      invariant 0 <= col <= |draws|
      invariant image == BScanImage(ss, col)
    {
      var column := GenerateAScan(w, draws[col], hs, col);
      assert ss[col] == Sspan(w, draws[col], hs);
      assert BScanImage(ss, col + 1) == BScanImage(ss, col) + [AScanColumn(ss[col])];
      image := image + [column];
      col := col + 1;
    }
  }
}
