/**
 * src/signal_processor.hpp: the waveform generator, the array helpers (linspace,
 * findPeaks, downsample, interpLin) and SignalProcessor's A-scan and B-scan reception
 * on the generated path. Each helper is a loop proved equal to its reference
 * definition in EnvelopeSpec; the pipeline's own definitions (AScan, BScan) are here,
 * with the facts proved about them.
 */
module SignalProcessing {
  import opened Numeric
  import opened Wrappers
  import opened EnvelopeSpec
  import opened Waveform

  /** `gen::RES`: points generated per waveform. */
  const RES: nat := 200
  /** `gen::TLIM`: the generated time window in microseconds. */
  const TLIM: nat := 8

  // ------------------------------------------------------------ array helpers

  /** linspace(min, max, n), pushing one point per pass. */
  method Linspace(lo: real, hi: real, n: u16) returns (r: seq<real>)
    ensures r == LinspaceSpec(lo, hi, n)
  {
    // with n == 1 the float step is infinite, but no pass of the loop uses it
    var step := if n >= 2 then (hi - lo) / ((n as real) - 1.0) else 0.0;
    r := [];
    var i := 0;
    while i < n - 1
      invariant 0 <= i && (n >= 1 ==> i <= n - 1) && (n == 0 ==> i == 0)
      invariant |r| == i
      invariant forall j :: 0 <= j < i ==> r[j] == lo + (j as real) * Step(lo, hi, n)
    {
      r := r + [lo + (i as real) * step];
      i := i + 1;
    }
    r := r + [hi];
  }

  /**
   * findPeaks: one pass over the signal keeping the previous derivative `m_`; a point
   * is recorded when the derivative turns from >= 0 to < 0, and `len-1` is appended.
   */
  method FindPeaks(signal: seq<real>) returns (peaks: seq<int>)
    requires |signal| < 0x1_0000
    ensures peaks == PeakIndices(signal)
    ensures |signal| >= 1 ==>
      |peaks| >= 1 && peaks[|peaks| - 1] == |signal| - 1 && Increasing(peaks) && |peaks| <= |signal| &&
      (forall i :: 0 <= i < |peaks| ==> 0 <= peaks[i] < |signal|)
  {
    var len := |signal|;
    peaks := [];
    var mPrev := 0.0;
    var x := 0;
    while x < len
      invariant 0 <= x <= len
      invariant peaks == ScanPeaks(signal, x)
      invariant mPrev == if x == 0 then 0.0 else Slope(signal, x - 1)
    {
      var y := signal[x];
      var xPrev := if x - 1 > 0 then x - 1 else 0;
      var yPrev := signal[xPrev];
      var m := if x == 0 then 0.0 else (y - yPrev) / ((x - xPrev) as real);
      if mPrev >= 0.0 && m < 0.0 {
        peaks := peaks + [xPrev];
      }
      mPrev := m;
      x := x + 1;
    }
    peaks := peaks + [ToU16(len - 1)];
    if len >= 1 {
      PeakIndicesShape(signal);
    }
  }

  /**
   * downsample(array, npts): blends neighbours for i < npts-1, then pushes the last
   * entry. The first read past the end (of an empty array, or `array[1]` of a
   * one-entry array) ends the model with a fault. The products `i*(oldsize-1)` are
   * signed 32-bit `int`s, so the last pass's must not overflow.
   */
  method Downsample(a: seq<real>, npts: u16) returns (r: Result<seq<real>, Fault>)
    requires |a| < 0x1_0000
    requires npts >= 2 ==> (npts - 2) * (|a| - 1) < 0x8000_0000
    ensures r == DownsampleSpec(a, npts)
  {
    var oldsize := |a|;
    if oldsize == 0 || (oldsize == 1 && npts >= 2) {
      return Failure(ReadOutOfRange);
    }
    var ds := [];
    var i := 0;
    while i < npts - 1
      invariant 0 <= i && (npts >= 1 ==> i <= npts - 1) && (npts == 0 ==> i == 0)
      invariant |ds| == i
      invariant forall j :: 0 <= j < i ==> ds[j] == DsEntry(a, npts, j)
    {
      var v := BlendPass(a, npts, i);
      ds := ds + [v];
      i := i + 1;
    }
    ds := ds + [a[oldsize - 1]];
    DownsampleAssembled(a, npts, ds);
    return Success(ds);
  }

  /** One pass of downsample's loop: `idx` and `p` from `i*(oldsize-1)`, then the blend. */
  method BlendPass(a: seq<real>, npts: u16, i: nat) returns (v: real)
    requires |a| >= 1 && i < npts - 1 && !(|a| == 1 && npts >= 2)
    ensures |a| >= 2 && v == DsEntry(a, npts, i)
  {
    var m, d := |a| - 1, npts - 1;
    var prod: nat := i * m;
    var idx := prod / d;
    var p := prod % d;
    DsEntryAt(a, npts, i, m, d, prod, idx, p);
    v := Blend(a[idx], a[idx + 1], p, d);
  }

  /**
   * interpLin(x, y, x_new) with extrapolation on: flat beyond the ends, otherwise a
   * search loop for the bracketing pair followed by a linear combination.
   */
  method InterpLin(x: seq<real>, y: seq<real>, xnew: seq<real>) returns (ynew: seq<real>)
    requires |xnew| < 0x1_0000
    requires |xnew| == 0 || (|xnew| <= |x| && |xnew| <= |y|)
    ensures ynew == Interp(x, y, xnew)
  {
    var n := |xnew|;
    ynew := [];
    var k := 0;
    while k < n
      invariant 0 <= k <= n && |ynew| == k
      invariant forall j :: 0 <= j < k ==> ynew[j] == InterpAt(x, y, n, xnew[j])
    {
      var pt := xnew[k];
      if pt <= x[0] {
        ynew := ynew + [y[0]];
      } else if pt >= x[n - 1] {
        ynew := ynew + [y[n - 1]];
      } else {
        var i := 0;
        while pt >= x[i + 1]
          invariant 0 <= i && i + 1 < n && x[i] <= pt
          invariant SearchFrom(x, n, pt, i) == SearchFrom(x, n, pt, 0)
          decreases n - i
        {
          i := i + 1;
        }
        var t := (pt - x[i]) / (x[i + 1] - x[i]);
        ynew := ynew + [y[i] * (1.0 - t) + y[i + 1] * t];
      }
      k := k + 1;
    }
  }

  /** The clamp loop of receiveAScan, in place: negatives to 0, then a ceiling of `0xFF - gain`. */
  method Clamp(signal: array<real>, gain: u8)
    modifies signal
    ensures signal[..] == ClampAll(old(signal[..]), Ceiling(gain))
  {
    var c := (0xFF - gain) as real;
    var i := 0;
    while i < signal.Length
      invariant 0 <= i <= signal.Length
      invariant forall j :: 0 <= j < i ==> signal[j] == ClampSample(old(signal[j]), c)
      invariant forall j :: i <= j < signal.Length ==> signal[j] == old(signal[j])
    {
      if signal[i] < 0.0 {
        signal[i] := 0.0;
      }
      if signal[i] > c {
        signal[i] := c;
      }
      i := i + 1;
    }
  }

  // --------------------------------------------------------- SignalGenerator

  /** The time axis `linspace(0, TLIM, RES)` of the generator. */
  function Tspan(): (r: seq<real>)
    ensures |r| == RES && r[RES - 1] == TLIM as real && r[0] == 0.0
  {
    LinspaceSpec(0.0, TLIM as real, RES)
  }

  /** The truncated echo time of echo t. */
  function EchoTime(t: nat): (h: u16)
    requires t < |ECHO_POS|
    ensures h == EchoTimes()[t] && h <= 7
  {
    var hs := EchoTimes();
    assert hs[t] == Trunc(ECHO_POS[t]);
    Trunc(ECHO_POS[t])
  }

  /** `tstart = int(t*RES/TLIM)` stored in a `uint16_t`: 25 samples per microsecond. */
  function EchoStart(t: u16): (s: u16)
    ensures t <= 7 ==> s == 25 * t
  {
    ToU16(t * RES / TLIM)
  }

  /** The seven echoes of generateEchoes, echo t drawing its amplitudes from draws(t). */
  function GeneratedEchoes(w: Shape, draws: nat -> nat -> real): (es: seq<seq<real>>)
    ensures |es| == |ECHO_POS| && Uniform(es, RES)
    ensures forall t :: 0 <= t < |es| ==> NonNegative(es[t])
  {
    var es := seq(|ECHO_POS|, t requires 0 <= t < |ECHO_POS| => GeneratedEcho(w, draws(t), t));
    assert forall t :: 0 <= t < |es| ==> es[t] == GeneratedEcho(w, draws(t), t);
    es
  }

  /** Echo t of generateEchoes: echo time ECHO_POS[t] truncated, floor k = 0. */
  function GeneratedEcho(w: Shape, amps: nat -> real, t: nat): (e: seq<real>)
    requires t < |ECHO_POS|
    ensures |e| == RES && NonNegative(e)
  {
    Echo(w, amps, Tspan(), EchoTime(t) as real, EchoStart(EchoTime(t)), RES, DEVICE_FLOOR as real)
  }

  /** The generated waveform: the weighted sum of the seven echoes, non-negative. */
  function GeneratedSignal(w: Shape, draws: nat -> nat -> real): (s: seq<real>)
    ensures |s| == RES && NonNegative(s)
  {
    MixNonNegative(GeneratedEchoes(w, draws), RES);
    Mix(GeneratedEchoes(w, draws), RES)
  }

  /** generateEcho(tspan, t): zero before tstart, then the waveform sample with k = 0. */
  method GenerateEcho(w: Shape, amps: nat -> real, tspan: seq<real>, t: u16) returns (echo: seq<real>)
    requires |tspan| >= RES
    ensures echo == Echo(w, amps, tspan, t as real, EchoStart(t), RES, DEVICE_FLOOR as real)
  {
    var tstart := ToU16(t * RES / TLIM);
    var k := DEVICE_FLOOR as real;
    echo := [];
    var i := 0;
    while i < RES
      invariant 0 <= i <= RES && |echo| == i
      invariant forall j :: 0 <= j < i ==> echo[j] == EchoAt(w, amps, tspan, t as real, tstart, k, j)
    {
      if i < tstart {
        echo := echo + [0.0];
      } else {
        var amp := amps(i);
        var cyc := w.carrier(tspan[i]);
        var cycDecay := w.ringing(amp, tspan[i], t as real) + k;
        var expDecay := w.decay(amp, tspan[i], t as real) + k;
        echo := echo + [Abs(cyc * cycDecay * expDecay)];
      }
      i := i + 1;
    }
  }

  /** generateEchoes: a zero-filled buffer to which every echo t adds `echo[i]/(t+3)`. */
  method GenerateEchoes(w: Shape, draws: nat -> nat -> real) returns (echoes: seq<real>)
    ensures echoes == GeneratedSignal(w, draws)
  {
    var buf := new real[RES](_ => 0.0);
    var tspan := Linspace(0.0, TLIM as real, RES as u16);
    ghost var es := GeneratedEchoes(w, draws);
    var t := 0;
    while t < |ECHO_POS|
      invariant 0 <= t <= |ECHO_POS|
      invariant buf[..] == Mix(es[..t], RES)
    {
      var echo := GenerateEcho(w, draws(t), tspan, EchoTime(t));
      assert echo == es[t];
      AddWeighted(buf, echo, t);
      MixStep(es, RES, t);
      t := t + 1;
    }
    assert es[..|ECHO_POS|] == es;
    echoes := buf[..];
  }

  /** The inner loop of generateEchoes: `echoes[i] += echo[i]/(t+3)` for every i. */
  method AddWeighted(buf: array<real>, echo: seq<real>, t: nat)
    requires |echo| == buf.Length
    modifies buf
    ensures buf[..] == AddEcho(old(buf[..]), echo, t)
  {
    var i := 0;
    while i < buf.Length
      invariant 0 <= i <= buf.Length
      invariant forall j :: 0 <= j < i ==> buf[j] == old(buf[j]) + echo[j] / ((t + 3) as real)
      invariant forall j :: i <= j < buf.Length ==> buf[j] == old(buf[j])
    {
      buf[i] := buf[i] + echo[i] / ((t + 3) as real);
      i := i + 1;
    }
  }

  // ------------------------------------------------------ the A-scan pipeline

  /**
   * The envelope of one clamped signal: the time and value at every peak, both
   * downsampled to n_rows points, then the values interpolated onto
   * `linspace(0, 1*tspan[RES-1], n_rows)`.
   */
  function Envelope(s: seq<real>, nRows: nat): (r: Result<seq<real>, Fault>)
    requires |s| == RES
    ensures r.Success? ==> |r.value| == (if nRows <= 1 then 1 else nRows)
  {
    PeakIndicesInRange(s);
    var idx := PeakIndices(s);
    var tspan := Tspan();
    var peaks := seq(|idx|, i requires 0 <= i < |idx| => tspan[idx[i]]);
    var envelope := seq(|idx|, i requires 0 <= i < |idx| => s[idx[i]]);
    match DownsampleSpec(peaks, nRows)
    case Failure(e) => Failure(e)
    case Success(peaksDs) =>
      match DownsampleSpec(envelope, nRows)
      case Failure(e) => Failure(e)
      case Success(envDs) => Success(Interp(peaksDs, envDs, LinspaceSpec(0.0, 1.0 * tspan[RES - 1], nRows)))
  }

  /** The envelope stays inside any bounds [lo, hi] the signal respects. */
  lemma EnvelopeWithin(s: seq<real>, nRows: nat, lo: real, hi: real)
    requires |s| == RES && Envelope(s, nRows).Success?
    requires forall i :: 0 <= i < |s| ==> lo <= s[i] <= hi
    ensures forall i :: 0 <= i < |Envelope(s, nRows).value| ==> lo <= Envelope(s, nRows).value[i] <= hi
  {
    PeakIndicesInRange(s);
    var idx := PeakIndices(s);
    var tspan := Tspan();
    var peaks := seq(|idx|, i requires 0 <= i < |idx| => tspan[idx[i]]);
    var envelope := seq(|idx|, i requires 0 <= i < |idx| => s[idx[i]]);
    var peaksDs := DownsampleSpec(peaks, nRows).value;
    var envDs := DownsampleSpec(envelope, nRows).value;
    DownsampleWithin(envelope, nRows, lo, hi);
    var xnew := LinspaceSpec(0.0, 1.0 * tspan[RES - 1], nRows);
    InterpWithin(peaksDs, envDs, xnew, lo, hi);
    assert Envelope(s, nRows).value == Interp(peaksDs, envDs, xnew);
  }

  /**
   * The last stage of receiveAScan on an envelope: fold rows 1..n_rows-1 into env_max_,
   * then convert every row. Returns the column and the new env_max_.
   */
  function Convert(env: seq<real>, nRows: nat, envMax: real): (r: (Result<seq<u8>, Fault>, real))
    requires nRows <= ROWS && nRows <= |env|
    ensures r.1 == RunningMax(env, 1, nRows, envMax) && r.1 >= envMax
    ensures r.0 == GreyColumn(env, nRows, r.1)
  {
    var m := RunningMax(env, 1, nRows, envMax);
    (GreyColumn(env, nRows, m), m)
  }

  /**
   * When the envelope is non-negative and the new env_max_ is positive, the column fails
   * exactly when row 0, which the maximum leaves out, maps above 255; every other row
   * gets a level in 0..255.
   */
  lemma ConvertOnlyRowZeroOverflows(env: seq<real>, nRows: nat, envMax: real)
    requires 1 <= nRows <= ROWS && nRows <= |env|
    requires forall i :: 0 <= i < nRows ==> 0.0 <= env[i]
    requires Convert(env, nRows, envMax).1 > 0.0
    ensures var m := Convert(env, nRows, envMax).1;
      (forall i :: 1 <= i < nRows ==> 0 <= Shade(env[i], m) <= 255) &&
      (Convert(env, nRows, envMax).0.Success? <==> Shade(env[0], m) <= 255)
  {
    var m := RunningMax(env, 1, nRows, envMax);
    forall i | 1 <= i < nRows
      ensures 0 <= Shade(env[i], m) <= 255
    {
      RowsFromOneFit(env, nRows, envMax, i);
    }
    GreyColumnRowZero(env, nRows, m);
  }

  /** One receiveAScan on a signal: clamp, build the envelope, convert. */
  function AScan(s: seq<real>, nRows: nat, gain: u8, envMax: real): (r: (Result<seq<u8>, Fault>, real))
    requires |s| == RES && nRows <= ROWS
    ensures r.1 >= envMax
    ensures r.0.Success? ==> |r.0.value| == ROWS
  {
    match Envelope(ClampAll(s, Ceiling(gain)), nRows)
    case Failure(e) => (Failure(e), envMax)
    case Success(env) => Convert(env, nRows, envMax)
  }

  /** The envelope of a clamped signal lies in [0, 255-gain]. */
  lemma AScanEnvelopeWithin(s: seq<real>, nRows: nat, gain: u8)
    requires |s| == RES && Envelope(ClampAll(s, Ceiling(gain)), nRows).Success?
    ensures var env := Envelope(ClampAll(s, Ceiling(gain)), nRows).value;
      forall i :: 0 <= i < |env| ==> 0.0 <= env[i] <= Ceiling(gain)
  {
    EnvelopeWithin(ClampAll(s, Ceiling(gain)), nRows, 0.0, Ceiling(gain));
  }

  /** receiveBScan: n_cols A-scans in order, env_max_ carried from each to the next. */
  function BScan(signals: seq<seq<real>>, nRows: nat, gain: u8, envMax: real): (r: (seq<Result<seq<u8>, Fault>>, real))
    requires nRows <= ROWS
    requires forall c :: 0 <= c < |signals| ==> |signals[c]| == RES
    ensures |r.0| == |signals| && r.1 >= envMax
  {
    if |signals| == 0 then ([], envMax)
    else
      var prev := BScan(signals[..|signals| - 1], nRows, gain, envMax);
      var col := AScan(signals[|signals| - 1], nRows, gain, prev.1);
      (prev.0 + [col.0], col.1)
  }

  /** One more signal adds one A-scan column, taken with the env_max_ left so far. */
  lemma BScanStep(ss: seq<seq<real>>, c: nat, nRows: nat, gain: u8, envMax: real)
    requires nRows <= ROWS && c < |ss|
    requires forall k :: 0 <= k < |ss| ==> |ss[k]| == RES
    ensures var prev := BScan(ss[..c], nRows, gain, envMax);
      var col := AScan(ss[c], nRows, gain, prev.1);
      BScan(ss[..c + 1], nRows, gain, envMax) == (prev.0 + [col.0], col.1)
  {
    assert ss[..c + 1][..c] == ss[..c];
  }

  /**
   * Column c of a B-scan is the A-scan of signal c, taken with the env_max_ left by the
   * columns before it, which is at least the starting value.
   */
  lemma {:induction false} BScanColumn(signals: seq<seq<real>>, nRows: nat, gain: u8, envMax: real, c: nat)
    requires nRows <= ROWS && c < |signals|
    requires forall k :: 0 <= k < |signals| ==> |signals[k]| == RES
    ensures var before := BScan(signals[..c], nRows, gain, envMax).1;
      before >= envMax &&
      BScan(signals, nRows, gain, envMax).0[c] == AScan(signals[c], nRows, gain, before).0
    decreases |signals|
  {
    var n := |signals|;
    var front := signals[..n - 1];
    var prev := BScan(front, nRows, gain, envMax);
    var last := AScan(signals[n - 1], nRows, gain, prev.1);
    assert BScan(signals, nRows, gain, envMax) == (prev.0 + [last.0], last.1);
    if c < n - 1 {
      assert front[..c] == signals[..c];
      assert front[c] == signals[c];
      BScanColumn(front, nRows, gain, envMax, c);
      assert (prev.0 + [last.0])[c] == prev.0[c];
      assert BScan(signals, nRows, gain, envMax).0[c] == prev.0[c];
    } else {
      assert signals[..c] == front;
      assert (prev.0 + [last.0])[c] == last.0;
      assert BScan(signals, nRows, gain, envMax).0[c] == last.0;
    }
  }

  /** The generated signals of n_cols columns, column c drawing from draws[c]. */
  function Signals(w: Shape, draws: seq<nat -> nat -> real>): (ss: seq<seq<real>>)
    ensures |ss| == |draws| && forall c :: 0 <= c < |ss| ==> |ss[c]| == RES
  {
    seq(|draws|, c requires 0 <= c < |draws| => GeneratedSignal(w, draws[c]))
  }

  // ------------------------------------------------------- SignalProcessor

  /** SignalProcessor with its static running maximum `env_max_`, initially 0. */
  class SignalProcessor {
    var envMax: real

    constructor ()
      ensures envMax == 0.0
    {
      envMax := 0.0;
    }

    /**
     * receiveAScan on the generated path: generate, copy into the signal buffer, clamp,
     * build the envelope, then fold env_max_ and convert.
     */
    method ReceiveAScan(w: Shape, draws: nat -> nat -> real, nRows: u16, gain: u8) returns (col: Result<seq<u8>, Fault>)
      requires nRows <= ROWS
      modifies this
      ensures (col, envMax) == AScan(GeneratedSignal(w, draws), nRows, gain, old(envMax))
    {
      var gen := GenerateEchoes(w, draws);
      var signal := new real[RES](i requires 0 <= i < RES => gen[i]);
      assert signal[..] == gen;
      Clamp(signal, gain);
      var env := PeakEnvelope(signal[..], nRows);
      if env.Failure? {
        return Failure(env.error);
      }
      col := ConvertEnvelope(env.value, nRows);
    }

    /**
     * The envelope stage of receiveAScan: find the peaks, collect their times and values,
     * downsample both to n_rows points and interpolate onto the display's time axis.
     */
    static method PeakEnvelope(s: seq<real>, nRows: u16) returns (r: Result<seq<real>, Fault>)
      requires |s| == RES
      ensures r == Envelope(s, nRows)
    {
      var peaksIdx := FindPeaks(s);
      var tspan := Linspace(0.0, TLIM as real, RES as u16);
      var peaks, envelope := [], [];
      var i := 0;
      while i < |peaksIdx|
        invariant 0 <= i <= |peaksIdx| && |peaks| == i && |envelope| == i
        invariant forall j :: 0 <= j < i ==> peaks[j] == tspan[peaksIdx[j]] && envelope[j] == s[peaksIdx[j]]
      {
        peaks := peaks + [tspan[peaksIdx[i]]];
        envelope := envelope + [s[peaksIdx[i]]];
        i := i + 1;
      }
      assert peaks == seq(|peaksIdx|, j requires 0 <= j < |peaksIdx| => tspan[peaksIdx[j]]);
      assert envelope == seq(|peaksIdx|, j requires 0 <= j < |peaksIdx| => s[peaksIdx[j]]);
      DownsampleProductsFit(|peaks|, nRows as nat);
      var peaksDs := Downsample(peaks, nRows);
      if peaksDs.Failure? {
        return Failure(peaksDs.error);
      }
      var envDs := Downsample(envelope, nRows);
      if envDs.Failure? {
        return Failure(envDs.error);
      }
      var xnew := Linspace(0.0, 1.0 * tspan[RES - 1], nRows);
      var env := InterpLin(peaksDs.value, envDs.value, xnew);
      r := Success(env);
    }

    /**
     * The last stage of receiveAScan: env_max_ takes the largest of rows 1..n_rows-1,
     * then every row is converted against it.
     */
    method ConvertEnvelope(env: seq<real>, nRows: u16) returns (col: Result<seq<u8>, Fault>)
      requires nRows <= ROWS && nRows <= |env|
      modifies this
      ensures (col, envMax) == Convert(env, nRows, old(envMax))
    {
      var r := 1;
      while r < nRows
        invariant 1 <= r && (nRows >= 1 ==> r <= nRows)
        invariant nRows >= 1 ==> envMax == RunningMax(env, 1, r, old(envMax))
        invariant nRows == 0 ==> envMax == old(envMax)
      {
        if env[r] > envMax {
          envMax := env[r];
        }
        r := r + 1;
      }
      col := GreyLevels(env, nRows, envMax);
    }

    /** The conversion loop of receiveAScan: row r becomes `round(env[r]*255/env_max_)` narrowed to a byte. */
    static method GreyLevels(env: seq<real>, nRows: u16, m: real) returns (col: Result<seq<u8>, Fault>)
      requires nRows <= ROWS && nRows <= |env|
      ensures col == GreyColumn(env, nRows, m)
    {
      var column: seq<u8> := seq(ROWS, _ => 0);
      var r := 0;
      while r < nRows
        invariant 0 <= r <= nRows && |column| == ROWS
        invariant r > 0 ==> m != 0.0
        invariant forall j :: 0 <= j < r ==> 0 <= Shade(env[j], m) < 0x100 && column[j] == Shade(env[j], m)
        invariant forall j :: r <= j < ROWS ==> column[j] == 0
      {
        if m == 0.0 {
          return Failure(DivideByZero);
        }
        var g := CRound(env[r] * 255.0 / m);
        if !(0 <= g < 0x100) {
          assert !ShadesFit(env, nRows, m);
          return Failure(NarrowingOutOfRange);
        }
        column := column[r := g];
        r := r + 1;
      }
      if nRows == 0 {
        assert column == seq(ROWS, _ => 0);
      } else {
        assert ShadesFit(env, nRows, m);
        assert column == seq(ROWS, i requires 0 <= i < ROWS => if i < nRows then Shade(env[i], m) as u8 else 0);
      }
      col := Success(column);
    }

    /** receiveBScan: n_cols calls of receiveAScan, appended in order. */
    method ReceiveBScan(w: Shape, draws: seq<nat -> nat -> real>, nRows: u16, nCols: u16, gain: u8)
      returns (image: seq<Result<seq<u8>, Fault>>)
      requires nRows <= ROWS && nCols <= COLS && |draws| == nCols
      modifies this
      ensures (image, envMax) == BScan(Signals(w, draws), nRows, gain, old(envMax))
    {
      ghost var ss := Signals(w, draws);
      image := [];
      var c := 0;
      while c < nCols
        invariant 0 <= c <= nCols
        invariant (image, envMax) == BScan(ss[..c], nRows, gain, old(envMax))
      {
        var column := ReceiveAScan(w, draws[c], nRows, gain);
        BScanStep(ss, c, nRows, gain, old(envMax));
        image := image + [column];
        c := c + 1;
      }
      assert ss[..nCols] == ss;
    }
  }
}
