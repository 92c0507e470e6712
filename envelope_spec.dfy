/**
 * Reference definitions of the A-scan envelope pipeline (linspace, peak detection,
 * downsampling, linear interpolation, clamping, the running maximum and the grey
 * conversion), and the facts proved about them. The imperative versions in
 * SignalProcessor, Demodulator and DemodulatorPy are each proved equal to these.
 * Samples are real numbers; IEEE rounding is not modelled.
 */
module EnvelopeSpec {
  import opened Numeric
  import opened Wrappers

  // ---------------------------------------------------------------- linspace

  /** The step `(max-min) / (n-1)` of linspace, for n >= 2. */
  function Step(lo: real, hi: real, n: nat): real
    requires n >= 2
  {
    (hi - lo) / ((n - 1) as real)
  }

  /**
   * linspace(min, max, n): n points from min in equal steps, the last one forced to max.
   * With n <= 1 the filling loop does not run and only max is pushed.
   */
  function LinspaceSpec(lo: real, hi: real, n: nat): (r: seq<real>)
    ensures |r| == if n <= 1 then 1 else n
    ensures r[|r| - 1] == hi
    ensures n >= 2 ==> r[0] == lo
    ensures n >= 2 ==> forall i :: 0 <= i < n - 1 ==> r[i] == lo + (i as real) * Step(lo, hi, n)
  {
    if n <= 1 then [hi]
    else seq(n, i requires 0 <= i < n => if i < n - 1 then lo + (i as real) * Step(lo, hi, n) else hi)
  }

  /** Over the reals, the points of linspace are strictly increasing when min < max. */
  lemma LinspaceIncreasing(lo: real, hi: real, n: nat, i: nat, j: nat)
    requires lo < hi && 2 <= n && i < j < n
    ensures LinspaceSpec(lo, hi, n)[i] < LinspaceSpec(lo, hi, n)[j]
  {
    var st, d := Step(lo, hi, n), (n - 1) as real;
    assert st * d == hi - lo;
    var r := LinspaceSpec(lo, hi, n);
    assert r[i] == lo + (i as real) * st;
    if j < n - 1 {
      assert r[j] == lo + (j as real) * st;
      MulLess(i as real, j as real, st);
    } else {
      MulLess(i as real, d, st);
      assert (i as real) * st < d * st;
    }
  }

  /** Multiplying by a positive factor keeps a strict order. */
  lemma MulLess(a: real, b: real, c: real)
    requires a < b && c > 0.0
    ensures a * c < b * c
  {
    assert (b - a) * c > 0.0;
  }

  // -------------------------------------------------------------- findPeaks

  /** The discrete derivative `m` at x: 0 at the first sample, else the rise from x-1. */
  function Slope(s: seq<real>, x: nat): real
    requires x < |s|
  {
    if x == 0 then 0.0 else s[x] - s[x - 1]
  }

  /** Visiting x records x-1: the previous derivative was >= 0 and this one is < 0. */
  predicate Records(s: seq<real>, x: nat)
    requires x < |s|
  {
    x >= 1 && Slope(s, x - 1) >= 0.0 && Slope(s, x) < 0.0
  }

  /** Index p is a local maximum in the sense of findPeaks. */
  predicate IsPeak(s: seq<real>, p: int)
  {
    0 <= p && p + 1 < |s| && s[p + 1] < s[p] && (p == 0 || s[p] >= s[p - 1])
  }

  /** The indices the detection loop has recorded after visiting x = 0 .. k-1. */
  function ScanPeaks(s: seq<real>, k: nat): (r: seq<int>)
    requires k <= |s|
    ensures |r| <= k
  {
    if k == 0 then []
    else ScanPeaks(s, k - 1) + (if Records(s, k - 1) then [k - 2] else [])
  }

  /** Strictly increasing sequence of integers. */
  predicate Increasing(r: seq<int>)
  {
    forall i, j :: 0 <= i < j < |r| ==> r[i] < r[j]
  }

  /** What the detection loop records before x = k: exactly the peaks p with p + 1 < k, in order. */
  lemma {:induction false} ScanPeaksFacts(s: seq<real>, k: nat)
    requires k <= |s|
    ensures Increasing(ScanPeaks(s, k))
    ensures forall i :: 0 <= i < |ScanPeaks(s, k)| ==> 0 <= ScanPeaks(s, k)[i] && ScanPeaks(s, k)[i] + 2 <= k
    ensures forall p :: p in ScanPeaks(s, k) <==> 0 <= p && p + 2 <= k && IsPeak(s, p)
  {
    if k > 0 {
      ScanPeaksFacts(s, k - 1);
      var x := k - 1;
      if x >= 1 {
        assert Records(s, x) <==> IsPeak(s, x - 1);
      }
    }
  }

  /** A strictly increasing sequence of values in [0, n) has at most n entries. */
  lemma {:induction false} IncreasingBounded(r: seq<int>, n: nat)
    requires Increasing(r)
    requires forall i :: 0 <= i < |r| ==> 0 <= r[i] < n
    ensures |r| <= n
  {
    if |r| > 0 {
      var last := r[|r| - 1];
      var front := r[..|r| - 1];
      assert last < n;
      assert forall i :: 0 <= i < |front| ==> front[i] == r[i];
      assert forall i :: 0 <= i < |front| ==> 0 <= front[i] < n - 1 by {
        forall i | 0 <= i < |front|
          ensures 0 <= front[i] < n - 1
        {
          assert r[i] < last;
        }
      }
      IncreasingBounded(front, n - 1);
      assert |r| == |front| + 1;
    }
  }

  /**
   * findPeaks as the C++ code computes it: the recorded indices, then `len-1` pushed as a
   * `uint16_t` (65535 for an empty signal).
   */
  function PeakIndices(s: seq<real>): (r: seq<int>)
    requires |s| < 0x1_0000
    ensures |r| >= 1 && |r| <= |s| + 1
    ensures |s| >= 1 ==> r[|r| - 1] == |s| - 1
    ensures |s| == 0 ==> r == [0xFFFF]
  {
    ScanPeaks(s, |s|) + [ToU16(|s| - 1)]
  }

  /** The indices findPeaks returns are in range: the part of PeakIndicesShape that callers index with. */
  lemma PeakIndicesInRange(s: seq<real>)
    requires 1 <= |s| < 0x1_0000
    ensures 1 <= |PeakIndices(s)| <= |s|
    ensures forall i :: 0 <= i < |PeakIndices(s)| ==> 0 <= PeakIndices(s)[i] < |s|
  {
    PeakIndicesShape(s);
  }

  /**
   * For a non-empty signal findPeaks returns a non-empty, strictly increasing list of
   * indices below len, ending at len-1, with no more entries than samples; every other
   * index is in it exactly when it is a peak.
   */
  lemma PeakIndicesShape(s: seq<real>)
    requires 1 <= |s| < 0x1_0000
    ensures |PeakIndices(s)| >= 1 && PeakIndices(s)[|PeakIndices(s)| - 1] == |s| - 1
    ensures Increasing(PeakIndices(s))
    ensures forall i :: 0 <= i < |PeakIndices(s)| ==> 0 <= PeakIndices(s)[i] < |s|
    ensures forall p :: 0 <= p < |s| - 1 ==> (p in PeakIndices(s) <==> IsPeak(s, p))
    ensures |PeakIndices(s)| <= |s|
  {
    var r := PeakIndices(s);
    ScanPeaksFacts(s, |s|);
    assert r == ScanPeaks(s, |s|) + [|s| - 1];
    assert forall i :: 0 <= i < |r| - 1 ==> r[i] == ScanPeaks(s, |s|)[i];
    forall p | 0 <= p < |s| - 1
      ensures p in r <==> IsPeak(s, p)
    {
      assert p in r <==> p in ScanPeaks(s, |s|);
    }
    IncreasingBounded(r, |s|);
  }

  // ------------------------------------------------------------- downsample

  /** Two-point blend `(p*hi + (d-p)*lo) / d` of downsample. */
  function Blend(lo: real, hi: real, p: nat, d: nat): real
    requires p < d
  {
    ((p as real) * hi + ((d - p) as real) * lo) / (d as real)
  }

  /**
   * The pass i of downsample as the firmware writes it: the quotient and remainder of
   * `i*(oldsize-1)` by `npts-1` index and weigh the two neighbours.
   */
  lemma DsEntryAt(a: seq<real>, npts: nat, i: nat, m: nat, d: nat, prod: nat, idx: nat, p: nat)
    requires |a| >= 1 && i < npts - 1 && !(|a| == 1 && npts >= 2)
    requires m == |a| - 1 && d == npts - 1 && prod == i * m && idx == prod / d && p == prod % d
    ensures |a| >= 2 && idx + 1 < |a| && p < d
    ensures DsEntry(a, npts, i) == Blend(a[idx], a[idx + 1], p, d)
  {
    QuotientBelow(i, m, d);
  }

  /** The entries of downsample's passes followed by the last sample make up its result. */
  lemma DownsampleAssembled(a: seq<real>, npts: nat, ds: seq<real>)
    requires |a| >= 2 || (|a| == 1 && npts <= 1)
    requires |ds| == (if npts <= 1 then 1 else npts) && ds[|ds| - 1] == a[|a| - 1]
    requires forall j :: 0 <= j < |ds| - 1 ==> npts >= 2 && |a| >= 2 && ds[j] == DsEntry(a, npts, j)
    ensures DownsampleSpec(a, npts) == Success(ds)
  {
    if npts >= 2 {
      var spec := seq(npts, j requires 0 <= j < npts => if j < npts - 1 then DsEntry(a, npts, j) else a[|a| - 1]);
      forall j | 0 <= j < npts
        ensures ds[j] == spec[j]
      {
      }
      assert ds == spec;
    } else {
      assert ds == [a[|a| - 1]];
    }
  }

  /** A blend lies between its two points. */
  lemma BlendBetween(lo: real, hi: real, p: nat, d: nat)
    requires p < d
    ensures lo <= hi ==> lo <= Blend(lo, hi, p, d) <= hi
    ensures hi <= lo ==> hi <= Blend(lo, hi, p, d) <= lo
  {
    var w := (p as real) / (d as real);
    assert 0.0 <= w < 1.0;
    assert Blend(lo, hi, p, d) == lo + w * (hi - lo);
    if lo <= hi {
      assert (1.0 - w) * (hi - lo) >= 0.0;
      assert 0.0 <= w * (hi - lo);
    } else {
      assert (1.0 - w) * (lo - hi) >= 0.0;
      assert 0.0 <= w * (lo - hi);
    }
  }

  /** The quotient `i*(oldsize-1)/(npts-1)` is a valid left neighbour for i < npts-1. */
  lemma QuotientBelow(i: nat, m: nat, d: nat)
    requires i < d && 1 <= m
    ensures i * m / d < m
  {
    var q := i * m / d;
    assert d * q <= i * m;
    assert i * m < d * m by {
      assert (d - i) * m > 0;
    }
    MulBelowOne(d, q - m + 1);
  }

  /** Entry i < npts-1 of downsample: idx and p are quotient and remainder of i*(oldsize-1) / (npts-1). */
  function DsEntry(a: seq<real>, npts: nat, i: nat): real
    requires |a| >= 2 && npts >= 2 && i < npts - 1
  {
    var m, d := |a| - 1, npts - 1;
    QuotientBelow(i, m, d);
    Blend(a[i * m / d], a[i * m / d + 1], i * m % d, d)
  }

  /**
   * downsample(array, npts). The last entry is always `array[oldsize-1]`; with an empty
   * array that read, and with a one-entry array and npts >= 2 the read of `array[1]`,
   * is past the end.
   */
  function DownsampleSpec(a: seq<real>, npts: nat): (r: Result<seq<real>, Fault>)
    ensures r.Success? <==> |a| >= 2 || (|a| == 1 && npts <= 1)
    ensures r.Success? ==> |r.value| == (if npts <= 1 then 1 else npts)
    ensures r.Success? ==> r.value[|r.value| - 1] == a[|a| - 1]
    ensures r.Success? && npts >= 2 ==> r.value[0] == a[0]
  {
    if |a| == 0 || (|a| == 1 && npts >= 2) then Failure(ReadOutOfRange)
    else if npts <= 1 then Success([a[|a| - 1]])
    else Success(seq(npts, i requires 0 <= i < npts => if i < npts - 1 then DsEntry(a, npts, i) else a[|a| - 1]))
  }

  /**
   * downsample evaluates `i*(oldsize-1)` in signed 32-bit `int`; the largest product, of
   * the last pass, is `(npts-2)*(oldsize-1)`. For any array within the capacity of 1000
   * that every caller uses and any `uint16_t` npts, it fits, so no pass overflows there.
   */
  lemma DownsampleProductsFit(oldsize: nat, npts: nat)
    requires oldsize <= 1000 && npts < 0x1_0000
    ensures npts >= 2 ==> (npts - 2) * (oldsize - 1) < 0x8000_0000
  {
    if npts >= 2 && oldsize >= 1 {
      MulAtMost(oldsize - 1, 999, npts - 2);
    }
  }

  lemma MulAtMost(a: nat, b: nat, c: nat)
    requires a <= b
    ensures a * c <= b * c
  {
    assert (b - a) * c >= 0;
  }

  /** Every downsampled entry lies between the two neighbours it blends. */
  lemma DsEntryBetween(a: seq<real>, npts: nat, i: nat)
    requires |a| >= 2 && npts >= 2 && i < npts - 1
    ensures var q := i * (|a| - 1) / (npts - 1);
      q + 1 < |a| &&
      ((a[q] <= a[q + 1] && a[q] <= DsEntry(a, npts, i) <= a[q + 1]) ||
       (a[q + 1] <= a[q] && a[q + 1] <= DsEntry(a, npts, i) <= a[q]))
  {
    var m, d := |a| - 1, npts - 1;
    QuotientBelow(i, m, d);
    BlendBetween(a[i * m / d], a[i * m / d + 1], i * m % d, d);
  }

  /** An entry lies inside any bounds every sample of the input respects. */
  lemma DsEntryWithin(a: seq<real>, npts: nat, i: nat, lo: real, hi: real)
    requires |a| >= 2 && npts >= 2 && i < npts - 1
    requires forall j :: 0 <= j < |a| ==> lo <= a[j] <= hi
    ensures lo <= DsEntry(a, npts, i) <= hi
  {
    var m, d := |a| - 1, npts - 1;
    var q, p := QuotientSplit(i, m, d);
    assert lo <= a[q] <= hi && lo <= a[q + 1] <= hi;
    BlendBetween(a[q], a[q + 1], p, d);
  }

  /** Downsampling keeps every sample inside any bounds the input respects. */
  lemma DownsampleWithin(a: seq<real>, npts: nat, lo: real, hi: real)
    requires DownsampleSpec(a, npts).Success?
    requires forall j :: 0 <= j < |a| ==> lo <= a[j] <= hi
    ensures forall i :: 0 <= i < |DownsampleSpec(a, npts).value| ==> lo <= DownsampleSpec(a, npts).value[i] <= hi
  {
    var r := DownsampleSpec(a, npts).value;
    forall i | 0 <= i < |r|
      ensures lo <= r[i] <= hi
    {
      if npts >= 2 && i < npts - 1 {
        assert r[i] == DsEntry(a, npts, i);
        DsEntryWithin(a, npts, i, lo, hi);
      } else {
        assert r[i] == a[|a| - 1];
      }
    }
  }

  /**
   * A linear ramp `c + k*j` downsamples to the same ramp sampled at the fractional
   * positions `i*(oldsize-1)/(npts-1)`.
   */
  lemma DownsampleRamp(a: seq<real>, npts: nat, c: real, k: real, i: nat)
    requires |a| >= 2 && npts >= 2 && i < npts - 1
    requires forall j :: 0 <= j < |a| ==> a[j] == c + k * (j as real)
    ensures DsEntry(a, npts, i) == c + k * (((i * (|a| - 1)) as real) / ((npts - 1) as real))
  {
    var m, d := |a| - 1, npts - 1;
    var q, p := QuotientSplit(i, m, d);
    var dr, pr, qr := d as real, p as real, q as real;
    assert DsEntry(a, npts, i) == (pr * a[q + 1] + (dr - pr) * a[q]) / dr;
    assert a[q] == c + k * qr;
    assert a[q + 1] == c + k * (qr + 1.0);
    RampBlend(c, k, qr, pr, dr);
  }

  /** The quotient and remainder of `i*m` by d, and their recombination over the reals. */
  lemma QuotientSplit(i: nat, m: nat, d: nat) returns (q: nat, p: nat)
    requires i < d && 1 <= m
    ensures q == i * m / d && p == i * m % d && q < m && p < d
    ensures (d as real) * (q as real) + (p as real) == (i * m) as real
  {
    QuotientBelow(i, m, d);
    q, p := i * m / d, i * m % d;
    assert d * q + p == i * m;
  }

  /** Blending two neighbouring points of a ramp gives the ramp at the fractional position. */
  lemma RampBlend(c: real, k: real, qr: real, pr: real, dr: real)
    requires dr > 0.0
    ensures (pr * (c + k * (qr + 1.0)) + (dr - pr) * (c + k * qr)) / dr == c + k * ((dr * qr + pr) / dr)
  {
    assert pr * (c + k * (qr + 1.0)) + (dr - pr) * (c + k * qr) == dr * c + k * (dr * qr + pr);
    RealDivSplit(c, k, dr * qr + pr, dr);
  }

  lemma RealDivSplit(c: real, k: real, x: real, d: real)
    requires d > 0.0
    ensures (d * c + k * x) / d == c + k * (x / d)
  {
    assert (c + k * (x / d)) * d == d * c + k * x;
  }

  lemma DivSelf(i: nat, m: nat)
    requires m > 0
    ensures i * m / m == i && i * m % m == 0
  {
    DivUnique(i * m, m, i);
  }

  /** Downsampling to the array's own size returns the array unchanged. */
  lemma DownsampleIdentity(a: seq<real>)
    requires |a| >= 2
    ensures DownsampleSpec(a, |a|) == Success(a)
  {
    var n := |a|;
    var r := seq(n, i requires 0 <= i < n => if i < n - 1 then DsEntry(a, n, i) else a[n - 1]);
    assert DownsampleSpec(a, n) == Success(r);
    forall i | 0 <= i < n - 1
      ensures r[i] == a[i]
    {
      DsEntryAtOwnSize(a, i);
    }
    assert r == a;
  }

  lemma DsEntryAtOwnSize(a: seq<real>, i: nat)
    requires |a| >= 2 && i < |a| - 1
    ensures DsEntry(a, |a|, i) == a[i]
  {
    var m := |a| - 1;
    DivSelf(i, m);
    assert DsEntry(a, |a|, i) == Blend(a[i], a[i + 1], 0, m);
  }

  // -------------------------------------------------------------- interpLin

  /** The search loop: advance i while the point is at or beyond x[i+1]. */
  function SearchFrom(x: seq<real>, n: nat, pt: real, i: nat): (r: nat)
    requires n <= |x| && i + 1 < n && x[i] <= pt < x[n - 1]
    ensures i <= r && r + 1 < n && x[r] <= pt < x[r + 1]
    decreases n - i
  {
    if pt < x[i + 1] then i else SearchFrom(x, n, pt, i + 1)
  }

  /** `y0*(1-t) + y1*t`. */
  function Lerp(y0: real, y1: real, t: real): real
  {
    y0 * (1.0 - t) + y1 * t
  }

  /** A linear combination with t in [0, 1] lies between its two ends. */
  lemma LerpBetween(y0: real, y1: real, t: real)
    requires 0.0 <= t <= 1.0
    ensures y0 <= y1 ==> y0 <= Lerp(y0, y1, t) <= y1
    ensures y1 <= y0 ==> y1 <= Lerp(y0, y1, t) <= y0
  {
    Distribute(y0, 1.0, t);
    Distribute(t, y1, y0);
    assert Lerp(y0, y1, t) == y0 + t * (y1 - y0);
    if y0 <= y1 {
      ScaleWithin(t, y1 - y0);
    } else {
      ScaleWithin(t, y0 - y1);
      assert t * (y1 - y0) == -(t * (y0 - y1));
    }
  }

  /** A fraction t in [0, 1] of a non-negative d lies in [0, d]. */
  lemma ScaleWithin(t: real, d: real)
    requires 0.0 <= t <= 1.0 && d >= 0.0
    ensures 0.0 <= t * d <= d
  {
    MulNonNegative(t, d);
    MulNonNegative(1.0 - t, d);
    assert (1.0 - t) * d == d - t * d;
  }

  lemma Distribute(a: real, b: real, c: real)
    ensures a * (b - c) == a * b - a * c
  {
  }

  lemma MulNonNegative(a: real, b: real)
    requires a >= 0.0 && b >= 0.0
    ensures a * b >= 0.0
  {
  }

  lemma FractionBelowOne(a: real, b: real)
    requires 0.0 <= a < b
    ensures 0.0 <= a / b < 1.0
  {
  }

  /** The value v lies between a and b, in either order. */
  predicate Between(v: real, a: real, b: real)
  {
    (a <= v <= b) || (b <= v <= a)
  }

  /**
   * One point of interpLin with extrapolation on, over the first n entries of x and y:
   * flat y[0] at or below x[0], flat y[n-1] at or above x[n-1], otherwise linear
   * between the neighbours x[i] <= pt < x[i+1] found by the search loop.
   */
  function InterpAt(x: seq<real>, y: seq<real>, n: nat, pt: real): (r: real)
    requires 1 <= n <= |x| && n <= |y|
    ensures pt <= x[0] ==> r == y[0]
    ensures x[0] < pt && x[n - 1] <= pt ==> r == y[n - 1]
    ensures x[0] < pt < x[n - 1] ==>
      exists i :: 0 <= i < n - 1 && x[i] <= pt < x[i + 1] && Between(r, y[i], y[i + 1])
  {
    if pt <= x[0] then y[0]
    else if pt >= x[n - 1] then y[n - 1]
    else
      var i := SearchFrom(x, n, pt, 0);
      var t := (pt - x[i]) / (x[i + 1] - x[i]);
      FractionBelowOne(pt - x[i], x[i + 1] - x[i]);
      LerpBetween(y[i], y[i + 1], t);
      Lerp(y[i], y[i + 1], t)
  }

  /** interpLin(x, y, x_new): one point per entry of x_new, using n = |x_new| entries of x and y. */
  function Interp(x: seq<real>, y: seq<real>, xnew: seq<real>): (r: seq<real>)
    requires |xnew| == 0 || (|xnew| <= |x| && |xnew| <= |y|)
    ensures |r| == |xnew|
  {
    seq(|xnew|, k requires 0 <= k < |xnew| => InterpAt(x, y, |xnew|, xnew[k]))
  }

  /** Interpolation keeps every value inside any bounds the first n entries of y respect. */
  lemma InterpWithin(x: seq<real>, y: seq<real>, xnew: seq<real>, lo: real, hi: real)
    requires |xnew| == 0 || (|xnew| <= |x| && |xnew| <= |y|)
    requires forall j :: 0 <= j < |xnew| ==> lo <= y[j] <= hi
    ensures forall k :: 0 <= k < |xnew| ==> lo <= Interp(x, y, xnew)[k] <= hi
  {
    forall k | 0 <= k < |xnew|
      ensures lo <= Interp(x, y, xnew)[k] <= hi
    {
      var n, pt := |xnew|, xnew[k];
      if x[0] < pt < x[n - 1] {
        var v := InterpAt(x, y, n, pt);
        assert Interp(x, y, xnew)[k] == v;
        assert exists i :: 0 <= i < n - 1 && x[i] <= pt < x[i + 1] && Between(v, y[i], y[i + 1]);
        var i :| 0 <= i < n - 1 && x[i] <= pt < x[i + 1] && Between(InterpAt(x, y, n, pt), y[i], y[i + 1]);
        assert lo <= y[i] <= hi && lo <= y[i + 1] <= hi;
      }
    }
  }

  // ------------------------------------------------------------------ clamp

  /** The ceiling `0xFF - gain` of the clamp loop. */
  function Ceiling(gain: u8): (c: real)
    ensures 0.0 <= c <= 255.0
  {
    (0xFF - gain) as real
  }

  /** One sample after the clamp loop: negatives become 0, values above c become c. */
  function ClampSample(v: real, c: real): (r: real)
    requires c >= 0.0
    ensures 0.0 <= r <= c
    ensures 0.0 <= v <= c ==> r == v
  {
    if v < 0.0 then 0.0 else if v > c then c else v
  }

  function ClampAll(s: seq<real>, c: real): (r: seq<real>)
    requires c >= 0.0
    ensures |r| == |s|
    ensures forall i :: 0 <= i < |s| ==> 0.0 <= r[i] <= c
  {
    seq(|s|, i requires 0 <= i < |s| => ClampSample(s[i], c))
  }

  /** Clamping twice is clamping once. */
  lemma ClampIdempotent(s: seq<real>, c: real)
    requires c >= 0.0
    ensures ClampAll(ClampAll(s, c), c) == ClampAll(s, c)
  {
  }

  // --------------------------------------------------- env_max_ and the column

  /** The maximum of m and env[lo..hi), folded in index order as the update loop does. */
  function RunningMax(env: seq<real>, lo: nat, hi: nat, m: real): (r: real)
    requires hi <= |env|
    ensures m <= r
    ensures forall j :: lo <= j < hi ==> env[j] <= r
    ensures r == m || exists j :: lo <= j < hi && r == env[j]
    decreases hi
  {
    if hi <= lo then m
    else
      var r0 := RunningMax(env, lo, hi - 1, m);
      if env[hi - 1] > r0 then env[hi - 1] else r0
  }

  /** The grey level `round(v*255/env_max_)` of one row. */
  function Shade(v: real, envMax: real): (g: int)
    requires envMax != 0.0
    ensures (g as real) - 0.5 <= v * 255.0 / envMax <= (g as real) + 0.5
  {
    CRound(v * 255.0 / envMax)
  }

  /** Every row below nRows converts to a `uint8_t` without leaving 0..255. */
  predicate ShadesFit(env: seq<real>, nRows: nat, envMax: real)
    requires nRows <= |env| && envMax != 0.0
  {
    forall i :: 0 <= i < nRows ==> 0 <= Shade(env[i], envMax) < 0x100
  }

  /** The display height: a column has 112 rows. */
  const ROWS: nat := 112

  /** The display width `IMG_WIDTH`: an image holds 112 columns. */
  const COLS: nat := 112

  /**
   * The column of receiveAScan: rows below nRows hold their grey level, the rest stay
   * black. Dividing by a zero env_max_, or converting a level outside 0..255 to
   * `uint8_t`, has no defined outcome.
   */
  function GreyColumn(env: seq<real>, nRows: nat, envMax: real): (r: Result<seq<u8>, Fault>)
    requires nRows <= ROWS && nRows <= |env|
    ensures r.Success? ==> |r.value| == ROWS
    ensures r == Failure(DivideByZero) <==> nRows >= 1 && envMax == 0.0
    ensures r.Success? ==> forall i :: 0 <= i < nRows ==> r.value[i] == Shade(env[i], envMax)
    ensures r.Success? ==> forall i :: nRows <= i < ROWS ==> r.value[i] == 0
  {
    if nRows == 0 then Success(seq(ROWS, _ => 0))
    else if envMax == 0.0 then Failure(DivideByZero)
    else if !ShadesFit(env, nRows, envMax) then Failure(NarrowingOutOfRange)
    else Success(seq(ROWS, i requires 0 <= i < ROWS => if i < nRows then Shade(env[i], envMax) as u8 else 0))
  }

  /** When every row from 1 on fits, the column has a value exactly when row 0 fits too. */
  lemma GreyColumnRowZero(env: seq<real>, nRows: nat, m: real)
    requires 1 <= nRows <= ROWS && nRows <= |env| && m > 0.0 && 0.0 <= env[0]
    requires forall i :: 1 <= i < nRows ==> 0 <= Shade(env[i], m) <= 255
    ensures GreyColumn(env, nRows, m).Success? <==> Shade(env[0], m) <= 255
  {
    assert 0 <= Shade(env[0], m) by {
      assert env[0] * 255.0 / m >= 0.0;
    }
    assert ShadesFit(env, nRows, m) <==> Shade(env[0], m) <= 255;
  }

  /** A non-negative value at most the maximum gets a grey level in 0..255. */
  lemma ShadeInRange(v: real, envMax: real)
    requires 0.0 <= v <= envMax && envMax > 0.0
    ensures 0 <= Shade(v, envMax) <= 255
  {
    assert v * 255.0 <= envMax * 255.0;
    assert v * 255.0 / envMax <= 255.0;
    CRoundWithin(v * 255.0 / envMax, 255);
  }

  /**
   * With the update loop starting at row 1, every row from 1 on gets a level in 0..255
   * once the maximum is positive; only row 0 can fall outside.
   */
  lemma RowsFromOneFit(env: seq<real>, nRows: nat, m: real, i: nat)
    requires nRows <= |env| && 1 <= i < nRows
    requires forall j :: 0 <= j < nRows ==> 0.0 <= env[j]
    requires RunningMax(env, 1, nRows, m) > 0.0
    ensures 0 <= Shade(env[i], RunningMax(env, 1, nRows, m)) <= 255
  {
    ShadeInRange(env[i], RunningMax(env, 1, nRows, m));
  }

  /**
   * Row 0 is left out of the maximum: a fresh env_max_ of 0 and the rows [2, 1] give a
   * maximum of 1 and a level of 510 for row 0, outside `uint8_t`.
   */
  lemma RowZeroOverflows()
    ensures RunningMax([2.0, 1.0], 1, 2, 0.0) == 1.0
    ensures Shade(2.0, 1.0) == 510
    ensures GreyColumn([2.0, 1.0], 2, RunningMax([2.0, 1.0], 1, 2, 0.0)) == Failure(NarrowingOutOfRange)
  {
    assert !ShadesFit([2.0, 1.0], 2, 1.0) by {
      assert Shade([2.0, 1.0][0], 1.0) == 510;
    }
  }

  /**
   * With the maximum taken from row 0, a non-negative envelope with a positive maximum
   * always yields a column: every row's level is in 0..255.
   */
  lemma CorrectedColumnFits(env: seq<real>, nRows: nat, m: real)
    requires 1 <= nRows <= ROWS && nRows <= |env|
    requires forall j :: 0 <= j < nRows ==> 0.0 <= env[j]
    requires RunningMax(env, 0, nRows, m) > 0.0
    ensures GreyColumn(env, nRows, RunningMax(env, 0, nRows, m)).Success?
  {
    var mx := RunningMax(env, 0, nRows, m);
    forall i | 0 <= i < nRows
      ensures 0 <= Shade(env[i], mx) < 0x100
    {
      ShadeInRange(env[i], mx);
    }
  }
}
