/**
 * The structure of the simulated pulse-echo waveform shared by SignalGenerator,
 * Demodulator::generateEcho and gen_echo. The sine, exponential and random amplitude
 * values are not modelled: a Shape supplies them, and only the parts that do not
 * depend on them are fixed here (the zero prefix, the absolute value, the floor k,
 * and the weighting by `1/(index+3)` when echoes are summed).
 */
module Waveform {
  import opened Numeric

  /**
   * The floating-point terms of one sample: `sin(40*tau)`, the amplitude-scaled
   * sinc-like ringing around the echo time h, and the exponential decay after it.
   */
  datatype Shape = Shape(
    carrier: real -> real,
    ringing: (real, real, real) -> real,  // (A, tau, h)
    decay: (real, real, real) -> real)    // (A, tau, h)

  /** `abs(cyc * cyc_decay * exp_decay)` with the floor k added to both decay terms. */
  function Sample(w: Shape, amp: real, tau: real, h: real, k: real): (v: real)
    ensures v >= 0.0
    ensures w.carrier(tau) == 0.0 ==> v == 0.0
  {
    Abs(w.carrier(tau) * (w.ringing(amp, tau, h) + k) * (w.decay(amp, tau, h) + k))
  }

  /** The firmware's `const uint8_t k = 0.2`: the conversion truncates the floor to 0. */
  const DEVICE_FLOOR: int := Trunc(0.2)

  lemma DeviceFloorIsZero()
    ensures DEVICE_FLOOR == 0
  {
  }

  /**
   * One generated echo of the firmware: res samples over tspan, zero before tstart and
   * afterwards the waveform sample with the i-th random amplitude and floor k.
   */
  function Echo(w: Shape, amps: nat -> real, tspan: seq<real>, h: real, tstart: int, res: nat, k: real): (e: seq<real>)
    requires |tspan| >= res
    ensures |e| == res
    ensures forall i :: 0 <= i < res ==> e[i] >= 0.0
    ensures forall i :: 0 <= i < res && i < tstart ==> e[i] == 0.0
  {
    seq(res, i requires 0 <= i < res => EchoAt(w, amps, tspan, h, tstart, k, i))
  }

  function EchoAt(w: Shape, amps: nat -> real, tspan: seq<real>, h: real, tstart: int, k: real, i: nat): (v: real)
    requires i < |tspan|
    ensures v >= 0.0 && (i < tstart ==> v == 0.0)
  {
    if i < tstart then 0.0 else Sample(w, amps(i), tspan[i], h, k)
  }

  /** A sequence of non-negative samples. */
  predicate NonNegative(s: seq<real>)
  {
    forall i :: 0 <= i < |s| ==> s[i] >= 0.0
  }

  /** Every echo has res samples. */
  predicate Uniform(es: seq<seq<real>>, res: nat)
  {
    forall t :: 0 <= t < |es| ==> |es[t]| == res
  }

  /** The sum of the echoes, the t-th divided by t+3, starting from a zero-filled buffer. */
  function Mix(es: seq<seq<real>>, res: nat): (r: seq<real>)
    requires Uniform(es, res)
    ensures |r| == res
  {
    if |es| == 0 then seq(res, _ => 0.0)
    else AddEcho(Mix(es[..|es| - 1], res), es[|es| - 1], |es| - 1)
  }

  /** Echo t added to a buffer: every sample divided by t+3, entry by entry. */
  function AddEcho(buf: seq<real>, e: seq<real>, t: nat): (r: seq<real>)
    requires |e| == |buf|
    ensures |r| == |buf|
  {
    seq(|buf|, i requires 0 <= i < |buf| => buf[i] + e[i] / ((t + 3) as real))
  }

  /** Mixing one more echo t adds it to the mix of the echoes before it. */
  lemma MixStep(es: seq<seq<real>>, res: nat, t: nat)
    requires Uniform(es, res) && t < |es|
    ensures Uniform(es[..t], res) && Uniform(es[..t + 1], res)
    ensures Mix(es[..t + 1], res) == AddEcho(Mix(es[..t], res), es[t], t)
  {
    assert es[..t + 1][..t] == es[..t];
  }

  /** A mix of non-negative echoes is non-negative. */
  lemma {:induction false} MixNonNegative(es: seq<seq<real>>, res: nat)
    requires Uniform(es, res)
    requires forall t :: 0 <= t < |es| ==> NonNegative(es[t])
    ensures NonNegative(Mix(es, res))
  {
    if |es| > 0 {
      var front := es[..|es| - 1];
      assert forall t :: 0 <= t < |front| ==> front[t] == es[t];
      MixNonNegative(front, res);
      var e := es[|es| - 1];
      assert NonNegative(e);
      forall i | 0 <= i < res
        ensures Mix(es, res)[i] >= 0.0
      {
        assert e[i] / ((|es| - 1 + 3) as real) >= 0.0;
        assert Mix(es, res)[i] == Mix(front, res)[i] + e[i] / ((|es| - 1 + 3) as real);
      }
    }
  }

  /** The simulated echo times in microseconds. */
  const ECHO_POS: seq<real> := [0.0, 1.3, 3.2, 3.8, 5.0, 6.0, 7.0]

  /** The echo times as the `uint16_t t` parameter receives them: each truncated. */
  function EchoTimes(): (hs: seq<int>)
    ensures hs == [0, 1, 3, 3, 5, 6, 7]
  {
    seq(|ECHO_POS|, t requires 0 <= t < |ECHO_POS| => Trunc(ECHO_POS[t]))
  }
}
