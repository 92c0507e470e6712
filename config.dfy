/**
 * The device configuration (namespace cfg of config.hpp): ten 16-bit slots with their
 * defaults, a copy-in update that raises a flag, and getters that read fixed slots in
 * the width of their return type.
 */
module Config {
  import opened Numeric
  import opened Wrappers

  /** Number of configuration slots loaded by SETUP. */
  const N_CFG: nat := 10

  /** The contents of `config_`: exactly N_CFG 16-bit values. */
  type Slots = s: seq<u16> | |s| == 10 witness [10, 1, 100, 1000, 0, 1000, 10, 1550, 1, 40]

  /**
   * The defaults: frequency 10, image scale 1, sampling rate 100, 1000 global points,
   * window 0..1000, gain 10, speed of sound 1550, B-scan display on (true is 1), plane 40.
   */
  const DEFAULTS: Slots := [10, 1, 100, 1000, 0, 1000, 10, 1550, 1, 40]

  // The getters: each reads a fixed slot and converts it to its return type.
  function Freq(c: Slots): u8 { ToU8(c[0]) }
  function ImgScale(c: Slots): u8 { ToU8(c[1]) }
  function SampRate(c: Slots): u16 { c[2] }
  function NumPtsGlobal(c: Slots): u16 { c[3] }
  function MinT(c: Slots): u16 { c[4] }
  function MaxT(c: Slots): u16 { c[5] }
  function Gain(c: Slots): u8 { ToU8(c[6]) }
  function SpeedSound(c: Slots): u16 { c[7] }
  function BscanDP(c: Slots): bool { c[8] != 0 }
  function SelectPlane(c: Slots): u8 { ToU8(c[9]) }

  /**
   * `maxT()-minT()` computed in `int` and returned as `uint16_t`: the window length,
   * wrapped by 65536 when the window is reversed.
   */
  function NumPtsLocal(c: Slots): (n: u16)
    ensures MinT(c) <= MaxT(c) ==> n == MaxT(c) - MinT(c)
    ensures MinT(c) > MaxT(c) ==> n == MaxT(c) - MinT(c) + 0x1_0000
  {
    ToU16(MaxT(c) - MinT(c))
  }

  /**
   * `(float) numPtsGlobal() / (float) sampRate()`: the acquisition time, which has no
   * value when the sampling rate is 0.
   */
  function AcqTime(c: Slots): (r: Result<real, Fault>)
    ensures r.Success? <==> SampRate(c) != 0
    ensures r.Success? ==> r.value * (SampRate(c) as real) == NumPtsGlobal(c) as real
    ensures r.Success? ==> r.value >= 0.0
  {
    if SampRate(c) == 0 then Failure(DivideByZero)
    else Success((NumPtsGlobal(c) as real) / (SampRate(c) as real))
  }

  /** The byte-wide getters keep their slot modulo 256; bscanDP is "slot 8 is non-zero". */
  lemma NarrowGetters(c: Slots)
    ensures Freq(c) == c[0] % 0x100 && ImgScale(c) == c[1] % 0x100
    ensures Gain(c) == c[6] % 0x100 && SelectPlane(c) == c[9] % 0x100
    ensures c[6] == 0x10A ==> Gain(c) == 10
  {
  }

  /** What the getters report with the default configuration. */
  lemma DefaultReadings()
    ensures Freq(DEFAULTS) == 10 && ImgScale(DEFAULTS) == 1 && Gain(DEFAULTS) == 10
    ensures SampRate(DEFAULTS) == 100 && NumPtsGlobal(DEFAULTS) == 1000
    ensures NumPtsLocal(DEFAULTS) == 1000 && AcqTime(DEFAULTS) == Success(10.0)
    ensures SpeedSound(DEFAULTS) == 1550 && BscanDP(DEFAULTS) && SelectPlane(DEFAULTS) == 40
  {
  }

  /** A reversed window wraps: minT 1000 and maxT 0 give 64536 points. */
  lemma ReversedWindowWraps(c: Slots)
    requires MinT(c) == 1000 && MaxT(c) == 0
    ensures NumPtsLocal(c) == 64536
  {
  }

  /** The global store `config_` with its update flag `config_update_`. */
  class ConfigStore {
    const config: array<u16>
    var configUpdate: bool

    ghost predicate Valid()
      reads this
    {
      config.Length == N_CFG
    }

    /** The slot values currently stored. */
    function Current(): Slots
      reads this, config
      requires Valid()
    {
      config[..]
    }

    /** Start-up: the defaults, no update scheduled. */
    constructor()
      ensures Valid() && fresh(config)
      ensures Current() == DEFAULTS && !configUpdate
    {
      config := new u16[10] [10, 1, 100, 1000, 0, 1000, 10, 1550, 1, 40];
      configUpdate := false;
    }

    /** update(config): copies the ten values at once and raises the flag. */
    method Update(incoming: array<u16>)
      requires Valid() && incoming.Length == N_CFG
      modifies this, config
      ensures Valid() && Current() == old(incoming[..]) && configUpdate
    {
      var i := 0;
      while i < N_CFG
        invariant 0 <= i <= N_CFG
        invariant forall j :: 0 <= j < i ==> config[j] == old(incoming[j])
        invariant forall j :: i <= j < N_CFG ==> incoming[j] == old(incoming[j])
      {
        config[i] := incoming[i];
        i := i + 1;
      }
      configUpdate := true;
    }

    /** finishUpdate: lowers the flag; the values stay. */
    method FinishUpdate()
      requires Valid()
      modifies this
      ensures Valid() && !configUpdate && Current() == old(Current())
    {
      configUpdate := false;
    }

    /** scheduledUpdate: reports the flag and changes nothing. */
    method ScheduledUpdate() returns (scheduled: bool)
      ensures scheduled == configUpdate
    {
      scheduled := configUpdate;
    }
  }
}
