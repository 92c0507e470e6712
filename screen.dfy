/**
 * The screen layout (display/screen.hpp): the image area left between the title bar
 * and the two sidebars, and uniform columns of one grey shade.
 */
module Screen {
  import opened Numeric
  import Demodulator

  const TOP_HEIGHT: nat := 16
  const SIDE_WIDTH_LEFT: nat := 28
  const SIDE_WIDTH_RIGHT: nat := 20
  /** The screen before rotation: 128 wide and 160 high. */
  const SCREEN_HEIGHT: nat := 160
  const SCREEN_WIDTH: nat := 128

  /** Rows of the image: the rotated screen height below the title bar. */
  const IMG_HEIGHT: int := SCREEN_WIDTH - TOP_HEIGHT
  /** Columns of the image: the rotated screen width between the sidebars. */
  const IMG_WIDTH: int := SCREEN_HEIGHT - SIDE_WIDTH_LEFT - SIDE_WIDTH_RIGHT

  /** The image is 112 by 112, the size the demodulator produces. */
  lemma ImageSize()
    ensures IMG_HEIGHT == 112 && IMG_WIDTH == 112
    ensures IMG_HEIGHT == Demodulator.IMG_HEIGHT && IMG_WIDTH == Demodulator.IMG_WIDTH
  {
  }

  /** A column of IMG_HEIGHT pixels of one shade. */
  function Uniform(shade: u8): seq<u8>
  {
    seq(IMG_HEIGHT, _ => shade)
  }

  /** `col::BLACK`, the empty column, and `col::WHITE`. */
  const BLACK: seq<u8> := Uniform(0)
  const WHITE: seq<u8> := Uniform(255)

  lemma BlackAndWhite()
    ensures |BLACK| == |WHITE| == IMG_HEIGHT
    ensures forall r :: 0 <= r < IMG_HEIGHT ==> BLACK[r] == 0 && WHITE[r] == 255
  {
  }

  /** createUniform(shade): every one of the column's IMG_HEIGHT rows set to shade. */
  method CreateUniform(shade: u8) returns (col: seq<u8>)
    ensures |col| == IMG_HEIGHT
    ensures forall r :: 0 <= r < IMG_HEIGHT ==> col[r] == shade
    ensures col == Uniform(shade)
  {
    var buf := new u8[IMG_HEIGHT];
    var r := 0;
    while r < buf.Length
      invariant 0 <= r <= buf.Length
      invariant forall j :: 0 <= j < r ==> buf[j] == shade
    {
      buf[r] := shade;
      r := r + 1;
    }
    col := buf[..];
  }
}

/**
 * The older configuration namespace of display/screen.hpp: one variable per setting,
 * initialised from `uint8_t` constants, and an update that skips the image scale.
 */
module ScreenConfig {
  import opened Numeric

  // Every default is a `uint8_t` constant, so its literal is stored modulo 256.
  const CFG_FREQUENCY: u8 := ToU8(10)
  const CFG_IMG_SCALE: u8 := ToU8(1)
  const CFG_ACQ_TIME: u8 := ToU8(8)
  const CFG_SAMP_RATE: u8 := ToU8(100)
  const CFG_NUM_PTS_GLOBAL: u8 := ToU8(40000)
  const CFG_NUM_PTS_LOCAL: u8 := ToU8(3000)
  const CFG_MIN_T: u8 := ToU8(1500)
  const CFG_MAX_T: u8 := ToU8(5500)
  const CFG_MAX_A: u8 := ToU8(20)
  const CFG_SPEED_SOUND: u8 := ToU8(1550)
  const CFG_BSCAN_DP: u8 := 1
  const CFG_SELECT_PLANE: u8 := ToU8(40)

  /** The literals that do not fit a byte lose their high bits. */
  lemma TruncatedDefaults()
    ensures CFG_NUM_PTS_GLOBAL == 64 && CFG_NUM_PTS_LOCAL == 184
    ensures CFG_MIN_T == 220 && CFG_MAX_T == 124 && CFG_SPEED_SOUND == 14
    ensures CFG_FREQUENCY == 10 && CFG_IMG_SCALE == 1 && CFG_ACQ_TIME == 8 && CFG_SAMP_RATE == 100
    ensures CFG_MAX_A == 20 && CFG_SELECT_PLANE == 40
    ensures CFG_MIN_T > CFG_MAX_T
  {
  }

  /** The settings with their declared widths, and the update flag. */
  class Settings {
    var configUpdate: bool
    var freq: u8
    var imgScale: u8
    var acqTime: u8
    var sampRate: u16
    var numPtsGlobal: u32
    var numPtsLocal: u16
    var minT: u16
    var maxT: u16
    var maxA: u8
    var speedSound: u16
    var bscanDp: bool
    var selectPlane: u8

    /** The initial values: the truncated constants, bscan_dp true, no update scheduled. */
    constructor()
      ensures !configUpdate && freq == 10 && imgScale == 1 && acqTime == 8 && sampRate == 100
      ensures numPtsGlobal == 64 && numPtsLocal == 184 && minT == 220 && maxT == 124
      ensures maxA == 20 && speedSound == 14 && bscanDp && selectPlane == 40
    {
      TruncatedDefaults();
      configUpdate := false;
      freq := CFG_FREQUENCY;
      imgScale := CFG_IMG_SCALE;
      acqTime := CFG_ACQ_TIME;
      sampRate := CFG_SAMP_RATE;
      numPtsGlobal := CFG_NUM_PTS_GLOBAL;
      numPtsLocal := CFG_NUM_PTS_LOCAL;
      minT := CFG_MIN_T;
      maxT := CFG_MAX_T;
      maxA := CFG_MAX_A;
      speedSound := CFG_SPEED_SOUND;
      bscanDp := CFG_BSCAN_DP != 0;
      selectPlane := CFG_SELECT_PLANE;
    }

    /**
     * update(...): every setting but the image scale takes its byte argument, the
     * B-scan switch is "argument non-zero", and the flag is raised.
     */
    method Update(freq': u8, imgScale': u8, acqTime': u8, sampRate': u8, numPtsGlobal': u8,
                  numPtsLocal': u8, minT': u8, maxT': u8, maxA': u8, speedSound': u8,
                  bscanDp': u8, selectPlane': u8)
      modifies this
      ensures configUpdate && imgScale == old(imgScale)
      ensures freq == freq' && acqTime == acqTime' && sampRate == sampRate'
      ensures numPtsGlobal == numPtsGlobal' && numPtsLocal == numPtsLocal'
      ensures minT == minT' && maxT == maxT' && maxA == maxA' && speedSound == speedSound'
      ensures bscanDp == (bscanDp' != 0) && selectPlane == selectPlane'
    {
      freq := freq';
      acqTime := acqTime';
      sampRate := sampRate';
      numPtsGlobal := numPtsGlobal';
      numPtsLocal := numPtsLocal';
      minT := minT';
      maxT := maxT';
      maxA := maxA';
      speedSound := speedSound';
      bscanDp := bscanDp' != 0;
      selectPlane := selectPlane';
      configUpdate := true;
    }

    /** finishUpdate: lowers the flag and leaves every setting alone. */
    method FinishUpdate()
      modifies this`configUpdate
      ensures !configUpdate
    {
      configUpdate := false;
    }

    /** scheduledUpdate: reports the flag and changes nothing. */
    method ScheduledUpdate() returns (scheduled: bool)
      ensures scheduled == configUpdate
    {
      scheduled := configUpdate;
    }
  }
}
