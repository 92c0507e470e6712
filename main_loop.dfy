/**
 * The firmware's main tick (src/main.cpp): unless the sleep switch is high, generate
 * the A-scan of the fixed echo times for the current column, render it, and advance
 * the column, wrapping at the image width. The column counter here is main's own
 * `current_col`, not the display's.
 */
module MainLoop {
  import opened Numeric
  import opened Wrappers
  import opened Waveform
  import Demodulator
  import DisplayState

  /** The echo times `e[]` as generateAScan's `uint16_t` parameter receives them. */
  const MAIN_ECHOES: seq<u16> := [0, 1, 3, 3, 5, 6, 7]

  lemma MainEchoesTruncated()
    ensures MAIN_ECHOES == EchoTimes()
    ensures |MAIN_ECHOES| == |ECHO_POS|
  {
  }

  /** The column visited k ticks after column start. */
  function ColumnAfter(start: nat, k: nat): (c: nat)
    ensures c < Demodulator.IMG_WIDTH
  {
    (start + k) % Demodulator.IMG_WIDTH
  }

  /** One tick on from column c: the next column, or 0 after the last. */
  lemma NextColumn(c: nat)
    requires c < Demodulator.IMG_WIDTH
    ensures ColumnAfter(c, 1) == if c + 1 == Demodulator.IMG_WIDTH then 0 else c + 1
  {
    if c + 1 < Demodulator.IMG_WIDTH {
      DivUnique(c + 1, Demodulator.IMG_WIDTH, 0);
    } else {
      DivUnique(c + 1, Demodulator.IMG_WIDTH, 1);
    }
  }

  /** One sweep of IMG_WIDTH ticks visits every column exactly once, whatever the start. */
  lemma SweepVisitsEveryColumn(start: nat, c: nat)
    requires c < Demodulator.IMG_WIDTH
    ensures var k := (c - start % Demodulator.IMG_WIDTH + Demodulator.IMG_WIDTH) % Demodulator.IMG_WIDTH;
      k < Demodulator.IMG_WIDTH && ColumnAfter(start, k) == c
    ensures forall k, k' :: 0 <= k < k' < Demodulator.IMG_WIDTH ==> ColumnAfter(start, k) != ColumnAfter(start, k')
  {
    var w := Demodulator.IMG_WIDTH;
    forall k, k' | 0 <= k < k' < w
      ensures ColumnAfter(start, k) != ColumnAfter(start, k')
    {
      if ColumnAfter(start, k) == ColumnAfter(start, k') {
        SameRemainder(start + k, start + k', w);
      }
    }
  }

  /** Two numbers at distance below w with the same remainder mod w are equal. */
  lemma SameRemainder(x: nat, y: nat, w: nat)
    requires w > 0 && x <= y < x + w && x % w == y % w
    ensures x == y
  {
    var q, q' := x / w, y / w;
    assert x == w * q + x % w && y == w * q' + y % w;
    assert w * (q' - q) < w;
    MulBelowOne(w, q' - q);
    assert w * (q' - q) >= 0;
  }

  /** The main loop's state: the display it draws on and `current_col`. */
  class Scanner {
    const display: DisplayState.Display
    var currentCol: u16

    ghost predicate Valid()
      reads this, display
    {
      currentCol < Demodulator.IMG_WIDTH && display.width >= Demodulator.IMG_WIDTH
    }

    /** setup(): the display is set up elsewhere; scanning starts at column 0. */
    constructor(display: DisplayState.Display)
      requires display.width >= Demodulator.IMG_WIDTH
      ensures Valid() && this.display == display && currentCol == 0
    {
      this.display := display;
      currentCol := 0;
    }

    /**
     * loop(): when the sleep switch is high the tick does not get past its wait, so
     * nothing changes. Otherwise the column of the A-scan is drawn (a column always
     * fits the display) and the counter moves on, back to 0 after the last column.
     * A scan without a value (its maximum is 0, or a single-peak envelope that
     * downsample reads past the end of) is not drawn, and the counter still
     * moves on. The wrap does not blank the image.
     */
    method Tick(sleeping: bool, w: Shape, draws: nat -> nat -> real) returns (rendered: bool)
      requires Valid()
      modifies this`currentCol, display`drawn
      ensures Valid()
      ensures sleeping ==> !rendered && currentCol == old(currentCol) && display.drawn == old(display.drawn)
      ensures !sleeping ==> currentCol == ColumnAfter(old(currentCol), 1)
      ensures !sleeping ==> var scan := Demodulator.AScanColumn(Demodulator.Sspan(w, draws, MAIN_ECHOES));
        rendered == scan.Success? &&
        display.drawn == (if scan.Success? then old(display.drawn) + [(old(currentCol), scan.value)] else old(display.drawn))
    {
      rendered := false;
      if sleeping {
        return;
      }
      var scan := Demodulator.GenerateAScan(w, draws, MAIN_ECHOES, currentCol);
      if scan.Success? {
        rendered := display.RenderColumn(currentCol, scan.value);
      }
      Advance();
    }

    /** `if (++current_col == IMG_WIDTH) current_col = 0;` */
    method Advance()
      requires currentCol < Demodulator.IMG_WIDTH
      modifies this`currentCol
      ensures currentCol == ColumnAfter(old(currentCol), 1)
    {
      NextColumn(currentCol);
      currentCol := currentCol + 1;
      if currentCol == Demodulator.IMG_WIDTH {
        currentCol := 0;
      }
    }
  }
}
