/**
 * The part of the display that the serial server and the main loop act on: the column
 * counter `display_->current_col` that RESET and a port change reset (the Display
 * class itself declares no such field; here it is the display's own, starting at 0),
 * the image area that `clearInner` blanks, and the columns handed to `renderColumn`.
 * Drawing itself (pixels, colours, text) is not modelled; the display keeps a record
 * of it instead.
 */
module DisplayState {
  import opened Numeric
  import opened Wrappers

  class Display {
    /** `getWidth()`: the drawable width of the concrete display. */
    const width: u16
    /** The display's column counter. */
    var currentCol: u16
    /** How many times the image area has been blanked. */
    var clears: nat
    /** The columns drawn since the last blanking, as (column index, shades). */
    var drawn: seq<(u16, seq<u8>)>

    constructor(width: u16)
      ensures this.width == width && currentCol == 0 && clears == 0 && drawn == []
    {
      this.width := width;
      currentCol := 0;
      clears := 0;
      drawn := [];
    }

    /** clearInner: the image area becomes black; the counter is not touched. */
    method ClearInner() returns (ok: bool)
      modifies this`clears, this`drawn
      ensures ok && clears == old(clears) + 1 && drawn == []
    {
      clears := clears + 1;
      drawn := [];
      ok := true;
    }

    /** renderColumn(c, scan): refused beyond the display's width, otherwise drawn. */
    method RenderColumn(c: u16, scan: seq<u8>) returns (ok: bool)
      modifies this`drawn
      ensures ok <==> c < width
      ensures drawn == if ok then old(drawn) + [(c, scan)] else old(drawn)
    {
      if c >= width {
        return false;
      }
      drawn := drawn + [(c, scan)];
      ok := true;
    }

    /** `display_->current_col = 0`. */
    method ResetColumn()
      modifies this`currentCol
      ensures currentCol == 0
    {
      currentCol := 0;
    }
  }
}
