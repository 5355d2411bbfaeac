/**
 The frame drawn by each cycle of the main loop, as the list of display
 library calls it makes rather than as pixels: clear the buffer, draw the
 full-screen outline when the border toggle is set, draw the filled 8x8
 cursor at the mapped position, then push the buffer to the display.
 */
module Render {
  import opened Brightness
  import opened Cursor

  /** Display size in pixels. */
  const WIDTH: int := 128
  const HEIGHT: int := 64

  /** One call into the display library. `Rect` keeps the arguments of
      `ssd1306_rect` in call order: two coordinates, width, height, pixel
      value and fill flag. */
  datatype DrawCmd =
    | Fill(on: bool)
    | Rect(x: int, y: int, w: int, h: int, on: bool, filled: bool)
    | Send

  /** The unfilled rectangle around the whole screen. */
  const Outline: DrawCmd := Rect(0, 0, WIDTH, HEIGHT, true, false)

  /** A command that, if it is a rectangle, lies entirely on the screen. */
  predicate OnScreen(c: DrawCmd) {
    c.Rect? ==> 0 <= c.x && 0 <= c.y && c.x + c.w <= WIDTH && c.y + c.h <= HEIGHT
  }

  /** The commands of one frame for the border toggle and the two samples. */
  function Frame(borderToggle: bool, x: Sample, y: Sample): (f: seq<DrawCmd>)
    ensures |f| == (if borderToggle then 4 else 3)
    ensures f[0] == Fill(false) && f[|f| - 1] == Send
    ensures Outline in f <==> borderToggle
    ensures forall i :: 0 <= i < |f| ==> OnScreen(f[i])
    ensures forall i :: 0 <= i < |f| && f[i].Rect? && f[i].filled ==> i == |f| - 2
    ensures f[|f| - 2] == Rect(Pos(x, WIDTH), Pos(y, HEIGHT), CURSOR_SIZE, CURSOR_SIZE, true, true)
  {
    var cursor := Rect(Pos(x, WIDTH), Pos(y, HEIGHT), CURSOR_SIZE, CURSOR_SIZE, true, true);
    [Fill(false)] + (if borderToggle then [Outline] else []) + [cursor, Send]
  }

  /** The cursor's square in a frame. */
  function CursorOf(borderToggle: bool, x: Sample, y: Sample): DrawCmd {
    var f := Frame(borderToggle, x, y);
    f[|f| - 2]
  }

  /** The cursor follows each sample monotonically along its own axis. */
  lemma CursorMonotone(b: bool, x: Sample, y: Sample, x': Sample, y': Sample)
    requires x <= x' && y <= y'
    ensures CursorOf(b, x, y).x <= CursorOf(b, x', y').x
    ensures CursorOf(b, x, y).y <= CursorOf(b, x', y').y
  {
    PosMonotone(x, x', WIDTH);
    PosMonotone(y, y', HEIGHT);
  }

  /** The rest samples put the cursor at the centre of the screen, (60, 28). */
  lemma RestCursorCentred(b: bool)
    ensures CursorOf(b, CENTER, CENTER).x == WIDTH / 2 - CURSOR_SIZE / 2
    ensures CursorOf(b, CENTER, CENTER).y == HEIGHT / 2 - CURSOR_SIZE / 2
  {
    PosCentred(WIDTH);
    PosCentred(HEIGHT);
  }

  /** The full-scale samples put the cursor in the far corner, touching both
      screen edges. */
  lemma FullScaleCursorInCorner(b: bool)
    ensures CursorOf(b, FULL_SCALE, FULL_SCALE).x + CURSOR_SIZE == WIDTH
    ensures CursorOf(b, FULL_SCALE, FULL_SCALE).y + CURSOR_SIZE == HEIGHT
  {
  }

  /** Every pixel column and row of the cursor's range is reachable by some
      pair of samples, whether or not the outline is drawn. */
  lemma CursorReachesEveryPosition(b: bool, px: int, py: int)
    requires 0 <= px <= WIDTH - CURSOR_SIZE && 0 <= py <= HEIGHT - CURSOR_SIZE
    ensures exists x: Sample, y: Sample :: CursorOf(b, x, y).x == px && CursorOf(b, x, y).y == py
  {
    PosOnto(px, WIDTH);
    PosOnto(py, HEIGHT);
    var x := MinSample(px, WIDTH);
    var y := MinSample(py, HEIGHT);
    assert CursorOf(b, x, y).x == px && CursorOf(b, x, y).y == py;
  }
}
