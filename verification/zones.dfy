/** The 3x3 zone partition both input reducers implement: the screen is cut
    at the integer thirds of its width and height, with strict comparisons,
    and each zone carries a numeric-keypad code (top row 7 8 9, middle row
    4 5 6, bottom row 1 2 3). */
module Zones {

  // The key each zone code stands for.
  const LEFT: int := 1
  const DOWN: int := 2
  const RIGHT: int := 3
  const CW: int := 4
  const UP: int := 5
  const CCW: int := 6
  const START: int := 7
  const UNUSED: int := 8
  const PAUSE: int := 9

  /** The band of an axis of length `n` that `v` lies in: 0 below `n // 3`,
      2 above `n * 2 // 3`, and 1 otherwise. */
  function Band(n: int, v: int): (b: int)
    ensures 0 <= b <= 2
    ensures b == 0 <==> v < n / 3
    ensures b == 2 <==> v >= n / 3 && v > n * 2 / 3
  {
    if v < n / 3 then 0 else if v > n * 2 / 3 then 2 else 1
  }

  /** Reference definition of the zone code of point (x, y): the row is the
      vertical band counted from the top, the column the horizontal band
      counted from the left. */
  function ZoneCode(width: int, height: int, x: int, y: int): (code: int)
    ensures 1 <= code <= 9
  {
    7 - 3 * Band(height, y) + Band(width, x)
  }

  /** The row (0 = top) a zone code denotes. */
  function ZoneRow(code: int): int
  {
    (9 - code) / 3
  }

  /** The column (0 = left) a zone code denotes. */
  function ZoneColumn(code: int): int
  {
    (code - 1) % 3
  }

  /** A code identifies its zone: the row and column come back from it, so
      distinct zones have distinct codes. */
  lemma ZoneCodeDecodes(width: int, height: int, x: int, y: int)
    ensures ZoneRow(ZoneCode(width, height, x, y)) == Band(height, y)
    ensures ZoneColumn(ZoneCode(width, height, x, y)) == Band(width, x)
  {
  }

  /** The keypad layout: the left column is 7/4/1 (START, CW, LEFT), the
      middle 8/5/2 (UNUSED, UP, DOWN) and the right 9/6/3 (PAUSE, CCW, RIGHT),
      each listed top to bottom. */
  lemma ZoneLayout(width: int, height: int, x: int, y: int)
    ensures Band(width, x) == 0 ==> ZoneCode(width, height, x, y) == [START, CW, LEFT][Band(height, y)]
    ensures Band(width, x) == 1 ==> ZoneCode(width, height, x, y) == [UNUSED, UP, DOWN][Band(height, y)]
    ensures Band(width, x) == 2 ==> ZoneCode(width, height, x, y) == [PAUSE, CCW, RIGHT][Band(height, y)]
  {
  }

  /** The cut points themselves belong to the middle band. */
  lemma BoundariesInMiddle(n: int)
    requires n >= 0
    ensures Band(n, n / 3) == 1
    ensures Band(n, n * 2 / 3) == 1
  {
  }

  /** Bands are ordered along the axis. */
  lemma BandMonotonic(n: int, v: int, w: int)
    requires n >= 0 && v <= w
    ensures Band(n, v) <= Band(n, w)
  {
  }

  /** Every code in 1..9 is the code of the row and column it decodes to. */
  lemma CodeFromRowColumn(code: int)
    requires 1 <= code <= 9
    ensures 0 <= ZoneRow(code) <= 2 && 0 <= ZoneColumn(code) <= 2
    ensures 7 - 3 * ZoneRow(code) + ZoneColumn(code) == code
  {
    if code <= 3 {
      assert ZoneRow(code) == 2;
    } else if code <= 6 {
      assert ZoneRow(code) == 1;
    } else {
      assert ZoneRow(code) == 0;
    }
  }

  /** A coordinate in [0, n) that lies in band `b`, for n >= 4. */
  function BandWitness(n: int, b: int): (v: int)
    requires n >= 4 && 0 <= b <= 2
    ensures 0 <= v < n && Band(n, v) == b
  {
    if b == 0 then 0 else if b == 1 then n / 3 else n - 1
  }

  /** On a screen at least 4 pixels in each direction every one of the nine
      codes is produced by some on-screen point. */
  lemma EveryZoneReachable(width: int, height: int, code: int)
    requires width >= 4 && height >= 4 && 1 <= code <= 9
    ensures exists x, y :: 0 <= x < width && 0 <= y < height && ZoneCode(width, height, x, y) == code
  {
    CodeFromRowColumn(code);
    var x := BandWitness(width, ZoneColumn(code));
    var y := BandWitness(height, ZoneRow(code));
    assert ZoneCode(width, height, x, y) == code;
  }

  /** With fewer than 4 pixels across, the right column cannot be reached
      on screen: the strict `>` leaves no coordinate below the width. */
  lemma NarrowScreenHasNoRightColumn(width: int, x: int)
    requires 0 <= width < 4 && 0 <= x < width
    ensures Band(width, x) != 2
  {
  }
}
