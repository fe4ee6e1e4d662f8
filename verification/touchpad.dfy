/** The touch normaliser: a rotation in degrees selects a 3-bit mask from a
    table, the mask is decoded into swap / invert-x / invert-y flags, and each
    raw sensor point is transformed by them before it is reduced to a 3x3
    keypad code.  The sensor's read function is not stored: each poll's result
    is passed in as a `Reading`. */
module TouchpadDriver {
  import opened Wrappers
  import Bits
  import Zones

  datatype Point = Point(x: int, y: int)

  /** What the sensor's read function yields on one poll. */
  datatype Reading =
    | NotReady                    // the read function raised OSError
    | NoReading                   // None, or another falsy value
    | Bare(x: int, y: int)        // a single point
    | Points(points: seq<Point>)  // a sequence of points; only the first one is used

  datatype SensorError = OSError

  /** Masks for 0, 90, 180 and 270 degrees. */
  const DEFAULT_TOUCH_ROTATION_TABLE: seq<int> := [0x0, 0x5, 0x6, 0x3]

  /** The three transform flags a mask encodes. */
  datatype Flags = Flags(swapXY: bool, invertX: bool, invertY: bool)

  /** Decoding of a rotation mask: only its low 3 bits are kept; bit 2 is
      invert-y, bit 1 invert-x and bit 0 swap-xy. */
  function DecodeMask(mask: int): (f: Flags)
    ensures f.swapXY <==> Bits.Bit(mask % 8, 0)
    ensures f.invertX <==> Bits.Bit(mask % 8, 1)
    ensures f.invertY <==> Bits.Bit(mask % 8, 2)
  {
    var m := mask % 8;
    Flags(swapXY := m % 2 == 1, invertX := (m / 2) % 2 == 1, invertY := (m / 4) % 2 == 1)
  }

  /** The mask whose bits are the given flags. */
  function EncodeMask(f: Flags): (m: int)
    ensures 0 <= m < 8
  {
    (if f.invertY then 4 else 0) + (if f.invertX then 2 else 0) + (if f.swapXY then 1 else 0)
  }

  lemma DecodeEncode(f: Flags)
    ensures DecodeMask(EncodeMask(f)) == f
  {
  }

  /** Decoding forgets everything but the low three bits of the mask. */
  lemma EncodeDecode(mask: int)
    ensures EncodeMask(DecodeMask(mask)) == mask % 8
    ensures DecodeMask(mask) == DecodeMask(mask % 8)
  {
    var m := mask % 8;
    if m < 4 {
      if m < 2 {
        assert m == 0 || m == 1;
      } else {
        assert m == 2 || m == 3;
      }
    } else {
      if m < 6 {
        assert m == 4 || m == 5;
      } else {
        assert m == 6 || m == 7;
      }
    }
  }

  /** The table index for a rotation in degrees: `(rotation // 90) % n`. */
  function RotationIndex(rotation: int, n: int): (i: int)
    requires n > 0
    ensures 0 <= i < n
  {
    (rotation / 90) % n
  }

  /** Turning a full cycle of the table (90 degrees per entry) selects the
      same entry; with the 4-entry default table this is `rotation + 360`. */
  lemma {:induction false} RotationPeriodic(rotation: int, n: int)
    requires n > 0
    ensures RotationIndex(rotation + 90 * n, n) == RotationIndex(rotation, n)
  {
    var q := rotation / 90;
    Bits.DivUnique(rotation + 90 * n, 90, q + n, rotation % 90);
    Bits.DivUnique(q + n, n, q / n + 1, q % n);
  }

  /** The default table: 0 degrees is the identity mask, and every rotation,
      negative ones included, picks the same mask as that rotation plus 360. */
  lemma DefaultRotations(rotation: int)
    ensures DEFAULT_TOUCH_ROTATION_TABLE[RotationIndex(0, 4)] == 0
    ensures DEFAULT_TOUCH_ROTATION_TABLE[RotationIndex(90, 4)] == 0x5
    ensures DEFAULT_TOUCH_ROTATION_TABLE[RotationIndex(180, 4)] == 0x6
    ensures DEFAULT_TOUCH_ROTATION_TABLE[RotationIndex(270, 4)] == 0x3
    ensures DEFAULT_TOUCH_ROTATION_TABLE[RotationIndex(-90, 4)] == 0x3
    ensures DEFAULT_TOUCH_ROTATION_TABLE[RotationIndex(rotation + 360, 4)]
         == DEFAULT_TOUCH_ROTATION_TABLE[RotationIndex(rotation, 4)]
  {
    RotationPeriodic(rotation, 4);
  }

  /** The point transform, in the source's order: swap, then invert x
      (`x = max_x - x`), then invert y (`y = max_y - y`). */
  function Transform(p: Point, f: Flags, maxX: int, maxY: int): (q: Point)
    ensures Untransform(q, f, maxX, maxY) == p
    ensures !f.swapXY && !f.invertX ==> q.x == p.x
    ensures !f.swapXY && !f.invertY ==> q.y == p.y
  {
    var (x, y) := if f.swapXY then (p.y, p.x) else (p.x, p.y);
    var x := if f.invertX then maxX - x else x;
    var y := if f.invertY then maxY - y else y;
    Point(x, y)
  }

  /** The inverse transform: undo the inversions, then undo the swap. */
  function Untransform(q: Point, f: Flags, maxX: int, maxY: int): Point
  {
    var x := if f.invertX then maxX - q.x else q.x;
    var y := if f.invertY then maxY - q.y else q.y;
    if f.swapXY then Point(y, x) else Point(x, y)
  }

  /** The transform is a bijection on points for every mask. */
  lemma TransformInverse(p: Point, f: Flags, maxX: int, maxY: int)
    ensures Untransform(Transform(p, f, maxX, maxY), f, maxX, maxY) == p
    ensures Transform(Untransform(p, f, maxX, maxY), f, maxX, maxY) == p
  {
  }

  /** Mask 0 leaves every point as it is. */
  lemma IdentityMask(p: Point, maxX: int, maxY: int)
    ensures Transform(p, DecodeMask(0), maxX, maxY) == p
  {
  }

  /** Without a swap the transform is its own inverse: inverting an axis
      twice restores the coordinate. */
  lemma InvertTwice(p: Point, f: Flags, maxX: int, maxY: int)
    requires !f.swapXY
    ensures Transform(Transform(p, f, maxX, maxY), f, maxX, maxY) == p
  {
  }

  /** A raw point inside the sensor's box (the screen box, transposed when the
      mask swaps) lands inside the screen box [0, maxX] x [0, maxY]. */
  lemma TransformInBounds(p: Point, f: Flags, maxX: int, maxY: int)
    requires f.swapXY ==> 0 <= p.y <= maxX && 0 <= p.x <= maxY
    requires !f.swapXY ==> 0 <= p.x <= maxX && 0 <= p.y <= maxY
    ensures 0 <= Transform(p, f, maxX, maxY).x <= maxX
    ensures 0 <= Transform(p, f, maxX, maxY).y <= maxY
  {
  }

  /** On a square screen the default masks compose like rotations: 90 then 90
      degrees is 180, and 90 then 270 degrees is the identity. */
  lemma DefaultMasksCompose(p: Point, m: int)
    ensures Transform(Transform(p, DecodeMask(0x5), m, m), DecodeMask(0x5), m, m)
         == Transform(p, DecodeMask(0x6), m, m)
    ensures Transform(Transform(p, DecodeMask(0x5), m, m), DecodeMask(0x3), m, m) == p
  {
  }

  /** The point a truthy reading yields: a bare point is used as it is,
      otherwise the first point of the sequence; a falsy reading yields none. */
  function FirstPoint(reading: Reading): (r: Option<Point>)
    ensures r.None? <==> reading.NotReady? || reading.NoReading? || reading == Points([])
    ensures reading.Bare? ==> r == Some(Point(reading.x, reading.y))
    ensures reading.Points? && reading.points != [] ==> r == Some(reading.points[0])
  {
    match reading
    case NotReady => None
    case NoReading => None
    case Bare(x, y) => Some(Point(x, y))
    case Points(ps) => if |ps| == 0 then None else Some(ps[0])
  }

  class Touchpad {
    const width: int
    const height: int
    const rotationTable: seq<int>
    var invertY: bool
    var invertX: bool
    var swapXY: bool
    var maxX: int
    var maxY: int

    ghost predicate Valid()
      reads this
    {
      |rotationTable| > 0 && maxX == width - 1 && maxY == height - 1
    }

    function CurrentFlags(): Flags
      reads this
    {
      Flags(swapXY, invertX, invertY)
    }

    /** An empty (or absent) rotation table falls back to the default one,
        so the table used is never empty. */
    constructor (width: int, height: int, touchRotation: int, rotationTable: seq<int>)
      ensures Valid()
      ensures this.width == width && this.height == height
      ensures this.rotationTable == if rotationTable != [] then rotationTable else DEFAULT_TOUCH_ROTATION_TABLE
      ensures CurrentFlags() == DecodeMask(this.rotationTable[RotationIndex(touchRotation, |this.rotationTable|)])
    {
      this.width := width;
      this.height := height;
      this.rotationTable := if rotationTable != [] then rotationTable else DEFAULT_TOUCH_ROTATION_TABLE;
      this.maxX := width - 1;
      this.maxY := height - 1;
      new;
      SetTouchRotation(touchRotation);
    }

    /** Select the table entry for `rotation` degrees and apply it as a mask. */
    method SetTouchRotation(rotation: int)
      requires Valid()
      modifies this
      ensures Valid()
      ensures CurrentFlags() == DecodeMask(rotationTable[RotationIndex(rotation, |rotationTable|)])
    {
      var index := RotationIndex(rotation, |rotationTable|);
      var mask := rotationTable[index];
      SetTouchRotationMask(mask);
    }

    /** Keep the low 3 bits of `mask` as the transform flags, and reset the
        maxima to the screen size. */
    method SetTouchRotationMask(mask: int)
      requires Valid()
      modifies this
      ensures Valid()
      ensures CurrentFlags() == DecodeMask(mask)
      ensures EncodeMask(CurrentFlags()) == mask % 8
    {
      var m := mask % 8;
      invertY := (m / 4) % 2 == 1;
      invertX := (m / 2) % 2 == 1;
      swapXY := m % 2 == 1;
      maxX := width - 1;
      maxY := height - 1;
      EncodeDecode(mask);
    }

    /** One poll of the sensor, normalised: the sensor's error propagates,
        a falsy reading is no touch, and a point is transformed by the current
        flags.  The raw point can always be recovered from the result. */
    function GetTouched(reading: Reading): (r: Result<Option<Point>, SensorError>)
      reads this
      ensures r.Failure? <==> reading.NotReady?
      ensures r.Success? ==> (r.value.Some? <==> FirstPoint(reading).Some?)
      ensures r.Success? && r.value.Some? ==>
        Untransform(r.value.value, CurrentFlags(), maxX, maxY) == FirstPoint(reading).value
    {
      if reading.NotReady? then Failure(OSError)
      else
        match FirstPoint(reading)
        case None => Success(None)
        case Some(p) =>
          TransformInverse(p, CurrentFlags(), maxX, maxY);
          Success(Some(Transform(p, CurrentFlags(), maxX, maxY)))
    }

    /** The 3x3 keypad reducer: no code when the sensor is not ready or not
        touched, otherwise the zone code of the normalised point. */
    function Read(reading: Reading): (r: Option<int>)
      reads this
      ensures r.None? <==> reading.NotReady? || FirstPoint(reading).None?
      ensures r.Some? ==>
        && 1 <= r.value <= 9
        && r.value == Zones.ZoneCode(width, height, GetTouched(reading).value.value.x, GetTouched(reading).value.value.y)
    {
      match GetTouched(reading)
      case Failure(_) => None
      case Success(None) => None
      case Success(Some(p)) =>
        if p.x < width / 3 then
          if p.y < height / 3 then Some(7)
          else if p.y > height * 2 / 3 then Some(1)
          else Some(4)
        else if p.x > width * 2 / 3 then
          if p.y < height / 3 then Some(9)
          else if p.y > height * 2 / 3 then Some(3)
          else Some(6)
        else
          if p.y < height / 3 then Some(8)
          else if p.y > height * 2 / 3 then Some(2)
          else Some(5)
    }
  }
}
