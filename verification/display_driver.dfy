/** The register-level core of the display driver: the memory-access-control
    (MADCTL) byte for an orientation code, the big-endian address windows of a
    blit, the deferred orientation apply around `init`, and the
    polarity-normalised power, reset and backlight lines.

    The transport is a `Bus` object that records every transaction it is
    handed; the GPIO lines are fields of `Display` holding their output level,
    plus an ordered log of every level written. */
module DisplayDriver {
  import opened Wrappers
  import opened Bits

  // Memory-access-control colour order bit values.
  const BYTE_ORDER_RGB: nat := 0x00
  const BYTE_ORDER_BGR: nat := 0x08

  // Register (command) numbers.
  const RASET: int := 0x2B
  const CASET: int := 0x2A
  const RAMWR: int := 0x2C
  const MADCTL: int := 0x36

  // MADCTL flag bits.
  const MADCTL_MY: nat := 0x80
  const MADCTL_MX: nat := 0x40
  const MADCTL_MV: nat := 0x20
  const MADCTL_ML: nat := 0x10
  const MADCTL_BGR: nat := 0x08
  const MADCTL_MH: nat := 0x04

  /** MADCTL values for PORTRAIT, LANDSCAPE, REVERSE_PORTRAIT and
      REVERSE_LANDSCAPE.  The last entry is MY | MX | MV; the three flags are
      distinct bits, so the sum is their bitwise or (`OrientationTableFlags`). */
  const ORIENTATION_TABLE: seq<nat> := [MADCTL_MX, MADCTL_MV, MADCTL_MY, MADCTL_MY + MADCTL_MX + MADCTL_MV]

  // Negative orientation codes select a table entry; non-negative ones are raw MADCTL values.
  const PORTRAIT: int := -1
  const LANDSCAPE: int := -2
  const REVERSE_PORTRAIT: int := -3
  const REVERSE_LANDSCAPE: int := -4

  // Configured active level of a line.
  const STATE_HIGH: int := 1
  const STATE_LOW: int := 0
  const STATE_PWM: int := -1

  /** A digital output level. */
  type Level = l: int | 0 <= l <= 1

  /** A reset or power line: absent, or a digital output at some level. */
  datatype Pin = NoPin | Out(level: Level)

  /** The backlight line: absent, a digital output, or a PWM output. */
  datatype BacklightPin = NoBacklight | DigitalBacklight(level: Level) | PwmBacklight

  datatype LineId = ResetLine | PowerLine | BacklightLine

  /** One level written to one line. */
  datatype PinWrite = PinWrite(line: LineId, level: Level)

  /** One transaction handed to the transport. */
  datatype Txn =
    | BusInit(width: int, height: int, bpp: int, byteSwap: bool)
    | Param(cmd: int, params: seq<int>)
    | Color(cmd: int, pixels: seq<int>, x1: int, y1: int, x2: int, y2: int)

  /** The exceptions the modelled code raises. */
  datatype DisplayError =
    | PowerStateInvalid      // RuntimeError: power on state not HIGH/LOW
    | ResetStateInvalid      // RuntimeError: reset state not HIGH/LOW
    | BacklightStateInvalid  // RuntimeError: backlight on state not HIGH/LOW/PWM
    | BppMissing             // TypeError: `None // 8` when no bit depth is given
    | IndexError             // orientation code past the end of the table, at the lookup
    | InvalidOrientation     // orientation code past the end of the table, at the guard

  /** Python truthiness of an integer, as the level `pin.value(v)` drives. */
  function Truth(v: int): Level
  {
    if v != 0 then 1 else 0
  }

  /** The level `pin.value(not v)` drives. */
  function Not(v: int): Level
  {
    if v != 0 then 0 else 1
  }

  function OutcomeOf(r: Result<nat, DisplayError>): Outcome<DisplayError>
  {
    match r
    case Success(_) => Pass
    case Failure(e) => Fail(e)
  }

  // ---------------------------------------------------------------------------
  // Line states

  /** Constructor validation of the configured line states, checked in the
      order power, reset, backlight; the first violation is the one raised. */
  function CheckLineStates(powerOnState: int, resetState: int, backlightOnState: int): (r: Outcome<DisplayError>)
    ensures r.Pass? <==>
      && powerOnState in {STATE_HIGH, STATE_LOW}
      && resetState in {STATE_HIGH, STATE_LOW}
      && backlightOnState in {STATE_HIGH, STATE_LOW, STATE_PWM}
    ensures r == Fail(PowerStateInvalid) <==> powerOnState !in {STATE_HIGH, STATE_LOW}
    ensures r == Fail(ResetStateInvalid) <==>
      powerOnState in {STATE_HIGH, STATE_LOW} && resetState !in {STATE_HIGH, STATE_LOW}
    ensures r == Fail(BacklightStateInvalid) <==>
      powerOnState in {STATE_HIGH, STATE_LOW} && resetState in {STATE_HIGH, STATE_LOW}
      && backlightOnState !in {STATE_HIGH, STATE_LOW, STATE_PWM}
  {
    if powerOnState != STATE_HIGH && powerOnState != STATE_LOW then Fail(PowerStateInvalid)
    else if resetState != STATE_HIGH && resetState != STATE_LOW then Fail(ResetStateInvalid)
    else if backlightOnState != STATE_HIGH && backlightOnState != STATE_LOW && backlightOnState != STATE_PWM
    then Fail(BacklightStateInvalid)
    else Pass
  }

  /** The level a setter drives for the logical value `value` on a line whose
      on-state is `onState`: `pin.value(value)` when the on-state is truthy,
      `pin.value(not value)` otherwise. */
  function DriveLevel(onState: int, value: int): (l: Level)
    ensures l == 1 <==> (onState != 0 <==> value != 0)
  {
    if onState != 0 then Truth(value) else Not(value)
  }

  /** The logical value a getter reports for a line at `level`. */
  function ReadLevel(onState: int, level: Level): (r: Level)
    ensures r == 1 <==> level == Truth(onState)
  {
    if onState != 0 then level else Not(level)
  }

  /** Writing a value and reading it back yields the value's truthiness, for
      either polarity. */
  lemma LineRoundTrip(onState: int, value: int)
    ensures ReadLevel(onState, DriveLevel(onState, value)) == Truth(value)
  {
  }

  /** A configured line starts at its inactive level: it reads back as off,
      and `reset` drives the opposite (active) level first. */
  lemma InitialLevelIsInactive(state: int)
    requires state in {STATE_HIGH, STATE_LOW}
    ensures ReadLevel(state, Not(state)) == 0
    ensures Not(state) != Truth(state)
  {
  }

  // ---------------------------------------------------------------------------
  // Orientation table and MADCTL

  /** The last orientation-table entry really is MY | MX | MV. */
  lemma OrientationTableFlags()
    ensures ORIENTATION_TABLE[3] == BitOr(BitOr(MADCTL_MY, MADCTL_MX), MADCTL_MV)
  {
    assert Pow2(7) == 128 && Pow2(6) == 64;
    BitOrDisjoint(1, MADCTL_MX, 7);
    BitOrDisjoint(3, MADCTL_MV, 6);
  }

  /** The bounds check as the source writes it; it is computed but its error is
      never raised, and it is false for index == |rotations|. */
  predicate GuardAsWritten(index: int, rotations: seq<nat>)
  {
    index > |rotations|
  }

  /** `_madctl` as written: the guard has no effect, so an index past the end
      of the table fails at the lookup itself. */
  function MadctlAsWritten(colormode: nat, rotation: int, rotations: seq<nat>): (r: Result<nat, DisplayError>)
    ensures rotation >= 0 ==> r == Success(BitOr(rotation, colormode))
    ensures r.Failure? <==> rotation < 0 && -rotation - 1 >= |rotations|
    ensures r.Failure? ==> r.error == IndexError
  {
    if rotation >= 0 then Success(BitOr(rotation, colormode))
    else
      var index := -rotation - 1;
      if index < |rotations| then Success(BitOr(rotations[index], colormode))
      else Failure(IndexError)
  }

  /** `_madctl` with the bounds check the code evidently intends: a negative
      code selects table entry `-rotation - 1` and a code past the table is
      rejected; a non-negative code is used as the raw register value. Either
      way the colour-order bits are or'ed in. */
  function Madctl(colormode: nat, rotation: int, rotations: seq<nat>): (r: Result<nat, DisplayError>)
    ensures rotation >= 0 ==> r == Success(BitOr(rotation, colormode))
    ensures r.Failure? <==> rotation < -|rotations|
    ensures r.Failure? ==> r.error == InvalidOrientation
    ensures rotation < 0 && r.Success? ==> r.value == BitOr(rotations[-rotation - 1], colormode)
  {
    if rotation >= 0 then Success(BitOr(rotation, colormode))
    else
      var index := -rotation - 1;
      if index >= |rotations| then Failure(InvalidOrientation)
      else Success(BitOr(rotations[index], colormode))
  }

  /** The as-written guard lets the first out-of-range index through, and past
      it the guard fires without any effect: every out-of-range code ends in
      the lookup's IndexError rather than the descriptive error. */
  lemma MadctlGuardDefect(colormode: nat)
    ensures 4 >= |ORIENTATION_TABLE| && !GuardAsWritten(4, ORIENTATION_TABLE)
    ensures GuardAsWritten(5, ORIENTATION_TABLE)
    ensures MadctlAsWritten(colormode, -5, ORIENTATION_TABLE) == Failure(IndexError)
    ensures MadctlAsWritten(colormode, -6, ORIENTATION_TABLE) == Failure(IndexError)
    ensures Madctl(colormode, -5, ORIENTATION_TABLE) == Failure(InvalidOrientation)
  {
  }

  /** The corrected and the as-written versions agree on every code the table
      covers, and both fail on exactly the same codes. */
  lemma MadctlAgreesWithAsWritten(colormode: nat, rotation: int, rotations: seq<nat>)
    ensures Madctl(colormode, rotation, rotations).Success? <==> MadctlAsWritten(colormode, rotation, rotations).Success?
    ensures Madctl(colormode, rotation, rotations).Success? ==>
      Madctl(colormode, rotation, rotations) == MadctlAsWritten(colormode, rotation, rotations)
  {
  }

  /** The four named orientations give the table's flag bits plus the colour
      order (RGB 0x00 or BGR 0x08, or any value below 16), and every code below
      REVERSE_LANDSCAPE is rejected. */
  lemma {:induction false} MadctlOrientations(colormode: nat)
    requires colormode < 16
    ensures Madctl(colormode, PORTRAIT, ORIENTATION_TABLE) == Success(0x40 + colormode)
    ensures Madctl(colormode, LANDSCAPE, ORIENTATION_TABLE) == Success(0x20 + colormode)
    ensures Madctl(colormode, REVERSE_PORTRAIT, ORIENTATION_TABLE) == Success(0x80 + colormode)
    ensures Madctl(colormode, REVERSE_LANDSCAPE, ORIENTATION_TABLE) == Success(0xE0 + colormode)
    ensures forall rotation :: rotation < REVERSE_LANDSCAPE ==>
      Madctl(colormode, rotation, ORIENTATION_TABLE) == Failure(InvalidOrientation)
  {
    assert Pow2(4) == 16;
    BitOrDisjoint(4, colormode, 4);
    BitOrDisjoint(2, colormode, 4);
    BitOrDisjoint(8, colormode, 4);
    BitOrDisjoint(14, colormode, 4);
  }

  /** A non-negative code is passed through: with RGB order it is the register
      value itself, and in general bit k of the result is bit k of the code or
      of the colour order. */
  lemma MadctlDirectCode(colormode: nat, rotation: int, rotations: seq<nat>)
    requires rotation >= 0
    ensures Madctl(BYTE_ORDER_RGB, rotation, rotations) == Success(rotation)
    ensures Madctl(colormode, rotation, rotations).Success?
    ensures forall k: nat :: Bit(Madctl(colormode, rotation, rotations).value, k) <==> Bit(rotation, k) || Bit(colormode, k)
  {
    forall k: nat
      ensures Bit(Madctl(colormode, rotation, rotations).value, k) <==> Bit(rotation, k) || Bit(colormode, k)
    {
      BitOrBit(rotation, colormode, k);
    }
  }

  /** The byte the orientation setter stores into the parameter buffer: the
      MADCTL value the code as written computes, so a code past the table
      fails with the lookup's IndexError.  A MicroPython bytearray keeps the
      low 8 bits of a stored integer, so a value above 255 is truncated. */
  function MadctlByte(colormode: nat, rotation: int): (r: Result<nat, DisplayError>)
    ensures r.Failure? <==> rotation < REVERSE_LANDSCAPE
    ensures r.Failure? ==> r.error == IndexError
    ensures r.Success? ==>
      && r.value < 256
      && MadctlAsWritten(colormode, rotation, ORIENTATION_TABLE).Success?
      && (MadctlAsWritten(colormode, rotation, ORIENTATION_TABLE).value - r.value) % 256 == 0
    ensures r.Success? && MadctlAsWritten(colormode, rotation, ORIENTATION_TABLE).value < 256 ==>
      Madctl(colormode, rotation, ORIENTATION_TABLE) == Success(r.value)
  {
    MadctlAgreesWithAsWritten(colormode, rotation, ORIENTATION_TABLE);
    match MadctlAsWritten(colormode, rotation, ORIENTATION_TABLE)
    case Failure(e) => Failure(e)
    case Success(v) => Success(v % 256)
  }

  /** Every named orientation, and every raw code that fits a byte, is stored
      whole under either colour order: no bits are lost to the truncation. */
  lemma MadctlByteDefined(colormode: nat, rotation: int)
    requires colormode in {BYTE_ORDER_RGB, BYTE_ORDER_BGR}
    requires REVERSE_LANDSCAPE <= rotation < 256
    ensures MadctlByte(colormode, rotation) == Madctl(colormode, rotation, ORIENTATION_TABLE)
  {
    if rotation >= 0 {
      assert Pow2(8) == 256 by {
        assert Pow2(4) == 16;
      }
      BitOrBelow(rotation, colormode, 8);
    } else {
      MadctlOrientations(colormode);
    }
  }

  /** A raw code past the byte range is stored by its low 8 bits: 0x100 with
      RGB order sends MADCTL 0x00, and 0x1E0 sends 0xE0. */
  lemma MadctlByteTruncates()
    ensures MadctlByte(BYTE_ORDER_RGB, 0x100) == Success(0x00)
    ensures MadctlByte(BYTE_ORDER_RGB, 0x1E0) == Success(0xE0)
  {
  }

  // ---------------------------------------------------------------------------
  // Address windows

  /** `(v >> 8) & 0xFF` on Python's unbounded two's-complement integers: the
      upper byte of `v` truncated to 16 bits. */
  function HighByte(v: int): (b: int)
    ensures 0 <= b < 256
    ensures b * 256 <= v % 65536 < b * 256 + 256
  {
    var q := v / 256;
    assert v == (q / 256) * 65536 + ((q % 256) * 256 + v % 256);
    DivUnique(v, 65536, q / 256, (q % 256) * 256 + v % 256);
    q % 256
  }

  /** `v & 0xFF`: the byte that differs from `v` by a multiple of 256. */
  function LowByte(v: int): (b: int)
    ensures 0 <= b < 256
    ensures (v - b) % 256 == 0
  {
    v % 256
  }

  /** Reading a big-endian byte pair back as a 16-bit value gives the address
      modulo 2^16. */
  lemma HighLowDecode(v: int)
    ensures HighByte(v) * 256 + LowByte(v) == v % 65536
  {
    var q := v / 256;
    var r := v % 256;
    var s := q / 256;
    var t := q % 256;
    assert v == q * 256 + r;
    assert q == s * 256 + t;
    assert v == s * 65536 + (t * 256 + r);
    assert 0 <= t * 256 + r < 65536;
  }

  /** The four parameter bytes of a CASET or RASET window `[a1, a2]`. */
  function WindowBytes(a1: int, a2: int): (b: seq<int>)
    ensures |b| == 4
    ensures forall i | 0 <= i < 4 :: 0 <= b[i] < 256
    ensures b[0] * 256 + b[1] == a1 % 65536
    ensures b[2] * 256 + b[3] == a2 % 65536
  {
    HighLowDecode(a1);
    HighLowDecode(a2);
    [HighByte(a1), LowByte(a1), HighByte(a2), LowByte(a2)]
  }

  /** For addresses that fit 16 bits the window bytes decode back exactly. */
  lemma WindowRoundTrip(a1: int, a2: int)
    requires 0 <= a1 < 65536 && 0 <= a2 < 65536
    ensures WindowBytes(a1, a2)[0] * 256 + WindowBytes(a1, a2)[1] == a1
    ensures WindowBytes(a1, a2)[2] * 256 + WindowBytes(a1, a2)[3] == a2
  {
  }

  // ---------------------------------------------------------------------------
  // Transport

  /** The transport: every transaction handed to it, in order. */
  class Bus {
    var log: seq<Txn>

    constructor ()
      ensures log == []
    {
      log := [];
    }

    method Init(width: int, height: int, bpp: int, byteSwap: bool)
      modifies this
      ensures log == old(log) + [BusInit(width, height, bpp, byteSwap)]
    {
      log := log + [BusInit(width, height, bpp, byteSwap)];
    }

    method TxParam(cmd: int, params: seq<int>)
      modifies this
      ensures log == old(log) + [Param(cmd, params)]
    {
      log := log + [Param(cmd, params)];
    }

    method TxColor(cmd: int, pixels: seq<int>, x1: int, y1: int, x2: int, y2: int)
      modifies this
      ensures log == old(log) + [Color(cmd, pixels, x1, y1, x2, y2)]
    {
      log := log + [Color(cmd, pixels, x1, y1, x2, y2)];
    }
  }

  // ---------------------------------------------------------------------------
  // The display

  class Display {
    const dataBus: Bus
    const displayWidth: int
    const displayHeight: int
    const resetState: int
    const powerOnState: int
    const backlightOnState: int
    const offsetX: int
    const offsetY: int
    const colorByteOrder: nat
    const bpp: int
    const colorSize: int
    /** The 4-byte parameter buffer, reused by every register write. */
    const paramBuf: array<int>

    var resetPin: Pin
    var powerPin: Pin
    var backlightPin: BacklightPin
    /** Every level written to a line, oldest first. */
    var pinLog: seq<PinWrite>
    var orientation: int
    var initialized: bool

    ghost predicate Valid()
      reads this, paramBuf
    {
      && paramBuf.Length == 4
      && (forall i | 0 <= i < 4 :: 0 <= paramBuf[i] < 256)
      && CheckLineStates(powerOnState, resetState, backlightOnState).Pass?
      && (backlightPin.PwmBacklight? ==> backlightOnState == STATE_PWM)
      && (backlightPin.DigitalBacklight? ==> backlightOnState != STATE_PWM)
    }

    /** The state right after construction with the given arguments: each
        configured digital line written once, to its inactive level, in the
        order reset, power, backlight; a PWM backlight is not written. */
    ghost predicate InitialState(
      dataBus: Bus, displayWidth: int, displayHeight: int,
      resetPin: Option<int>, resetState: int,
      powerPin: Option<int>, powerOnState: int,
      backlightPin: Option<int>, backlightOnState: int,
      offsetX: int, offsetY: int, colorByteOrder: nat, orientation: int, bpp: int)
      reads this, paramBuf
    {
      && this.dataBus == dataBus
      && this.displayWidth == displayWidth && this.displayHeight == displayHeight
      && this.resetState == resetState && this.powerOnState == powerOnState
      && this.backlightOnState == backlightOnState
      && this.offsetX == offsetX && this.offsetY == offsetY
      && this.colorByteOrder == colorByteOrder
      && this.bpp == bpp && this.colorSize == bpp / 8
      && this.resetPin == (if resetPin.Some? then Out(Not(resetState)) else NoPin)
      && this.powerPin == (if powerPin.Some? then Out(Not(powerOnState)) else NoPin)
      && this.backlightPin ==
           (if backlightPin.None? then NoBacklight
            else if backlightOnState == STATE_PWM then PwmBacklight
            else DigitalBacklight(Not(backlightOnState)))
      && this.pinLog ==
           (if resetPin.Some? then [PinWrite(ResetLine, Not(resetState))] else [])
           + (if powerPin.Some? then [PinWrite(PowerLine, Not(powerOnState))] else [])
           + (if backlightPin.Some? && backlightOnState != STATE_PWM
              then [PinWrite(BacklightLine, Not(backlightOnState))] else [])
      && this.orientation == orientation
      && !this.initialized
      && paramBuf[..] == [0, 0, 0, 0]
    }

    /** Construction once the line states have been validated and a bit depth
        is given; the transport is initialised with the geometry and depth. */
    constructor (
      dataBus: Bus, displayWidth: int, displayHeight: int,
      resetPin: Option<int>, resetState: int,
      powerPin: Option<int>, powerOnState: int,
      backlightPin: Option<int>, backlightOnState: int,
      offsetX: int, offsetY: int, colorByteOrder: nat, orientation: int, bpp: int)
      requires CheckLineStates(powerOnState, resetState, backlightOnState).Pass?
      modifies dataBus
      ensures Valid() && fresh(paramBuf)
      ensures InitialState(dataBus, displayWidth, displayHeight, resetPin, resetState,
                           powerPin, powerOnState, backlightPin, backlightOnState,
                           offsetX, offsetY, colorByteOrder, orientation, bpp)
      ensures dataBus.log == old(dataBus.log) + [BusInit(displayWidth, displayHeight, bpp, false)]
    {
      this.dataBus := dataBus;
      this.displayWidth := displayWidth;
      this.displayHeight := displayHeight;
      var log: seq<PinWrite> := [];
      if resetPin.None? {
        this.resetPin := NoPin;
      } else {
        this.resetPin := Out(Not(resetState));
        log := log + [PinWrite(ResetLine, Not(resetState))];
      }
      this.resetState := resetState;
      if powerPin.None? {
        this.powerPin := NoPin;
      } else {
        this.powerPin := Out(Not(powerOnState));
        log := log + [PinWrite(PowerLine, Not(powerOnState))];
      }
      this.powerOnState := powerOnState;
      if backlightPin.None? {
        this.backlightPin := NoBacklight;
      } else if backlightOnState == STATE_PWM {
        this.backlightPin := PwmBacklight;
      } else {
        this.backlightPin := DigitalBacklight(Not(backlightOnState));
        log := log + [PinWrite(BacklightLine, Not(backlightOnState))];
      }
      this.backlightOnState := backlightOnState;
      this.pinLog := log;
      this.offsetX := offsetX;
      this.offsetY := offsetY;
      this.paramBuf := new int[4](_ => 0);
      this.orientation := orientation;
      this.initialized := false;
      this.colorByteOrder := colorByteOrder;
      this.bpp := bpp;
      this.colorSize := bpp / 8;
      new;
      dataBus.Init(displayWidth, displayHeight, bpp, false);
    }

    /** The whole constructor, including its error paths: an invalid line
        state is reported first, then a missing bit depth. */
    static method New(
      dataBus: Bus, displayWidth: int, displayHeight: int,
      resetPin: Option<int>, resetState: int,
      powerPin: Option<int>, powerOnState: int,
      backlightPin: Option<int>, backlightOnState: int,
      offsetX: int, offsetY: int, colorByteOrder: nat, orientation: int, bpp: Option<int>)
      returns (r: Result<Display, DisplayError>)
      modifies dataBus
      ensures r.Failure? <==> CheckLineStates(powerOnState, resetState, backlightOnState).Fail? || bpp.None?
      ensures CheckLineStates(powerOnState, resetState, backlightOnState).Fail? ==>
        r == Failure(CheckLineStates(powerOnState, resetState, backlightOnState).error)
      ensures CheckLineStates(powerOnState, resetState, backlightOnState).Pass? && bpp.None? ==>
        r == Failure(BppMissing)
      ensures r.Failure? ==> dataBus.log == old(dataBus.log)
      ensures r.Success? ==>
        && fresh(r.value) && fresh(r.value.paramBuf) && r.value.Valid()
        && r.value.InitialState(dataBus, displayWidth, displayHeight, resetPin, resetState,
                                powerPin, powerOnState, backlightPin, backlightOnState,
                                offsetX, offsetY, colorByteOrder, orientation, bpp.value)
        && dataBus.log == old(dataBus.log) + [BusInit(displayWidth, displayHeight, bpp.value, false)]
    {
      var check := CheckLineStates(powerOnState, resetState, backlightOnState);
      if check.Fail? {
        return Failure(check.error);
      }
      if bpp.None? {
        return Failure(BppMissing);
      }
      var d := new Display(dataBus, displayWidth, displayHeight, resetPin, resetState,
                           powerPin, powerOnState, backlightPin, backlightOnState,
                           offsetX, offsetY, colorByteOrder, orientation, bpp.value);
      r := Success(d);
    }

    /** The orientation setter: the value is always stored; the MADCTL byte is
        sent only once the display is initialised. */
    method SetOrientation(value: int) returns (res: Outcome<DisplayError>)
      requires Valid()
      modifies this`orientation, paramBuf, dataBus
      ensures Valid() && orientation == value
      ensures !initialized ==> res == Pass
      ensures initialized ==> res == OutcomeOf(MadctlByte(colorByteOrder, value))
      ensures initialized && res.Pass? ==>
        && dataBus.log == old(dataBus.log) + [Param(MADCTL, [MadctlByte(colorByteOrder, value).value])]
        && paramBuf[..] == [MadctlByte(colorByteOrder, value).value] + old(paramBuf[1..])
      ensures !initialized || res.Fail? ==>
        dataBus.log == old(dataBus.log) && paramBuf[..] == old(paramBuf[..])
    {
      orientation := value;
      res := Pass;
      if initialized {
        var b := MadctlByte(colorByteOrder, value);
        if b.Failure? {
          return Fail(b.error);
        }
        paramBuf[0] := b.value;
        assert paramBuf[..1] == [b.value];
        dataBus.TxParam(MADCTL, paramBuf[..1]);
      }
    }

    /** The backlight setter's digital branch drives the level for `value`
        using the POWER line's on-state, as the code does.  A PWM backlight is
        left as it is in this model. */
    method SetBacklight(value: int)
      requires Valid()
      modifies this`backlightPin, this`pinLog
      ensures Valid()
      ensures old(backlightPin).DigitalBacklight? ==>
        && backlightPin == DigitalBacklight(DriveLevel(powerOnState, value))
        && pinLog == old(pinLog) + [PinWrite(BacklightLine, DriveLevel(powerOnState, value))]
      ensures !old(backlightPin).DigitalBacklight? ==>
        backlightPin == old(backlightPin) && pinLog == old(pinLog)
    {
      if backlightPin.DigitalBacklight? {
        var level := DriveLevel(powerOnState, value);
        backlightPin := DigitalBacklight(level);
        pinLog := pinLog + [PinWrite(BacklightLine, level)];
      }
    }

    /** `init`: mark initialised, re-apply the stored orientation (now sent),
        then switch the backlight on. */
    method Init() returns (res: Outcome<DisplayError>)
      requires Valid()
      modifies this`initialized, this`orientation, this`backlightPin, this`pinLog, paramBuf, dataBus
      ensures Valid() && initialized && orientation == old(orientation)
      ensures res == OutcomeOf(MadctlByte(colorByteOrder, old(orientation)))
      ensures res.Pass? ==>
        && dataBus.log == old(dataBus.log) + [Param(MADCTL, [MadctlByte(colorByteOrder, old(orientation)).value])]
        && paramBuf[..] == [MadctlByte(colorByteOrder, old(orientation)).value] + old(paramBuf[1..])
      ensures res.Pass? && old(backlightPin).DigitalBacklight? ==>
        && backlightPin == DigitalBacklight(DriveLevel(powerOnState, 100))
        && pinLog == old(pinLog) + [PinWrite(BacklightLine, DriveLevel(powerOnState, 100))]
      ensures res.Fail? || !old(backlightPin).DigitalBacklight? ==>
        backlightPin == old(backlightPin) && pinLog == old(pinLog)
      ensures res.Fail? ==> dataBus.log == old(dataBus.log) && paramBuf[..] == old(paramBuf[..])
    {
      initialized := true;
      res := SetOrientation(orientation);
      if res.Fail? {
        return;
      }
      SetBacklight(100);
    }

    /** The power getter: -1 with no power line, otherwise 1 exactly when the
        line is at its active level. */
    function Power(): (r: int)
      reads this
      ensures powerPin.NoPin? ==> r == -1
      ensures powerPin.Out? ==> (r == 1 <==> powerPin.level == Truth(powerOnState))
      ensures powerPin.Out? ==> (r == 0 <==> powerPin.level != Truth(powerOnState))
    {
      match powerPin
      case NoPin => -1
      case Out(level) => ReadLevel(powerOnState, level)
    }

    /** The power setter: a no-op with no power line; otherwise the value read
        back afterwards is the truthiness of what was written. */
    method SetPower(value: int)
      requires Valid()
      modifies this`powerPin, this`pinLog
      ensures Valid()
      ensures old(powerPin).NoPin? ==> powerPin == NoPin && pinLog == old(pinLog)
      ensures old(powerPin).Out? ==>
        && powerPin == Out(DriveLevel(powerOnState, value))
        && pinLog == old(pinLog) + [PinWrite(PowerLine, DriveLevel(powerOnState, value))]
      ensures Power() == if old(powerPin).NoPin? then -1 else Truth(value)
    {
      if powerPin.Out? {
        var level := DriveLevel(powerOnState, value);
        powerPin := Out(level);
        pinLog := pinLog + [PinWrite(PowerLine, level)];
      }
    }

    /** The reset pulse: the active level, then the inactive level (the hold
        time between them is not modelled); nothing without a reset line. */
    method Reset()
      requires Valid()
      modifies this`resetPin, this`pinLog
      ensures Valid()
      ensures old(resetPin).NoPin? ==> resetPin == NoPin && pinLog == old(pinLog)
      ensures old(resetPin).Out? ==>
        && resetPin == Out(Not(resetState))
        && pinLog == old(pinLog) + [PinWrite(ResetLine, Truth(resetState)), PinWrite(ResetLine, Not(resetState))]
        && Truth(resetState) != Not(resetState)
    {
      if resetPin.Out? {
        resetPin := Out(Truth(resetState));
        pinLog := pinLog + [PinWrite(ResetLine, Truth(resetState))];
        resetPin := Out(Not(resetState));
        pinLog := pinLog + [PinWrite(ResetLine, Not(resetState))];
      }
    }

    /** `blit`: the column window, then the row window, each as four
        big-endian bytes written through the shared parameter buffer, then the
        pixel data with the resolved window. */
    method Blit(x: int, y: int, width: int, height: int, buf: seq<int>)
      requires Valid()
      modifies paramBuf, dataBus
      ensures Valid()
      ensures dataBus.log == old(dataBus.log) + [
        Param(CASET, WindowBytes(x + offsetX, x + offsetX + width - 1)),
        Param(RASET, WindowBytes(y + offsetY, y + offsetY + height - 1)),
        Color(RAMWR, buf, x + offsetX, y + offsetY, x + offsetX + width - 1, y + offsetY + height - 1)]
      ensures paramBuf[..] == WindowBytes(y + offsetY, y + offsetY + height - 1)
    {
      var x1 := x + offsetX;
      var x2 := x + offsetX + width - 1;
      FillWindow(x1, x2);
      dataBus.TxParam(CASET, paramBuf[..4]);

      var y1 := y + offsetY;
      var y2 := y + offsetY + height - 1;
      FillWindow(y1, y2);
      dataBus.TxParam(RASET, paramBuf[..4]);

      dataBus.TxColor(RAMWR, buf, x1, y1, x2, y2);
    }

    /** Overwrite the parameter buffer with the window `[a1, a2]`. */
    method FillWindow(a1: int, a2: int)
      requires Valid()
      modifies paramBuf
      ensures Valid()
      ensures paramBuf[..4] == paramBuf[..] == WindowBytes(a1, a2)
    {
      paramBuf[0] := HighByte(a1);
      paramBuf[1] := LowByte(a1);
      paramBuf[2] := HighByte(a2);
      paramBuf[3] := LowByte(a2);
      assert paramBuf[..] == WindowBytes(a1, a2);
    }
  }

  /** The deferred apply: an orientation set before `init` sends nothing, and
      `init` then sends exactly one MADCTL write, for that orientation. */
  method OrientBeforeInit(d: Display, value: int) returns (res: Outcome<DisplayError>)
    requires d.Valid() && !d.initialized
    modifies d, d.paramBuf, d.dataBus
    ensures d.Valid() && d.initialized && d.orientation == value
    ensures res == OutcomeOf(MadctlByte(d.colorByteOrder, value))
    ensures res.Pass? ==>
      d.dataBus.log == old(d.dataBus.log) + [Param(MADCTL, [MadctlByte(d.colorByteOrder, value).value])]
    ensures res.Fail? ==> d.dataBus.log == old(d.dataBus.log)
  {
    var first := d.SetOrientation(value);
    assert d.dataBus.log == old(d.dataBus.log);
    res := d.Init();
  }
}
