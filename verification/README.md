# Display register logic and touch normalisation, modelled in Dafny

This project models the coordinate and register logic that sits between a
MicroPython application, its display panel and its touch sensor:

- **Display driver** (`display_driver.dfy`, module `DisplayDriver`). This covers:
  - the MADCTL (memory-access-control) byte for an orientation code. Codes
    -1..-4 select an entry of the orientation table. A non-negative code is
    the raw register value. The colour-order bit is or'ed in either way.
  - the blit protocol. The column window goes to CASET (0x2A) and the row
    window to RASET (0x2B), each as four big-endian bytes. The pixel data then
    goes to RAMWR (0x2C) with the resolved window.
  - the deferred orientation apply. MADCTL (0x36) is sent only once `init`
    has run.
  - the power, reset and backlight lines, with constructor validation and
    polarity normalisation.

  The transport is a `Bus` object that logs every transaction. The lines are
  fields holding an output level, plus an ordered log of every level written.
  The 4-byte parameter buffer is an array that is overwritten in place.
- **Touch normaliser** (`touchpad.dfy`, module `TouchpadDriver`). A rotation in
  degrees selects a 3-bit mask from a table. The mask decodes into swap-xy,
  invert-x and invert-y flags. A raw sensor point is swapped, then x-inverted,
  then y-inverted. `Touchpad.Read` reduces the result to a 3×3 keypad code.
- **Keypad reducer** (`touch_matrix.dfy`, module `TouchMatrix`). `Matrix.Read`
  does the same 3×3 reduction over whatever point and size its touch driver
  reports.
- **Shared zone partition** (`zones.dfy`, module `Zones`). This is the
  reference definition that both reducers are proved against. The screen is
  cut at `n // 3` and `n * 2 // 3` with strict comparisons. The codes follow a
  numeric keypad: 7 8 9 on top, 4 5 6 in the middle, 1 2 3 at the bottom.
- `bits.dfy` (module `Bits`) gives Python's `|` on non-negative integers and
  its bit-level facts. `wrappers.dfy` gives Option, Result and Outcome.

Python's `//` and `%` are used here only with positive divisors (3, 8, 90,
256 and the table length). For those divisors they agree with Dafny's `/`
and `%`. For the same reason `(v >> 8) & 0xFF` and `v & 0xFF` are modelled
exactly, for negative values too, as `(v / 256) % 256` and `v % 256`.
Exceptions become error values:
- RuntimeError for a bad line state
- TypeError for a missing bit depth
- IndexError for an orientation code past the table
- OSError from the sensor

Storing an integer into the byte buffer raises nothing: MicroPython's
bytearray keeps its low 8 bits, and the model does the same.

Two behaviours follow the code as written, not what it evidently intends:
- The digital backlight setter picks its polarity from the power line's
  on-state, not the backlight's (`Display.SetBacklight`, used by `Init`).
- An out-of-range orientation code is not rejected by the bounds check. It
  fails with IndexError at the table lookup, and the orientation setter and
  `init` report exactly that error (`MadctlByte` is built on
  `MadctlAsWritten`). The corrected `Madctl` is kept beside it and proved to
  agree on every code the table covers (see Findings).

## Model

| member | source | states |
|---|---|---|
| `DisplayDriver.CheckLineStates` | lib/display_driver.py:75-89 | Construction passes exactly when power and reset states are HIGH or LOW and the backlight state is HIGH, LOW or PWM. Otherwise the first violation, checked in the order power, reset, backlight, is the error. |
| `DisplayDriver.Display.constructor` | lib/display_driver.py:91-135 | Each configured digital line is written once, to its inactive level, in the order reset, power, backlight. A PWM backlight is not written. The orientation is stored and not yet applied. The parameter buffer is four zero bytes. The colour size is bpp // 8. The bus gets one init transaction carrying width, height, bpp and no byte swap. |
| `DisplayDriver.Display.New` | lib/display_driver.py:56-135 | The whole constructor. It fails with the line-state error, or with the missing-bit-depth error when no bpp is given, and then the bus is untouched. Otherwise it returns a fresh display in the constructor's initial state. |
| `DisplayDriver.InitialLevelIsInactive` | lib/display_driver.py:93-116 | A line's starting level reads back as off and differs from its active level. |
| `DisplayDriver.DriveLevel` | lib/display_driver.py:173-181 | A setter drives level 1 exactly when the on-state's truthiness equals the value's truthiness. |
| `DisplayDriver.ReadLevel` | lib/display_driver.py:162-171 | A getter reports 1 exactly when the line is at its active level. |
| `DisplayDriver.LineRoundTrip` | lib/display_driver.py:162-181 | Writing a value and reading it back gives the value's truthiness, for either polarity. |
| `DisplayDriver.Display.Power` | lib/display_driver.py:162-171 | Reads -1 with no power line. Otherwise reads 1 exactly when the line is at its active level, and 0 otherwise. |
| `DisplayDriver.Display.SetPower` | lib/display_driver.py:173-181 | With no power line nothing changes. Otherwise one write of the polarity-adjusted level is logged, and `Power()` afterwards equals the truthiness of the written value. |
| `DisplayDriver.Display.Reset` | lib/display_driver.py:183-189 | With no reset line nothing changes. Otherwise exactly two writes are logged: the active level, then the inactive level, which differ. |
| `DisplayDriver.Display.SetBacklight` | lib/display_driver.py:207-217 | A digital backlight is driven for the value using the power line's on-state, and the write is logged. Other backlights are left unchanged. |
| `DisplayDriver.Display.SetOrientation` | lib/display_driver.py:141-149 | The value is always stored. Before init nothing is sent. After init, a successful MADCTL byte is put in buffer byte 0, bytes 1..3 are kept, and exactly one MADCTL transaction carrying that byte is logged. A value of 256 or more is stored and sent as its low byte. A code past the table fails with IndexError, and then nothing is sent and the buffer is unchanged. |
| `DisplayDriver.Display.Init` | lib/display_driver.py:151-154 | Marks the display initialised and keeps the stored orientation. It sends exactly one MADCTL transaction for that orientation, with that byte in buffer byte 0 and bytes 1..3 kept, then drives a digital backlight on. On the setter's IndexError nothing is sent, and the buffer and the backlight are unchanged. |
| `DisplayDriver.OrientBeforeInit` | lib/display_driver.py:141-154 | An orientation set before init sends nothing. The following init sends exactly one MADCTL write, and it carries that orientation's byte. |
| `DisplayDriver.OrientationTableFlags` | lib/display_driver.py:30-35 | The last table entry is the bitwise or of MY, MX and MV. |
| `DisplayDriver.MadctlAsWritten` | lib/display_driver.py:219-232 | As written: a code >= 0 gives code or colormode (bitwise). A negative code whose index is past the table fails with IndexError at the lookup, because the guard has no effect. |
| `DisplayDriver.Madctl` | lib/display_driver.py:219-232 | A code >= 0 gives code or colormode (bitwise). Code -k gives table[k-1] or colormode (bitwise). The result fails, with the orientation error, exactly when the code is below minus the table length. |
| `DisplayDriver.MadctlGuardDefect` | lib/display_driver.py:228-232 | The guard `index > len` is false for index 4, which is already out of range, and true for index 5 without effect. Both -5 and -6 end in IndexError as written, and the corrected version rejects them. |
| `DisplayDriver.MadctlAgreesWithAsWritten` | lib/display_driver.py:228-232 | The corrected and as-written versions succeed on the same codes and give the same byte there. |
| `DisplayDriver.MadctlOrientations` | lib/display_driver.py:30-42 | With RGB or BGR order, the four codes give the following bytes, and every code below -4 is rejected: PORTRAIT 0x40+order, LANDSCAPE 0x20+order, REVERSE_PORTRAIT 0x80+order, REVERSE_LANDSCAPE 0xE0+order. |
| `DisplayDriver.MadctlDirectCode` | lib/display_driver.py:222-223 | A non-negative code with RGB order is returned unchanged. In general, bit k of the result is set exactly when bit k of the code or of the order is set. |
| `DisplayDriver.MadctlByte` | lib/display_driver.py:146-148 | It fails with IndexError exactly for codes below -4. Otherwise the stored byte is below 256 and congruent to the as-written MADCTL value mod 256, as MicroPython's bytearray store truncates. When that value fits a byte, the stored byte equals the corrected value. |
| `DisplayDriver.MadctlByteTruncates` | lib/display_driver.py:146-149 | Raw code 0x100 with RGB order is stored and sent as 0x00, and 0x1E0 as 0xE0. |
| `DisplayDriver.MadctlByteDefined` | lib/display_driver.py:146-148 | Every named orientation, and every raw code below 256, is stored whole under either colour order: the stored byte is exactly the corrected MADCTL value. |
| `Bits.BitOr` | lib/display_driver.py:223 | a or b (bitwise) on non-negative integers is at least each operand and at most their sum. |
| `Bits.BitOrBit` | lib/display_driver.py:223 | Bit k of a or b (bitwise) is set exactly when bit k of a or of b is set. |
| `Bits.BitOrBelow` | lib/display_driver.py:223 | Or'ing two values below 2^n stays below 2^n. |
| `Bits.BitOrDisjoint` | lib/display_driver.py:232 | Or'ing a value below 2^n into a multiple of 2^n is plain addition. |
| `DisplayDriver.HighByte` | lib/display_driver.py:239-242 | `(v >> 8) & 0xFF` is a byte b with b*256 <= v mod 2^16 < b*256+256, i.e. the upper byte of v truncated to 16 bits, for negative v too. |
| `DisplayDriver.LowByte` | lib/display_driver.py:239-242 | `v & 0xFF` is the byte that differs from v by a multiple of 256. |
| `DisplayDriver.HighLowDecode` | lib/display_driver.py:239-242 | The high byte times 256 plus the low byte is the address modulo 2^16, for every integer. |
| `DisplayDriver.WindowBytes` | lib/display_driver.py:239-242 | A window is four bytes, each in 0..255, whose pairs decode to start and end modulo 2^16. |
| `DisplayDriver.WindowRoundTrip` | lib/display_driver.py:236-253 | For 16-bit addresses the window bytes decode back to exactly x1 and x2, and likewise y1 and y2. |
| `DisplayDriver.Display.Blit` | lib/display_driver.py:234-257 | The bus gains exactly three transactions, in this order: CASET with the window bytes of x1 = x+offset_x and x2 = x1+width-1; RASET with those of y1 = y+offset_y and y2 = y1+height-1; RAMWR with the pixels and (x1, y1, x2, y2). The buffer ends holding the row window. |
| `DisplayDriver.Display.FillWindow` | lib/display_driver.py:239-242 | The whole 4-byte parameter buffer is overwritten in place with the window bytes of [a1, a2]. |
| `TouchpadDriver.DecodeMask` | touchpad.py:52-55 | After `mask & 0b111`, swap-xy is bit 0, invert-x bit 1 and invert-y bit 2. |
| `TouchpadDriver.DecodeEncode` | touchpad.py:52-55 | Decoding the mask built from any flags gives back those flags: bit 2 is invert-y, bit 1 invert-x, bit 0 swap-xy. |
| `TouchpadDriver.EncodeDecode` | touchpad.py:52-55 | Only the low 3 bits of a mask matter. Re-encoding the decoded flags gives `mask & 0b111`. |
| `TouchpadDriver.RotationIndex` | touchpad.py:41 | The table index is always in range for a non-empty table, negative degrees included. |
| `TouchpadDriver.RotationPeriodic` | touchpad.py:41 | A rotation plus 90 times the table length selects the same index. |
| `TouchpadDriver.DefaultRotations` | touchpad.py:1 | With the default table, 0/90/180/270 degrees give masks 0b000/0b101/0b110/0b011, -90 equals 270, and rotation + 360 gives the same mask as rotation. |
| `TouchpadDriver.Touchpad.constructor` | touchpad.py:14-19 | An empty table falls back to the default table. The flags are the decoded entry for the initial rotation. |
| `TouchpadDriver.Touchpad.SetTouchRotation` | touchpad.py:40-44 | The flags become the decoded table entry at `(rotation // 90) % len(table)`. |
| `TouchpadDriver.Touchpad.SetTouchRotationMask` | touchpad.py:46-57 | The flags become the decoded low 3 bits of the mask, and max_x = width-1, max_y = height-1. |
| `TouchpadDriver.Transform` | touchpad.py:31-36 | Swapping, then inverting x, then inverting y is undone by the inverse transform. A coordinate that is neither swapped nor inverted passes through unchanged. |
| `TouchpadDriver.TransformInverse` | touchpad.py:31-36 | For every mask the transform is undone by the inverse transform, in both directions. |
| `TouchpadDriver.IdentityMask` | touchpad.py:31-37 | Mask 0 leaves every point unchanged. |
| `TouchpadDriver.InvertTwice` | touchpad.py:33-36 | Without a swap, applying the inversions twice restores the point. |
| `TouchpadDriver.TransformInBounds` | touchpad.py:33-36 | A raw point in the sensor's box lands in [0, max_x] × [0, max_y]. |
| `TouchpadDriver.DefaultMasksCompose` | touchpad.py:1 | On a square screen the 90° mask applied twice equals the 180° mask, and 90° then 270° is the identity. |
| `TouchpadDriver.FirstPoint` | touchpad.py:27-30 | A falsy reading yields no point. A bare pair is used as it is. Otherwise the first point of the sequence is used. |
| `TouchpadDriver.Touchpad.GetTouched` | touchpad.py:21-38 | Fails exactly when the sensor raises. Otherwise it yields a point exactly when the reading is truthy, and un-transforming that point gives back the raw point. |
| `TouchpadDriver.Touchpad.Read` | touchpad.py:59-88 | No code exactly when the sensor raises or reports no touch. Otherwise the code is in 1..9 and equals the reference zone code of the normalised point. |
| `Zones.Band` | touchpad.py:67-74 | Band 0 exactly when v < n//3, band 2 exactly when v is not below n//3 and v > n*2//3, band 1 otherwise. |
| `Zones.ZoneCode` | touchpad.py:65-87 | Every point gets a code in 1..9. |
| `Zones.ZoneCodeDecodes` | touchpad.py:66-87 | Row and column are recovered from a code, so distinct zones have distinct codes. |
| `Zones.ZoneLayout` | touchpad.py:66-87 | The left column is 7/4/1 (START, CW, LEFT), the middle column 8/5/2 (UNUSED, UP, DOWN) and the right column 9/6/3 (PAUSE, CCW, RIGHT), each top to bottom. |
| `Zones.BoundariesInMiddle` | touch_matrix.py:24-41 | Points exactly at n//3 or n*2//3 fall in the middle band. |
| `Zones.BandMonotonic` | touchpad.py:67-74 | Bands are ordered along the axis. |
| `Zones.EveryZoneReachable` | touchpad.py:65-87 | On a screen at least 4 pixels in each direction, every code 1..9 is produced by some on-screen point. |
| `Zones.NarrowScreenHasNoRightColumn` | touchpad.py:74 | With width below 4, no on-screen x reaches the right column. |
| `TouchMatrix.Matrix.Read` | touch_matrix.py:16-45 | No code exactly when the driver raises or reports no touch. Otherwise a code in 1..9 equal to the reference zone code of the driver's point. It always equals `Touchpad.Read` for the same poll. |

## Findings

| source | as written | input that shows it | evidently intended | confidence | as-written member | corrected member |
|---|---|---|---|---|---|---|
| lib/display_driver.py:229-230 | The guard is `index > len(rotations)`, and its RuntimeError is constructed but never raised. | rotation = -5: index 4 is past the 4-entry table, the guard is false, and the lookup raises IndexError. rotation = -6: the guard is true, nothing is raised, and the lookup raises IndexError. | Raise the descriptive error for every index >= len(rotations). | high; not executed | `DisplayDriver.MadctlAsWritten` (shown by `DisplayDriver.MadctlGuardDefect`) | `DisplayDriver.Madctl` (proved to reject every out-of-table code with the orientation error; `MadctlAgreesWithAsWritten` shows that it fails on the same codes and agrees elsewhere) |

## Left out

- `DisplayDriver.Madctl`: is the corrected definition and reports an out-of-table code as `InvalidOrientation`. The code as written fails on the same codes, but with IndexError at the lookup. The orientation setter and `init` follow the code and use `MadctlAsWritten` (see Findings).
- `DisplayDriver.Display.SetBacklight`: the PWM branch (`duty_u16(value / 100 * 65535)`) is float scaling and leaves the model's state unchanged.
- `DisplayDriver.Display.New`: with no bit depth, the real constructor has already configured the pins when `None // 8` raises. The model returns the error without recording those pin writes.
- `DisplayDriver.Display.Reset`: the 120 ms hold between the two writes is timing and is not modelled.
- `DisplayDriver.Display.Blit`: transport failures during a transaction are not modelled. The bus accepts every transaction.
- `DisplayDriver.Display.Blit`, `DisplayDriver.Display.SetOrientation`, `DisplayDriver.Display.Init`: the bus records a copy of the parameter bytes when it is called, where the code passes a memoryview of the shared buffer. An asynchronous transport that reads the shared buffer later is not modelled.
- `DisplayDriver.Display.constructor`, `DisplayDriver.Display.Init`: pin writes and bus transactions are kept in two separate logs, so their relative order is not stated. In the code, the constructor's pin writes come before `data_bus.init`, and `init` sends MADCTL before it writes the backlight.
- The backlight getter is not modelled. Its PWM branch rounds a float, and its digital branch mirrors the power getter, also testing the power line's on-state.
- `set_params` and `get_params` are not modelled. They forward a command and buffer straight to the bus.
- The `orientation` getter is not modelled. It returns the stored field, which the model exposes as `orientation`.
- The `DisplayDriver` subclass (LVGL display creation, draw buffers and flush callbacks) depends on a graphics library outside this model.
- lib/display_config.py (board wiring and bus construction) is not part of this model.
- The colour byte order is a non-negative integer. A negative value, legal for Python's `|`, is not modelled.
- Getters that return Python's `not state` (a bool) are modelled as 0/1.
- Pin identifiers are not modelled; only whether a line is configured is kept.
- The `print` logging in the touch driver and its hardware demo block are not modelled.
- The sensor read function is not stored. Each poll's result is a `Reading` parameter, and an absent rotation table is an empty sequence.
- Readings are points of two integers. Coordinates of other types and tuples of another length, which would raise in the unpacking, are not modelled.
- `Matrix` takes any object with `get_touched`, `width` and `height`. The model fixes that object to be a `Touchpad`.
- The program has no configurable N×M grid reducer and no event pass-through, so the model has none.
