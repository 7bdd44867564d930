# Sphere mapping: a Dafny model

This project models sphere_mapping. It is a micro:bit magnetometer and
accelerometer sensor that streams its readings over a serial line. A host
application turns each reading into an orientation quaternion, rotates a
textured sphere with it, and publishes the frame and the yaw, pitch and roll
angles to a client.

There is one module per component of the system:

- `Decimals`: numerals `-?\d+(\.\d+)?` as they appear on the serial line, and the exact values they denote.
- `SerialParser` and `SerialParserProperties`: `parse_line`.
  - It is modelled as a leftmost search for the measurement pattern, followed by `float()` of the six groups.
  - It is proved sound, complete and leftmost.
  - A round trip shows that text in the measurement shape parses back to its values.
  - Proofs show that the `ValueError` handler of `parse_line` cannot be reached.
- `Measure`: the `Measurement` record and the `Calibration` class.
  - Covers its Python `__eq__` (which may answer NotImplemented) and its in-place `update`.
  - Covers the `!=` the timer tick uses.
- `Quaternions`: the `Quaternion` class.
  - Its `update` normalises both readings and calls the FQA estimator.
  - `to_matrix4`: the rotation block of a unit quaternion is proved orthonormal.
  - `to_euler_zyx`: the pitch clamp only matters off the unit sphere.
- `Sphere`: the parts of `SphereOrientation` that are not rendering.
  - The size check of `to_bytes`, including the fact that its own default of 200 pixels always raises.
  - The zero-norm guard of the vertex projection.
  - The transform installed by `update`.
- `Host`: the timer tick `on_timer`.
  - Reads seven integer settings and a type setting, then adopts the calibration when it changed.
  - Reads a line, parses it, updates the orientation and publishes.
  - The client configuration, the serial read and the clocks are inputs. What the tick publishes is kept as a log.
- `Firmware`: the serial side of `microbit-firmware/src/main.rs`.
  - The starting calibration, and the measurement line written on every pass.
  - `parse_command`, and the receive loop that frames incoming bytes into commands in a 32-byte buffer.
  - The receive loop is proved against a reference line splitter. A debug print unwraps `from_utf8` of the buffer, so a line that is not UTF-8 panics and stops the firmware. The model keeps that panic as a halted state.
- `Led`: `dir_from_theta` and `direction_to_led`.
  - The limits are the exact single-precision values the compiler folds.
  - The eight sectors are proved to partition the angles, and the eight patterns are proved distinct.

The sine, cosine, square-root and estimator routines of numpy and ahrs are
foreign code. They are passed in as the fields of a `Math` value. Where a
lemma needs more than their signature, it assumes only `Lawful(math)`:
`sqrt` returns the non-negative root. Floating-point numbers are modelled as
reals.

## Model

| member | source | states |
|---|---|---|
| Decimals.DecomposeShow | src/utils/serial_parser.py:19 | splitting a numeral's text at its sign and first point gives back the numeral, so every text of the group grammar names exactly one numeral |
| Decimals.NumeralShape | src/utils/serial_parser.py:19 | a group text never carries a '+' sign, an exponent, or a leading or trailing '.' |
| Decimals.DigitRunStops | src/utils/serial_parser.py:19 | `\d+` stops exactly at the first non-digit |
| Decimals.NatDigits | microbit-firmware/src/main.rs:113-116 | the decimal digits the firmware writes for an integer are non-empty digits whose value is that integer |
| SerialParser.LexNumber | src/utils/serial_parser.py:19 | the greedy numeral taken at the start of a text is a valid numeral and a prefix of it |
| SerialParser.MatchAt | src/utils/serial_parser.py:19 | a match at one position yields exactly six valid numerals |
| SerialParser.LeftmostFrom | src/utils/serial_parser.py:48 | `re.search` returns a position where the pattern matches with no match before it, or none when it matches nowhere |
| SerialParser.Search | src/utils/serial_parser.py:48 | a successful search yields six group texts |
| SerialParser.PyFloat | src/utils/serial_parser.py:51-52 | `float()` of a group text: an optional sign, then digits with an optional fraction and exponent, read as their exact value, or None for ValueError; SerialParserProperties.PyFloatShow states it on every numeral |
| SerialParser.ParseLine | src/utils/serial_parser.py:43-56 | `parse_line`: mag from groups 1-3 and acc from groups 4-6 of the leftmost match, or None without a match; its contract is stated by SerialParserProperties.ParseLineSomeIffMatch, ParseLineLeftmost and RoundTrip |
| SerialParserProperties.LexShow | src/utils/serial_parser.py:19 | a numeral followed by text that cannot lengthen it is scanned back exactly |
| SerialParserProperties.LexGreedy | src/utils/serial_parser.py:19 | whatever follows the scanned numeral cannot lengthen it |
| SerialParserProperties.FieldsComplete | src/utils/serial_parser.py:19 | numerals joined by ", " are matched back as exactly those numerals |
| SerialParserProperties.FieldsSound | src/utils/serial_parser.py:19 | what the field matcher found is a prefix of the text made of the numerals joined by ", ", and the text after it cannot lengthen the last |
| SerialParserProperties.MatchAtComplete | src/utils/serial_parser.py:19 | "Measurement: " followed by six numerals separated by ", " matches with those numerals as its groups |
| SerialParserProperties.MatchAtSound | src/utils/serial_parser.py:19 | every match is "Measurement: " and six numerals separated by ", ", followed by text that cannot lengthen the sixth |
| SerialParserProperties.GroupsAreNumerals | src/utils/serial_parser.py:19 | every group of the leftmost match is one numeral, with no '+', exponent or stray '.' |
| SerialParserProperties.MatchStartsWithM | src/utils/serial_parser.py:19 | a match can only begin at an 'M' |
| SerialParserProperties.PyFloatShow | src/utils/serial_parser.py:51-52 | `float()` accepts every numeral text and yields exactly the value it denotes |
| SerialParserProperties.FloatsOfNumerals | src/utils/serial_parser.py:50-55 | converting the groups never fails, so the ValueError handler is unreachable |
| SerialParserProperties.ParseLineSomeIffMatch | src/utils/serial_parser.py:43-56 | `parse_line` returns a measurement if and only if the pattern occurs somewhere in the line |
| SerialParserProperties.ParseLineLeftmost | src/utils/serial_parser.py:48-53 | the measurement comes from the leftmost occurrence: mag from groups 1-3, acc from groups 4-6, each the value of its numeral |
| SerialParserProperties.RoundTrip | src/utils/serial_parser.py:43-56 | six numerals in the measurement shape, after text without an 'M' and before text that cannot lengthen the sixth, parse back to their values |
| Measure.Calibration.constructor | src/utils/measure.py:19-27 | a new calibration holds the four fields given |
| Measure.Calibration.Eq | src/utils/measure.py:33-39 | `__eq__` answers a boolean exactly for a Calibration argument, true iff all four fields are equal, and NotImplemented otherwise |
| Measure.Calibration.Update | src/utils/measure.py:41-48 | `update` copies all four fields of a Calibration, after which the two compare equal, and leaves the object unchanged for any other argument |
| Measure.NotEqual | src/sphere_app.py:57 | `!=` on a Calibration is true iff some field differs, and always true against None or a non-Calibration |
| Measure.EqIsEquivalence | src/utils/measure.py:33-39 | `__eq__` is reflexive, symmetric and transitive on calibrations |
| Measure.OneFieldDiffers | src/utils/measure.py:36-39 | a single differing field makes two calibrations unequal |
| Quaternions.NormPositiveIffNonZero | src/utils/quaternion.py:18-19 | with a lawful square root the guard `norm > 0` holds exactly for non-zero readings |
| Quaternions.DividedIsUnit | src/utils/quaternion.py:18-20 | dividing a reading by its positive norm gives a vector of norm 1 |
| Quaternions.Estimate | src/utils/quaternion.py:15-35 | the `q` that `update` leaves: unchanged when either reading has zero norm, otherwise the FQA estimate of the two normalised readings; Quaternions.Quaternion.Update is proved against it |
| Quaternions.Quaternion.constructor | src/utils/quaternion.py:9-10 | a new quaternion is the identity (1, 0, 0, 0) |
| Quaternions.Quaternion.Update | src/utils/quaternion.py:15-35 | a zero accelerometer, then a zero magnetometer, abandons the update and keeps `q`; otherwise `q` becomes the FQA estimate of the two unit vectors |
| Quaternions.RotationMatrix | src/utils/quaternion.py:37-47 | `to_matrix4` is a 4x4 homogeneous matrix: last row (0, 0, 0, 1), last column zero above it |
| Quaternions.IdentityMatrix | src/utils/quaternion.py:37-47 | the identity quaternion gives the identity matrix |
| Quaternions.UnitGivesOrthonormalRows | src/utils/quaternion.py:37-47 | for a unit quaternion the rows of the rotation block are orthonormal |
| Quaternions.Clip | src/utils/quaternion.py:69 | `np.clip` lies within its bounds, keeps values inside them and moves others to the nearer bound |
| Quaternions.EulerArgs | src/utils/quaternion.py:67-70 | the argument handed to `arcsin` lies in [-1, 1] |
| Quaternions.EulerArgsFromMatrix | src/utils/quaternion.py:41-70 | yaw, pitch and roll are read off the rotation matrix in the Z-Y-X convention |
| Quaternions.PitchUnclampedForUnit | src/utils/quaternion.py:69 | for a unit quaternion the pitch term already lies in [-1, 1], so the clamp leaves it unchanged |
| Quaternions.IdentityEulerArgs | src/utils/quaternion.py:67-70 | the identity quaternion hands (0, 1) to both `arctan2` calls and 0 to `arcsin` |
| Quaternions.IdentityAngles | src/utils/quaternion.py:67-73 | the initial orientation's angles in radians are `atan2(0, 1)`, `asin(0)` and `atan2(0, 1)` |
| Quaternions.DegreesScale | src/utils/quaternion.py:71-72 | each angle in degrees is its radian value times 180 / pi |
| Quaternions.Degrees | src/utils/quaternion.py:71-72 | `np.degrees`: an angle times 180 / pi; Quaternions.DegreesScale states it for all three angles |
| Quaternions.ToEulerZyx | src/utils/quaternion.py:49-73 | `to_euler_zyx`: `arctan2`, `arcsin` of the clipped term and `arctan2` of the matrix entries, in degrees on request; Quaternions.EulerArgsFromMatrix, EulerArgs and IdentityAngles state its properties |
| Sphere.FloorSqrt | src/utils/sphere.py:93 | `int(np.sqrt(n))` is the integer whose square brackets n |
| Sphere.FloorSqrtIs | src/utils/sphere.py:93 | the bracketing property determines the integer root |
| Sphere.CheckPixels | src/utils/sphere.py:91-96 | `to_bytes` rejects a count of at most 0 as not positive, any other non-square as not square, and otherwise renders a square of that area |
| Sphere.CheckPixelsSquare | src/utils/sphere.py:91-96 | a positive count is accepted with side d exactly when it is d squared |
| Sphere.DefaultPixelsRejected | src/utils/sphere.py:74-95 | `to_bytes()` with its default of 200 pixels always raises "not a perfect square" |
| Sphere.ImagePixelsAccepted | src/sphere_app.py:79 | the frame the tick asks for, IMAGE_SIZE squared, is accepted with side IMAGE_SIZE |
| Sphere.ReplacedHasNoZero | src/utils/sphere.py:45 | after `norms[norms == 0] = 1.0` no norm is zero, non-zero norms are kept and zero ones are 1 |
| Sphere.ReplaceZeroNorms | src/utils/sphere.py:45 | the masked assignment in place on the array of norms |
| Sphere.WithZeroNormsReplaced | src/utils/sphere.py:45 | the norms after `norms[norms == 0] = 1.0`, of the same length; Sphere.ReplacedHasNoZero states the rest |
| Sphere.UnitVerticesOnSphere | src/utils/sphere.py:44-46 | every non-zero vertex is projected onto the unit sphere, and a vertex at the origin stays there |
| Sphere.UnitVertices | src/utils/sphere.py:44-46 | `verts / norms` with the guarded norms, one vertex per vertex; Sphere.UnitVerticesOnSphere states where they lie |
| Sphere.SphereOrientation.constructor | src/utils/sphere.py:61-64 | the initial transform is the identity |
| Sphere.SphereOrientation.Update | src/utils/sphere.py:69-72 | `update` installs the quaternion's rotation matrix |
| Host.Truncate | src/sphere_app.py:42-48 | `int()` of a float truncates toward zero |
| Host.IntOfText | src/sphere_app.py:42-48 | `int()` of a string: whitespace at both ends ignored, then an optional sign and ASCII digits grouped by single underscores, else ValueError; its lemmas below state each part |
| Host.PyInt | src/sphere_app.py:42-48 | `int()` of a configuration value: an int is kept, a float truncated toward zero, a string converted as above |
| Host.StripUnpadded | src/sphere_app.py:42-48 | a text that neither starts nor ends with whitespace is left as it is by the strip `int()` does |
| Host.StripKeeps | src/sphere_app.py:42-48 | the strip only removes whitespace: every other character of the text survives it |
| Host.StripSpaces | src/sphere_app.py:42-48 | a text made only of whitespace strips to nothing |
| Host.StripPadded | src/sphere_app.py:42-48 | whitespace added at either end does not change what a text strips to |
| Host.DigitsGrouped | src/sphere_app.py:42-48 | a run of digits is a valid underscore grouping with nothing to drop, worth its decimal value |
| Host.GroupedJoin | src/sphere_app.py:42-48 | two runs of digits joined by one underscore are a valid grouping whose digits are the two runs |
| Host.IntOfSignedDigits | src/sphere_app.py:42-48 | an optional minus sign and a run of digits convert to the signed decimal value |
| Host.IntOfTextRoundTrip | src/sphere_app.py:42-48 | `int()` of the text `str()` writes for an integer gives that integer back |
| Host.IntOfTextRejectsPoint | src/sphere_app.py:42-48 | `int()` of a text with a decimal point raises |
| Host.IntOfTextPadded | src/sphere_app.py:42-48 | `int()` ignores whitespace at both ends of the text, as `int(" 5\n") == 5` |
| Host.IntOfTextUnderscore | src/sphere_app.py:42-48 | a single underscore between two runs of digits is ignored, as `int("1_000") == 1000` |
| Host.MisplacedUnderscores | src/sphere_app.py:42-48 | doubled, leading and trailing underscores raise ValueError |
| Host.InnerSpaces | src/sphere_app.py:42-48 | whitespace after the sign or between digits, and a blank text, raise ValueError |
| Host.ConvertedIff | src/sphere_app.py:42-48 | the seven conversions all succeed iff every setting converts |
| Host.ConvertedValues | src/sphere_app.py:42-48 | the converted values are the settings' values, in order |
| Host.FailedKey | src/sphere_app.py:42-48 | a failed conversion names the first setting that does not convert |
| Host.CandidateOf | src/sphere_app.py:41-55 | the calibration a tick builds from its settings, or the first integer key whose value `int()` refuses; Host.CandidateSpec and RejectedSpec state both outcomes |
| Host.CandidateSpec | src/sphere_app.py:41-55 | a calibration is built iff all seven settings convert; it is constant iff the type setting is absent or "constant", and each integer field is its setting after `int()`, which ignores whitespace at both ends and single underscores between digits |
| Host.RejectedSpec | src/sphere_app.py:42-48 | a rejected tick names the first integer key whose value `int()` refuses (a fraction, inner whitespace, a misplaced underscore or any other non-integer text), and every key before it converts |
| Host.CandidateFromSettings | src/sphere_app.py:41-55 | settings that all convert give the calibration made of their values |
| Host.DefaultCandidate | src/sphere_app.py:41-55 | an empty configuration gives the constant default calibration |
| Host.TypeSettingOnly | src/sphere_app.py:41-52 | any type setting other than the string "constant" switches `is_constant` off and leaves the other defaults |
| Host.RadiusSettings | src/sphere_app.py:48 | a radius given as `str(i)`, as `i` or as the float `i + 0.5` becomes `i`, except that the negative float truncates toward zero to `i + 1` |
| Host.OnlyRadius | src/sphere_app.py:41-55 | a configuration holding only a radius that `int()` accepts keeps every other default and takes that radius |
| Host.PaddedRadius | src/sphere_app.py:48 | a radius written as `str(i)` with whitespace around it, as `" 5"` or `"5\n"`, becomes `i` |
| Host.FractionalTextRejected | src/sphere_app.py:42 | a fractional string setting stops the tick at that key |
| Host.Publishes | src/sphere_app.py:76-84 | a streamed tick publishes the 400x400 frame, then yaw, pitch and roll in radians at one instant |
| Host.ParsedIff | src/sphere_app.py:61-67 | a tick reaches the orientation update iff the settings convert and a non-empty line that parses was read; the line alone decides the measurement |
| Host.PathOf | src/sphere_app.py:41-67 | where a tick goes: the rejected key, an empty read, an unparsable line or the parsed measurement; Host.ParsedIff states when it reaches the measurement |
| Host.LinePath | src/sphere_app.py:61-67 | the same once the settings converted, decided by the line alone; Host.App.HandleLine is proved against it |
| Host.App.constructor | src/sphere_app.py:31-36 | before the first tick there is no calibration, the orientation is the identity and `last` is the start time |
| Host.App.AdoptCalibration | src/sphere_app.py:41-59 | a rejected setting raises with its key and leaves the calibration; otherwise the current calibration holds the candidate's fields, is the same object when it already compared equal, and is a new one otherwise |
| Host.App.OnTimer | sphere_app.py:126-172 | a tick adopts the calibration; on a rejected setting, an empty read or an unparsable line it changes nothing else; otherwise it advances `last`, updates the quaternion, installs its matrix and publishes frame and angles; the update at line 161 is taken to ignore `dt` (see Left out) |
| Host.App.HandleLine | sphere_app.py:149-172 | the early returns of a tick and, for a parsed line, the orientation update and the publishes |
| Host.App.StreamMeasurement | sphere_app.py:157-172 | a parsed measurement advances `last`, updates the quaternion and the displayed transform, and appends the frame and the three angles |
| Host.App.OnTimerAsWritten | src/sphere_app.py:38-84 | the tick as written: identical up to the update call, which raises TypeError on every parsed line after `last` advances, so nothing is published |
| Host.App.HandleLineAsWritten | src/sphere_app.py:61-73 | the early returns, then `last` advances and the two-argument update call raises |
| Firmware.HostDefaultsAreFirmwareCalibration | microbit-firmware/src/main.rs:28-40 | the host's configuration defaults are the firmware's starting calibration |
| Firmware.MagNumeral | microbit-firmware/src/main.rs:113-116 | `{:.2}` of a magnetometer component: its integer digits and ".00"; Firmware.NumeralValues states its value |
| Firmware.AccNumeral | microbit-firmware/src/main.rs:113-116 | `{:.2}` of an accelerometer component: a plain integer; Firmware.NumeralValues states its value |
| Firmware.MeasurementLine | microbit-firmware/src/main.rs:113-116 | the line `write!` produces: the six numerals between the literal pieces of the format string, ending in "\r\n"; Firmware.MeasurementLineParses states that the host reads it back |
| Firmware.NumeralValues | microbit-firmware/src/main.rs:108-116 | each component as written (`<int>.00` for mag, `<int>` for acc) is a numeral whose value is the component |
| Firmware.FieldValues | microbit-firmware/src/main.rs:113-116 | the six written fields denote the three mag and three acc components, in order |
| Firmware.MeasurementLineParses | microbit-firmware/src/main.rs:113-116 | the host parses the firmware's line, with or without its "\r\n", back to exactly the values written |
| Firmware.FirmwareLineReachesUpdate | microbit-firmware/src/main.rs:113-116 | under default settings every firmware line, once stripped, takes a host tick to the orientation update with the values written |
| Firmware.ParseCommand | microbit-firmware/src/main.rs:150-156 | `parse_command`: ManualCal for exactly the bytes "SCAL", Unknown otherwise; Firmware.ParseCommandText states it for text |
| Firmware.ParseCommandText | microbit-firmware/src/main.rs:150-156 | a command is ManualCal iff its text is exactly "SCAL" |
| Firmware.ValidUtf8 | microbit-firmware/src/main.rs:122 | the byte strings `from_utf8` accepts: well-formed UTF-8, with no overlong forms, no surrogates and nothing above U+10FFFF; Firmware.AsciiIsUtf8 and StrayBytesInvalid state its edges |
| Firmware.AsciiIsUtf8 | microbit-firmware/src/main.rs:122 | an ASCII buffer passes `from_utf8` |
| Firmware.StrayBytesInvalid | microbit-firmware/src/main.rs:122 | a lone continuation byte or a byte from 0xF5 upward fails `from_utf8` |
| Firmware.Step | microbit-firmware/src/main.rs:121-137 | one received byte: a delimiter or a full buffer dispatches and clears the buffer, or halts on a non-UTF-8 buffer; other bytes are pushed; Firmware.StepKeepsBounded and DispatchDropsTrigger state its properties |
| Firmware.Run | microbit-firmware/src/main.rs:120-138 | the loop over the received bytes, one step per byte in order; Firmware.RunKeepsBounded, RunExtends and RunIsLineSplitting state its properties |
| Firmware.StepKeepsBounded | microbit-firmware/src/main.rs:121-137 | the buffer never exceeds its capacity nor holds CR or LF, so `push(...).unwrap()` never fails |
| Firmware.RunKeepsBounded | microbit-firmware/src/main.rs:120-138 | that bound holds across any sequence of received bytes |
| Firmware.DispatchDropsTrigger | microbit-firmware/src/main.rs:121-135 | a dispatch runs the buffer's command, clears the buffer and drops the byte that triggered it |
| Firmware.RunHalted | microbit-firmware/src/main.rs:122 | after the panic nothing more is processed |
| Firmware.RunAppend | microbit-firmware/src/main.rs:91-138 | the buffer outlives each pass of the main loop, so two reads are framed as one |
| Firmware.RunExtends | microbit-firmware/src/main.rs:120-138 | commands already dispatched are never taken back |
| Firmware.RunIsLineSplitting | microbit-firmware/src/main.rs:120-138 | when every line fits the buffer and is UTF-8, the loop dispatches the command of every complete line in order, keeps the unterminated text and never panics |
| Firmware.OverlongLine | microbit-firmware/src/main.rs:121 | a 33-byte line dispatches its first 32 bytes as an Unknown command and loses the 33rd |
| Firmware.ScalExamples | microbit-firmware/src/main.rs:120-156 | "SCAL\r" requests one calibration; "SCAL\r\n" also dispatches an Unknown command for the empty line |
| Firmware.SplitReadExample | microbit-firmware/src/main.rs:91-138 | "SC" in one read and "AL\r" in the next still request a calibration |
| Firmware.NoiseHalts | microbit-firmware/src/main.rs:122 | a stray 0xFF byte halts the firmware at the next delimiter |
| Firmware.Receiver.constructor | microbit-firmware/src/main.rs:87-91 | the firmware starts with the precomputed calibration, written once, and an empty buffer |
| Firmware.Receiver.Receive | microbit-firmware/src/main.rs:120-138 | reading a sequence of bytes in place leaves the state the loop specification gives, and keeps the buffer and calibration invariants |
| Firmware.Receiver.Feed | microbit-firmware/src/main.rs:121-137 | one byte in place is one step of the loop specification |
| Firmware.Receiver.Push | microbit-firmware/src/main.rs:137 | a push appends the byte to the buffer's contents |
| Firmware.Receiver.Dispatch | microbit-firmware/src/main.rs:122-135 | a UTF-8 buffer is dispatched and cleared; a ManualCal adopts and writes the next calibration result; any other buffer panics and halts |
| Led.LimitsIncrease | microbit-firmware/src/led.rs:79-98 | the eight sector limits increase strictly |
| Led.DirFromTheta | microbit-firmware/src/led.rs:79-100 | `dir_from_theta`: the first limit the angle lies strictly below picks the direction, West at or above the last; Led.DirectionOfSector and DirectionIff state it per sector |
| Led.SomeSector | microbit-firmware/src/led.rs:79-100 | every angle lies in some sector |
| Led.SectorsDisjoint | microbit-firmware/src/led.rs:79-100 | no angle lies in two sectors |
| Led.DirectionOfSector | microbit-firmware/src/led.rs:79-100 | `dir_from_theta` gives each angle the direction of its sector |
| Led.DirectionIff | microbit-firmware/src/led.rs:79-100 | a direction is returned exactly for the angles of its sectors |
| Led.WestAtBothEnds | microbit-firmware/src/led.rs:80-97 | West is returned exactly below -7pi/8 and from 7pi/8 on |
| Led.LimitsBelongAbove | microbit-firmware/src/led.rs:79-100 | the comparisons are strict, so each limit belongs to the sector above it |
| Led.CardinalAngles | microbit-firmware/src/led.rs:79-100 | angle 0 is East and pi/2 is North |
| Led.DirectionToLed | microbit-firmware/src/led.rs:102-113 | every pattern is 5 rows of 5 LEDs, each 0 or 1 |
| Led.DecodePattern | microbit-firmware/src/led.rs:102-113 | each direction can be read back from its pattern |
| Led.PatternsDistinct | microbit-firmware/src/led.rs:102-113 | distinct directions show distinct patterns |
| Led.SouthIsFlippedNorth | microbit-firmware/src/led.rs:15-53 | SOUTH is NORTH upside down |
| Led.WestIsMirroredEast | microbit-firmware/src/led.rs:31-69 | WEST is EAST mirrored left to right |
| Led.OppositeIsHalfTurn | microbit-firmware/src/led.rs:15-77 | each direction's opposite shows the same arrow turned half a turn |

## Left out

- Serial I/O: opening the port and `read_serial` (`readline`, `decode('utf-8', errors='ignore')`, `strip()`). The read line is an input of the tick.
- Logging and printing, including the `update_calibration` helper, which only logs.
- The client SDK calls (`get_value`, `stream`, `stream_rgb`, `clear_*`), the vispy scene, the canvas, the texture coordinates and the rendered pixels. What the tick publishes is recorded as `Publish` values; the frame is recorded as the size check `to_bytes` performs.
- `np.sqrt`, `arctan2`, `arcsin`, pi inside those routines, and the FQA estimator are foreign code. They are parameters (`Math`), and only the square-root law is assumed where a lemma says so.
- Floating-point rounding: every float is a real. `float()` of a group gives its exact decimal value. `int(np.sqrt(n))` is the exact integer root.
- `float()` spellings that the groups can never take: `inf`, `nan`, underscores and surrounding whitespace.
- Non-ASCII Unicode digits that Python's `\d` also matches. Only '0'-'9' are digits here.
- Host.CandidateSpec: the `int()` of its settings accepts only the digits '0'-'9'. Python's `int()` also accepts other Unicode decimal digits, such as `int("\u0665")`, so such a setting builds a calibration in Python and is rejected here. A float setting is a real, so `int()` of `inf` (OverflowError) and of `nan` (ValueError) is not modelled; every float setting converts here.
- Host.RejectedSpec: the key it names may hold non-ASCII decimal digits that Python's `int()` accepts, and it never names a key holding a float `inf` or `nan`, which Python refuses. Both follow from the gaps in the line above.
- Host.IntOfText: non-ASCII decimal digits are refused; Python accepts them.
- Host.PyInt: a float is a real, so the `inf` and `nan` that make Python's `int()` raise do not exist here.
- The `dt` the tick computes and never uses.
- Firmware.MagNumeral: a magnetometer component is written as `<integer>.00`. That is exact only while the calibrated integer fits an f32 exactly (below 2^24 in magnitude). Larger values are not modelled.
- `calc_calibration`, `calibrated_measurement` and the calibration's `Display` format (calibration.rs is not part of this model). The routine is a function from run number to result, and written calibrations are kept as values, not text.
- Sensor and display hardware: the busy-wait loops, `atan2f` of the field, and showing the LED pattern.
- The `my_sphere` and `my_quaternion` modules that sphere_app.py imports are not part of this model. For its tick, Host.App.OnTimer assumes that `my_quaternion`'s `update(measurement, dt)` ignores `dt` and otherwise acts like `update(measurement)` in src/utils/quaternion.py:15-35, and that `my_sphere` acts like src/utils/sphere.py. With the `utils` Quaternion itself, the call at sphere_app.py:161 raises TypeError, as Host.App.OnTimerAsWritten shows for src/sphere_app.py.

## Findings

| source | as written | input that shows it | evidently intended | confidence | as-written member | corrected member |
|---|---|---|---|---|---|---|
| src/sphere_app.py:73 | `quat.update(measurement, dt)` passes two arguments to the one-parameter `Quaternion.update` (src/utils/quaternion.py:15). Every parsed tick raises TypeError after `last` has advanced, so the orientation never changes and nothing is published. | default settings and any line the firmware writes, e.g. "Measurement: 1.00, 2.00, 3.00, 4, 5, 6" (`Firmware.FirmwareLineReachesUpdate` shows such a line reaches the call) | the orientation is updated from the measurement, then the frame and the angles are published | not executed | Host.App.OnTimerAsWritten | Host.App.OnTimer |
