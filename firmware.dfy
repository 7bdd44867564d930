/** The serial side of the micro:bit firmware (microbit-firmware/src/main.rs):
    the calibration it starts from, the measurement line it writes on every
    pass of its main loop, and the loop that assembles incoming bytes into
    commands.

    Sensor access, the LED display and the debug channel are hardware and are
    not modelled. The on-device calibration routine (`calc_calibration`, in
    calibration.rs, which is not part of this model) is represented by the
    sequence of results it produces, one per run. */
module Firmware {
  import opened Decimals
  import opened Measure
  import opened SerialParser
  import opened SerialParserProperties
  import Host

  newtype byte = b: int | 0 <= b < 256

  const CR: byte := 13
  const LF: byte := 10

  /** The capacity of the receive buffer, `heapless::Vec<u8, 32>`. */
  const CAPACITY: nat := 32

  // ---------------------------------------------------------------------------
  // Calibration constant

  /** calibration.rs's `Calibration`: a center and a scale triple and a radius. */
  datatype DeviceCalibration = DeviceCalibration(center: Triple, scale: Triple, radius: int)

  /** The precomputed calibration the firmware starts with. */
  const CALIBRATION: DeviceCalibration :=
    DeviceCalibration(Triple(20962, 34322, -23924), Triple(1203, 1177, 1133), 48098)

  /** The host's configuration defaults are the firmware's starting calibration:
      with no settings, the host adopts a constant calibration made of it. */
  lemma HostDefaultsAreFirmwareCalibration()
    ensures Host.CandidateOf(map[]) ==
      Host.Candidate(CalibrationValue(true, CALIBRATION.center, CALIBRATION.scale, CALIBRATION.radius))
  {
    Host.DefaultCandidate();
  }

  // ---------------------------------------------------------------------------
  // The measurement line

  function Abs(v: int): nat { if v < 0 then -v else v }

  /** `{:.2}` of a magnetometer component: the calibrated component is an
      integer, converted to f32 and written with two decimals, so it reads
      `<integer>.00`. */
  function MagNumeral(v: int): Decimal { Decimal(v < 0, NatDigits(Abs(v)), "00") }

  /** `{:.2}` of an accelerometer component, an i32 in milli-g: the precision
      is ignored for integers, so it is written as a plain integer. */
  function AccNumeral(v: int): Decimal { Decimal(v < 0, NatDigits(Abs(v)), "") }

  function Fields(g: Triple, a: Triple): seq<Decimal> {
    [MagNumeral(g.x), MagNumeral(g.y), MagNumeral(g.z), AccNumeral(a.x), AccNumeral(a.y), AccNumeral(a.z)]
  }

  /** What `write!` produces from a format string: its literal pieces with
      the formatted arguments between them. */
  function Interleave(pieces: seq<string>, args: seq<string>): string
    requires |pieces| == |args| + 1
  {
    if args == [] then pieces[0] else pieces[0] + (args[0] + Interleave(pieces[1..], args[1..]))
  }

  /** The literal pieces of the measurement format string, lines 113-116, and
      the same without the final "\r\n" that the host strips. */
  const LINE_PIECES: seq<string> := ["Measurement: ", ", ", ", ", ", ", ", ", ", ", "\r\n"]
  const STRIPPED_PIECES: seq<string> := ["Measurement: ", ", ", ", ", ", ", ", ", ", ", ""]

  /** The line written on every pass of the main loop. */
  function MeasurementLine(g: Triple, a: Triple): string { Interleave(LINE_PIECES, Shows(Fields(g, a))) }

  /** That line as the host sees it, stripped of its "\r\n". */
  function StrippedLine(g: Triple, a: Triple): string { Interleave(STRIPPED_PIECES, Shows(Fields(g, a))) }

  lemma NumeralValues(v: int)
    ensures Valid(MagNumeral(v)) && Value(MagNumeral(v)) == v as real
    ensures Valid(AccNumeral(v)) && Value(AccNumeral(v)) == v as real
  {
    assert DigitsValue("00") == 0 by {
      assert "00"[..1] == "0" && "0"[..0] == "";
    }
  }

  lemma {:induction false} ValuesAt(ds: seq<Decimal>, i: nat)
    requires AllValid(ds) && i < |ds|
    ensures Values(ds)[i] == Value(ds[i])
  {
    if i > 0 {
      AllValidTail(ds);
      ValuesAt(ds[1..], i - 1);
    }
  }

  lemma FieldValues(g: Triple, a: Triple)
    ensures AllValid(Fields(g, a))
    ensures Values(Fields(g, a)) ==
      [g.x as real, g.y as real, g.z as real, a.x as real, a.y as real, a.z as real]
  {
    NumeralValues(g.x);
    NumeralValues(g.y);
    NumeralValues(g.z);
    NumeralValues(a.x);
    NumeralValues(a.y);
    NumeralValues(a.z);
    var ds := Fields(g, a);
    forall i | 0 <= i < 6 ensures Values(ds)[i] == Value(ds[i]) {
      ValuesAt(ds, i);
    }
  }

  /** A format string whose pieces between arguments are all ", " joins its
      arguments with ", ". */
  lemma {:induction false} InterleaveJoins(pieces: seq<string>, ts: seq<string>, rest: string)
    requires |ts| >= 1 && |pieces| == |ts| + 1 && pieces[|ts|] == rest
    requires forall i | 1 <= i < |ts| :: pieces[i] == SEP
    ensures Interleave(pieces, ts) == pieces[0] + Joined(ts, rest)
    decreases |ts|
  {
    if |ts| > 1 {
      InterleaveJoins(pieces[1..], ts[1..], rest);
    }
  }

  /** The host reads back exactly the values the firmware wrote, both from the
      raw line and from the line stripped of its "\r\n": mag from the first
      three fields, acc from the last three. */
  lemma MeasurementLineParses(g: Triple, a: Triple)
    ensures var m := Measurement(Vec3(g.x as real, g.y as real, g.z as real), Vec3(a.x as real, a.y as real, a.z as real));
      ParseLine(MeasurementLine(g, a)) == Some(m) && ParseLine(StrippedLine(g, a)) == Some(m)
  {
    var ds := Fields(g, a);
    FieldValues(g, a);
    InterleaveJoins(LINE_PIECES, Shows(ds), "\r\n");
    InterleaveJoins(STRIPPED_PIECES, Shows(ds), "");
    assert MeasurementLine(g, a) == "" + MeasurementText(ds, "\r\n");
    assert StrippedLine(g, a) == "" + MeasurementText(ds, "");
    RoundTrip("", ds, "\r\n");
    RoundTrip("", ds, "");
  }

  /** Under the default settings, every line the firmware writes, once the
      host has stripped it, takes a tick to the orientation update with the
      values written: the path on which src/sphere_app.py raises. */
  lemma FirmwareLineReachesUpdate(g: Triple, a: Triple)
    ensures Host.PathOf(map[], Some(StrippedLine(g, a))) ==
      Host.Parsed(Measurement(Vec3(g.x as real, g.y as real, g.z as real), Vec3(a.x as real, a.y as real, a.z as real)))
  {
    MeasurementLineParses(g, a);
    Host.DefaultCandidate();
    assert StrippedLine(g, a)[0] == 'M';
  }

  // ---------------------------------------------------------------------------
  // Commands

  datatype SerialCommand = ManualCal | Unknown

  /** The bytes of an ASCII text. */
  function Ascii(t: string): (r: seq<byte>)
    requires forall i | 0 <= i < |t| :: t[i] < 128 as char
    ensures |r| == |t| && forall i | 0 <= i < |t| :: r[i] as int == t[i] as int
  {
    seq(|t|, i requires 0 <= i < |t| => t[i] as int as byte)
  }

  const SCAL: seq<byte> := [83, 67, 65, 76]

  /** `parse_command`: only the exact bytes "SCAL" ask for a calibration. */
  function ParseCommand(command: seq<byte>): SerialCommand {
    if command == SCAL then ManualCal else Unknown
  }

  predicate IsAscii(t: string) { forall i | 0 <= i < |t| :: t[i] < 128 as char }

  /** A command typed as ASCII text is ManualCal exactly when the text is
      "SCAL": the empty command, other letter cases, and "SCAL" with anything
      before or after it are all Unknown. */
  lemma ParseCommandText(t: string)
    requires IsAscii(t)
    ensures ParseCommand(Ascii(t)) == ManualCal <==> t == "SCAL"
  {
    assert Ascii("SCAL") == SCAL;
    if Ascii(t) == SCAL {
      assert |t| == 4;
      forall i | 0 <= i < 4 ensures t[i] == "SCAL"[i] {
        assert Ascii(t)[i] == SCAL[i];
      }
    }
  }

  // ---------------------------------------------------------------------------
  // UTF-8

  predicate Continuation(b: byte) { 0x80 <= b <= 0xBF }

  /** The second byte of a three-byte sequence: no overlong forms and no
      surrogates. */
  predicate Second3(lead: byte, b: byte) {
    if lead == 0xE0 then 0xA0 <= b <= 0xBF
    else if lead == 0xED then 0x80 <= b <= 0x9F
    else Continuation(b)
  }

  /** The second byte of a four-byte sequence: no overlong forms and nothing
      above U+10FFFF. */
  predicate Second4(lead: byte, b: byte) {
    if lead == 0xF0 then 0x90 <= b <= 0xBF
    else if lead == 0xF4 then 0x80 <= b <= 0x8F
    else Continuation(b)
  }

  /** The bytes `core::str::from_utf8` accepts: well-formed UTF-8. */
  predicate ValidUtf8(s: seq<byte>)
    decreases |s|
  {
    if s == [] then true
    else if s[0] < 0x80 then ValidUtf8(s[1..])
    else if 0xC2 <= s[0] <= 0xDF then |s| >= 2 && Continuation(s[1]) && ValidUtf8(s[2..])
    else if 0xE0 <= s[0] <= 0xEF then
      |s| >= 3 && Second3(s[0], s[1]) && Continuation(s[2]) && ValidUtf8(s[3..])
    else if 0xF0 <= s[0] <= 0xF4 then
      |s| >= 4 && Second4(s[0], s[1]) && Continuation(s[2]) && Continuation(s[3]) && ValidUtf8(s[4..])
    else false
  }

  predicate AllAscii(s: seq<byte>) { forall i | 0 <= i < |s| :: s[i] < 0x80 }

  /** ASCII bytes are valid UTF-8. */
  lemma {:induction false} AsciiIsUtf8(s: seq<byte>)
    requires AllAscii(s)
    ensures ValidUtf8(s)
  {
    if s != [] {
      AsciiIsUtf8(s[1..]);
    }
  }

  /** A byte that can only continue a sequence is never valid on its own, nor
      is a lone 0xFF. */
  lemma StrayBytesInvalid(b: byte)
    requires Continuation(b) || b >= 0xF5
    ensures !ValidUtf8([b])
  {
  }

  // ---------------------------------------------------------------------------
  // The receive loop, as a function of the bytes received

  predicate IsDelimiter(b: byte) { b == CR || b == LF }

  /** What the receive loop has done so far: the bytes held in the buffer, the
      commands dispatched, and whether a dispatch panicked (the debug print
      unwraps `from_utf8` of the buffer; the panic handler never returns, so
      the firmware stops). */
  datatype Receipt = Receipt(buffer: seq<byte>, commands: seq<SerialCommand>, halted: bool)

  const EMPTY: Receipt := Receipt([], [], false)

  /** One iteration of `while let Ok(byte) = serial.read()`: a delimiter, or
      any byte arriving at a full buffer, dispatches the buffer and clears it,
      and is itself dropped; any other byte is pushed. */
  function Step(r: Receipt, b: byte): Receipt {
    if r.halted then r
    else if IsDelimiter(b) || |r.buffer| >= CAPACITY then
      if ValidUtf8(r.buffer) then Receipt([], r.commands + [ParseCommand(r.buffer)], false)
      else r.(halted := true)
    else r.(buffer := r.buffer + [b])
  }

  /** The loop over a sequence of received bytes, in order. */
  function Run(r: Receipt, s: seq<byte>): Receipt
    decreases |s|
  {
    if s == [] then r else Step(Run(r, s[..|s| - 1]), s[|s| - 1])
  }

  /** The buffer never holds more than its capacity, nor a CR or LF. */
  predicate Bounded(r: Receipt) {
    |r.buffer| <= CAPACITY && forall i | 0 <= i < |r.buffer| :: !IsDelimiter(r.buffer[i])
  }

  /** So `buffer.push(byte).unwrap()` never fails: a push only happens below
      capacity. */
  lemma StepKeepsBounded(r: Receipt, b: byte)
    requires Bounded(r)
    ensures Bounded(Step(r, b))
    ensures !r.halted && !IsDelimiter(b) && |r.buffer| >= CAPACITY ==> |r.buffer| == CAPACITY
    ensures !r.halted && !IsDelimiter(b) && |r.buffer| < CAPACITY ==> Step(r, b).buffer == r.buffer + [b]
  {
  }

  lemma {:induction false} RunKeepsBounded(r: Receipt, s: seq<byte>)
    requires Bounded(r)
    ensures Bounded(Run(r, s))
    decreases |s|
  {
    if s != [] {
      RunKeepsBounded(r, s[..|s| - 1]);
      StepKeepsBounded(Run(r, s[..|s| - 1]), s[|s| - 1]);
    }
  }

  /** A dispatch clears the buffer and drops the byte that triggered it: the
      commands grow by the buffer's command and the buffer starts empty. */
  lemma DispatchDropsTrigger(r: Receipt, b: byte)
    requires !r.halted && ValidUtf8(r.buffer)
    requires IsDelimiter(b) || |r.buffer| >= CAPACITY
    ensures Step(r, b).buffer == [] && b !in Step(r, b).buffer
    ensures Step(r, b).commands == r.commands + [ParseCommand(r.buffer)]
  {
  }

  /** Once halted, nothing more happens. */
  lemma {:induction false} RunHalted(r: Receipt, s: seq<byte>)
    requires r.halted
    ensures Run(r, s) == r
    decreases |s|
  {
    if s != [] {
      RunHalted(r, s[..|s| - 1]);
    }
  }

  /** The buffer outlives each pass of the main loop, so the bytes of two reads
      are framed as if they had arrived in one: a command split across reads
      is reassembled. */
  lemma {:induction false} RunAppend(r: Receipt, x: seq<byte>, y: seq<byte>)
    ensures Run(r, x + y) == Run(Run(r, x), y)
    decreases |y|
  {
    if y == [] {
      assert x + y == x;
    } else {
      var z := x + y;
      assert z[..|z| - 1] == x + y[..|y| - 1];
      assert z[|z| - 1] == y[|y| - 1];
      RunAppend(r, x, y[..|y| - 1]);
    }
  }

  /** Commands already dispatched are never taken back. */
  lemma {:induction false} RunExtends(r: Receipt, s: seq<byte>)
    ensures |r.commands| <= |Run(r, s).commands| && Run(r, s).commands[..|r.commands|] == r.commands
    decreases |s|
  {
    if s != [] {
      RunExtends(r, s[..|s| - 1]);
    }
  }

  // ---------------------------------------------------------------------------
  // The receive loop against line splitting

  /** The received bytes split at CR and LF: the complete lines, each ended by
      a delimiter (which belongs to no line), and the text after the last one. */
  datatype Lines = Lines(complete: seq<seq<byte>>, partial: seq<byte>)

  function Split(s: seq<byte>): Lines
    decreases |s|
  {
    if s == [] then Lines([], [])
    else
      var l := Split(s[..|s| - 1]);
      if IsDelimiter(s[|s| - 1]) then Lines(l.complete + [l.partial], [])
      else Lines(l.complete, l.partial + [s[|s| - 1]])
  }

  function Commands(lines: seq<seq<byte>>): (r: seq<SerialCommand>)
    ensures |r| == |lines| && forall k | 0 <= k < |lines| :: r[k] == ParseCommand(lines[k])
  {
    seq(|lines|, k requires 0 <= k < |lines| => ParseCommand(lines[k]))
  }

  /** Every line fits the buffer, and every complete line is valid UTF-8 (as
      any ASCII line is). */
  predicate Framed(s: seq<byte>) {
    var l := Split(s);
    |l.partial| <= CAPACITY &&
    forall k | 0 <= k < |l.complete| :: |l.complete[k]| <= CAPACITY && ValidUtf8(l.complete[k])
  }

  lemma FramedPrefix(s: seq<byte>)
    requires s != [] && Framed(s)
    ensures Framed(s[..|s| - 1])
    ensures var l := Split(s[..|s| - 1]);
      !IsDelimiter(s[|s| - 1]) ==> |l.partial| < CAPACITY
    ensures var l := Split(s[..|s| - 1]);
      IsDelimiter(s[|s| - 1]) ==> ValidUtf8(l.partial)
  {
    var l := Split(s[..|s| - 1]);
    if IsDelimiter(s[|s| - 1]) {
      assert Split(s).complete[|l.complete|] == l.partial;
      forall k | 0 <= k < |l.complete|
        ensures |l.complete[k]| <= CAPACITY && ValidUtf8(l.complete[k])
      {
        assert Split(s).complete[k] == l.complete[k];
      }
    }
  }

  /** With lines that fit, the loop is line splitting: it dispatches the
      command of every complete line, in order, holds the text after the last
      delimiter, and never panics. */
  lemma {:induction false} RunIsLineSplitting(s: seq<byte>)
    requires Framed(s)
    ensures Run(EMPTY, s) == Receipt(Split(s).partial, Commands(Split(s).complete), false)
    decreases |s|
  {
    if s != [] {
      var p := s[..|s| - 1];
      FramedPrefix(s);
      RunIsLineSplitting(p);
      var l := Split(p);
      if IsDelimiter(s[|s| - 1]) {
        assert Commands(l.complete + [l.partial]) == Commands(l.complete) + [ParseCommand(l.partial)];
      }
    }
  }

  /** A delimiter-free run of bytes is all partial text. */
  lemma {:induction false} SplitNoDelimiter(s: seq<byte>)
    requires forall i | 0 <= i < |s| :: !IsDelimiter(s[i])
    ensures Split(s) == Lines([], s)
    decreases |s|
  {
    if s != [] {
      SplitNoDelimiter(s[..|s| - 1]);
    }
  }

  /** A line longer than the buffer: its first 32 bytes are dispatched as one
      (Unknown) command when the 33rd arrives, and the 33rd is lost. */
  lemma OverlongLine(x: seq<byte>, b: byte)
    requires |x| == CAPACITY && AllAscii(x)
    requires forall i | 0 <= i < |x| :: !IsDelimiter(x[i])
    ensures Run(EMPTY, x + [b]) == Receipt([], [Unknown], false)
  {
    SplitNoDelimiter(x);
    RunIsLineSplitting(x);
    AsciiIsUtf8(x);
    assert (x + [b])[..|x|] == x;
  }

  /** "SCAL\r" dispatches one calibration request; "SCAL\r\n" dispatches it and
      then, for the empty line between CR and LF, an Unknown command. */
  lemma ScalExamples()
    ensures Run(EMPTY, SCAL + [CR]) == Receipt([], [ManualCal], false)
    ensures Run(EMPTY, SCAL + [CR, LF]) == Receipt([], [ManualCal, Unknown], false)
  {
    var s := SCAL + [CR, LF];
    assert s[..5] == SCAL + [CR];
    assert (SCAL + [CR])[..4] == SCAL;
    SplitNoDelimiter(SCAL);
    AsciiIsUtf8(SCAL);
    RunIsLineSplitting(SCAL);
  }

  /** "SC" in one read and "AL\r" in the next still ask for a calibration. */
  lemma SplitReadExample()
    ensures Run(Run(EMPTY, [83, 67]), [65, 76, CR]) == Receipt([], [ManualCal], false)
  {
    RunAppend(EMPTY, [83, 67], [65, 76, CR]);
    assert [83, 67] + [65, 76, CR] == SCAL + [CR];
    ScalExamples();
  }

  /** A stray non-UTF-8 byte, such as line noise 0xFF, halts the firmware at
      the next delimiter. */
  lemma NoiseHalts()
    ensures Run(EMPTY, [0xFF, CR]).halted
  {
    StrayBytesInvalid(0xFF);
    assert [0xFF, CR][..1] == [0xFF];
    assert [0xFF][..0] == [];
    assert Run(EMPTY, [0xFF]) == Receipt([0xFF], [], false);
  }

  // ---------------------------------------------------------------------------
  // The receive loop, in place

  function ManualCount(cs: seq<SerialCommand>): nat {
    if cs == [] then 0 else ManualCount(cs[..|cs| - 1]) + (if cs[|cs| - 1] == ManualCal then 1 else 0)
  }

  /** The firmware's receive state: the buffer's storage and length, and, for
      the dispatches made so far, the commands, the calibrations written to the
      serial port (the starting one first, then one per calibration run) and
      whether it has halted. `routine(k)` is what the k-th run of the on-device
      calibration routine measures. */
  class Receiver {
    const data: array<byte>
    var len: nat
    var dispatched: seq<SerialCommand>
    var halted: bool
    var calibration: DeviceCalibration
    var written: seq<DeviceCalibration>
    const routine: nat -> DeviceCalibration

    ghost predicate Valid()
      reads this, data
    {
      data.Length == CAPACITY && len <= CAPACITY &&
      (forall i | 0 <= i < len :: !IsDelimiter(data[i])) &&
      |written| == ManualCount(dispatched) + 1 &&
      written[0] == CALIBRATION &&
      (forall k | 1 <= k < |written| :: written[k] == routine(k - 1)) &&
      calibration == written[|written| - 1]
    }

    /** The loop's state as a Receipt. */
    ghost function State(): Receipt
      reads this, data
      requires len <= data.Length
    {
      Receipt(data[..len], dispatched, halted)
    }

    /** Lines 87-91: the starting calibration, written once, and an empty buffer. */
    constructor (routine: nat -> DeviceCalibration)
      ensures Valid() && fresh(data)
      ensures State() == EMPTY && calibration == CALIBRATION && written == [CALIBRATION]
      ensures this.routine == routine
    {
      data := new byte[CAPACITY];
      len := 0;
      dispatched := [];
      halted := false;
      calibration := CALIBRATION;
      written := [CALIBRATION];
      this.routine := routine;
    }

    /** Lines 120-138: reads the bytes available, in order, until none is left
        or a dispatch panics. */
    method Receive(input: seq<byte>)
      requires Valid()
      modifies this`len, this`dispatched, this`halted, this`calibration, this`written, data
      ensures Valid()
      ensures State() == Run(old(State()), input)
    {
      var i := 0;
      while i < |input| && !halted
        invariant 0 <= i <= |input|
        invariant Valid()
        invariant State() == Run(old(State()), input[..i])
      {
        Feed(input[i]);
        assert input[..i + 1][..i] == input[..i];
        i := i + 1;
      }
      RunAppend(old(State()), input[..i], input[i..]);
      assert input[..i] + input[i..] == input;
      if i < |input| {
        RunHalted(State(), input[i..]);
      }
    }

    /** The body of the loop for one byte: a delimiter or a full buffer
        dispatches, any other byte is pushed. */
    method Feed(b: byte)
      requires Valid() && !halted
      modifies this`len, this`dispatched, this`halted, this`calibration, this`written, data
      ensures Valid()
      ensures State() == Step(old(State()), b)
    {
      if b == CR || b == LF || len >= CAPACITY {
        Dispatch();
      } else {
        Push(b);
      }
    }

    /** `buffer.push(byte)`, below capacity. */
    method Push(b: byte)
      requires Valid() && len < CAPACITY && !IsDelimiter(b)
      modifies this`len, data
      ensures Valid()
      ensures data[..len] == old(data[..len]) + [b]
    {
      data[len] := b;
      len := len + 1;
      assert data[..len] == old(data[..len]) + [b];
    }

    /** Lines 122-134: the buffer is printed as UTF-8, which panics when it is
        not; then its command is run (a ManualCal runs the calibration routine,
        adopts its result and writes it to the serial port) and the buffer is
        cleared. */
    method Dispatch()
      requires Valid() && !halted
      modifies this`len, this`dispatched, this`halted, this`calibration, this`written
      ensures Valid()
      ensures ValidUtf8(old(data[..len])) ==>
        State() == Receipt([], old(dispatched) + [ParseCommand(old(data[..len]))], false)
      ensures !ValidUtf8(old(data[..len])) ==> State() == old(State()).(halted := true)
    {
      if !ValidUtf8(data[..len]) {
        halted := true;
        return;
      }
      var command := ParseCommand(data[..len]);
      if command == ManualCal {
        calibration := routine(|written| - 1);
        written := written + [calibration];
      }
      assert (dispatched + [command])[..|dispatched|] == dispatched;
      dispatched := dispatched + [command];
      len := 0;
    }
  }
}
