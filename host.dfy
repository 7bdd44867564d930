/** The host's timer tick (`on_timer` in src/sphere_app.py, and its earlier copy
    in sphere_app.py). Everything the tick asks of the outside world is an
    input: the client's configuration is a map from keys to values, the serial
    read is an optional line, and the two clocks are numbers. What the tick
    sends to the client is kept as a log of publishes. */
module Host {
  import opened Decimals
  import opened Measure
  import opened SerialParser
  import opened Quaternions
  import opened Sphere

  /** A configuration value as the client hands it back: a string, an int or
      a float. */
  datatype ConfigValue = Text(s: string) | Integer(i: int) | Float(f: real)

  type Config = map<string, ConfigValue>

  /** `client.get_value(key, default)`. */
  function Lookup(config: Config, key: string, default: ConfigValue): ConfigValue {
    if key in config then config[key] else default
  }

  /** `int()` of a float: truncation toward zero. */
  function Truncate(f: real): (r: int)
    ensures f >= 0.0 ==> 0 <= r && r as real <= f < r as real + 1.0
    ensures f < 0.0 ==> r <= 0 && r as real - 1.0 < f <= r as real
  {
    if f >= 0.0 then f.Floor else -((-f).Floor)
  }

  /** The characters `str.isspace()` accepts; `int()` ignores them at both
      ends of a string. */
  predicate IsSpace(c: char) {
    c in SPACES
  }

  const SPACES: set<char> := {
    ' ', '\t', '\n', '\U{b}', '\U{c}', '\r', '\U{1c}', '\U{1d}', '\U{1e}', '\U{1f}', '\U{85}', '\U{a0}',
    '\U{1680}', '\U{2000}', '\U{2001}', '\U{2002}', '\U{2003}', '\U{2004}', '\U{2005}', '\U{2006}',
    '\U{2007}', '\U{2008}', '\U{2009}', '\U{200a}', '\U{2028}', '\U{2029}', '\U{202f}', '\U{205f}',
    '\U{3000}'}

  predicate AllSpace(s: string) { forall i | 0 <= i < |s| :: IsSpace(s[i]) }

  /** `str.strip()`: the string without whitespace at either end. */
  function Strip(t: string): string {
    var lo := SkipSpaces(t, 0);
    t[lo..DropSpaces(t, lo, |t|)]
  }

  /** The first index at or after `i` that does not hold whitespace. */
  function SkipSpaces(t: string, i: nat): (j: nat)
    requires i <= |t|
    ensures i <= j <= |t|
    decreases |t| - i
  {
    if i < |t| && IsSpace(t[i]) then SkipSpaces(t, i + 1) else i
  }

  /** The end of `t[lo..j]` once the whitespace at its end is dropped. */
  function DropSpaces(t: string, lo: nat, j: nat): (k: nat)
    requires lo <= j <= |t|
    ensures lo <= k <= j
  {
    if lo < j && IsSpace(t[j - 1]) then DropSpaces(t, lo, j - 1) else j
  }

  /** Decimal digits with single underscores between them: `\d(_?\d)*`. */
  predicate Grouped(b: string) {
    b != [] && IsDigit(b[0]) && IsDigit(b[|b| - 1]) &&
    (forall i | 0 <= i < |b| :: IsDigit(b[i]) || b[i] == '_') &&
    (forall i | 0 <= i < |b| - 1 :: SingleAt(b, i))
  }

  /** No two underscores side by side at `i` and `i + 1`. */
  predicate SingleAt(b: string, i: nat)
    requires i + 1 < |b|
  {
    b[i] != '_' || b[i + 1] != '_'
  }

  /** The digits of a grouped numeral, underscores dropped. */
  function Ungrouped(b: string): string {
    if b == [] then []
    else if b[0] == '_' then Ungrouped(b[1..])
    else [b[0]] + Ungrouped(b[1..])
  }

  /** Dropping the underscores of a grouped numeral leaves only digits. */
  lemma UngroupedDigits(b: string)
    requires Grouped(b)
    ensures AllDigits(Ungrouped(b))
  {
    UngroupedKeeps(b);
  }

  lemma {:induction false} UngroupedKeeps(b: string)
    requires forall i | 0 <= i < |b| :: IsDigit(b[i]) || b[i] == '_'
    ensures AllDigits(Ungrouped(b))
    decreases |b|
  {
    if b != [] {
      UngroupedKeeps(b[1..]);
    }
  }

  /** `int()` of a string in base 10: surrounding whitespace is ignored, then
      an optional sign and digits grouped by single underscores, nothing else;
      None stands for ValueError. */
  function IntOfText(t: string): Option<int> {
    IntOfStripped(Strip(t))
  }

  /** `int()` once the whitespace is gone. */
  function IntOfStripped(s: string): Option<int> {
    var signed := s != [] && (s[0] == '-' || s[0] == '+');
    match GroupedValue(if signed then s[1..] else s)
    case None => None
    case Some(v) =>
      var n: int := v;
      Some(if signed && s[0] == '-' then -n else n)
  }

  /** The value of digits grouped by underscores, or None when the text is
      not such a run. */
  function GroupedValue(body: string): Option<nat> {
    if Grouped(body) then
      UngroupedDigits(body);
      Some(DigitsValue(Ungrouped(body)))
    else None
  }

  /** Python's `int()` of a configuration value. */
  function PyInt(v: ConfigValue): Option<int> {
    match v
    case Integer(i) => Some(i)
    case Float(f) => Some(Truncate(f))
    case Text(t) => IntOfText(t)
  }

  /** The decimal text Python's `str()` gives an int. */
  function IntText(i: int): string {
    SignText(i < 0) + NatDigits(if i < 0 then -i else i)
  }

  /** A string that neither starts nor ends with whitespace is its own strip. */
  lemma StripUnpadded(t: string)
    requires t == [] || (!IsSpace(t[0]) && !IsSpace(t[|t| - 1]))
    ensures Strip(t) == t
  {
  }

  /** A run of digits is grouped, and has no underscore to drop. */
  lemma DigitsGrouped(d: string)
    requires d != [] && AllDigits(d)
    ensures Grouped(d) && Ungrouped(d) == d && GroupedValue(d) == Some(DigitsValue(d))
  {
    UngroupedOfDigits(d);
  }

  lemma {:induction false} UngroupedOfDigits(d: string)
    requires AllDigits(d)
    ensures Ungrouped(d) == d
    decreases |d|
  {
    if d != [] {
      assert IsDigit(d[0]);
      UngroupedOfDigits(d[1..]);
      assert [d[0]] + d[1..] == d;
    }
  }

  lemma {:induction false} UngroupedAppend(a: string, b: string)
    ensures Ungrouped(a + b) == Ungrouped(a) + Ungrouped(b)
    decreases |a|
  {
    if a != [] {
      assert (a + b)[1..] == a[1..] + b;
      UngroupedAppend(a[1..], b);
    } else {
      assert a + b == b;
    }
  }

  /** Digits, signs, points and underscores are not whitespace. */
  lemma NotSpace(c: char)
    requires IsDigit(c) || c in "+-._"
    ensures !IsSpace(c)
  {
  }

  /** A sign followed by a run of digits has no whitespace to strip. */
  lemma SignedDigitsUnpadded(t: string, negative: bool, d: string)
    requires d != [] && AllDigits(d) && t == SignText(negative) + d
    ensures Strip(t) == t
  {
    NotSpace(t[0]);
    assert t[|t| - 1] == d[|d| - 1];
    NotSpace(t[|t| - 1]);
    StripUnpadded(t);
  }

  lemma StrippedSignedDigits(negative: bool, d: string)
    requires d != [] && AllDigits(d)
    ensures IntOfStripped(SignText(negative) + d) == Some(if negative then -(DigitsValue(d) as int) else DigitsValue(d))
  {
    if negative {
      NegativeDigits(d);
    } else {
      assert SignText(negative) + d == d;
      DigitsGrouped(d);
    }
  }

  lemma NegativeDigits(d: string)
    requires d != [] && AllDigits(d)
    ensures IntOfStripped("-" + d) == Some(-(DigitsValue(d) as int))
  {
    DigitsGrouped(d);
    assert ("-" + d)[1..] == d;
  }

  /** A sign followed by a run of digits converts to the signed value. */
  lemma IntOfSignedDigits(t: string, negative: bool, d: string)
    requires d != [] && AllDigits(d) && t == SignText(negative) + d
    ensures IntOfText(t) == Some(if negative then -(DigitsValue(d) as int) else DigitsValue(d))
  {
    SignedDigitsUnpadded(t, negative, d);
    StrippedSignedDigits(negative, d);
  }

  /** `int()` reads back what `str()` writes. */
  lemma IntOfTextRoundTrip(i: int)
    ensures IntOfText(IntText(i)) == Some(i)
  {
    IntOfSignedDigits(IntText(i), i < 0, NatDigits(if i < 0 then -i else i));
  }

  /** Stripping only removes whitespace. */
  lemma StripKeeps(t: string, k: nat)
    requires k < |t| && !IsSpace(t[k])
    ensures exists j | 0 <= j < |Strip(t)| :: Strip(t)[j] == t[k]
  {
    var lo := SkipSpaces(t, 0);
    SkipStops(t, 0, k);
    DropStops(t, lo, |t|, k);
    assert Strip(t)[k - lo] == t[k];
  }

  lemma {:induction false} SkipStops(t: string, i: nat, k: nat)
    requires i <= k < |t| && !IsSpace(t[k])
    ensures SkipSpaces(t, i) <= k
    decreases |t| - i
  {
    if IsSpace(t[i]) {
      SkipStops(t, i + 1, k);
    }
  }

  lemma {:induction false} DropStops(t: string, lo: nat, j: nat, k: nat)
    requires lo <= k < j <= |t| && !IsSpace(t[k])
    ensures DropSpaces(t, lo, j) > k
    decreases j
  {
    if IsSpace(t[j - 1]) {
      DropStops(t, lo, j - 1, k);
    }
  }

  /** A text with a decimal point does not convert, as `int("12.5")` raises. */
  lemma IntOfTextRejectsPoint(t: string)
    requires '.' in t
    ensures IntOfText(t) == None
  {
    var k :| 0 <= k < |t| && t[k] == '.';
    StripKeeps(t, k);
    var s := Strip(t);
    var j :| 0 <= j < |s| && s[j] == '.';
    var signed := s != [] && (s[0] == '-' || s[0] == '+');
    var body := if signed then s[1..] else s;
    if signed {
      assert j > 0 && body[j - 1] == '.';
    } else {
      assert body[j] == '.';
    }
  }

  /** A blank text strips to nothing. */
  lemma StripSpaces(t: string)
    requires AllSpace(t)
    ensures Strip(t) == []
  {
    SkipRun(t, 0, |t|);
  }

  /** Skipping a run of whitespace from `i` to `p` lands where skipping from
      `p` does. */
  lemma {:induction false} SkipRun(t: string, i: nat, p: nat)
    requires i <= p <= |t| && forall k | i <= k < p :: IsSpace(t[k])
    ensures SkipSpaces(t, i) == SkipSpaces(t, p)
    decreases p - i
  {
    if i < p {
      SkipRun(t, i + 1, p);
    }
  }

  /** Dropping a run of whitespace that ends at `j` and starts at `q` lands
      where dropping from `q` does. */
  lemma {:induction false} DropRun(t: string, lo: nat, q: nat, j: nat)
    requires lo <= q <= j <= |t| && forall k | q <= k < j :: IsSpace(t[k])
    ensures DropSpaces(t, lo, j) == DropSpaces(t, lo, q)
    decreases j
  {
    if q < j {
      DropRun(t, lo, q, j - 1);
    }
  }

  /** Skipping inside a copy of `t` placed at offset `p` of `u`. */
  lemma {:induction false} SkipOffset(u: string, t: string, p: nat, i: nat)
    requires p + |t| <= |u| && u[p..p + |t|] == t && i <= |t| && SkipSpaces(t, i) < |t|
    ensures SkipSpaces(u, p + i) == p + SkipSpaces(t, i)
    decreases |t| - i
  {
    assert u[p + i] == t[i];
    if IsSpace(t[i]) {
      SkipOffset(u, t, p, i + 1);
    }
  }

  /** Dropping inside a copy of `t` placed at offset `p` of `u`. */
  lemma {:induction false} DropOffset(u: string, t: string, p: nat, lo: nat, j: nat)
    requires p + |t| <= |u| && u[p..p + |t|] == t && lo <= j <= |t|
    ensures DropSpaces(u, p + lo, p + j) == p + DropSpaces(t, lo, j)
    decreases j
  {
    if lo < j {
      assert u[p + j - 1] == t[j - 1];
      if IsSpace(t[j - 1]) {
        DropOffset(u, t, p, lo, j - 1);
      }
    }
  }

  /** Whitespace around a text does not change what it strips to. */
  lemma StripPadded(pre: string, t: string, post: string)
    requires AllSpace(pre) && AllSpace(post)
    ensures Strip(pre + t + post) == Strip(t)
  {
    if k :| 0 <= k < |t| && !IsSpace(t[k]) {
      StripPaddedText(pre, t, post, k);
    } else {
      StripPaddedBlank(pre, t, post);
    }
  }

  lemma StripPaddedText(pre: string, t: string, post: string, k: nat)
    requires AllSpace(pre) && AllSpace(post) && k < |t| && !IsSpace(t[k])
    ensures Strip(pre + t + post) == Strip(t)
  {
    var u, p := pre + t + post, |pre|;
    var lo, hi := SkipSpaces(t, 0), DropSpaces(t, SkipSpaces(t, 0), |t|);
    SkipPadded(pre, t, post, k);
    DropPadded(pre, t, post, lo);
    assert u[p + lo..p + hi] == t[lo..hi];
  }

  /** Skipping through the padding lands on the first non-blank of `t`. */
  lemma SkipPadded(pre: string, t: string, post: string, k: nat)
    requires AllSpace(pre) && k < |t| && !IsSpace(t[k])
    ensures SkipSpaces(pre + t + post, 0) == |pre| + SkipSpaces(t, 0)
  {
    var u, p := pre + t + post, |pre|;
    assert u[p..p + |t|] == t;
    SkipStops(t, 0, k);
    assert forall i | 0 <= i < p :: u[i] == pre[i];
    SkipRun(u, 0, p);
    SkipOffset(u, t, p, 0);
  }

  /** Dropping the trailing padding lands on the end of `t` stripped. */
  lemma DropPadded(pre: string, t: string, post: string, lo: nat)
    requires AllSpace(post) && lo <= |t|
    ensures DropSpaces(pre + t + post, |pre| + lo, |pre + t + post|) == |pre| + DropSpaces(t, lo, |t|)
  {
    var u, p := pre + t + post, |pre|;
    assert u[p..p + |t|] == t;
    assert forall i | p + |t| <= i < |u| :: u[i] == post[i - p - |t|];
    DropRun(u, p + lo, p + |t|, |u|);
    DropOffset(u, t, p, lo, |t|);
  }

  lemma StripPaddedBlank(pre: string, t: string, post: string)
    requires AllSpace(pre) && AllSpace(t) && AllSpace(post)
    ensures Strip(pre + t + post) == Strip(t)
  {
    var u := pre + t + post;
    assert AllSpace(u) by {
      forall i | 0 <= i < |u| ensures IsSpace(u[i]) {
        if i < |pre| {
          assert u[i] == pre[i];
        } else if i < |pre| + |t| {
          assert u[i] == t[i - |pre|];
        } else {
          assert u[i] == post[i - |pre| - |t|];
        }
      }
    }
    StripSpaces(u);
    StripSpaces(t);
  }

  /** `int()` ignores whitespace around the number, as `int(" 5\n") == 5`. */
  lemma IntOfTextPadded(pre: string, t: string, post: string)
    requires AllSpace(pre) && AllSpace(post)
    ensures IntOfText(pre + t + post) == IntOfText(t)
  {
    StripPadded(pre, t, post);
  }

  /** Two runs of digits joined by one underscore form a grouped numeral
      whose digits are the two runs. */
  lemma GroupedJoin(x: string, y: string)
    requires x != [] && y != [] && AllDigits(x) && AllDigits(y)
    ensures Grouped(x + "_" + y) && Ungrouped(x + "_" + y) == x + y
  {
    var u := x + "_" + y;
    assert u[0] == x[0] && u[|u| - 1] == y[|y| - 1];
    forall i | 0 <= i < |u| ensures IsDigit(u[i]) || u[i] == '_' {
      if i < |x| {
        assert u[i] == x[i];
      } else if i > |x| {
        assert u[i] == y[i - |x| - 1];
      }
    }
    forall i | 0 <= i < |u| - 1 ensures SingleAt(u, i) {
      if i < |x| {
        assert u[i] == x[i];
      } else {
        assert u[i + 1] == y[i - |x|];
      }
    }
    assert u == x + ("_" + y);
    UngroupedAppend(x, "_" + y);
    assert ("_" + y)[1..] == y;
    UngroupedOfDigits(x);
    UngroupedOfDigits(y);
  }

  /** An underscore between two runs of digits is ignored, as
      `int("1_000") == 1000`. */
  lemma IntOfTextUnderscore(x: string, y: string)
    requires x != [] && y != [] && AllDigits(x) && AllDigits(y)
    ensures IntOfText(x + "_" + y) == IntOfText(x + y)
  {
    var u, d := x + "_" + y, x + y;
    assert u[|u| - 1] == y[|y| - 1] && d[|d| - 1] == y[|y| - 1];
    assert u[0] == x[0] && d[0] == x[0];
    StripUnpadded(u);
    StripUnpadded(d);
    assert GroupedValue(u) == GroupedValue(d) by {
      GroupedJoin(x, y);
      assert AllDigits(d);
      DigitsGrouped(d);
    }
  }

  /** Doubled, leading or trailing underscores raise. */
  lemma MisplacedUnderscores()
    ensures IntOfText("1__0") == None && IntOfText("_1") == None && IntOfText("1_") == None
  {
    StripUnpadded("1__0");
    StripUnpadded("_1");
    StripUnpadded("1_");
    assert !SingleAt("1__0", 1);
    assert "_1"[0] == '_';
    assert "1_"[1] == '_';
  }

  /** A space after the sign or between digits, and a blank text, raise. */
  lemma InnerSpaces()
    ensures IntOfText("- 5") == None && IntOfText("1 0") == None && IntOfText(" ") == None
  {
    StripUnpadded("- 5");
    StripUnpadded("1 0");
    assert "- 5"[1..] == " 5" && " 5"[0] == ' ';
    assert "1 0"[1] == ' ';
    assert Strip(" ") == [];
  }

  /** The seven integer settings, in the order the tick reads them, and the
      defaults it passes for them. */
  const INT_KEYS: seq<string> := ["center_x", "center_y", "center_z", "scale_x", "scale_y", "scale_z", "radius"]
  const INT_DEFAULTS: seq<int> := [20962, 34322, -23924, 1203, 1177, 1133, 48098]

  const TYPE_KEY: string := "calibration_type"
  const CONSTANT: ConfigValue := Text("constant")

  /** The candidate built from an empty configuration. */
  const DEFAULT_CALIBRATION: CalibrationValue :=
    CalibrationValue(true, Triple(20962, 34322, -23924), Triple(1203, 1177, 1133), 48098)

  /** The `j`-th integer setting after `int()`. */
  function Setting(config: Config, j: nat): Option<int>
    requires j < 7
  {
    PyInt(Lookup(config, INT_KEYS[j], Integer(INT_DEFAULTS[j])))
  }

  /** The seven integer settings after `int()`, in the order the tick reads them. */
  function Settings(config: Config): (r: seq<Option<int>>)
    ensures |r| == 7 && forall j | 0 <= j < 7 :: r[j] == Setting(config, j)
  {
    seq(7, j requires 0 <= j < 7 => Setting(config, j))
  }

  datatype Conversion = Converted(values: seq<int>) | Failed(key: string)

  /** Converts settings in order; the first that `int()` rejects stops the
      tick with its key. */
  function Convert(settings: seq<Option<int>>, keys: seq<string>): (r: Conversion)
    requires |keys| == |settings|
    ensures r.Converted? ==> |r.values| == |settings|
  {
    if settings == [] then Converted([])
    else
      match settings[0]
      case None => Failed(keys[0])
      case Some(v) =>
        match Convert(settings[1..], keys[1..])
        case Failed(k) => Failed(k)
        case Converted(vs) => Converted([v] + vs)
  }

  /** The calibration a tick builds, or the key whose value `int()` rejected. */
  datatype Candidate = Candidate(value: CalibrationValue) | BadConfig(key: string)

  function CandidateOf(config: Config): Candidate {
    var isConstant := Lookup(config, TYPE_KEY, CONSTANT) == CONSTANT;
    match Convert(Settings(config), INT_KEYS)
    case Failed(k) => BadConfig(k)
    case Converted(v) =>
      Candidate(CalibrationValue(isConstant, Triple(v[0], v[1], v[2]), Triple(v[3], v[4], v[5]), v[6]))
  }

  /** The seven integers of a calibration, in the order of INT_KEYS. */
  function Fields(c: CalibrationValue): seq<int> {
    [c.center.x, c.center.y, c.center.z, c.scale.x, c.scale.y, c.scale.z, c.radius]
  }

  /** Conversion succeeds iff every setting converts. */
  lemma {:induction false} ConvertedIff(settings: seq<Option<int>>, keys: seq<string>)
    requires |keys| == |settings|
    ensures Convert(settings, keys).Converted? <==> forall j | 0 <= j < |settings| :: settings[j].Some?
  {
    if settings != [] {
      ConvertedIff(settings[1..], keys[1..]);
      assert forall j | 1 <= j < |settings| :: settings[j] == settings[1..][j - 1];
    }
  }

  /** A successful conversion holds the settings' values, in order. */
  lemma {:induction false} ConvertedValues(settings: seq<Option<int>>, keys: seq<string>)
    requires |keys| == |settings| && Convert(settings, keys).Converted?
    ensures forall j | 0 <= j < |settings| ::
      settings[j].Some? && Convert(settings, keys).values[j] == settings[j].value
  {
    if settings != [] {
      ConvertedValues(settings[1..], keys[1..]);
      assert forall j | 1 <= j < |settings| :: settings[j] == settings[1..][j - 1];
    }
  }

  /** A failed conversion names the first setting that does not convert. */
  lemma {:induction false} FailedKey(settings: seq<Option<int>>, keys: seq<string>) returns (j: nat)
    requires |keys| == |settings| && Convert(settings, keys).Failed?
    ensures j < |settings| && Convert(settings, keys).key == keys[j] && settings[j].None?
    ensures forall l | 0 <= l < j :: settings[l].Some?
  {
    if settings[0].None? {
      j := 0;
    } else {
      var k := FailedKey(settings[1..], keys[1..]);
      j := k + 1;
      assert forall l | 1 <= l < j :: settings[l] == settings[1..][l - 1];
    }
  }

  /** The candidate: `is_constant` iff the type setting is the string
      "constant" (its default), and each integer field is its setting after
      `int()`, or its default when the key is absent. */
  lemma CandidateSpec(config: Config)
    ensures CandidateOf(config).Candidate? <==> forall j | 0 <= j < 7 :: Setting(config, j).Some?
    ensures CandidateOf(config).Candidate? ==>
      var c := CandidateOf(config).value;
      (c.isConstant <==> TYPE_KEY !in config || config[TYPE_KEY] == Text("constant")) &&
      forall j | 0 <= j < 7 :: Fields(c)[j] == Setting(config, j).value
  {
    var settings := Settings(config);
    ConvertedIff(settings, INT_KEYS);
    if Convert(settings, INT_KEYS).Converted? {
      ConvertedValues(settings, INT_KEYS);
      var v := Convert(settings, INT_KEYS).values;
      var c := CandidateOf(config).value;
      assert Fields(c) == v[..7];
    }
  }

  /** A rejected candidate names the first integer setting `int()` rejects. */
  lemma RejectedSpec(config: Config) returns (j: nat)
    requires CandidateOf(config).BadConfig?
    ensures j < 7 && CandidateOf(config).key == INT_KEYS[j] && Setting(config, j).None?
    ensures forall l | 0 <= l < j :: Setting(config, l).Some?
  {
    j := FailedKey(Settings(config), INT_KEYS);
  }

  /** Settings that all convert give the calibration made of their values. */
  lemma CandidateFromSettings(config: Config, c: CalibrationValue)
    requires forall j | 0 <= j < 7 :: Setting(config, j) == Some(Fields(c)[j])
    requires c.isConstant == (Lookup(config, TYPE_KEY, CONSTANT) == CONSTANT)
    ensures CandidateOf(config) == Candidate(c)
  {
    ConvertedIff(Settings(config), INT_KEYS);
    ConvertedValues(Settings(config), INT_KEYS);
  }

  /** An empty configuration gives the default calibration. */
  lemma DefaultCandidate()
    ensures CandidateOf(map[]) == Candidate(DEFAULT_CALIBRATION)
  {
    assert forall j | 0 <= j < 7 :: Setting(map[], j) == Some(INT_DEFAULTS[j]);
    CandidateFromSettings(map[], DEFAULT_CALIBRATION);
  }

  /** Any value other than the string "constant", such as "dynamic" or an
      int, switches `is_constant` off; the other fields keep their defaults. */
  lemma TypeSettingOnly(setting: ConfigValue)
    requires setting != Text("constant")
    ensures CandidateOf(map[TYPE_KEY := setting]) == Candidate(DEFAULT_CALIBRATION.(isConstant := false))
  {
    var config := map[TYPE_KEY := setting];
    assert forall j | 0 <= j < 7 :: INT_KEYS[j] !in config && Setting(config, j) == Some(INT_DEFAULTS[j]);
    CandidateFromSettings(config, DEFAULT_CALIBRATION.(isConstant := false));
  }

  /** A radius given as the string `str(i)`, as the int `i` or as a float
      just above `i` gives the same radius as `int(i)`, apart from the
      truncation toward zero of a negative float. */
  lemma RadiusSettings(i: int, v: ConfigValue)
    requires v == Text(IntText(i)) || v == Integer(i) || v == Float(i as real + 0.5)
    ensures CandidateOf(map["radius" := v]) ==
      Candidate(DEFAULT_CALIBRATION.(radius := if v.Float? && i < 0 then i + 1 else i))
  {
    if v.Text? {
      IntOfTextRoundTrip(i);
    }
    OnlyRadius(v, if v.Float? && i < 0 then i + 1 else i);
  }

  /** A configuration holding only a radius that `int()` accepts keeps every
      other default. */
  lemma OnlyRadius(v: ConfigValue, r: int)
    requires PyInt(v) == Some(r)
    ensures CandidateOf(map["radius" := v]) == Candidate(DEFAULT_CALIBRATION.(radius := r))
  {
    var config := map["radius" := v];
    var c := DEFAULT_CALIBRATION.(radius := r);
    assert Setting(config, 6) == PyInt(v);
    assert forall j | 0 <= j < 6 :: INT_KEYS[j] !in config && Setting(config, j) == Some(INT_DEFAULTS[j]);
    assert forall j | 0 <= j < 7 :: Setting(config, j) == Some(Fields(c)[j]);
    CandidateFromSettings(config, c);
  }

  /** A radius written with whitespace around it, as `" 5"` or `"5\n"`, is
      read as the number. */
  lemma PaddedRadius(pre: string, i: int, post: string)
    requires AllSpace(pre) && AllSpace(post)
    ensures CandidateOf(map["radius" := Text(pre + IntText(i) + post)]) ==
      Candidate(DEFAULT_CALIBRATION.(radius := i))
  {
    IntOfTextPadded(pre, IntText(i), post);
    IntOfTextRoundTrip(i);
    OnlyRadius(Text(pre + IntText(i) + post), i);
  }

  /** A fractional string setting stops the tick at that key. */
  lemma FractionalTextRejected(t: string)
    requires '.' in t
    ensures CandidateOf(map["center_x" := Text(t)]) == BadConfig("center_x")
  {
    IntOfTextRejectsPoint(t);
  }

  /** The wall-clock time of `datetime.now(timezone.utc)`, in microseconds. */
  datatype Instant = Instant(microseconds: int)

  /** What the tick sends to the client: an RGB frame (its stream name,
      timestamp, width, and the frame size `to_bytes` validated), or one
      Euler angle in radians with its name and time. */
  datatype Publish =
    | StreamRgb(stream: string, timestamp: int, width: nat, frame: RenderSize)
    | Stream(name: string, time: Instant, value: real)

  /** What one parsed tick publishes for the orientation `q`: the frame,
      then yaw, pitch and roll in radians, all three at one instant. */
  function Publishes(q: Quat, utcNow: Instant, math: Math): (r: seq<Publish>)
    ensures |r| == 4 && r[0] == StreamRgb("frame_buffer", 0, IMAGE_SIZE, Accepted(IMAGE_SIZE))
    ensures r[1].Stream? && r[2].Stream? && r[3].Stream?
    ensures [r[1].name, r[2].name, r[3].name] == ["yaw", "pitch", "roll"]
    ensures r[1].time == r[2].time == r[3].time == utcNow
    ensures Angles(r[1].value, r[2].value, r[3].value) == ToEulerZyx(q, false, math)
  {
    var angles := ToEulerZyx(q, false, math);
    ImagePixelsAccepted();
    [StreamRgb("frame_buffer", 0, IMAGE_SIZE, CheckPixels(IMAGE_SIZE * IMAGE_SIZE)),
     Stream("yaw", utcNow, angles.yaw),
     Stream("pitch", utcNow, angles.pitch),
     Stream("roll", utcNow, angles.roll)]
  }

  /** Where a tick goes: it stops on a rejected setting, returns early on an
      empty read or an unparsable line, and otherwise goes on with a
      measurement. */
  datatype Path = ConfigRejected(key: string) | NothingRead | Unparsed | Parsed(m: Measurement)

  function PathOf(config: Config, line: Option<string>): Path {
    match CandidateOf(config)
    case BadConfig(k) => ConfigRejected(k)
    case Candidate(_) => LinePath(line)
  }

  /** Where a tick goes once its settings have converted. */
  function LinePath(line: Option<string>): Path {
    if line.None? || line.value == "" then NothingRead
    else
      match ParseLine(line.value)
      case None => Unparsed
      case Some(m) => Parsed(m)
  }

  /** A tick reaches the orientation update iff the settings convert and a
      non-empty line that parses was read; the line alone decides which
      measurement. */
  lemma ParsedIff(config: Config, line: Option<string>)
    ensures PathOf(config, line).Parsed? <==>
      CandidateOf(config).Candidate? && line.Some? && line.value != "" && ParseLine(line.value).Some?
    ensures PathOf(config, line).Parsed? ==> PathOf(config, line).m == ParseLine(line.value).value
    ensures line.None? || line == Some("") ==> !PathOf(config, line).Parsed?
  {
  }

  datatype TickOutcome =
    | ValueErrorRaised(key: string)
    | NoLine
    | NoMeasurement
    | Streamed(update: UpdateOutcome)
    | TypeErrorRaised

  /** The state `on_timer` closes over. */
  class App {
    var last: real
    var curr: PyValue
    const quat: Quaternion
    const sphere: SphereOrientation
    var published: seq<Publish>

    /** The state before the first tick: no calibration yet, the identity
        orientation, and `last` set to the start time. */
    constructor (start: real)
      ensures last == start && curr == PyNone && published == []
      ensures fresh(quat) && fresh(sphere) && quat.q == IDENTITY && sphere.transform == IDENTITY4
    {
      last := start;
      curr := PyNone;
      quat := new Quaternion();
      sphere := new SphereOrientation();
      published := [];
    }

    /** After a tick whose settings convert, `curr` holds that tick's
        candidate: the previous object when it already compared equal, a new
        one otherwise (always on the first tick, since `curr` starts as None).
        A rejected setting leaves `curr` as it was. */
    twostate predicate Adopted(candidate: Candidate)
      reads this`curr, curr.Objects()
    {
      match candidate
      case BadConfig(_) => curr == old(curr)
      case Candidate(v) =>
        curr.CalibrationRef? && curr.cal.Value() == v &&
        if old(curr.CalibrationRef? && curr.cal.Value() == v) then curr == old(curr)
        else fresh(curr.cal)
    }

    /** Lines 41-59: build the candidate and adopt it when it differs from
        the current calibration. */
    method AdoptCalibration(config: Config) returns (error: Option<string>)
      modifies this
      ensures error.Some? <==> CandidateOf(config).BadConfig?
      ensures error.Some? ==> error.value == CandidateOf(config).key
      ensures Adopted(CandidateOf(config))
      ensures last == old(last) && published == old(published)
    {
      match CandidateOf(config)
      case BadConfig(k) =>
        return Some(k);
      case Candidate(v) =>
        var calibration := new Calibration(v.isConstant, v.center, v.scale, v.radius);
        if NotEqual(calibration, curr) {
          curr := CalibrationRef(calibration);
          calibration.Update(curr);
        }
        return None;
    }

    /** One tick, with the orientation update called as `Quaternion.update`
        declares it: one measurement. */
    method OnTimer(config: Config, line: Option<string>, now: real, utcNow: Instant, math: Math)
      returns (outcome: TickOutcome)
      modifies this, quat, sphere
      ensures Adopted(CandidateOf(config))
      ensures !PathOf(config, line).Parsed? ==>
        last == old(last) && quat.q == old(quat.q) && sphere.transform == old(sphere.transform) &&
        published == old(published)
      ensures PathOf(config, line).ConfigRejected? ==> outcome == ValueErrorRaised(PathOf(config, line).key)
      ensures PathOf(config, line) == NothingRead ==> outcome == NoLine
      ensures PathOf(config, line) == Unparsed ==> outcome == NoMeasurement
      ensures PathOf(config, line).Parsed? ==>
        var m := PathOf(config, line).m;
        outcome.Streamed? && last == now &&
        quat.q == Estimate(old(quat.q), m, math) &&
        sphere.transform == RotationMatrix(quat.q) &&
        published == old(published) + Publishes(quat.q, utcNow, math)
    {
      var error := AdoptCalibration(config);
      if error.Some? {
        return ValueErrorRaised(error.value);
      }
      outcome := HandleLine(line, now, utcNow, math);
    }

    /** Lines 61-84: the read line decides whether the tick returns early or
        streams a measurement. The calibration is not touched. */
    method HandleLine(line: Option<string>, now: real, utcNow: Instant, math: Math)
      returns (outcome: TickOutcome)
      modifies this`last, this`published, quat, sphere
      ensures !LinePath(line).Parsed? ==>
        last == old(last) && quat.q == old(quat.q) && sphere.transform == old(sphere.transform) &&
        published == old(published)
      ensures LinePath(line) == NothingRead ==> outcome == NoLine
      ensures LinePath(line) == Unparsed ==> outcome == NoMeasurement
      ensures LinePath(line).Parsed? ==>
        var m := LinePath(line).m;
        outcome.Streamed? && last == now &&
        quat.q == Estimate(old(quat.q), m, math) &&
        sphere.transform == RotationMatrix(quat.q) &&
        published == old(published) + Publishes(quat.q, utcNow, math)
    {
      if line.None? || line.value == "" {
        return NoLine;
      }
      var measurement := ParseLine(line.value);
      if measurement.None? {
        return NoMeasurement;
      }
      var update := StreamMeasurement(measurement.value, now, utcNow, math);
      return Streamed(update);
    }

    /** Lines 69-84: a parsed measurement advances `last`, updates the
        orientation and the displayed transform, then publishes the frame and
        the three angles. The calibration is not touched. */
    method StreamMeasurement(m: Measurement, now: real, utcNow: Instant, math: Math)
      returns (update: UpdateOutcome)
      modifies this`last, this`published, quat, sphere
      ensures last == now
      ensures quat.q == Estimate(old(quat.q), m, math)
      ensures sphere.transform == RotationMatrix(quat.q)
      ensures published == old(published) + Publishes(quat.q, utcNow, math)
    {
      last := now;
      update := quat.Update(m, math);
      sphere.Update(quat);
      published := published + Publishes(quat.q, utcNow, math);
    }

    /** One tick of src/sphere_app.py as written: the orientation update is
        called with the measurement and `dt`, which the one-parameter
        `Quaternion.update` refuses with a TypeError, after `last` has already
        advanced and before anything is published. */
    method OnTimerAsWritten(config: Config, line: Option<string>, now: real, utcNow: Instant, math: Math)
      returns (outcome: TickOutcome)
      modifies this
      ensures Adopted(CandidateOf(config))
      ensures quat.q == old(quat.q) && sphere.transform == old(sphere.transform) && published == old(published)
      ensures !PathOf(config, line).Parsed? ==> last == old(last)
      ensures PathOf(config, line).ConfigRejected? ==> outcome == ValueErrorRaised(PathOf(config, line).key)
      ensures PathOf(config, line) == NothingRead ==> outcome == NoLine
      ensures PathOf(config, line) == Unparsed ==> outcome == NoMeasurement
      ensures PathOf(config, line).Parsed? ==> outcome == TypeErrorRaised && last == now
    {
      var error := AdoptCalibration(config);
      if error.Some? {
        return ValueErrorRaised(error.value);
      }
      outcome := HandleLineAsWritten(line, now);
    }

    /** src/sphere_app.py lines 61-73: the early returns, then `last`
        advances and the two-argument update call raises. */
    method HandleLineAsWritten(line: Option<string>, now: real) returns (outcome: TickOutcome)
      modifies this`last
      ensures !LinePath(line).Parsed? ==> last == old(last)
      ensures LinePath(line) == NothingRead ==> outcome == NoLine
      ensures LinePath(line) == Unparsed ==> outcome == NoMeasurement
      ensures LinePath(line).Parsed? ==> outcome == TypeErrorRaised && last == now
    {
      if line.None? || line.value == "" {
        return NoLine;
      }
      var measurement := ParseLine(line.value);
      if measurement.None? {
        return NoMeasurement;
      }
      last := now;
      return TypeErrorRaised;
    }
  }
}
