/** The measurement-line parser (src/utils/serial_parser.py; the same
    pattern and parse_line are repeated in sphere_app.py).

    The pattern is
      `Measurement: (N), (N), (N), (N), (N), (N)\r?\n?`   with N = `-?\d+(?:\.\d+)?`
    and parse_line looks for its leftmost occurrence anywhere in the line
    (`re.search`), converts the six groups with `float()` and returns None when
    there is no occurrence. The trailing `\r?\n?` may match nothing, so it
    never decides whether or where the pattern matches nor what the groups are. */
module SerialParser {
  import opened Decimals
  import opened Measure

  datatype Option<T> = None | Some(value: T)

  const PREFIX: string := "Measurement: "
  const SEP: string := ", "

  /** The numeral the greedy `-?\d+(?:\.\d+)?` takes at the start of `s`, if any.
      The backtracking engine tries the longest numeral first; for fields one to
      five any shorter numeral is followed by a digit or '.', never by ", ", so
      the greedy numeral is the only one with which the pattern can go on. */
  function LexNumber(s: string): (r: Option<Decimal>)
    ensures r.Some? ==> Valid(r.value) && |Show(r.value)| <= |s| && s[..|Show(r.value)|] == Show(r.value)
  {
    var neg := s != [] && s[0] == '-';
    var r := LexUnsigned(neg, if neg then s[1..] else s);
    if r.Some? then SignedShape(s, neg, r.value); r else r
  }

  lemma SignedShape(s: string, neg: bool, d: Decimal)
    requires neg == (s != [] && s[0] == '-') && d.negative == neg
    requires var body := if neg then s[1..] else s;
      var u := UnsignedText(d); |u| <= |body| && body[..|u|] == u
    ensures |Show(d)| <= |s| && s[..|Show(d)|] == Show(d)
  {
    var u := UnsignedText(d);
    if neg {
      assert s[..1 + |u|] == [s[0]] + s[1..][..|u|];
    }
  }

  /** The numeral after the optional '-': `\d+(?:\.\d+)?` taken greedily. */
  function LexUnsigned(neg: bool, body: string): (r: Option<Decimal>)
    ensures r.Some? ==> r.value.negative == neg && Valid(r.value)
    ensures r.Some? ==> var u := UnsignedText(r.value); |u| <= |body| && body[..|u|] == u
  {
    var w := DigitRun(body);
    if w == 0 then None
    else
      var d := Decimal(neg, body[..w], FractionPart(body[w..]));
      UnsignedShape(body, w, d.fraction);
      Some(d)
  }

  /** The digits of a fractional part `\.\d+` at the start of `s`; empty when
      `s` does not start with one. */
  function FractionPart(s: string): (f: string)
    ensures AllDigits(f)
    ensures f != [] ==> 1 + |f| <= |s| && s[0] == '.' && s[1..1 + |f|] == f
  {
    if s != [] && s[0] == '.' then s[1..][..DigitRun(s[1..])] else ""
  }

  lemma UnsignedShape(body: string, w: nat, fraction: string)
    requires 0 < w <= |body| && fraction == FractionPart(body[w..])
    ensures |body[..w] + FractionText(fraction)| <= |body|
    ensures body[..|body[..w] + FractionText(fraction)|] == body[..w] + FractionText(fraction)
  {
    var f := |fraction|;
    if f > 0 {
      var g := body[w..];
      assert g[..1 + f] == [g[0]] + g[1..1 + f] == FractionText(fraction);
      assert body[..w + 1 + f] == body[..w] + g[..1 + f];
    }
  }

  /** `rest` cannot extend the numeral `d` into a longer one. */
  predicate Boundary(d: Decimal, rest: string) {
    rest == [] ||
    (!IsDigit(rest[0]) && !(d.fraction == [] && rest[0] == '.' && |rest| >= 2 && IsDigit(rest[1])))
  }

  predicate AllValid(ds: seq<Decimal>) { forall i | 0 <= i < |ds| :: Valid(ds[i]) }

  /** `n` greedy numerals separated by exactly ", ". */
  function MatchFields(s: string, n: nat): (r: Option<seq<Decimal>>)
    requires n >= 1
    ensures r.Some? ==> |r.value| == n && AllValid(r.value)
    decreases n
  {
    match LexNumber(s)
    case None => None
    case Some(d) =>
      var rest := s[|Show(d)|..];
      if n == 1 then Some([d])
      else if |rest| >= 2 && rest[..2] == SEP then
        match MatchFields(rest[2..], n - 1)
        case None => None
        case Some(ds) => Some([d] + ds)
      else None
  }

  /** The pattern anchored at the start of `s`: the numerals of its six groups,
      if it matches. */
  function MatchAt(s: string): (r: Option<seq<Decimal>>)
    ensures r.Some? ==> |r.value| == 6 && AllValid(r.value)
  {
    if |s| >= |PREFIX| && s[..|PREFIX|] == PREFIX then MatchFields(s[|PREFIX|..], 6) else None
  }

  /** The pattern matches at position `j` of `line`. */
  predicate MatchesAt(line: string, j: nat)
    requires j <= |line|
  {
    MatchAt(line[j..]).Some?
  }

  /** The leftmost position at or after `i` where the pattern matches. */
  function LeftmostFrom(line: string, i: nat): (r: Option<nat>)
    requires i <= |line|
    ensures r.Some? ==> i <= r.value <= |line| && MatchesAt(line, r.value)
    ensures r.Some? ==> forall j | i <= j < r.value :: !MatchesAt(line, j)
    ensures r.None? ==> forall j | i <= j <= |line| :: !MatchesAt(line, j)
    decreases |line| - i
  {
    if MatchesAt(line, i) then Some(i)
    else if i == |line| then None
    else LeftmostFrom(line, i + 1)
  }

  /** The texts of a sequence of numerals. */
  function Shows(ds: seq<Decimal>): (ts: seq<string>)
    ensures |ts| == |ds|
  {
    if ds == [] then [] else [Show(ds[0])] + Shows(ds[1..])
  }

  /** `re.search`: the six group texts of the leftmost match. */
  function Search(line: string): (r: Option<seq<string>>)
    ensures r.Some? ==> |r.value| == 6
  {
    match LeftmostFrom(line, 0)
    case None => None
    case Some(i) => Some(Shows(MatchAt(line[i..]).value))
  }

  /** Python's `float()` on a string, for the literals
      `[+-]?(\d+(\.\d*)?|\.\d+)([eE][+-]?\d+)?`; None stands for ValueError. */
  function PyFloat(t: string): Option<real> {
    var signed := t != [] && (t[0] == '-' || t[0] == '+');
    match FloatMagnitude(if signed then t[1..] else t)
    case None => None
    case Some(m) => Some(Signed(signed && t[0] == '-', m))
  }

  /** `float()` after the sign: `(\d+(\.\d*)?|\.\d+)([eE][+-]?\d+)?` to the end. */
  function FloatMagnitude(body: string): Option<real> {
    var w := DigitRun(body);
    var afterWhole := body[w..];
    var hasPoint := afterWhole != [] && afterWhole[0] == '.';
    var afterPoint := if hasPoint then afterWhole[1..] else afterWhole;
    var f := if hasPoint then DigitRun(afterPoint) else 0;
    if w + f == 0 then None
    else
      match Exponent(afterPoint[f..])
      case None => None
      case Some(e) => Some(Magnitude(body[..w], afterPoint[..f]) * Scale10(e))
  }

  /** The exponent part of a float literal: empty, or `[eE][+-]?\d+` to the end. */
  function Exponent(s: string): Option<int> {
    if s == [] then Some(0)
    else if s[0] != 'e' && s[0] != 'E' then None
    else
      var signLen := if |s| > 1 && (s[1] == '-' || s[1] == '+') then 1 else 0;
      var digits := s[1 + signLen..];
      if digits != [] && AllDigits(digits) then
        var v: int := DigitsValue(digits);
        Some(if signLen == 1 && s[1] == '-' then -v else v)
      else None
  }

  function Scale10(e: int): real {
    if e >= 0 then Pow10(e) as real else 1.0 / Pow10(-e) as real
  }

  /** Converts six group texts; None if any conversion raises ValueError. */
  function Floats(ts: seq<string>): (r: Option<seq<real>>)
    ensures r.Some? ==> |r.value| == |ts|
  {
    if ts == [] then Some([])
    else
      match PyFloat(ts[0])
      case None => None
      case Some(v) =>
        match Floats(ts[1..])
        case None => None
        case Some(vs) => Some([v] + vs)
  }

  /** `parse_line`: mag from groups 1-3 and acc from groups 4-6 of the leftmost
      match; None when there is no match (or, were it reachable, when a group is
      not a float literal). */
  function ParseLine(line: string): Option<Measurement> {
    match Search(line)
    case None => None
    case Some(ts) =>
      match Floats(ts)
      case None => None
      case Some(v) => Some(Measurement(Vec3(v[0], v[1], v[2]), Vec3(v[3], v[4], v[5])))
  }
}
