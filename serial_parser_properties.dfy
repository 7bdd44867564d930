/** What the measurement-line parser accepts and rejects, stated against an
    independent description of the pattern: a line matches at a position when
    it continues there with the prefix, six numerals joined by exactly ", ",
    and text that cannot lengthen the sixth numeral. */
module SerialParserProperties {
  import opened Decimals
  import opened Measure
  import opened SerialParser

  /** Texts joined by ", ", followed by `rest`. */
  function Joined(ts: seq<string>, rest: string): string
    requires |ts| >= 1
  {
    if |ts| == 1 then ts[0] + rest else ts[0] + (SEP + Joined(ts[1..], rest))
  }

  /** Texts joined by ", ". */
  function Join(ts: seq<string>): string
    requires |ts| >= 1
  {
    if |ts| == 1 then ts[0] else ts[0] + (SEP + Join(ts[1..]))
  }

  /** The values the numerals denote, in order. */
  function Values(ds: seq<Decimal>): (vs: seq<real>)
    requires AllValid(ds)
    ensures |vs| == |ds|
  {
    if ds == [] then [] else [Value(ds[0])] + Values(ds[1..])
  }

  /** The measurement six field values stand for: mag first, then acc. */
  function FromFields(vs: seq<real>): Measurement
    requires |vs| == 6
  {
    Measurement(Vec3(vs[0], vs[1], vs[2]), Vec3(vs[3], vs[4], vs[5]))
  }

  /** A text in the shape the pattern describes, followed by `rest`. */
  function MeasurementText(ds: seq<Decimal>, rest: string): string
    requires |ds| == 6
  {
    PREFIX + Joined(Shows(ds), rest)
  }

  lemma ShowsCons(ds: seq<Decimal>)
    requires |ds| >= 1
    ensures Shows(ds)[0] == Show(ds[0]) && Shows(ds)[1..] == Shows(ds[1..])
  {
  }

  lemma {:induction false} ShowsAt(ds: seq<Decimal>, i: nat)
    requires i < |ds|
    ensures Shows(ds)[i] == Show(ds[i])
  {
    if i > 0 {
      ShowsCons(ds);
      ShowsAt(ds[1..], i - 1);
    }
  }

  lemma AllValidTail(ds: seq<Decimal>)
    requires |ds| >= 1 && AllValid(ds)
    ensures AllValid(ds[1..])
  {
    forall i | 0 <= i < |ds| - 1 ensures Valid(ds[1..][i]) {
      assert ds[1..][i] == ds[i + 1];
    }
  }

  // ---------------------------------------------------------------------------
  // The numeral scanner

  /** The scanner takes exactly a numeral that the following text cannot lengthen. */
  lemma LexShow(d: Decimal, rest: string)
    requires Valid(d) && Boundary(d, rest)
    ensures LexNumber(Show(d) + rest) == Some(d)
  {
    var u := UnsignedText(d);
    UnsignedChars(d);
    assert Show(d) + rest == SignText(d.negative) + (u + rest);
    SignSplit(d.negative, u + rest);
    LexUnsignedShow(d, rest);
  }

  lemma LexUnsignedShow(d: Decimal, rest: string)
    requires Valid(d) && Boundary(d, rest)
    ensures LexUnsigned(d.negative, UnsignedText(d) + rest) == Some(d)
  {
    var g := FractionText(d.fraction) + rest;
    var body := d.whole + g;
    assert UnsignedText(d) + rest == body;
    DigitRunStops(d.whole, g);
    assert body[..|d.whole|] == d.whole && body[|d.whole|..] == g;
    FractionPartShow(d.fraction, rest);
  }

  /** The fractional part is read back when the text after it cannot lengthen it. */
  lemma FractionPartShow(f: string, rest: string)
    requires AllDigits(f)
    requires f != [] ==> rest == [] || !IsDigit(rest[0])
    requires f == [] ==> !(rest != [] && rest[0] == '.' && |rest| >= 2 && IsDigit(rest[1]))
    ensures FractionPart(FractionText(f) + rest) == f
  {
    var g := FractionText(f) + rest;
    if f != [] {
      assert g[1..] == f + rest;
      DigitRunStops(f, rest);
      assert (f + rest)[..|f|] == f;
    } else if rest != [] && rest[0] == '.' {
      assert g == rest;
      assert rest[1..] == [] || !IsDigit(rest[1..][0]);
    }
  }

  /** What the scanner takes cannot be lengthened by the text that follows. */
  lemma LexGreedy(s: string)
    requires LexNumber(s).Some?
    ensures Boundary(LexNumber(s).value, s[|Show(LexNumber(s).value)|..])
  {
    var neg := s != [] && s[0] == '-';
    var body := if neg then s[1..] else s;
    var d := LexNumber(s).value;
    assert LexNumber(s) == LexUnsigned(neg, body);
    LexUnsignedGreedy(neg, body);
    assert s[|Show(d)|..] == body[|UnsignedText(d)|..];
  }

  lemma LexUnsignedGreedy(neg: bool, body: string)
    requires LexUnsigned(neg, body).Some?
    ensures var d := LexUnsigned(neg, body).value; Boundary(d, body[|UnsignedText(d)|..])
  {
    var w := DigitRun(body);
    var g := body[w..];
    var d := LexUnsigned(neg, body).value;
    FractionPartGreedy(g);
    assert body[|UnsignedText(d)|..] == g[|FractionText(d.fraction)|..];
  }

  /** After the fractional part comes no digit; when there is none, the text
      does not start with '.' and a digit. */
  lemma FractionPartGreedy(g: string)
    ensures var f := FractionPart(g); var rest := g[|FractionText(f)|..];
      (f != [] ==> rest == [] || !IsDigit(rest[0])) &&
      (f == [] ==> rest == g && !(g != [] && g[0] == '.' && |g| >= 2 && IsDigit(g[1])))
  {
    var f := FractionPart(g);
    if f != [] {
      assert g[|FractionText(f)|..] == g[1..][DigitRun(g[1..])..];
    } else if g != [] && g[0] == '.' && |g| >= 2 {
      assert g[1..][0] == g[1];
    }
  }

  // ---------------------------------------------------------------------------
  // The six fields

  /** Completeness: numerals joined by ", " are read back, whatever follows the
      last one provided it cannot lengthen it. */
  lemma {:induction false} FieldsComplete(ds: seq<Decimal>, rest: string)
    requires |ds| >= 1 && AllValid(ds)
    requires Boundary(ds[|ds| - 1], rest)
    ensures MatchFields(Joined(Shows(ds), rest), |ds|) == Some(ds)
    decreases |ds|, 1
  {
    if |ds| == 1 {
      ShowsCons(ds);
      LexShow(ds[0], rest);
      assert ds == [ds[0]];
    } else {
      FieldsCompleteMore(ds, rest);
    }
  }

  lemma {:induction false} FieldsCompleteMore(ds: seq<Decimal>, rest: string)
    requires |ds| > 1 && AllValid(ds)
    requires Boundary(ds[|ds| - 1], rest)
    ensures MatchFields(Joined(Shows(ds), rest), |ds|) == Some(ds)
    decreases |ds|, 0
  {
    var tail := Joined(Shows(ds[1..]), rest);
    JoinedShowsCons(ds, rest);
    LexShow(ds[0], SEP + tail);
    SplitFirst(ds);
    AllValidTail(ds);
    FieldsComplete(ds[1..], rest);
    MatchFieldsStep(Joined(Shows(ds), rest), |ds|, ds[0], tail);
  }

  lemma SplitFirst<T>(xs: seq<T>)
    requires |xs| > 1
    ensures xs[1..][|xs| - 2] == xs[|xs| - 1] && [xs[0]] + xs[1..] == xs
  {
  }

  lemma JoinedShowsCons(ds: seq<Decimal>, rest: string)
    requires |ds| > 1
    ensures Joined(Shows(ds), rest) == Show(ds[0]) + (SEP + Joined(Shows(ds[1..]), rest))
  {
    ShowsCons(ds);
  }

  /** One step of the fields matcher: a numeral, ", ", then the other fields. */
  lemma MatchFieldsStep(s: string, n: nat, d: Decimal, tail: string)
    requires n >= 2 && LexNumber(s) == Some(d) && s == Show(d) + (SEP + tail)
    ensures MatchFields(s, n) == match MatchFields(tail, n - 1)
      case None => None
      case Some(ds) => Some([d] + ds)
  {
    assert s[|Show(d)|..] == SEP + tail;
    assert (SEP + tail)[..2] == SEP && (SEP + tail)[2..] == tail;
  }

  /** What one step of the fields matcher found: a numeral, then either the end
      of the fields or ", " and the other fields. */
  lemma MatchFieldsUnfold(s: string, n: nat)
    requires n >= 1 && MatchFields(s, n).Some?
    ensures LexNumber(s).Some?
    ensures var d := LexNumber(s).value; var ds := MatchFields(s, n).value;
      && ds[0] == d
      && (n == 1 ==> ds == [d])
      && (n > 1 ==>
            && |s| >= |Show(d)| + 2 && s[|Show(d)|..][..2] == SEP
            && MatchFields(s[|Show(d)|..][2..], n - 1).Some?
            && ds[1..] == MatchFields(s[|Show(d)|..][2..], n - 1).value)
  {
  }

  /** Soundness: the fields are the texts of the numerals found, joined by ", "
      at the start of the text, and the text after them cannot lengthen the last. */
  lemma {:induction false} FieldsSound(s: string, n: nat)
    requires n >= 1 && MatchFields(s, n).Some?
    ensures var ds := MatchFields(s, n).value; var j := Join(Shows(ds));
      && |j| <= |s| && s[..|j|] == j
      && Boundary(ds[n - 1], s[|j|..])
    decreases n, 1
  {
    if n == 1 {
      FieldsSoundOne(s);
    } else {
      FieldsSoundMore(s, n);
    }
  }

  lemma {:induction false} FieldsSoundMore(s: string, n: nat)
    requires n > 1 && MatchFields(s, n).Some?
    ensures var ds := MatchFields(s, n).value; var j := Join(Shows(ds));
      && |j| <= |s| && s[..|j|] == j
      && Boundary(ds[n - 1], s[|j|..])
    decreases n, 0
  {
    MatchFieldsUnfold(s, n);
    FieldsSound(s[|Show(LexNumber(s).value)|..][2..], n - 1);
    FieldsSoundStep(s, n);
  }

  lemma FieldsSoundOne(s: string)
    requires MatchFields(s, 1).Some?
    ensures var ds := MatchFields(s, 1).value; var j := Join(Shows(ds));
      |j| <= |s| && s[..|j|] == j && Boundary(ds[0], s[|j|..])
  {
    MatchFieldsUnfold(s, 1);
    LexGreedy(s);
    assert Shows(MatchFields(s, 1).value) == [Show(LexNumber(s).value)];
  }

  lemma FieldsSoundStep(s: string, n: nat)
    requires n > 1 && MatchFields(s, n).Some?
    requires var tail := s[|Show(LexNumber(s).value)|..][2..];
      var es := MatchFields(tail, n - 1).value; var j := Join(Shows(es));
      |j| <= |tail| && tail[..|j|] == j && Boundary(es[n - 2], tail[|j|..])
    ensures var ds := MatchFields(s, n).value; var j := Join(Shows(ds));
      |j| <= |s| && s[..|j|] == j && Boundary(ds[n - 1], s[|j|..])
  {
    MatchFieldsUnfold(s, n);
    var d := LexNumber(s).value;
    var ds := MatchFields(s, n).value;
    var tail := s[|Show(d)|..][2..];
    var es := MatchFields(tail, n - 1).value;
    assert ds == [d] + es;
    ShowsCons(ds);
    assert Shows(ds) == [Show(d)] + Shows(es);
    LayoutCons(s, Show(d), Shows(es), tail);
  }

  lemma LayoutCons(s: string, t: string, us: seq<string>, tail: string)
    requires |us| >= 1 && |t| + 2 <= |s| && s[..|t|] == t
    requires s[|t|..][..2] == SEP && tail == s[|t|..][2..]
    requires |Join(us)| <= |tail| && tail[..|Join(us)|] == Join(us)
    ensures var w := |Join([t] + us)|;
      w <= |s| && s[..w] == Join([t] + us) && s[w..] == tail[|Join(us)|..]
  {
    var ts := [t] + us;
    assert ts[0] == t && ts[1..] == us;
    var w := |t| + 2 + |Join(us)|;
    var rest := s[|t|..];
    assert s[..w] == s[..|t|] + rest[..2] + tail[..|Join(us)|];
  }

  /** Joining and then appending is joining with the text appended. */
  lemma {:induction false} JoinedIsJoin(ts: seq<string>, rest: string)
    requires |ts| >= 1
    ensures Joined(ts, rest) == Join(ts) + rest
  {
    if |ts| > 1 {
      JoinedIsJoin(ts[1..], rest);
      assert ts[0] + (SEP + (Join(ts[1..]) + rest)) == (ts[0] + (SEP + Join(ts[1..]))) + rest;
    }
  }

  // ---------------------------------------------------------------------------
  // The pattern at one position

  /** The pattern matches text in the described shape and returns its numerals. */
  lemma MatchAtComplete(ds: seq<Decimal>, rest: string)
    requires |ds| == 6 && AllValid(ds) && Boundary(ds[5], rest)
    ensures MatchAt(MeasurementText(ds, rest)) == Some(ds)
  {
    var s := MeasurementText(ds, rest);
    assert s[..|PREFIX|] == PREFIX;
    assert s[|PREFIX|..] == Joined(Shows(ds), rest);
    FieldsComplete(ds, rest);
  }

  /** Every match is text in the described shape: the prefix, six numerals
      separated by exactly ", ", then text that cannot lengthen the sixth. */
  lemma MatchAtSound(s: string)
    requires MatchAt(s).Some?
    ensures var ds := MatchAt(s).value; var m := PREFIX + Join(Shows(ds));
      |m| <= |s| && s[..|m|] == m && Boundary(ds[5], s[|m|..])
  {
    var body := s[|PREFIX|..];
    assert MatchAt(s) == MatchFields(body, 6);
    FieldsSound(body, 6);
    PrefixThen(s, PREFIX, Join(Shows(MatchAt(s).value)));
  }

  lemma PrefixThen(s: string, p: string, j: string)
    requires |p| <= |s| && s[..|p|] == p
    requires |j| <= |s| - |p| && s[|p|..][..|j|] == j
    ensures s[..|p + j|] == p + j && s[|p + j|..] == s[|p|..][|j|..]
  {
    assert s[..|p| + |j|] == s[..|p|] + s[|p|..][..|j|];
  }

  /** Every group is a numeral `-?\d+(\.\d+)?`: none carries a '+' sign, an
      exponent, or a leading or trailing '.'. */
  lemma GroupsAreNumerals(line: string)
    requires Search(line).Some?
    ensures forall i | 0 <= i < 6 :: var t := Search(line).value[i];
      && IsNumeral(t)
      && |t| > 0 && t[0] != '+' && t[0] != '.' && t[|t| - 1] != '.' && '+' !in t && 'e' !in t && 'E' !in t
  {
    var i0 := LeftmostFrom(line, 0).value;
    var ds := MatchAt(line[i0..]).value;
    forall i | 0 <= i < 6 ensures var t := Search(line).value[i];
      && IsNumeral(t)
      && |t| > 0 && t[0] != '+' && t[0] != '.' && t[|t| - 1] != '.' && '+' !in t && 'e' !in t && 'E' !in t
    {
      ShowsAt(ds, i);
      DecomposeShow(ds[i]);
      NumeralShape(Show(ds[i]));
    }
  }

  /** A match can only begin at an 'M'. */
  lemma MatchStartsWithM(line: string, j: nat)
    requires j <= |line| && MatchesAt(line, j)
    ensures j < |line| && line[j] == 'M'
  {
    var s := line[j..];
    assert |s| >= |PREFIX| && s[..|PREFIX|] == PREFIX;
    assert s[..|PREFIX|][0] == s[0];
  }

  // ---------------------------------------------------------------------------
  // float() on the groups

  /** `float()` accepts every numeral and yields exactly its value. */
  lemma PyFloatShow(d: Decimal)
    requires Valid(d)
    ensures PyFloat(Show(d)) == Some(Value(d))
  {
    var u := UnsignedText(d);
    UnsignedChars(d);
    SignSplit(d.negative, u);
    FloatMagnitudeShow(d);
  }

  lemma FloatMagnitudeShow(d: Decimal)
    requires Valid(d)
    ensures FloatMagnitude(UnsignedText(d)) == Some(Magnitude(d.whole, d.fraction))
  {
    var body := UnsignedText(d);
    var g := FractionText(d.fraction);
    DigitRunStops(d.whole, g);
    assert body[..|d.whole|] == d.whole && body[|d.whole|..] == g;
    if d.fraction != [] {
      assert g[1..] == d.fraction;
      DigitRunAll(d.fraction);
      assert d.fraction[..|d.fraction|] == d.fraction;
      assert d.fraction[|d.fraction|..] == [];
    }
  }

  /** `float()` never fails on the texts of numerals, so the ValueError handler
      of parse_line is unreachable. */
  lemma {:induction false} FloatsOfNumerals(ds: seq<Decimal>)
    requires AllValid(ds)
    ensures Floats(Shows(ds)) == Some(Values(ds))
  {
    if ds != [] {
      PyFloatShow(ds[0]);
      ShowsCons(ds);
      AllValidTail(ds);
      FloatsOfNumerals(ds[1..]);
    }
  }

  // ---------------------------------------------------------------------------
  // parse_line

  /** parse_line returns a measurement exactly when the pattern occurs somewhere
      in the line; with no occurrence it returns None (and nothing raises). */
  lemma ParseLineSomeIffMatch(line: string)
    ensures ParseLine(line).Some? <==> exists i | 0 <= i <= |line| :: MatchesAt(line, i)
  {
    match LeftmostFrom(line, 0)
    case None =>
    case Some(i) =>
      FloatsOfNumerals(MatchAt(line[i..]).value);
  }

  /** The fields come from the leftmost occurrence: groups 1-3 are mag and
      groups 4-6 are acc, each the value of its numeral. */
  lemma ParseLineLeftmost(line: string, i: nat)
    requires i <= |line| && MatchesAt(line, i)
    requires forall j | 0 <= j < i :: !MatchesAt(line, j)
    ensures ParseLine(line) == Some(FromFields(Values(MatchAt(line[i..]).value)))
  {
    var r := LeftmostFrom(line, 0);
    assert r == Some(i);
    FloatsOfNumerals(MatchAt(line[i..]).value);
  }

  /** Round trip: six numerals in the measurement shape, after any text without
      an 'M' and before any text that cannot lengthen the sixth numeral, parse
      to the measurement with mag = first three values and acc = last three. */
  lemma RoundTrip(prefix: string, ds: seq<Decimal>, suffix: string)
    requires |ds| == 6 && AllValid(ds) && Boundary(ds[5], suffix)
    requires 'M' !in prefix
    ensures ParseLine(prefix + MeasurementText(ds, suffix)) == Some(FromFields(Values(ds)))
  {
    var line := prefix + MeasurementText(ds, suffix);
    var i := |prefix|;
    assert line[i..] == MeasurementText(ds, suffix);
    MatchAtComplete(ds, suffix);
    forall j | 0 <= j < i ensures !MatchesAt(line, j) {
      assert line[j] == prefix[j];
      if MatchesAt(line, j) {
        MatchStartsWithM(line, j);
      }
    }
    ParseLineLeftmost(line, i);
  }
}
