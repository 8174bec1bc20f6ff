/** `parse_line` (training_data_capture.py, lines 44-57): a line
    `s1=<num>,s2=<num>,s3=<num>` becomes a sensor triplet, and every failure
    inside the `try` becomes `None`.

    Python's `float()` is not modelled: it is the parameter `num`, an
    arbitrary partial map from text to a real number. */
module LineParser {
  import opened Wrappers
  import opened Text
  import opened Gestures

  /** The comma-separated fields of a line after `strip()`. */
  function Fields(line: string): seq<string>
  {
    Split(Strip(line), ',')
  }

  /** `field.split("=")[1]`: the text between the first and the second `=`,
      or `None` where Python raises an `IndexError`. */
  function FieldValue(field: string): (r: Option<string>)
    ensures r.Some? <==> '=' in field
    ensures r.Some? ==> '=' !in r.value && |r.value| < |field|
  {
    var q := Split(field, '=');
    if |q| < 2 then None
    else
      assert Join(q, '=') == q[0] + ['='] + Join(q[1..], '=');
      assert q[1..][0] == q[1];
      Some(q[1])
  }

  /** `float(field.split("=")[1])`. */
  function FieldNumber(num: string -> Option<real>, field: string): (r: Option<real>)
    ensures r.Some? ==> '=' in field
  {
    match FieldValue(field)
    case None => None
    case Some(v) => num(v)
  }

  /** The tuple of the first three field numbers, as `parse_line` builds it. */
  function ParseFields(num: string -> Option<real>, p: seq<string>): (r: Option<Triplet>)
    ensures r.Some? ==> |p| >= 3
    ensures r.Some? ==> FieldNumber(num, p[0]).Some? && FieldNumber(num, p[1]).Some? && FieldNumber(num, p[2]).Some?
    ensures |p| >= 3 && FieldNumber(num, p[0]).Some? && FieldNumber(num, p[1]).Some? && FieldNumber(num, p[2]).Some?
            ==> r == Some(Triplet(FieldNumber(num, p[0]).value, FieldNumber(num, p[1]).value, FieldNumber(num, p[2]).value))
  {
    if |p| < 3 then None
    else
      var x1, x2, x3 := FieldNumber(num, p[0]), FieldNumber(num, p[1]), FieldNumber(num, p[2]);
      if x1.Some? && x2.Some? && x3.Some? then Some(Triplet(x1.value, x2.value, x3.value))
      else None
  }

  /** The model of `parse_line`. */
  function ParseLine(num: string -> Option<real>, line: string): (r: Option<Triplet>)
    ensures AllSpace(line) ==> r == None
    ensures r.Some? ==> Count(Strip(line), ',') >= 2 && |Fields(line)| >= 3
    ensures r.Some? ==> '=' in Fields(line)[0] && '=' in Fields(line)[1] && '=' in Fields(line)[2]
    ensures r.Some? ==> && FieldNumber(num, Fields(line)[0]).Some?
                        && FieldNumber(num, Fields(line)[1]).Some?
                        && FieldNumber(num, Fields(line)[2]).Some?
  {
    var text := Strip(line);
    if text == [] then None
    else
      var p := Fields(line);
      SplitCount(text, ',');
      ParseFields(num, p)
  }

  /** One field as it appears on the wire: `key=value` followed by a tail
      that is empty or starts with a further `=`. Nothing checks the key. */
  datatype RawField = RawField(key: string, value: string, tail: string)

  predicate WellFormed(f: RawField)
  {
    && ',' !in f.key && '=' !in f.key
    && ',' !in f.value && '=' !in f.value
    && ',' !in f.tail && (f.tail == [] || f.tail[0] == '=')
  }

  function FieldText(f: RawField): string
  {
    f.key + "=" + f.value + f.tail
  }

  /** A line with three fields followed by `extra`, which is empty or holds
      further comma-separated fields. */
  function RenderLine(f1: RawField, f2: RawField, f3: RawField, extra: string): string
  {
    FieldText(f1) + "," + FieldText(f2) + "," + FieldText(f3) + extra
  }

  /** The value is the first `=`-free piece of what follows the key's `=`. */
  lemma ValueIsFirstPiece(f: RawField)
    requires WellFormed(f)
    ensures Split(f.value + f.tail, '=')[0] == f.value
  {
    SplitHead(f.value, '=', f.tail);
  }

  lemma FieldValueOf(f: RawField)
    requires WellFormed(f)
    ensures FieldValue(FieldText(f)) == Some(f.value)
  {
    var rest := f.value + f.tail;
    assert FieldText(f) == f.key + ['='] + rest;
    SplitAtFirst(f.key, '=', rest);
    ValueIsFirstPiece(f);
    var q := Split(FieldText(f), '=');
    assert q == [f.key] + Split(rest, '=');
    assert q[1] == f.value;
  }

  lemma NoCommaInField(f: RawField)
    requires WellFormed(f)
    ensures ',' !in FieldText(f)
  {
  }

  /** The first three fields of a rendered line are the three raw fields. */
  lemma RenderedFields(f1: RawField, f2: RawField, f3: RawField, extra: string)
    requires WellFormed(f1) && WellFormed(f2) && WellFormed(f3)
    requires extra == [] || extra[0] == ','
    ensures var p := Split(RenderLine(f1, f2, f3, extra), ',');
      |p| >= 3 && p[0] == FieldText(f1) && p[1] == FieldText(f2) && p[2] == FieldText(f3)
  {
    var t1, t2, t3 := FieldText(f1), FieldText(f2), FieldText(f3);
    NoCommaInField(f1);
    NoCommaInField(f2);
    NoCommaInField(f3);
    var tail3 := t3 + extra;
    var tail2 := t2 + [','] + tail3;
    assert RenderLine(f1, f2, f3, extra) == t1 + [','] + tail2;
    var s3 := Split(tail3, ',');
    SplitHead(t3, ',', extra);
    var s2 := Split(tail2, ',');
    SplitAtFirst(t2, ',', tail3);
    assert s2 == [t2] + s3;
    var s1 := Split(t1 + [','] + tail2, ',');
    SplitAtFirst(t1, ',', tail2);
    assert s1 == [t1] + s2;
  }

  /** On a well-formed line, padded by any whitespace, `parse_line` reads the
      value of each of the first three fields, ignores the keys and every
      later field, and fails exactly when one of the three values is not a
      number. */
  lemma ParseRenderedLine(num: string -> Option<real>, pre: string,
                          f1: RawField, f2: RawField, f3: RawField,
                          extra: string, post: string)
    requires AllSpace(pre) && AllSpace(post)
    requires WellFormed(f1) && WellFormed(f2) && WellFormed(f3)
    requires extra == [] || extra[0] == ','
    requires Trimmed(RenderLine(f1, f2, f3, extra))
    ensures ParseLine(num, pre + RenderLine(f1, f2, f3, extra) + post)
         == if num(f1.value).Some? && num(f2.value).Some? && num(f3.value).Some?
            then Some(Triplet(num(f1.value).value, num(f2.value).value, num(f3.value).value))
            else None
  {
    var body := RenderLine(f1, f2, f3, extra);
    var line := pre + body + post;
    StripPadded(pre, body, post);
    assert Strip(line) == body;
    assert body != [] by {
      assert |FieldText(f1)| > 0;
    }
    RenderedFields(f1, f2, f3, extra);
    var p := Fields(line);
    FieldValueOf(f1);
    FieldValueOf(f2);
    FieldValueOf(f3);
    assert FieldNumber(num, p[0]) == num(f1.value);
    assert FieldNumber(num, p[1]) == num(f2.value);
    assert FieldNumber(num, p[2]) == num(f3.value);
    assert ParseLine(num, line) == ParseFields(num, p);
  }

  /** The line the sensor firmware prints for three value texts:
      `s1=<v1>,s2=<v2>,s3=<v3>`. */
  function SensorLine(v1: string, v2: string, v3: string): string
  {
    RenderLine(RawField("s1", v1, ""), RawField("s2", v2, ""), RawField("s3", v3, ""), "")
  }

  /** A value text as the firmware prints it: no separators, and (for the
      last one, which ends the line) no trailing whitespace. */
  predicate PlainValue(v: string)
  {
    ',' !in v && '=' !in v && (v == [] || !IsSpace(v[|v| - 1]))
  }

  /** Parsing a printed sensor line, with or without surrounding whitespace
      such as the line terminator, recovers the three numbers `float()`
      reads from the value texts, and fails exactly when one of them is not
      a number. */
  lemma ParseSensorLine(num: string -> Option<real>, v1: string, v2: string, v3: string, eol: string)
    requires PlainValue(v1) && PlainValue(v2) && PlainValue(v3)
    requires AllSpace(eol)
    ensures ParseLine(num, SensorLine(v1, v2, v3) + eol)
         == if num(v1).Some? && num(v2).Some? && num(v3).Some?
            then Some(Triplet(num(v1).value, num(v2).value, num(v3).value))
            else None
  {
    var f1, f2, f3 := RawField("s1", v1, ""), RawField("s2", v2, ""), RawField("s3", v3, "");
    SensorLineTrimmed(v1, v2, v3);
    assert WellFormed(f1) && WellFormed(f2) && WellFormed(f3);
    assert "" + SensorLine(v1, v2, v3) + eol == SensorLine(v1, v2, v3) + eol;
    ParseRenderedLine(num, "", f1, f2, f3, "", eol);
  }

  /** The sensor line spelled out as text. */
  lemma SensorLineText(v1: string, v2: string, v3: string)
    ensures SensorLine(v1, v2, v3) == "s1=" + v1 + ",s2=" + v2 + ",s3=" + v3
  {
    var a, b, c := "s1=" + v1, "s2=" + v2, "s3=" + v3;
    assert FieldText(RawField("s1", v1, "")) == a;
    assert FieldText(RawField("s2", v2, "")) == b;
    assert FieldText(RawField("s3", v3, "")) == c;
    assert SensorLine(v1, v2, v3) == a + "," + b + "," + c;
    assert a + "," + b == "s1=" + v1 + ",s2=" + v2;
    assert a + "," + b + "," + c == "s1=" + v1 + ",s2=" + v2 + ",s3=" + v3;
  }

  lemma SensorLineTrimmed(v1: string, v2: string, v3: string)
    requires PlainValue(v3)
    ensures Trimmed(SensorLine(v1, v2, v3))
  {
    var last := FieldText(RawField("s3", v3, ""));
    var body := SensorLine(v1, v2, v3);
    assert body[0] == 's';
    assert body[|body| - 1] == last[|last| - 1];
    assert last[|last| - 1] == if v3 == [] then '=' else v3[|v3| - 1];
  }

  /** A read that received nothing before its timeout yields the empty
      line, which is skipped. */
  lemma EmptyLineFails(num: string -> Option<real>)
    ensures ParseLine(num, "") == None
  {
  }

  /** The value texts `0.05`, `0.20`, `abc` and `0.1` are plain. */
  lemma ListedValuesPlain(a: string, b: string)
    requires a in ["0.05", "0.20", "abc", "0.1"] && b in ["0.05", "0.20", "abc", "0.1"]
    ensures PlainValue(a) && PlainValue(b)
  {
  }

  /** `s1=0.05,s2=0.05,s3=0.20` is a sensor line. */
  lemma RightLightReadingText(line: string, a: string, b: string)
    requires line == "s1=0.05,s2=0.05,s3=0.20" && a == "0.05" && b == "0.20"
    ensures line == SensorLine(a, a, b) + ""
  {
    SensorLineText(a, a, b);
    assert line == "s1=" + a + ",s2=" + a + ",s3=" + b;
  }

  /** `s1=abc,s2=0.1,s3=0.1` is a sensor line. */
  lemma NonNumericLineText(line: string, a: string, b: string)
    requires line == "s1=abc,s2=0.1,s3=0.1" && a == "abc" && b == "0.1"
    ensures line == SensorLine(a, b, b) + ""
  {
    SensorLineText(a, b, b);
    assert line == "s1=" + a + ",s2=" + b + ",s3=" + b;
  }

  /** The right-light reading `s1=0.05,s2=0.05,s3=0.20` parses to its
      three numbers. */
  lemma ParseRightLightReading(num: string -> Option<real>, line: string)
    requires num("0.05") == Some(0.05) && num("0.20") == Some(0.20)
    requires line == "s1=0.05,s2=0.05,s3=0.20"
    ensures ParseLine(num, line) == Some(Triplet(0.05, 0.05, 0.20))
  {
    var a, b, eol := "0.05", "0.20", "";
    RightLightReadingText(line, a, b);
    assert line == SensorLine(a, a, b) + eol;
    ListedValuesPlain(a, b);
    ParseSensorLine(num, a, a, b, eol);
  }

  /** A non-numeric value makes the line unparsable, whatever the others are. */
  lemma ParseNonNumericLine(num: string -> Option<real>, line: string)
    requires num("abc") == None
    requires line == "s1=abc,s2=0.1,s3=0.1"
    ensures ParseLine(num, line) == None
  {
    var a, b, eol := "abc", "0.1", "";
    NonNumericLineText(line, a, b);
    assert line == SensorLine(a, b, b) + eol;
    ListedValuesPlain(a, b);
    ParseSensorLine(num, a, b, b, eol);
  }
}
