/** The serializer and the reader are inverse on well-formed data: what
    `paramListToString`, `propListToString` and `writeDateTime` write,
    `parseParameters`, `parsePropertyValues`, `newProperty` and `newDate` read
    back. */
module RoundTrip {
  import opened VCardTypes
  import opened Text
  import opened Tokenizer
  import opened PropertyHelper
  import opened DateHelper
  import opened Writer
  import ContentLines

  // ---------------------------------------------------------------------------
  // Parameters

  /** A parameter the reader gets back: a non-empty name without `=` and a
      non-empty value without `:` or `;`. */
  predicate ParamWritable(p: Parameter)
  {
    p.name != [] && Lacks(p.name, '=') && p.value != [] && Lacks(p.value, ':') && Lacks(p.value, ';')
  }

  predicate ParamsWritable(ps: seq<Parameter>)
  {
    forall k :: 0 <= k < |ps| ==> ParamWritable(ps[k])
  }

  /** Where the pieces of one written entry `;name=value` sit in a line. */
  lemma EntryLayout(line: string, i: nat, p: Parameter, tail: string)
    requires i <= |line| && line[i..] == ParamEntry(p) + tail
    ensures i + 2 + |p.name| + |p.value| <= |line|
    ensures line[i] == ';' && line[i + 1 + |p.name|] == '='
    ensures line[i + 1..i + 1 + |p.name|] == p.name
    ensures line[i + 2 + |p.name|..i + 2 + |p.name| + |p.value|] == p.value
    ensures line[i + 2 + |p.name| + |p.value|..] == tail
  {
    var n := i + 1 + |p.name|;
    var m := n + 1 + |p.value|;
    var s := line[i..];
    assert s == [';'] + p.name + ['='] + p.value + tail;
    assert s[0] == ';';
    assert s[1 + |p.name|] == '=';
    assert s[1..1 + |p.name|] == p.name;
    assert s[2 + |p.name|..2 + |p.name| + |p.value|] == p.value;
    assert s[2 + |p.name| + |p.value|..] == tail;
    assert line[i + 1..n] == s[1..1 + |p.name|];
    assert line[n + 1..m] == s[2 + |p.name|..2 + |p.name| + |p.value|];
    assert line[m..] == s[2 + |p.name| + |p.value|..];
  }

  /** What follows the parameters' text starts with `;` or `:`. */
  lemma TailStart(ps: seq<Parameter>, rest: string)
    requires rest != [] && rest[0] == ':'
    ensures ParamText(ps) + rest != []
    ensures (ParamText(ps) + rest)[0] == ';' || (ParamText(ps) + rest)[0] == ':'
  {
    if ps != [] {
      assert ParamText(ps) == ParamEntry(ps[0]) + ParamText(ps[1..]);
      assert ParamText(ps)[0] == ';';
    }
  }

  /** A name without `=` followed by `=` is scanned up to that `=`. */
  lemma NameScan(line: string, from: nat, n: nat, name: string)
    requires from <= n < |line| && line[from..n] == name && Lacks(name, '=') && line[n] == '='
    ensures NextSep(line, from, |line|, '=') == n
  {
    assert forall k :: from <= k < n ==> line[k] == name[k - from];
    NextSepStopsAt(line, from, |line|, '=', n);
  }

  /** A value without `:` or `;` followed by one of them is scanned up to it. */
  lemma ValueScan(line: string, from: nat, m: nat, value: string)
    requires from <= m < |line| && line[from..m] == value && Lacks(value, ':') && Lacks(value, ';')
    requires line[m] == ':' || line[m] == ';'
    ensures NextSep2(line, from, |line|, ':', ';') == m
  {
    assert forall k :: from <= k < m ==> line[k] == value[k - from];
    NextSep2StopsAt(line, from, |line|, ':', ';', m);
  }

  /** One written entry is read back as the parameter it came from. */
  lemma EntryRead(line: string, i: nat, p: Parameter, tail: string) returns (m: nat)
    requires ParamWritable(p) && tail != [] && (tail[0] == ';' || tail[0] == ':')
    requires i <= |line| && line[i..] == ParamEntry(p) + tail
    ensures m <= |line| && line[m..] == tail
    ensures ParamsAt(line, i) == Prepend([p], ParamsAt(line, m))
  {
    EntryLayout(line, i, p, tail);
    var n := i + 1 + |p.name|;
    m := n + 1 + |p.value|;
    assert line[m] == tail[0];
    NameScan(line, i + 1, n, p.name);
    ValueScan(line, n + 1, m, p.value);
    assert Parameter(line[i + 1..n], line[n + 1..m]) == p;
    ParamsStep(line, i, n, m);
  }

  /** Written parameters followed by a `:` are read back in order, and the line
      is cut at that `:`. */
  lemma {:induction false} ParamsAtText(line: string, i: nat, ps: seq<Parameter>, rest: string)
    requires ParamsWritable(ps) && rest != [] && rest[0] == ':'
    requires i <= |line| && line[i..] == ParamText(ps) + rest
    ensures ParamsAt(line, i) == Success(ParamSplit(ps, rest))
    decreases |ps|
  {
    if ps == [] {
      assert line[i..] == rest;
      assert line[i] == ':';
    } else {
      var p := ps[0];
      var tail := ParamText(ps[1..]) + rest;
      TailStart(ps[1..], rest);
      ContentLines.Assoc(ParamEntry(p), ParamText(ps[1..]), rest);
      var m := EntryRead(line, i, p, tail);
      ParamsAtText(line, m, ps[1..], rest);
      assert [p] + ps[1..] == ps;
    }
  }

  /** One entry the reader accepts is well formed and spelt as the writer spells it. */
  lemma EntrySound(line: string, i: nat, n: nat, m: nat)
    requires i + 1 < n && n + 1 < m < |line| && line[i] == ';' && line[n] == '='
    requires NextSep(line, i + 1, |line|, '=') == n && NextSep2(line, n + 1, |line|, ':', ';') == m
    ensures ParamWritable(Parameter(line[i + 1..n], line[n + 1..m]))
    ensures line[i..] == ParamEntry(Parameter(line[i + 1..n], line[n + 1..m])) + line[m..]
  {
    var name, value := line[i + 1..n], line[n + 1..m];
    assert forall k :: 0 <= k < |name| ==> name[k] == line[i + 1 + k];
    assert forall k :: 0 <= k < |value| ==> value[k] == line[n + 1 + k];
    assert line[i..] == [line[i]] + name + [line[n]] + value + line[m..];
  }

  /** Whatever the parameter reader accepts is a run of well-formed `;name=value`
      entries, exactly as the writer spells them, followed by the rest of the line,
      which is empty only when there were no entries at all. */
  lemma {:induction false} ParamsAtSound(line: string, i: nat)
    requires i <= |line|
    ensures ParamsAt(line, i).Success? ==>
              var split := ParamsAt(line, i).value;
              line[i..] == ParamText(split.params) + split.rest && ParamsWritable(split.params)
              && (split.rest == [] ==> split.params == [])
    decreases |line| - i
  {
    var r := ParamsAt(line, i);
    if r.Success? && i < |line| && line[i] != ':' {
      assert line[i] == ';';
      var n := NextSep(line, i + 1, |line|, '=');
      assert n < |line|;
      var m := NextSep2(line, n + 1, |line|, ':', ';');
      assert m < |line| && n != i + 1 && m != n + 1;
      ParamsStep(line, i, n, m);
      var p := Parameter(line[i + 1..n], line[n + 1..m]);
      assert ParamsAt(line, m).Success?;
      ParamsAtSound(line, m);
      var tail := ParamsAt(line, m).value;
      var ps := [p] + tail.params;
      assert r == Success(ParamSplit(ps, tail.rest));
      EntrySound(line, i, n, m);
      assert ps[0] == p && ps[1..] == tail.params;
      assert ParamText(ps) == ParamEntry(p) + ParamText(tail.params);
      ContentLines.Assoc(ParamEntry(p), ParamText(tail.params), tail.rest);
      assert ParamsWritable(ps) by {
        forall k | 0 <= k < |ps| ensures ParamWritable(ps[k]) {
          if k > 0 {
            assert ps[k] == tail.params[k - 1];
          }
        }
      }
    } else if r.Success? {
      assert r == Success(ParamSplit([], line[i..]));
      assert ParamText([]) == [];
    }
  }

  /** The parameter reader, characterized: it yields `ps` and `rest` exactly when
      the line from `i` is the writer's text of well-formed `ps` followed by `rest`,
      and `rest` starts with `:` (or is empty, with no parameters before it). */
  lemma ParamsAtExact(line: string, i: nat, ps: seq<Parameter>, rest: string)
    requires i <= |line|
    ensures ParamsAt(line, i) == Success(ParamSplit(ps, rest))
            <==> line[i..] == ParamText(ps) + rest && ParamsWritable(ps)
                 && (rest == [] ==> ps == []) && (rest != [] ==> rest[0] == ':')
  {
    ParamsAtSound(line, i);
    if line[i..] == ParamText(ps) + rest && ParamsWritable(ps) && (rest == [] ==> ps == []) && (rest != [] ==> rest[0] == ':') {
      if rest == [] {
        assert line[i..] == [];
      } else {
        ParamsAtText(line, i, ps, rest);
      }
    }
  }

  // ---------------------------------------------------------------------------
  // Values

  /** A value list the reader gets back: at least one value, not the single
      empty value, and no value holding `;`, CR or LF. */
  predicate ValuesWritable(vs: seq<string>)
  {
    vs != [] && (|vs| > 1 || vs[0] != "")
    && forall k :: 0 <= k < |vs| ==> Lacks(vs[k], ';') && Lacks(vs[k], '\r') && Lacks(vs[k], '\n')
  }

  /** Joining with a separator other than `c` keeps pieces free of `c` free of it. */
  lemma {:induction false} JoinLacks(vs: seq<string>, sep: char, c: char)
    requires sep != c && forall k :: 0 <= k < |vs| ==> Lacks(vs[k], c)
    ensures Lacks(Join(vs, sep), c)
    decreases |vs|
  {
    if |vs| > 1 {
      JoinLacks(vs[1..], sep, c);
      assert Join(vs, sep) == vs[0] + [sep] + Join(vs[1..], sep);
    }
  }

  /** The written values line (`:` and the values joined with `;`) followed by a
      CRLF is read back as the same values. */
  lemma ValuesRoundTrip(vs: seq<string>, line: string)
    requires ValuesWritable(vs)
    requires line == ValuesText(vs) + "\r\n"
    ensures ValuesOf(line) == vs
  {
    var j := Join(vs, ';');
    JoinLacks(vs, ';', '\r');
    JoinLacks(vs, ';', '\n');
    assert j != [] by {
      if |vs| > 1 {
        assert Join(vs, ';') == vs[0] + [';'] + Join(vs[1..], ';');
      }
    }
    var e := 1 + |j|;
    assert line == [':'] + j + ['\r', '\n'];
    assert line[1..e] == j;
    assert forall k :: 1 <= k < e ==> line[k] == j[k - 1];
    assert line[e] == '\r';
    NextSep2StopsAt(line, 1, |line|, '\r', '\n', e);
    assert BodyStart(line) == 1 && BodyEnd(line) == e;
    SplitJoinAt(line, 1, e, vs, ';');
  }

  /** A property written by `writeProperty` (without its group and name) is read
      back by `newProperty` with the same parameters and values. */
  lemma PropertyRoundTrip(name: string, group: Option<string>, ps: seq<Parameter>, vs: seq<string>)
    requires ParamsWritable(ps) && ValuesWritable(vs)
    ensures PropertyFrom(Some(name), group, Some(ParamText(ps) + ValuesText(vs) + "\r\n"))
            == Success(Property(name, GroupOrEmpty(group), ps, vs))
  {
    var rest := ValuesText(vs) + "\r\n";
    var line := ParamText(ps) + ValuesText(vs) + "\r\n";
    ContentLines.Assoc(ParamText(ps), ValuesText(vs), "\r\n");
    assert line[0..] == ParamText(ps) + rest;
    ParamsAtText(line, 0, ps, rest);
    ValuesRoundTrip(vs, rest);
  }

  /** What `newProperty` accepts from a content line: it yields the parameters `ps`
      exactly when the line opens with the writer's text of well-formed `ps` and a
      `:` follows it, and the values are then read from that `:` on. */
  lemma PropertyFromText(name: string, group: Option<string>, line: string, ps: seq<Parameter>)
    requires line != []
    ensures var r := PropertyFrom(Some(name), group, Some(line));
            r.Success? && r.value.parameters == ps
            <==> |ParamText(ps)| < |line| && line[..|ParamText(ps)|] == ParamText(ps)
                 && line[|ParamText(ps)|] == ':' && ParamsWritable(ps)
    ensures var r := PropertyFrom(Some(name), group, Some(line));
            r.Success? ==> |ParamText(r.value.parameters)| < |line| && r.value.values == ValuesOf(line[|ParamText(r.value.parameters)|..])
  {
    var t := ParamText(ps);
    ParamsAtSound(line, 0);
    var r := PropertyFrom(Some(name), group, Some(line));
    if r.Success? {
      var split := ParamsAt(line, 0).value;
      assert line == ParamText(split.params) + split.rest;
      assert split.rest == line[|ParamText(split.params)|..];
    }
    if |t| < |line| && line[..|t|] == t && line[|t|] == ':' && ParamsWritable(ps) {
      var rest := line[|t|..];
      assert line[0..] == t + rest;
      ParamsAtText(line, 0, ps, rest);
    }
  }

  /** A property with no values is written without a `:` and is not read back:
      the parameter reader rejects the line end. */
  lemma NoValuesNotReadBack(name: string, group: Option<string>)
    ensures PropertyFrom(Some(name), group, Some(ParamText([]) + ValuesText([]) + "\r\n")) == Failure(InvProp)
  {
    assert ParamText([]) + ValuesText([]) + "\r\n" == "\r\n";
  }

  // ---------------------------------------------------------------------------
  // Dates

  /** A structured date-and-or-time the reader gets back: a date of digits and
      dashes, a time of at most 6 digits, at least one of them present, and short
      enough not to be taken for text. */
  predicate StructuredWritable(dt: DateTime)
  {
    !dt.isText && dt.text == "" && (dt.date != "" || dt.time != "")
    && (forall k :: 0 <= k < |dt.date| ==> IsDigit(dt.date[k]) || dt.date[k] == '-')
    && (forall k :: 0 <= k < |dt.time| ==> IsDigit(dt.time[k]))
    && |dt.time| <= 6 && |dt.date| + |dt.time| <= 16
  }

  function TimePart(dt: DateTime): string
  {
    if dt.time != "" then "T" + dt.time else ""
  }

  function UtcPart(dt: DateTime): string
  {
    if dt.UTC then "Z" else ""
  }

  /** The written structured value is `:`, the date, `T` and the time when there
      is one, and `Z` for UTC. */
  lemma StructuredText(dt: DateTime)
    requires StructuredWritable(dt)
    ensures DateText(Some(dt)) == Success(":" + dt.date + TimePart(dt) + UtcPart(dt))
  {
    var r := DateText(Some(dt)).value;
    if dt.date == "" {
      assert ":" + dt.date == ":";
      ContentLines.Assoc(":", "T", dt.time);
    } else {
      assert r == ":" + dt.date + TimePart(dt) + UtcPart(dt);
    }
  }

  /** Where the pieces of a written structured value sit in its line. */
  lemma StructuredLayout(dt: DateTime, rest: string)
    requires StructuredWritable(dt)
    requires rest == ":" + dt.date + TimePart(dt) + UtcPart(dt) + "\r\n"
    ensures |rest| == 3 + |dt.date| + |TimePart(dt)| + |UtcPart(dt)| && |rest| <= 21
    ensures rest[0] == ':' && rest[1..1 + |dt.date|] == dt.date
    ensures forall k :: 1 <= k < 1 + |dt.date| ==> IsDigit(rest[k]) || rest[k] == '-'
    ensures dt.time != "" ==> rest[1 + |dt.date|] == 'T'
    ensures dt.time != "" ==> rest[2 + |dt.date|..2 + |dt.date| + |dt.time|] == dt.time
    ensures forall k :: 2 + |dt.date| <= k < 2 + |dt.date| + |dt.time| ==> IsDigit(rest[k])
    ensures rest[1 + |dt.date| + |TimePart(dt)|] == (if dt.UTC then 'Z' else '\r')
    ensures forall k :: 1 + |dt.date| + |TimePart(dt)| <= k < |rest| ==> rest[k] in "Z\r\n"
  {
    var a := ":" + dt.date;
    var b := a + TimePart(dt);
    var c := b + UtcPart(dt);
    assert rest == c + "\r\n";
    assert forall k :: 1 <= k < |a| ==> rest[k] == dt.date[k - 1];
    assert rest[1..|a|] == dt.date;
    if dt.time != "" {
      assert forall k :: |a| <= k < |b| ==> rest[k] == TimePart(dt)[k - |a|];
      assert rest[|a|] == 'T';
      assert rest[|a| + 1..|b|] == dt.time;
    }
  }

  /** No character of a written structured value is a letter other than `T` and
      `Z`, so neither text test fires. */
  lemma StructuredNoHint(dt: DateTime, rest: string, reading: Reading)
    requires StructuredWritable(dt)
    requires rest == ":" + dt.date + TimePart(dt) + UtcPart(dt) + "\r\n"
    ensures !ReadsAsText([], rest, reading)
  {
    StructuredLayout(dt, rest);
    var e := 1 + |dt.date| + |TimePart(dt)|;
    forall k | 1 <= k < |rest|
      ensures !TextHint(rest[k])
    {
      if k < 1 + |dt.date| {
      } else if k < e {
        assert dt.time != "";
        if k > 1 + |dt.date| {
          assert 2 + |dt.date| <= k < 2 + |dt.date| + |dt.time|;
        }
      } else {
        assert rest[k] in "Z\r\n";
      }
    }
  }

  /** A structured value written by `writeDateTime` and ended with a CRLF is
      read back by `newDate` as the same value, provided the time copy stops
      before the line end: corrected it always does; as written only when the
      time is full (6 digits), is absent, or is followed by `Z`. */
  lemma DateRoundTrip(dt: DateTime, reading: Reading)
    requires StructuredWritable(dt)
    requires reading == Corrected || dt.UTC || dt.time == "" || |dt.time| == 6
    ensures DateText(Some(dt)).Success?
    ensures DecodeWith(DateText(Some(dt)).value + "\r\n", reading) == Success(dt)
  {
    StructuredText(dt);
    var rest := ":" + dt.date + TimePart(dt) + UtcPart(dt) + "\r\n";
    NoParamsKeepsLine(rest);
    StructuredNoHint(dt, rest, reading);
    WrittenShape(dt, rest, reading);
  }

  /** The date and time copies recover the written date, time and UTC flag. */
  lemma WrittenShape(dt: DateTime, rest: string, reading: Reading)
    requires StructuredWritable(dt)
    requires reading == Corrected || dt.UTC || dt.time == "" || |dt.time| == 6
    requires rest == ":" + dt.date + TimePart(dt) + UtcPart(dt) + "\r\n"
    ensures StructuredShape(rest, reading) == dt
  {
    StructuredLayout(dt, rest);
    var d := 1 + |dt.date|;
    DateEndIs(rest, 1, d);
    if dt.time != "" {
      var e := d + 1 + |dt.time|;
      WrittenTime(dt, rest, reading);
      assert IsT(rest[d]) && rest[1..d] == dt.date;
      assert rest[e] == (if dt.UTC then 'Z' else '\r');
    } else {
      assert rest[d] == (if dt.UTC then 'Z' else '\r');
    }
  }

  /** The time copy after the `T` recovers the written time and stops right
      after it. */
  lemma WrittenTime(dt: DateTime, rest: string, reading: Reading)
    requires StructuredWritable(dt) && dt.time != ""
    requires reading == Corrected || dt.UTC || |dt.time| == 6
    requires rest == ":" + dt.date + TimePart(dt) + UtcPart(dt) + "\r\n"
    ensures 2 + |dt.date| + |dt.time| < |rest|
    ensures ReadTime(rest, 2 + |dt.date|, "", reading) == TimeRead(dt.time, 2 + |dt.date| + |dt.time|)
  {
    var i := 2 + |dt.date|;
    var e := i + |dt.time|;
    TimeLayout(dt, rest);
    ReadTimePlain(rest, i, "", e, reading);
    assert "" + rest[i..e] == rest[i..e];
  }

  /** The facts about a written time that its copy needs. */
  lemma TimeLayout(dt: DateTime, rest: string)
    requires StructuredWritable(dt) && dt.time != ""
    requires rest == ":" + dt.date + TimePart(dt) + UtcPart(dt) + "\r\n"
    ensures 2 + |dt.date| + |dt.time| < |rest|
    ensures rest[2 + |dt.date|..2 + |dt.date| + |dt.time|] == dt.time
    ensures forall k :: 2 + |dt.date| <= k < 2 + |dt.date| + |dt.time| ==> IsDigit(rest[k])
    ensures rest[2 + |dt.date| + |dt.time|] == (if dt.UTC then 'Z' else '\r')
  {
    StructuredLayout(dt, rest);
  }

  /** A text value without `:`, `;` or CR is written after `;Value=Text:` and read
      back as the same text; the UTC flag is not written, so it comes back
      false. */
  lemma TextRoundTrip(text: string, utc: bool, reading: Reading)
    requires Lacks(text, ':') && Lacks(text, ';') && Lacks(text, '\r')
    ensures DateText(Some(DateTime(utc, true, "", "", text))).Success?
    ensures DecodeWith(DateText(Some(DateTime(utc, true, "", "", text))).value + "\r\n", reading)
            == Success(DateTime(false, true, "", "", text))
  {
    var rest := ":" + text + "\r\n";
    var line := ";Value=Text" + rest;
    assert DateText(Some(DateTime(utc, true, "", "", text))).value + "\r\n" == line;
    TextParams(text, line, rest);
    TextValueRequested();
    TextEndIs(rest, 1 + |text|);
    assert rest[1..1 + |text|] == text;
  }

  /** The written `;Value=Text` parameter is read back and asks for text. */
  lemma TextParams(text: string, line: string, rest: string)
    requires rest == ":" + text + "\r\n" && line == ";Value=Text" + rest
    ensures ParamsAt(line, 0) == Success(ParamSplit([Parameter("Value", "Text")], rest))
  {
    var p := Parameter("Value", "Text");
    assert ParamText([p]) == ";Value=Text" by {
      assert ParamText([p]) == ParamEntry(p) + ParamText([]);
    }
    assert line[0..] == ParamText([p]) + rest;
    ParamsAtText(line, 0, [p], rest);
  }

  /** `Text` is `text` ignoring case. */
  lemma TextValueRequested()
    ensures TextRequested([Parameter("Value", "Text")])
  {
    assert Lower("Text") == Lower("text");
  }

  /** The text copy from 1 stops at `j` when nothing before it stops it and
      `j` does. */
  lemma TextEndIs(s: string, j: nat)
    requires 1 <= j <= |s|
    requires forall k :: 1 <= k < j ==> !IsTextStop(s[k])
    requires j < |s| ==> IsTextStop(s[j])
    ensures TextEnd(s, 1) == j
  {
  }
}
