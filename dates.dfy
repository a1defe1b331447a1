/** `newDate`: the BDAY/ANNIVERSARY value decoder. After the parameters, a value
    either becomes free text or is split into a date part, a time part after `T`
    and a UTC flag for a final `Z` (the date-and-or-time forms of section 4.3 of
    RFC 6350). */
module DateHelper {
  import opened VCardTypes
  import opened Text
  import opened Tokenizer

  // Corrected, the text test looks at every character and the time copy stops
  // at CR; the card reader uses `AsWritten`.

  predicate IsZ(c: char) { c == 'z' || c == 'Z' }

  predicate IsT(c: char) { c == 't' || c == 'T' }

  /** Where the text copy stops (besides the end of the line). */
  predicate IsTextStop(c: char) { c == ':' || c == ';' || c == '\r' }

  /** Where the date copy stops (besides the end of the line). */
  predicate IsDateStop(c: char) { IsT(c) || IsZ(c) || c == '\r' }

  /** Where the time copy stops (besides the end of the line and a full time). */
  predicate IsTimeStop(c: char, reading: Reading)
  {
    IsZ(c) || (reading == Corrected && c == '\r')
  }

  /** The end of the text copy started at `i`. */
  function TextEnd(s: string, i: nat): (j: nat)
    requires i <= |s|
    ensures i <= j <= |s|
    ensures forall k :: i <= k < j ==> !IsTextStop(s[k])
    ensures j < |s| ==> IsTextStop(s[j])
    decreases |s| - i
  {
    if i == |s| || IsTextStop(s[i]) then i else TextEnd(s, i + 1)
  }

  /** The end of the date copy started at `i`. */
  function DateEnd(s: string, i: nat): (j: nat)
    requires i <= |s|
    ensures i <= j <= |s|
    ensures forall k :: i <= k < j ==> !IsDateStop(s[k])
    ensures j < |s| ==> IsDateStop(s[j])
    decreases |s| - i
  {
    if i == |s| || IsDateStop(s[i]) then i else DateEnd(s, i + 1)
  }

  /** A time read off a line and the index where the copy stopped. */
  datatype TimeRead = TimeRead(time: string, stop: nat)

  /** The time copy from `i` with `t` copied so far: at most 6 characters are
      written, a `-` is written twice while there is room for both, and the copy
      stops at `Z` or `z` (as written it does not stop at CR, so the line end can
      be copied). */
  function ReadTime(s: string, i: nat, t: string, reading: Reading): (r: TimeRead)
    requires i <= |s| && |t| <= 6
    ensures i <= r.stop <= |s| && |t| <= |r.time| <= 6
    ensures r.stop < |s| && |r.time| < 6 ==> IsTimeStop(s[r.stop], reading)
    decreases |s| - i
  {
    if |t| >= 6 || i == |s| || IsTimeStop(s[i], reading) then TimeRead(t, i)
    else if s[i] == '-' then
      var t1 := t + ['-'];
      ReadTime(s, i + 1, if |t1| < 6 then t1 + ['-'] else t1, reading)
    else ReadTime(s, i + 1, t + [s[i]], reading)
  }

  /** A letter that marks a text value: any letter except the `T` that starts a
      time and the `Z` that marks UTC. */
  predicate TextHint(c: char) { IsAlpha(c) && !IsT(c) && !IsZ(c) }

  /** The text test as written: only the character after the `:` is looked at. */
  predicate LooksLikeText(rest: string)
  {
    |rest| > 1 && TextHint(rest[1])
  }

  /** The text test as evidently intended: any character after the `:`. */
  predicate HasTextHint(rest: string)
  {
    exists k :: 1 <= k < |rest| && TextHint(rest[k])
  }

  /** The first parameter asks for a text value (VALUE=text). */
  predicate TextRequested(params: seq<Parameter>)
  {
    params != [] && SameIgnoringCase(params[0].value, "text")
  }

  /** Whether the value after the `:` of `rest` is read as text. */
  predicate ReadsAsText(params: seq<Parameter>, rest: string, reading: Reading)
  {
    TextRequested(params)
    || (if reading == AsWritten then LooksLikeText(rest) else HasTextHint(rest))
    || |rest| - 1 > 20
  }

  /** A text value: everything after the `:` up to `:`, `;`, CR or the end. */
  function TextShape(rest: string): (dt: DateTime)
    requires rest != []
    ensures dt.isText && !dt.UTC && dt.date == "" && dt.time == ""
    ensures forall k :: 0 <= k < |dt.text| ==> !IsTextStop(dt.text[k])
  {
    DateTime(false, true, "", "", rest[1..TextEnd(rest, 1)])
  }

  /** A structured value: the date up to `T`, `Z`, CR or the end, then after a `T`
      the time, and UTC when the copy stopped at `Z`. */
  function StructuredShape(rest: string, reading: Reading): (dt: DateTime)
    requires rest != []
    ensures !dt.isText && dt.text == "" && |dt.time| <= 6
    ensures forall k :: 0 <= k < |dt.date| ==> !IsDateStop(dt.date[k])
  {
    var d := DateEnd(rest, 1);
    if d < |rest| && IsT(rest[d]) then
      var t := ReadTime(rest, d + 1, "", reading);
      DateTime(t.stop < |rest| && IsZ(rest[t.stop]), false, rest[1..d], t.time, "")
    else DateTime(d < |rest| && IsZ(rest[d]), false, rest[1..d], "", "")
  }

  /** The final cross-check: a text value must not also carry a date and a time. */
  function CrossCheck(dt: DateTime): (r: Result<DateTime>)
    ensures r.Failure? <==> dt.isText && dt.time != "" && dt.date != ""
    ensures r.Failure? ==> r.error == InvProp
    ensures r.Success? ==> r.value == dt
  {
    if dt.isText && dt.time != "" && dt.date != "" then Failure(InvProp) else Success(dt)
  }

  /** What `newDate` makes of the line after the property name: the parameters'
      error, INV_PROP when nothing follows them, and otherwise a text or a
      structured value. The cross-check never rejects anything, since a text
      value has neither a date nor a time. */
  function DecodeWith(line: string, reading: Reading): (r: Result<DateTime>)
    ensures r.Failure? ==> r.error == InvProp
    ensures r.Failure? <==> ParamsAt(line, 0).Failure? || ParamsAt(line, 0).value.rest == []
    ensures r.Success? && r.value.isText ==> !r.value.UTC && r.value.date == "" && r.value.time == ""
    ensures r.Success? && !r.value.isText ==> r.value.text == "" && |r.value.time| <= 6
  {
    match ParamsAt(line, 0)
    case Failure(e) => Failure(e)
    case Success(split) =>
      var rest := split.rest;
      if rest == [] then Failure(InvProp)
      else if ReadsAsText(split.params, rest, reading) then CrossCheck(TextShape(rest))
      else CrossCheck(StructuredShape(rest, reading))
  }

  /** The decoder as the source behaves. */
  function DecodeDate(line: string): Result<DateTime>
  {
    DecodeWith(line, AsWritten)
  }

  // ---------------------------------------------------------------------------
  // The copy loops of newDate

  /** The text copy loop: character by character up to `:`, `;`, CR or the end. */
  method CopyText(rest: string, from: nat) returns (text: string, j: nat)
    requires from <= |rest|
    ensures j == TextEnd(rest, from) && text == rest[from..j]
  {
    text := "";
    j := from;
    while j < |rest| && rest[j] != ':' && rest[j] != ';' && rest[j] != '\r'
      invariant from <= j <= |rest|
      invariant TextEnd(rest, j) == TextEnd(rest, from)
      invariant text == rest[from..j]
    {
      text := text + [rest[j]];
      j := j + 1;
    }
  }

  /** The date copy loop: character by character up to `T`, `t`, `z`, `Z`, CR or
      the end. */
  method CopyDate(rest: string, from: nat) returns (date: string, j: nat)
    requires from <= |rest|
    ensures j == DateEnd(rest, from) && date == rest[from..j]
  {
    date := "";
    j := from;
    while j < |rest| && rest[j] != 'T' && rest[j] != 't' && rest[j] != 'z' && rest[j] != 'Z' && rest[j] != '\r'
      invariant from <= j <= |rest|
      invariant DateEnd(rest, j) == DateEnd(rest, from)
      invariant date == rest[from..j]
    {
      date := date + [rest[j]];
      j := j + 1;
    }
  }

  /** The time copy loop as written: at most 6 characters, dashes doubled while
      there is room, stopping at `z`, `Z` or the end. */
  method CopyTime(rest: string, from: nat) returns (time: string, j: nat)
    requires from <= |rest|
    ensures TimeRead(time, j) == ReadTime(rest, from, "", AsWritten)
  {
    time := "";
    var copyStringIndex := 0;
    j := from;
    while copyStringIndex < 6 && j < |rest| && rest[j] != 'Z' && rest[j] != 'z'
      invariant from <= j <= |rest|
      invariant copyStringIndex == |time| <= 6
      invariant ReadTime(rest, j, time, AsWritten) == ReadTime(rest, from, "", AsWritten)
    {
      if rest[j] == '-' {
        time := time + ['-'];
        copyStringIndex := copyStringIndex + 1;
        if copyStringIndex < 6 {
          time := time + ['-'];
          copyStringIndex := copyStringIndex + 1;
        }
        j := j + 1;
      } else {
        time := time + [rest[j]];
        copyStringIndex := copyStringIndex + 1;
        j := j + 1;
      }
    }
  }

  /** The text test loop as written: it runs once per remaining character but
      always inspects the character right after the `:`. */
  method TextTest(rest: string, requested: bool) returns (isText: bool)
    requires rest != []
    ensures isText == (requested || LooksLikeText(rest))
  {
    isText := requested;
    var contentIndex := 1;
    var textCheckLength := contentIndex;
    while textCheckLength < |rest|
      invariant 1 <= textCheckLength
      invariant isText == (requested || (textCheckLength > 1 && LooksLikeText(rest)))
      invariant |rest| > 1 ==> textCheckLength <= |rest|
    {
      if IsAlpha(rest[contentIndex]) && rest[contentIndex] != 't' && rest[contentIndex] != 'T'
         && rest[contentIndex] != 'z' && rest[contentIndex] != 'Z' {
        isText := true;
      }
      textCheckLength := textCheckLength + 1;
    }
  }

  /** The structured branch of `newDate`: the date copy, then the time copy when
      the date stopped at `T`, then the UTC test at the index where copying
      stopped. */
  method CopyStructured(rest: string) returns (dt: DateTime)
    requires rest != []
    ensures dt == StructuredShape(rest, AsWritten)
  {
    var length := |rest|;
    var dateCopy, contentIndex := CopyDate(rest, 1);
    var time := "";
    if contentIndex < length && (rest[contentIndex] == 'T' || rest[contentIndex] == 't') {
      time, contentIndex := CopyTime(rest, contentIndex + 1);
    }
    var utc := contentIndex < length && (rest[contentIndex] == 'z' || rest[contentIndex] == 'Z');
    dt := DateTime(utc, false, dateCopy, time, "");
  }

  /** `newDate`: reads the parameters, requires a `:` after them, then copies the
      value into the text, or into the date, the time and the UTC flag, and
      finally applies the cross-check. */
  method NewDate(contentLine: string) returns (status: ErrorCode, date: Option<DateTime>)
    ensures match DecodeDate(contentLine)
            case Failure(e) => status == e && date.None?
            case Success(dt) => status == Ok && date == Some(dt)
  {
    var parseStatus, params, rest := ParseParameters(contentLine);
    if parseStatus != Ok {
      return parseStatus, None;
    }
    var length := |rest|;
    // The rest is empty or starts with ':' (a ';' cannot follow the parameters).
    if length == 0 || rest[0] != ':' {
      return InvProp, None;
    }
    var requested := |params| > 0 && StrcmpIC(params[0].value, "text") == 0;
    var contentIndex := 1;
    var isText := TextTest(rest, requested);
    var dt: DateTime;
    if isText || length - contentIndex > 20 {
      var text, _ := CopyText(rest, contentIndex);
      dt := DateTime(false, true, "", "", text);
    } else {
      dt := CopyStructured(rest);
    }
    status, date := Ok, Some(dt);
    if dt.isText && dt.time != "" && dt.date != "" {
      status, date := InvProp, None;
    }
  }

  // ---------------------------------------------------------------------------
  // The two scanning defects, and the corrected reading

  /** Letters after the `:` that are not `T` or `Z` go unnoticed unless they come
      first: "1st century" is read as the date "1s" and the time " centu". */
  lemma TextTestSeesOneCharacter()
    ensures DecodeDate(":1st century\r\n") == Success(DateTime(false, false, "1s", " centu", ""))
  {
    var line := ":1st century\r\n";
    NoParamsKeepsLine(line);
    assert !ReadsAsText([], line, AsWritten);
    CenturyShape(line);
  }

  lemma CenturyShape(line: string)
    requires line == ":1st century\r\n"
    ensures StructuredShape(line, AsWritten) == DateTime(false, false, "1s", " centu", "")
  {
    DateEndIs(line, 1, 3);
    ReadTimePlain(line, 4, "", 10, AsWritten);
    assert line[1..3] == "1s";
    assert "" + line[4..10] == " centu";
  }

  /** A time shorter than 6 characters followed by the line end takes the CR and
      the LF into the time. */
  lemma TimeTakesLineEnd()
    ensures DecodeDate(":19960415T1230\r\n") == Success(DateTime(false, false, "19960415", "1230\r\n", ""))
  {
    var line := ":19960415T1230\r\n";
    NoParamsKeepsLine(line);
    assert !ReadsAsText([], line, AsWritten);
    LineEndShape(line);
  }

  lemma LineEndShape(line: string)
    requires line == ":19960415T1230\r\n"
    ensures StructuredShape(line, AsWritten) == DateTime(false, false, "19960415", "1230\r\n", "")
  {
    LineEndDate(line);
    ReadTimePlain(line, 10, "", 16, AsWritten);
    assert "" + line[10..16] == "1230\r\n";
  }

  lemma LineEndDate(line: string)
    requires line == ":19960415T1230\r\n"
    ensures DateEnd(line, 1) == 9 && line[1..9] == "19960415"
  {
    DateEndIs(line, 1, 9);
  }

  /** The date copy from `i` stops at `j` when nothing before `j` stops it and
      `j` does. */
  lemma DateEndIs(s: string, i: nat, j: nat)
    requires i <= j <= |s|
    requires forall k :: i <= k < j ==> !IsDateStop(s[k])
    requires j < |s| ==> IsDateStop(s[j])
    ensures DateEnd(s, i) == j
  {
  }

  /** Over a run without dashes and stops, the time copy takes the run as it is
      until it ends at `j` or the time is full. */
  lemma {:induction false} ReadTimePlain(s: string, i: nat, t: string, j: nat, reading: Reading)
    requires i <= j <= |s| && |t| + (j - i) <= 6
    requires forall k :: i <= k < j ==> s[k] != '-' && !IsTimeStop(s[k], reading)
    requires |t| + (j - i) < 6 ==> j == |s| || IsTimeStop(s[j], reading)
    ensures ReadTime(s, i, t, reading) == TimeRead(t + s[i..j], j)
    decreases j - i
  {
    if i == j {
      assert t + s[i..j] == t;
    } else {
      ReadTimePlain(s, i + 1, t + [s[i]], j, reading);
      assert (t + [s[i]]) + s[i + 1..j] == t + s[i..j];
    }
  }

  /** Every character the time copy takes comes from `t`, is a `-`, or is a
      character of `s` from `i` on that does not stop the copy. */
  lemma {:induction false} ReadTimeFrom(s: string, i: nat, t: string, reading: Reading, c: char)
    requires i <= |s| && |t| <= 6 && c != '-'
    requires forall k :: 0 <= k < |t| ==> t[k] != c
    requires forall k :: i <= k < |s| ==> s[k] != c || IsTimeStop(c, reading)
    ensures forall k :: 0 <= k < |ReadTime(s, i, t, reading).time| ==> ReadTime(s, i, t, reading).time[k] != c
    decreases |s| - i
  {
    if |t| >= 6 || i == |s| || IsTimeStop(s[i], reading) {
    } else if s[i] == '-' {
      var t1 := t + ['-'];
      ReadTimeFrom(s, i + 1, if |t1| < 6 then t1 + ['-'] else t1, reading, c);
    } else {
      ReadTimeFrom(s, i + 1, t + [s[i]], reading, c);
    }
  }

  /** Corrected, a structured value holds no letter other than `T` and `Z`: such
      a letter anywhere after the `:` selects a text value. */
  lemma CorrectedStructuredHasNoLetters(line: string, c: char)
    requires TextHint(c)
    requires DecodeWith(line, Corrected).Success? && !DecodeWith(line, Corrected).value.isText
    ensures forall k :: 0 <= k < |DecodeWith(line, Corrected).value.date| ==> DecodeWith(line, Corrected).value.date[k] != c
    ensures forall k :: 0 <= k < |DecodeWith(line, Corrected).value.time| ==> DecodeWith(line, Corrected).value.time[k] != c
  {
    var rest := ParamsAt(line, 0).value.rest;
    assert !HasTextHint(rest);
    assert forall k :: 1 <= k < |rest| ==> rest[k] != c;
    var d := DateEnd(rest, 1);
    if d < |rest| && IsT(rest[d]) {
      ReadTimeFrom(rest, d + 1, "", Corrected, c);
    }
  }

  /** Corrected, the time copy stops at the line end: the time holds no CR. */
  lemma CorrectedTimeStopsAtLineEnd(line: string)
    requires DecodeWith(line, Corrected).Success?
    ensures forall k :: 0 <= k < |DecodeWith(line, Corrected).value.time| ==> DecodeWith(line, Corrected).value.time[k] != '\r'
  {
    var rest := ParamsAt(line, 0).value.rest;
    if !ReadsAsText(ParamsAt(line, 0).value.params, rest, Corrected) {
      var d := DateEnd(rest, 1);
      if d < |rest| && IsT(rest[d]) {
        ReadTimeFrom(rest, d + 1, "", Corrected, '\r');
      }
    }
  }
}
