// The JSON forms of a date-time (`dtToJSON`, `JSONtoDT`) and the one-property
// card reader `JSONtoCard` of VCardParser.c.  A date-time is written with all
// five keys in a fixed order; the reader does not look at the key names, only
// at the `:`, `,`, `"` and `}` between them, and it keeps at most 8 characters
// of date (refusing a longer one) and at most 6 of time (dropping the rest).

module JsonDates {
  import opened VCardTypes
  import opened Text
  import opened ContentLines
  import opened JsonScan
  import CardEngine

  // The keys, each with the punctuation the reader steps over.
  const IsTextKey := "{\"isText\""
  const DateKey := ",\"date\""
  const TimeKey := "\",\"time\""
  const TextKey := "\",\"text\""
  const UtcKey := "\",\"isUTC\""
  const ValueOpen := ":\""

  // The pieces `dtToJSON` appends, in the source's order.
  const FlagOpen := IsTextKey + ":"
  const TextFields := "true" + DateKey + ValueOpen + TimeKey + ValueOpen + TextKey + ValueOpen
  const TextClose := UtcKey + ":" + "false" + "}"
  const StructDate := "false" + DateKey + ValueOpen
  const StructTime := TimeKey + ValueOpen
  const StructText := TextKey + ValueOpen + UtcKey + ":"

  function FlagName(b: bool): string
  {
    if b then "true" else "false"
  }

  /** The word written for the UTC flag, with the closing brace. */
  function FlagWord(b: bool): string
  {
    if b then "true}" else "false}"
  }

  /** What `dtToJSON` produces: a text value carries only its text (date and
      time empty, UTC false); a structured value carries date, time and UTC and
      an empty text. */
  function DtJSON(dt: DateTime): string
  {
    if dt.isText then FlagOpen + TextFields + dt.text + TextClose
    else FlagOpen + StructDate + dt.date + StructTime + dt.time + StructText + FlagWord(dt.UTC)
  }

  /** `dtToJSON`: "" for NULL; otherwise the pieces appended one after another. */
  method DtToJSON(dt: Option<DateTime>) returns (json: string)
    ensures dt.None? ==> json == ""
    ensures dt.Some? ==> json == DtJSON(dt.value)
  {
    if dt.None? {
      return "";
    }
    var d := dt.value;
    json := FlagOpen;
    if d.isText {
      json := json + TextFields;
      json := json + d.text;
      json := json + TextClose;
    } else {
      json := json + StructDate;
      json := json + d.date;
      json := json + StructTime;
      json := json + d.time;
      json := json + StructText;
      if d.UTC {
        json := json + "true}";
      } else {
        json := json + "false}";
      }
    }
  }

  // ---------------------------------------------------------------------------
  // Reading a date-time

  /** The `isText` word, compared ignoring case. */
  function TextFlag(w: string): (r: Outcome<bool>)
    ensures r == Parsed(true) <==> SameIgnoringCase(w, "true")
    ensures r == Parsed(false) <==> !SameIgnoringCase(w, "true") && SameIgnoringCase(w, "false")
    ensures !r.PastEnd?
  {
    if StrcmpIC(w, "true") == 0 then Parsed(true)
    else if StrcmpIC(w, "false") == 0 then Parsed(false)
    else Rejected
  }

  /** The `isUTC` word: `true` in any case, but `false` only in lower case. */
  function UtcFlag(w: string): (r: Outcome<bool>)
    ensures r == Parsed(true) <==> SameIgnoringCase(w, "true")
    ensures r == Parsed(false) <==> !SameIgnoringCase(w, "true") && w == "false"
    ensures !r.PastEnd?
  {
    if StrcmpIC(w, "true") == 0 then Parsed(true)
    else
      StrcmpZeroIffEqual(w, "false");
      if Strcmp(w, "false") == 0 then Parsed(false) else Rejected
  }

  /** The two flags disagree on case: `FALSE` is a text flag but not a UTC flag,
      while `TRUE` is both. */
  lemma FlagCaseAsymmetry()
    ensures TextFlag("FALSE") == Parsed(false) && UtcFlag("FALSE") == Rejected
    ensures TextFlag("TRUE") == Parsed(true) && UtcFlag("TRUE") == Parsed(true)
  {
    assert Lower("FALSE")[0] == 'f' && Lower("FALSE")[4] == 'e';
    assert Lower("FALSE") == "false";
    assert Lower("TRUE")[1] == 'r' && Lower("TRUE") == "true";
  }

  /** `JSONtoDT`: the steps below, one after another, each starting where the
      previous one stopped. */
  function DtFromJSON(s: string): (r: Outcome<DateTime>)
    ensures r.Parsed? ==> |r.value.date| <= 8 && |r.value.time| <= 6
  {
    var flag :- FlagStep(s);
    var date :- DateStep(s, flag.1);
    var time :- TimeStep(s, date.1);
    var text :- TextStep(s, time.1);
    var utc :- UtcStep(s, text.1);
    Parsed(DateTime(utc, flag.0, date.0, time.0, text.0))
  }

  /** Up to the first `:`, which must leave at least three more characters;
      then the `isText` word up to a `,`.  Yields the flag and where it ends. */
  function FlagStep(s: string): (r: Outcome<(bool, nat)>)
    ensures r.Parsed? ==> r.value.1 <= |s|
  {
    var colon :- Seek(s, 0, ":", |s| - 1, {}, false);
    if colon > |s| - 4 then Rejected
    else
      var flagEnd :- Seek(s, colon + 1, ",", -1, {|s| - 1, |s| - 2}, true);
      var isText :- TextFlag(s[colon + 1..flagEnd]);
      Parsed((isText, flagEnd))
  }

  /** The date: from two past the next `:`, at most 8 characters up to a `"`;
      a date that does not end at a `"` within 8 characters is refused. */
  function DateStep(s: string, from: nat): (r: Outcome<(string, nat)>)
    ensures r.Parsed? ==> |r.value.0| <= 8 && r.value.1 <= |s|
  {
    var dateColon :- Seek(s, from, ":", -1, {|s| - 3}, true);
    var dateStart := dateColon + 2;
    var dateEnd :- Seek(s, dateStart, "\"", dateStart + 8, {|s| - 1, |s| - 2}, true);
    SeekWithin(s, dateStart, "\"", dateStart + 8, {|s| - 1, |s| - 2}, true);
    if At(s, dateEnd) != '"' then Rejected
    else Parsed((s[dateStart..dateEnd], dateEnd))
  }

  /** The time: from two past the next `:`, at most 6 characters up to a `"`;
      a longer time is cut at 6 characters without complaint. */
  function TimeStep(s: string, from: nat): (r: Outcome<(string, nat)>)
    ensures r.Parsed? ==> |r.value.0| <= 6 && r.value.1 <= |s|
  {
    var timeColon :- Seek(s, from, ":", -1, {|s| - 1, |s| - 2}, true);
    var timeStart := timeColon + 2;
    var timeEnd :- Seek(s, timeStart, "\"", timeStart + 6, {|s| - 2}, true);
    SeekWithin(s, timeStart, "\"", timeStart + 6, {|s| - 2}, true);
    Parsed((s[timeStart..timeEnd], timeEnd))
  }

  /** The text, from two past the next `:` up to a `"`. */
  function TextStep(s: string, from: nat): (r: Outcome<(string, nat)>)
    ensures r.Parsed? ==> r.value.1 <= |s|
  {
    var textColon :- Seek(s, from, ":", -1, {|s| - 4}, true);
    var textStart := textColon + 2;
    var textEnd :- Seek(s, textStart, "\"", -1, {|s| - 3}, true);
    Parsed((s[textStart..textEnd], textEnd))
  }

  /** The UTC word: after the next `:`, up to a `}` or the last character. */
  function UtcStep(s: string, from: nat): (r: Outcome<bool>)
  {
    var utcColon :- Seek(s, from, ":", -1, {|s| - 2}, true);
    var utcEnd :- Seek(s, utcColon + 1, "}", |s| - 1, {}, false);
    UtcFlag(s[utcColon + 1..utcEnd])
  }

  /** `JSONtoDT`, walking the string as the source does. */
  method JSONtoDT(str: string) returns (r: Outcome<DateTime>)
    ensures r == DtFromJSON(str)
  {
    var flag := FlagFrom(str);
    if !flag.Parsed? {
      return flag.PropagateFailure();
    }
    var date := DateFrom(str, flag.value.1);
    if !date.Parsed? {
      return date.PropagateFailure();
    }
    var time := TimeFrom(str, date.value.1);
    if !time.Parsed? {
      return time.PropagateFailure();
    }
    var text := TextFrom(str, time.value.1);
    if !text.Parsed? {
      return text.PropagateFailure();
    }
    var utc := UtcFrom(str, text.value.1);
    if !utc.Parsed? {
      return utc.PropagateFailure();
    }
    return Parsed(DateTime(utc.value, flag.value.0, date.value.0, time.value.0, text.value.0));
  }

  /** The `isText` steps of `JSONtoDT`. */
  method FlagFrom(str: string) returns (r: Outcome<(bool, nat)>)
    ensures r == FlagStep(str)
  {
    var colon, skipped := CopyUntil(str, 0, ":", |str| - 1, {}, false);
    if !colon.Parsed? {
      return colon.PropagateFailure();
    }
    if colon.value > |str| - 4 {
      return Rejected;
    }
    var flagEnd, booleanCheck := CopyUntil(str, colon.value + 1, ",", -1, {|str| - 1, |str| - 2}, true);
    if !flagEnd.Parsed? {
      return flagEnd.PropagateFailure();
    }
    var isText := TextFlag(booleanCheck);
    if !isText.Parsed? {
      return isText.PropagateFailure();
    }
    return Parsed((isText.value, flagEnd.value));
  }

  /** The date steps of `JSONtoDT`. */
  method DateFrom(str: string, from: nat) returns (r: Outcome<(string, nat)>)
    ensures r == DateStep(str, from)
  {
    var dateColon, skipped := CopyUntil(str, from, ":", -1, {|str| - 3}, true);
    if !dateColon.Parsed? {
      return dateColon.PropagateFailure();
    }
    var sourceIndex := dateColon.value + 2;
    var dateEnd, date := CopyUntil(str, sourceIndex, "\"", sourceIndex + 8, {|str| - 1, |str| - 2}, true);
    if !dateEnd.Parsed? {
      return dateEnd.PropagateFailure();
    }
    if At(str, dateEnd.value) != '"' {
      return Rejected;
    }
    return Parsed((date, dateEnd.value));
  }

  /** The time steps of `JSONtoDT`. */
  method TimeFrom(str: string, from: nat) returns (r: Outcome<(string, nat)>)
    ensures r == TimeStep(str, from)
  {
    var timeColon, skipped := CopyUntil(str, from, ":", -1, {|str| - 1, |str| - 2}, true);
    if !timeColon.Parsed? {
      return timeColon.PropagateFailure();
    }
    var sourceIndex := timeColon.value + 2;
    var timeEnd, time := CopyUntil(str, sourceIndex, "\"", sourceIndex + 6, {|str| - 2}, true);
    if !timeEnd.Parsed? {
      return timeEnd.PropagateFailure();
    }
    return Parsed((time, timeEnd.value));
  }

  /** The text steps of `JSONtoDT`. */
  method TextFrom(str: string, from: nat) returns (r: Outcome<(string, nat)>)
    ensures r == TextStep(str, from)
  {
    var textColon, skipped := CopyUntil(str, from, ":", -1, {|str| - 4}, true);
    if !textColon.Parsed? {
      return textColon.PropagateFailure();
    }
    var textEnd, text := CopyUntil(str, textColon.value + 2, "\"", -1, {|str| - 3}, true);
    if !textEnd.Parsed? {
      return textEnd.PropagateFailure();
    }
    return Parsed((text, textEnd.value));
  }

  /** The UTC steps of `JSONtoDT`. */
  method UtcFrom(str: string, from: nat) returns (r: Outcome<bool>)
    ensures r == UtcStep(str, from)
  {
    var utcColon, skipped := CopyUntil(str, from, ":", -1, {|str| - 2}, true);
    if !utcColon.Parsed? {
      return utcColon.PropagateFailure();
    }
    var utcEnd, booleanCheck := CopyUntil(str, utcColon.value + 1, "}", |str| - 1, {}, false);
    if !utcEnd.Parsed? {
      return utcEnd.PropagateFailure();
    }
    r := UtcFlag(booleanCheck);
  }

  // ---------------------------------------------------------------------------
  // What the reader gives back

  // ---------------------------------------------------------------------------
  // What the reader gives back

  predicate QuoteFree(x: string)
  {
    forall k :: 0 <= k < |x| ==> x[k] != '"'
  }

  /** What reading back a written date-time yields: a text value keeps only
      its text; a structured value loses its (unwritten) text. */
  function Normalised(dt: DateTime): DateTime
  {
    if dt.isText then DateTime(false, true, "", "", dt.text)
    else dt.(text := "")
  }

  // Each reading step, once the positions its scans stop at are known.

  lemma FlagStepIs(s: string, c: nat, c1: nat, f: nat, isText: bool)
    requires Seek(s, 0, ":", |s| - 1, {}, false) == Parsed(c) && c <= |s| - 4
    requires c1 == c + 1 && c1 <= f && Seek(s, c1, ",", -1, {|s| - 1, |s| - 2}, true) == Parsed(f)
    requires TextFlag(s[c1..f]) == Parsed(isText)
    ensures FlagStep(s) == Parsed((isText, f))
  {
  }

  lemma DateStepIs(s: string, from: nat, c: nat, c2: nat, e: nat)
    requires Seek(s, from, ":", -1, {|s| - 3}, true) == Parsed(c)
    requires c2 == c + 2 && c2 <= e && Seek(s, c2, "\"", c2 + 8, {|s| - 1, |s| - 2}, true) == Parsed(e)
    ensures At(s, e) == '"' ==> DateStep(s, from) == Parsed((s[c2..e], e))
    ensures At(s, e) != '"' ==> DateStep(s, from) == Rejected
  {
  }

  lemma TimeStepIs(s: string, from: nat, c: nat, c2: nat, e: nat)
    requires Seek(s, from, ":", -1, {|s| - 1, |s| - 2}, true) == Parsed(c)
    requires c2 == c + 2 && c2 <= e && Seek(s, c2, "\"", c2 + 6, {|s| - 2}, true) == Parsed(e)
    ensures TimeStep(s, from) == Parsed((s[c2..e], e))
  {
  }

  lemma TextStepIs(s: string, from: nat, c: nat, c2: nat, e: nat)
    requires Seek(s, from, ":", -1, {|s| - 4}, true) == Parsed(c)
    requires c2 == c + 2 && c2 <= e && Seek(s, c2, "\"", -1, {|s| - 3}, true) == Parsed(e)
    ensures TextStep(s, from) == Parsed((s[c2..e], e))
  {
  }

  lemma UtcStepIs(s: string, from: nat, u: nat, u1: nat, w: nat)
    requires Seek(s, from, ":", -1, {|s| - 2}, true) == Parsed(u)
    requires u1 == u + 1 && u1 <= w && Seek(s, u1, "}", |s| - 1, {}, false) == Parsed(w)
    ensures UtcStep(s, from) == UtcFlag(s[u1..w])
  {
  }

  // Where the pieces of a written date-time sit.

  lemma TextLayout(dt: DateTime, s: string, x: nat)
    requires dt.isText && s == DtJSON(dt) && x == 43 + |dt.text|
    ensures Holds(s, 0, IsTextKey) && Holds(s, 9, ":") && Holds(s, 10, TextFields) && Holds(s, 43, dt.text)
    ensures Holds(s, x, UtcKey) && Holds(s, x + 9, ":") && Holds(s, x + 10, "false") && Holds(s, x + 15, "}")
    ensures |s| == x + 16
  {
    HoldsWhole(s);
    HoldsSplitAt(s, 0, FlagOpen + TextFields + dt.text, TextClose, x);
    HoldsSplitAt(s, 0, FlagOpen + TextFields, dt.text, 43);
    HoldsSplitAt(s, 0, FlagOpen, TextFields, 10);
    HoldsSplitAt(s, 0, IsTextKey, ":", 9);
    HoldsSplitAt(s, x, UtcKey + ":" + "false", "}", x + 15);
    HoldsSplitAt(s, x, UtcKey + ":", "false", x + 10);
    HoldsSplitAt(s, x, UtcKey, ":", x + 9);
  }

  lemma TextFieldsAt(s: string)
    requires Holds(s, 10, TextFields)
    ensures Holds(s, 10, "true") && Holds(s, 14, DateKey) && Holds(s, 21, ValueOpen) && Holds(s, 23, TimeKey)
    ensures Holds(s, 31, ValueOpen) && Holds(s, 33, TextKey) && Holds(s, 41, ValueOpen)
  {
    var a1 := "true" + DateKey;
    var a2 := a1 + ValueOpen;
    var a3 := a2 + TimeKey;
    var a4 := a3 + ValueOpen;
    var a5 := a4 + TextKey;
    HoldsSplitAt(s, 10, a5, ValueOpen, 41);
    HoldsSplitAt(s, 10, a4, TextKey, 33);
    HoldsSplitAt(s, 10, a3, ValueOpen, 31);
    HoldsSplitAt(s, 10, a2, TimeKey, 23);
    HoldsSplitAt(s, 10, a1, ValueOpen, 21);
    HoldsSplitAt(s, 10, "true", DateKey, 14);
  }

  lemma StructLayout(dt: DateTime, s: string, d: nat, e: nat)
    requires !dt.isText && s == DtJSON(dt) && d == 24 + |dt.date| && e == d + 10 + |dt.time|
    ensures Holds(s, 0, IsTextKey) && Holds(s, 9, ":") && Holds(s, 10, StructDate) && Holds(s, 24, dt.date)
    ensures Holds(s, d, StructTime) && Holds(s, d + 10, dt.time) && Holds(s, e, StructText)
    ensures Holds(s, e + 20, FlagWord(dt.UTC)) && |s| == e + 20 + |FlagWord(dt.UTC)|
  {
    var p3 := FlagOpen + StructDate + dt.date + StructTime;
    var p4 := p3 + dt.time;
    var p5 := p4 + StructText;
    HoldsWhole(s);
    HoldsSplitAt(s, 0, p5, FlagWord(dt.UTC), e + 20);
    HoldsSplitAt(s, 0, p4, StructText, e);
    HoldsSplitAt(s, 0, p3, dt.time, d + 10);
    StructHeadLayout(s, dt.date, d);
  }

  lemma StructHeadLayout(s: string, date: string, d: nat)
    requires Holds(s, 0, FlagOpen + StructDate + date + StructTime) && d == 24 + |date|
    ensures Holds(s, 0, IsTextKey) && Holds(s, 9, ":") && Holds(s, 10, StructDate) && Holds(s, 24, date)
    ensures Holds(s, d, StructTime)
  {
    var p1 := FlagOpen + StructDate;
    HoldsSplitAt(s, 0, p1 + date, StructTime, d);
    HoldsSplitAt(s, 0, p1, date, 24);
    HoldsSplitAt(s, 0, FlagOpen, StructDate, 10);
    HoldsSplitAt(s, 0, IsTextKey, ":", 9);
  }

  lemma StructDateAt(s: string)
    requires Holds(s, 10, StructDate)
    ensures Holds(s, 10, "false") && Holds(s, 15, DateKey) && Holds(s, 22, ValueOpen)
  {
    HoldsSplitAt(s, 10, "false" + DateKey, ValueOpen, 22);
    HoldsSplitAt(s, 10, "false", DateKey, 15);
  }

  lemma StructTimeAt(s: string, d: nat)
    requires Holds(s, d, StructTime)
    ensures Holds(s, d, TimeKey) && Holds(s, d + 8, ValueOpen)
  {
    HoldsSplitAt(s, d, TimeKey, ValueOpen, d + 8);
  }

  lemma StructTextAt(s: string, e: nat)
    requires Holds(s, e, StructText)
    ensures Holds(s, e, TextKey) && Holds(s, e + 8, ValueOpen) && Holds(s, e + 10, UtcKey) && Holds(s, e + 19, ":")
  {
    HoldsSplitAt(s, e, TextKey + ValueOpen + UtcKey, ":", e + 19);
    HoldsSplitAt(s, e, TextKey + ValueOpen, UtcKey, e + 10);
    HoldsSplitAt(s, e, TextKey, ValueOpen, e + 8);
  }

  lemma FlagWordAt(s: string, p: nat, b: bool)
    requires Holds(s, p, FlagWord(b))
    ensures Holds(s, p, FlagName(b)) && Holds(s, p + |FlagName(b)|, "}") && |FlagWord(b)| == |FlagName(b)| + 1
  {
    assert FlagWord(b) == FlagName(b) + "}";
    HoldsSplitAt(s, p, FlagName(b), "}", p + |FlagName(b)|);
  }

  // Reading the pieces back.

  /** The first `:` and the `isText` word. */
  lemma FlagRead(s: string, isText: bool, to: nat)
    requires Holds(s, 0, IsTextKey) && Holds(s, 9, ":") && Holds(s, 10, FlagName(isText))
    requires to == 10 + |FlagName(isText)| && Holds(s, to, DateKey) && |s| >= 40
    ensures FlagStep(s) == Parsed((isText, to))
  {
    HoldsAt(s, 9, ":", 0, 9);
    SeekTo(s, 0, IsTextKey, ":", |s| - 1, {}, false, 9);
    HoldsAt(s, to, DateKey, 0, to);
    SeekTo(s, 10, FlagName(isText), ",", -1, {|s| - 1, |s| - 2}, true, to);
    assert s[10..to] == FlagName(isText);
    assert Lower("false")[0] == 'f' && Lower("true")[0] == 't';
    assert TextFlag(FlagName(isText)) == Parsed(isText);
    FlagStepIs(s, 9, 10, to, isText);
  }

  /** The `:` before the date. */
  lemma DateColon(s: string, from: nat, v: nat, ds: nat)
    requires Holds(s, from, DateKey) && v == from + 7 && Holds(s, v, ValueOpen) && ds == v + 2 && |s| >= ds + 3
    ensures Seek(s, from, ":", -1, {|s| - 3}, true) == Parsed(v)
  {
    HoldsAt(s, v, ValueOpen, 0, v);
    SeekTo(s, from, DateKey, ":", -1, {|s| - 3}, true, v);
  }

  /** A quote-free date of at most 8 characters is copied whole. */
  lemma DateRead(s: string, from: nat, v: nat, ds: nat, date: string, to: nat)
    requires Holds(s, from, DateKey) && v == from + 7 && Holds(s, v, ValueOpen)
    requires ds == v + 2 && Holds(s, ds, date) && to == ds + |date| && Holds(s, to, TimeKey)
    requires |s| >= to + 20 && |date| <= 8 && QuoteFree(date)
    ensures DateStep(s, from) == Parsed((date, to))
  {
    DateColon(s, from, v, ds);
    HoldsAt(s, to, TimeKey, 0, to);
    SeekTo(s, ds, date, "\"", ds + 8, {|s| - 1, |s| - 2}, true, to);
    assert s[ds..to] == date;
    DateStepIs(s, from, v, ds, to);
  }

  /** A quote-free time of at most 6 characters is copied whole. */
  lemma TimeRead(s: string, from: nat, v: nat, ts: nat, time: string, to: nat)
    requires Holds(s, from, TimeKey) && v == from + 8 && Holds(s, v, ValueOpen)
    requires ts == v + 2 && Holds(s, ts, time) && to == ts + |time| && Holds(s, to, TextKey)
    requires |s| >= to + 20 && |time| <= 6 && QuoteFree(time)
    ensures TimeStep(s, from) == Parsed((time, to))
  {
    HoldsAt(s, v, ValueOpen, 0, v);
    SeekTo(s, from, TimeKey, ":", -1, {|s| - 1, |s| - 2}, true, v);
    HoldsAt(s, to, TextKey, 0, to);
    SeekTo(s, ts, time, "\"", ts + 6, {|s| - 2}, true, to);
    assert s[ts..to] == time;
    TimeStepIs(s, from, v, ts, to);
  }

  /** A quote-free time longer than 6 characters is cut to its first 6, and the
      scan stops in the middle of it. */
  lemma TimeCut(s: string, from: nat, v: nat, ts: nat, time: string)
    requires Holds(s, from, TimeKey) && v == from + 8 && Holds(s, v, ValueOpen)
    requires ts == v + 2 && Holds(s, ts, time) && |time| > 6 && QuoteFree(time)
    requires |s| >= ts + |time| + 20
    ensures TimeStep(s, from) == Parsed((time[..6], ts + 6))
  {
    HoldsAt(s, v, ValueOpen, 0, v);
    SeekTo(s, from, TimeKey, ":", -1, {|s| - 1, |s| - 2}, true, v);
    var kept := time[..6];
    assert time == kept + time[6..];
    HoldsSplit(s, ts, kept, time[6..]);
    SeekOver(s, ts, kept, "\"", ts + 6, {|s| - 2}, true);
    assert s[ts..ts + 6] == kept;
    TimeStepIs(s, from, v, ts, ts + 6);
  }

  /** The `:` before the text, and a quote-free text. */
  lemma TextRead(s: string, from: nat, v: nat, xs: nat, text: string, e: nat)
    requires Holds(s, from, TextKey) && v == from + 8 && Holds(s, v, ValueOpen)
    requires xs == v + 2 && Holds(s, xs, text) && e == xs + |text| && QuoteFree(text)
    requires Holds(s, e, UtcKey) && |s| >= e + 15
    ensures TextStep(s, from) == Parsed((text, e))
  {
    HoldsAt(s, v, ValueOpen, 0, v);
    SeekTo(s, from, TextKey, ":", -1, {|s| - 4}, true, v);
    HoldsAt(s, e, UtcKey, 0, e);
    SeekTo(s, xs, text, "\"", -1, {|s| - 3}, true, e);
    assert s[xs..e] == text;
    TextStepIs(s, from, v, xs, e);
  }

  /** After the text: the `:` before the UTC word, and the word up to `}`. */
  lemma UtcRead(s: string, e: nat, u: nat, ws: nat, utc: bool, w: nat)
    requires Holds(s, e, UtcKey) && u == e + 9 && Holds(s, u, ":")
    requires ws == u + 1 && Holds(s, ws, FlagName(utc)) && w == ws + |FlagName(utc)| && Holds(s, w, "}") && |s| == w + 1
    ensures UtcStep(s, e) == Parsed(utc)
  {
    HoldsAt(s, u, ":", 0, u);
    SeekTo(s, e, UtcKey, ":", -1, {|s| - 2}, true, u);
    HoldsAt(s, w, "}", 0, w);
    SeekTo(s, ws, FlagName(utc), "}", |s| - 1, {}, false, w);
    assert s[ws..w] == FlagName(utc);
    assert Lower("false")[0] == 'f' && Lower("true")[0] == 't';
    UtcStepIs(s, e, u, ws, w);
  }

  /** A written text value is read back as its text alone. */
  lemma TextRoundTrip(dt: DateTime)
    requires dt.isText && QuoteFree(dt.text)
    ensures DtFromJSON(DtJSON(dt)) == Parsed(Normalised(dt))
  {
    var s := DtJSON(dt);
    var x := 43 + |dt.text|;
    TextLayout(dt, s, x);
    TextFieldsAt(s);
    HoldsEmpty(s, 23);
    HoldsEmpty(s, 33);
    UtcRead(s, x, x + 9, x + 10, false, x + 15);
    TextRead(s, 33, 41, 43, dt.text, x);
    TimeRead(s, 23, 31, 33, "", 33);
    DateRead(s, 14, 21, 23, "", 23);
    FlagRead(s, true, 14);
  }

  /** The end of a written structured value: an empty text and the UTC word. */
  lemma StructTextRead(s: string, e: nat, x: nat, utc: bool)
    requires x == e + 10 && Holds(s, e, StructText) && Holds(s, e + 20, FlagWord(utc)) && |s| == e + 20 + |FlagWord(utc)|
    ensures TextStep(s, e) == Parsed(("", x)) && UtcStep(s, x) == Parsed(utc)
  {
    StructTextAt(s, e);
    FlagWordAt(s, e + 20, utc);
    HoldsEmpty(s, e + 10);
    UtcRead(s, e + 10, e + 19, e + 20, utc, e + 20 + |FlagName(utc)|);
    TextRead(s, e, e + 8, e + 10, "", e + 10);
  }

  /** A structured value laid out as the writer lays it out is read back. */
  lemma StructRead(s: string, date: string, time: string, utc: bool, d: nat, e: nat)
    requires Holds(s, 0, IsTextKey) && Holds(s, 9, ":") && Holds(s, 10, StructDate) && Holds(s, 24, date)
    requires d == 24 + |date| && Holds(s, d, StructTime) && e == d + 10 + |time| && Holds(s, d + 10, time)
    requires Holds(s, e, StructText) && Holds(s, e + 20, FlagWord(utc)) && |s| == e + 20 + |FlagWord(utc)|
    requires QuoteFree(date) && QuoteFree(time) && |date| <= 8 && |time| <= 6
    ensures DtFromJSON(s) == Parsed(DateTime(utc, false, date, time, ""))
  {
    StructTextRead(s, e, e + 10, utc);
    StructTextAt(s, e);
    StructDateAt(s);
    StructTimeAt(s, d);
    TimeRead(s, d, d + 8, d + 10, time, e);
    DateRead(s, 15, 22, 24, date, d);
    FlagRead(s, false, 15);
  }

  /** A written structured value is read back without its text. */
  lemma StructRoundTrip(dt: DateTime)
    requires !dt.isText && QuoteFree(dt.date) && QuoteFree(dt.time)
    requires |dt.date| <= 8 && |dt.time| <= 6
    ensures DtFromJSON(DtJSON(dt)) == Parsed(Normalised(dt))
  {
    var s := DtJSON(dt);
    var d := 24 + |dt.date|;
    var e := d + 10 + |dt.time|;
    StructLayout(dt, s, d, e);
    StructRead(s, dt.date, dt.time, dt.UTC, d, e);
  }

  /** A written date-time is read back in its normalised form, provided no field
      holds a `"` (nothing is escaped), the date fits its 8 characters and the
      time its 6. */
  lemma DtRoundTrip(dt: DateTime)
    requires QuoteFree(dt.text) && QuoteFree(dt.date) && QuoteFree(dt.time)
    requires |dt.date| <= 8 && |dt.time| <= 6
    ensures DtFromJSON(DtJSON(dt)) == Parsed(Normalised(dt))
  {
    if dt.isText {
      TextRoundTrip(dt);
    } else {
      StructRoundTrip(dt);
    }
  }

  /** A date longer than 8 characters stops the reader at its ninth character. */
  lemma LongDateRead(s: string, date: string)
    requires Holds(s, 15, DateKey) && Holds(s, 22, ValueOpen) && Holds(s, 24, date)
    requires |date| > 8 && QuoteFree(date) && |s| >= 24 + |date| + 20
    ensures DateStep(s, 15) == Rejected
  {
    DateColon(s, 15, 22, 24);
    assert date[..8] + date[8..] == date;
    HoldsSplitAt(s, 24, date[..8], date[8..], 32);
    HoldsAt(s, 32, date[8..], 0, 32);
    SeekOver(s, 24, date[..8], "\"", 24 + 8, {|s| - 1, |s| - 2}, true);
    assert 24 + |date[..8]| == 32;
    DateStepIs(s, 15, 22, 24, 32);
  }

  /** A structured date longer than 8 characters is refused. */
  lemma LongDateRejected(dt: DateTime)
    requires !dt.isText && |dt.date| > 8 && QuoteFree(dt.date)
    ensures DtFromJSON(DtJSON(dt)) == Rejected
  {
    var s := DtJSON(dt);
    var d := 24 + |dt.date|;
    var e := d + 10 + |dt.time|;
    StructLayout(dt, s, d, e);
    StructDateAt(s);
    FlagRead(s, false, 15);
    LongDateRead(s, dt.date);
  }

  // ---------------------------------------------------------------------------
  // Reading a card

  /** `JSONtoCard`: the text between the first two `"` is the name, the text
      from three characters later up to the next `"` the value; the result is a
      card whose FN property has that name and the one value. */
  function CardFromJSON(s: string): (r: Outcome<CardEngine.CardValue>)
    ensures r.Parsed? ==> r.value.optional == [] && r.value.birthday.None? && r.value.anniversary.None?
    ensures r.Parsed? ==> r.value.fn.Some? && r.value.fn.value.group == "" && |r.value.fn.value.values| == 1
  {
    var open :- Seek(s, 0, "\"", -1, {|s| - 2}, true);
    var nameEnd :- Seek(s, open + 1, "\"", -1, {|s| - 1}, true);
    var valueEnd :- Seek(s, nameEnd + 3, "\"", -1, {|s| - 1}, true);
    Parsed(CardEngine.CardValue(Some(Property(s[open + 1..nameEnd], "", [], [s[nameEnd + 3..valueEnd]])), [], None, None))
  }

  /** `JSONtoCard`, walking the string as the source does. */
  method JSONtoCard(str: string) returns (r: Outcome<CardEngine.CardValue>)
    ensures r == CardFromJSON(str)
  {
    var open, skipped := CopyUntil(str, 0, "\"", -1, {|str| - 2}, true);
    if !open.Parsed? {
      return open.PropagateFailure();
    }
    var nameEnd, name := CopyUntil(str, open.value + 1, "\"", -1, {|str| - 1}, true);
    if !nameEnd.Parsed? {
      return nameEnd.PropagateFailure();
    }
    var valueEnd, value := CopyUntil(str, nameEnd.value + 3, "\"", -1, {|str| - 1}, true);
    if !valueEnd.Parsed? {
      return valueEnd.PropagateFailure();
    }
    var fn := Property(name, "", [], [value]);
    return Parsed(CardEngine.CardValue(Some(fn), [], None, None));
  }

  const CardOpen := "{\""
  const CardColon := "\":\""
  const CardClose := "\"}"

  /** The object the card reader expects: one key and one string value. */
  function CardJSON(name: string, value: string): string
  {
    CardOpen + name + CardColon + value + CardClose
  }

  lemma CardIs(s: string, a: nat, a1: nat, b: nat, b3: nat, c: nat)
    requires Seek(s, 0, "\"", -1, {|s| - 2}, true) == Parsed(a)
    requires a1 == a + 1 && a1 <= b && Seek(s, a1, "\"", -1, {|s| - 1}, true) == Parsed(b)
    requires b3 == b + 3 && b3 <= c && Seek(s, b3, "\"", -1, {|s| - 1}, true) == Parsed(c)
    ensures CardFromJSON(s) == Parsed(CardEngine.CardValue(Some(Property(s[a1..b], "", [], [s[b3..c]])), [], None, None))
  {
  }

  lemma CardLayout(name: string, value: string, s: string, n: nat, m: nat)
    requires s == CardJSON(name, value) && n == 2 + |name| && m == n + 3 + |value|
    ensures Holds(s, 0, CardOpen) && Holds(s, 2, name) && Holds(s, n, CardColon)
    ensures Holds(s, n + 3, value) && Holds(s, m, CardClose) && |s| == m + 2
  {
    var p1 := CardOpen + name;
    var p2 := p1 + CardColon;
    var p3 := p2 + value;
    HoldsWhole(s);
    HoldsSplitAt(s, 0, p3, CardClose, m);
    HoldsSplitAt(s, 0, p2, value, n + 3);
    HoldsSplitAt(s, 0, p1, CardColon, n);
    HoldsSplitAt(s, 0, CardOpen, name, 2);
  }

  /** A one-key object is read as a card whose FN has the key as its name and
      the string as its value, whatever the key is. */
  lemma CardRoundTrip(name: string, value: string)
    requires QuoteFree(name) && QuoteFree(value)
    ensures CardFromJSON(CardJSON(name, value)) == Parsed(CardEngine.CardValue(Some(Property(name, "", [], [value])), [], None, None))
  {
    var s := CardJSON(name, value);
    var n := 2 + |name|;
    var m := n + 3 + |value|;
    CardLayout(name, value, s, n, m);
    HoldsAt(s, 0, CardOpen, 1, 1);
    HoldsAt(s, 0, CardOpen, 0, 0);
    SeekHere(s, 1, "\"", -1, {|s| - 2}, true);
    HoldsAt(s, n, CardColon, 0, n);
    SeekTo(s, 2, name, "\"", -1, {|s| - 1}, true, n);
    HoldsAt(s, m, CardClose, 0, m);
    SeekTo(s, n + 3, value, "\"", -1, {|s| - 1}, true, m);
    assert s[2..n] == name;
    assert s[n + 3..m] == value;
    CardIs(s, 1, 2, n, n + 3, m);
  }
}
