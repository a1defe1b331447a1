/** The serializer: content lines are built by appending to a line buffer
    (`paramListToString`, `propListToString`, `writeDateTime`) and written with
    a CRLF to the open file (`writeProperty`, `writeOptionalProps`). */
module Writer {
  import opened VCardTypes
  import opened Tokenizer
  import ContentLines

  /** The open output file, seen as the text written to it so far. */
  class CardFile {
    var contents: string

    constructor ()
      ensures contents == ""
    {
      contents := "";
    }
  }

  // ---------------------------------------------------------------------------
  // openFileWrite's extension test

  /** A name the extension test reads inside: it looks at the last 3 characters,
      and at the last 5 when those are not "vcf". */
  predicate ExtensionReadable(fileName: string)
  {
    |fileName| >= 3 && (fileName[|fileName| - 3..] != "vcf" ==> |fileName| >= 5)
  }

  /** The file name ends in "vcf" or in "vcard", case-sensitively; no dot is
      needed. */
  predicate HasCardExtension(fileName: string)
    requires ExtensionReadable(fileName)
  {
    fileName[|fileName| - 3..] == "vcf" || fileName[|fileName| - 5..] == "vcard"
  }

  /** `openFileWrite`: a missing name, a name without the extension, or a file
      that does not open (`opens` stands for `fopen`'s outcome) is WRITE_ERROR. */
  function OpenFileWrite(fileName: Option<string>, opens: bool): (r: ErrorCode)
    requires fileName.Some? ==> ExtensionReadable(fileName.value)
    ensures r == Ok || r == WriteError
    ensures r == Ok <==> fileName.Some? && opens &&
                          (fileName.value[|fileName.value| - 3..] == "vcf" || fileName.value[|fileName.value| - 5..] == "vcard")
  {
    if fileName.None? then WriteError
    else if !HasCardExtension(fileName.value) then WriteError
    else if !opens then WriteError
    else Ok
  }

  // ---------------------------------------------------------------------------
  // paramListToString

  /** One parameter as written: `;name=value`, with no escaping. */
  function ParamEntry(p: Parameter): string
  {
    [';'] + p.name + ['='] + p.value
  }

  /** The parameters as written, in list order. */
  function ParamText(ps: seq<Parameter>): string
  {
    if ps == [] then "" else ParamEntry(ps[0]) + ParamText(ps[1..])
  }

  /** Appending one more parameter's entry at the back. */
  lemma {:induction false} ParamTextSnoc(ps: seq<Parameter>, p: Parameter)
    ensures ParamText(ps + [p]) == ParamText(ps) + ParamEntry(p)
    decreases |ps|
  {
    if ps == [] {
      assert [] + [p] == [p];
      assert ParamText([p]) == ParamEntry(p) + ParamText([]);
    } else {
      assert (ps + [p])[1..] == ps[1..] + [p];
      ParamTextSnoc(ps[1..], p);
      ContentLines.Assoc(ParamEntry(ps[0]), ParamText(ps[1..]), ParamEntry(p));
    }
  }

  /** `paramListToString`: appends `;`, the name, `=` and the value of each
      parameter in list order. */
  method ParamListToString(contentLine: string, parameters: seq<Parameter>) returns (newLine: string)
    ensures newLine == contentLine + ParamText(parameters)
  {
    newLine := contentLine;
    var i := 0;
    while i < |parameters|
      invariant i <= |parameters|
      invariant newLine == contentLine + ParamText(parameters[..i])
    {
      var p := parameters[i];
      newLine := newLine + ";";
      newLine := newLine + p.name;
      newLine := newLine + "=";
      newLine := newLine + p.value;
      assert parameters[..i + 1] == parameters[..i] + [p];
      ParamTextSnoc(parameters[..i], p);
      i := i + 1;
    }
    assert parameters[..i] == parameters;
  }

  // ---------------------------------------------------------------------------
  // propListToString

  /** Each value followed by `;`, as the append loop leaves them. */
  function Terminated(vs: seq<string>): string
  {
    if vs == [] then "" else vs[0] + ";" + Terminated(vs[1..])
  }

  lemma {:induction false} TerminatedSnoc(vs: seq<string>, v: string)
    ensures Terminated(vs + [v]) == Terminated(vs) + (v + ";")
    decreases |vs|
  {
    if vs == [] {
      assert [] + [v] == [v];
      assert Terminated([v]) == v + ";" + Terminated([]);
    } else {
      assert (vs + [v])[1..] == vs[1..] + [v];
      TerminatedSnoc(vs[1..], v);
      ContentLines.Assoc(vs[0] + ";", Terminated(vs[1..]), v + ";");
    }
  }

  /** The terminated values are the joined values and one `;` more. */
  lemma {:induction false} TerminatedIsJoin(vs: seq<string>)
    requires vs != []
    ensures Terminated(vs) == Join(vs, ';') + ";"
    decreases |vs|
  {
    if |vs| == 1 {
      assert Terminated(vs[1..]) == "";
    } else {
      TerminatedIsJoin(vs[1..]);
      ContentLines.Assoc(vs[0] + ";", Join(vs[1..], ';'), ";");
    }
  }

  /** The values as written: `:` and the values joined with `;`, and nothing at all
      (not even the `:`) for an empty list. */
  function ValuesText(vs: seq<string>): string
  {
    if vs == [] then "" else ":" + Join(vs, ';')
  }

  /** `propListToString`: appends `:`, then each value and a `;`, then removes the
      last character, which is the final `;` or, for no values, the `:`. */
  method PropListToString(contentLine: string, values: seq<string>) returns (newLine: string)
    ensures newLine == contentLine + ValuesText(values)
  {
    newLine := contentLine + ":";
    var i := 0;
    while i < |values|
      invariant i <= |values|
      invariant newLine == contentLine + ":" + Terminated(values[..i])
    {
      newLine := newLine + values[i];
      newLine := newLine + ";";
      assert values[..i + 1] == values[..i] + [values[i]];
      TerminatedSnoc(values[..i], values[i]);
      i := i + 1;
    }
    assert values[..i] == values;
    if values != [] {
      TerminatedIsJoin(values);
      assert newLine == (contentLine + ValuesText(values)) + ";";
    }
    newLine := newLine[..|newLine| - 1];
  }

  // ---------------------------------------------------------------------------
  // writeProperty and writeOptionalProps

  /** A property's content line without its CRLF: the group and a dot when there
      is a group, the name, the parameters and the values. */
  function PropertyLine(p: Property): string
  {
    (if |p.group| > 0 then p.group + "." else "") + p.name + ParamText(p.parameters) + ValuesText(p.values)
  }

  /** The line buffer of `writeProperty`: group and dot, name, then the two list
      writers. */
  method BuildLine(p: Property) returns (contentLine: string)
    ensures contentLine == PropertyLine(p)
  {
    contentLine := "";
    if |p.group| > 0 {
      contentLine := contentLine + p.group;
      contentLine := contentLine + ".";
    }
    contentLine := contentLine + p.name;
    if |p.parameters| > 0 {
      contentLine := ParamListToString(contentLine, p.parameters);
    } else {
      assert ParamText(p.parameters) == "";
    }
    contentLine := PropListToString(contentLine, p.values);
  }

  /** `writeProperty`: with no property or no file it is WRITE_ERROR and nothing
      is written; otherwise the line is built and written with a CRLF. */
  method WriteProperty(file: CardFile?, prop: Option<Property>) returns (status: ErrorCode)
    modifies file
    ensures file == null || prop.None? ==> status == WriteError
    ensures file != null && prop.None? ==> file.contents == old(file.contents)
    ensures file != null && prop.Some? ==>
              status == Ok && file.contents == old(file.contents) + PropertyLine(prop.value) + "\r\n"
  {
    if prop.None? || file == null {
      return WriteError;
    }
    var contentLine := BuildLine(prop.value);
    file.contents := file.contents + contentLine + "\r\n";
    status := Ok;
  }

  /** The lines of a property list, in list order, each with its CRLF. */
  function PropsText(props: seq<Property>): string
  {
    if props == [] then "" else PropsText(props[..|props| - 1]) + PropertyLine(props[|props| - 1]) + "\r\n"
  }

  lemma PropsTextStep(list: seq<Property>, i: nat)
    requires i < |list|
    ensures PropsText(list[..i + 1]) == PropsText(list[..i]) + (PropertyLine(list[i]) + "\r\n")
  {
    assert list[..i + 1][..i] == list[..i];
  }

  /** `writeOptionalProps`: with no file or no list it is WRITE_ERROR; otherwise
      every property is written in list order. The loop's early exit on a failed
      write cannot be taken: a list element is never NULL and the file is open. */
  method WriteOptionalProps(file: CardFile?, props: Option<seq<Property>>) returns (status: ErrorCode)
    modifies file
    ensures file == null || props.None? ==> status == WriteError
    ensures file != null && props.None? ==> file.contents == old(file.contents)
    ensures file != null && props.Some? ==>
              status == Ok && file.contents == old(file.contents) + PropsText(props.value)
  {
    if file == null || props.None? {
      return WriteError;
    }
    var list := props.value;
    var i := 0;
    ghost var start := file.contents;
    while i < |list|
      invariant i <= |list|
      invariant file.contents == start + PropsText(list[..i])
    {
      status := WriteProperty(file, Some(list[i]));
      PropsTextStep(list, i);
      ContentLines.Assoc(start, PropsText(list[..i]), PropertyLine(list[i]) + "\r\n");
      i := i + 1;
    }
    assert list[..i] == list;
    return Ok;
  }

  // ---------------------------------------------------------------------------
  // writeDateTime

  /** What `writeDateTime` appends: nothing for no record; `;Value=Text:` and the
      text for a text value (UTC is not written); otherwise `:`, the date, `T` and
      the time when there is a time, and `Z` for UTC; a structured value with
      neither date nor time is WRITE_ERROR. */
  function DateText(dt: Option<DateTime>): (r: Result<string>)
    ensures r.Failure? <==> dt.Some? && !dt.value.isText && dt.value.date == "" && dt.value.time == ""
    ensures r.Failure? ==> r.error == WriteError
  {
    if dt.None? then Success("")
    else
      var d := dt.value;
      if d.isText then Success(";Value=Text:" + d.text)
      else if |d.date| > 0 then
        Success(":" + d.date + (if |d.time| > 0 then "T" + d.time else "") + (if d.UTC then "Z" else ""))
      else if |d.time| > 0 then Success(":" + "T" + d.time + (if d.UTC then "Z" else ""))
      else Failure(WriteError)
  }

  /** `writeDateTime`: appends the record's text to the line in place. */
  method WriteDateTime(contentLine: string, writeDate: Option<DateTime>) returns (status: ErrorCode, newLine: string)
    ensures match DateText(writeDate)
            case Failure(e) => status == e && newLine == contentLine
            case Success(s) => status == Ok && newLine == contentLine + s
  {
    newLine := contentLine;
    if writeDate.None? {
      return Ok, newLine;
    }
    var d := writeDate.value;
    if d.isText {
      newLine := newLine + ";Value=Text:";
      newLine := newLine + d.text;
    } else if |d.date| > 0 {
      newLine := newLine + ":";
      newLine := newLine + d.date;
      if |d.time| > 0 {
        newLine := newLine + "T";
        newLine := newLine + d.time;
      }
      if d.UTC {
        newLine := newLine + "Z";
      }
    } else if |d.time| > 0 {
      newLine := newLine + ":";
      newLine := newLine + "T";
      newLine := newLine + d.time;
      if d.UTC {
        newLine := newLine + "Z";
      }
    } else {
      return WriteError, newLine;
    }
    return Ok, newLine;
  }
}
