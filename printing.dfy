// Debug printing and comparison of the card's records (`printError`,
// `printDate`, `printProperty`, `compareProperties`, `printParameter`,
// `compareParameters` in VCardParser.c).  These are pure mappings from a
// record to a string; a NULL record is `None`.

module Printing {
  import opened VCardTypes
  import opened Text
  import Writer

  /** The characters an error code's name is spelled with. */
  predicate IdentifierChar(c: char)
  {
    ('A' <= c <= 'Z') || c == '_'
  }

  /** `printError`: the constant's own name. */
  function PrintError(err: ErrorCode): (r: string)
    ensures |r| >= 2 && forall k :: 0 <= k < |r| ==> IdentifierChar(r[k])
    ensures r == "OK" <==> err == Ok
  {
    match err
    case Ok => "OK"
    case InvFile => "INV_FILE"
    case InvCard => "INV_CARD"
    case InvProp => "INV_PROP"
    case WriteError => "WRITE_ERROR"
    case OtherError => "OTHER_ERROR"
    case InvDt => "INV_DT"
  }

  /** The code can be read back from its printed name. */
  function ErrorNamed(s: string): (r: Option<ErrorCode>)
  {
    if s == "OK" then Some(Ok)
    else if s == "INV_FILE" then Some(InvFile)
    else if s == "INV_CARD" then Some(InvCard)
    else if s == "INV_PROP" then Some(InvProp)
    else if s == "WRITE_ERROR" then Some(WriteError)
    else if s == "OTHER_ERROR" then Some(OtherError)
    else if s == "INV_DT" then Some(InvDt)
    else None
  }

  /** Every code prints to a distinct name: reading the name gives the code back. */
  lemma PrintErrorRoundTrip(err: ErrorCode)
    ensures ErrorNamed(PrintError(err)) == Some(err)
  {
    match err
    case Ok =>
    case InvFile =>
    case InvCard =>
    case InvProp =>
    case WriteError =>
    case OtherError =>
    case InvDt =>
  }

  lemma PrintErrorInjective(a: ErrorCode, b: ErrorCode)
    requires PrintError(a) == PrintError(b)
    ensures a == b
  {
    PrintErrorRoundTrip(a);
    PrintErrorRoundTrip(b);
  }

  /** `printDate`: the text of a text value; otherwise the date, then `T` and the
      time when there is a time. */
  function PrintDate(dt: Option<DateTime>): (r: string)
    ensures dt.None? ==> r == "NULL"
    ensures dt.Some? && dt.value.isText ==> r == dt.value.text
    ensures dt.Some? && !dt.value.isText ==> |r| == |dt.value.date| + (if dt.value.time == "" then 0 else 1 + |dt.value.time|)
    ensures dt.Some? && !dt.value.isText ==> r[..|dt.value.date|] == dt.value.date
  {
    match dt
    case None => "NULL"
    case Some(d) =>
      if d.isText then d.text
      else d.date + (if |d.time| > 0 then "T" + d.time else "")
  }

  /** The printed date is what the card writer puts after the `:`, without the
      UTC marker; a text value is what it puts after `;Value=Text:`. */
  lemma PrintedDateIsWritten(dt: DateTime)
    requires dt.isText || dt.date != "" || dt.time != ""
    ensures Writer.DateText(Some(dt)).Success?
    ensures dt.isText ==> Writer.DateText(Some(dt)).value == ";Value=Text:" + PrintDate(Some(dt))
    ensures !dt.isText ==> Writer.DateText(Some(dt)).value == ":" + PrintDate(Some(dt)) + (if dt.UTC then "Z" else "")
  {
    if !dt.isText {
      var t := if |dt.time| > 0 then "T" + dt.time else "";
      var z := if dt.UTC then "Z" else "";
      assert ":" + dt.date + t + z == ":" + (dt.date + t) + z;
      if dt.date == "" {
        assert dt.date + t == t;
      }
    }
  }

  /** `printProperty`: the group (when non-empty, and with no dot), the name, the
      rendered parameters and the rendered values.  The list renderers belong to
      the linked-list library and are parameters here. */
  function PrintProperty(prop: Option<Property>, renderParams: seq<Parameter> -> string,
                         renderValues: seq<string> -> string): (r: string)
    ensures prop.None? ==> r == "NULL"
    ensures prop.Some? ==> r == prop.value.group + prop.value.name + renderParams(prop.value.parameters) + renderValues(prop.value.values)
  {
    match prop
    case None => "NULL"
    case Some(p) =>
      var g := if |p.group| > 0 then p.group else "";
      g + p.name + renderParams(p.parameters) + renderValues(p.values)
  }

  /** Because no dot separates group and name, a grouped property prints like an
      ungrouped one whose name starts with the group. */
  lemma GroupRunsIntoName(group: string, name: string, parameters: seq<Parameter>, values: seq<string>,
                          renderParams: seq<Parameter> -> string, renderValues: seq<string> -> string)
    ensures PrintProperty(Some(Property(name, group, parameters, values)), renderParams, renderValues)
         == PrintProperty(Some(Property(group + name, "", parameters, values)), renderParams, renderValues)
  {
    var rp, rv := renderParams(parameters), renderValues(values);
    assert group + name + rp + rv == "" + (group + name) + rp + rv;
  }

  /** `compareProperties`: NULL sorts first; otherwise `strcmp` of the printed
      forms. */
  function CompareProperties(first: Option<Property>, second: Option<Property>,
                             renderParams: seq<Parameter> -> string, renderValues: seq<string> -> string): (r: int)
    ensures -1 <= r <= 1
    ensures first.None? && second.Some? ==> r == -1
    ensures first.Some? && second.None? ==> r == 1
    ensures r == 0 <==> ((first.None? && second.None?)
                         || (first.Some? && second.Some?
                             && PrintProperty(first, renderParams, renderValues) == PrintProperty(second, renderParams, renderValues)))
  {
    if first.None? && second.None? then 0
    else if first.None? then -1
    else if second.None? then 1
    else
      var one := PrintProperty(first, renderParams, renderValues);
      var two := PrintProperty(second, renderParams, renderValues);
      StrcmpZeroIffEqual(one, two);
      Strcmp(one, two)
  }

  /** Swapping the arguments flips the sign. */
  lemma ComparePropertiesAntisymmetric(first: Option<Property>, second: Option<Property>,
                                       renderParams: seq<Parameter> -> string, renderValues: seq<string> -> string)
    ensures CompareProperties(first, second, renderParams, renderValues) == -CompareProperties(second, first, renderParams, renderValues)
  {
    if first.Some? && second.Some? {
      StrcmpAntisymmetric(PrintProperty(first, renderParams, renderValues), PrintProperty(second, renderParams, renderValues));
    }
  }

  /** `printParameter`: the name directly followed by the value. */
  function PrintParameter(param: Option<Parameter>): (r: string)
    ensures param.None? ==> r == "NULL"
    ensures param.Some? ==> |r| == |param.value.name| + |param.value.value|
    ensures param.Some? ==> r[..|param.value.name|] == param.value.name && r[|param.value.name|..] == param.value.value
  {
    match param
    case None => "NULL"
    case Some(p) => p.name + p.value
  }

  /** `compareParameters`: NULL sorts first; otherwise the joined name and value
      compared ignoring case. */
  function CompareParameters(first: Option<Parameter>, second: Option<Parameter>): (r: int)
    ensures -1 <= r <= 1
    ensures first.None? && second.Some? ==> r == -1
    ensures first.Some? && second.None? ==> r == 1
    ensures r == 0 <==> ((first.None? && second.None?)
                         || (first.Some? && second.Some?
                             && SameIgnoringCase(PrintParameter(first), PrintParameter(second))))
  {
    if first.None? && second.None? then 0
    else if first.None? then -1
    else if second.None? then 1
    else StrcmpIC(first.value.name + first.value.value, second.value.name + second.value.value)
  }

  /** Swapping the arguments flips the sign. */
  lemma CompareParametersAntisymmetric(first: Option<Parameter>, second: Option<Parameter>)
    ensures CompareParameters(first, second) == -CompareParameters(second, first)
  {
    if first.Some? && second.Some? {
      StrcmpICAntisymmetric(PrintParameter(first), PrintParameter(second));
    }
  }
}
