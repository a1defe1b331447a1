/** `newProperty` and `createProperty`: a Property is assembled from a name, an
    optional group and the rest of a content line, whose parameters and values are
    read by the tokenizer. */
module PropertyHelper {
  import opened VCardTypes
  import opened Tokenizer

  /** The group a new property gets: the one supplied, or "" when none is. */
  function GroupOrEmpty(group: Option<string>): string
  {
    if group.Some? then group.value else ""
  }

  /** The inputs `newProperty` reads safely: once a name and a line are present the
      line must not be empty, since the value reader looks one character before its
      position when it stops. */
  predicate PropertyReadable(name: Option<string>, line: Option<string>)
  {
    name.Some? && line.Some? ==> line.value != []
  }

  /** What `newProperty` produces: a missing name or line is an internal error;
      otherwise the parameters are read first and their error (if any) is the
      result, and the values are read from what follows them. */
  function PropertyFrom(name: Option<string>, group: Option<string>, line: Option<string>): (r: Result<Property>)
    requires PropertyReadable(name, line)
    ensures r == Failure(OtherError) <==> name.None? || line.None?
    ensures r.Failure? && name.Some? && line.Some? ==> r.error == InvProp && ParamsAt(line.value, 0).Failure?
    ensures r.Success? ==> r.value.name == name.value
    ensures r.Success? && group.Some? ==> r.value.group == group.value
    ensures r.Success? && group.None? ==> r.value.group == ""
  {
    if name.None? || line.None? then Failure(OtherError)
    else
      match ParamsAt(line.value, 0)
      case Failure(e) => Failure(e)
      case Success(split) => Success(Property(name.value, GroupOrEmpty(group), split.params, ValuesOf(split.rest)))
  }

  /** `newProperty`: copies the name and group, then fills the parameter list and the
      value list through the two parsers, returning the first error unchanged. */
  method NewProperty(name: Option<string>, group: Option<string>, contentLine: Option<string>)
    returns (status: ErrorCode, prop: Option<Property>)
    requires PropertyReadable(name, contentLine)
    ensures match PropertyFrom(name, group, contentLine)
            case Failure(e) => status == e && prop.None?
            case Success(p) => status == Ok && prop == Some(p)
  {
    if name.None? || contentLine.None? {
      return OtherError, None;
    }
    var newName := name.value;
    var newGroup := "";
    if group.Some? {
      newGroup := group.value;
    }
    var parseStatus, params, rest := ParseParameters(contentLine.value);
    if parseStatus != Ok {
      return parseStatus, None;
    }
    var values := ParsePropertyValues(rest);
    return Ok, Some(Property(newName, newGroup, params, values));
  }

  /** A line with no parameters and an empty body gives a property with no values:
      `newProperty` itself never rejects that; its caller does. */
  lemma EmptyBodyAccepted(name: string, group: Option<string>, tail: string)
    requires tail == "" || tail == "\r\n"
    ensures PropertyFrom(Some(name), group, Some(":" + tail)) == Success(Property(name, GroupOrEmpty(group), [], []))
  {
    var line := ":" + tail;
    NoParamsKeepsLine(line);
    assert BodyStart(line) == 1;
    assert NextSep2(line, 1, |line|, '\r', '\n') == 1;
  }

  /** `createProperty`: a property with empty parameter and value lists. */
  method CreateProperty() returns (prop: Property)
    ensures prop.parameters == [] && prop.values == []
  {
    prop := Property("", "", [], []);
  }
}
