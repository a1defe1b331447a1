/** The card engine: `initializeCard`, the `createCard` loop that reads a buffer
    line by line into a Card, and `validateCard`, which checks a Card against the
    property registry and the date rules. */
module CardEngine {
  import opened VCardTypes
  import opened Text
  import opened Tokenizer
  import opened PropertyHelper
  import opened DateHelper
  import opened Validation
  import ContentLines
  import RoundTrip
  import Writer

  /** What a Card holds: the FN property (NULL until one is read), the other
      properties in the order they were read, and the two dates. */
  datatype CardValue = CardValue(fn: Option<Property>, optional: seq<Property>,
                                 birthday: Option<DateTime>, anniversary: Option<DateTime>)

  const EmptyCard: CardValue := CardValue(None, [], None, None)

  /** The Card record, whose fields `createCard` fills in place. */
  class Card {
    var fn: Option<Property>
    var optionalProperties: seq<Property>
    var birthday: Option<DateTime>
    var anniversary: Option<DateTime>

    /** `initializeCard`: no FN, no dates and an empty property list. */
    constructor ()
      ensures fn.None? && optionalProperties == [] && birthday.None? && anniversary.None?
    {
      fn := None;
      optionalProperties := [];
      birthday := None;
      anniversary := None;
    }

    function Value(): CardValue
      reads this
    {
      CardValue(fn, optionalProperties, birthday, anniversary)
    }

    /** One content line of the card body: the group and the name are taken off,
        then the line is handled as `Dispatch` says. */
    method ApplyLine(line: string) returns (status: ErrorCode, endFound: bool)
      modifies this
      ensures match StepLine(old(Value()), line)
              case Stop(c) => status == c && !endFound && Value() == old(Value())
              case EndFound => status == Ok && endFound && Value() == old(Value())
              case Continue(next) => status == Ok && !endFound && Value() == next
    {
      var groupStatus, group, afterGroup := ExtractGroup(line);
      if groupStatus != Ok {
        return groupStatus, false;
      }
      if !PropReadable(afterGroup) {
        return InvProp, false;
      }
      var nameStatus, name, rest := ExtractProp(afterGroup);
      if nameStatus != Ok {
        return nameStatus, false;
      }
      status, endFound := ApplyProperty(group, name.value, rest);
    }

    /** The dispatch on the property name inside the `createCard` loop. */
    method ApplyProperty(group: Option<string>, name: string, rest: string) returns (status: ErrorCode, endFound: bool)
      requires rest != []
      modifies this
      ensures match Dispatch(old(Value()), group, name, rest)
              case Stop(c) => status == c && !endFound && Value() == old(Value())
              case EndFound => status == Ok && endFound && Value() == old(Value())
              case Continue(next) => status == Ok && !endFound && Value() == next
    {
      endFound := false;
      if StrcmpIC(name, "bday") == 0 {
        if birthday.Some? {
          return InvCard, false;
        }
        var dateStatus, date := NewDate(rest);
        if dateStatus == Ok {
          birthday := date;
        }
        return dateStatus, false;
      } else if StrcmpIC(name, "ANNIVERSARY") == 0 {
        if anniversary.Some? {
          return InvCard, false;
        }
        var dateStatus, date := NewDate(rest);
        if dateStatus == Ok {
          anniversary := date;
        }
        return dateStatus, false;
      } else if StrcmpIC(name, "END") == 0 {
        if StrcmpIC(rest, ":VCARD\r\n") == 0 || StrcmpIC(rest, ":VCARD") == 0 {
          return Ok, true;
        }
        return InvCard, false;
      } else if StrcmpIC(name, "BEGIN") == 0 {
        return InvCard, false;
      } else if |name| < 1 {
        return InvProp, false;
      }
      var propStatus, prop := NewProperty(Some(name), group, Some(rest));
      if propStatus != Ok {
        return propStatus, false;
      }
      var p := prop.value;
      if |p.values| == 0 {
        return InvProp, false;
      } else if StrcmpIC(p.name, "n") == 0 && |p.values| != 5 {
        return InvProp, false;
      } else if StrcmpIC(p.name, "ADR") == 0 && |p.values| != 7 {
        return InvProp, false;
      } else if StrcmpIC(p.name, "fn") == 0 && fn.None? {
        fn := Some(p);
      } else {
        optionalProperties := optionalProperties + [p];
      }
      return Ok, false;
    }
  }

  // ---------------------------------------------------------------------------
  // createCard

  /** The smallest buffer `createCard` looks into. */
  const MinCardLength := 40

  /** A property `createCard` keeps: at least one value, 5 for N and 7 for ADR. */
  predicate Admitted(p: Property)
  {
    |p.values| >= 1
    && (SameIgnoringCase(p.name, "N") ==> |p.values| == 5)
    && (SameIgnoringCase(p.name, "ADR") ==> |p.values| == 7)
  }

  /** What every card under construction satisfies: its FN is named FN, and it and
      every other property were admitted. */
  predicate CardShape(c: CardValue)
  {
    (c.fn.Some? ==> SameIgnoringCase(c.fn.value.name, "FN") && Admitted(c.fn.value))
    && forall k :: 0 <= k < |c.optional| ==> Admitted(c.optional[k])
  }

  /** `after` only adds to `before`: a set FN or date stays, and properties are
      only appended. */
  predicate Extends(before: CardValue, after: CardValue)
  {
    before.optional <= after.optional
    && (before.fn.Some? ==> after.fn == before.fn)
    && (before.birthday.Some? ==> after.birthday == before.birthday)
    && (before.anniversary.Some? ==> after.anniversary == before.anniversary)
  }

  /** What one body line does to the card: stop with an error, end the card, or
      continue with an updated card. */
  datatype Step = Continue(card: CardValue) | EndFound | Stop(code: ErrorCode)

  /** The dispatch on a property name: BDAY and ANNIVERSARY are decoded as dates
      (a second one is INV_CARD and the group is dropped); END must be followed by
      `:VCARD` with or without CRLF; a nested BEGIN is INV_CARD; any other name
      must be non-empty and gives a property, which needs a value, 5 of them for N
      and 7 for ADR, and becomes the FN when it is the first FN. */
  function Dispatch(card: CardValue, group: Option<string>, name: string, rest: string): (r: Step)
    requires rest != []
    ensures r.Stop? ==> r.code != Ok
    ensures SameIgnoringCase(name, "BEGIN") ==> r == Stop(InvCard)
    ensures name == [] ==> r == Stop(InvProp)
    ensures SameIgnoringCase(name, "BDAY") && card.birthday.Some? ==> r == Stop(InvCard)
    ensures SameIgnoringCase(name, "ANNIVERSARY") && card.anniversary.Some? ==> r == Stop(InvCard)
    ensures r.EndFound? <==> SameIgnoringCase(name, "END")
                             && (SameIgnoringCase(rest, ":VCARD\r\n") || SameIgnoringCase(rest, ":VCARD"))
    ensures SameIgnoringCase(name, "END") && !r.EndFound? ==> r == Stop(InvCard)
    ensures r.Continue? ==> Extends(card, r.card)
    ensures r.Continue? && CardShape(card) ==> CardShape(r.card)
  {
    if SameIgnoringCase(name, "bday") then
      if card.birthday.Some? then Stop(InvCard)
      else
        match DecodeDate(rest)
        case Failure(e) => Stop(e)
        case Success(dt) => Continue(card.(birthday := Some(dt)))
    else if SameIgnoringCase(name, "ANNIVERSARY") then
      if card.anniversary.Some? then Stop(InvCard)
      else
        match DecodeDate(rest)
        case Failure(e) => Stop(e)
        case Success(dt) => Continue(card.(anniversary := Some(dt)))
    else if SameIgnoringCase(name, "END") then
      if SameIgnoringCase(rest, ":VCARD\r\n") || SameIgnoringCase(rest, ":VCARD") then EndFound else Stop(InvCard)
    else if SameIgnoringCase(name, "BEGIN") then Stop(InvCard)
    else if |name| < 1 then Stop(InvProp)
    else
      match PropertyFrom(Some(name), group, Some(rest))
      case Failure(e) => Stop(e)
      case Success(p) =>
        if |p.values| == 0 then Stop(InvProp)
        else if SameIgnoringCase(p.name, "n") && |p.values| != 5 then Stop(InvProp)
        else if SameIgnoringCase(p.name, "ADR") && |p.values| != 7 then Stop(InvProp)
        else if SameIgnoringCase(p.name, "fn") && card.fn.None? then Continue(card.(fn := Some(p)))
        else Continue(card.(optional := card.optional + [p]))
  }

  /** A first BDAY or ANNIVERSARY is decoded into its slot of the card, whatever its
      group, and nothing else changes; a decoding error stops the card with its code. */
  lemma FirstDateStored(card: CardValue, group: Option<string>, name: string, rest: string)
    requires rest != []
    ensures SameIgnoringCase(name, "BDAY") || SameIgnoringCase(name, "ANNIVERSARY") ==>
              Dispatch(card, group, name, rest) == Dispatch(card, None, name, rest)
    ensures SameIgnoringCase(name, "BDAY") && card.birthday.None? && DecodeDate(rest).Success? ==>
              Dispatch(card, group, name, rest) == Continue(card.(birthday := Some(DecodeDate(rest).value)))
    ensures SameIgnoringCase(name, "ANNIVERSARY") && card.anniversary.None? && DecodeDate(rest).Success? ==>
              Dispatch(card, group, name, rest) == Continue(card.(anniversary := Some(DecodeDate(rest).value)))
    ensures ((SameIgnoringCase(name, "BDAY") && card.birthday.None?)
             || (SameIgnoringCase(name, "ANNIVERSARY") && card.anniversary.None?)) && DecodeDate(rest).Failure? ==>
              Dispatch(card, group, name, rest) == Stop(DecodeDate(rest).error)
  {
  }

  /** Any other non-empty name is a property: the card goes on exactly when
      `newProperty` builds it and it is admitted; it becomes the FN when it is the
      first FN and is appended to the other properties otherwise. */
  lemma PropertyLineRule(card: CardValue, group: Option<string>, name: string, rest: string)
    requires rest != [] && name != []
    requires !SameIgnoringCase(name, "BDAY") && !SameIgnoringCase(name, "ANNIVERSARY")
    requires !SameIgnoringCase(name, "END") && !SameIgnoringCase(name, "BEGIN")
    ensures var r := Dispatch(card, group, name, rest);
            var made := PropertyFrom(Some(name), group, Some(rest));
            && (r.Continue? <==> made.Success? && Admitted(made.value))
            && (made.Failure? ==> r == Stop(made.error))
            && (made.Success? && !Admitted(made.value) ==> r == Stop(InvProp))
            && (r.Continue? && SameIgnoringCase(name, "FN") && card.fn.None? ==>
                  r.card == card.(fn := Some(made.value)))
            && (r.Continue? && !(SameIgnoringCase(name, "FN") && card.fn.None?) ==>
                  r.card == card.(optional := card.optional + [made.value]))
  {
  }

  /** One body line: its group and its name are taken off, then it is dispatched
      on the name. */
  function StepLine(card: CardValue, line: string): (r: Step)
    ensures r.Stop? ==> r.code != Ok
    ensures r.Continue? ==> Extends(card, r.card)
    ensures r.Continue? && CardShape(card) ==> CardShape(r.card)
  {
    match SplitGroup(line)
    case Failure(e) => Stop(e)
    case Success(g) =>
      if !PropReadable(g.rest) then Stop(InvProp)
      else
        match SplitName(g.rest)
        case Failure(e) => Stop(e)
        case Success(n) => Dispatch(card, g.group, n.name, n.rest)
  }

  /** The body loop of `createCard` from `cursor`: lines are applied until an
      error, the END line, or the end of the buffer (which is INV_CARD: no END);
      at the END line a card without FN is INV_CARD. */
  function ReadBody(src: string, cursor: nat, card: CardValue): (r: Result<CardValue>)
    requires ContentLines.ValidCursor(src, cursor)
    ensures r.Failure? ==> r.error != Ok
    ensures r.Success? ==> r.value.fn.Some? && Extends(card, r.value)
    ensures r.Success? && CardShape(card) ==> CardShape(r.value)
    ensures |src| >= ContentLines.MinBufferLength && cursor >= |src| ==> r == Failure(InvCard)
    ensures ContentLines.NextLine(src, cursor).Read? && StepLine(card, ContentLines.NextLine(src, cursor).line).EndFound? ==>
              r == if card.fn.Some? then Success(card) else Failure(InvCard)
    decreases |src| + 1 - cursor
  {
    match ContentLines.NextLine(src, cursor)
    case ReadError(c) => Failure(c)
    case EndOfInput => Failure(InvCard)
    case Read(line, next) =>
      match StepLine(card, line)
      case Stop(c) => Failure(c)
      case EndFound => if card.fn.None? then Failure(InvCard) else Success(card)
      case Continue(updated) => ReadBody(src, next, updated)
  }

  /** The buffer opens with the two header lines, `BEGIN:VCARD` and then
      `VERSION:4.0`, each with its CRLF and ignoring case. */
  predicate HeaderLines(src: string)
  {
    var first := ContentLines.NextLine(src, 0);
    && first.Read? && SameIgnoringCase(first.line, "BEGIN:VCARD\r\n")
    && ContentLines.NextLine(src, first.next).Read?
    && SameIgnoringCase(ContentLines.NextLine(src, first.next).line, "VERSION:4.0\r\n")
  }

  /** `createCard` on the buffer read from the file: a buffer under 40 characters
      is INV_CARD; the first two logical lines must be `BEGIN:VCARD` and
      `VERSION:4.0` with CRLF, ignoring case; then the body is read into an empty
      card. */
  function ReadCard(src: string): (r: Result<CardValue>)
    ensures r.Failure? ==> r.error != Ok
    ensures |src| < MinCardLength ==> r == Failure(InvCard)
    ensures r.Success? ==> r.value.fn.Some? && CardShape(r.value)
    ensures r.Success? ==> HeaderLines(src)
    ensures (|src| >= MinCardLength && ContentLines.NextLine(src, 0).Read?
             && !SameIgnoringCase(ContentLines.NextLine(src, 0).line, "BEGIN:VCARD\r\n")) ==> r == Failure(InvCard)
  {
    if |src| < MinCardLength then Failure(InvCard)
    else
      match ContentLines.NextLine(src, 0)
      case ReadError(c) => Failure(c)
      case EndOfInput => Failure(InvCard)
      case Read(first, next) =>
        if !SameIgnoringCase(first, "BEGIN:VCARD\r\n") then Failure(InvCard)
        else
          match ContentLines.NextLine(src, next)
          case ReadError(c) => Failure(c)
          case EndOfInput => Failure(InvCard)
          case Read(second, next2) =>
            if !SameIgnoringCase(second, "VERSION:4.0\r\n") then Failure(InvCard)
            else ReadBody(src, next2, EmptyCard)
  }

  /** A line without folds, followed by a line that does not continue it, is read
      whole with its CRLF. */
  lemma PlainLine(prefix: string, p: string, rest: string)
    requires ContentLines.NoLineBreak(p) && !ContentLines.IsFoldChar(ContentLines.At(rest, 0))
    requires prefix == [] || prefix[|prefix| - 1] != '\r'
    requires |prefix + p + "\r\n" + rest| >= ContentLines.MinBufferLength
    ensures ContentLines.ValidCursor(prefix + p + "\r\n" + rest, |prefix|)
    ensures ContentLines.NextLine(prefix + p + "\r\n" + rest, |prefix|) == ContentLines.Read(p + "\r\n", |prefix| + |p| + 2)
  {
    assert ContentLines.Folded([p], []) == p;
    assert ContentLines.Concat([p]) == p + ContentLines.Concat([]);
    ContentLines.FoldRoundTrip(prefix, [p], [], rest);
  }

  /** The smallest card: the two header lines, an FN line and the END line. */
  function MinimalCard(v: string): string
  {
    "BEGIN:VCARD\r\n" + "VERSION:4.0\r\n" + ("FN:" + v + "\r\n") + "END:VCARD\r\n"
  }

  /** An FN with one value sets the FN of an empty card. */
  lemma FnDispatch(v: string)
    requires RoundTrip.ValuesWritable([v])
    ensures Dispatch(EmptyCard, None, "FN", ":" + v + "\r\n") == Continue(EmptyCard.(fn := Some(Property("FN", "", [], [v]))))
  {
    var rest := ":" + v + "\r\n";
    assert Writer.ParamText([]) + Writer.ValuesText([v]) + "\r\n" == rest;
    RoundTrip.PropertyRoundTrip("FN", None, [], [v]);
    assert !SameIgnoringCase("FN", "BDAY") && !SameIgnoringCase("FN", "ANNIVERSARY");
    assert !SameIgnoringCase("FN", "END") && !SameIgnoringCase("FN", "BEGIN");
    assert !SameIgnoringCase("FN", "n") && !SameIgnoringCase("FN", "ADR") && SameIgnoringCase("FN", "fn");
  }

  /** The FN line of the smallest card sets the FN of an empty card. */
  lemma FnLineStep(v: string)
    requires RoundTrip.ValuesWritable([v])
    ensures StepLine(EmptyCard, "FN:" + v + "\r\n") == Continue(EmptyCard.(fn := Some(Property("FN", "", [], [v]))))
  {
    var rest := ":" + v + "\r\n";
    var line := "FN:" + v + "\r\n";
    assert line == "FN" + rest;
    NoGroupKeepsLine(line, 2);
    NameRoundTrip("FN", rest);
    FnDispatch(v);
  }

  /** The END line ends a card. */
  lemma EndLineStep(card: CardValue)
    ensures StepLine(card, "END:VCARD\r\n") == EndFound
  {
    var line := "END:VCARD\r\n";
    assert line == "END" + ":VCARD\r\n";
    NoGroupKeepsLine(line, 3);
    NameRoundTrip("END", ":VCARD\r\n");
  }

  /** A line that leaves the card going hands the rest of the buffer to the loop. */
  lemma BodyStep(src: string, cursor: nat, card: CardValue, line: string, next: nat, updated: CardValue)
    requires ContentLines.ValidCursor(src, cursor) && ContentLines.NextLine(src, cursor) == ContentLines.Read(line, next)
    requires StepLine(card, line) == Continue(updated)
    ensures ContentLines.ValidCursor(src, next) && ReadBody(src, cursor, card) == ReadBody(src, next, updated)
  {
  }

  /** Two header lines hand the rest of the buffer to the body loop. */
  lemma HeaderStep(src: string, next: nat, next2: nat)
    requires |src| >= MinCardLength
    requires ContentLines.NextLine(src, 0) == ContentLines.Read("BEGIN:VCARD\r\n", next)
    requires ContentLines.ValidCursor(src, next)
    requires ContentLines.NextLine(src, next) == ContentLines.Read("VERSION:4.0\r\n", next2)
    ensures ContentLines.ValidCursor(src, next2) && ReadCard(src) == ReadBody(src, next2, EmptyCard)
  {
  }

  /** The FN line holds no line break. */
  lemma FnLinePlain(v: string)
    requires RoundTrip.ValuesWritable([v])
    ensures ContentLines.NoLineBreak("FN:" + v)
  {
    var l := "FN:" + v;
    forall k | 0 <= k < |l| ensures l[k] != '\r' && l[k] != '\n' {
      if k >= 3 {
        assert l[k] == v[k - 3];
      }
    }
  }

  /** The two header lines are read as such, whatever body follows them. */
  lemma HeaderLinesRead(src: string, body: string)
    requires src == "BEGIN:VCARD\r\n" + "VERSION:4.0\r\n" + body
    requires !ContentLines.IsFoldChar(ContentLines.At(body, 0)) && |src| >= MinCardLength
    ensures ContentLines.NextLine(src, 0) == ContentLines.Read("BEGIN:VCARD\r\n", 13)
    ensures ContentLines.ValidCursor(src, 13) && ContentLines.NextLine(src, 13) == ContentLines.Read("VERSION:4.0\r\n", 26)
    ensures ContentLines.ValidCursor(src, 26) && src[26..] == body
  {
    var l1, l2 := "BEGIN:VCARD", "VERSION:4.0";
    var t1, t2 := l1 + "\r\n", l2 + "\r\n";
    assert src == [] + l1 + "\r\n" + (t2 + body);
    PlainLine([], l1, t2 + body);
    assert src == t1 + l2 + "\r\n" + body;
    PlainLine(t1, l2, body);
  }

  /** The FN line and the END line after a header ending in LF. */
  lemma CardTailLines(v: string, head: string, src: string)
    requires RoundTrip.ValuesWritable([v]) && head != [] && head[|head| - 1] == '\n'
    requires src == head + ("FN:" + v + "\r\n") + "END:VCARD\r\n" && |src| >= ContentLines.MinBufferLength
    ensures ContentLines.ValidCursor(src, |head|)
    ensures ContentLines.NextLine(src, |head|) == ContentLines.Read("FN:" + v + "\r\n", |head| + 5 + |v|)
    ensures ContentLines.ValidCursor(src, |head| + 5 + |v|)
    ensures ContentLines.NextLine(src, |head| + 5 + |v|) == ContentLines.Read("END:VCARD\r\n", |src|)
  {
    var l3, l4 := "FN:" + v, "END:VCARD";
    var t3 := l3 + "\r\n";
    FnLinePlain(v);
    assert src == head + l3 + "\r\n" + (l4 + "\r\n");
    PlainLine(head, l3, l4 + "\r\n");
    assert src == (head + t3) + l4 + "\r\n" + [];
    PlainLine(head + t3, l4, []);
  }

  /** How the smallest card falls into logical lines. */
  lemma MinimalCardLines(v: string, src: string)
    requires RoundTrip.ValuesWritable([v]) && src == MinimalCard(v)
    ensures ContentLines.NextLine(src, 0) == ContentLines.Read("BEGIN:VCARD\r\n", 13)
    ensures ContentLines.ValidCursor(src, 13) && ContentLines.NextLine(src, 13) == ContentLines.Read("VERSION:4.0\r\n", 26)
    ensures ContentLines.ValidCursor(src, 26) && ContentLines.NextLine(src, 26) == ContentLines.Read("FN:" + v + "\r\n", 31 + |v|)
    ensures ContentLines.ValidCursor(src, 31 + |v|) && ContentLines.NextLine(src, 31 + |v|) == ContentLines.Read("END:VCARD\r\n", 42 + |v|)
  {
    var head := "BEGIN:VCARD\r\n" + "VERSION:4.0\r\n";
    var body := ("FN:" + v + "\r\n") + "END:VCARD\r\n";
    assert src == head + body;
    HeaderLinesRead(src, body);
    CardTailLines(v, head, src);
  }

  /** The smallest card is read: its FN holds the one value, and it has no other
      property and no date. */
  lemma MinimalCardRead(v: string)
    requires RoundTrip.ValuesWritable([v])
    ensures ReadCard(MinimalCard(v)) == Success(CardValue(Some(Property("FN", "", [], [v])), [], None, None))
  {
    var src := MinimalCard(v);
    MinimalCardLines(v, src);
    var card := EmptyCard.(fn := Some(Property("FN", "", [], [v])));
    HeaderStep(src, 13, 26);
    FnLineStep(v);
    BodyStep(src, 26, EmptyCard, "FN:" + v + "\r\n", 31 + |v|, card);
    EndLineStep(card);
  }

  /** How the card without its END line falls into logical lines. */
  lemma EndlessCardLines(v: string, src: string)
    requires RoundTrip.ValuesWritable([v]) && |v| >= 9
    requires src == "BEGIN:VCARD\r\n" + "VERSION:4.0\r\n" + ("FN:" + v + "\r\n")
    ensures ContentLines.NextLine(src, 0) == ContentLines.Read("BEGIN:VCARD\r\n", 13)
    ensures ContentLines.ValidCursor(src, 13) && ContentLines.NextLine(src, 13) == ContentLines.Read("VERSION:4.0\r\n", 26)
    ensures ContentLines.ValidCursor(src, 26) && ContentLines.NextLine(src, 26) == ContentLines.Read("FN:" + v + "\r\n", 31 + |v|)
    ensures |src| == 31 + |v|
  {
    var t12 := "BEGIN:VCARD\r\n" + "VERSION:4.0\r\n";
    var l3 := "FN:" + v;
    HeaderLinesRead(src, l3 + "\r\n");
    FnLinePlain(v);
    assert src == t12 + l3 + "\r\n" + [];
    PlainLine(t12, l3, []);
  }

  /** A card that stops after its FN line, with no END, is INV_CARD. */
  lemma MissingEndRejected(v: string)
    requires RoundTrip.ValuesWritable([v]) && |v| >= 9
    ensures ReadCard("BEGIN:VCARD\r\n" + "VERSION:4.0\r\n" + ("FN:" + v + "\r\n")) == Failure(InvCard)
  {
    var src := "BEGIN:VCARD\r\n" + "VERSION:4.0\r\n" + ("FN:" + v + "\r\n");
    EndlessCardLines(v, src);
    var card := EmptyCard.(fn := Some(Property("FN", "", [], [v])));
    HeaderStep(src, 13, 26);
    FnLineStep(v);
    BodyStep(src, 26, EmptyCard, "FN:" + v + "\r\n", 31 + |v|, card);
  }

  /** The reader's answer from `cursor`, as the loop holds it. */
  predicate ReadFrom(src: string, cursor: nat, status: ErrorCode, line: Option<string>, next: nat)
    requires ContentLines.ValidCursor(src, cursor)
  {
    match ContentLines.NextLine(src, cursor)
    case ReadError(c) => status == c && line.None?
    case EndOfInput => status == Ok && line.None?
    case Read(l, n) => status == Ok && line == Some(l) && next == n
  }

  /** `createCard` from the buffer: the header checks, then the loop over
      `lineIndex` that applies each line to a fresh Card until an error or END;
      on any error no card is returned. */
  method CreateCard(buffer: string) returns (status: ErrorCode, card: Card?)
    ensures match ReadCard(buffer)
            case Failure(e) => status == e && card == null
            case Success(v) => status == Ok && card != null && fresh(card) && card.Value() == v
  {
    var newCard := new Card();
    if |buffer| < MinCardLength {
      return InvCard, null;
    }
    var lineStatus, line, lineIndex := ContentLines.NextContentLine(buffer, 0);
    if lineStatus != Ok {
      return lineStatus, null;
    }
    if line.None? || StrcmpIC(line.value, "BEGIN:VCARD\r\n") != 0 {
      return InvCard, null;
    }
    var cursor := lineIndex;
    lineStatus, line, lineIndex := ContentLines.NextContentLine(buffer, cursor);
    if lineStatus != Ok {
      return lineStatus, null;
    }
    if line.None? || StrcmpIC(line.value, "VERSION:4.0\r\n") != 0 {
      return InvCard, null;
    }
    cursor := lineIndex;
    lineStatus, line, lineIndex := ContentLines.NextContentLine(buffer, cursor);
    ghost var goal := ReadBody(buffer, cursor, newCard.Value());
    var endFound := false;
    while lineStatus == Ok && line.Some?
      invariant ContentLines.ValidCursor(buffer, cursor)
      invariant ReadFrom(buffer, cursor, lineStatus, line, lineIndex)
      invariant ReadBody(buffer, cursor, newCard.Value()) == goal
      invariant !endFound
      decreases |buffer| + 1 - cursor
    {
      var stepStatus, end := newCard.ApplyLine(line.value);
      if stepStatus != Ok {
        // The source leaves the loop with this status and returns it.
        return stepStatus, null;
      }
      if end {
        endFound := true;
        break;
      }
      cursor := lineIndex;
      lineStatus, line, lineIndex := ContentLines.NextContentLine(buffer, cursor);
    }
    if lineStatus != Ok {
      return lineStatus, null;
    }
    if !endFound || newCard.fn.None? {
      return InvCard, null;
    }
    return Ok, newCard;
  }

  // ---------------------------------------------------------------------------
  // validateCard

  /** How many of `props` carry `name`, ignoring case. */
  function Occurrences(props: seq<Property>, name: string): nat
  {
    if props == [] then 0
    else (if SameIgnoringCase(props[0].name, name) then 1 else 0) + Occurrences(props[1..], name)
  }

  /** `validateProp` over a property list with one shared counter list: the first
      error, or the counters after every property has been counted. */
  function CountAll(nodes: seq<PNode>, props: seq<Property>): (r: Result<seq<PNode>>)
    ensures r.Failure? ==> r.error == InvProp || r.error == InvCard
    ensures r.Success? ==> |r.value| == |nodes|
    decreases |props|
  {
    if props == [] then Success(nodes)
    else
      match FindNode(nodes, props[0].name)
      case None => Failure(InvProp)
      case Some(i) =>
        var bumped := Bump(nodes, i);
        var verdict := PropVerdict(props[0], bumped[i].count);
        if verdict != Ok then Failure(verdict) else CountAll(bumped, props[1..])
  }

  /** A KIND property whose first value is `group`, ignoring case. */
  predicate IsKindGroup(p: Property)
  {
    SameIgnoringCase(p.name, "KIND") && |p.values| >= 1 && SameIgnoringCase(p.values[0], "group")
  }

  /** The outcome of the KIND loop: it passes on an empty list or when some KIND
      is `group`; otherwise the last iteration leaves INV_CARD. */
  function KindGroupVerdict(props: seq<Property>): ErrorCode
  {
    if props == [] || exists k :: 0 <= k < |props| && IsKindGroup(props[k]) then Ok else InvCard
  }

  /** The counter the MEMBER test reads: as written `countProperty` answers with
      the KIND counter; corrected it is the MEMBER counter. */
  function MemberCounter(reading: Reading): string
  {
    if reading == AsWritten then "KIND" else "MEMBER"
  }

  /** What `validateCard` answers for a card, in the source's order: the FN
      checks, every other property through `validateProp`, the MEMBER/KIND rule,
      then the birthday and the anniversary through `validateDT`. */
  function CardVerdictWith(c: CardValue, reading: Reading): (r: ErrorCode)
    ensures r == Ok ==> c.fn.Some? && |c.fn.value.values| <= 1 && SameIgnoringCase(c.fn.value.name, "FN")
    ensures r == Ok ==> CountAll(ZeroCounts(Registry), c.optional).Success?
    ensures r == Ok ==> (c.birthday.Some? ==> WellShaped(c.birthday.value))
                        && (c.anniversary.Some? ==> WellShaped(c.anniversary.value))
  {
    if c.fn.None? then InvCard
    else if |c.fn.value.values| > 1 then InvCard
    else if !SameIgnoringCase(c.fn.value.name, "FN") then InvCard
    else
      match CountAll(ZeroCounts(Registry), c.optional)
      case Failure(e) => e
      case Success(nodes) => CountedVerdict(c, nodes, reading)
  }

  /** The verdict once the properties have been counted into `nodes`. */
  function CountedVerdict(c: CardValue, nodes: seq<PNode>, reading: Reading): (r: ErrorCode)
    ensures r == Ok ==> (c.birthday.Some? ==> WellShaped(c.birthday.value))
                        && (c.anniversary.Some? ==> WellShaped(c.anniversary.value))
  {
    if CountOf(nodes, MemberCounter(reading)) != 0 && KindGroupVerdict(c.optional) != Ok then InvCard
    else if c.birthday.Some? && DTVerdict(c.birthday.value) != Ok then InvDt
    else if c.anniversary.Some? && DTVerdict(c.anniversary.value) != Ok then InvDt
    else Ok
  }

  /** The FN checks of `validateCard`: present, named FN, with at most one value. */
  predicate FnAccepted(c: CardValue)
  {
    c.fn.Some? && |c.fn.value.values| <= 1 && SameIgnoringCase(c.fn.value.name, "FN")
  }

  /** The MEMBER/KIND rule once the properties are counted into `nodes`. */
  predicate KindRuleHolds(c: CardValue, nodes: seq<PNode>, reading: Reading)
  {
    CountOf(nodes, MemberCounter(reading)) != 0 ==> KindGroupVerdict(c.optional) == Ok
  }

  /** Both dates, when present, have the shape `validateDT` accepts. */
  predicate DatesShaped(c: CardValue)
  {
    (c.birthday.Some? ==> WellShaped(c.birthday.value))
    && (c.anniversary.Some? ==> WellShaped(c.anniversary.value))
  }

  /** A card is valid exactly when its FN passes, every other property counts
      without error, the MEMBER/KIND rule holds and both dates are well shaped; a
      failing FN is INV_CARD, a counting error comes back unchanged, a broken
      MEMBER/KIND rule is INV_CARD and a badly shaped date is INV_DT. */
  lemma CardVerdictIff(c: CardValue, reading: Reading)
    ensures var counted := CountAll(ZeroCounts(Registry), c.optional);
            CardVerdictWith(c, reading) == Ok
            <==> FnAccepted(c) && counted.Success? && KindRuleHolds(c, counted.value, reading) && DatesShaped(c)
    ensures !FnAccepted(c) ==> CardVerdictWith(c, reading) == InvCard
    ensures var counted := CountAll(ZeroCounts(Registry), c.optional);
            FnAccepted(c) && counted.Failure? ==> CardVerdictWith(c, reading) == counted.error
    ensures var counted := CountAll(ZeroCounts(Registry), c.optional);
            FnAccepted(c) && counted.Success? && !KindRuleHolds(c, counted.value, reading) ==> CardVerdictWith(c, reading) == InvCard
    ensures var counted := CountAll(ZeroCounts(Registry), c.optional);
            FnAccepted(c) && counted.Success? && KindRuleHolds(c, counted.value, reading) && !DatesShaped(c)
            ==> CardVerdictWith(c, reading) == InvDt
  {
    if c.birthday.Some? {
      DTVerdictIsShape(c.birthday.value);
    }
    if c.anniversary.Some? {
      DTVerdictIsShape(c.anniversary.value);
    }
  }

  function CardVerdict(c: CardValue): ErrorCode
  {
    CardVerdictWith(c, AsWritten)
  }

  /** The KIND loop of `validateCard`. */
  method KindGroupStatus(props: seq<Property>) returns (status: ErrorCode)
    requires forall k :: 0 <= k < |props| ==> |props[k].values| >= 1
    ensures status == KindGroupVerdict(props)
  {
    status := Ok;
    var i := 0;
    while i < |props|
      invariant i <= |props|
      invariant forall k :: 0 <= k < i ==> !IsKindGroup(props[k])
      invariant status == (if i == 0 then Ok else InvCard)
    {
      status := InvCard;
      if StrcmpIC(props[i].name, "KIND") == 0 {
        if StrcmpIC(props[i].values[0], "group") == 0 {
          status := Ok;
          return;
        }
      }
      i := i + 1;
    }
  }

  /** `validateCard`: a missing card is INV_CARD; otherwise the card's verdict. */
  method ValidateCard(obj: Card?) returns (status: ErrorCode)
    ensures obj == null ==> status == InvCard
    ensures obj != null ==> status == CardVerdict(obj.Value())
  {
    if obj == null || obj.fn.None? {
      return InvCard;
    }
    var fn := obj.fn.value;
    if |fn.values| > 1 || StrcmpIC(fn.name, "FN") != 0 {
      return InvCard;
    }
    ghost var card := obj.Value();
    var counter := new PropertyCounter();
    counter.LoadPropertyCounter();
    assert counter.nodes == ZeroCounts(Registry);
    var props := obj.optionalProperties;
    var countStatus := CountProperties(counter, props);
    if countStatus != Ok {
      return countStatus;
    }
    ghost var nodes := counter.nodes;
    assert CountAll(ZeroCounts(Registry), card.optional) == Success(nodes);
    status := CheckCounted(counter, props, obj.birthday, obj.anniversary);
    assert status == CountedVerdict(card, nodes, AsWritten);
  }

  /** The rest of `validateCard` once every property has been counted: the
      MEMBER/KIND rule, then the dates. */
  method CheckCounted(counter: PropertyCounter, props: seq<Property>,
                      birthday: Option<DateTime>, anniversary: Option<DateTime>) returns (status: ErrorCode)
    requires forall k :: 0 <= k < |props| ==> |props[k].values| >= 1
    ensures status == CountedVerdict(CardValue(None, props, birthday, anniversary), counter.nodes, AsWritten)
  {
    var members := counter.CountProperty("MEMBER");
    if members != 0 {
      var kindStatus := KindGroupStatus(props);
      if kindStatus != Ok {
        return kindStatus;
      }
    }
    status := ValidateDates(birthday, anniversary);
  }

  /** The loop of `validateCard` that runs `validateProp` over the property list
      with one counter list, returning the first error. */
  method CountProperties(counter: PropertyCounter, props: seq<Property>) returns (status: ErrorCode)
    modifies counter
    ensures match CountAll(old(counter.nodes), props)
            case Failure(e) => status == e
            case Success(nodes) => status == Ok && counter.nodes == nodes
    ensures status == Ok ==> forall k :: 0 <= k < |props| ==> |props[k].values| >= 1
  {
    ghost var goal := CountAll(counter.nodes, props);
    var i := 0;
    while i < |props|
      invariant i <= |props|
      invariant CountAll(counter.nodes, props[i..]) == goal
      invariant forall k :: 0 <= k < i ==> |props[k].values| >= 1
    {
      var propStatus := counter.ValidateProp(props[i]);
      if propStatus != Ok {
        return propStatus;
      }
      assert props[i..][1..] == props[i + 1..];
      i := i + 1;
    }
    assert props[i..] == [];
    return Ok;
  }

  /** The date checks at the end of `validateCard`: the birthday, then the
      anniversary. */
  method ValidateDates(birthday: Option<DateTime>, anniversary: Option<DateTime>) returns (status: ErrorCode)
    ensures status == (if birthday.Some? && DTVerdict(birthday.value) != Ok then InvDt
                       else if anniversary.Some? && DTVerdict(anniversary.value) != Ok then InvDt
                       else Ok)
  {
    if birthday.Some? {
      var dateStatus := ValidateDT(birthday.value);
      if dateStatus != Ok {
        return dateStatus;
      }
    }
    if anniversary.Some? {
      var dateStatus := ValidateDT(anniversary.value);
      if dateStatus != Ok {
        return dateStatus;
      }
    }
    return Ok;
  }

  // ---------------------------------------------------------------------------
  // What the counters mean

  /** The search treats names that are equal ignoring case alike. */
  lemma {:induction false} FindSameLower(nodes: seq<PNode>, a: string, b: string, i: nat)
    requires i <= |nodes| && SameIgnoringCase(a, b)
    ensures FindFrom(nodes, a, i) == FindFrom(nodes, b, i)
    decreases |nodes| - i
  {
    if i < |nodes| {
      FindSameLower(nodes, a, b, i + 1);
    }
  }

  /** Raising the counter at `i` raises the count of exactly the names found at
      `i`, and the search finds every name where it did before. */
  lemma BumpCount(nodes: seq<PNode>, i: nat, name: string)
    requires i < |nodes|
    ensures FindNode(Bump(nodes, i), name) == FindNode(nodes, name)
    ensures CountOf(Bump(nodes, i), name) == CountOf(nodes, name) + (if FindNode(nodes, name) == Some(i) then 1 else 0)
  {
    var bumped := Bump(nodes, i);
    assert forall k :: 0 <= k < |nodes| ==> bumped[k].name == nodes[k].name;
    FindSameNames(nodes, bumped, name, 0);
  }

  /** The name at the front of the list is found where `name` is found exactly
      when the two are equal ignoring case. */
  lemma FoundTogether(nodes: seq<PNode>, i: nat, first: string, name: string)
    requires FindNode(nodes, first) == Some(i)
    ensures FindNode(nodes, name) == Some(i) <==> SameIgnoringCase(first, name)
  {
    if SameIgnoringCase(first, name) {
      FindSameLower(nodes, first, name, 0);
    }
  }

  /** Once every property has been validated, the counter of a registered name
      has grown by the number of properties that carry it. */
  lemma {:induction false} CountsMatch(nodes: seq<PNode>, props: seq<Property>, name: string)
    requires CountAll(nodes, props).Success? && FindNode(nodes, name).Some?
    ensures CountOf(CountAll(nodes, props).value, name) == CountOf(nodes, name) + Occurrences(props, name)
    decreases |props|
  {
    if props != [] {
      var i := FindNode(nodes, props[0].name).value;
      var bumped := Bump(nodes, i);
      BumpCount(nodes, i, name);
      FoundTogether(nodes, i, props[0].name, name);
      CountsMatch(bumped, props[1..], name);
    }
  }

  /** Among validated properties a singleton name occurs at most once. */
  lemma {:induction false} SingletonsBound(nodes: seq<PNode>, props: seq<Property>, name: string)
    requires CountAll(nodes, props).Success? && FindNode(nodes, name).Some?
    requires NamedAny(name, Singletons) && CountOf(nodes, name) >= 0
    ensures Occurrences(props, name) > 0 ==> CountOf(nodes, name) + Occurrences(props, name) <= 1
    decreases |props|
  {
    if props != [] {
      var i := FindNode(nodes, props[0].name).value;
      var bumped := Bump(nodes, i);
      BumpCount(nodes, i, name);
      FoundTogether(nodes, i, props[0].name, name);
      if SameIgnoringCase(props[0].name, name) {
        var k :| 0 <= k < |Singletons| && SameIgnoringCase(name, Singletons[k]);
        assert SameIgnoringCase(props[0].name, Singletons[k]);
        assert PropVerdict(props[0], bumped[i].count) == Ok;
      }
      SingletonsBound(bumped, props[1..], name);
    }
  }

  /** Every registered name starts at zero and is found. */
  lemma RegisteredStart(name: string)
    requires NamedAny(name, Registry)
    ensures FindNode(ZeroCounts(Registry), name).Some? && CountOf(ZeroCounts(Registry), name) == 0
  {
    LoadedRegistry(name);
  }

  /** A valid card has at most one KIND, N, GENDER, PRODID, REV and UID. */
  lemma ValidCardSingletons(c: CardValue, reading: Reading, name: string)
    requires CardVerdictWith(c, reading) == Ok && NamedAny(name, Singletons)
    ensures Occurrences(c.optional, name) <= 1
  {
    var k :| 0 <= k < |Singletons| && SameIgnoringCase(name, Singletons[k]);
    assert SameIgnoringCase(name, Registry[IndexOfSingleton(k)]);
    RegisteredStart(name);
    SingletonsBound(ZeroCounts(Registry), c.optional, name);
  }

  /** Where each singleton name sits in the registry. */
  function IndexOfSingleton(k: nat): (j: nat)
    requires k < |Singletons|
    ensures j < |Registry| && Registry[j] == Singletons[k]
  {
    [2, 5, 10, 25, 26, 28][k]
  }

  /** As written, the MEMBER rule fires on the KIND count: a valid card with a KIND
      has some KIND whose first value is `group`. */
  lemma ValidCardKindIsGroup(c: CardValue)
    requires CardVerdict(c) == Ok && Occurrences(c.optional, "KIND") > 0
    ensures exists k :: 0 <= k < |c.optional| && IsKindGroup(c.optional[k])
  {
    assert SameIgnoringCase("KIND", Registry[2]);
    RegisteredStart("KIND");
    CountsMatch(ZeroCounts(Registry), c.optional, "KIND");
  }

  /** Corrected, the rule of section 6.6.5 of RFC 6350 holds: a valid card with a
      MEMBER has some KIND whose first value is `group`. */
  lemma CorrectedMemberNeedsGroup(c: CardValue)
    requires CardVerdictWith(c, Corrected) == Ok && Occurrences(c.optional, "MEMBER") > 0
    ensures exists k :: 0 <= k < |c.optional| && IsKindGroup(c.optional[k])
  {
    assert SameIgnoringCase("MEMBER", Registry[21]);
    RegisteredStart("MEMBER");
    CountsMatch(ZeroCounts(Registry), c.optional, "MEMBER");
  }

  /** A card with an FN, an EMAIL and a birthday. */
  function EmailCard(): CardValue
  {
    CardValue(Some(Property("FN", "", [], ["Kevin"])), [Property("EMAIL", "", [], ["kevin@example.com"])],
              Some(DateTime(false, false, "19960415", "", "")), None)
  }

  /** That card is valid as the source reads it: the EMAIL is registered and
      counted once, no KIND is counted, and the birthday is a well-shaped date. */
  lemma EmailCardAccepted()
    ensures CardVerdict(EmailCard()) == Ok
  {
    var c := EmailCard();
    EmailCounted(c.optional);
    assert DTVerdict(c.birthday.value) == Ok;
  }

  lemma EmailCounted(props: seq<Property>)
    requires props == [Property("EMAIL", "", [], ["kevin@example.com"])]
    ensures CountAll(ZeroCounts(Registry), props).Success?
    ensures CountOf(CountAll(ZeroCounts(Registry), props).value, "KIND") == 0
  {
    EmailRegistered(props[0]);
    assert SameIgnoringCase("KIND", Registry[2]);
    RegisteredStart("KIND");
    CountsMatch(ZeroCounts(Registry), props, "KIND");
    assert !SameIgnoringCase("EMAIL", "KIND");
  }

  lemma EmailRegistered(p: Property)
    requires p == Property("EMAIL", "", [], ["kevin@example.com"])
    ensures FindNode(ZeroCounts(Registry), p.name).Some?
    ensures PropVerdict(p, 1) == Ok
  {
    assert SameIgnoringCase("EMAIL", Registry[13]);
    RegisteredStart("EMAIL");
    assert !SameIgnoringCase("EMAIL", "VERSION") && !SameIgnoringCase("EMAIL", "N") && !SameIgnoringCase("EMAIL", "ADR");
  }

  /** Counting the individual's card: one KIND, no MEMBER. */
  lemma IndividualCounted()
    ensures CountAll(ZeroCounts(Registry), IndividualCard().optional).Success?
    ensures CountOf(CountAll(ZeroCounts(Registry), IndividualCard().optional).value, "KIND") == 1
    ensures CountOf(CountAll(ZeroCounts(Registry), IndividualCard().optional).value, "MEMBER") == 0
    ensures KindGroupVerdict(IndividualCard().optional) != Ok
  {
    var props := IndividualCard().optional;
    IndividualKindCounted(props);
    IndividualMemberCounted(props);
    assert !SameIgnoringCase("individual", "group");
    assert !IsKindGroup(props[0]);
  }

  lemma IndividualKindCounted(props: seq<Property>)
    requires props == [Property("KIND", "", [], ["individual"])]
    ensures CountAll(ZeroCounts(Registry), props).Success?
    ensures CountOf(CountAll(ZeroCounts(Registry), props).value, "KIND") == 1
  {
    assert SameIgnoringCase("KIND", Registry[2]);
    RegisteredStart("KIND");
    CountsMatch(ZeroCounts(Registry), props, "KIND");
  }

  lemma IndividualMemberCounted(props: seq<Property>)
    requires props == [Property("KIND", "", [], ["individual"])]
    requires CountAll(ZeroCounts(Registry), props).Success?
    ensures CountOf(CountAll(ZeroCounts(Registry), props).value, "MEMBER") == 0
  {
    assert SameIgnoringCase("MEMBER", Registry[21]);
    RegisteredStart("MEMBER");
    CountsMatch(ZeroCounts(Registry), props, "MEMBER");
    assert !SameIgnoringCase("KIND", "MEMBER");
  }

  /** An individual's card (one KIND, no MEMBER) is rejected as written. */
  lemma IndividualKindRejected()
    ensures CardVerdict(IndividualCard()) == InvCard
  {
    IndividualCounted();
  }

  /** The same card is accepted once the MEMBER counter is read. */
  lemma IndividualKindAcceptedCorrected()
    ensures CardVerdictWith(IndividualCard(), Corrected) == Ok
  {
    IndividualCounted();
  }

  function IndividualCard(): CardValue
  {
    CardValue(Some(Property("FN", "", [], ["Kevin"])), [Property("KIND", "", [], ["individual"])], None, None)
  }
}
