# vCard 4.0 text engine — a Dafny model

This project models the text engine of the C library `vcf-parser`, which
reads, validates, writes and converts vCard 4.0 cards (RFC 6350). The engine
starts from a card file that has already been read into memory as a string and
works as follows:

- **Content lines.** The file is cut into logical content lines and unfolded as
  described in section 3.2 of RFC 6350 (`nextContentLine`).
- **Tokenizing.** Each line is split into group, name, parameters and values
  following the grammar of section 3.3 of RFC 6350 (`extractGroup`,
  `extractProp`, `parseParameters`, `parsePropertyValues`, `newProperty`).
- **Dates.** BDAY and ANNIVERSARY values are decoded into the library's
  `DateTime` record (`newDate`).
- **Card construction.** A card is built line by line (`createCard`).
- **Validation.** A card is checked against a fixed registry of 36 property
  names with singleton and arity rules (`validateProp`, `validateDT`,
  `validateParam`, `validateCard`).
- **Writing.** A card is written back out as content lines (`writeProperty`,
  `paramListToString`, `propListToString`, `writeDateTime`,
  `writeOptionalProps`).
- **JSON.** String lists, properties, date-times and a minimal card are
  converted to and from a small JSON form.
- **Debug printing.** There are debug printers and comparators for the card's
  records.

Every C function is modelled as follows:

- **Loops.** A C function that works with an index loop becomes a Dafny
  `method` with the same loop. The method's `ensures` ties its outputs to a pure
  specification function. Lemmas about those functions state the round trips,
  invariants and error cases the library promises.
- **Objects.** The card under construction (`Card`), the property counter list
  (`PropertyCounter`) and the output file (`CardFile`) are classes whose methods
  update their fields.
- **Data.**
  - C strings are `seq<char>` of the characters before the terminating NUL.
  - A NULL pointer at an API boundary is `None`.
  - The library's linked lists are sequences, kept in list order.
- **Error codes.** Errors are the library's own codes: `OK`, `INV_FILE`,
  `INV_CARD`, `INV_PROP`, `INV_DT`, `WRITE_ERROR` and `OTHER_ERROR`.
- **Defects.** Where the source has a defect, the engine reproduces it. In
  DateHelper, Validation/CardEngine and the JSON decoders, a `Reading`
  parameter (`AsWritten` or `Corrected`) selects the behaviour. `AsWritten` is
  what the source does, and it is what the card engine and the methods use.
  `Corrected` is the evidently intended behaviour. Lemmas show the discrepancy
  under `AsWritten` and prove the intended property under `Corrected` (see
  "Findings").

Modules, one per source file or concern:

| module | file | models |
|---|---|---|
| `VCardTypes` | types.dfy | `Property`, `Parameter`, `DateTime`, error codes, result types |
| `Text` | text.dfy | `strcmpIC`, `compareString` |
| `ContentLines` | lines.dfy | `nextContentLine` |
| `Tokenizer` | tokenizer.dfy | `extractGroup`, `extractProp`, `parseParameters`, `parsePropertyValues` |
| `PropertyHelper` | properties.dfy | `newProperty`, `createProperty` |
| `DateHelper` | dates.dfy | `newDate` |
| `Validation` | validation.dfy | `validateProp`, `validateParam`, `validateDT`, `loadPropertyCounter`, `countProperty`, `nodeNameCmp` |
| `Writer` | writer.dfy | `openFileWrite`'s extension test, `writeProperty`, `paramListToString`, `propListToString`, `writeOptionalProps`, `writeDateTime` |
| `RoundTrip` | roundtrip.dfy | the writer followed by the tokenizer and the date decoder |
| `CardEngine` | card.dfy | `initializeCard`, `createCard`, `validateCard` |
| `Printing` | printing.dfy | `printError`, `printDate`, `printProperty`, `compareProperties`, `printParameter`, `compareParameters` |
| `JsonScan` | json_scan.dfy | the scanning loops shared by the JSON decoders |
| `JsonLists` | json_lists.dfy | `strListToJSON`, `JSONtoStrList` |
| `JsonProps` | json_props.dfy | `propToJSON`, `JSONtoProp` |
| `JsonDates` | json_dates.dfy | `dtToJSON`, `JSONtoDT`, `JSONtoCard` |

## Model

| member | source | states |
|---|---|---|
| Text.Lower | src/ParseHelper.c:51-83 | The lowered copy has the same length, and each character is the ASCII lower-case of the original one. |
| Text.StrcmpZeroIffEqual | src/ParseHelper.c:40-43 | The `strcmp` sign is 0 exactly when the strings are equal. |
| Text.StrcmpAntisymmetric | src/ParseHelper.c:40-43 | Swapping the operands of `strcmp` flips the sign. |
| Text.CompareString | src/ParseHelper.c:40-43 | `compareString` yields 0 exactly when the two strings are equal. |
| Text.StrcmpIC | src/ParseHelper.c:51-83 | `strcmpIC` yields a sign in -1..1, and 0 exactly when the strings are equal after ASCII lower-casing. |
| Text.StrcmpICAntisymmetric | src/ParseHelper.c:51-83 | Swapping the operands of `strcmpIC` flips the sign. |
| ContentLines.Scan | src/ParseHelper.c:278-334 | The unfolding scan moves the cursor forward. A line that ends before the end of the buffer ends just after an LF. |
| ContentLines.NextLine | src/ParseHelper.c:240-345 | A buffer under 20 characters gives INV_FILE. A cursor at or past the end gives OK with no line. The only other errors are INV_FILE and INV_PROP. A line moves the cursor forward, to a valid cursor just past an LF. |
| ContentLines.NextContentLine | src/ParseHelper.c:240-345 | The cursor loop yields the status, the line and the new cursor that `NextLine` specifies. On an error or at the end, the cursor is left unchanged. |
| ContentLines.LineKeepsCRLF | src/ParseHelper.c:290-327 | A logical line that is not the buffer's tail keeps its own final CRLF. |
| ContentLines.FoldRoundTrip | src/ParseHelper.c:290-327 | Inserting CRLF plus one space or tab into a line, then unfolding, gives the line back with its CRLF, and the cursor stops just past that CRLF. |
| ContentLines.BareBreakRejected | src/ParseHelper.c:280-289 | An LF not preceded by CR, or a CR not followed by LF, before the line's end gives INV_PROP. |
| Tokenizer.SplitGroup | src/ParseHelper.c:147-208 | An empty line gives OTHER_ERROR. Otherwise a group exists only when the first `.`, `:` or `;` is a dot. Then line == group + "." + rest, and the group holds none of the three. With no group, the line is unchanged. |
| Tokenizer.ExtractGroup | src/ParseHelper.c:147-208 | The scanning method yields the status, group and remaining line that `SplitGroup` specifies. |
| Tokenizer.GroupRoundTrip | src/ParseHelper.c:147-208 | A group free of `.`, `:` and `;`, written before a dot, is split off again, and the rest is unchanged. |
| Tokenizer.NoGroupKeepsLine | src/ParseHelper.c:147-208 | A line whose first separator is `:` or `;` has no group and is kept whole. |
| Tokenizer.NameLength | src/ParseHelper.c:89-141 | The name is the longest leading run of letters and `-`. |
| Tokenizer.SplitName | src/ParseHelper.c:89-141 | The line is refused, with INV_PROP, exactly when it is empty, is all name characters, or is not an END line and neither ends in LF nor has CR as its next-to-last character. On success, line == name + rest, the name is all name characters, and the rest is non-empty and starts with a non-name character. |
| Tokenizer.ExtractProp | src/ParseHelper.c:89-141 | The scanning method yields the status, name and remaining line that `SplitName` specifies. |
| Tokenizer.NameRoundTrip | src/ParseHelper.c:89-141 | A name followed by a non-name character and a line ending in LF is split back into that name and rest. |
| Tokenizer.EndNameSkipsLineEnd | src/ParseHelper.c:106-140 | A line whose name is END (any case) is never rejected for its line ending. |
| Tokenizer.ParamsAt | src/ParseHelper.c:421-528 | Errors are INV_PROP. On success, the remaining line is empty or starts at the `:`, and it is non-empty when the input was. |
| Tokenizer.ParamsAtRejects | src/ParseHelper.c:431-527 | The parameter reader gives INV_PROP for a character other than `;` or `:` where an entry starts, for no `=`, for an empty name, for an empty value, and for a value with no `:` or `;` after it. |
| Tokenizer.ParamsStep | src/ParseHelper.c:431-527 | One `;name=value` entry is read, in encounter order, before the entries after it. |
| Tokenizer.ParseParameters | src/ParseHelper.c:421-528 | The parameter loop yields the parameter list and cut line that `ParamsAt` specifies, or its error. |
| Tokenizer.NoParamsKeepsLine | src/ParseHelper.c:421-528 | A line that starts with `:` has no parameters and is kept whole. |
| Tokenizer.ScanTo | src/ParseHelper.c:431-527 | The scan stops at the first occurrence of the separator, or at the end. |
| Tokenizer.ScanTo2 | src/ParseHelper.c:431-527 | The scan stops at the first occurrence of either separator, or at the end. |
| Tokenizer.JoinSplitAt | src/ParseHelper.c:538-603 | Joining the `;`-split pieces of a body with `;` gives the body back. |
| Tokenizer.SplitJoinAt | src/ParseHelper.c:538-603 | Splitting a `;`-join of values that contain no `;` gives the values back. |
| Tokenizer.ScanValue | src/ParseHelper.c:538-603 | The value scan stops at the next `;` or at the line end. |
| Tokenizer.ParsePropertyValues | src/ParseHelper.c:530-604 | The values are the body after one leading `:`, cut at CR/LF and split on `;`. A trailing `;` adds an empty value, and an empty body gives none. |
| PropertyHelper.PropertyFrom | src/PropertyHelper.c:18-107 | A NULL name or line gives exactly OTHER_ERROR. Any other failure is INV_PROP from the parameter parser. On success, the name is copied, the group is copied, and a NULL group becomes "". |
| PropertyHelper.NewProperty | src/PropertyHelper.c:18-107 | The method yields the status and property that `PropertyFrom` specifies. No property is returned on error. |
| RoundTrip.PropertyFromText | src/PropertyHelper.c:94-104 | `newProperty` yields the parameters `ps` exactly when the line opens with the written text of well-formed `ps` followed by `:`. The values are then read from that `:` on. |
| PropertyHelper.EmptyBodyAccepted | src/PropertyHelper.c:100-106 | A line with an empty body gives a property with zero values: `newProperty` does not reject it. |
| PropertyHelper.CreateProperty | src/PropertyHelper.c:110-119 | The new property has empty parameter and value lists. |
| DateHelper.TextShape | src/DateHelper.c:89-113 | A text value has empty date and time and no UTC, and its text holds no `:`, `;` or CR. |
| DateHelper.StructuredShape | src/DateHelper.c:115-156 | A structured value has empty text and at most 6 time characters. Its date holds no T/t/Z/z/CR. |
| DateHelper.CrossCheck | src/DateHelper.c:169-174 | Only a text value with both a date and a time is rejected, with INV_PROP. Otherwise the value passes unchanged. |
| DateHelper.DecodeWith | src/DateHelper.c:14-179 | Failures are exactly a parameter error or a value without a leading `:`, with INV_PROP. A text result has empty date and time and no UTC. A structured result has empty text and a time of at most 6 characters. |
| DateHelper.CopyText | src/DateHelper.c:89-113 | The copy loop takes the text up to the first `:`, `;`, CR or the end. |
| DateHelper.CopyDate | src/DateHelper.c:117-124 | The copy loop takes the date up to the first T/t/Z/z/CR or the end. |
| DateHelper.CopyTime | src/DateHelper.c:126-151 | The time copy loop yields the time and stop position that `ReadTime` specifies, with `-` doubled while room remains. |
| DateHelper.TextTest | src/DateHelper.c:69-91 | The value is text when the first parameter asks for it, or when the heuristic selects it. |
| DateHelper.CopyStructured | src/DateHelper.c:115-156 | The structured copy yields `StructuredShape` as written. UTC is set exactly when copying stopped at Z/z. |
| DateHelper.NewDate | src/DateHelper.c:14-179 | The method yields the status and date-time that `DecodeDate` specifies. |
| DateHelper.TextTestSeesOneCharacter | src/DateHelper.c:82-91 | As written, ":1st century" is decoded as a structured date "1s" with time " centu". |
| DateHelper.TimeTakesLineEnd | src/DateHelper.c:126-151 | As written, a 4-digit time followed by CRLF captures the CRLF into the time. |
| DateHelper.CorrectedStructuredHasNoLetters | src/DateHelper.c:82-91 | Under the corrected heuristic, a structured result never contains a letter other than t/T/z/Z. |
| DateHelper.CorrectedTimeStopsAtLineEnd | src/DateHelper.c:126-151 | Under the corrected time copy, no decoded time contains a CR. |
| Validation.ZeroCounts | src/ValidationHelper.c:135-173 | The counter list has one zero-count node per registry name, in registry order. |
| Validation.NodeNameCmp | src/ValidationHelper.c:217-225 | A node matches a name exactly when the names are equal ignoring case. |
| Validation.FindFrom | src/ValidationHelper.c:20-26 | The search finds the first node whose name matches ignoring case, or reports that none does. |
| Validation.PropVerdict | src/ValidationHelper.c:28-57 | The verdict is INV_CARD exactly for VERSION. It is OK exactly when all of these hold: N has 5 values; ADR has 7; a singleton has been counted at most once; there is at least one value; and several values occur only for the multi-valued names. |
| Validation.PropertyCounter.constructor | src/ValidationHelper.c:135-173 | A new counter list is empty. |
| Validation.PropertyCounter.LoadPropertyCounter | src/ValidationHelper.c:135-173 | Loading appends the 36 registry names with count 0. |
| Validation.PropertyCounter.ValidateProp | src/ValidationHelper.c:13-60 | An unregistered name gives INV_PROP and leaves the counts unchanged. Otherwise the name's count is bumped before any other check, and the status is `PropVerdict` on the new count. |
| Validation.PropertyCounter.CountProperty | src/ValidationHelper.c:175-189 | Whatever the name asked for, the result is the KIND counter, or 0. |
| Validation.SingletonsListed | src/ValidationHelper.c:40-44 | The singleton names are exactly KIND, N, GENDER, PRODID, REV and UID (any case). |
| Validation.MultiValuedListed | src/ValidationHelper.c:46-57 | The names allowing several values are exactly N, NICKNAME, PHOTO, GENDER, ADR, TEL, ORG, CATEGORIES and CLIENTPIDMAP. |
| Validation.BumpCountsOnce | src/ValidationHelper.c:26 | Bumping a name's node adds one to that name's count and leaves every other name's count unchanged. |
| Validation.LoadedRegistry | src/ValidationHelper.c:137-172 | After loading, a name is found exactly when it is registered, and its count is 0. |
| Validation.CountPropertyIgnoresName | src/ValidationHelper.c:175-189 | With one KIND and no MEMBER counted, asking for MEMBER still gives 1 while the MEMBER node holds 0. |
| Validation.ValidateParam | src/ValidationHelper.c:62-74 | The result is OK exactly for a non-NULL parameter whose name and value are non-empty, and INV_PROP otherwise. |
| Validation.DTVerdict | src/ValidationHelper.c:76-133 | The verdict is OK or INV_DT. |
| Validation.DTVerdictIsShape | src/ValidationHelper.c:76-133 | OK holds exactly for a well-shaped value. A text value needs non-empty text, no UTC, and no date or time. A structured value needs a date or a time, each of which, when present, is at least 2 digits or dashes and does not end in `-`; its text must be empty. |
| Validation.CheckPart | src/ValidationHelper.c:94-121 | The character loop accepts exactly an empty part, or one of at least 2 digits or dashes that does not end in `-`. |
| Validation.ValidateDT | src/ValidationHelper.c:76-133 | The method returns `DTVerdict`, and OK exactly for a well-shaped value. |
| Writer.CardFile.constructor | src/WriteCardHelper.c:13-34 | A freshly opened output file is empty. |
| Writer.OpenFileWrite | src/WriteCardHelper.c:13-34 | The result is OK exactly when a name is given, the file opens, and the name ends in "vcf" or "vcard" (case-sensitive, no dot needed). Otherwise it is WRITE_ERROR. |
| Writer.ParamTextSnoc | src/WriteCardHelper.c:100-106 | Each further parameter appends `;name=value`, in list order. |
| Writer.ParamListToString | src/WriteCardHelper.c:95-109 | The loop appends `;name=value` for each parameter, in order and unescaped. |
| Writer.TerminatedIsJoin | src/WriteCardHelper.c:82-90 | Values each followed by `;` are their `;`-join plus one `;`, which the last-character removal drops. |
| Writer.PropListToString | src/WriteCardHelper.c:77-93 | The loop appends `:` and the values joined by `;`. For an empty list, the removal deletes the `:` itself. |
| Writer.BuildLine | src/WriteCardHelper.c:52-69 | The line is the group with a dot when present, then the name, the parameters and the values. |
| Writer.WriteProperty | src/WriteCardHelper.c:36-74 | A NULL file or property gives WRITE_ERROR and writes nothing. Otherwise the file grows by exactly the property line plus CRLF. |
| Writer.PropsTextStep | src/WriteCardHelper.c:122-126 | The written text of a list grows by one line per property, in list order. |
| Writer.WriteOptionalProps | src/WriteCardHelper.c:111-129 | Each property is written in list order: the file grows by exactly their lines. A NULL list or file gives WRITE_ERROR. |
| Writer.DateText | src/WriteCardHelper.c:131-175 | The only failure is WRITE_ERROR, for a structured value with empty date and time. |
| Writer.WriteDateTime | src/WriteCardHelper.c:131-175 | Success appends the `DateText` text to the line. Failure leaves the line unchanged. |
| RoundTrip.EntryRead | src/ParseHelper.c:431-527 | A written `;name=value` entry is read back as that parameter by `parseParameters`. |
| RoundTrip.ParamsAtText | src/ParseHelper.c:421-528 | Parameters written by `paramListToString` are read back in order, and the line is cut at the values' `:`. |
| RoundTrip.ParamsAtSound | src/ParseHelper.c:421-528 | Whatever the parameter reader accepts is a run of well-formed `;name=value` entries, spelt as `paramListToString` writes them, followed by the rest of the line. The rest is empty only when there are no entries. |
| RoundTrip.ParamsAtExact | src/ParseHelper.c:421-528 | The parameter reader yields `ps` and `rest` if and only if the line is the written text of well-formed `ps` followed by `rest`, and `rest` starts with `:` (or is empty, with no parameters). |
| RoundTrip.ValuesRoundTrip | src/ParseHelper.c:530-604 | Values written by `propListToString` (no `;`, CR or LF inside) are read back by `parsePropertyValues`. |
| RoundTrip.PropertyRoundTrip | src/PropertyHelper.c:18-107 | The written parameters and values of a property are read back by `newProperty` into the same property. |
| RoundTrip.NoValuesNotReadBack | src/WriteCardHelper.c:82-90 | A property with no values is written without its `:`, and `newProperty` rejects that with INV_PROP. |
| RoundTrip.StructuredText | src/WriteCardHelper.c:143-172 | A structured value is written as `:` + date, then `T` + time when present, then `Z` when UTC. |
| RoundTrip.DateRoundTrip | src/DateHelper.c:14-179 | A well-formed structured value written by `writeDateTime` is decoded back to itself. As written, this needs UTC, no time, or a 6-digit time; under the corrected reading it always holds. |
| RoundTrip.TextRoundTrip | src/WriteCardHelper.c:133-142 | A text value written with `;Value=Text:` is decoded back as that text. UTC, which the writer ignores, comes back false. |
| RoundTrip.StructuredNoHint | src/DateHelper.c:82-91 | A written structured value never triggers the text heuristic. |
| CardEngine.Card.constructor | src/CardHelper.c:12-31 | A new card has no FN, birthday or anniversary, and an empty optional list. |
| CardEngine.Card.ApplyLine | src/VCardParser.c:241-365 | Applying one content line updates the card to what `StepLine` specifies, and sets the END flag exactly when it meets END. |
| CardEngine.Card.ApplyProperty | src/VCardParser.c:255-354 | Applying one tokenized property updates the card to what `Dispatch` specifies. |
| CardEngine.Dispatch | src/VCardParser.c:255-354 | A nested BEGIN, a second BDAY and a second ANNIVERSARY each give INV_CARD. An empty name gives INV_PROP. END is recognised exactly for `:VCARD` (with optional CRLF, any case), and any other END line is INV_CARD. A continued card only extends the old one, and the card's shape invariant is kept. |
| CardEngine.FirstDateStored | src/VCardParser.c:255-299 | A first BDAY or ANNIVERSARY is decoded into its own slot whatever its group, and nothing else changes. A decoding error stops the card with that error. |
| CardEngine.PropertyLineRule | src/VCardParser.c:325-354 | Any other non-empty name continues the card exactly when `newProperty` builds the property and it has a value (5 for N, 7 for ADR). A `newProperty` error comes back unchanged. The first FN becomes the card's FN, and every other property is appended. |
| CardEngine.StepLine | src/VCardParser.c:241-365 | Each line either stops with an error, finds END, or extends the card, keeping its shape invariant. |
| CardEngine.ReadBody | src/VCardParser.c:238-387 | Running out of lines before END gives INV_CARD. At the END line a card without FN gives INV_CARD, and one with an FN is the result. A successful body extends the starting card, and errors are never OK. |
| CardEngine.ReadCard | src/VCardParser.c:150-388 | A buffer under 40 characters gives INV_CARD, and so does a first line other than `BEGIN:VCARD`. A card is only produced when the first two lines are `BEGIN:VCARD` and `VERSION:4.0`. It always has an FN and keeps the shape invariant. Errors return no card. |
| CardEngine.MinimalCardRead | src/VCardParser.c:150-388 | The smallest card (`BEGIN`, `VERSION`, one FN line and `END`) is read into a card whose FN holds that value, with no other property and no date. |
| CardEngine.MissingEndRejected | src/VCardParser.c:368-377 | The same card without its END line gives INV_CARD. |
| CardEngine.FnLineStep | src/VCardParser.c:325-350 | An `FN:` line with one value sets the FN of an empty card. |
| CardEngine.EndLineStep | src/VCardParser.c:300-315 | An `END:VCARD` line ends the card. |
| CardEngine.CreateCard | src/VCardParser.c:150-388 | The header checks and the cursor loop yield the status and card that `ReadCard` specifies (its header, END and FN rules above). On error, no card is returned. |
| CardEngine.CountAll | src/VCardParser.c:40-59 | Counting the optional properties keeps one node per registry name. An unregistered name or a failed property check stops it, with INV_PROP or INV_CARD. |
| CardEngine.CardVerdictWith | src/VCardParser.c:17-99 | An OK card has an FN named FN with at most one value, optional properties that all validate, and well-shaped birthday and anniversary. |
| CardEngine.CardVerdictIff | src/VCardParser.c:17-99 | A card validates if and only if its FN passes, every other property counts without error, the MEMBER/KIND rule holds, and both dates are well shaped. A failed FN check gives INV_CARD, a counting error comes back unchanged, a broken MEMBER/KIND rule gives INV_CARD, and a badly shaped date gives INV_DT. |
| CardEngine.EmailCardAccepted | src/VCardParser.c:17-99 | A card with an FN, one EMAIL and a well-formed birthday validates as the source reads it. |
| CardEngine.CountedVerdict | src/VCardParser.c:61-98 | An OK verdict after counting implies well-shaped birthday and anniversary. |
| CardEngine.KindGroupStatus | src/VCardParser.c:61-82 | The loop over the properties yields `KindGroupVerdict`: OK exactly when some KIND property's first value is "group". |
| CardEngine.ValidateCard | src/VCardParser.c:17-99 | A NULL card gives INV_CARD. Otherwise the status is the card's verdict as written, which `CardVerdictIff` characterizes. |
| CardEngine.CheckCounted | src/VCardParser.c:61-98 | After counting, the MEMBER/KIND rule and then the dates are checked as written. |
| CardEngine.CountProperties | src/VCardParser.c:40-59 | The optional properties are validated in order, and the counter list becomes `CountAll`'s counts. Success implies every property has a value. |
| CardEngine.ValidateDates | src/VCardParser.c:86-98 | The birthday is checked first, then the anniversary. The first bad one gives INV_DT. |
| CardEngine.CountsMatch | src/ValidationHelper.c:26 | After counting, a name's counter equals its starting count plus its number of occurrences. |
| CardEngine.SingletonsBound | src/ValidationHelper.c:40-44 | Counting succeeds only if a singleton occurs at most once overall. |
| CardEngine.ValidCardSingletons | src/VCardParser.c:40-59 | A card that validates holds each singleton property at most once. |
| CardEngine.ValidCardKindIsGroup | src/VCardParser.c:61-82 | As written, a card that validates and has a KIND property has a KIND whose first value is "group". |
| CardEngine.CorrectedMemberNeedsGroup | src/VCardParser.c:61-82 | Under the corrected counter, a card that validates and has a MEMBER property has a KIND "group" property. |
| CardEngine.IndividualCounted | src/ValidationHelper.c:175-189 | The card with `KIND:individual` counts one KIND and no MEMBER, and fails the group test. |
| CardEngine.IndividualKindRejected | src/VCardParser.c:61-82 | As written, a card with `KIND:individual` and no MEMBER is rejected with INV_CARD. |
| CardEngine.IndividualKindAcceptedCorrected | src/VCardParser.c:61-82 | Under the corrected counter, that card validates. |
| Printing.PrintError | src/VCardParser.c:1097-1144 | Each code prints as its own constant name in capitals and underscores. "OK" is printed exactly for OK. |
| Printing.PrintErrorRoundTrip | src/VCardParser.c:1097-1144 | The code can be recovered from its printed name. |
| Printing.PrintErrorInjective | src/VCardParser.c:1097-1144 | Distinct codes print differently. |
| Printing.PrintDate | src/VCardParser.c:1389-1425 | NULL prints "NULL". A text value prints its text. A structured value prints the date, then `T` and the time when present. |
| Printing.PrintedDateIsWritten | src/VCardParser.c:1389-1425 | The printed date is exactly what `writeDateTime` writes, without the `:` and the `Z` (or without `;Value=Text:` for text). |
| Printing.PrintProperty | src/VCardParser.c:1208-1269 | NULL prints "NULL". Otherwise the output is the group, the name, the rendered parameters and the rendered values, with no separators. |
| Printing.GroupRunsIntoName | src/VCardParser.c:1208-1269 | With no dot after the group, a grouped property prints the same as an ungrouped one whose name starts with the group. |
| Printing.CompareProperties | src/VCardParser.c:1178-1203 | NULL sorts first. The result is 0 exactly when both are NULL or both print the same. |
| Printing.ComparePropertiesAntisymmetric | src/VCardParser.c:1178-1203 | Swapping the operands flips the sign. |
| Printing.PrintParameter | src/VCardParser.c:1314-1343 | NULL prints "NULL". Otherwise the output is the name directly followed by the value. |
| Printing.CompareParameters | src/VCardParser.c:1281-1313 | NULL sorts first. The result is 0 exactly when both are NULL, or both print the same ignoring case. |
| Printing.CompareParametersAntisymmetric | src/VCardParser.c:1281-1313 | Swapping the operands flips the sign. |
| JsonScan.CopyUntil | src/VCardParser.c:781-953 | The shared skip-and-copy loop stops where `Seek` says and copies exactly what it passed. |
| JsonScan.SeekSkips | src/VCardParser.c:781-953 | A scan over a stretch of non-stop characters continues where the stretch ends. |
| JsonLists.AppendEscaped | src/VCardParser.c:418-429 | Copying a string into the JSON escapes each `"` and only that character. |
| JsonLists.ItemsJoined | src/VCardParser.c:390-445 | The comma-terminated items are the comma-joined items plus one comma, which the encoder overwrites with `]`. |
| JsonLists.StrListToJSON | src/VCardParser.c:390-445 | The output is `[`, the quoted and escaped strings joined by commas, and `]`. |
| JsonLists.JSONtoStrList | src/VCardParser.c:447-532 | The decoding loop yields `StrListDecode` as written. |
| JsonLists.ValueRead | src/VCardParser.c:469-520 | One written quoted value is read back as that string. |
| JsonLists.ItemsRead | src/VCardParser.c:469-520 | All written values are read back in order. |
| JsonLists.ListRoundTrip | src/VCardParser.c:390-532 | A non-empty list of strings without `\` is read back by the decoder. As written, the strings must also lack `]`; under the corrected reading they need not. |
| JsonLists.EmptyListNotReadBack | src/VCardParser.c:457-461 | The empty list is written as `[]`, which the decoder rejects. |
| JsonLists.BracketEndsList | src/VCardParser.c:469 | As written, `["a]b"]` decodes to an empty list. Under the corrected reading it decodes to `["a]b"]`. |
| JsonProps.PropToJSON | src/VCardParser.c:534-568 | NULL gives "". Otherwise the output is the group, name and values object. |
| JsonProps.GroupEnd | src/VCardParser.c:600-628 | The group scan ends inside the string. |
| JsonProps.PropFromJSON | src/VCardParser.c:570-701 | A decoded property has no parameters and a non-empty name. |
| JsonProps.NamePart | src/VCardParser.c:630-680 | The name part keeps the group already read and yields a non-empty name. |
| JsonProps.ValuesPart | src/VCardParser.c:681-700 | The values part keeps the group and name and adds only the values. |
| JsonProps.JSONtoProp | src/VCardParser.c:570-701 | The decoding method yields `PropFromJSON` as written. |
| JsonProps.GroupFrom | src/VCardParser.c:600-628 | The group loop yields `GroupEnd` and copies the group. |
| JsonProps.NameFrom | src/VCardParser.c:630-680 | The name loop yields `NamePart`. |
| JsonProps.ValuesFrom | src/VCardParser.c:681-700 | The values step yields `ValuesPart`. |
| JsonProps.NameAtEnd | src/VCardParser.c:630-680 | A name scan that starts at the closing characters never succeeds. |
| JsonProps.AsWrittenNeverGrouped | src/VCardParser.c:624 | As written, every decoded property has an empty group. |
| JsonProps.PropRoundTrip | src/VCardParser.c:534-701 | Under the corrected reading (or with an empty group), a property without quotes or backslashes in its fields decodes back with its group, name and values. Parameters, which the encoder omits, come back empty. |
| JsonProps.GroupedPropRejected | src/VCardParser.c:624 | As written, the JSON of a property with a non-empty group is rejected. |
| JsonDates.DtToJSON | src/VCardParser.c:703-768 | NULL gives "". Otherwise the output is the isText/date/time/text/isUTC object. |
| JsonDates.TextFlag | src/VCardParser.c:781-822 | The isText flag is true for "true" in any case, and false for "false" in any case. Anything else is rejected. |
| JsonDates.UtcFlag | src/VCardParser.c:924-953 | The isUTC flag is true for "true" in any case, but false only for lower-case "false". |
| JsonDates.FlagCaseAsymmetry | src/VCardParser.c:945-947 | "FALSE" is accepted as the isText flag but rejected as the isUTC flag. "TRUE" is accepted for both. |
| JsonDates.DtFromJSON | src/VCardParser.c:770-958 | A decoded date has at most 8 characters and a decoded time at most 6. |
| JsonDates.DateStep | src/VCardParser.c:825-856 | A decoded date has at most 8 characters. |
| JsonDates.TimeStep | src/VCardParser.c:858-885 | A decoded time has at most 6 characters. |
| JsonDates.TimeCut | src/VCardParser.c:858-885 | A quote-free time longer than 6 characters is cut to its first 6, and the scan stops inside it. |
| JsonDates.JSONtoDT | src/VCardParser.c:770-958 | The decoding method yields `DtFromJSON`. |
| JsonDates.FlagFrom | src/VCardParser.c:781-822 | The flag loop yields `FlagStep`. |
| JsonDates.DateFrom | src/VCardParser.c:825-856 | The date loop yields `DateStep`. |
| JsonDates.TimeFrom | src/VCardParser.c:858-885 | The time loop yields `TimeStep`. |
| JsonDates.TextFrom | src/VCardParser.c:887-921 | The text loop yields `TextStep`. |
| JsonDates.UtcFrom | src/VCardParser.c:924-953 | The UTC loop yields `UtcStep`. |
| JsonDates.TextRoundTrip | src/VCardParser.c:703-958 | A text value without quotes is decoded back with empty date and time and UTC false, which the encoder writes for text. |
| JsonDates.StructRoundTrip | src/VCardParser.c:703-958 | A structured value without quotes, with a date of at most 8 and a time of at most 6 characters, is decoded back with empty text. |
| JsonDates.DtRoundTrip | src/VCardParser.c:703-958 | Decoding the encoding of any such value gives its normalised form. |
| JsonDates.LongDateRejected | src/VCardParser.c:825-856 | The JSON of a structured value whose date is longer than 8 characters is rejected. |
| JsonDates.CardFromJSON | src/VCardParser.c:960-1038 | A decoded card has only an FN, with an empty group and one value, and no optional properties or dates. |
| JsonDates.JSONtoCard | src/VCardParser.c:960-1038 | The decoding method yields `CardFromJSON`. |
| JsonDates.CardRoundTrip | src/VCardParser.c:960-1038 | `{"name":"value"}` with quote-free name and value decodes to a card whose FN property has that name and that one value. |

## Left out

- File I/O is not modelled: `openFileRead`, `readVCard`'s `fgets` loop, `fopen`/`fprintf`/`fclose`, and `writeCard`'s walk over the card. `createCard` starts from the buffer already in memory. The output file is a string that the writer appends to. Whether `fopen` succeeds is a parameter of `OpenFileWrite`.
- Memory is not modelled: allocation failure (src/CardHelper.c:16-17, 24-28, and in every other allocator), `realloc`, and every `delete*`/`free` function and the leaks on error paths.
- The linked-list library is not part of this model. Lists are sequences with append, find and in-order iteration. `printProperty`'s list renderers are parameters of `PrintProperty`.
- Fixed-size buffers are unbounded: the 200-byte group, the 100-byte name, the 100-byte date text, the 8- and 6-character date and time fields, the 200-byte write line, the 10- and 20-byte flag buffers of `JSONtoDT`, and the 20-character name buffer of `JSONtoCard`. Strings are unbounded sequences, so buffer overflows are not modelled.
- Reads before the start of a string are excluded by preconditions, because they are undefined behaviour:
  - `extractProp` on a one-character line (`PropReadable`);
  - `parsePropertyValues` on an empty body (`ValuesReadable`);
  - the filename suffix test on short names (`ExtensionReadable`).
- `nextContentLine` resumed with the cursor just after a CR is excluded by a precondition (`ValidCursor`). There the source takes the LF as a line break at once. With a fold after it, the copy length is -1 and the buffer is written one byte before its start (src/ParseHelper.c:292-295). Without a fold, the line is the LF alone. Every cursor the reader hands back sits after a LF.
- CardEngine.ReadCard: when the first logical line takes up the whole buffer, the source passes the missing (NULL) second line to `strcmpIC`, which is undefined behaviour (src/VCardParser.c:218-226). The model answers INV_CARD there, and `CreateCard` follows it.
- Reads past the terminating NUL in the JSON decoders are not given a value: they are reported as `PastEnd`, without saying what memory holds.
- NULL strings passed to the JSON decoders and printers are not modelled, and neither are NUL characters inside strings.
- The placeholders `printCard`, `printPropNode`, `compareDates` and the `compareValues`/`printValue`/`addProperty` list callbacks are not modelled; they hold no logic of the engine.
- Escape decoding (section 3.4 of RFC 6350) is not modelled; the source leaves it commented out.
- A property, parameter or date with a NULL field inside cannot be represented, so the NULL-field checks of `validateProp` and `validateCard` are not modelled.
- JsonLists.ListRoundTrip: requires strings without `\`, because the decoder turns `\x` into `x` and the encoder only escapes `"`. Under the as-written reading, the strings must also lack `]`.
- JsonProps.PropRoundTrip: requires fields without quotes. Parameters are not carried, because `propToJSON` does not write them.
- JsonDates.DtRoundTrip: requires date, time and text without quotes, a date of at most 8 and a time of at most 6 characters. UTC of a text value comes back false, and the unused fields come back empty.
- JsonDates.CardRoundTrip: requires name and value without quotes.
- RoundTrip.DateRoundTrip: as written, it requires UTC, no time, or a 6-digit time, because of the line-end defect below.

## Findings

| source | as written | input that shows it | evidently intended | confidence | as-written member | corrected member |
|---|---|---|---|---|---|---|
| src/DateHelper.c:82-91 | The text heuristic never advances its index, so it tests only the first character after `:`. | `BDAY:1st century` | A letter anywhere in the value (other than T/Z) makes it text. | not executed | DateHelper.TextTestSeesOneCharacter | DateHelper.CorrectedStructuredHasNoLetters |
| src/DateHelper.c:126-151 | The time copy stops at NUL or Z but not at CR, so a short time swallows the CRLF. | `BDAY:19960415T1230` followed by CRLF | The time stops at the line end. | not executed | DateHelper.TimeTakesLineEnd | DateHelper.CorrectedTimeStopsAtLineEnd |
| src/ValidationHelper.c:175-189 | `countProperty` ignores its name and returns the KIND counter, so the MEMBER rule fires for any KIND. | a card with `KIND:individual` and no MEMBER | Only a card with a MEMBER property needs a KIND "group". | not executed | CardEngine.IndividualKindRejected | CardEngine.IndividualKindAcceptedCorrected |
| src/VCardParser.c:469 | The list decoder stops at `]` even inside a quoted value. | `["a]b"]` | The value `a]b` is read whole. | not executed | JsonLists.BracketEndsList | JsonLists.ListRoundTrip |
| src/VCardParser.c:624 | After copying a non-empty group, the decoder rejects the property unless the group runs to the end. | the JSON `propToJSON` writes for a property with group `work` | A grouped property decodes with its group. | not executed | JsonProps.GroupedPropRejected | JsonProps.PropRoundTrip |
