// The JSON form of a property (`propToJSON`, `JSONtoProp` in VCardParser.c):
// `{"group":"G","name":"N","values":[...]}`.  The parameters are not written,
// and the reader gives every property an empty parameter list.

module JsonProps {
  import opened VCardTypes
  import opened ContentLines
  import opened JsonScan
  import opened JsonLists

  const GroupKey := "{\"group\":\""
  const NameKey := "\",\"name\":\""
  const ValuesKey := "\",\"values\":"

  /** What `propToJSON` produces for a property. */
  function PropJSON(p: Property): string
  {
    GroupKey + p.group + NameKey + p.name + ValuesKey + ListJSON(p.values) + "}"
  }

  /** `propToJSON`: "" for NULL, otherwise the keys and the property's fields in
      order, the values through `strListToJSON`. */
  method PropToJSON(prop: Option<Property>) returns (json: string)
    ensures prop.None? ==> json == ""
    ensures prop.Some? ==> json == PropJSON(prop.value)
  {
    if prop.None? {
      return "";
    }
    var p := prop.value;
    json := GroupKey + p.group;
    json := json + NameKey + p.name;
    json := json + ValuesKey;
    var propValues := StrListToJSON(p.values);
    json := json + propValues + "}";
  }

  // ---------------------------------------------------------------------------
  // Reading a property

  /** Where the group copied from `start` ends.  An immediate `"` is an empty
      group.  Otherwise the copy runs to a `"` or to the second-to-last character;
      as written the source then insists it stopped at the second-to-last
      character, so a group that ends at its closing quote is refused;
      corrected, it refuses a copy that ran to the end instead. */
  function GroupEnd(s: string, start: nat, reading: Reading): (r: Outcome<nat>)
    ensures r.Parsed? ==> start <= r.value <= |s|
  {
    if At(s, start) == '"' then Parsed(start)
    else
      var j :- Seek(s, start, "\"", |s| - 2, {}, false);
      match reading
      case AsWritten => if j != |s| - 2 then Rejected else Parsed(j)
      case Corrected => if j == |s| - 2 then Rejected else Parsed(j)
  }

  /** `JSONtoProp`: the group after the first `:`, then the name and the values. */
  function PropFromJSON(s: string, reading: Reading): (r: Outcome<Property>)
    ensures r.Parsed? ==> r.value.parameters == [] && r.value.name != ""
  {
    if |s| < 5 then Rejected
    else
      var colon :- Seek(s, 0, ":", |s| - 2, {}, false);
      if colon + 1 == |s| - 2 || At(s, colon + 1) != '"' then Rejected
      else
        var groupEnd :- GroupEnd(s, colon + 2, reading);
        NamePart(s, s[colon + 2..groupEnd], groupEnd, reading)
  }

  /** From the end of the group: the next `:`, an opening `"`, a non-empty name
      up to its closing `"`. */
  function NamePart(s: string, group: string, from: nat, reading: Reading): (r: Outcome<Property>)
    ensures r.Parsed? ==> r.value.parameters == [] && r.value.name != "" && r.value.group == group
  {
    var nameColon :- Seek(s, from, ":", -1, {|s| - 2}, false);
    var nameOpen := nameColon + 1;
    if nameOpen == |s| - 2 || At(s, nameOpen) != '"' then Rejected
    else if At(s, nameOpen + 1) == '"' then Rejected
    else
      var nameEnd :- Seek(s, nameOpen + 1, "\"", |s| - 2, {}, false);
      if nameEnd == |s| - 2 then Rejected
      else ValuesPart(s, group, s[nameOpen + 1..nameEnd], nameEnd, reading)
  }

  /** From the end of the name: the next `:` and the value list after it. */
  function ValuesPart(s: string, group: string, name: string, from: nat, reading: Reading): (r: Outcome<Property>)
    ensures r.Parsed? ==> r.value == Property(name, group, [], r.value.values)
  {
    var valuesColon :- Seek(s, from, ":", -1, {|s| - 2}, false);
    match StrListDecode(s[valuesColon + 1..], reading)
    case None => Rejected
    case Some(values) => Parsed(Property(name, group, [], values))
  }

  /** `JSONtoProp`, step by step as the source walks the string. */
  method JSONtoProp(str: string) returns (r: Outcome<Property>)
    ensures r == PropFromJSON(str, AsWritten)
  {
    if |str| < 5 {
      return Rejected;
    }
    var length := |str| - 1;
    // bounded by the second-to-last character, this scan always stops
    var colon, skipped := CopyUntil(str, 0, ":", length - 1, {}, false);
    var strIndex := colon.value + 1;
    if strIndex == length - 1 || At(str, strIndex) != '"' {
      return Rejected;
    }
    strIndex := strIndex + 1;
    var groupEnd, group := GroupFrom(str, strIndex);
    if !groupEnd.Parsed? {
      return groupEnd.PropagateFailure();
    }
    r := NameFrom(str, group, groupEnd.value);
  }

  /** The group-copying step of `JSONtoProp`. */
  method GroupFrom(str: string, start: nat) returns (r: Outcome<nat>, group: string)
    ensures r == GroupEnd(str, start, AsWritten)
    ensures r.Parsed? ==> group == str[start..r.value]
  {
    var length := |str| - 1;
    group := "";
    if At(str, start) == '"' {
      return Parsed(start), group;
    }
    r, group := CopyUntil(str, start, "\"", length - 1, {}, false);
    if r.Parsed? && r.value != length - 1 {
      r := Rejected;
    }
  }

  /** The name steps of `JSONtoProp`. */
  method NameFrom(str: string, group: string, from: nat) returns (r: Outcome<Property>)
    ensures r == NamePart(str, group, from, AsWritten)
  {
    var length := |str| - 1;
    var nameColon, skipped := CopyUntil(str, from, ":", -1, {length - 1}, false);
    if !nameColon.Parsed? {
      return nameColon.PropagateFailure();
    }
    var strIndex := nameColon.value + 1;
    if strIndex == length - 1 || At(str, strIndex) != '"' {
      return Rejected;
    }
    strIndex := strIndex + 1;
    if At(str, strIndex) == '"' {
      return Rejected;
    }
    var nameEnd, name := CopyUntil(str, strIndex, "\"", length - 1, {}, false);
    if !nameEnd.Parsed? {
      return nameEnd.PropagateFailure();
    }
    if nameEnd.value == length - 1 {
      return Rejected;
    }
    r := ValuesFrom(str, group, name, nameEnd.value);
  }

  /** The values step of `JSONtoProp`. */
  method ValuesFrom(str: string, group: string, name: string, from: nat) returns (r: Outcome<Property>)
    ensures r == ValuesPart(str, group, name, from, AsWritten)
  {
    var length := |str| - 1;
    var valuesColon, skipped := CopyUntil(str, from, ":", -1, {length - 1}, false);
    if !valuesColon.Parsed? {
      return valuesColon.PropagateFailure();
    }
    var values := JSONtoStrList(str[valuesColon.value + 1..]);
    if values.None? {
      return Rejected;
    }
    return Parsed(Property(name, group, [], values.value));
  }

  // ---------------------------------------------------------------------------
  // What the reader accepts

  /** A name scan that starts where the as-written reader leaves a non-empty
      group, at the second-to-last character, never yields a property. */
  lemma NameAtEnd(s: string, group: string, reading: Reading)
    requires |s| >= 2
    ensures !NamePart(s, group, |s| - 2, reading).Parsed?
  {
    var e := |s| - 2;
    if At(s, e) == ':' {
      assert Seek(s, e, ":", -1, {e}, false) == Parsed(e);
      if At(s, e + 1) == '"' {
        assert Seek(s, |s| + 1, "\"", e, {}, false) == PastEnd;
        assert Seek(s, |s|, "\"", e, {}, false) == PastEnd;
      }
    } else {
      assert Seek(s, e, ":", -1, {e}, false) == Rejected;
    }
  }

  /** As written, no string at all decodes to a property with a group. */
  lemma AsWrittenNeverGrouped(s: string)
    ensures PropFromJSON(s, AsWritten).Parsed? ==> PropFromJSON(s, AsWritten).value.group == ""
  {
    if |s| >= 5 {
      var colon := Seek(s, 0, ":", |s| - 2, {}, false);
      if colon.Parsed? && colon.value + 1 != |s| - 2 && At(s, colon.value + 1) == '"' {
        var start := colon.value + 2;
        var groupEnd := GroupEnd(s, start, AsWritten);
        if groupEnd.Parsed? && At(s, start) != '"' {
          NameAtEnd(s, s[start..groupEnd.value], AsWritten);
        }
      }
    }
  }

  /** A property the writer and the corrected reader agree on: a non-empty name,
      no `"` in group or name (neither is escaped), and readable values. */
  predicate PropWritable(p: Property, reading: Reading)
  {
    p.name != "" && Listable(p.values, reading)
    && (forall k :: 0 <= k < |p.name| ==> p.name[k] != '"')
    && (forall k :: 0 <= k < |p.group| ==> p.group[k] != '"')
  }

  /** Where the pieces of a written property sit. */
  lemma PropLayout(p: Property, s: string)
    requires s == PropJSON(p)
    ensures Holds(s, 0, GroupKey) && Holds(s, 10, p.group)
    ensures Holds(s, 10 + |p.group|, NameKey) && Holds(s, 10 + |p.group| + 10, p.name)
    ensures Holds(s, 10 + |p.group| + 10 + |p.name|, ValuesKey)
    ensures s[10 + |p.group| + 10 + |p.name| + 11..] == ListJSON(p.values) + "}"
    ensures |s| == 32 + |p.group| + |p.name| + |ListJSON(p.values)| && |ListJSON(p.values)| >= 2
  {
    var p1 := GroupKey + p.group;
    var p2 := p1 + NameKey;
    var p3 := p2 + p.name;
    var p4 := p3 + ValuesKey;
    var tail := ListJSON(p.values) + "}";
    Assoc(p4, ListJSON(p.values), "}");
    assert s == p4 + tail;
    HoldsPrefix(p4, tail);
    HoldsSplit(s, 0, p3, ValuesKey);
    HoldsSplit(s, 0, p2, p.name);
    HoldsSplit(s, 0, p1, NameKey);
    HoldsSplit(s, 0, GroupKey, p.group);
  }

  /** The scan for the first `:` stops inside the group key. */
  lemma HeadColon(s: string)
    requires |s| > 12 && Holds(s, 0, GroupKey)
    ensures Seek(s, 0, ":", |s| - 2, {}, false) == Parsed(8) && At(s, 9) == '"'
  {
    HoldsSplit(s, 0, "{\"group\"", ":\"");
    SeekOver(s, 0, "{\"group\"", ":", |s| - 2, {}, false);
    HoldsChar(s, 0, GroupKey, 8);
    HoldsChar(s, 0, GroupKey, 9);
    SeekHere(s, 8, ":", |s| - 2, {}, false);
  }

  /** The group copied from index 10: found when empty or when corrected,
      refused as written otherwise. */
  lemma GroupEndRead(s: string, group: string, reading: Reading)
    requires |s| > 24 + |group| && Holds(s, 10, group) && Holds(s, 10 + |group|, NameKey)
    requires forall k :: 0 <= k < |group| ==> group[k] != '"'
    ensures GroupEnd(s, 10, reading) == if reading == Corrected || group == "" then Parsed(10 + |group|) else Rejected
  {
    var g := 10 + |group|;
    HoldsChar(s, g, NameKey, 0);
    if group != "" {
      HoldsChar(s, 10, group, 0);
      SeekOver(s, 10, group, "\"", |s| - 2, {}, false);
      SeekHere(s, g, "\"", |s| - 2, {}, false);
    }
  }

  /** The first steps, up to the end of the group: when the group is read, the
      rest of the property is read from where it ends. */
  lemma PropHead(s: string, group: string, reading: Reading)
    requires |s| > 24 + |group| && Holds(s, 0, GroupKey) && Holds(s, 10, group) && Holds(s, 10 + |group|, NameKey)
    requires forall k :: 0 <= k < |group| ==> group[k] != '"'
    requires reading == Corrected || group == ""
    ensures PropFromJSON(s, reading) == NamePart(s, group, 10 + |group|, reading)
  {
    HeadColon(s);
    GroupEndRead(s, group, reading);
    assert s[10..10 + |group|] == group;
  }

  /** As written, a non-empty group refuses the whole property. */
  lemma PropHeadRejected(s: string, group: string)
    requires |s| > 24 + |group| && Holds(s, 0, GroupKey) && Holds(s, 10, group) && Holds(s, 10 + |group|, NameKey)
    requires forall k :: 0 <= k < |group| ==> group[k] != '"'
    requires group != ""
    ensures PropFromJSON(s, AsWritten) == Rejected
  {
    HeadColon(s);
    GroupEndRead(s, group, AsWritten);
  }

  /** The scan for the `:` after the group stops inside the name key. */
  lemma NameColon(s: string, from: nat)
    requires Holds(s, from, NameKey) && |s| > from + 12
    ensures Seek(s, from, ":", -1, {|s| - 2}, false) == Parsed(from + 8) && At(s, from + 9) == '"'
  {
    HoldsSplit(s, from, "\",\"name\"", ":\"");
    SeekOver(s, from, "\",\"name\"", ":", -1, {|s| - 2}, false);
    HoldsChar(s, from, NameKey, 8);
    HoldsChar(s, from, NameKey, 9);
    SeekHere(s, from + 8, ":", -1, {|s| - 2}, false);
  }

  /** A quote-free name followed by a `"` is copied whole. */
  lemma NameEnd(s: string, n: nat, name: string)
    requires Holds(s, n, name) && Holds(s, n + |name|, ValuesKey) && |s| > n + |name| + 2
    requires name != [] && forall k :: 0 <= k < |name| ==> name[k] != '"'
    ensures Seek(s, n, "\"", |s| - 2, {}, false) == Parsed(n + |name|) && At(s, n) != '"'
    ensures s[n..n + |name|] == name
  {
    HoldsChar(s, n, name, 0);
    SeekOver(s, n, name, "\"", |s| - 2, {}, false);
    HoldsChar(s, n + |name|, ValuesKey, 0);
    SeekHere(s, n + |name|, "\"", |s| - 2, {}, false);
  }

  /** From the end of the group to the end of the name. */
  lemma PropName(s: string, group: string, name: string, from: nat, reading: Reading)
    requires Holds(s, from, NameKey) && Holds(s, from + 10, name) && Holds(s, from + 10 + |name|, ValuesKey)
    requires |s| > from + |name| + 23
    requires name != [] && forall k :: 0 <= k < |name| ==> name[k] != '"'
    ensures NamePart(s, group, from, reading) == ValuesPart(s, group, name, from + 10 + |name|, reading)
  {
    NameEnd(s, from + 10, name);
    NameColon(s, from);
  }

  /** From the end of the name to the end of the values. */
  lemma PropValues(s: string, group: string, name: string, from: nat, values: seq<string>, reading: Reading)
    requires Holds(s, from, ValuesKey) && |s| >= from + 14
    requires StrListDecode(s[from + 11..], reading) == Some(values)
    ensures ValuesPart(s, group, name, from, reading) == Parsed(Property(name, group, [], values))
  {
    HoldsSplit(s, from, "\",\"values\"", ":");
    SeekOver(s, from, "\",\"values\"", ":", -1, {|s| - 2}, false);
    HoldsChar(s, from, ValuesKey, 10);
    SeekHere(s, from + 10, ":", -1, {|s| - 2}, false);
  }

  /** After the group, the name and values of a written property are read. */
  lemma PropTail(s: string, group: string, name: string, values: seq<string>, reading: Reading)
    requires |s| >= 34 + |group| + |name|
    requires Holds(s, 10 + |group|, NameKey) && Holds(s, 10 + |group| + 10, name)
    requires Holds(s, 10 + |group| + 10 + |name|, ValuesKey)
    requires StrListDecode(s[10 + |group| + 10 + |name| + 11..], reading) == Some(values)
    requires name != [] && forall k :: 0 <= k < |name| ==> name[k] != '"'
    ensures NamePart(s, group, 10 + |group|, reading) == Parsed(Property(name, group, [], values))
  {
    PropValues(s, group, name, 10 + |group| + 10 + |name|, values, reading);
    PropName(s, group, name, 10 + |group|, reading);
  }

  /** A string laid out as the writer lays out a property is read back. */
  lemma PropRead(s: string, group: string, name: string, values: seq<string>, reading: Reading)
    requires |s| >= 34 + |group| + |name|
    requires Holds(s, 0, GroupKey) && Holds(s, 10, group)
    requires Holds(s, 10 + |group|, NameKey) && Holds(s, 10 + |group| + 10, name)
    requires Holds(s, 10 + |group| + 10 + |name|, ValuesKey)
    requires StrListDecode(s[10 + |group| + 10 + |name| + 11..], reading) == Some(values)
    requires name != [] && (reading == Corrected || group == "")
    requires forall k :: 0 <= k < |name| ==> name[k] != '"'
    requires forall k :: 0 <= k < |group| ==> group[k] != '"'
    ensures PropFromJSON(s, reading) == Parsed(Property(name, group, [], values))
  {
    PropTail(s, group, name, values, reading);
    PropHead(s, group, reading);
  }

  /** A writable property is read back with its group, name and values (its
      parameters are never written); as written only when it has no group. */
  lemma PropRoundTrip(p: Property, reading: Reading)
    requires PropWritable(p, reading) && (reading == Corrected || p.group == "")
    ensures PropFromJSON(PropJSON(p), reading) == Parsed(Property(p.name, p.group, [], p.values))
  {
    var s := PropJSON(p);
    PropLayout(p, s);
    ListRoundTrip(p.values, "}", reading);
    PropRead(s, p.group, p.name, p.values, reading);
  }

  /** As written, a property with a group is never read back. */
  lemma GroupedPropRejected(p: Property)
    requires PropWritable(p, AsWritten) && p.group != ""
    ensures PropFromJSON(PropJSON(p), AsWritten) == Rejected
  {
    var s := PropJSON(p);
    PropLayout(p, s);
    PropHeadRejected(s, p.group);
  }
}
