/** The validation rules: the 36-name property registry with its per-name
    counters, the per-property checks of `validateProp` (arity of N and ADR,
    VERSION banned from the body, singletons, value counts), `validateDT` on the
    date record, and `validateParam`. */
module Validation {
  import opened VCardTypes
  import opened Text

  /** One registry entry: a property name and how many properties of that name
      have been validated so far. */
  datatype PNode = PNode(name: string, count: int)

  /** The known property names, in the order `loadPropertyCounter` appends them. */
  const Registry: seq<string> := [
    "ORG", "SOURCE", "KIND", "XML", "FN", "N", "NICKNAME", "PHOTO", "BDAY",
    "ANNIVERSARY", "GENDER", "ADR", "TEL", "EMAIL", "IMPP", "LANG", "TZ", "GEO",
    "TITLE", "ROLE", "LOGO", "MEMBER", "RELATED", "CATEGORIES", "NOTE", "PRODID",
    "REV", "SOUND", "UID", "CLIENTPIDMAP", "URL", "VERSION", "KEY", "FBURL",
    "CALADRURI", "CALURI"]

  /** Names a property may occur under at most once. */
  const Singletons: seq<string> := ["KIND", "N", "GENDER", "PRODID", "REV", "UID"]

  /** Names a property may carry more than one value under. */
  const MultiValued: seq<string> := ["N", "NICKNAME", "PHOTO", "GENDER", "ADR", "TEL", "ORG", "CATEGORIES", "CLIENTPIDMAP"]

  /** `name` equals one of `names` ignoring case. */
  predicate NamedAny(name: string, names: seq<string>)
  {
    exists k :: 0 <= k < |names| && SameIgnoringCase(name, names[k])
  }

  /** Fresh counters, all zero, one per name. */
  function ZeroCounts(names: seq<string>): (r: seq<PNode>)
    ensures |r| == |names|
    ensures forall i :: 0 <= i < |names| ==> r[i].name == names[i] && r[i].count == 0
  {
    seq(|names|, i requires 0 <= i < |names| => PNode(names[i], 0))
  }

  /** `nodeNameCmp`: a registry node matches a name when the two are equal
      ignoring case. */
  function NodeNameCmp(node: PNode, name: string): (r: bool)
    ensures r <==> SameIgnoringCase(node.name, name)
  {
    StrcmpIC(node.name, name) == 0
  }

  /** The index of the first node from `i` on that matches `name`. */
  function FindFrom(nodes: seq<PNode>, name: string, i: nat): (r: Option<nat>)
    requires i <= |nodes|
    ensures r.Some? ==> i <= r.value < |nodes| && SameIgnoringCase(nodes[r.value].name, name)
    ensures r.Some? ==> forall k :: i <= k < r.value ==> !SameIgnoringCase(nodes[k].name, name)
    ensures r.None? ==> forall k :: i <= k < |nodes| ==> !SameIgnoringCase(nodes[k].name, name)
    decreases |nodes| - i
  {
    if i == |nodes| then None
    else if NodeNameCmp(nodes[i], name) then Some(i)
    else FindFrom(nodes, name, i + 1)
  }

  /** The list search `findElement` with `nodeNameCmp`: the first matching node. */
  function FindNode(nodes: seq<PNode>, name: string): Option<nat>
  {
    FindFrom(nodes, name, 0)
  }

  /** The counter of the first node named `name`, or 0 without one. */
  function CountOf(nodes: seq<PNode>, name: string): int
  {
    match FindNode(nodes, name)
    case None => 0
    case Some(i) => nodes[i].count
  }

  /** What `validateProp` answers for a registered property once its name's
      counter has been raised to `count`: the checks in the source's order. */
  function PropVerdict(prop: Property, count: int): (r: ErrorCode)
    ensures r == Ok || r == InvProp || r == InvCard
    ensures r == InvCard <==> SameIgnoringCase(prop.name, "VERSION")
    ensures r == Ok <==>
              !SameIgnoringCase(prop.name, "VERSION")
              && (SameIgnoringCase(prop.name, "N") ==> |prop.values| == 5)
              && (SameIgnoringCase(prop.name, "ADR") ==> |prop.values| == 7)
              && (NamedAny(prop.name, Singletons) ==> count <= 1)
              && |prop.values| >= 1
              && (|prop.values| > 1 ==> NamedAny(prop.name, MultiValued))
  {
    if SameIgnoringCase(prop.name, "N") && |prop.values| != 5 then InvProp
    else if SameIgnoringCase(prop.name, "ADR") && |prop.values| != 7 then InvProp
    else if SameIgnoringCase(prop.name, "VERSION") then InvCard
    else if NamedAny(prop.name, Singletons) && count > 1 then InvProp
    else if |prop.values| < 1 then InvProp
    else if |prop.values| > 1 && !NamedAny(prop.name, MultiValued) then InvProp
    else Ok
  }

  /** The counters after one property of the node at `i` has been seen. */
  function Bump(nodes: seq<PNode>, i: nat): (r: seq<PNode>)
    requires i < |nodes|
    ensures |r| == |nodes|
  {
    nodes[i := PNode(nodes[i].name, nodes[i].count + 1)]
  }

  /** The registry counters validation works against. */
  class PropertyCounter {
    var nodes: seq<PNode>

    /** An empty counter list. */
    constructor ()
      ensures nodes == []
    {
      nodes := [];
    }

    /** `loadPropertyCounter`: appends one zero counter per registered name. */
    method LoadPropertyCounter()
      modifies this
      ensures nodes == old(nodes) + ZeroCounts(Registry)
    {
      nodes := nodes + ZeroCounts(Registry);
    }

    /** `validateProp`: an unregistered name is INV_PROP and counts nothing;
        otherwise the name's counter goes up first, so a property that then fails
        still counts, and the verdict is taken with the raised counter. */
    method ValidateProp(prop: Property) returns (status: ErrorCode)
      modifies this
      ensures match FindNode(old(nodes), prop.name)
              case None => status == InvProp && nodes == old(nodes)
              case Some(i) => nodes == Bump(old(nodes), i) && status == PropVerdict(prop, nodes[i].count)
    {
      var found := FindNode(nodes, prop.name);
      if found.None? {
        return InvProp;
      }
      var i := found.value;
      nodes := nodes[i := PNode(nodes[i].name, nodes[i].count + 1)];
      var count := nodes[i].count;
      var n := |prop.values|;
      if StrcmpIC(prop.name, "N") == 0 && n != 5 {
        return InvProp;
      }
      if StrcmpIC(prop.name, "ADR") == 0 && n != 7 {
        return InvProp;
      }
      if StrcmpIC(prop.name, "VERSION") == 0 {
        return InvCard;
      }
      if StrcmpIC(prop.name, "KIND") == 0 || StrcmpIC(prop.name, "N") == 0 || StrcmpIC(prop.name, "GENDER") == 0
         || StrcmpIC(prop.name, "PRODID") == 0 || StrcmpIC(prop.name, "REV") == 0 || StrcmpIC(prop.name, "UID") == 0 {
        assert NamedAny(prop.name, Singletons) by {
          SingletonsListed(prop.name);
        }
        if count > 1 {
          return InvProp;
        }
      } else {
        SingletonsListed(prop.name);
      }
      if n < 1 {
        return InvProp;
      }
      if n > 1 {
        MultiValuedListed(prop.name);
        if !(StrcmpIC(prop.name, "N") == 0 || StrcmpIC(prop.name, "NICKNAME") == 0 || StrcmpIC(prop.name, "PHOTO") == 0
             || StrcmpIC(prop.name, "GENDER") == 0 || StrcmpIC(prop.name, "ADR") == 0 || StrcmpIC(prop.name, "TEL") == 0
             || StrcmpIC(prop.name, "ORG") == 0 || StrcmpIC(prop.name, "CATEGORIES") == 0
             || StrcmpIC(prop.name, "CLIENTPIDMAP") == 0) {
          return InvProp;
        }
      }
      return Ok;
    }

    /** `countProperty` as written: the loop returns the counter of the first
        node named KIND whatever `name` asks for. */
    method CountProperty(name: string) returns (count: int)
      ensures count == CountOf(nodes, "KIND")
    {
      var i := 0;
      while i < |nodes|
        invariant i <= |nodes|
        invariant FindFrom(nodes, "KIND", i) == FindNode(nodes, "KIND")
      {
        if StrcmpIC(nodes[i].name, "KIND") == 0 {
          return nodes[i].count;
        }
        i := i + 1;
      }
      return 0;
    }
  }

  /** The singleton test of the source is the six comparisons spelled out. */
  lemma SingletonsListed(name: string)
    ensures NamedAny(name, Singletons) <==>
              SameIgnoringCase(name, "KIND") || SameIgnoringCase(name, "N") || SameIgnoringCase(name, "GENDER")
              || SameIgnoringCase(name, "PRODID") || SameIgnoringCase(name, "REV") || SameIgnoringCase(name, "UID")
  {
    if NamedAny(name, Singletons) {
      var k :| 0 <= k < |Singletons| && SameIgnoringCase(name, Singletons[k]);
      assert k < 6;
    }
    if SameIgnoringCase(name, "KIND") { assert SameIgnoringCase(name, Singletons[0]); }
    if SameIgnoringCase(name, "N") { assert SameIgnoringCase(name, Singletons[1]); }
    if SameIgnoringCase(name, "GENDER") { assert SameIgnoringCase(name, Singletons[2]); }
    if SameIgnoringCase(name, "PRODID") { assert SameIgnoringCase(name, Singletons[3]); }
    if SameIgnoringCase(name, "REV") { assert SameIgnoringCase(name, Singletons[4]); }
    if SameIgnoringCase(name, "UID") { assert SameIgnoringCase(name, Singletons[5]); }
  }

  /** The multi-value test of the source is the nine comparisons spelled out. */
  lemma MultiValuedListed(name: string)
    ensures NamedAny(name, MultiValued) <==>
              SameIgnoringCase(name, "N") || SameIgnoringCase(name, "NICKNAME") || SameIgnoringCase(name, "PHOTO")
              || SameIgnoringCase(name, "GENDER") || SameIgnoringCase(name, "ADR") || SameIgnoringCase(name, "TEL")
              || SameIgnoringCase(name, "ORG") || SameIgnoringCase(name, "CATEGORIES") || SameIgnoringCase(name, "CLIENTPIDMAP")
  {
    if NamedAny(name, MultiValued) {
      var k :| 0 <= k < |MultiValued| && SameIgnoringCase(name, MultiValued[k]);
      assert k < 9;
    }
    if SameIgnoringCase(name, "N") { assert SameIgnoringCase(name, MultiValued[0]); }
    if SameIgnoringCase(name, "NICKNAME") { assert SameIgnoringCase(name, MultiValued[1]); }
    if SameIgnoringCase(name, "PHOTO") { assert SameIgnoringCase(name, MultiValued[2]); }
    if SameIgnoringCase(name, "GENDER") { assert SameIgnoringCase(name, MultiValued[3]); }
    if SameIgnoringCase(name, "ADR") { assert SameIgnoringCase(name, MultiValued[4]); }
    if SameIgnoringCase(name, "TEL") { assert SameIgnoringCase(name, MultiValued[5]); }
    if SameIgnoringCase(name, "ORG") { assert SameIgnoringCase(name, MultiValued[6]); }
    if SameIgnoringCase(name, "CATEGORIES") { assert SameIgnoringCase(name, MultiValued[7]); }
    if SameIgnoringCase(name, "CLIENTPIDMAP") { assert SameIgnoringCase(name, MultiValued[8]); }
  }

  /** Raising the counter of the node a name is found at adds one to that name's
      count and leaves the count of every name found elsewhere unchanged. */
  lemma BumpCountsOnce(nodes: seq<PNode>, i: nat, name: string, other: string)
    requires FindNode(nodes, name) == Some(i)
    requires FindNode(nodes, other) != Some(i)
    ensures CountOf(Bump(nodes, i), name) == CountOf(nodes, name) + 1
    ensures CountOf(Bump(nodes, i), other) == CountOf(nodes, other)
  {
    var bumped := Bump(nodes, i);
    assert forall k :: 0 <= k < |nodes| ==> bumped[k].name == nodes[k].name;
    FindSameNames(nodes, bumped, name, 0);
    FindSameNames(nodes, bumped, other, 0);
  }

  /** The search only looks at names. */
  lemma {:induction false} FindSameNames(a: seq<PNode>, b: seq<PNode>, name: string, i: nat)
    requires |a| == |b| && i <= |a|
    requires forall k :: 0 <= k < |a| ==> a[k].name == b[k].name
    ensures FindFrom(a, name, i) == FindFrom(b, name, i)
    decreases |a| - i
  {
    if i < |a| {
      FindSameNames(a, b, name, i + 1);
    }
  }

  /** A name is found among freshly loaded counters exactly when it is one of the
      registered names ignoring case, and its count starts at zero. */
  lemma LoadedRegistry(name: string)
    ensures FindNode(ZeroCounts(Registry), name).Some? <==> NamedAny(name, Registry)
    ensures CountOf(ZeroCounts(Registry), name) == 0
  {
    var nodes := ZeroCounts(Registry);
    if NamedAny(name, Registry) {
      var k :| 0 <= k < |Registry| && SameIgnoringCase(name, Registry[k]);
      assert SameIgnoringCase(nodes[k].name, name);
    }
  }

  /** `countProperty("MEMBER")` is the KIND count: with one KIND and no MEMBER
      the answer is 1, where the MEMBER count is 0. */
  lemma CountPropertyIgnoresName()
    ensures CountOf([PNode("KIND", 1), PNode("MEMBER", 0)], "KIND") == 1
    ensures CountOf([PNode("KIND", 1), PNode("MEMBER", 0)], "MEMBER") == 0
  {
    var nodes := [PNode("KIND", 1), PNode("MEMBER", 0)];
    assert !SameIgnoringCase("KIND", "MEMBER");
    assert FindNode(nodes, "KIND") == Some(0);
    assert FindNode(nodes, "MEMBER") == Some(1);
  }

  // ---------------------------------------------------------------------------
  // validateParam and validateDT

  /** `validateParam`: a parameter must exist and have a non-empty name and
      value. */
  function ValidateParam(param: Option<Parameter>): (r: ErrorCode)
    ensures r == Ok || r == InvProp
    ensures r == Ok <==> param.Some? && |param.value.name| >= 1 && |param.value.value| >= 1
  {
    if param.None? then InvProp
    else if |param.value.name| < 1 then InvProp
    else if |param.value.value| < 1 then InvProp
    else Ok
  }

  /** Every character is a digit or `-`. */
  predicate DigitsAndDashes(s: string)
  {
    forall k :: 0 <= k < |s| ==> IsDigit(s[k]) || s[k] == '-'
  }

  /** A non-empty date or time part must be at least 2 characters of digits and
      dashes not ending in `-`. */
  predicate GoodPart(s: string)
  {
    s == [] || (|s| >= 2 && s[|s| - 1] != '-' && DigitsAndDashes(s))
  }

  /** The shapes `validateDT` accepts: text with no UTC flag, no date and no time;
      or a structured value with a date or a time, both well-formed, and no text. */
  predicate WellShaped(dt: DateTime)
  {
    if dt.isText then !dt.UTC && dt.text != [] && dt.time == [] && dt.date == []
    else (dt.time != [] || dt.date != []) && GoodPart(dt.time) && GoodPart(dt.date) && dt.text == []
  }

  /** The checks of `validateDT` in the source's order. */
  function DTVerdict(dt: DateTime): (r: ErrorCode)
    ensures r == Ok || r == InvDt
  {
    if dt.isText then
      if dt.UTC || |dt.text| == 0 || |dt.time| != 0 || |dt.date| != 0 then InvDt else Ok
    else if |dt.time| == 0 && |dt.date| == 0 then InvDt
    else if !GoodPart(dt.time) || !GoodPart(dt.date) || |dt.text| != 0 then InvDt
    else Ok
  }

  /** `validateDT` accepts exactly the well-shaped records. */
  lemma DTVerdictIsShape(dt: DateTime)
    ensures DTVerdict(dt) == Ok <==> WellShaped(dt)
  {
  }

  /** The character loop of `validateDT` over one part. */
  method CheckPart(s: string) returns (ok: bool)
    ensures ok == GoodPart(s)
  {
    if |s| == 0 {
      return true;
    }
    if |s| < 2 {
      return false;
    }
    if s[|s| - 1] == '-' {
      return false;
    }
    for i := 0 to |s|
      invariant forall k :: 0 <= k < i ==> IsDigit(s[k]) || s[k] == '-'
    {
      if !IsDigit(s[i]) && s[i] != '-' {
        return false;
      }
    }
    return true;
  }

  /** `validateDT`: text shape first, then the structured checks on the time and
      the date. */
  method ValidateDT(dt: DateTime) returns (status: ErrorCode)
    ensures status == DTVerdict(dt)
    ensures status == Ok <==> WellShaped(dt)
  {
    if dt.isText {
      if dt.UTC {
        return InvDt;
      }
      if |dt.text| == 0 {
        return InvDt;
      }
      if |dt.time| != 0 || |dt.date| != 0 {
        return InvDt;
      }
    } else {
      if |dt.time| == 0 && |dt.date| == 0 {
        return InvDt;
      }
      var timeOk := CheckPart(dt.time);
      if !timeOk {
        return InvDt;
      }
      var dateOk := CheckPart(dt.date);
      if !dateOk {
        return InvDt;
      }
      if |dt.text| != 0 {
        return InvDt;
      }
    }
    return Ok;
  }
}
