/** The content-line tokenizer: a logical line is cut, left to right, into an
    optional group, a property name, `;name=value` parameters and `;`-separated
    values (section 3.3 of RFC 6350).  Each C routine is an index loop that copies
    characters and then replaces the line by what it did not consume; here each is a
    method with that loop, proved equal to a specification function on the line. */
module Tokenizer {
  import opened VCardTypes
  import opened Text

  /** Length of the longest prefix of `s` that contains none of `stops`. */
  function Span(s: string, stops: set<char>): (n: nat)
    ensures n <= |s|
    ensures forall k :: 0 <= k < n ==> s[k] !in stops
    ensures n < |s| ==> s[n] in stops
  {
    if s == [] || s[0] in stops then 0 else 1 + Span(s[1..], stops)
  }

  /** Index of the first `c` in `line[i..e]`, or `e`. */
  function NextSep(line: string, i: nat, e: nat, c: char): (j: nat)
    requires i <= e <= |line|
    ensures i <= j <= e
    ensures forall k :: i <= k < j ==> line[k] != c
    ensures j < e ==> line[j] == c
    decreases e - i
  {
    if i == e || line[i] == c then i else NextSep(line, i + 1, e, c)
  }

  lemma NextSepStopsAt(line: string, i: nat, e: nat, c: char, j: nat)
    requires i <= j <= e <= |line|
    requires forall k :: i <= k < j ==> line[k] != c
    requires j < e ==> line[j] == c
    ensures NextSep(line, i, e, c) == j
  {
  }

  /** Index of the first `c` or `d` in `line[i..e]`, or `e`. */
  function NextSep2(line: string, i: nat, e: nat, c: char, d: char): (j: nat)
    requires i <= e <= |line|
    ensures i <= j <= e
    ensures forall k :: i <= k < j ==> line[k] != c && line[k] != d
    ensures j < e ==> line[j] == c || line[j] == d
    decreases e - i
  {
    if i == e || line[i] == c || line[i] == d then i else NextSep2(line, i + 1, e, c, d)
  }

  lemma NextSep2StopsAt(line: string, i: nat, e: nat, c: char, d: char, j: nat)
    requires i <= j <= e <= |line|
    requires forall k :: i <= k < j ==> line[k] != c && line[k] != d
    requires j < e ==> line[j] == c || line[j] == d
    ensures NextSep2(line, i, e, c, d) == j
  {
  }

  // ---------------------------------------------------------------------------
  // extractGroup

  const GroupStops: set<char> := {'.', ':', ';'}

  /** A line with its group taken off (`group` is None when the line has none). */
  datatype GroupSplit = GroupSplit(group: Option<string>, rest: string)

  /** What `extractGroup` does to a line: everything before a `.` that comes ahead of
      any `:` or `;` is the group; otherwise the line has no group and is kept. */
  function SplitGroup(line: string): (r: Result<GroupSplit>)
    ensures r.Failure? <==> line == []
    ensures r.Failure? ==> r.error == OtherError
    ensures r.Success? && r.value.group.None? ==> r.value.rest == line
    ensures r.Success? && r.value.group.Some? ==>
              line == r.value.group.value + "." + r.value.rest &&
              forall k :: 0 <= k < |r.value.group.value| ==> r.value.group.value[k] !in GroupStops
  {
    if line == [] then Failure(OtherError)
    else
      var i := Span(line, GroupStops);
      if i < |line| && line[i] == '.' then
        assert line == line[..i] + "." + line[i + 1..];
        Success(GroupSplit(Some(line[..i]), line[i + 1..]))
      else Success(GroupSplit(None, line))
  }

  /** `extractGroup`: copies the group name character by character, then cuts the
      line after the dot. */
  method ExtractGroup(contentLine: string) returns (status: ErrorCode, group: Option<string>, newLine: string)
    ensures match SplitGroup(contentLine)
            case Failure(e) => status == e && group.None? && newLine == contentLine
            case Success(g) => status == Ok && group == g.group && newLine == g.rest
  {
    if |contentLine| == 0 {
      return OtherError, None, contentLine;
    }
    var i := 0;
    while i < |contentLine| && contentLine[i] !in GroupStops
      invariant i <= |contentLine|
      invariant forall k :: 0 <= k < i ==> contentLine[k] !in GroupStops
    {
      i := i + 1;
    }
    var newGroup := contentLine[..i];
    assert i == Span(contentLine, GroupStops);
    if i < |contentLine| && contentLine[i] == '.' {
      return Ok, Some(newGroup), contentLine[i + 1..];
    }
    return Ok, None, contentLine;
  }

  /** A group free of `.`, `:` and `;` written before a dot is taken off again. */
  lemma GroupRoundTrip(g: string, rest: string)
    requires forall k :: 0 <= k < |g| ==> g[k] !in GroupStops
    ensures SplitGroup(g + "." + rest) == Success(GroupSplit(Some(g), rest))
  {
    var line := g + "." + rest;
    assert line[|g|] == '.';
    SpanStopsAt(line, GroupStops, |g|);
    assert line[..|g|] == g;
    assert line[|g| + 1..] == rest;
  }

  /** A line whose first `:` or `;` comes before any dot has no group. */
  lemma NoGroupKeepsLine(line: string, i: nat)
    requires i < |line| && (line[i] == ':' || line[i] == ';')
    requires forall k :: 0 <= k < i ==> line[k] !in GroupStops
    ensures SplitGroup(line) == Success(GroupSplit(None, line))
  {
    SpanStopsAt(line, GroupStops, i);
  }

  /** The span ends at the first stop character. */
  lemma SpanStopsAt(s: string, stops: set<char>, i: nat)
    requires i <= |s| && (i < |s| ==> s[i] in stops)
    requires forall k :: 0 <= k < i ==> s[k] !in stops
    ensures Span(s, stops) == i
  {
  }

  // ---------------------------------------------------------------------------
  // extractProp

  predicate IsNameChar(c: char) { IsAlpha(c) || c == '-' }

  /** Length of the leading run of letters and dashes. */
  function NameLength(s: string): (n: nat)
    ensures n <= |s|
    ensures forall k :: 0 <= k < n ==> IsNameChar(s[k])
    ensures n < |s| ==> !IsNameChar(s[n])
  {
    if s == [] || !IsNameChar(s[0]) then 0 else 1 + NameLength(s[1..])
  }

  /** A line `extractProp` can inspect without reading before its start: the
      line-end test reads the second-to-last character of a one-character line whose
      only character is neither LF nor a name character. */
  predicate PropReadable(line: string)
  {
    |line| != 1 || line[0] == '\n' || IsNameChar(line[0])
  }

  /** A line with its property name taken off. */
  datatype NameSplit = NameSplit(name: string, rest: string)

  /** What `extractProp` does to a line: the leading run of letters and dashes is
      the name and must not be the whole line; a line that is not an END line must
      end in LF or have CR as its next-to-last character. */
  function SplitName(line: string): (r: Result<NameSplit>)
    requires PropReadable(line)
    ensures r.Failure? ==> r.error == InvProp
    ensures r.Failure? <==> line == [] || NameLength(line) == |line|
                            || (!SameIgnoringCase(line[..NameLength(line)], "END") && line[|line| - 1] != '\n' && line[|line| - 2] != '\r')
    ensures r.Success? ==> line == r.value.name + r.value.rest && r.value.rest != []
    ensures r.Success? ==> (forall k :: 0 <= k < |r.value.name| ==> IsNameChar(r.value.name[k])) && !IsNameChar(r.value.rest[0])
  {
    if line == [] then Failure(InvProp)
    else
      var i := NameLength(line);
      if i == |line| then Failure(InvProp)
      else if !SameIgnoringCase(line[..i], "END") && line[|line| - 1] != '\n' && line[|line| - 2] != '\r' then Failure(InvProp)
      else
        assert line == line[..i] + line[i..];
        Success(NameSplit(line[..i], line[i..]))
  }

  /** `extractProp`: copies letters and dashes into the name, then checks the line
      end and cuts the name off the line. */
  method ExtractProp(contentLine: string) returns (status: ErrorCode, prop: Option<string>, newLine: string)
    requires PropReadable(contentLine)
    ensures match SplitName(contentLine)
            case Failure(e) => status == e && prop.None? && newLine == contentLine
            case Success(n) => status == Ok && prop == Some(n.name) && newLine == n.rest
  {
    if |contentLine| == 0 {
      return InvProp, None, contentLine;
    }
    var length := |contentLine|;
    var i := 0;
    while i < length && IsNameChar(contentLine[i])
      invariant i <= length
      invariant forall k :: 0 <= k < i ==> IsNameChar(contentLine[k])
    {
      i := i + 1;
    }
    var newProperty := contentLine[..i];
    NameLengthIs(contentLine, i);
    if i < length {
      if StrcmpIC(newProperty, "END") != 0 {
        if contentLine[length - 1] != '\n' && contentLine[length - 2] != '\r' {
          return InvProp, None, contentLine;
        }
      }
      return Ok, Some(newProperty), contentLine[i..];
    }
    return InvProp, None, contentLine;
  }

  /** The name run ends at the first character that is not a letter or a dash. */
  lemma NameLengthIs(s: string, i: nat)
    requires i <= |s| && (i < |s| ==> !IsNameChar(s[i]))
    requires forall k :: 0 <= k < i ==> IsNameChar(s[k])
    ensures NameLength(s) == i
  {
  }

  /** A name followed by a remainder that starts with a non-name character and ends
      in CRLF is taken off whole. */
  lemma NameRoundTrip(name: string, rest: string)
    requires forall k :: 0 <= k < |name| ==> IsNameChar(name[k])
    requires |rest| >= 2 && !IsNameChar(rest[0]) && rest[|rest| - 1] == '\n'
    ensures PropReadable(name + rest)
    ensures SplitName(name + rest) == Success(NameSplit(name, rest))
  {
    var line := name + rest;
    NameLengthIs(line, |name|);
    assert line[..|name|] == name;
    assert line[|name|..] == rest;
  }

  /** An END name passes whatever the line ends with. */
  lemma EndNameSkipsLineEnd(line: string)
    requires PropReadable(line)
    requires NameLength(line) < |line| && SameIgnoringCase(line[..NameLength(line)], "END")
    ensures SplitName(line).Success?
  {
  }

  // ---------------------------------------------------------------------------
  // parseParameters

  /** The parameters at the front of a line and the rest, which is empty or starts
      with `:`. */
  datatype ParamSplit = ParamSplit(params: seq<Parameter>, rest: string)

  /** What `parseParameters` does to `line` from index `i` on: while the line does
      not continue with `:` it must continue with `;name=value`, where the name runs
      to the next `=` (and may hold `:` or `;`) and the value runs to the next `:` or
      `;`, and neither may be empty. */
  function ParamsAt(line: string, i: nat): (r: Result<ParamSplit>)
    requires i <= |line|
    ensures r.Failure? ==> r.error == InvProp
    ensures r.Success? ==> r.value.rest == [] || r.value.rest[0] == ':'
    ensures r.Success? && i < |line| ==> r.value.rest != []
    decreases |line| - i
  {
    if i == |line| || line[i] == ':' then Success(ParamSplit([], line[i..]))
    else if line[i] != ';' then Failure(InvProp)
    else
      var n := NextSep(line, i + 1, |line|, '=');
      if n == |line| then Failure(InvProp)
      else
        var m := NextSep2(line, n + 1, |line|, ':', ';');
        if m == |line| then Failure(InvProp)
        else if n == i + 1 || m == n + 1 then Failure(InvProp)
        else Prepend([Parameter(line[i + 1..n], line[n + 1..m])], ParamsAt(line, m))
  }

  /** Parameters already appended in front of what the rest of the line yields. */
  function Prepend(ps: seq<Parameter>, r: Result<ParamSplit>): Result<ParamSplit>
  {
    match r
    case Failure(e) => Failure(e)
    case Success(x) => Success(ParamSplit(ps + x.params, x.rest))
  }

  lemma PrependTwice(a: seq<Parameter>, b: seq<Parameter>, r: Result<ParamSplit>)
    ensures Prepend(a, Prepend(b, r)) == Prepend(a + b, r)
  {
    if r.Success? {
      assert a + (b + r.value.params) == a + b + r.value.params;
    }
  }

  /** The ways a parameter list is refused, with `n` the first `=` after the `;` at
      `i` (or the line's end when there is none): a character other than `;` or `:`
      where an entry should start, no `=` at all, an empty name, an empty value, or
      a value that runs to the end of the line without a `:` or `;`. */
  lemma ParamsAtRejects(line: string, i: nat, n: nat)
    requires i < n <= |line| && Lacks(line[i + 1..n], '=') && (n == |line| || line[n] == '=')
    ensures line[i] != ';' && line[i] != ':' ==> ParamsAt(line, i) == Failure(InvProp)
    ensures line[i] == ';' && n == |line| ==> ParamsAt(line, i) == Failure(InvProp)
    ensures line[i] == ';' && n == i + 1 ==> ParamsAt(line, i) == Failure(InvProp)
    ensures line[i] == ';' && n + 1 < |line| && (line[n + 1] == ':' || line[n + 1] == ';') ==> ParamsAt(line, i) == Failure(InvProp)
    ensures line[i] == ';' && n < |line| && Lacks(line[n + 1..], ':') && Lacks(line[n + 1..], ';') ==> ParamsAt(line, i) == Failure(InvProp)
  {
    if line[i] == ';' {
      assert forall k :: i + 1 <= k < n ==> line[k] == line[i + 1..n][k - (i + 1)];
      NextSepStopsAt(line, i + 1, |line|, '=', n);
      if n < |line| {
        var m := NextSep2(line, n + 1, |line|, ':', ';');
        if Lacks(line[n + 1..], ':') && Lacks(line[n + 1..], ';') {
          assert forall k :: n + 1 <= k < |line| ==> line[k] == line[n + 1..][k - (n + 1)];
          NextSep2StopsAt(line, n + 1, |line|, ':', ';', |line|);
        }
      }
    }
  }

  /** One well-formed `;name=value` entry from `i` to the `:` or `;` at `m`, with
      its `=` at `n`. */
  lemma ParamsStep(line: string, i: nat, n: nat, m: nat)
    requires i < n < m < |line| && line[i] == ';' && line[n] == '=' && (line[m] == ':' || line[m] == ';')
    requires NextSep(line, i + 1, |line|, '=') == n && NextSep2(line, n + 1, |line|, ':', ';') == m
    requires i + 1 < n && n + 1 < m
    ensures ParamsAt(line, i) == Prepend([Parameter(line[i + 1..n], line[n + 1..m])], ParamsAt(line, m))
  {
  }

  /** The scan of a parameter name: the index of the first `c` at or after `from`,
      or the end of the line. */
  method ScanTo(line: string, from: nat, c: char) returns (j: nat)
    requires from <= |line|
    ensures j == NextSep(line, from, |line|, c)
  {
    j := from;
    while j < |line| && line[j] != c
      invariant from <= j <= |line|
      invariant NextSep(line, j, |line|, c) == NextSep(line, from, |line|, c)
    {
      j := j + 1;
    }
  }

  /** The scan of a parameter value: the index of the first `c` or `d` at or after
      `from`, or the end of the line. */
  method ScanTo2(line: string, from: nat, c: char, d: char) returns (j: nat)
    requires from <= |line|
    ensures j == NextSep2(line, from, |line|, c, d)
  {
    j := from;
    while j < |line| && line[j] != c && line[j] != d
      invariant from <= j <= |line|
      invariant NextSep2(line, j, |line|, c, d) == NextSep2(line, from, |line|, c, d)
    {
      j := j + 1;
    }
  }

  /** `parseParameters`: the outer loop walks `;name=value` entries up to the `:`;
      for each entry the name is scanned up to `=` and the value up to `:` or `;`,
      and the parameter is appended to the list in the order met. */
  method ParseParameters(contentLine: string) returns (status: ErrorCode, params: seq<Parameter>, newLine: string)
    ensures match ParamsAt(contentLine, 0)
            case Failure(e) => status == e
            case Success(p) => status == Ok && params == p.params && newLine == p.rest
  {
    var contentIndex := 0;
    var length := |contentLine|;
    params := [];
    assert Prepend([], ParamsAt(contentLine, 0)) == ParamsAt(contentLine, 0) by {
      var r := ParamsAt(contentLine, 0);
      if r.Success? {
        assert [] + r.value.params == r.value.params;
      }
    }
    while contentIndex < length && contentLine[contentIndex] != ':'
      invariant contentIndex <= length
      invariant ParamsAt(contentLine, 0) == Prepend(params, ParamsAt(contentLine, contentIndex))
      decreases length - contentIndex
    {
      var entry := contentIndex;
      if contentLine[entry] != ';' {
        return InvProp, params, contentLine;
      }
      var nameEnd := ScanTo(contentLine, entry + 1, '=');
      if nameEnd >= length {
        return InvProp, params, contentLine;
      }
      var valueEnd := ScanTo2(contentLine, nameEnd + 1, ':', ';');
      if valueEnd >= length {
        return InvProp, params, contentLine;
      }
      var paramName := contentLine[entry + 1..nameEnd];
      var paramValue := contentLine[nameEnd + 1..valueEnd];
      if |paramName| < 1 || |paramValue| < 1 {
        return InvProp, params, contentLine;
      }
      var param := Parameter(paramName, paramValue);
      ParamsStep(contentLine, entry, nameEnd, valueEnd);
      PrependTwice(params, [param], ParamsAt(contentLine, valueEnd));
      params := params + [param];
      contentIndex := valueEnd;
    }
    assert params + [] == params;
    return Ok, params, contentLine[contentIndex..];
  }

  /** Every parameter is a `;name=value` entry, so an empty parameter list leaves a
      line that starts with `:` untouched. */
  lemma NoParamsKeepsLine(line: string)
    requires line != [] && line[0] == ':'
    ensures ParamsAt(line, 0) == Success(ParamSplit([], line))
  {
  }

  // ---------------------------------------------------------------------------
  // parsePropertyValues

  /** `line[i..e]` cut at every `c`: one more piece than there are separators. */
  function SplitAt(line: string, i: nat, e: nat, c: char): (r: seq<string>)
    requires i <= e <= |line|
    ensures |r| >= 1
    decreases e - i
  {
    var j := NextSep(line, i, e, c);
    if j == e then [line[i..e]] else [line[i..j]] + SplitAt(line, j + 1, e, c)
  }

  /** `s` holds no `c`. */
  predicate Lacks(s: string, c: char)
  {
    forall k :: 0 <= k < |s| ==> s[k] != c
  }

  /** The pieces glued back together with `sep` between neighbours. */
  function Join(vs: seq<string>, sep: char): string
  {
    if vs == [] then "" else if |vs| == 1 then vs[0] else vs[0] + [sep] + Join(vs[1..], sep)
  }

  /** A slice with the character at `j` taken out of its middle. */
  lemma SliceAround(s: string, i: nat, j: nat, e: nat)
    requires i <= j < e <= |s|
    ensures s[i..e] == s[i..j] + [s[j]] + s[j + 1..e]
  {
  }

  /** Gluing the pieces back together gives the cut text. */
  lemma {:induction false} JoinSplitAt(line: string, i: nat, e: nat, c: char)
    requires i <= e <= |line|
    ensures Join(SplitAt(line, i, e, c), c) == line[i..e]
    decreases e - i
  {
    var j := NextSep(line, i, e, c);
    var vs := SplitAt(line, i, e, c);
    if j < e {
      var head := line[i..j];
      var ts := SplitAt(line, j + 1, e, c);
      assert vs == [head] + ts;
      JoinSplitAt(line, j + 1, e, c);
      assert vs[0] == head && vs[1..] == ts;
      var tail := line[j + 1..e];
      assert Join(vs, c) == head + [c] + tail;
      SliceAround(line, i, j, e);
    } else {
      assert vs == [line[i..e]];
    }
  }

  /** No piece holds the separator. */
  lemma {:induction false} SplitAtLacks(line: string, i: nat, e: nat, c: char)
    requires i <= e <= |line|
    ensures forall k :: 0 <= k < |SplitAt(line, i, e, c)| ==> Lacks(SplitAt(line, i, e, c)[k], c)
    decreases e - i
  {
    var j := NextSep(line, i, e, c);
    var vs := SplitAt(line, i, e, c);
    var head := line[i..j];
    assert Lacks(head, c);
    if j < e {
      var ts := SplitAt(line, j + 1, e, c);
      assert vs == [head] + ts;
      SplitAtLacks(line, j + 1, e, c);
    } else {
      assert vs == [head];
    }
  }

  /** The first piece runs up to the first separator at `j`. */
  lemma SplitAtHead(line: string, i: nat, e: nat, c: char, j: nat)
    requires i <= j < e <= |line| && line[j] == c
    requires forall k :: i <= k < j ==> line[k] != c
    ensures SplitAt(line, i, e, c) == [line[i..j]] + SplitAt(line, j + 1, e, c)
  {
    NextSepStopsAt(line, i, e, c, j);
  }

  /** Without a separator there is one piece. */
  lemma SplitAtWhole(line: string, i: nat, e: nat, c: char)
    requires i <= e <= |line|
    requires forall k :: i <= k < e ==> line[k] != c
    ensures SplitAt(line, i, e, c) == [line[i..e]]
  {
    NextSepStopsAt(line, i, e, c, e);
  }

  /** A slice holding `v`, a separator and `rest` gives each back. */
  lemma SlicePieces(line: string, i: nat, v: string, c: char, rest: string)
    requires i + |v| + 1 + |rest| <= |line|
    requires line[i..i + |v| + 1 + |rest|] == v + [c] + rest
    ensures line[i..i + |v|] == v && line[i + |v|] == c
    ensures line[i + |v| + 1..i + |v| + 1 + |rest|] == rest
  {
    var w := line[i..i + |v| + 1 + |rest|];
    assert w[..|v|] == v;
    assert w[|v| + 1..] == rest;
  }

  /** The first of several joined pieces is cut off at the separator after it. */
  lemma SplitJoinHead(line: string, i: nat, e: nat, v: string, rest: string, c: char)
    requires Lacks(v, c)
    requires e == i + |v| + 1 + |rest| && e <= |line| && line[i..e] == v + [c] + rest
    ensures SplitAt(line, i, e, c) == [v] + SplitAt(line, i + |v| + 1, e, c)
    ensures line[i + |v| + 1..e] == rest
  {
    SlicePieces(line, i, v, c, rest);
    assert forall k :: i <= k < i + |v| ==> line[k] == v[k - i];
    SplitAtHead(line, i, e, c, i + |v|);
  }

  /** Separator-free pieces glued together with `c` between positions `i` and `e`
      of a line are cut back into the same pieces. */
  lemma {:induction false} SplitJoinAt(line: string, i: nat, e: nat, vs: seq<string>, c: char)
    requires vs != []
    requires forall k :: 0 <= k < |vs| ==> Lacks(vs[k], c)
    requires e == i + |Join(vs, c)| && e <= |line| && line[i..e] == Join(vs, c)
    ensures SplitAt(line, i, e, c) == vs
    decreases |vs|
  {
    var v := vs[0];
    assert Lacks(v, c);
    if |vs| == 1 {
      assert line[i..e] == v;
      assert forall k :: i <= k < e ==> line[k] == v[k - i];
      SplitAtWhole(line, i, e, c);
    } else {
      var rest := Join(vs[1..], c);
      assert Join(vs, c) == v + [c] + rest;
      SplitJoinHead(line, i, e, v, rest, c);
      var mid := i + |v| + 1;
      SplitJoinAt(line, mid, e, vs[1..], c);
      assert vs == [v] + vs[1..];
    }
  }

  /** A value line `parsePropertyValues` can scan: the check for a trailing `;`
      reads the character before the scan position, which is before the line when
      the line is empty or starts with CR or LF. */
  predicate ValuesReadable(line: string)
  {
    line != [] && line[0] != '\r' && line[0] != '\n'
  }

  /** Where the values start: after one leading `:`, if there is one. */
  function BodyStart(line: string): nat
  {
    if line != [] && line[0] == ':' then 1 else 0
  }

  /** Where the values end: at the first CR or LF after the start, or at the end. */
  function BodyEnd(line: string): (e: nat)
    ensures BodyStart(line) <= e <= |line|
  {
    NextSep2(line, BodyStart(line), |line|, '\r', '\n')
  }

  /** What `parsePropertyValues` appends: the text between the body start and end
      cut at every `;` (so a trailing `;` gives a trailing empty value), and nothing
      for an empty body.  Backslashes are kept: escape decoding is commented out in
      the source. */
  function ValuesOf(line: string): seq<string>
  {
    var i := BodyStart(line);
    var e := BodyEnd(line);
    if i == e then [] else SplitAt(line, i, e, ';')
  }

  /** Values as the reader's loop still has to produce them from `idx` up to the
      body end `e`: the rest cut at `;`, or one empty value when the body ended
      right after a `;`. */
  function Pending(line: string, idx: nat, e: nat): seq<string>
    requires idx <= e <= |line|
  {
    if idx < e then SplitAt(line, idx, e, ';')
    else if idx > 0 && line[idx - 1] == ';' then [""]
    else []
  }

  lemma PendingAtStart(line: string)
    ensures Pending(line, BodyStart(line), BodyEnd(line)) == ValuesOf(line)
  {
  }

  /** One value taken off the front of what is still pending. */
  lemma PendingStep(line: string, i: nat, j: nat, e: nat)
    requires i <= j <= e <= |line| && i < e
    requires j == NextSep(line, i, e, ';')
    ensures j < e ==> Pending(line, i, e) == [line[i..j]] + Pending(line, j + 1, e)
    ensures j == e ==> Pending(line, i, e) == [line[i..j]] + Pending(line, j, e)
  {
    var head := line[i..j];
    if j == e {
      assert Pending(line, i, e) == [head];
      assert line[e - 1] != ';';
      assert Pending(line, j, e) == [];
    } else {
      var rest := SplitAt(line, j + 1, e, ';');
      assert Pending(line, i, e) == [head] + rest;
      if j + 1 == e {
        assert NextSep(line, e, e, ';') == e;
        assert line[e..e] == "";
        assert rest == [""];
        assert Pending(line, j + 1, e) == [""];
      } else {
        assert Pending(line, j + 1, e) == rest;
      }
    }
  }

  /** The scan of one value: up to `;`, CR, LF or the end, which inside the body
      is the next `;` or the body end. */
  method ScanValue(line: string, from: nat, ghost e: nat) returns (j: nat)
    requires from <= e <= |line|
    requires e == NextSep2(line, from, |line|, '\r', '\n')
    ensures j == NextSep(line, from, e, ';')
    ensures NextSep2(line, j, |line|, '\r', '\n') == e
  {
    j := from;
    while j < |line| && line[j] != ';' && line[j] != '\r' && line[j] != '\n'
      invariant from <= j <= e
      invariant NextSep2(line, j, |line|, '\r', '\n') == e
      invariant NextSep(line, j, e, ';') == NextSep(line, from, e, ';')
    {
      j := j + 1;
    }
  }

  /** One turn of the reader's loop: the value up to the next `;` (or the body end
      `e`) is appended and the scan resumes after the `;`. */
  lemma ValueStep(line: string, values: seq<string>, i: nat, j: nat, next: nat, e: nat, goal: seq<string>)
    requires i < e <= |line| && j == NextSep(line, i, e, ';')
    requires NextSep2(line, j, |line|, '\r', '\n') == e
    requires next == if j < |line| && (line[j] == ',' || line[j] == ';') then j + 1 else j
    requires values + Pending(line, i, e) == goal
    ensures next <= e && NextSep2(line, next, |line|, '\r', '\n') == e
    ensures values + [line[i..j]] + Pending(line, next, e) == goal
  {
    PendingStep(line, i, j, e);
    assert values + [line[i..j]] + Pending(line, next, e) == values + ([line[i..j]] + Pending(line, next, e));
  }

  /** `parsePropertyValues`: each value is scanned up to `;`, CR, LF or the end,
      the `;` is stepped over, and a final `;` adds an empty value. */
  method ParsePropertyValues(contentLine: string) returns (values: seq<string>)
    requires ValuesReadable(contentLine)
    ensures values == ValuesOf(contentLine)
  {
    var length := |contentLine|;
    var contentIndex := 0;
    if contentLine[contentIndex] == ':' {
      contentIndex := contentIndex + 1;
    }
    ghost var e := BodyEnd(contentLine);
    ghost var goal := ValuesOf(contentLine);
    PendingAtStart(contentLine);
    values := [];
    while contentIndex < length && contentLine[contentIndex] != '\r' && contentLine[contentIndex] != '\n'
      invariant contentIndex <= e
      invariant NextSep2(contentLine, contentIndex, length, '\r', '\n') == e
      invariant values + Pending(contentLine, contentIndex, e) == goal
      decreases length - contentIndex
    {
      var valueStart := contentIndex;
      var valueEnd := ScanValue(contentLine, valueStart, e);
      var propertyValue := contentLine[valueStart..valueEnd];
      contentIndex := valueEnd;
      if valueEnd < length && (contentLine[valueEnd] == ',' || contentLine[valueEnd] == ';') {
        contentIndex := valueEnd + 1;
      }
      ValueStep(contentLine, values, valueStart, valueEnd, contentIndex, e, goal);
      values := values + [propertyValue];
    }
    if contentLine[contentIndex - 1] == ';' {
      values := values + [""];
    } else {
      assert values + [] == values;
    }
  }
}
