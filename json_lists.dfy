// The JSON forms of a value list and of a property (`strListToJSON`,
// `JSONtoStrList`, `propToJSON`, `JSONtoProp` in VCardParser.c).
//
// A list is written `["v1","v2",...]`; only `"` is escaped (as `\"`).  The
// reader keeps `\n`/`\N` as a newline, `\"` and `\\` as the character, and any
// other escaped character as itself.  A property is written
// `{"group":"G","name":"N","values":[...]}`; its parameters are not written.

module JsonLists {
  import opened VCardTypes
  import opened ContentLines
  import opened JsonScan

  // ---------------------------------------------------------------------------
  // Writing a list

  /** One character of a value as the writer emits it. */
  function EscapedChar(c: char): string
  {
    if c == '"' then "\\\"" else [c]
  }

  function Escape(v: string): string
    decreases |v|
  {
    if v == [] then "" else EscapedChar(v[0]) + Escape(v[1..])
  }

  /** A quoted value. */
  function Item(v: string): string
  {
    "\"" + Escape(v) + "\""
  }

  /** Every value quoted and followed by a comma, as the writer's loop leaves them. */
  function Items(vs: seq<string>): string
    decreases |vs|
  {
    if vs == [] then "" else Item(vs[0]) + "," + Items(vs[1..])
  }

  /** The quoted values separated by commas. */
  function Joined(vs: seq<string>): string
    requires vs != []
    decreases |vs|
  {
    if |vs| == 1 then Item(vs[0]) else Item(vs[0]) + "," + Joined(vs[1..])
  }

  /** What `strListToJSON` produces. */
  function ListJSON(vs: seq<string>): string
  {
    if vs == [] then "[]" else "[" + Joined(vs) + "]"
  }

  lemma {:induction false} EscapeSnoc(v: string, c: char)
    ensures Escape(v + [c]) == Escape(v) + EscapedChar(c)
    decreases |v|
  {
    if v == [] {
      assert v + [c] == [c];
      assert Escape([c][1..]) == "";
    } else {
      assert (v + [c])[0] == v[0];
      assert (v + [c])[1..] == v[1..] + [c];
      EscapeSnoc(v[1..], c);
      Assoc(EscapedChar(v[0]), Escape(v[1..]), EscapedChar(c));
    }
  }

  lemma {:induction false} ItemsSnoc(vs: seq<string>, v: string)
    ensures Items(vs + [v]) == Items(vs) + Item(v) + ","
    decreases |vs|
  {
    if vs == [] {
      assert vs + [v] == [v];
      assert Items([v][1..]) == "";
    } else {
      assert (vs + [v])[0] == vs[0];
      assert (vs + [v])[1..] == vs[1..] + [v];
      ItemsSnoc(vs[1..], v);
      var head := Item(vs[0]) + ",";
      assert Items(vs + [v]) == head + (Items(vs[1..]) + Item(v) + ",");
      Assoc(head, Items(vs[1..]) + Item(v), ",");
      Assoc(head, Items(vs[1..]), Item(v));
    }
  }

  /** The comma after the last value is the only difference. */
  lemma {:induction false} ItemsJoined(vs: seq<string>)
    requires vs != []
    ensures Items(vs) == Joined(vs) + ","
    decreases |vs|
  {
    if |vs| == 1 {
      assert Items(vs[1..]) == "";
    } else {
      ItemsJoined(vs[1..]);
      Assoc(Item(vs[0]) + ",", Joined(vs[1..]), ",");
    }
  }

  /** The copy loop of `strListToJSON`: each character of the value, with a
      backslash before each `"`. */
  method AppendEscaped(json: string, tempStr: string) returns (out: string)
    ensures out == json + Escape(tempStr)
  {
    out := json;
    var strIndex := 0;
    while strIndex < |tempStr|
      invariant 0 <= strIndex <= |tempStr|
      invariant out == json + Escape(tempStr[..strIndex])
    {
      var c := tempStr[strIndex];
      EscapeSnoc(tempStr[..strIndex], c);
      assert tempStr[..strIndex + 1] == tempStr[..strIndex] + [c];
      Assoc(json, Escape(tempStr[..strIndex]), EscapedChar(c));
      if c == '"' {
        out := out + "\\";
        Assoc(json + Escape(tempStr[..strIndex]), "\\", [c]);
      }
      out := out + [c];
      strIndex := strIndex + 1;
    }
    assert tempStr[..strIndex] == tempStr;
  }

  /** `strListToJSON`: opens with `[`, appends each value quoted and followed by
      a comma, then replaces a final comma by `]`. */
  method StrListToJSON(strList: seq<string>) returns (json: string)
    ensures json == ListJSON(strList)
  {
    json := "[";
    var i := 0;
    while i < |strList|
      invariant 0 <= i <= |strList|
      invariant json == "[" + Items(strList[..i])
    {
      var tempStr := strList[i];
      var before := json;
      json := AppendEscaped(json + "\"", tempStr);
      json := json + "\"" + ",";
      ItemsSnoc(strList[..i], tempStr);
      assert strList[..i + 1] == strList[..i] + [tempStr];
      ItemAppended(before, tempStr);
      Assoc("[", Items(strList[..i]), Item(tempStr) + ",");
      Assoc(Items(strList[..i]), Item(tempStr), ",");
      i := i + 1;
    }
    assert strList[..i] == strList;
    if strList != [] {
      ItemsJoined(strList);
      Assoc("[", Joined(strList), ",");
    }
    if json[|json| - 1] == ',' {
      json := json[..|json| - 1];
    }
    json := json + "]";
  }

  lemma ItemAppended(json: string, v: string)
    ensures json + "\"" + Escape(v) + "\"" + "," == json + (Item(v) + ",")
  {
  }

  // ---------------------------------------------------------------------------
  // Reading a list

  /** What an escaped character stands for. */
  function Unescape(c: char): char
  {
    if c == 'n' || c == 'N' then '\n' else c
  }

  /** The reading loop from index `j`: inside or outside a quoted value, the value
      read so far and the values completed.  As written the loop also ends at a
      `]` inside a quoted value; corrected, only at one outside. */
  function ListFrom(s: string, j: nat, inValue: bool, cur: string, acc: seq<string>, reading: Reading): Option<seq<string>>
    decreases |s| - j
  {
    if j >= |s| || (s[j] == ']' && (reading == AsWritten || !inValue)) then Some(acc)
    else if !inValue then
      if s[j] == '"' then ListFrom(s, j + 1, true, "", acc, reading)
      else if s[j] != ',' then None
      else if At(s, j - 1) != '"' && At(s, j + 1) != '"' then None
      else ListFrom(s, j + 1, false, cur, acc, reading)
    else if s[j] == '"' then ListFrom(s, j + 1, false, cur, acc + [cur], reading)
    else if s[j] == '\\' then ListFrom(s, j + 2, true, cur + [Unescape(At(s, j + 1))], acc, reading)
    else ListFrom(s, j + 1, true, cur + [s[j]], acc, reading)
  }

  /** `JSONtoStrList`: NULL unless the text opens with `["`. */
  function StrListDecode(s: string, reading: Reading): Option<seq<string>>
  {
    if At(s, 0) != '[' || At(s, 1) != '"' then None
    else ListFrom(s, 1, false, "", [], reading)
  }

  /** `JSONtoStrList`, the loop as the source writes it. */
  method JSONtoStrList(str: string) returns (strList: Option<seq<string>>)
    ensures strList == StrListDecode(str, AsWritten)
  {
    if At(str, 0) != '[' || At(str, 1) != '"' {
      return None;
    }
    var values: seq<string> := [];
    var tempStr := "";
    var jsonIndex := 1;
    var inValue := false;
    while jsonIndex < |str| && str[jsonIndex] != ']'
      invariant 1 <= jsonIndex <= |str| + 1
      invariant ListFrom(str, jsonIndex, inValue, tempStr, values, AsWritten) == StrListDecode(str, AsWritten)
      decreases |str| + 1 - jsonIndex
    {
      if !inValue {
        if str[jsonIndex] == '"' {
          tempStr := "";
          inValue := true;
        } else if str[jsonIndex] != ',' {
          return None;
        } else if At(str, jsonIndex - 1) != '"' && At(str, jsonIndex + 1) != '"' {
          return None;
        }
      } else {
        if str[jsonIndex] == '"' {
          values := values + [tempStr];
          inValue := false;
        } else if str[jsonIndex] == '\\' {
          jsonIndex := jsonIndex + 1;
          tempStr := tempStr + [Unescape(At(str, jsonIndex))];
        } else {
          tempStr := tempStr + [str[jsonIndex]];
        }
      }
      jsonIndex := jsonIndex + 1;
    }
    return Some(values);
  }

  // ---------------------------------------------------------------------------
  // The list round trip

  /** A value the reader gives back unchanged: no backslash (the writer does not
      escape it) and, as written, no `]`. */
  predicate Plain(v: string, reading: Reading)
  {
    forall k :: 0 <= k < |v| ==> v[k] != '\\' && (reading == Corrected || v[k] != ']')
  }

  predicate Listable(vs: seq<string>, reading: Reading)
  {
    vs != [] && forall k :: 0 <= k < |vs| ==> Plain(vs[k], reading)
  }

  // One step of the reading loop each.

  lemma StepOpen(s: string, j: nat, cur: string, acc: seq<string>, reading: Reading)
    requires j < |s| && s[j] == '"'
    ensures ListFrom(s, j, false, cur, acc, reading) == ListFrom(s, j + 1, true, "", acc, reading)
  {
  }

  lemma StepClose(s: string, j: nat, cur: string, acc: seq<string>, reading: Reading)
    requires j < |s| && s[j] == '"'
    ensures ListFrom(s, j, true, cur, acc, reading) == ListFrom(s, j + 1, false, cur, acc + [cur], reading)
  {
  }

  lemma StepEscape(s: string, j: nat, cur: string, acc: seq<string>, reading: Reading)
    requires j < |s| && s[j] == '\\'
    ensures ListFrom(s, j, true, cur, acc, reading) == ListFrom(s, j + 2, true, cur + [Unescape(At(s, j + 1))], acc, reading)
  {
  }

  lemma StepChar(s: string, j: nat, cur: string, acc: seq<string>, reading: Reading)
    requires j < |s| && s[j] != '"' && s[j] != '\\' && (reading == Corrected || s[j] != ']')
    ensures ListFrom(s, j, true, cur, acc, reading) == ListFrom(s, j + 1, true, cur + [s[j]], acc, reading)
  {
  }

  lemma StepComma(s: string, j: nat, cur: string, acc: seq<string>, reading: Reading)
    requires 0 < j < |s| && s[j] == ',' && s[j - 1] == '"'
    ensures ListFrom(s, j, false, cur, acc, reading) == ListFrom(s, j + 1, false, cur, acc, reading)
  {
  }

  lemma StepEnd(s: string, j: nat, cur: string, acc: seq<string>, reading: Reading)
    requires j < |s| && s[j] == ']'
    ensures ListFrom(s, j, false, cur, acc, reading) == Some(acc)
  {
  }

  /** Where the first character of an escaped value sits, and where the rest
      of it starts. */
  lemma ValueLayout(s: string, p: nat, v: string)
    requires v != [] && Holds(s, p, Escape(v) + "\"")
    ensures v[0] == '"' ==> p + 1 < |s| && s[p] == '\\' && At(s, p + 1) == '"' && Holds(s, p + 2, Escape(v[1..]) + "\"")
    ensures v[0] != '"' ==> p < |s| && s[p] == v[0] && Holds(s, p + 1, Escape(v[1..]) + "\"")
  {
    var e, ew := EscapedChar(v[0]), Escape(v[1..]);
    Assoc(e, ew, "\"");
    HoldsSplit(s, p, e, ew + "\"");
    HoldsChar(s, p, e, 0);
    if v[0] == '"' {
      HoldsChar(s, p, e, 1);
    }
  }

  /** Reading an escaped value up to its closing quote appends it. */
  lemma {:induction false} ValueRead(s: string, p: nat, v: string, cur: string, acc: seq<string>, reading: Reading, stop: nat)
    requires Plain(v, reading) && Holds(s, p, Escape(v) + "\"") && stop == p + |Escape(v)|
    ensures ListFrom(s, p, true, cur, acc, reading) == ListFrom(s, stop + 1, false, cur + v, acc + [cur + v], reading)
    decreases |v|
  {
    if v == [] {
      HoldsChar(s, p, "\"", 0);
      StepClose(s, p, cur, acc, reading);
      assert cur + v == cur;
    } else {
      var c, w := v[0], v[1..];
      ValueLayout(s, p, v);
      assert Plain(w, reading);
      assert cur + [c] + w == cur + v;
      assert |Escape(v)| == |EscapedChar(c)| + |Escape(w)|;
      if c == '"' {
        StepEscape(s, p, cur, acc, reading);
        ValueRead(s, p + 2, w, cur + [c], acc, reading, stop);
      } else {
        assert c != '\\' && (reading == Corrected || c != ']');
        StepChar(s, p, cur, acc, reading);
        ValueRead(s, p + 1, w, cur + [c], acc, reading, stop);
      }
    }
  }

  /** The list text after the opening `[` when one value is left. */
  lemma LastLayout(vs: seq<string>, e: string)
    requires |vs| == 1 && e == Escape(vs[0])
    ensures Joined(vs) + "]" == "\"" + ((e + "\"") + "]")
  {
    Assoc("\"" + e, "\"", "]");
    Assoc("\"", e, "\"" + "]");
    Assoc(e, "\"", "]");
  }

  /** The list text after the opening `[` when more values follow. */
  lemma MoreLayout(vs: seq<string>, e: string, tail: string)
    requires |vs| > 1 && e == Escape(vs[0]) && tail == Joined(vs[1..])
    ensures Joined(vs) + "]" == "\"" + ((e + "\"") + ("," + (tail + "]")))
  {
    var rest := "," + tail;
    assert Joined(vs) == "\"" + e + "\"" + rest;
    Assoc("\"" + e + "\"", rest, "]");
    Assoc(",", tail, "]");
    Assoc("\"" + e, "\"", rest + "]");
    Assoc("\"", e, "\"" + (rest + "]"));
    Assoc(e, "\"", rest + "]");
  }

  /** Where a quoted piece and what follows it sit. */
  lemma QuotedPlaced(s: string, p: nat, e: string, rest: string)
    requires Holds(s, p, "\"" + ((e + "\"") + rest))
    ensures p < |s| && s[p] == '"' && Holds(s, p + 1, e + "\"")
    ensures p + |e| + 1 < |s| && s[p + |e| + 1] == '"' && Holds(s, p + |e| + 2, rest)
  {
    HoldsSplit(s, p, "\"", (e + "\"") + rest);
    HoldsChar(s, p, "\"", 0);
    HoldsSplit(s, p + 1, e + "\"", rest);
    HoldsSplit(s, p + 1, e, "\"");
    HoldsChar(s, p + 1 + |e|, "\"", 0);
  }

  /** Where the last value and the closing bracket sit. */
  lemma LastPlaced(s: string, p: nat, e: string)
    requires Holds(s, p, "\"" + ((e + "\"") + "]"))
    ensures p < |s| && s[p] == '"' && Holds(s, p + 1, e + "\"")
    ensures p + |e| + 2 < |s| && s[p + |e| + 2] == ']'
  {
    QuotedPlaced(s, p, e, "]");
    HoldsChar(s, p + |e| + 2, "]", 0);
  }

  /** Where a value, the comma after it and the next value sit. */
  lemma MorePlaced(s: string, p: nat, e: string, tail: string)
    requires Holds(s, p, "\"" + ((e + "\"") + ("," + (tail + "]"))))
    ensures p < |s| && s[p] == '"' && Holds(s, p + 1, e + "\"")
    ensures p + |e| + 2 < |s| && s[p + |e| + 1] == '"' && s[p + |e| + 2] == ','
    ensures Holds(s, p + |e| + 3, tail + "]")
  {
    QuotedPlaced(s, p, e, "," + (tail + "]"));
    HoldsSplit(s, p + |e| + 2, ",", tail + "]");
    HoldsChar(s, p + |e| + 2, ",", 0);
  }

  /** Reading the first quoted value of the list. */
  lemma ItemFirst(s: string, p: nat, vs: seq<string>, cur: string, acc: seq<string>, reading: Reading, q: nat)
    requires Listable(vs, reading) && Holds(s, p, Joined(vs) + "]") && q == p + |Escape(vs[0])| + 2
    ensures ListFrom(s, p, false, cur, acc, reading) == ListFrom(s, q, false, vs[0], acc + [vs[0]], reading)
    ensures q < |s| && (|vs| == 1 ==> s[q] == ']')
    ensures |vs| > 1 ==> s[q] == ',' && s[q - 1] == '"' && Holds(s, q + 1, Joined(vs[1..]) + "]")
  {
    var v := vs[0];
    var e := Escape(v);
    assert Plain(v, reading);
    assert "" + v == v;
    if |vs| == 1 {
      LastLayout(vs, e);
      LastPlaced(s, p, e);
    } else {
      MoreLayout(vs, e, Joined(vs[1..]));
      MorePlaced(s, p, e, Joined(vs[1..]));
    }
    StepOpen(s, p, cur, acc, reading);
    ValueRead(s, p + 1, v, "", acc, reading, q - 1);
  }

  /** Reading the quoted values from their first quote to the closing `]`. */
  lemma {:induction false} ItemsRead(s: string, p: nat, vs: seq<string>, cur: string, acc: seq<string>, reading: Reading)
    requires Listable(vs, reading) && Holds(s, p, Joined(vs) + "]")
    ensures ListFrom(s, p, false, cur, acc, reading) == Some(acc + vs)
    decreases |vs|
  {
    var v := vs[0];
    var q := p + |Escape(v)| + 2;
    var acc' := acc + [v];
    ItemFirst(s, p, vs, cur, acc, reading, q);
    if |vs| == 1 {
      StepEnd(s, q, v, acc', reading);
      assert acc' == acc + vs;
    } else {
      StepComma(s, q, v, acc', reading);
      assert Listable(vs[1..], reading);
      ItemsRead(s, q + 1, vs[1..], v, acc', reading);
      assert acc' + vs[1..] == acc + vs;
    }
  }

  /** A non-empty list of plain values is read back from its JSON form, whatever
      follows the closing bracket. */
  lemma ListRoundTrip(vs: seq<string>, rest: string, reading: Reading)
    requires Listable(vs, reading)
    ensures StrListDecode(ListJSON(vs) + rest, reading) == Some(vs)
  {
    var j := Joined(vs);
    var s := ListJSON(vs) + rest;
    HoldsPrefix(ListJSON(vs), rest);
    Assoc("[", j, "]");
    HoldsSplit(s, 0, "[", j + "]");
    HoldsChar(s, 0, "[", 0);
    if |vs| == 1 {
      LastLayout(vs, Escape(vs[0]));
      LastPlaced(s, 1, Escape(vs[0]));
    } else {
      MoreLayout(vs, Escape(vs[0]), Joined(vs[1..]));
      MorePlaced(s, 1, Escape(vs[0]), Joined(vs[1..]));
    }
    assert At(s, 0) == '[' && At(s, 1) == '"';
    ItemsRead(s, 1, vs, "", [], reading);
    assert [] + vs == vs;
  }

  /** The empty list is written `[]`, which the reader refuses. */
  lemma EmptyListNotReadBack(reading: Reading)
    ensures ListJSON([]) == "[]"
    ensures StrListDecode(ListJSON([]), reading) == None
  {
  }

  /** A `]` inside a value ends the reading as written: `["a]b"]` reads as an
      empty list; corrected, it reads back. */
  lemma BracketEndsList()
    ensures ListJSON(["a]b"]) == "[\"a]b\"]"
    ensures StrListDecode("[\"a]b\"]", AsWritten) == Some([])
    ensures StrListDecode("[\"a]b\"]", Corrected) == Some(["a]b"])
  {
    assert Escape("b") == "b";
    assert Escape("]b") == "]b";
    assert Escape("a]b") == "a]b";
    var s := "[\"a]b\"]";
    assert ListFrom(s, 1, false, "", [], AsWritten) == ListFrom(s, 2, true, "", [], AsWritten);
    assert ListFrom(s, 2, true, "", [], AsWritten) == ListFrom(s, 3, true, "a", [], AsWritten);
    assert Plain("a]b", Corrected);
    ListRoundTrip(["a]b"], "", Corrected);
    assert ListJSON(["a]b"]) + "" == s;
  }
}
