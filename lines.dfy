/** The content-line reader: `nextContentLine` walks the whole input buffer with a
    cursor and hands back one logical line per call, undoing line folding (a CRLF
    followed by a space or a tab continues the line, section 3.2 of RFC 6350). */
module ContentLines {
  import opened VCardTypes

  /** A buffer shorter than this is an invalid file before any scanning. */
  const MinBufferLength := 20

  /** The character at `i`, or the terminating NUL at the end of the string. */
  function At(s: string, i: int): char
  {
    if 0 <= i < |s| then s[i] else '\0'
  }

  predicate IsFoldChar(c: char) { c == ' ' || c == '\t' }

  predicate NoLineBreak(s: string)
  {
    forall i :: 0 <= i < |s| ==> s[i] != '\r' && s[i] != '\n'
  }

  /** Outcome of scanning one logical line: its text with the line breaks of folds
      removed and the index just past it, or a bare CR / bare LF. */
  datatype Scanned = Line(text: string, next: nat) | Malformed

  /** The scan state of the reader's loop: `start` is where the current physical
      segment begins, `pos` the character under inspection (`lineEnd`).  Right after
      a fold `pos` sits on the fold character, one before `start`. */
  predicate ScanState(src: string, start: nat, pos: nat)
  {
    && 1 <= pos <= |src| && start <= pos + 1 && start <= |src|
    && (pos + 1 == start ==> IsFoldChar(src[pos]))
    && (pos == start ==> src[pos - 1] != '\r')
  }

  /** The reader's scanning loop, one character per step.  A logical line that ends
      inside the buffer keeps its CRLF, and the next line starts right after it. */
  function Scan(src: string, start: nat, pos: nat, acc: string): (r: Scanned)
    requires ScanState(src, start, pos)
    ensures r.Line? ==> pos < r.next <= |src| + 1
    ensures r.Line? && r.next <= |src| ==> src[r.next - 1] == '\n'
    decreases |src| - pos
  {
    if pos == |src| then Line(acc + src[start..], |src| + 1)
    else if src[pos] == '\n' && src[pos - 1] != '\r' then Malformed
    else if src[pos] == '\r' && At(src, pos + 1) != '\n' then Malformed
    else if src[pos] == '\n' then
      if IsFoldChar(At(src, pos + 1)) then Scan(src, pos + 2, pos + 1, acc + src[start..pos - 1])
      else Line(acc + src[start..pos + 1], pos + 1)
    else Scan(src, start, pos + 1, acc)
  }

  /** A cursor the reader can resume from: the start, the end, or any index that does
      not sit right after a CR (every cursor the reader returns sits after a LF). */
  predicate ValidCursor(src: string, cursor: nat)
  {
    cursor == 0 || cursor >= |src| || src[cursor - 1] != '\r'
  }

  datatype LineRead = ReadError(code: ErrorCode) | EndOfInput | Read(line: string, next: nat)

  /** What one call of the reader yields from `cursor`. */
  function NextLine(src: string, cursor: nat): (r: LineRead)
    requires ValidCursor(src, cursor)
    ensures |src| < MinBufferLength ==> r == ReadError(InvFile)
    ensures |src| >= MinBufferLength && cursor >= |src| ==> r == EndOfInput
    ensures r.ReadError? ==> r.code == InvFile || r.code == InvProp
    ensures r.Read? ==> cursor < r.next <= |src| + 1 && ValidCursor(src, r.next)
    ensures r.Read? && r.next <= |src| ==> src[r.next - 1] == '\n'
  {
    if |src| < MinBufferLength then ReadError(InvFile)
    else if cursor >= |src| then EndOfInput
    else
      match Scan(src, cursor, if cursor == 0 then 1 else cursor, [])
      case Malformed => ReadError(InvProp)
      case Line(text, next) => Read(text, next)
  }

  /** `nextContentLine`: the reader itself, a cursor loop over the buffer that
      accumulates the segments of one logical line. */
  method NextContentLine(source: string, fileIndex: nat) returns (status: ErrorCode, nextLine: Option<string>, newIndex: nat)
    requires ValidCursor(source, fileIndex)
    ensures match NextLine(source, fileIndex)
            case ReadError(code) => status == code && nextLine.None? && newIndex == fileIndex
            case EndOfInput => status == Ok && nextLine.None? && newIndex == fileIndex
            case Read(line, next) => status == Ok && nextLine == Some(line) && newIndex == next
  {
    var sourceMax := |source|;
    if sourceMax < MinBufferLength {
      return InvFile, None, fileIndex;
    }
    if fileIndex >= sourceMax {
      return Ok, None, fileIndex;
    }
    var line: string := "";
    var lineStart: nat := fileIndex;
    var lineEnd: nat := fileIndex;
    if fileIndex == 0 {
      lineEnd := lineEnd + 1;
    }
    ghost var goal := Scan(source, fileIndex, lineEnd, []);
    var lineRead := false;
    newIndex := fileIndex;
    while !lineRead && lineEnd != sourceMax
      invariant lineEnd <= sourceMax
      invariant !lineRead ==> ScanState(source, lineStart, lineEnd) && Scan(source, lineStart, lineEnd, line) == goal
      invariant lineRead ==> goal == Line(line, newIndex)
      decreases sourceMax - lineEnd, if lineRead then 0 else 1
    {
      if source[lineEnd] == '\n' && source[lineEnd - 1] != '\r' {
        return InvProp, None, fileIndex;
      }
      if source[lineEnd] == '\r' && At(source, lineEnd + 1) != '\n' {
        return InvProp, None, fileIndex;
      } else if source[lineEnd] == '\n' && source[lineEnd - 1] == '\r' {
        if IsFoldChar(At(source, lineEnd + 1)) {
          line := line + source[lineStart..lineEnd - 1];
          lineStart := lineEnd + 2;
        } else {
          line := line + source[lineStart..lineEnd + 1];
          newIndex := lineEnd + 1;
          lineRead := true;
        }
      }
      lineEnd := lineEnd + 1;
    }
    if lineEnd == sourceMax && !lineRead {
      line := line + source[lineStart..];
      newIndex := lineEnd + 1;
    }
    return Ok, Some(line), newIndex;
  }

  /** Every logical line that ends inside the buffer keeps its terminating CRLF. */
  lemma LineKeepsCRLF(src: string, cursor: nat)
    requires ValidCursor(src, cursor)
    ensures var r := NextLine(src, cursor);
            r.Read? && r.next <= |src| ==> |r.line| >= 2 && r.line[|r.line| - 2..] == "\r\n"
  {
    if |src| >= MinBufferLength && cursor < |src| {
      ScanKeepsCRLF(src, cursor, if cursor == 0 then 1 else cursor, []);
    }
  }

  lemma {:induction false} ScanKeepsCRLF(src: string, start: nat, pos: nat, acc: string)
    requires ScanState(src, start, pos)
    ensures var r := Scan(src, start, pos, acc);
            r.Line? && r.next <= |src| ==> |r.text| >= 2 && r.text[|r.text| - 2..] == "\r\n"
    decreases |src| - pos
  {
    if pos == |src| {
    } else if src[pos] == '\n' && src[pos - 1] != '\r' {
    } else if src[pos] == '\r' && At(src, pos + 1) != '\n' {
    } else if src[pos] == '\n' {
      if IsFoldChar(At(src, pos + 1)) {
        ScanKeepsCRLF(src, pos + 2, pos + 1, acc + src[start..pos - 1]);
      } else {
        var text := acc + src[start..pos + 1];
        assert text[|text| - 2..] == [src[pos - 1], src[pos]];
      }
    } else {
      ScanKeepsCRLF(src, start, pos + 1, acc);
    }
  }

  // ---------------------------------------------------------------------------
  // Unfolding undoes folding

  /** `pieces` joined by a CRLF and one fold character between neighbours: the folded
      form of the logical line `Concat(pieces)`. */
  function Folded(pieces: seq<string>, folds: seq<char>): string
    requires |pieces| == |folds| + 1
  {
    if |folds| == 0 then pieces[0]
    else pieces[0] + "\r\n" + [folds[0]] + Folded(pieces[1..], folds[1..])
  }

  function Concat(pieces: seq<string>): string
  {
    if pieces == [] then "" else pieces[0] + Concat(pieces[1..])
  }

  /** Characters that are neither CR nor LF are passed over one at a time. */
  lemma {:induction false} ScanSkip(src: string, start: nat, pos: nat, acc: string, k: nat)
    requires ScanState(src, start, pos) && pos <= k <= |src|
    requires forall i :: pos <= i < k ==> src[i] != '\r' && src[i] != '\n'
    ensures ScanState(src, start, k)
    ensures Scan(src, start, pos, acc) == Scan(src, start, k, acc)
    decreases k - pos
  {
    if pos < k {
      ScanSkip(src, start, pos + 1, acc, k);
    }
  }

  /** A segment, a CRLF and whatever follows, split back apart. */
  lemma SegmentShape(p: string, t: string)
    ensures var f := p + "\r\n" + t;
            && |f| == |p| + 2 + |t| && f[..|p|] == p && f[|p|] == '\r' && f[|p| + 1] == '\n'
            && f[|p| + 2..] == t
  {
  }

  /** Segments free of line breaks and fold characters that may follow a CRLF. */
  predicate FoldParts(pieces: seq<string>, folds: seq<char>)
  {
    && |pieces| == |folds| + 1
    && (forall i :: 0 <= i < |pieces| ==> NoLineBreak(pieces[i]))
    && (forall i :: 0 <= i < |folds| ==> IsFoldChar(folds[i]))
  }

  /** What is left after the first segment and fold is again a folded line. */
  lemma FoldPartsTail(pieces: seq<string>, folds: seq<char>)
    requires FoldParts(pieces, folds) && |folds| > 0
    ensures FoldParts(pieces[1..], folds[1..]) && NoLineBreak(pieces[0]) && IsFoldChar(folds[0])
  {
    assert forall i :: 0 <= i < |pieces| - 1 ==> pieces[1..][i] == pieces[i + 1];
    assert forall i :: 0 <= i < |folds| - 1 ==> folds[1..][i] == folds[i + 1];
  }

  /** The scan of a folded logical line from inside its first segment: `whole` is
      the text accumulated so far followed by every segment, `next` the index just
      past the final CRLF. */
  lemma {:induction false} ScanFolded(src: string, start: nat, pos: nat, acc: string,
                                      pieces: seq<string>, folds: seq<char>, rest: string,
                                      whole: string, next: nat)
    requires |pieces| == |folds| + 1
    requires FoldParts(pieces, folds) && !IsFoldChar(At(rest, 0))
    requires start <= |src| && src[start..] == Folded(pieces, folds) + "\r\n" + rest
    requires ScanState(src, start, pos) && pos <= start + |pieces[0]| + 1
    requires whole == acc + Concat(pieces) && next == start + |Folded(pieces, folds)| + 2
    ensures Scan(src, start, pos, acc) == Line(whole + "\r\n", next)
    decreases |folds|, 1
  {
    if |folds| == 0 {
      var p := pieces[0];
      assert NoLineBreak(p);
      assert pieces[1..] == [];
      assert Concat(pieces) == p + Concat(pieces[1..]);
      assert Folded(pieces, folds) == p;
      ScanLastSegment(src, start, pos, acc, p, rest, start + |p|);
    } else {
      ScanFoldedMore(src, start, pos, acc, pieces, folds, rest, whole, next);
    }
  }

  /** The step of `ScanFolded` over a segment that a fold continues. */
  lemma {:induction false} ScanFoldedMore(src: string, start: nat, pos: nat, acc: string,
                                          pieces: seq<string>, folds: seq<char>, rest: string,
                                          whole: string, next: nat)
    requires |pieces| == |folds| + 1 && |folds| > 0
    requires FoldParts(pieces, folds) && !IsFoldChar(At(rest, 0))
    requires start <= |src| && src[start..] == Folded(pieces, folds) + "\r\n" + rest
    requires ScanState(src, start, pos) && pos <= start + |pieces[0]| + 1
    requires whole == acc + Concat(pieces) && next == start + |Folded(pieces, folds)| + 2
    ensures Scan(src, start, pos, acc) == Line(whole + "\r\n", next)
    decreases |folds|, 0
  {
    var q := start + |pieces[0]|;
    var start', pos', acc', ps, fs := q + 3, q + 2, acc + pieces[0], pieces[1..], folds[1..];
    FirstFold(src, start, pos, acc, pieces, folds, rest, whole, next, q);
    assert Scan(src, start, pos, acc) == Scan(src, start', pos', acc');
    ScanFolded(src, start', pos', acc', ps, fs, rest, whole, next);
  }

  /** Over the first segment and its fold the scan reaches the second segment in
      the same state as a scan of the line that starts there. */
  lemma FirstFold(src: string, start: nat, pos: nat, acc: string,
                  pieces: seq<string>, folds: seq<char>, rest: string,
                  whole: string, next: nat, q: nat)
    requires |pieces| == |folds| + 1 && |folds| > 0
    requires FoldParts(pieces, folds)
    requires start <= |src| && src[start..] == Folded(pieces, folds) + "\r\n" + rest
    requires ScanState(src, start, pos) && pos <= start + |pieces[0]| + 1
    requires whole == acc + Concat(pieces) && next == start + |Folded(pieces, folds)| + 2
    requires q == start + |pieces[0]|
    ensures FoldParts(pieces[1..], folds[1..])
    ensures q + 3 <= |src| && src[q + 3..] == Folded(pieces[1..], folds[1..]) + "\r\n" + rest
    ensures ScanState(src, q + 3, q + 2)
    ensures whole == (acc + pieces[0]) + Concat(pieces[1..])
    ensures next == q + 3 + |Folded(pieces[1..], folds[1..])| + 2
    ensures Scan(src, start, pos, acc) == Scan(src, q + 3, q + 2, acc + pieces[0])
  {
    var tail := Folded(pieces[1..], folds[1..]) + "\r\n" + rest;
    FoldPartsTail(pieces, folds);
    FoldedHead(src, start, pieces, folds, rest, acc, whole, next);
    ScanFoldedSegment(src, start, pos, acc, pieces[0], folds[0], tail, q);
  }

  /** A folded line with more than one segment, read as its first segment, a CRLF,
      the first fold character and the rest. */
  lemma FoldedHead(src: string, start: nat, pieces: seq<string>, folds: seq<char>, rest: string,
                   acc: string, whole: string, next: nat)
    requires |pieces| == |folds| + 1 && |folds| > 0
    requires start <= |src| && src[start..] == Folded(pieces, folds) + "\r\n" + rest
    requires whole == acc + Concat(pieces) && next == start + |Folded(pieces, folds)| + 2
    ensures src[start..] == pieces[0] + "\r\n" + ([folds[0]] + (Folded(pieces[1..], folds[1..]) + "\r\n" + rest))
    ensures next == start + |pieces[0]| + 3 + |Folded(pieces[1..], folds[1..])| + 2
    ensures whole == (acc + pieces[0]) + Concat(pieces[1..])
  {
    var inner := Folded(pieces[1..], folds[1..]);
    var crlf := "\r\n";
    var lead := pieces[0] + crlf;
    var f := [folds[0]];
    assert Folded(pieces, folds) == (lead + f) + inner;
    Assoc(lead + f, inner, crlf);
    Assoc(lead + f, inner + crlf, rest);
    Assoc(lead, f, (inner + crlf) + rest);
    Assoc(acc, pieces[0], Concat(pieces[1..]));
  }

  lemma Assoc(a: string, b: string, c: string)
    ensures (a + b) + c == a + (b + c)
  {
  }

  /** The last physical segment: the scan stops after its CRLF. */
  lemma ScanLastSegment(src: string, start: nat, pos: nat, acc: string, p: string, rest: string, q: nat)
    requires NoLineBreak(p) && !IsFoldChar(At(rest, 0))
    requires start <= |src| && src[start..] == p + "\r\n" + rest
    requires ScanState(src, start, pos) && pos <= start + |p| + 1
    requires q == start + |p|
    ensures Scan(src, start, pos, acc) == Line(acc + p + "\r\n", q + 2)
  {
    BreakAt(src, start, pos, acc, p, rest, q);
    assert At(src, q + 2) == At(rest, 0);
    EndStep(src, start, acc, q);
  }

  /** A segment followed by a fold: the scan resumes after the fold character with
      the segment appended to the accumulated text. */
  lemma ScanFoldedSegment(src: string, start: nat, pos: nat, acc: string, p: string, fold: char, tail: string, q: nat)
    requires NoLineBreak(p) && IsFoldChar(fold)
    requires start <= |src| && src[start..] == p + "\r\n" + ([fold] + tail)
    requires ScanState(src, start, pos) && pos <= start + |p| + 1
    requires q == start + |p|
    ensures q + 3 <= |src| && src[q + 3..] == tail && ScanState(src, q + 3, q + 2)
    ensures Scan(src, start, pos, acc) == Scan(src, q + 3, q + 2, acc + p)
  {
    BreakAt(src, start, pos, acc, p, [fold] + tail, q);
    assert At(src, q + 2) == fold;
    FoldStep(src, start, acc, q);
    assert src[q + 3..] == src[q + 2..][1..];
  }

  /** The scan passes over the first segment and reaches its CRLF at `q`. */
  lemma BreakAt(src: string, start: nat, pos: nat, acc: string, p: string, t: string, q: nat)
    requires NoLineBreak(p)
    requires start <= |src| && src[start..] == p + "\r\n" + t
    requires ScanState(src, start, pos) && pos <= start + |p| + 1
    requires q == start + |p|
    ensures q + 2 <= |src| && src[q] == '\r' && src[q + 1] == '\n'
    ensures At(src, q + 2) == At(t, 0) && src[q + 2..] == t
    ensures src[start..q] == p && src[start..q + 2] == p + "\r\n"
    ensures ScanState(src, start, q + 1) && start <= q
    ensures Scan(src, start, pos, acc) == Scan(src, start, q + 1, acc)
  {
    SegmentShape(p, t);
    assert src[start..][..|p|] == p;
    assert forall i :: start <= i < q ==> src[i] == p[i - start];
    if pos <= q {
      ScanSkip(src, start, pos, acc, q);
    }
  }

  /** At the LF of a CRLF followed by a fold character the line continues after it,
      with the segment before the CRLF appended. */
  lemma FoldStep(src: string, start: nat, acc: string, q: nat)
    requires start <= q && q + 2 <= |src| && src[q] == '\r' && src[q + 1] == '\n'
    requires ScanState(src, start, q + 1) && IsFoldChar(At(src, q + 2))
    ensures ScanState(src, q + 3, q + 2)
    ensures Scan(src, start, q + 1, acc) == Scan(src, q + 3, q + 2, acc + src[start..q])
  {
  }

  /** At the LF of a CRLF followed by anything else the logical line ends, CRLF
      included. */
  lemma EndStep(src: string, start: nat, acc: string, q: nat)
    requires start <= q && q + 2 <= |src| && src[q] == '\r' && src[q + 1] == '\n'
    requires ScanState(src, start, q + 1) && !IsFoldChar(At(src, q + 2))
    ensures Scan(src, start, q + 1, acc) == Line(acc + src[start..q + 2], q + 2)
  {
  }

  /** Folding inverse: a logical line free of line breaks, folded at any points
      (CRLF plus a space or a tab inserted) and followed by a line that is not a
      continuation, is read back as the original line plus its CRLF, and the cursor
      moves just past that CRLF. */
  lemma FoldRoundTrip(prefix: string, pieces: seq<string>, folds: seq<char>, rest: string)
    requires |pieces| == |folds| + 1
    requires forall i :: 0 <= i < |pieces| ==> NoLineBreak(pieces[i])
    requires forall i :: 0 <= i < |folds| ==> IsFoldChar(folds[i])
    requires !IsFoldChar(At(rest, 0))
    requires prefix == [] || prefix[|prefix| - 1] != '\r'
    requires |prefix + Folded(pieces, folds) + "\r\n" + rest| >= MinBufferLength
    ensures var src := prefix + Folded(pieces, folds) + "\r\n" + rest;
            ValidCursor(src, |prefix|) &&
            NextLine(src, |prefix|) == Read(Concat(pieces) + "\r\n", |prefix| + |Folded(pieces, folds)| + 2)
  {
    var src := prefix + Folded(pieces, folds) + "\r\n" + rest;
    var cursor := |prefix|;
    assert src[cursor..] == Folded(pieces, folds) + "\r\n" + rest;
    var pos := if cursor == 0 then 1 else cursor;
    assert cursor > 0 ==> src[cursor - 1] == prefix[|prefix| - 1];
    assert [] + Concat(pieces) == Concat(pieces);
    ScanFolded(src, cursor, pos, [], pieces, folds, rest, Concat(pieces), cursor + |Folded(pieces, folds)| + 2);
  }

  /** A LF not preceded by CR, or a CR not followed by LF, met before the logical line
      ends, is a malformed line. */
  lemma BareBreakRejected(src: string, cursor: nat, k: nat)
    requires |src| >= MinBufferLength && 0 < cursor <= k < |src| && ValidCursor(src, cursor)
    requires forall i :: cursor <= i < k ==> src[i] != '\r' && src[i] != '\n'
    requires (src[k] == '\n' && src[k - 1] != '\r') || (src[k] == '\r' && At(src, k + 1) != '\n')
    ensures NextLine(src, cursor) == ReadError(InvProp)
  {
    ScanSkip(src, cursor, cursor, [], k);
  }
}
