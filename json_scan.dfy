// The scanning loops the JSON decoders of VCardParser.c are built from.
// Every decoder walks a NUL-terminated string with an index, skipping or
// copying characters until it meets a stop character, a count bound, or one of
// the "too close to the end" positions it checks for.  The source never checks
// that its index stays inside the string, so some inputs make it read past the
// terminator; the model reports those as `PastEnd` instead of guessing what the
// memory there holds.

module JsonScan {
  import opened VCardTypes
  import opened ContentLines

  /** What a decoding step yields: a value, NULL (`Rejected`), or a read past the
      terminating NUL, which is undefined behaviour in the source (`PastEnd`). */
  datatype Outcome<+T> = Parsed(value: T) | Rejected | PastEnd
  {
    predicate IsFailure()
    {
      !Parsed?
    }

    function PropagateFailure<U>(): Outcome<U>
      requires IsFailure()
    {
      if Rejected? then Rejected else PastEnd
    }

    function Extract(): T
      requires Parsed?
    {
      value
    }
  }

  /** One scanning loop, starting at `i`: it stops at the first position that is
      `bound` or holds one of `stops`; otherwise, when the position it is about to
      check against `lims` (the next one when `after`, the current one otherwise)
      is one of them, the source returns NULL; reading beyond the terminator is
      `PastEnd`. */
  function Seek(s: string, i: nat, stops: string, bound: int, lims: set<int>, after: bool): (r: Outcome<nat>)
    ensures r.Parsed? ==> i <= r.value <= |s| && (r.value == bound || At(s, r.value) in stops)
    ensures r.Rejected? ==> lims != {}
    ensures r.PastEnd? ==> !(i <= bound <= |s|)
    decreases |s| + 1 - i
  {
    if i > |s| then PastEnd
    else if i == bound || At(s, i) in stops then Parsed(i)
    else if (if after then i + 1 else i) in lims then Rejected
    else
      var r := Seek(s, i + 1, stops, bound, lims, after);
      r
  }

  /** A scan that starts at or before its bound stops at or before it. */
  lemma {:induction false} SeekWithin(s: string, i: nat, stops: string, bound: int, lims: set<int>, after: bool)
    requires i <= bound
    ensures Seek(s, i, stops, bound, lims, after).Parsed? ==> Seek(s, i, stops, bound, lims, after).value <= bound
    decreases |s| + 1 - i
  {
    if i <= |s| && i != bound && At(s, i) !in stops && (if after then i + 1 else i) !in lims {
      SeekWithin(s, i + 1, stops, bound, lims, after);
    }
  }

  /** The scan neither stops at position `k` nor is checked against a limit there. */
  predicate Clear(s: string, k: int, stops: string, bound: int, lims: set<int>, after: bool)
  {
    k != bound && At(s, k) !in stops && (if after then k + 1 else k) !in lims
  }

  /** No position of `[i, j)` stops the scan or is checked against a limit. */
  predicate Passes(s: string, i: nat, j: nat, stops: string, bound: int, lims: set<int>, after: bool)
  {
    forall k :: i <= k < j ==> Clear(s, k, stops, bound, lims, after)
  }

  /** A scan over a stretch that does not stop it goes on where the stretch ends. */
  lemma {:induction false} SeekSkips(s: string, i: nat, j: nat, stops: string, bound: int, lims: set<int>, after: bool)
    requires i <= j <= |s| && Passes(s, i, j, stops, bound, lims, after)
    ensures Seek(s, i, stops, bound, lims, after) == Seek(s, j, stops, bound, lims, after)
    decreases j - i
  {
    if i < j {
      assert Clear(s, i, stops, bound, lims, after);
      SeekSkips(s, i + 1, j, stops, bound, lims, after);
    }
  }

  /** A scan from the start of a copy of `seg` that none of its characters stop,
      and no limit or bound falls into, arrives at the end of the copy. */
  lemma SeekOver(s: string, i: nat, seg: string, stops: string, bound: int, lims: set<int>, after: bool)
    requires Holds(s, i, seg)
    requires forall k :: 0 <= k < |seg| ==> seg[k] !in stops
    requires !(i <= bound < i + |seg|)
    requires forall m :: m in lims ==> !(i + (if after then 1 else 0) <= m < i + |seg| + (if after then 1 else 0))
    ensures Seek(s, i, stops, bound, lims, after) == Seek(s, i + |seg|, stops, bound, lims, after)
  {
    forall k | i <= k < i + |seg|
      ensures Clear(s, k, stops, bound, lims, after)
    {
      HoldsChar(s, i, seg, k - i);
    }
    SeekSkips(s, i, i + |seg|, stops, bound, lims, after);
  }

  /** A scan over a copy of `seg` that is followed, at `to`, by a stop character
      stops there. */
  lemma SeekTo(s: string, i: nat, seg: string, stops: string, bound: int, lims: set<int>, after: bool, to: nat)
    requires Holds(s, i, seg) && to == i + |seg| && to < |s| && s[to] in stops
    requires forall k :: 0 <= k < |seg| ==> seg[k] !in stops
    requires !(i <= bound < to)
    requires forall m :: m in lims ==> !(i + (if after then 1 else 0) <= m < to + (if after then 1 else 0))
    ensures Seek(s, i, stops, bound, lims, after) == Parsed(to)
  {
    SeekOver(s, i, seg, stops, bound, lims, after);
    SeekHere(s, to, stops, bound, lims, after);
  }

  /** `s` holds a copy of `x` from index `p` on. */
  predicate Holds(s: string, p: nat, x: string)
  {
    p + |x| <= |s| && s[p..p + |x|] == x
  }

  lemma HoldsWhole(s: string)
    ensures Holds(s, 0, s)
  {
    assert s[0..|s|] == s;
  }

  lemma HoldsPrefix(x: string, rest: string)
    ensures Holds(x + rest, 0, x)
  {
    assert (x + rest)[..|x|] == x;
  }

  /** A copy of `x + y` is a copy of `x` followed by a copy of `y`. */
  lemma HoldsSplit(s: string, p: nat, x: string, y: string)
    requires Holds(s, p, x + y)
    ensures Holds(s, p, x) && Holds(s, p + |x|, y)
  {
    var whole := s[p..p + |x| + |y|];
    assert whole == x + y;
    assert s[p..p + |x|] == whole[..|x|];
    assert s[p + |x|..p + |x| + |y|] == whole[|x|..];
  }

  /** `HoldsSplit`, with the position of the second part named by the caller. */
  lemma HoldsSplitAt(s: string, p: nat, x: string, y: string, q: nat)
    requires Holds(s, p, x + y) && q == p + |x|
    ensures Holds(s, p, x) && Holds(s, q, y)
  {
    HoldsSplit(s, p, x, y);
  }

  lemma HoldsChar(s: string, p: nat, x: string, k: nat)
    requires Holds(s, p, x) && k < |x|
    ensures p + k < |s| && s[p + k] == x[k] && At(s, p + k) == x[k]
  {
    assert s[p..p + |x|][k] == x[k];
  }

  /** `HoldsChar`, with the position of the character named by the caller. */
  lemma HoldsAt(s: string, p: nat, x: string, k: nat, q: nat)
    requires Holds(s, p, x) && k < |x| && q == p + k
    ensures q < |s| && s[q] == x[k] && At(s, q) == x[k]
  {
    HoldsChar(s, p, x, k);
  }

  lemma HoldsEmpty(s: string, p: nat)
    requires p <= |s|
    ensures Holds(s, p, "")
  {
  }

  /** A scan that stands on a stop character finds it there. */
  lemma SeekHere(s: string, i: nat, stops: string, bound: int, lims: set<int>, after: bool)
    requires i < |s| && s[i] in stops
    ensures Seek(s, i, stops, bound, lims, after) == Parsed(i)
  {
  }

  /** The scanning-and-copying loop itself: walks the index as the source does and
      copies what it passes (the copy is discarded by the loops that only skip). */
  method CopyUntil(s: string, start: nat, stops: string, bound: int, lims: set<int>, after: bool)
    returns (r: Outcome<nat>, copied: string)
    ensures r == Seek(s, start, stops, bound, lims, after)
    ensures r.Parsed? ==> copied == s[start..r.value]
  {
    copied := "";
    if start > |s| {
      return PastEnd, copied;
    }
    var i := start;
    while i <= |s| && i != bound && At(s, i) !in stops
      invariant start <= i
      invariant i <= |s| + 1
      invariant i <= |s| ==> copied == s[start..i]
      invariant Seek(s, i, stops, bound, lims, after) == Seek(s, start, stops, bound, lims, after)
      decreases |s| + 1 - i
    {
      if !after && i in lims {
        return Rejected, copied;
      }
      copied := copied + [At(s, i)];
      i := i + 1;
      if after && i in lims {
        return Rejected, copied;
      }
    }
    if i > |s| {
      return PastEnd, copied;
    }
    r := Parsed(i);
  }
}
