/** ASCII text primitives used by every other part: the character classes of
    <ctype.h>, `strcmp`, and the case-insensitive `strcmpIC`. */
module Text {

  predicate IsAlpha(c: char) { 'a' <= c <= 'z' || 'A' <= c <= 'Z' }

  predicate IsDigit(c: char) { '0' <= c <= '9' }

  /** `tolower` in the C locale: only A-Z change. */
  function ToLower(c: char): char
  {
    if 'A' <= c <= 'Z' then (c as int + 32) as char else c
  }

  function Lower(s: string): (r: string)
    ensures |r| == |s|
    ensures forall i :: 0 <= i < |s| ==> r[i] == ToLower(s[i])
  {
    seq(|s|, i requires 0 <= i < |s| => ToLower(s[i]))
  }

  /** Two strings are equal once both are lower-cased. */
  predicate SameIgnoringCase(a: string, b: string)
  {
    Lower(a) == Lower(b)
  }

  /** The sign of C's `strcmp` on two NUL-free strings: lexicographic order by
      character code, a proper prefix ordering first. */
  function Strcmp(a: string, b: string): (r: int)
    ensures -1 <= r <= 1
  {
    if a == [] && b == [] then 0
    else if a == [] then -1
    else if b == [] then 1
    else if a[0] < b[0] then -1
    else if a[0] > b[0] then 1
    else Strcmp(a[1..], b[1..])
  }

  lemma {:induction false} StrcmpZeroIffEqual(a: string, b: string)
    ensures Strcmp(a, b) == 0 <==> a == b
  {
    if a != [] && b != [] && a[0] == b[0] {
      StrcmpZeroIffEqual(a[1..], b[1..]);
      assert a == [a[0]] + a[1..];
      assert b == [b[0]] + b[1..];
    }
  }

  lemma {:induction false} StrcmpAntisymmetric(a: string, b: string)
    ensures Strcmp(a, b) == -Strcmp(b, a)
  {
    if a != [] && b != [] && a[0] == b[0] {
      StrcmpAntisymmetric(a[1..], b[1..]);
    }
  }

  /** `compareString`: the list comparator for plain strings. */
  function CompareString(a: string, b: string): (r: int)
    ensures r == 0 <==> a == b
  {
    StrcmpZeroIffEqual(a, b);
    Strcmp(a, b)
  }

  /** `strcmpIC`: `strcmp` of the two lower-cased copies. */
  function StrcmpIC(a: string, b: string): (r: int)
    ensures -1 <= r <= 1
    ensures r == 0 <==> SameIgnoringCase(a, b)
  {
    StrcmpZeroIffEqual(Lower(a), Lower(b));
    Strcmp(Lower(a), Lower(b))
  }

  /** Swapping the arguments of `strcmpIC` flips the sign of its answer. */
  lemma StrcmpICAntisymmetric(a: string, b: string)
    ensures StrcmpIC(a, b) == -StrcmpIC(b, a)
  {
    StrcmpAntisymmetric(Lower(a), Lower(b));
  }
}
