/** The piece of Go's `strings` package the core relies on: `TrimSpace`,
    which removes leading and trailing white space as `unicode.IsSpace`
    defines it. */
module Text {

  /** `unicode.IsSpace`: the Latin-1 spaces '\t', '\n', '\v', '\f', '\r',
      ' ', U+0085 and U+00A0, and the other characters with the Unicode
      White_Space property. */
  predicate IsSpace(c: char) {
    || c == '\t' || c == '\n' || c == '\U{0B}' || c == '\U{0C}' || c == '\r' || c == ' '
    || c == '\U{85}' || c == '\U{A0}' || c == '\U{1680}'
    || ('\U{2000}' <= c <= '\U{200A}')
    || c == '\U{2028}' || c == '\U{2029}' || c == '\U{202F}' || c == '\U{205F}' || c == '\U{3000}'
  }

  /** Every character of `s[lo..hi]` is white space. */
  predicate SpaceBetween(s: string, lo: int, hi: int)
    requires 0 <= lo <= hi <= |s|
  {
    forall k :: lo <= k < hi ==> IsSpace(s[k])
  }

  /** Two adjacent white-space runs form one. */
  lemma SpaceBetweenJoin(s: string, lo: int, mid: int, hi: int)
    requires 0 <= lo <= mid <= hi <= |s|
    requires SpaceBetween(s, lo, mid) && SpaceBetween(s, mid, hi)
    ensures SpaceBetween(s, lo, hi)
  {
  }

  /** Every character of `s` is white space (vacuously true of ""). */
  predicate AllSpace(s: string) {
    SpaceBetween(s, 0, |s|)
  }

  /** The index of the first character at or after `from` that is not white
      space, or `|s|` if there is none. */
  function TrimStart(s: string, from: nat): (start: nat)
    requires from <= |s|
    ensures from <= start <= |s|
    ensures SpaceBetween(s, from, start)
    ensures start < |s| ==> !IsSpace(s[start])
    decreases |s| - from
  {
    if from < |s| && IsSpace(s[from]) then TrimStart(s, from + 1) else from
  }

  /** The index just past the last character before `upTo` that is not white
      space, scanning no further back than `start`. */
  function TrimStop(s: string, start: nat, upTo: nat): (stop: nat)
    requires start <= upTo <= |s|
    ensures start <= stop <= upTo
    ensures SpaceBetween(s, stop, upTo)
    ensures stop > start ==> !IsSpace(s[stop - 1])
    decreases upTo
  {
    if upTo > start && IsSpace(s[upTo - 1]) then TrimStop(s, start, upTo - 1) else upTo
  }

  /** `strings.TrimSpace`: the slice `s[start..stop]` between the leading and
      the trailing white space. Only white space lies outside it, it neither
      starts nor ends with white space, and it is empty exactly when `s` is
      all white space. */
  function TrimSpace(s: string): (r: string)
    ensures exists i, j :: 0 <= i <= j <= |s| && r == s[i..j]
                           && SpaceBetween(s, 0, i) && SpaceBetween(s, j, |s|)
    ensures r != [] ==> !IsSpace(r[0]) && !IsSpace(r[|r| - 1])
    ensures r == [] <==> AllSpace(s)
  {
    var start := TrimStart(s, 0);
    var stop := TrimStop(s, start, |s|);
    assert start == stop ==> SpaceBetween(s, 0, |s|) by {
      if start == stop { SpaceBetweenJoin(s, 0, start, |s|); }
    }
    assert start < stop ==> !IsSpace(s[start]);
    s[start..stop]
  }

  /** Trimming is idempotent: a trimmed string has nothing left to trim. */
  lemma TrimSpaceIdempotent(s: string)
    ensures TrimSpace(TrimSpace(s)) == TrimSpace(s)
  {
    var r := TrimSpace(s);
    assert TrimStart(r, 0) == 0;
    assert TrimStop(r, 0, |r|) == |r|;
    assert r[0..|r|] == r;
  }
}
