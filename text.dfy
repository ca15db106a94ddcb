/** The few Python string operations the modelled code uses:
    `str.startswith`, `str.find`/`str.rfind` (through `split`/`rsplit`)
    and ASCII `str.lower`. */
module Text {

  predicate StartsWith(s: string, prefix: string) {
    |prefix| <= |s| && s[..|prefix|] == prefix
  }

  predicate OccursAt(s: string, sep: string, i: int) {
    0 <= i && i + |sep| <= |s| && s[i..i + |sep|] == sep
  }

  predicate Contains(s: string, sep: string) {
    exists i :: 0 <= i <= |s| && OccursAt(s, sep, i)
  }

  /** A prefix is an occurrence at 0. */
  lemma PrefixOccurs(s: string, prefix: string)
    requires StartsWith(s, prefix)
    ensures OccursAt(s, prefix, 0) && Contains(s, prefix)
  {
    assert s[0..0 + |prefix|] == s[..|prefix|] == prefix;
    assert OccursAt(s, prefix, 0);
  }

  /** `s.find(sep, i)`: the leftmost occurrence of `sep` at or after `i`, or -1. */
  function FindFrom(s: string, sep: string, i: nat): (r: int)
    requires |sep| > 0 && i <= |s|
    ensures r == -1 || (i <= r && OccursAt(s, sep, r))
    ensures forall j :: i <= j && (r == -1 || j < r) ==> !OccursAt(s, sep, j)
    decreases |s| - i
  {
    if i + |sep| > |s| then -1
    else if s[i..i + |sep|] == sep then i
    else FindFrom(s, sep, i + 1)
  }

  /** The rightmost occurrence of `sep` at a position `<= j`, or -1. */
  function RFindUpTo(s: string, sep: string, j: int): (r: int)
    requires |sep| > 0 && j + |sep| <= |s|
    ensures r == -1 || (0 <= r <= j && OccursAt(s, sep, r))
    ensures forall k :: r < k <= j ==> !OccursAt(s, sep, k)
    decreases j + 1
  {
    if j < 0 then -1
    else if s[j..j + |sep|] == sep then j
    else RFindUpTo(s, sep, j - 1)
  }

  /** `s.rfind(sep)`. */
  function RFind(s: string, sep: string): (r: int)
    requires |sep| > 0
    ensures r == -1 <==> !Contains(s, sep)
    ensures r != -1 ==> OccursAt(s, sep, r) && forall k :: r < k ==> !OccursAt(s, sep, k)
  {
    if |sep| > |s| then -1 else RFindUpTo(s, sep, |s| - |sep|)
  }

  /** `s.rsplit(sep, 1)[-1]`, which is also `s.split(sep)[-1]`: the text after
      the last occurrence of `sep`, or all of `s` when `sep` does not occur. */
  function AfterLast(s: string, sep: string): string
    requires |sep| > 0
  {
    var i := RFind(s, sep);
    if i == -1 then s else s[i + |sep|..]
  }

  /** `s.split(sep)[1]` for an `s` that contains `sep`: the text between the
      first occurrence and the next one (or the end). */
  function SecondPiece(s: string, sep: string): string
    requires |sep| > 0 && Contains(s, sep)
  {
    var i := FindFrom(s, sep, 0);
    var rest := s[i + |sep|..];
    var j := FindFrom(rest, sep, 0);
    if j == -1 then rest else rest[..j]
  }

  function LowerChar(c: char): char {
    if 'A' <= c <= 'Z' then (c as int + 32) as char else c
  }

  /** `s.lower()` on ASCII letters. */
  function Lower(s: string): (r: string)
    ensures |r| == |s|
    ensures forall i :: 0 <= i < |s| ==> r[i] == LowerChar(s[i])
  {
    seq(|s|, i requires 0 <= i < |s| => LowerChar(s[i]))
  }

  lemma LowerIdempotent(s: string)
    ensures Lower(Lower(s)) == Lower(s)
  {
  }

  lemma LowerAppend(a: string, b: string)
    ensures Lower(a + b) == Lower(a) + Lower(b)
  {
    assert forall i :: 0 <= i < |a + b| ==> Lower(a + b)[i] == (Lower(a) + Lower(b))[i];
  }

  /** When the text after a separator has no further occurrence of it, that
      text is what `AfterLast` returns. */
  lemma {:induction false} AfterLastOfSuffix(prefix: string, sep: string, tail: string)
    requires |sep| > 0
    requires forall k :: |prefix| < k ==> !OccursAt(prefix + sep + tail, sep, k)
    ensures AfterLast(prefix + sep + tail, sep) == tail
  {
    var s := prefix + sep + tail;
    assert s[|prefix|..|prefix| + |sep|] == sep;
    assert OccursAt(s, sep, |prefix|);
    var i := RFind(s, sep);
    assert i == |prefix|;
    assert s[i + |sep|..] == tail;
  }

  /** A separator ending with '/' whose other characters contain no '/'
      cannot overlap a later occurrence of itself. */
  lemma {:induction false} NoOverlapAfter(prefix: string, body: string, tail: string, k: int)
    requires '/' !in body
    requires |prefix| < k < |prefix| + |body| + 1
    ensures !OccursAt(prefix + (body + "/") + tail, body + "/", k)
  {
    var sep := body + "/";
    var s := prefix + sep + tail;
    // the '/' that ends `sep` in place would sit at index p of an occurrence at k,
    // where `sep` has a character of `body`
    var p := |body| - (k - |prefix|);
    assert 0 <= p < |body|;
    assert s[k + p] == '/';
    assert sep[p] == body[p] != '/';
    if k + |sep| <= |s| {
      assert s[k..k + |sep|][p] != sep[p];
    }
  }
}
