/** Octets, ASCII literals and the left-most substring search that the serial parser relies on. */
module Bytes {

  datatype Option<+T> = None | Some(value: T)

  datatype Result<+T, +E> = Ok(value: T) | Err(error: E)

  type byte = b: int | 0 <= b < 256

  const CR: byte := 13
  const LF: byte := 10
  const CRLF: seq<byte> := [CR, LF]

  /** The octets of an ASCII literal. */
  function Ascii(s: string): (r: seq<byte>)
    ensures |r| == |s|
    ensures forall i :: 0 <= i < |s| && s[i] < 128 as char ==> r[i] == s[i] as int
  {
    seq(|s|, i requires 0 <= i < |s| => (s[i] as int) % 256)
  }

  lemma AsciiAppend(a: string, b: string)
    ensures Ascii(a + b) == Ascii(a) + Ascii(b)
  {
  }

  /** `pat` occurs in `text` at offset `i`. */
  predicate MatchAt(text: seq<byte>, i: int, pat: seq<byte>) {
    0 <= i && i + |pat| <= |text| && text[i..i + |pat|] == pat
  }

  /** `pat` occurs at no offset in `lo..hi`. */
  ghost predicate NoMatch(text: seq<byte>, pat: seq<byte>, lo: int, hi: int) {
    forall i :: lo <= i < hi ==> !MatchAt(text, i, pat)
  }

  /** `pat` occurs nowhere in `text`. */
  ghost predicate Free(text: seq<byte>, pat: seq<byte>) {
    NoMatch(text, pat, 0, |text| + 1)
  }

  /** `text.windows(|pat|).position(|w| w == pat)`, started at offset `from`. */
  function FindFrom(text: seq<byte>, pat: seq<byte>, from: nat): (r: Option<nat>)
    ensures r.Some? ==> from <= r.value && r.value + |pat| <= |text|
    decreases |text| - from
  {
    if from + |pat| > |text| then None
    else if text[from..from + |pat|] == pat then Some(from)
    else FindFrom(text, pat, from + 1)
  }

  function Find(text: seq<byte>, pat: seq<byte>): (r: Option<nat>)
    ensures r.Some? ==> r.value + |pat| <= |text|
  {
    FindFrom(text, pat, 0)
  }

  /** The search returns the least match, or none when there is none. */
  lemma {:induction false} FindFromLeast(text: seq<byte>, pat: seq<byte>, from: nat)
    ensures match FindFrom(text, pat, from)
            case Some(k) => from <= k && MatchAt(text, k, pat) && NoMatch(text, pat, from, k)
            case None => NoMatch(text, pat, from, |text| + 1)
    decreases |text| - from
  {
    if from + |pat| <= |text| && text[from..from + |pat|] != pat {
      FindFromLeast(text, pat, from + 1);
    }
  }

  lemma FindIff(text: seq<byte>, pat: seq<byte>, k: nat)
    ensures Find(text, pat) == Some(k) <==> MatchAt(text, k, pat) && NoMatch(text, pat, 0, k)
    ensures Find(text, pat) == None <==> Free(text, pat)
  {
    FindFromLeast(text, pat, 0);
  }

  /** Reading one octet of a match. */
  lemma MatchIndex(text: seq<byte>, i: int, pat: seq<byte>, k: nat)
    requires MatchAt(text, i, pat) && k < |pat|
    ensures text[i + k] == pat[k]
  {
    assert text[i..i + |pat|][k] == pat[k];
  }

  /** A match that ends inside a prefix does not depend on what follows the prefix. */
  lemma MatchPrefix(text: seq<byte>, more: seq<byte>, i: int, pat: seq<byte>)
    requires i + |pat| <= |text|
    ensures MatchAt(text + more, i, pat) == MatchAt(text, i, pat)
  {
    if 0 <= i {
      assert (text + more)[i..i + |pat|] == text[i..i + |pat|];
    }
  }

  /** Once a search has succeeded, appending octets does not move its answer. */
  lemma FindStable(text: seq<byte>, more: seq<byte>, pat: seq<byte>)
    requires Find(text, pat).Some?
    ensures Find(text + more, pat) == Find(text, pat)
  {
    var k := Find(text, pat).value;
    FindIff(text, pat, k);
    forall i | 0 <= i <= k
      ensures MatchAt(text + more, i, pat) == MatchAt(text, i, pat)
    {
      MatchPrefix(text, more, i, pat);
    }
    FindIff(text + more, pat, k);
  }

  function Shift(r: Option<nat>, n: nat): Option<nat> {
    match r case None => None case Some(k) => Some(k + n)
  }

  /** A prefix in which no match starts only shifts the answer of the search. */
  lemma FindAfter(x: seq<byte>, rest: seq<byte>, pat: seq<byte>)
    requires NoMatch(x + rest, pat, 0, |x|)
    ensures Find(x + rest, pat) == Shift(Find(rest, pat), |x|)
  {
    forall j | |x| <= j
      ensures MatchAt(x + rest, j, pat) == MatchAt(rest, j - |x|, pat)
    {
      if j + |pat| <= |x| + |rest| {
        assert (x + rest)[j..j + |pat|] == rest[j - |x|..j - |x| + |pat|];
      }
    }
    match Find(rest, pat)
    case Some(k) =>
      FindIff(rest, pat, k);
      FindIff(x + rest, pat, k + |x|);
    case None =>
      FindIff(rest, pat, 0);
      FindIff(x + rest, pat, 0);
  }
}
