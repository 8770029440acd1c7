/** The serial-console frame: what the guest's init script prints and what the host parses back. */
module SerialFrame {
  import opened Bytes
  import Base64
  import ExitCode

  const STDOUT_START: seq<byte> := Ascii("FORGE_STDOUT_B64_START")
  const STDOUT_END: seq<byte> := Ascii("FORGE_STDOUT_B64_END")
  const STDERR_START: seq<byte> := Ascii("FORGE_STDERR_B64_START")
  const STDERR_END: seq<byte> := Ascii("FORGE_STDERR_B64_END")
  const EXIT: seq<byte> := Ascii("FORGE_EXIT:")

  datatype Output = Output(stdout: seq<byte>, stderr: seq<byte>, exitCode: int)

  // ---------------------------------------------------------------------------------------------
  // The parser
  // ---------------------------------------------------------------------------------------------

  predicate IsBreak(c: byte) { c == CR || c == LF }

  /** Delete CR and LF. */
  function Strip(s: seq<byte>): (r: seq<byte>)
    ensures |r| <= |s|
  {
    if s == [] then []
    else if IsBreak(s[0]) then Strip(s[1..])
    else [s[0]] + Strip(s[1..])
  }

  function ExtractSection(raw: seq<byte>, start: seq<byte>, end: seq<byte>): (r: Option<seq<byte>>)
    ensures r.Some? ==> |r.value| < |raw|
  {
    var opening := start + CRLF;
    match Find(raw, opening)
    case None => None
    case Some(p) =>
      var content := raw[p + |opening|..];
      match Find(content, end)
      case None => None
      case Some(n) => Base64.Decode(Strip(content[..n]))
  }

  /** Length of the first line of `s`, without its line break. */
  function LineLen(s: seq<byte>): (n: nat)
    ensures n <= |s|
    ensures forall i :: 0 <= i < n ==> s[i] != '\r' as int && s[i] != '\n' as int
    ensures n < |s| ==> s[n] == '\r' as int || s[n] == '\n' as int
  {
    if s == [] || IsBreak(s[0]) then 0 else 1 + LineLen(s[1..])
  }

  function ExtractExitCode(raw: seq<byte>): (r: Option<int>)
  {
    ValueAfter(raw, EXIT)
  }

  /** The value on the rest of the line after the first `marker`. */
  function ValueAfter(raw: seq<byte>, marker: seq<byte>): (r: Option<int>)
  {
    match Find(raw, marker)
    case None => None
    case Some(p) =>
      var rest := raw[p + |marker|..];
      ExitCode.ReadExitValue(rest[..LineLen(rest)])
  }

  function Fallback(raw: seq<byte>): Output { Output(raw, [], -1) }

  function Parse(raw: seq<byte>): (r: Output)
  {
    match (ExtractSection(raw, STDOUT_START, STDOUT_END),
           ExtractSection(raw, STDERR_START, STDERR_END),
           ExtractExitCode(raw))
    case (Some(out), Some(err), Some(code)) => Output(out, err, code)
    case _ => Fallback(raw)
  }

  // ---------------------------------------------------------------------------------------------
  // Exact meaning of the parse, stated without searching
  // ---------------------------------------------------------------------------------------------

  /** `lo..hi` lies between the first `start` CR LF of the stream and the first `end` after it. */
  ghost predicate SectionAt(raw: seq<byte>, start: seq<byte>, end: seq<byte>, lo: nat, hi: nat) {
    var opening := start + CRLF;
    && |opening| <= lo <= hi <= |raw|
    && MatchAt(raw, lo - |opening|, opening) && NoMatch(raw, opening, 0, lo - |opening|)
    && MatchAt(raw, hi, end) && NoMatch(raw, end, lo, hi)
  }

  /** `data` is the payload of the section: the octets between the markers, line breaks deleted, are
      its encoding. */
  ghost predicate Carries(raw: seq<byte>, start: seq<byte>, end: seq<byte>, data: seq<byte>) {
    exists lo: nat, hi: nat :: SectionAt(raw, start, end, lo, hi) && Strip(raw[lo..hi]) == Base64.Encode(data)
  }

  /** `lo..hi` is the rest of the line after the first `marker`. */
  ghost predicate LineAt(raw: seq<byte>, marker: seq<byte>, lo: nat, hi: nat) {
    && |marker| <= lo <= hi <= |raw|
    && MatchAt(raw, lo - |marker|, marker) && NoMatch(raw, marker, 0, lo - |marker|)
    && (forall i :: lo <= i < hi ==> raw[i] != '\r' as int && raw[i] != '\n' as int)
    && (hi < |raw| ==> raw[hi] == '\r' as int || raw[hi] == '\n' as int)
  }

  ghost predicate Reports(raw: seq<byte>, code: int) {
    exists lo: nat, hi: nat :: LineAt(raw, Ascii("FORGE_EXIT:"), lo, hi) && ExitCode.Denotes(raw[lo..hi], code)
  }

  lemma MatchInSlice(raw: seq<byte>, lo: nat, i: nat, pat: seq<byte>)
    requires lo <= |raw|
    ensures MatchAt(raw[lo..], i, pat) == MatchAt(raw, lo + i, pat)
  {
    if lo + i + |pat| <= |raw| {
      assert raw[lo..][i..i + |pat|] == raw[lo + i..lo + i + |pat|];
    }
  }

  lemma FindInSlice(raw: seq<byte>, lo: nat, hi: nat, pat: seq<byte>)
    requires lo <= hi && lo <= |raw|
    ensures Find(raw[lo..], pat) == Some(hi - lo) <==> MatchAt(raw, hi, pat) && NoMatch(raw, pat, lo, hi)
  {
    FindIff(raw[lo..], pat, hi - lo);
    forall i | lo <= i
      ensures MatchAt(raw[lo..], i - lo, pat) == MatchAt(raw, i, pat)
    {
      MatchInSlice(raw, lo, i - lo, pat);
    }
    forall i: nat
      ensures MatchAt(raw[lo..], i, pat) == MatchAt(raw, lo + i, pat)
    {
      MatchInSlice(raw, lo, i, pat);
    }
  }

  /** Where the extractor looks: nothing is extracted unless both searches succeed ... */
  lemma SectionFound(raw: seq<byte>, start: seq<byte>, end: seq<byte>) returns (lo: nat, hi: nat)
    requires ExtractSection(raw, start, end).Some?
    ensures SectionAt(raw, start, end, lo, hi)
  {
    var p := Find(raw, start + CRLF).value;
    FindIff(raw, start + CRLF, p);
    lo := p + |start + CRLF|;
    hi := lo + Find(raw[lo..], end).value;
    FindInSlice(raw, lo, hi, end);
  }

  /** ... and then it is the decoding of what lies between the markers. */
  lemma SectionDecodes(raw: seq<byte>, start: seq<byte>, end: seq<byte>, lo: nat, hi: nat)
    requires SectionAt(raw, start, end, lo, hi)
    ensures ExtractSection(raw, start, end) == Base64.Decode(Strip(raw[lo..hi]))
  {
    var opening := start + CRLF;
    assert Find(raw, opening) == Some(lo - |opening|) by {
      FindIff(raw, opening, lo - |opening|);
    }
    assert Find(raw[lo..], end) == Some(hi - lo) by {
      FindInSlice(raw, lo, hi, end);
    }
    assert raw[lo..][..hi - lo] == raw[lo..hi];
  }

  /** A section is extracted as `data` exactly when the stream carries `data` between the markers. */
  lemma ExtractIffCarries(raw: seq<byte>, start: seq<byte>, end: seq<byte>, data: seq<byte>)
    ensures ExtractSection(raw, start, end) == Some(data) <==> Carries(raw, start, end, data)
  {
    if ExtractSection(raw, start, end) == Some(data) {
      var lo, hi := SectionFound(raw, start, end);
      SectionDecodes(raw, start, end, lo, hi);
      Base64.DecodeIffEncode(Strip(raw[lo..hi]), data);
    }
    if Carries(raw, start, end, data) {
      var lo: nat, hi: nat :| SectionAt(raw, start, end, lo, hi) && Strip(raw[lo..hi]) == Base64.Encode(data);
      SectionDecodes(raw, start, end, lo, hi);
      Base64.DecodeIffEncode(Strip(raw[lo..hi]), data);
    }
  }

  lemma LineLenIs(s: seq<byte>, n: nat)
    requires n <= |s| && (forall i :: 0 <= i < n ==> !IsBreak(s[i])) && (n < |s| ==> IsBreak(s[n]))
    ensures LineLen(s) == n
  {
  }

  lemma LineFound(raw: seq<byte>, marker: seq<byte>) returns (lo: nat, hi: nat)
    requires ValueAfter(raw, marker).Some?
    ensures LineAt(raw, marker, lo, hi)
  {
    var p := Find(raw, marker).value;
    FindIff(raw, marker, p);
    lo := p + |marker|;
    var rest := raw[lo..];
    hi := lo + LineLen(rest);
    forall i | lo <= i < hi ensures raw[i] != '\r' as int && raw[i] != '\n' as int { assert raw[i] == rest[i - lo]; }
  }

  lemma LineReads(raw: seq<byte>, marker: seq<byte>, lo: nat, hi: nat)
    requires LineAt(raw, marker, lo, hi)
    ensures ValueAfter(raw, marker) == ExitCode.ReadExitValue(raw[lo..hi])
  {
    assert Find(raw, marker) == Some(lo - |marker|) by {
      FindIff(raw, marker, lo - |marker|);
    }
    assert LineLen(raw[lo..]) == hi - lo by {
      LineLenIs(raw[lo..], hi - lo);
    }
    assert raw[lo..][..hi - lo] == raw[lo..hi];
  }

  /** The exit code is extracted as `code` exactly when the first exit line denotes it. */
  lemma ExitIffReports(raw: seq<byte>, code: int)
    ensures ExtractExitCode(raw) == Some(code) <==> Reports(raw, code)
  {
    if ExtractExitCode(raw) == Some(code) {
      var lo, hi := LineFound(raw, EXIT);
      LineReads(raw, EXIT, lo, hi);
      ExitCode.ReadIffDenotes(raw[lo..hi], code);
    }
    if Reports(raw, code) {
      var lo: nat, hi: nat :| LineAt(raw, EXIT, lo, hi) && ExitCode.Denotes(raw[lo..hi], code);
      LineReads(raw, EXIT, lo, hi);
      ExitCode.ReadIffDenotes(raw[lo..hi], code);
    }
  }

  /** The stream carries these three values. */
  ghost predicate CarriesAll(raw: seq<byte>, out: seq<byte>, err: seq<byte>, code: int) {
    && Carries(raw, Ascii("FORGE_STDOUT_B64_START"), Ascii("FORGE_STDOUT_B64_END"), out)
    && Carries(raw, Ascii("FORGE_STDERR_B64_START"), Ascii("FORGE_STDERR_B64_END"), err)
    && Reports(raw, code)
  }

  lemma ExtractedIffCarriesAll(raw: seq<byte>, out: seq<byte>, err: seq<byte>, code: int)
    ensures CarriesAll(raw, out, err, code)
            <==> (&& ExtractSection(raw, STDOUT_START, STDOUT_END) == Some(out)
                  && ExtractSection(raw, STDERR_START, STDERR_END) == Some(err)
                  && ExtractExitCode(raw) == Some(code))
  {
    ExtractIffCarries(raw, STDOUT_START, STDOUT_END, out);
    ExtractIffCarries(raw, STDERR_START, STDERR_END, err);
    ExitIffReports(raw, code);
  }

  /** The parse is the triple the stream carries; a stream that carries none gives back itself, an
      empty standard error and -1, never a mixture; and the two cases can be told apart, because a
      payload is shorter than the stream around it. */
  lemma ParseExactly(raw: seq<byte>)
    ensures forall out, err, code :: CarriesAll(raw, out, err, code) ==> Parse(raw) == Output(out, err, code)
    ensures (forall out, err, code :: !CarriesAll(raw, out, err, code))
            ==> Parse(raw).stdout == raw && Parse(raw).stderr == [] && Parse(raw).exitCode == -1
    ensures Parse(raw).stdout == raw <==> forall out, err, code :: !CarriesAll(raw, out, err, code)
  {
    forall out, err, code | CarriesAll(raw, out, err, code)
      ensures Parse(raw) == Output(out, err, code) && out != raw
    {
      ExtractedIffCarriesAll(raw, out, err, code);
    }
    var out, err := ExtractSection(raw, STDOUT_START, STDOUT_END), ExtractSection(raw, STDERR_START, STDERR_END);
    var code := ExtractExitCode(raw);
    if out.Some? && err.Some? && code.Some? {
      ExtractedIffCarriesAll(raw, out.value, err.value, code.value);
    }
  }

  /** `Strip` deletes the octets of CR and LF and no others. */
  lemma {:induction false} StripAt(a: seq<byte>, c: byte, b: seq<byte>)
    ensures Strip(a + [c] + b) == if c == '\r' as int || c == '\n' as int then Strip(a) + Strip(b) else Strip(a) + [c] + Strip(b)
  {
    if a == [] {
      assert a + [c] + b == [c] + b && ([c] + b)[1..] == b;
    } else {
      assert (a + [c] + b)[1..] == a[1..] + [c] + b;
      StripAt(a[1..], c, b);
    }
  }
}
