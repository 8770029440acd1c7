/** What a guest may put on the console, and the round trip through the parser. */
module SerialEmitter {
  import opened Bytes
  import opened SerialFrame
  import Base64
  import ExitCode

  const OUT_OPEN: seq<byte> := STDOUT_START + CRLF
  const ERR_OPEN: seq<byte> := STDERR_START + CRLF

  /** One execution as it appears on the console: three stretches of unrelated output around and
      between the sections, the base64 texts with line breaks anywhere, the exit line and a tail. */
  datatype Frame = Frame(
    noise: seq<byte>,
    stdout: seq<byte>, stdoutText: seq<byte>,
    gap: seq<byte>,
    stderr: seq<byte>, stderrText: seq<byte>,
    lead: seq<byte>,
    exitCode: int,
    tail: seq<byte>)

  function Emit(f: Frame): seq<byte> {
    f.noise + (OUT_OPEN + (f.stdoutText + (STDOUT_END + EmitRest(f))))
  }

  function EmitRest(f: Frame): seq<byte> {
    f.gap + (ERR_OPEN + (f.stderrText + (STDERR_END + EmitExit(f))))
  }

  function EmitExit(f: Frame): seq<byte> {
    f.lead + (EXIT + (ExitCode.Print(f.exitCode) + f.tail))
  }

  /** The texts are the encodings up to line breaks; each stretch of unrelated output is free of the
      markers still to be found after it. End markers, bare start markers and, once found, repeated
      start markers are all allowed there. */
  ghost predicate WellFormed(f: Frame) {
    && Strip(f.stdoutText) == Base64.Encode(f.stdout)
    && Strip(f.stderrText) == Base64.Encode(f.stderr)
    && ExitCode.InI32(f.exitCode)
    && Free(f.noise, OUT_OPEN) && Free(f.noise, ERR_OPEN) && Free(f.noise, EXIT)
    && Free(f.gap, ERR_OPEN) && Free(f.gap, EXIT)
    && Free(f.lead, EXIT)
    && (f.tail == [] || IsBreak(f.tail[0]))
  }

  // ---------------------------------------------------------------------------------------------
  // Searching past the pieces of a frame
  // ---------------------------------------------------------------------------------------------

  const F: byte := 70           // 'F'
  const UNDERSCORE: byte := 95  // '_'

  /** What all five markers have in common: `F` only in front, an underscore at offset 5. */
  predicate MarkerLike(m: seq<byte>) {
    && |m| > 6 && m[0] == F && m[5] == UNDERSCORE
    && forall i :: 1 <= i < |m| ==> m[i] != F
  }

  /** Neither is a prefix of the other. */
  predicate Clash(m: seq<byte>, pat: seq<byte>, k: nat) {
    k < |m| && k < |pat| && m[k] != pat[k]
  }

  lemma ShapeOf(s: string)
    requires |s| > 6 && s[0] == 'F' && s[5] == '_'
    requires forall i :: 0 <= i < |s| ==> s[i] < 128 as char && (i > 0 ==> s[i] != 'F')
    ensures MarkerLike(Ascii(s)) && MarkerLike(Ascii(s) + CRLF)
  {
  }

  lemma MarkerShapes()
    ensures MarkerLike(OUT_OPEN) && MarkerLike(ERR_OPEN) && MarkerLike(STDOUT_END) && MarkerLike(STDERR_END) && MarkerLike(EXIT)
  {
    ShapeOf("FORGE_STDOUT_B64_START");
    ShapeOf("FORGE_STDOUT_B64_END");
    ShapeOf("FORGE_EXIT:");
    StderrShapes();
  }

  lemma StderrShapes()
    ensures MarkerLike(ERR_OPEN) && MarkerLike(STDERR_END)
  {
    ShapeOf("FORGE_STDERR_B64_START");
    ShapeOf("FORGE_STDERR_B64_END");
  }

  lemma MarkerClashes()
    ensures Clash(OUT_OPEN, ERR_OPEN, 9) && Clash(STDOUT_END, ERR_OPEN, 9)
    ensures Clash(OUT_OPEN, EXIT, 6) && Clash(ERR_OPEN, EXIT, 6) && Clash(STDOUT_END, EXIT, 6) && Clash(STDERR_END, EXIT, 6)
  {
  }

  lemma Markers()
    ensures MarkerLike(OUT_OPEN) && MarkerLike(ERR_OPEN) && MarkerLike(STDOUT_END) && MarkerLike(STDERR_END) && MarkerLike(EXIT)
    ensures Clash(OUT_OPEN, ERR_OPEN, 9) && Clash(STDOUT_END, ERR_OPEN, 9)
    ensures Clash(OUT_OPEN, EXIT, 6) && Clash(ERR_OPEN, EXIT, 6) && Clash(STDOUT_END, EXIT, 6) && Clash(STDERR_END, EXIT, 6)
  {
    MarkerShapes();
    MarkerClashes();
  }

  /** No match starts in output that is free of the marker and is followed by some marker. */
  lemma SkipFree(x: seq<byte>, rest: seq<byte>, pat: seq<byte>)
    requires MarkerLike(pat) && Free(x, pat) && rest != [] && rest[0] == F
    ensures Find(x + rest, pat) == Shift(Find(rest, pat), |x|)
  {
    forall i | 0 <= i < |x|
      ensures !MatchAt(x + rest, i, pat)
    {
      if i + |pat| <= |x| {
        MatchPrefix(x, rest, i, pat);
      } else if MatchAt(x + rest, i, pat) {
        MatchIndex(x + rest, i, pat, |x| - i);
      }
    }
    FindAfter(x, rest, pat);
  }

  /** No match of one marker starts inside a different marker. */
  lemma SkipMarker(m: seq<byte>, rest: seq<byte>, pat: seq<byte>, k: nat)
    requires MarkerLike(pat) && MarkerLike(m) && Clash(m, pat, k)
    ensures Find(m + rest, pat) == Shift(Find(rest, pat), |m|)
  {
    forall i | 0 <= i < |m|
      ensures !MatchAt(m + rest, i, pat)
    {
      if MatchAt(m + rest, i, pat) {
        MatchIndex(m + rest, i, pat, if i == 0 then k else 0);
      }
    }
    FindAfter(m, rest, pat);
  }

  lemma FindHere(pat: seq<byte>, rest: seq<byte>)
    ensures Find(pat + rest, pat) == Some(0)
  {
    assert (pat + rest)[0..|pat|] == pat;
  }

  /** Wrapped base64 text holds no marker: it has no underscore. */
  lemma TextIsFree(text: seq<byte>, data: seq<byte>, pat: seq<byte>)
    requires Strip(text) == Base64.Encode(data) && MarkerLike(pat)
    ensures Free(text, pat)
  {
    forall i | MatchAt(text, i, pat)
      ensures false
    {
      MatchIndex(text, i, pat, 5);
      StripKeeps(text, i + 5);
      var j :| 0 <= j < |Strip(text)| && Strip(text)[j] == UNDERSCORE;
      Base64.EncodeOctets(data, j);
    }
  }

  lemma {:induction false} StripKeeps(s: seq<byte>, i: nat)
    requires i < |s|
    ensures IsBreak(s[i]) || s[i] in Strip(s)
  {
    if i > 0 {
      StripKeeps(s[1..], i - 1);
    }
  }

  // ---------------------------------------------------------------------------------------------
  // The round trip
  // ---------------------------------------------------------------------------------------------

  /** A section that the searches reach is decoded from its text. */
  lemma SectionReads(before: seq<byte>, start: seq<byte>, end: seq<byte>, text: seq<byte>, rest: seq<byte>)
    requires MarkerLike(end) && Free(text, end)
    requires Find(before + ((start + CRLF) + (text + (end + rest))), start + CRLF) == Some(|before|)
    ensures ExtractSection(before + ((start + CRLF) + (text + (end + rest))), start, end) == Base64.Decode(Strip(text))
  {
    var content := text + (end + rest);
    var raw := before + ((start + CRLF) + content);
    assert raw[|before| + |start + CRLF|..] == content;
    assert Find(content, end) == Some(|text|) by {
      SkipFree(text, end + rest, end);
      FindHere(end, rest);
    }
    assert content[..|text|] == text;
  }

  lemma StdoutReads(f: Frame)
    requires WellFormed(f)
    ensures ExtractSection(Emit(f), STDOUT_START, STDOUT_END) == Some(f.stdout)
  {
    Markers();
    var content := f.stdoutText + (STDOUT_END + EmitRest(f));
    SkipFree(f.noise, OUT_OPEN + content, OUT_OPEN);
    FindHere(OUT_OPEN, content);
    TextIsFree(f.stdoutText, f.stdout, STDOUT_END);
    SectionReads(f.noise, STDOUT_START, STDOUT_END, f.stdoutText, EmitRest(f));
    Base64.DecodeOfEncode(f.stdout);
  }

  /** A free stretch and a different marker behind it are both skipped. */
  lemma SkipPiece(x: seq<byte>, m: seq<byte>, rest: seq<byte>, pat: seq<byte>, k: nat)
    requires MarkerLike(m) && MarkerLike(pat) && Clash(m, pat, k) && Free(x, pat)
    ensures Find(x + (m + rest), pat) == Shift(Find(rest, pat), |x| + |m|)
  {
    SkipMarker(m, rest, pat, k);
    SkipFree(x, m + rest, pat);
  }

  /** A marker that clashes with both markers of a section is searched for behind the section. */
  lemma BehindSection(before: seq<byte>, open: seq<byte>, text: seq<byte>, close: seq<byte>, rest: seq<byte>,
                      pat: seq<byte>, i: nat, j: nat)
    requires MarkerLike(open) && MarkerLike(close) && MarkerLike(pat) && Clash(open, pat, i) && Clash(close, pat, j)
    requires Free(before, pat) && Free(text, pat)
    ensures before + (open + (text + (close + rest))) == (before + open + text + close) + rest
    ensures Find((before + open + text + close) + rest, pat) == Shift(Find(rest, pat), |before + open + text + close|)
  {
    SkipPiece(text, close, rest, pat, j);
    SkipPiece(before, open, text + (close + rest), pat, i);
    assert before + (open + (text + (close + rest))) == (before + open + text + close) + rest;
  }

  /** The first section of a stream whose marker no earlier octet spells. */
  lemma NextSection(skipped: seq<byte>, gap: seq<byte>, start: seq<byte>, text: seq<byte>, end: seq<byte>, rest: seq<byte>)
    requires MarkerLike(start + CRLF) && MarkerLike(end) && Free(gap, start + CRLF) && Free(text, end)
    requires var stream := gap + ((start + CRLF) + (text + (end + rest)));
             Find(skipped + stream, start + CRLF) == Shift(Find(stream, start + CRLF), |skipped|)
    ensures var stream := gap + ((start + CRLF) + (text + (end + rest)));
            ExtractSection(skipped + stream, start, end) == Base64.Decode(Strip(text))
  {
    var open := start + CRLF;
    var content := text + (end + rest);
    SkipFree(gap, open + content, open);
    FindHere(open, content);
    assert skipped + (gap + (open + content)) == (skipped + gap) + (open + content);
    SectionReads(skipped + gap, start, end, text, rest);
  }

  lemma StderrReads(f: Frame)
    requires WellFormed(f)
    ensures ExtractSection(Emit(f), STDERR_START, STDERR_END) == Some(f.stderr)
  {
    Markers();
    TextIsFree(f.stdoutText, f.stdout, ERR_OPEN);
    TextIsFree(f.stderrText, f.stderr, STDERR_END);
    BehindSection(f.noise, OUT_OPEN, f.stdoutText, STDOUT_END, EmitRest(f), ERR_OPEN, 9, 9);
    NextSection(f.noise + OUT_OPEN + f.stdoutText + STDOUT_END, f.gap, STDERR_START, f.stderrText, STDERR_END, EmitExit(f));
    Base64.DecodeOfEncode(f.stderr);
  }

  /** The first marked line of a stream whose marker no earlier octet spells. */
  lemma NextLine(skipped: seq<byte>, lead: seq<byte>, marker: seq<byte>, line: seq<byte>)
    requires MarkerLike(marker) && Free(lead, marker)
    requires var stream := lead + (marker + line); Find(skipped + stream, marker) == Shift(Find(stream, marker), |skipped|)
    ensures ValueAfter(skipped + (lead + (marker + line)), marker) == ExitCode.ReadExitValue(line[..LineLen(line)])
  {
    var raw, before := skipped + (lead + (marker + line)), skipped + lead + marker;
    assert Find(raw, marker) == Some(|skipped| + |lead|) by {
      SkipFree(lead, marker + line, marker);
      FindHere(marker, line);
    }
    assert raw == before + line;
    assert (before + line)[|before|..] == line;
  }

  /** Two sections in a row are skipped by the search for a marker that clashes with all four. */
  lemma BehindBoth(x1: seq<byte>, y1: seq<byte>, rest: seq<byte>, pat: seq<byte>)
    requires Find(x1 + (y1 + rest), pat) == Shift(Find(y1 + rest, pat), |x1|)
    requires Find(y1 + rest, pat) == Shift(Find(rest, pat), |y1|)
    ensures x1 + (y1 + rest) == (x1 + y1) + rest
    ensures Find((x1 + y1) + rest, pat) == Shift(Find(rest, pat), |x1 + y1|)
  {
    assert x1 + (y1 + rest) == (x1 + y1) + rest;
  }

  lemma ExitReads(f: Frame)
    requires WellFormed(f)
    ensures ExtractExitCode(Emit(f)) == Some(f.exitCode)
  {
    Markers();
    TextIsFree(f.stdoutText, f.stdout, EXIT);
    TextIsFree(f.stderrText, f.stderr, EXIT);
    var first := f.noise + OUT_OPEN + f.stdoutText + STDOUT_END;
    var second := f.gap + ERR_OPEN + f.stderrText + STDERR_END;
    BehindSection(f.noise, OUT_OPEN, f.stdoutText, STDOUT_END, EmitRest(f), EXIT, 6, 6);
    BehindSection(f.gap, ERR_OPEN, f.stderrText, STDERR_END, EmitExit(f), EXIT, 6, 6);
    BehindBoth(first, second, EmitExit(f), EXIT);
    NextLine(first + second, f.lead, EXIT, ExitCode.Print(f.exitCode) + f.tail);
    ExitLineOf(f.exitCode, f.tail);
  }

  lemma ExitLineOf(code: int, tail: seq<byte>)
    requires ExitCode.InI32(code) && (tail == [] || IsBreak(tail[0]))
    ensures var line := ExitCode.Print(code) + tail; ExitCode.ReadExitValue(line[..LineLen(line)]) == Some(code)
  {
    var num := ExitCode.Print(code);
    var line := num + tail;
    LineLenIs(line, |num|);
    assert line[..|num|] == [] + num + [];
    ExitCode.PrintThenRead(code, "", "");
  }

  /** Whatever surrounds a well-formed frame, parsing returns exactly what the guest ran to. */
  lemma RoundTrip(f: Frame)
    requires WellFormed(f)
    ensures Parse(Emit(f)) == Output(f.stdout, f.stderr, f.exitCode)
  {
    StdoutReads(f);
    StderrReads(f);
    ExitReads(f);
  }
}
