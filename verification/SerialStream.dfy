/** Streams as they arrive: the two known emitters, what a longer read can change, and what a console
    that echoes the kernel command line does to the parse. */
module SerialStream {
  import opened Bytes
  import opened SerialFrame
  import opened SerialEmitter
  import Base64
  import ExitCode

  // ---------------------------------------------------------------------------------------------
  // Emitters
  // ---------------------------------------------------------------------------------------------

  /** `base64` on a serial console: lines of `cols` octets, each ended by CR LF. */
  function Wrap(text: seq<byte>, cols: nat): seq<byte>
    requires cols > 0
  {
    if text == [] then []
    else if |text| <= cols then text + Ascii("\r\n")
    else text[..cols] + Ascii("\r\n") + Wrap(text[cols..], cols)
  }

  /** What the init script prints, after the boot noise and before whatever follows. */
  function InitScript(noise: seq<byte>, out: seq<byte>, err: seq<byte>, code: int, tail: seq<byte>): seq<byte> {
    noise
    + Ascii("FORGE_STDOUT_B64_START\r\n") + Wrap(Base64.Encode(out), 76) + Ascii("FORGE_STDOUT_B64_END\r\n")
    + Ascii("FORGE_STDERR_B64_START\r\n") + Wrap(Base64.Encode(err), 76) + Ascii("FORGE_STDERR_B64_END\r\n")
    + Ascii("FORGE_EXIT:") + ExitCode.Print(code) + Ascii("\r\n") + tail
  }

  /** The stream built by the unit tests. */
  function MakeB64Output(out: seq<byte>, err: seq<byte>, code: int): seq<byte> {
    Ascii("kernel boot noise\r\n")
    + Ascii("FORGE_STDOUT_B64_START\r\n") + Base64.Encode(out) + Ascii("\r\n") + Ascii("FORGE_STDOUT_B64_END\r\n")
    + Ascii("FORGE_STDERR_B64_START\r\n") + Base64.Encode(err) + Ascii("\r\n") + Ascii("FORGE_STDERR_B64_END\r\n")
    + Ascii("FORGE_EXIT:") + ExitCode.Print(code) + Ascii("\r\n")
  }

  /** The lines the emitters print are the markers the parser looks for. */
  lemma MarkerLines()
    ensures Ascii("\r\n") == CRLF && Ascii("FORGE_EXIT:") == EXIT
    ensures Ascii("FORGE_STDOUT_B64_START\r\n") == STDOUT_START + CRLF && Ascii("FORGE_STDOUT_B64_END\r\n") == STDOUT_END + CRLF
    ensures Ascii("FORGE_STDERR_B64_START\r\n") == STDERR_START + CRLF && Ascii("FORGE_STDERR_B64_END\r\n") == STDERR_END + CRLF
  {
    MarkerLine("FORGE_STDOUT_B64_START");
    MarkerLine("FORGE_STDOUT_B64_END");
    MarkerLine("FORGE_STDERR_B64_START");
    MarkerLine("FORGE_STDERR_B64_END");
    assert "FORGE_STDOUT_B64_START" + "\r\n" == "FORGE_STDOUT_B64_START\r\n";
    assert "FORGE_STDOUT_B64_END" + "\r\n" == "FORGE_STDOUT_B64_END\r\n";
    assert "FORGE_STDERR_B64_START" + "\r\n" == "FORGE_STDERR_B64_START\r\n";
    assert "FORGE_STDERR_B64_END" + "\r\n" == "FORGE_STDERR_B64_END\r\n";
  }

  lemma MarkerLine(marker: string)
    ensures Ascii(marker + "\r\n") == Ascii(marker) + CRLF
  {
    AsciiAppend(marker, "\r\n");
    assert Ascii("\r\n") == CRLF;
  }

  lemma {:induction false} StripAppend(a: seq<byte>, b: seq<byte>)
    ensures Strip(a + b) == Strip(a) + Strip(b)
  {
    if a == [] {
      assert a + b == b;
    } else {
      assert (a + b)[1..] == a[1..] + b;
      StripAppend(a[1..], b);
    }
  }

  lemma {:induction false} StripUnbroken(s: seq<byte>)
    requires forall i :: 0 <= i < |s| ==> !IsBreak(s[i])
    ensures Strip(s) == s
  {
    if s != [] {
      StripUnbroken(s[1..]);
    }
  }

  lemma StripCrlf()
    ensures Strip(CRLF) == []
  {
    assert CRLF[1..] == [LF] && [LF][1..] == [];
  }

  /** Deleting line breaks undoes wrapping at any width. */
  lemma {:induction false} StripWrap(text: seq<byte>, cols: nat)
    requires cols > 0 && forall i :: 0 <= i < |text| ==> !IsBreak(text[i])
    ensures Strip(Wrap(text, cols)) == text
  {
    StripCrlf();
    MarkerLines();
    if |text| > cols {
      StripWrap(text[cols..], cols);
      StripUnbroken(text[..cols]);
      StripAppend(text[..cols], CRLF);
      StripAppend(text[..cols] + CRLF, Wrap(text[cols..], cols));
    } else if text != [] {
      StripUnbroken(text);
      StripAppend(text, CRLF);
    }
  }

  lemma EncodeUnbroken(data: seq<byte>)
    ensures forall i :: 0 <= i < |Base64.Encode(data)| ==> !IsBreak(Base64.Encode(data)[i])
  {
    forall i | 0 <= i < |Base64.Encode(data)|
      ensures !IsBreak(Base64.Encode(data)[i])
    {
      Base64.EncodeOctets(data, i);
    }
  }

  ghost predicate QuietNoise(noise: seq<byte>) {
    Free(noise, OUT_OPEN) && Free(noise, ERR_OPEN) && Free(noise, EXIT)
  }

  function InitFrame(noise: seq<byte>, out: seq<byte>, err: seq<byte>, code: int, tail: seq<byte>): Frame {
    Frame(noise, out, Wrap(Base64.Encode(out), 76), CRLF, err, Wrap(Base64.Encode(err), 76), CRLF, code, CRLF + tail)
  }

  /** The init script emits a well-formed frame, so its run is read back exactly. */
  lemma InitScriptRoundTrip(noise: seq<byte>, out: seq<byte>, err: seq<byte>, code: int, tail: seq<byte>)
    requires QuietNoise(noise) && ExitCode.InI32(code)
    ensures WellFormed(InitFrame(noise, out, err, code, tail))
    ensures InitScript(noise, out, err, code, tail) == Emit(InitFrame(noise, out, err, code, tail))
    ensures Parse(InitScript(noise, out, err, code, tail)) == Output(out, err, code)
  {
    var f := InitFrame(noise, out, err, code, tail);
    EncodeUnbroken(out);
    StripWrap(Base64.Encode(out), 76);
    EncodeUnbroken(err);
    StripWrap(Base64.Encode(err), 76);
    assert WellFormed(f) by { Markers(); }
    MarkerLines();
    InitScriptIsFrame(noise, STDOUT_START, f.stdoutText, STDOUT_END, STDERR_START, f.stderrText, STDERR_END,
                      EXIT, ExitCode.Print(code), tail);
    RoundTrip(f);
  }

  lemma InitScriptIsFrame(n: seq<byte>, a: seq<byte>, t: seq<byte>, b: seq<byte>, c: seq<byte>, u: seq<byte>, d: seq<byte>,
                          e: seq<byte>, v: seq<byte>, z: seq<byte>)
    ensures n + (a + CRLF) + t + (b + CRLF) + (c + CRLF) + u + (d + CRLF) + e + v + CRLF + z
         == n + ((a + CRLF) + (t + (b + (CRLF + ((c + CRLF) + (u + (d + (CRLF + (e + (v + (CRLF + z)))))))))))
  {
  }

  /** The unit tests' stream is read back exactly. */
  lemma MakeB64OutputRoundTrip(out: seq<byte>, err: seq<byte>, code: int)
    requires ExitCode.InI32(code)
    ensures Parse(MakeB64Output(out, err, code)) == Output(out, err, code)
  {
    var noise := Ascii("kernel boot noise\r\n");
    var f := Frame(noise, out, Base64.Encode(out) + CRLF, CRLF, err, Base64.Encode(err) + CRLF, CRLF, code, CRLF);
    StripCrlf();
    EncodeUnbroken(out);
    StripUnbroken(Base64.Encode(out));
    StripAppend(Base64.Encode(out), CRLF);
    EncodeUnbroken(err);
    StripUnbroken(Base64.Encode(err));
    StripAppend(Base64.Encode(err), CRLF);
    assert WellFormed(f) by { Markers(); NoiseIsQuiet(); }
    MarkerLines();
    MakeB64OutputIsFrame(noise, STDOUT_START, Base64.Encode(out), STDOUT_END, STDERR_START, Base64.Encode(err), STDERR_END,
                         EXIT, ExitCode.Print(code));
    RoundTrip(f);
  }

  lemma NoiseIsQuiet()
    ensures QuietNoise(Ascii("kernel boot noise\r\n"))
  {
    var noise := Ascii("kernel boot noise\r\n");
    Markers();
    forall i, pat | MarkerLike(pat) && 0 <= i < |noise| && MatchAt(noise, i, pat)
      ensures false
    {
      MatchIndex(noise, i, pat, 0);
    }
  }

  lemma MakeB64OutputIsFrame(n: seq<byte>, a: seq<byte>, t: seq<byte>, b: seq<byte>, c: seq<byte>, u: seq<byte>, d: seq<byte>,
                             e: seq<byte>, v: seq<byte>)
    ensures n + (a + CRLF) + t + CRLF + (b + CRLF) + (c + CRLF) + u + CRLF + (d + CRLF) + e + v + CRLF
         == n + ((a + CRLF) + ((t + CRLF) + (b + (CRLF + ((c + CRLF) + ((u + CRLF) + (d + (CRLF + (e + (v + CRLF))))))))))
  {
  }

  // ---------------------------------------------------------------------------------------------
  // Reading further
  // ---------------------------------------------------------------------------------------------

  /** All three extractions succeed. */
  predicate Complete(raw: seq<byte>) {
    && ExtractSection(raw, STDOUT_START, STDOUT_END).Some?
    && ExtractSection(raw, STDERR_START, STDERR_END).Some?
    && ExtractExitCode(raw).Some?
  }

  /** The line of the first `marker` has already been ended by CR or LF. */
  predicate Terminated(raw: seq<byte>, marker: seq<byte>) {
    Find(raw, marker).Some? && var rest := raw[Find(raw, marker).value + |marker|..]; LineLen(rest) < |rest|
  }

  lemma SectionStable(raw: seq<byte>, more: seq<byte>, start: seq<byte>, end: seq<byte>)
    requires ExtractSection(raw, start, end).Some?
    ensures ExtractSection(raw + more, start, end) == ExtractSection(raw, start, end)
  {
    var opening := start + CRLF;
    FindStable(raw, more, opening);
    var lo := Find(raw, opening).value + |opening|;
    assert (raw + more)[lo..] == raw[lo..] + more;
    FindStable(raw[lo..], more, end);
    var n := Find(raw[lo..], end).value;
    assert (raw[lo..] + more)[..n] == raw[lo..][..n];
  }

  lemma ValueStable(raw: seq<byte>, more: seq<byte>, marker: seq<byte>)
    requires Terminated(raw, marker)
    ensures ValueAfter(raw + more, marker) == ValueAfter(raw, marker)
  {
    FindStable(raw, more, marker);
    var lo := Find(raw, marker).value + |marker|;
    var rest, n := raw[lo..], LineLen(raw[lo..]);
    assert (raw + more)[lo..] == rest + more;
    assert LineLen(rest + more) == n && (rest + more)[..n] == rest[..n] by {
      LineStable(rest, more);
    }
  }

  lemma LineStable(rest: seq<byte>, more: seq<byte>)
    requires LineLen(rest) < |rest|
    ensures LineLen(rest + more) == LineLen(rest) && (rest + more)[..LineLen(rest)] == rest[..LineLen(rest)]
  {
    LineLenIs(rest + more, LineLen(rest));
  }

  /** One more octet on an unfinished line that is no digit and no part of white space spoils its value. */
  lemma ValueSpoiled(raw: seq<byte>, marker: seq<byte>, junk: byte)
    requires Find(raw, marker).Some? && !Terminated(raw, marker)
    requires !ExitCode.IsDigit(junk) && !ExitCode.SpaceEdge(junk)
    ensures ValueAfter(raw + [junk], marker).None?
  {
    FindStable(raw, [junk], marker);
    var lo := Find(raw, marker).value + |marker|;
    var rest := raw[lo..];
    var line := rest + [junk];
    assert (raw + [junk])[lo..] == line;
    LineLenIs(line, |line|);
    assert line[..|line|] == line;
    if ExitCode.ReadExitValue(line).Some? {
      ExitCode.ReadableEnds(line);
    }
  }

  /** A complete parse is final, whatever is read after it, exactly when the exit line is finished. */
  lemma StableIffTerminated(raw: seq<byte>)
    requires Complete(raw)
    ensures (forall more :: Parse(raw + more) == Parse(raw)) <==> Terminated(raw, EXIT)
  {
    if Terminated(raw, EXIT) {
      forall more
        ensures Parse(raw + more) == Parse(raw)
      {
        SectionStable(raw, more, STDOUT_START, STDOUT_END);
        SectionStable(raw, more, STDERR_START, STDERR_END);
        ValueStable(raw, more, EXIT);
      }
    } else {
      var junk: byte := 88;
      ValueSpoiled(raw, EXIT, junk);
      assert Parse(raw + [junk]) == Fallback(raw + [junk]);
      assert |Parse(raw + [junk]).stdout| > |Parse(raw).stdout|;
    }
  }

  // ---------------------------------------------------------------------------------------------
  // The kernel command line on the console
  // ---------------------------------------------------------------------------------------------

  /** The kernel command line that runs a command as the init process. */
  function BootArgs(command: string): string {
    BootArgsHead(command) + "FORGE_EXIT:$EC" + ";poweroff -f 2>/dev/null||reboot -f\""
  }

  /** Up to the exit marker. */
  function BootArgsHead(command: string): string {
    "console=ttyS0 reboot=k panic=1 pci=off quiet init=/bin/sh -c \""
    + "SF=$(mktemp);EF=$(mktemp);eval \"" + command + "\" >\"$SF\" 2>\"$EF\";EC=$?;"
    + "echo FORGE_STDOUT_B64_START;base64 \"$SF\";echo FORGE_STDOUT_B64_END;"
    + "echo FORGE_STDERR_B64_START;base64 \"$EF\";echo FORGE_STDERR_B64_END;"
    + "echo "
  }

  /** The command line contains the exit marker, followed by `$EC`. If the console shows it before the
      script runs, the frame printed later is never read, whatever it is: the parse gives back the whole
      stream and -1. */
  lemma EchoedCommandLineFallsBack(before: seq<byte>, command: string, after: seq<byte>)
    requires Free(before + Ascii(BootArgsHead(command)), Ascii("FORGE_EXIT:"))
    ensures var raw := before + Ascii(BootArgs(command)) + after;
            Parse(raw).stdout == raw && Parse(raw).stderr == [] && Parse(raw).exitCode == -1
  {
    EchoedMarkerFallsBack(before, BootArgsHead(command), ";poweroff -f 2>/dev/null||reboot -f\"", after);
  }

  lemma EchoedMarkerFallsBack(before: seq<byte>, head: string, rest: string, after: seq<byte>)
    requires Free(before + Ascii(head), Ascii("FORGE_EXIT:"))
    ensures var raw := before + Ascii(head + "FORGE_EXIT:$EC" + rest) + after;
            Parse(raw).stdout == raw && Parse(raw).stderr == [] && Parse(raw).exitCode == -1
  {
    EchoedMarkerHasNoValue(before, head, rest, after);
  }

  lemma EchoedMarkerHasNoValue(before: seq<byte>, head: string, rest: string, after: seq<byte>)
    requires Free(before + Ascii(head), Ascii("FORGE_EXIT:"))
    ensures ValueAfter(before + Ascii(head + "FORGE_EXIT:$EC" + rest) + after, EXIT) == None
  {
    Markers();
    var raw, line := before + Ascii(head + "FORGE_EXIT:$EC" + rest) + after, Ascii("$EC") + (Ascii(rest) + after);
    SplitAtMarker(head, rest);
    assert raw == (before + Ascii(head)) + (EXIT + line);
    NoValue(before + Ascii(head), EXIT, line);
  }

  lemma SplitAtMarker(head: string, rest: string)
    ensures Ascii(head + "FORGE_EXIT:$EC" + rest) == Ascii(head) + (EXIT + (Ascii("$EC") + Ascii(rest)))
  {
    AsciiAppend(head + "FORGE_EXIT:$EC", rest);
    AsciiAppend(head, "FORGE_EXIT:$EC");
    AsciiAppend("FORGE_EXIT:", "$EC");
    assert "FORGE_EXIT:" + "$EC" == "FORGE_EXIT:$EC";
  }

  lemma NoValue(before: seq<byte>, marker: seq<byte>, line: seq<byte>)
    requires MarkerLike(marker) && Free(before, marker) && line != [] && line[0] == 36
    ensures ValueAfter(before + (marker + line), marker) == None
  {
    var raw := before + (marker + line);
    SkipFree(before, marker + line, marker);
    FindHere(marker, line);
    assert raw[|before| + |marker|..] == line;
    var value := line[..LineLen(line)];
    if ExitCode.ReadExitValue(value).Some? {
      ExitCode.ReadableEnds(value);
    }
  }
}
