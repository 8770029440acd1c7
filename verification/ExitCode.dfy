/** The exit value of a console line: what `i32`'s `Display` prints, and what `trim` followed by
    `parse::<i32>` reads back. */
module ExitCode {
  import opened Bytes
  import Trim
  import Utf8

  const MIN: int := -0x8000_0000
  const MAX: int := 0x7fff_ffff

  predicate InI32(v: int) { MIN <= v <= MAX }

  const PLUS: byte := 43
  const MINUS: byte := 45
  const ZERO: byte := 48

  predicate IsDigit(c: byte) { ZERO <= c <= ZERO + 9 }

  predicate AllDigits(s: seq<byte>) { forall i :: 0 <= i < |s| ==> IsDigit(s[i]) }

  // ---------------------------------------------------------------------------------------------
  // Printing
  // ---------------------------------------------------------------------------------------------

  function Decimal(n: nat): (s: seq<byte>)
    ensures |s| > 0 && AllDigits(s)
  {
    if n < 10 then [ZERO + n] else Decimal(n / 10) + [ZERO + n % 10]
  }

  function Print(code: int): (s: seq<byte>)
    ensures |s| > 0
  {
    if code < 0 then [MINUS] + Decimal(-code) else Decimal(code)
  }

  // ---------------------------------------------------------------------------------------------
  // `str::trim`, on the UTF-8 octets of the text
  // ---------------------------------------------------------------------------------------------

  predicate IsAsciiSpace(c: byte) { 9 <= c <= 13 || c == 32 }

  /** U+0085 and U+00A0. */
  predicate IsSpace2(a: byte, b: byte) { a == 0xC2 && (b == 0x85 || b == 0xA0) }

  /** U+1680, U+2000 to U+200A, U+2028, U+2029, U+202F, U+205F and U+3000. */
  predicate IsSpace3(a: byte, b: byte, c: byte) {
    || (a == 0xE1 && b == 0x9A && c == 0x80)
    || (a == 0xE2 && b == 0x80 && (0x80 <= c <= 0x8A || c == 0xA8 || c == 0xA9 || c == 0xAF))
    || (a == 0xE2 && b == 0x81 && c == 0x9F)
    || (a == 0xE3 && b == 0x80 && c == 0x80)
  }

  /** The number of octets of the white-space character at the start of `s`, 0 if there is none. */
  function SpaceAtStart(s: seq<byte>): (n: nat)
    ensures n <= |s| && n <= 3
  {
    if |s| >= 1 && IsAsciiSpace(s[0]) then 1
    else if |s| >= 2 && IsSpace2(s[0], s[1]) then 2
    else if |s| >= 3 && IsSpace3(s[0], s[1], s[2]) then 3
    else 0
  }

  function SpaceAtEnd(s: seq<byte>): (n: nat)
    ensures n <= |s| && n <= 3
  {
    if |s| >= 1 && IsAsciiSpace(s[|s| - 1]) then 1
    else if |s| >= 2 && IsSpace2(s[|s| - 2], s[|s| - 1]) then 2
    else if |s| >= 3 && IsSpace3(s[|s| - 3], s[|s| - 2], s[|s| - 1]) then 3
    else 0
  }

  function Trimmed(s: seq<byte>): seq<byte> { Trim.Both(s, SpaceAtStart, SpaceAtEnd) }

  // ---------------------------------------------------------------------------------------------
  // `parse::<i32>`: an optional sign, then at least one digit, accumulated with checked arithmetic
  // ---------------------------------------------------------------------------------------------

  /** Digit by digit; every multiplication and every addition is checked against the `i32` range. */
  function Accumulate(digits: seq<byte>, negative: bool, acc: int): (r: Option<int>)
  {
    if digits == [] then Some(acc)
    else if !IsDigit(digits[0]) || !InI32(acc * 10) then None
    else
      var next := acc * 10 + Signed(digits[0], negative);
      if InI32(next) then Accumulate(digits[1..], negative, next) else None
  }

  function Signed(digit: byte, negative: bool): int {
    if negative then ZERO - digit else digit - ZERO
  }

  function ParseI32(s: seq<byte>): (r: Option<int>)
  {
    if s == [] then None
    else if s[0] == PLUS || s[0] == MINUS then
      if |s| == 1 then None else Accumulate(s[1..], s[0] == MINUS, 0)
    else Accumulate(s, false, 0)
  }

  /** `from_utf8(line).ok()?.trim().parse().ok()`. The UTF-8 check needs no case of its own: a
      line of white-space characters around a numeral is UTF-8, and no other line parses. */
  function ReadExitValue(line: seq<byte>): (r: Option<int>)
  {
    ParseI32(Trimmed(line))
  }

  // ---------------------------------------------------------------------------------------------
  // What a line denotes, as text: no octet of the reader occurs here
  // ---------------------------------------------------------------------------------------------

  /** The characters with the Unicode property White_Space. */
  predicate White(c: char) {
    || '\t' <= c <= '\r' || c == ' ' || c == '\U{85}' || c == '\U{A0}' || c == '\U{1680}' || '\U{2000}' <= c <= '\U{200A}'
    || c == '\U{2028}' || c == '\U{2029}' || c == '\U{202F}' || c == '\U{205F}' || c == '\U{3000}'
  }

  predicate WhiteText(s: string) { forall i :: 0 <= i < |s| ==> White(s[i]) }

  predicate DigitText(s: string) { forall i :: 0 <= i < |s| ==> '0' <= s[i] <= '9' }

  /** Positional value of a digit string of any length. */
  function DigitsValue(s: string): int
    requires DigitText(s)
  {
    if s == "" then 0 else DigitsValue(s[..|s| - 1]) * 10 + (s[|s| - 1] as int - '0' as int)
  }

  /** An optional sign and at least one digit. */
  predicate NumeralText(s: string) {
    s != "" && if s[0] == '+' || s[0] == '-' then |s| > 1 && DigitText(s[1..]) else DigitText(s)
  }

  function TextValue(s: string): int
    requires NumeralText(s)
  {
    if s[0] == '-' then -DigitsValue(s[1..]) else if s[0] == '+' then DigitsValue(s[1..]) else DigitsValue(s)
  }

  /** `line` is, in UTF-8, the numeral `num` between white space. */
  ghost predicate Writes(line: seq<byte>, pre: string, num: string, post: string) {
    line == Utf8.Text(pre + num + post) && WhiteText(pre) && NumeralText(num) && WhiteText(post)
  }

  /** `line` denotes the exit value `v`. */
  ghost predicate Denotes(line: seq<byte>, v: int) {
    exists pre, num, post :: Writes(line, pre, num, post) && TextValue(num) == v && -2147483648 <= v <= 2147483647
  }

  // ---------------------------------------------------------------------------------------------
  // The same on octets
  // ---------------------------------------------------------------------------------------------

  /** Positional value of a digit string of any length. */
  function Nat(digits: seq<byte>): (n: int)
    requires AllDigits(digits)
  {
    if digits == [] then 0 else Nat(digits[..|digits| - 1]) * 10 + (digits[|digits| - 1] - ZERO)
  }

  predicate IsNumeral(s: seq<byte>) {
    s != [] && if s[0] == PLUS || s[0] == MINUS then |s| > 1 && AllDigits(s[1..]) else AllDigits(s)
  }

  function NumeralValue(s: seq<byte>): int
    requires IsNumeral(s)
  {
    if s[0] == MINUS then -Nat(s[1..]) else if s[0] == PLUS then Nat(s[1..]) else Nat(s)
  }

  // ---------------------------------------------------------------------------------------------
  // Checked accumulation never rejects a value that fits
  // ---------------------------------------------------------------------------------------------

  /** The same accumulation without bounds. */
  function Unbounded(digits: seq<byte>, negative: bool, acc: int): int
    requires AllDigits(digits)
  {
    if digits == [] then acc
    else Unbounded(digits[1..], negative, acc * 10 + Signed(digits[0], negative))
  }

  /** Accumulation moves away from zero, so a bound once exceeded stays exceeded. */
  lemma {:induction false} UnboundedGrows(digits: seq<byte>, negative: bool, acc: int)
    requires AllDigits(digits)
    requires if negative then acc <= 0 else 0 <= acc
    ensures if negative then Unbounded(digits, negative, acc) <= acc else acc <= Unbounded(digits, negative, acc)
  {
    if digits != [] {
      UnboundedGrows(digits[1..], negative, acc * 10 + Signed(digits[0], negative));
    }
  }

  lemma {:induction false} AccumulateIsUnbounded(digits: seq<byte>, negative: bool, acc: int)
    requires InI32(acc) && if negative then acc <= 0 else 0 <= acc
    ensures Accumulate(digits, negative, acc).Some? ==> AllDigits(digits)
    ensures AllDigits(digits) ==>
              var v := Unbounded(digits, negative, acc);
              Accumulate(digits, negative, acc) == if InI32(v) then Some(v) else None
  {
    if digits != [] && IsDigit(digits[0]) {
      var next := acc * 10 + Signed(digits[0], negative);
      if InI32(acc * 10) && InI32(next) {
        AccumulateIsUnbounded(digits[1..], negative, next);
        assert digits == [digits[0]] + digits[1..];
      } else if AllDigits(digits) {
        UnboundedGrows(digits[1..], negative, next);
      }
    }
  }

  lemma {:induction false} UnboundedLast(digits: seq<byte>, negative: bool, acc: int)
    requires AllDigits(digits) && digits != []
    ensures Unbounded(digits, negative, acc)
         == Unbounded(digits[..|digits| - 1], negative, acc) * 10 + Signed(digits[|digits| - 1], negative)
  {
    if |digits| > 1 {
      var next := acc * 10 + Signed(digits[0], negative);
      UnboundedLast(digits[1..], negative, next);
      assert digits[1..][..|digits| - 2] == digits[..|digits| - 1][1..];
    } else {
      assert digits[1..] == [] && digits[..0] == [];
    }
  }

  lemma {:induction false} UnboundedIsNat(digits: seq<byte>, negative: bool)
    requires AllDigits(digits)
    ensures Unbounded(digits, negative, 0) == if negative then -Nat(digits) else Nat(digits)
  {
    if digits != [] {
      UnboundedLast(digits, negative, 0);
      UnboundedIsNat(digits[..|digits| - 1], negative);
    }
  }

  /** Parsing accepts a signed digit string of any length exactly when its value fits in an `i32`. */
  lemma ParseIffFits(s: seq<byte>, v: int)
    ensures ParseI32(s) == Some(v) <==> IsNumeral(s) && NumeralValue(s) == v && InI32(v)
  {
    if s != [] {
      var negative := s[0] == MINUS;
      var digits := if s[0] == PLUS || s[0] == MINUS then s[1..] else s;
      AccumulateIsUnbounded(digits, negative, 0);
      if AllDigits(digits) {
        UnboundedIsNat(digits, negative);
      }
    }
  }

  // ---------------------------------------------------------------------------------------------
  // Trimming removes exactly the surrounding white space
  // ---------------------------------------------------------------------------------------------

  /** The octets of one white-space character, as the trimmer knows them. */
  predicate IsSpace(w: seq<byte>) {
    || (|w| == 1 && IsAsciiSpace(w[0]))
    || (|w| == 2 && IsSpace2(w[0], w[1]))
    || (|w| == 3 && IsSpace3(w[0], w[1], w[2]))
  }

  /** No white-space character starts or ends inside another, so both ends are trimmed alike. */
  lemma WidthsTakeSpaces()
    ensures Trim.TakesFirst(SpaceAtStart, IsSpace) && Trim.TakesAllFirst(SpaceAtStart, IsSpace)
    ensures Trim.TakesLast(SpaceAtEnd, IsSpace) && Trim.TakesAllLast(SpaceAtEnd, IsSpace)
  {
    forall p, rest | IsSpace(p)
      ensures SpaceAtStart(p + rest) == |p| == SpaceAtEnd(rest + p)
    {
      SpaceStays(p, rest);
    }
  }

  lemma SpaceStays(p: seq<byte>, other: seq<byte>)
    requires IsSpace(p)
    ensures SpaceAtStart(p + other) == |p| == SpaceAtEnd(other + p)
  {
  }

  lemma WhiteIsSpace(c: char)
    requires White(c)
    ensures IsSpace(Utf8.Char(c))
  {
  }

  lemma SpaceIsWhite(w: seq<byte>) returns (c: char)
    requires IsSpace(w)
    ensures White(c) && Utf8.Char(c) == w
  {
    if |w| == 1 {
      c := w[0] as char;
    } else if |w| == 2 {
      c := w[1] as char;
    } else {
      c := Space3IsWhite(w[0], w[1], w[2]);
      assert w == [w[0], w[1], w[2]];
    }
  }

  lemma Space3IsWhite(x: byte, y: byte, z: byte) returns (c: char)
    requires IsSpace3(x, y, z)
    ensures White(c) && Utf8.Char(c) == [x, y, z]
  {
    if x == 0xE1 {
      c := '\U{1680}';
    } else if x == 0xE3 {
      c := '\U{3000}';
    } else if y == 0x81 {
      c := '\U{205F}';
    } else {
      c := (0x2000 + (z as int) - 0x80) as char;
    }
  }

  lemma {:induction false} SpacesAreWhite(ps: seq<seq<byte>>) returns (s: string)
    requires Trim.All(ps, IsSpace)
    ensures WhiteText(s) && Utf8.Text(s) == Trim.Concat(ps)
  {
    s := "";
    if ps != [] {
      var c := SpaceIsWhite(ps[0]);
      var rest := SpacesAreWhite(ps[1..]);
      s := [c] + rest;
      assert s[1..] == rest;
    }
  }

  lemma {:induction false} WhiteIsSpaces(s: string) returns (ps: seq<seq<byte>>)
    requires WhiteText(s)
    ensures Trim.All(ps, IsSpace) && Utf8.Text(s) == Trim.Concat(ps)
  {
    ps := [];
    if s != "" {
      WhiteIsSpace(s[0]);
      var rest := WhiteIsSpaces(s[1..]);
      ps := [Utf8.Char(s[0])] + rest;
      assert ps[1..] == rest;
    }
  }

  /** `trim` takes white space off both ends ... */
  lemma TrimSplits(s: seq<byte>) returns (pre: string, post: string)
    ensures s == Utf8.Text(pre) + Trimmed(s) + Utf8.Text(post) && WhiteText(pre) && WhiteText(post)
  {
    WidthsTakeSpaces();
    var before, after := Trim.BothSplits(s, SpaceAtStart, SpaceAtEnd, IsSpace);
    pre := SpacesAreWhite(before);
    post := SpacesAreWhite(after);
  }

  /** ... down to what neither starts nor ends with any. */
  lemma TrimDrops(pre: string, core: seq<byte>, post: string)
    requires WhiteText(pre) && WhiteText(post)
    requires SpaceAtStart(core + Utf8.Text(post)) == 0 && SpaceAtEnd(core) == 0
    ensures Trimmed(Utf8.Text(pre) + core + Utf8.Text(post)) == core
  {
    WidthsTakeSpaces();
    var before := WhiteIsSpaces(pre);
    var after := WhiteIsSpaces(post);
    Trim.BothDrops(before, core, after, SpaceAtStart, SpaceAtEnd, IsSpace);
  }

  // ---------------------------------------------------------------------------------------------
  // From octets to text
  // ---------------------------------------------------------------------------------------------

  lemma {:induction false} DigitsMatch(s: string)
    requires DigitText(s)
    ensures AllDigits(Ascii(s)) && Nat(Ascii(s)) == DigitsValue(s)
  {
    if s != "" {
      DigitsMatch(s[..|s| - 1]);
      assert Ascii(s)[..|s| - 1] == Ascii(s[..|s| - 1]);
    }
  }

  lemma NumeralMatches(s: string)
    requires NumeralText(s)
    ensures IsNumeral(Ascii(s)) && NumeralValue(Ascii(s)) == TextValue(s)
  {
    assert Ascii(s)[1..] == Ascii(s[1..]);
    if s[0] == '+' || s[0] == '-' {
      DigitsMatch(s[1..]);
    } else {
      DigitsMatch(s);
    }
  }

  predicate IsAscii(s: string) { forall i :: 0 <= i < |s| ==> s[i] < 128 as char }

  lemma NumeralIsText(s: string)
    requires IsAscii(s) && IsNumeral(Ascii(s))
    ensures NumeralText(s)
  {
    var octets := Ascii(s);
    assert octets[1..] == Ascii(s[1..]);
    assert forall i :: 0 <= i < |s| ==> octets[i] == s[i] as int;
    assert forall i :: 1 <= i < |s| ==> octets[1..][i - 1] == octets[i];
  }

  /** `parse::<i32>` accepts a text exactly when it is an optional sign and decimal digits, any number of
      them, whose value lies between -2147483648 and 2147483647, and then returns that value. */
  lemma ParseTextIffFits(s: string, v: int)
    requires IsAscii(s)
    ensures ParseI32(Ascii(s)) == Some(v) <==> NumeralText(s) && TextValue(s) == v && -2147483648 <= v <= 2147483647
  {
    ParseIffFits(Ascii(s), v);
    if IsNumeral(Ascii(s)) {
      NumeralIsText(s);
    }
    if NumeralText(s) {
      NumeralMatches(s);
    }
  }

  /** Octets below 128 are the text of their characters. */
  lemma AsText(octets: seq<byte>) returns (s: string)
    requires forall i :: 0 <= i < |octets| ==> octets[i] < 128
    ensures IsAscii(s) && Ascii(s) == octets
  {
    s := seq(|octets|, i requires 0 <= i < |octets| => octets[i] as char);
  }

  lemma NumeralIsAscii(num: seq<byte>)
    requires IsNumeral(num)
    ensures forall i :: 0 <= i < |num| ==> num[i] < 128
  {
    assert forall i :: 1 <= i < |num| ==> num[i] == num[1..][i - 1];
  }

  lemma JoinText(pre: string, num: string, post: string)
    requires NumeralText(num)
    ensures Utf8.Text(pre + num + post) == Utf8.Text(pre) + Ascii(num) + Utf8.Text(post)
  {
    Utf8.TextAppend(pre + num, post);
    Utf8.TextAppend(pre, num);
    assert IsAscii(num) by {
      assert forall i :: 1 <= i < |num| ==> num[i] == num[1..][i - 1];
    }
    Utf8.TextOfAscii(num);
  }

  lemma ReadDenotes(line: seq<byte>, v: int)
    requires ReadExitValue(line) == Some(v)
    ensures Denotes(line, v)
  {
    ParseIffFits(Trimmed(line), v);
    var num := AsNumeral(Trimmed(line));
    var pre, post := TrimSplits(line);
    JoinText(pre, num, post);
    assert Writes(line, pre, num, post);
  }

  lemma AsNumeral(octets: seq<byte>) returns (num: string)
    requires IsNumeral(octets)
    ensures NumeralText(num) && Ascii(num) == octets && TextValue(num) == NumeralValue(octets)
  {
    NumeralIsAscii(octets);
    num := AsText(octets);
    NumeralIsText(num);
    NumeralMatches(num);
  }

  lemma NumeralEdges(num: seq<byte>)
    requires IsNumeral(num)
    ensures num[0] == PLUS || num[0] == MINUS || IsDigit(num[0])
    ensures IsDigit(num[|num| - 1])
  {
  }

  lemma TrimAround(pre: string, num: seq<byte>, post: string)
    requires WhiteText(pre) && IsNumeral(num) && WhiteText(post)
    ensures Trimmed(Utf8.Text(pre) + num + Utf8.Text(post)) == num
  {
    NumeralIsNoSpace(num, Utf8.Text(post));
    TrimDrops(pre, num, post);
  }

  lemma NumeralIsNoSpace(num: seq<byte>, more: seq<byte>)
    requires IsNumeral(num)
    ensures SpaceAtStart(num + more) == 0 && SpaceAtEnd(num) == 0
  {
    NumeralEdges(num);
  }

  /** The reader returns `v` exactly when the line is, in UTF-8, white space around a decimal numeral of
      value `v` that fits in an `i32`. */
  lemma ReadIffDenotes(line: seq<byte>, v: int)
    ensures ReadExitValue(line) == Some(v) <==> Denotes(line, v)
  {
    if ReadExitValue(line) == Some(v) {
      ReadDenotes(line, v);
    }
    if pre, num, post :| Writes(line, pre, num, post) && TextValue(num) == v && -2147483648 <= v <= 2147483647 {
      JoinText(pre, num, post);
      NumeralMatches(num);
      TrimAround(pre, Ascii(num), post);
      ParseIffFits(Ascii(num), v);
    }
  }

  // ---------------------------------------------------------------------------------------------
  // Printing is undone by reading
  // ---------------------------------------------------------------------------------------------

  lemma {:induction false} DecimalIsNat(n: nat)
    ensures Nat(Decimal(n)) == n
  {
    if n < 10 {
      assert Decimal(n)[..0] == [];
    } else {
      DecimalIsNat(n / 10);
      assert Decimal(n)[..|Decimal(n)| - 1] == Decimal(n / 10);
    }
  }

  lemma PrintIsNumeral(code: int)
    ensures IsNumeral(Print(code)) && NumeralValue(Print(code)) == code
  {
    var num := Print(code);
    if code < 0 {
      assert num[1..] == Decimal(-code);
      DecimalIsNat(-code);
    } else {
      assert IsDigit(num[0]);
      DecimalIsNat(code);
    }
  }

  /** Printing is undone by reading, for every `i32` including the minimum, and inside any amount of
      surrounding white space. */
  lemma PrintThenRead(code: int, pre: string, post: string)
    requires -2147483648 <= code <= 2147483647 && WhiteText(pre) && WhiteText(post)
    ensures ReadExitValue(Utf8.Text(pre) + Print(code) + Utf8.Text(post)) == Some(code)
  {
    PrintIsNumeral(code);
    TrimAround(pre, Print(code), post);
    ParseIffFits(Print(code), code);
  }

  /** The shortest decimal text: no plus sign and no leading zero. */
  predicate Shortest(s: string)
    requires NumeralText(s)
  {
    s[0] != '+' && s != "-0" && (if s[0] == '-' then s[1] != '0' else s[0] == '0' ==> s == "0")
  }

  lemma {:induction false} DecimalText(n: nat) returns (s: string)
    ensures Decimal(n) == Ascii(s) && s != "" && DigitText(s) && DigitsValue(s) == n && (s[0] == '0' <==> n == 0) && (n == 0 ==> s == "0")
  {
    var last := "0123456789"[n % 10];
    assert last as int == ZERO + n % 10;
    if n < 10 {
      s := [last];
      assert s[..0] == "" && (n == 0 ==> s == "0");
    } else {
      var front := DecimalText(n / 10);
      s := front + [last];
      assert s[..|s| - 1] == front;
      AsciiAppend(front, [last]);
      assert Ascii([last]) == [ZERO + n % 10];
    }
  }

  /** What is printed for an exit code is its shortest decimal text. */
  lemma PrintText(code: int) returns (s: string)
    ensures Print(code) == Ascii(s) && NumeralText(s) && TextValue(s) == code && Shortest(s)
  {
    if code < 0 {
      var digits := DecimalText(-code);
      s := "-" + digits;
      assert s[1..] == digits;
      AsciiAppend("-", digits);
      assert Ascii("-") == [MINUS];
    } else {
      s := DecimalText(code);
    }
  }

  /** An octet at which white space can start or end. */
  predicate SpaceEdge(c: byte) { c >= 0x80 || IsAsciiSpace(c) }

  lemma WhiteEdges(s: string)
    requires WhiteText(s) && s != ""
    ensures var t := Utf8.Text(s); t != [] && SpaceEdge(t[0]) && SpaceEdge(t[|t| - 1])
  {
    var front, c := s[..|s| - 1], s[|s| - 1];
    assert s == front + [c] && White(c);
    Utf8.TextSnoc(front, c);
    assert White(s[0]);
  }

  /** A line with a value starts with white space, a sign or a digit, and ends in white space or a
      digit. */
  lemma ReadableEnds(line: seq<byte>)
    requires ReadExitValue(line).Some?
    ensures line != []
    ensures SpaceEdge(line[0]) || line[0] == PLUS || line[0] == MINUS || IsDigit(line[0])
    ensures SpaceEdge(line[|line| - 1]) || IsDigit(line[|line| - 1])
  {
    var v := ReadExitValue(line).value;
    ReadIffDenotes(line, v);
    var pre, num, post :| Writes(line, pre, num, post) && TextValue(num) == v && -2147483648 <= v <= 2147483647;
    JoinText(pre, num, post);
    NumeralMatches(num);
    NumeralEdges(Ascii(num));
    JoinedEnds(line, pre, Ascii(num), post);
  }

  lemma JoinedEnds(line: seq<byte>, pre: string, num: seq<byte>, post: string)
    requires line == Utf8.Text(pre) + num + Utf8.Text(post) && num != [] && WhiteText(pre) && WhiteText(post)
    ensures line[0] == num[0] || SpaceEdge(line[0])
    ensures line[|line| - 1] == num[|num| - 1] || SpaceEdge(line[|line| - 1])
  {
    if pre != "" {
      WhiteEdges(pre);
    }
    if post != "" {
      WhiteEdges(post);
    }
  }
}
