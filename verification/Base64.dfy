/** Base64 with the standard alphabet, section 4 of RFC 4648, and the strict decoder that accepts
    only the canonical padded text (section 3.5): padding required, trailing bits zero. */
module Base64 {
  import opened Bytes

  const PAD: byte := 61  // '='

  type sextet = v: int | 0 <= v < 64

  /** Table 1 of RFC 4648: A-Z, a-z, 0-9, +, /. */
  function Symbol(v: sextet): (c: byte)
    ensures InAlphabet(c)
  {
    if v < 26 then 65 + v
    else if v < 52 then 97 + (v - 26)
    else if v < 62 then 48 + (v - 52)
    else if v == 62 then 43
    else 47
  }

  predicate InAlphabet(c: byte) {
    65 <= c <= 90 || 97 <= c <= 122 || 48 <= c <= 57 || c == 43 || c == 47
  }

  /** The table read backwards; octets outside the alphabet have no value. */
  function Value(c: byte): (r: Option<sextet>)
    ensures r.Some? <==> InAlphabet(c)
    ensures r.Some? ==> Symbol(r.value) == c
  {
    if 65 <= c <= 90 then Some(c - 65)
    else if 97 <= c <= 122 then Some(c - 97 + 26)
    else if 48 <= c <= 57 then Some(c - 48 + 52)
    else if c == 43 then Some(62)
    else if c == 47 then Some(63)
    else None
  }

  lemma ValueOfSymbol(v: sextet)
    ensures Value(Symbol(v)) == Some(v) && Symbol(v) != PAD
  {
  }

  // The four sextets of an octet triple, and the three octets of a sextet quadruple.
  function S0(a: byte): sextet { a / 4 }
  function S1(a: byte, b: byte): sextet { a % 4 * 16 + b / 16 }
  function S2(b: byte, c: byte): sextet { b % 16 * 4 + c / 64 }
  function S3(c: byte): sextet { c % 64 }
  function O0(s0: sextet, s1: sextet): byte { (s0 as int) * 4 + s1 / 16 }
  function O1(s1: sextet, s2: sextet): byte { (s1 % 16 as int) * 16 + s2 / 4 }
  function O2(s2: sextet, s3: sextet): byte { (s2 % 4 as int) * 64 + s3 }

  /** Regrouping 24 bits as 4 sextets loses nothing ... */
  lemma OctetsOfSextets(a: byte, b: byte, c: byte)
    ensures O0(S0(a), S1(a, b)) == a && O1(S1(a, b), S2(b, c)) == b && O2(S2(b, c), S3(c)) == c
  {
  }

  /** ... and neither does regrouping them back as 3 octets. */
  lemma SextetsOfOctets(s0: sextet, s1: sextet, s2: sextet, s3: sextet)
    ensures S0(O0(s0, s1)) == s0
    ensures S1(O0(s0, s1), O1(s1, s2)) == s1
    ensures S2(O1(s1, s2), O2(s2, s3)) == s2
    ensures S3(O2(s2, s3)) == s3
  {
  }

  /** Three octets become four symbols; a final group of one or two octets is zero-filled and padded. */
  function Encode(data: seq<byte>): (text: seq<byte>)
  {
    if data == [] then []
    else if |data| == 1 then
      LastOne(data[0])
    else if |data| == 2 then
      LastTwo(data[0], data[1])
    else
      Quad(data[0], data[1], data[2]) + Encode(data[3..])
  }

  function Quad(a: byte, b: byte, c: byte): (q: seq<byte>)
    ensures |q| == 4
  {
    [Symbol(S0(a)), Symbol(S1(a, b)), Symbol(S2(b, c)), Symbol(S3(c))]
  }

  function LastOne(a: byte): (q: seq<byte>)
    ensures |q| == 4
  {
    [Symbol(S0(a)), Symbol(S1(a, 0)), PAD, PAD]
  }

  function LastTwo(a: byte, b: byte): (q: seq<byte>)
    ensures |q| == 4
  {
    [Symbol(S0(a)), Symbol(S1(a, b)), Symbol(S2(b, 0)), PAD]
  }

  /** The strict decoder: groups of four symbols, padding only in the last group, no stray bits. */
  function Decode(text: seq<byte>): (r: Option<seq<byte>>)
    ensures r.Some? ==> |r.value| <= |text|
  {
    if text == [] then Some([])
    else if |text| < 4 then None
    else if |text| == 4 && text[3] == PAD then DecodeLast(text)
    else
      match (DecodeQuad(text[..4]), Decode(text[4..]))
      case (Some(head), Some(tail)) => Some(head + tail)
      case _ => None
  }

  function DecodeQuad(q: seq<byte>): (r: Option<seq<byte>>)
    requires |q| == 4
    ensures r.Some? ==> |r.value| == 3
  {
    match (Value(q[0]), Value(q[1]), Value(q[2]), Value(q[3]))
    case (Some(s0), Some(s1), Some(s2), Some(s3)) =>
      Some([O0(s0, s1), O1(s1, s2), O2(s2, s3)])
    case _ => None
  }

  function DecodeLast(q: seq<byte>): (r: Option<seq<byte>>)
    requires |q| == 4 && q[3] == PAD
    ensures r.Some? ==> 1 <= |r.value| <= 2
  {
    if q[2] == PAD then
      match (Value(q[0]), Value(q[1]))
      case (Some(s0), Some(s1)) => if s1 % 16 != 0 then None else Some([O0(s0, s1)])
      case _ => None
    else
      match (Value(q[0]), Value(q[1]), Value(q[2]))
      case (Some(s0), Some(s1), Some(s2)) =>
        if s2 % 4 != 0 then None else Some([O0(s0, s1), O1(s1, s2)])
      case _ => None
  }

  lemma QuadDecodes(a: byte, b: byte, c: byte)
    ensures DecodeQuad(Quad(a, b, c)) == Some([a, b, c]) && Quad(a, b, c)[3] != PAD
  {
    ValueOfSymbol(S0(a));
    ValueOfSymbol(S1(a, b));
    ValueOfSymbol(S2(b, c));
    ValueOfSymbol(S3(c));
    OctetsOfSextets(a, b, c);
  }

  lemma QuadIsEncoding(q: seq<byte>)
    requires |q| == 4 && DecodeQuad(q).Some?
    ensures var d := DecodeQuad(q).value; q == Quad(d[0], d[1], d[2])
  {
    var s0, s1, s2, s3 := Value(q[0]).value, Value(q[1]).value, Value(q[2]).value, Value(q[3]).value;
    SextetsOfOctets(s0, s1, s2, s3);
    assert q == [Symbol(s0), Symbol(s1), Symbol(s2), Symbol(s3)];
  }

  /** The zero fill of a short final group. */
  lemma ZeroFill(a: byte)
    ensures S1(a, 0) % 16 == 0 && S2(a, 0) % 4 == 0
  {
  }

  lemma LastOneDecodes(a: byte)
    ensures Decode(LastOne(a)) == Some([a])
  {
    ZeroFill(a);
    ValueOfSymbol(S0(a));
    ValueOfSymbol(S1(a, 0));
    OctetsOfSextets(a, 0, 0);
    DecodeLastOne(S0(a), S1(a, 0));
  }

  lemma DecodeLastOne(s0: sextet, s1: sextet)
    requires s1 % 16 == 0 && Value(Symbol(s0)) == Some(s0) && Value(Symbol(s1)) == Some(s1)
    ensures Decode([Symbol(s0), Symbol(s1), PAD, PAD]) == Some([O0(s0, s1)])
  {
  }

  lemma LastTwoDecodes(a: byte, b: byte)
    ensures Decode(LastTwo(a, b)) == Some([a, b])
  {
    ZeroFill(b);
    ValueOfSymbol(S0(a));
    ValueOfSymbol(S1(a, b));
    ValueOfSymbol(S2(b, 0));
    OctetsOfSextets(a, b, 0);
    DecodeLastTwo(S0(a), S1(a, b), S2(b, 0));
  }

  lemma DecodeLastTwo(s0: sextet, s1: sextet, s2: sextet)
    requires s2 % 4 == 0 && Symbol(s2) != PAD
    requires Value(Symbol(s0)) == Some(s0) && Value(Symbol(s1)) == Some(s1) && Value(Symbol(s2)) == Some(s2)
    ensures Decode([Symbol(s0), Symbol(s1), Symbol(s2), PAD]) == Some([O0(s0, s1), O1(s1, s2)])
  {
  }

  lemma LastOneIsEncoding(q: seq<byte>)
    requires |q| == 4 && q[3] == PAD && q[2] == PAD && DecodeLast(q).Some?
    ensures var d := DecodeLast(q).value; |d| == 1 && q == LastOne(d[0])
  {
    var s0, s1 := Value(q[0]).value, Value(q[1]).value;
    assert S0(O0(s0, s1)) == s0 && S1(O0(s0, s1), 0) == s1 by {
      SextetsOfOctets(s0, s1, 0, 0);
      assert O1(s1, 0) == 0;
    }
    assert q == [Symbol(s0), Symbol(s1), PAD, PAD];
  }

  lemma LastTwoIsEncoding(q: seq<byte>)
    requires |q| == 4 && q[3] == PAD && q[2] != PAD && DecodeLast(q).Some?
    ensures var d := DecodeLast(q).value; |d| == 2 && q == LastTwo(d[0], d[1])
  {
    var s0, s1, s2 := Value(q[0]).value, Value(q[1]).value, Value(q[2]).value;
    assert S2(O1(s1, s2), 0) == s2 by {
      SextetsOfOctets(s0, s1, s2, 0);
      assert O2(s2, 0) == 0;
    }
    SextetsOfOctets(s0, s1, s2, 0);
    assert q == [Symbol(s0), Symbol(s1), Symbol(s2), PAD];
  }

  lemma DecodeStep(head: seq<byte>, tail: seq<byte>, h: seq<byte>, t: seq<byte>)
    requires |head| == 4 && head[3] != PAD && DecodeQuad(head) == Some(h) && Decode(tail) == Some(t)
    ensures Decode(head + tail) == Some(h + t)
  {
    assert (head + tail)[..4] == head && (head + tail)[4..] == tail;
  }

  lemma EncodeStep(h: seq<byte>, rest: seq<byte>)
    requires |h| == 3
    ensures Encode(h + rest) == Quad(h[0], h[1], h[2]) + Encode(rest)
  {
    assert (h + rest)[3..] == rest;
  }

  lemma EncodeShort(data: seq<byte>)
    ensures |data| == 1 ==> data == [data[0]] && Encode(data) == LastOne(data[0])
    ensures |data| == 2 ==> data == [data[0], data[1]] && Encode(data) == LastTwo(data[0], data[1])
  {
  }

  lemma {:induction false} DecodeOfEncode(data: seq<byte>)
    ensures Decode(Encode(data)) == Some(data)
    decreases |data|
  {
    EncodeShort(data);
    if |data| == 0 {
    } else if |data| == 1 {
      LastOneDecodes(data[0]);
    } else if |data| == 2 {
      LastTwoDecodes(data[0], data[1]);
    } else {
      var h, rest := data[..3], data[3..];
      DecodeOfEncode(rest);
      LongDecodes(h, rest, Encode(rest));
      assert data == h + rest;
    }
  }

  lemma LongDecodes(h: seq<byte>, rest: seq<byte>, tail: seq<byte>)
    requires |h| == 3 && tail == Encode(rest) && Decode(tail) == Some(rest)
    ensures Decode(Encode(h + rest)) == Some(h + rest)
  {
    QuadDecodes(h[0], h[1], h[2]);
    assert h == [h[0], h[1], h[2]];
    EncodeStep(h, rest);
    DecodeStep(Quad(h[0], h[1], h[2]), tail, h, rest);
  }

  lemma {:induction false} EncodeOfDecode(text: seq<byte>)
    requires Decode(text).Some?
    ensures Encode(Decode(text).value) == text
  {
    if text == [] {
    } else if |text| == 4 && text[3] == PAD {
      if text[2] == PAD {
        LastOneIsEncoding(text);
      } else {
        LastTwoIsEncoding(text);
      }
    } else {
      var head, tail := DecodeQuad(text[..4]).value, Decode(text[4..]).value;
      QuadIsEncoding(text[..4]);
      EncodeOfDecode(text[4..]);
      assert head + tail == [head[0], head[1], head[2]] + tail && (head + tail)[3..] == tail;
      assert text == text[..4] + text[4..];
    }
  }

  /** Encoding and strict decoding are mutually inverse: a text decodes to `data` exactly when it is
      the encoding of `data`. */
  lemma DecodeIffEncode(text: seq<byte>, data: seq<byte>)
    ensures Decode(text) == Some(data) <==> text == Encode(data)
  {
    DecodeOfEncode(data);
    if Decode(text).Some? {
      EncodeOfDecode(text);
    }
  }

  // ---------------------------------------------------------------------------------------------
  // Section 4 of RFC 4648 as a relation between data and text
  // ---------------------------------------------------------------------------------------------

  function Octet(c: char): byte { if c < 128 as char then c as int else 0 }

  /** `t` is the number `n` in base 64, four digits from the table, most significant first. */
  ghost predicate InBase64(table: string, n: nat, t: seq<byte>)
    requires |table| == 64
  {
    exists s0, s1, s2, s3 :: WithDigits(table, n, s0, s1, s2, s3, t)
  }

  predicate WithDigits(table: string, n: nat, s0: sextet, s1: sextet, s2: sextet, s3: sextet, t: seq<byte>)
    requires |table| == 64
  {
    && n == (((s0 as int) * 64 + s1) * 64 + s2) * 64 + s3
    && |t| == 4 && t[0] == table[s0] as int && t[1] == table[s1] as int && t[2] == table[s2] as int && t[3] == table[s3] as int
  }

  /** The octets are big-endian groups of 24 bits. A last group of 8 or 16 bits is filled up with zero
      bits, and `=` stands for the digits that are zero for that reason alone. */
  ghost predicate Rfc4648(table: string, data: seq<byte>, text: seq<byte>)
    requires |table| == 64
  {
    if data == [] then text == []
    else if |data| == 1 then |text| == 4 && Group8(table, data[0], text)
    else if |data| == 2 then |text| == 4 && Group16(table, data[0], data[1], text)
    else |text| >= 4 && Group24(table, data[0], data[1], data[2], text[..4]) && Rfc4648(table, data[3..], text[4..])
  }

  ghost predicate Group24(table: string, a: byte, b: byte, c: byte, t: seq<byte>)
    requires |table| == 64
  {
    InBase64(table, ((a as int) * 256 + b) * 256 + c, t)
  }

  ghost predicate Group16(table: string, a: byte, b: byte, t: seq<byte>)
    requires |table| == 64 && |t| == 4
  {
    t[3] == '=' as int && Group24(table, a, b, 0, [t[0], t[1], t[2], Octet(table[0])])
  }

  ghost predicate Group8(table: string, a: byte, t: seq<byte>)
    requires |table| == 64 && |t| == 4
  {
    t[2] == '=' as int && t[3] == '=' as int && Group24(table, a, 0, 0, [t[0], t[1], Octet(table[0]), Octet(table[0])])
  }

  /** The alphabet agrees with a table. */
  ghost predicate Agrees(table: string) {
    |table| == 64 && forall v: sextet :: Symbol(v) == table[v] as int
  }

  /** Octets and sextets are the same bits ... */
  lemma SameBits(a: byte, b: byte, c: byte)
    ensures ((a as int) * 256 + b) * 256 + c == (((S0(a) as int) * 64 + S1(a, b)) * 64 + S2(b, c)) * 64 + S3(c)
  {
  }

  /** ... and a number has its digits in base 64 in one way only. */
  lemma SameDigits(n: nat, s0: sextet, s1: sextet, s2: sextet, s3: sextet, r0: sextet, r1: sextet, r2: sextet, r3: sextet)
    requires n == (((s0 as int) * 64 + s1) * 64 + s2) * 64 + s3 == (((r0 as int) * 64 + r1) * 64 + r2) * 64 + r3
    ensures s0 == r0 && s1 == r1 && s2 == r2 && s3 == r3
  {
  }

  lemma SpelledIff(table: string, n: nat, s0: sextet, s1: sextet, s2: sextet, s3: sextet, t: seq<byte>)
    requires Agrees(table) && n == (((s0 as int) * 64 + s1) * 64 + s2) * 64 + s3
    ensures InBase64(table, n, t) <==> t == [Symbol(s0), Symbol(s1), Symbol(s2), Symbol(s3)]
  {
    if r0, r1, r2, r3 :| WithDigits(table, n, r0, r1, r2, r3, t) {
      SameDigits(n, s0, s1, s2, s3, r0, r1, r2, r3);
    }
    if t == [Symbol(s0), Symbol(s1), Symbol(s2), Symbol(s3)] {
      assert WithDigits(table, n, s0, s1, s2, s3, t);
    }
  }

  lemma Group24Iff(table: string, a: byte, b: byte, c: byte, t: seq<byte>)
    requires Agrees(table)
    ensures Group24(table, a, b, c, t) <==> t == Quad(a, b, c)
  {
    SameBits(a, b, c);
    SpelledIff(table, ((a as int) * 256 + b) * 256 + c, S0(a), S1(a, b), S2(b, c), S3(c), t);
  }

  /** The padded groups are those of the data filled up with zero octets, their last digits replaced. */
  lemma FilledUp(a: byte, b: byte)
    ensures var q, r := Quad(a, 0, 0), LastOne(a); q == [r[0], r[1], Symbol(0), Symbol(0)] && r == [r[0], r[1], PAD, PAD]
    ensures var q, r := Quad(a, b, 0), LastTwo(a, b); q == [r[0], r[1], r[2], Symbol(0)] && r == [r[0], r[1], r[2], PAD]
  {
  }

  lemma Group16Iff(table: string, a: byte, b: byte, t: seq<byte>)
    requires Agrees(table) && |t| == 4
    ensures Group16(table, a, b, t) <==> t == LastTwo(a, b)
  {
    Group24Iff(table, a, b, 0, [t[0], t[1], t[2], Symbol(0)]);
    FilledUp(a, b);
    assert t == [t[0], t[1], t[2], t[3]];
  }

  lemma Group8Iff(table: string, a: byte, t: seq<byte>)
    requires Agrees(table) && |t| == 4
    ensures Group8(table, a, t) <==> t == LastOne(a)
  {
    Group24Iff(table, a, 0, 0, [t[0], t[1], Symbol(0), Symbol(0)]);
    FilledUp(a, 0);
    assert t == [t[0], t[1], t[2], t[3]];
  }

  lemma {:induction false} EncodeIffRfc(table: string, data: seq<byte>, text: seq<byte>)
    requires Agrees(table)
    ensures Rfc4648(table, data, text) <==> text == Encode(data)
    decreases |data|
  {
    if |data| > 2 {
      if |text| >= 4 {
        EncodeIffRfc(table, data[3..], text[4..]);
      }
      LongIff(table, data, text);
    } else {
      ShortIff(table, data, text);
    }
  }

  lemma ShortIff(table: string, data: seq<byte>, text: seq<byte>)
    requires Agrees(table) && |data| <= 2
    ensures Rfc4648(table, data, text) <==> text == Encode(data)
  {
    EncodeShort(data);
    if |text| == 4 && |data| == 1 {
      Group8Iff(table, data[0], text);
    } else if |text| == 4 && |data| == 2 {
      Group16Iff(table, data[0], data[1], text);
    }
  }

  lemma LongIff(table: string, data: seq<byte>, text: seq<byte>)
    requires Agrees(table) && |data| > 2
    requires |text| >= 4 ==> (Rfc4648(table, data[3..], text[4..]) <==> text[4..] == Encode(data[3..]))
    ensures Rfc4648(table, data, text) <==> text == Encode(data)
  {
    var h, rest := data[..3], data[3..];
    assert data == h + rest;
    EncodeStep(h, rest);
    if |text| >= 4 {
      Group24Iff(table, data[0], data[1], data[2], text[..4]);
      assert text == text[..4] + text[4..];
    }
  }

  /** The alphabet is Table 1 of the standard, character for character. */
  lemma AlphabetIsTable1()
    ensures Agrees("ABCDEFGHIJKLMNOPQRSTUVWXYZ" + "abcdefghijklmnopqrstuvwxyz" + "0123456789+/")
  {
    forall v: sextet
      ensures Symbol(v) == ("ABCDEFGHIJKLMNOPQRSTUVWXYZ" + "abcdefghijklmnopqrstuvwxyz" + "0123456789+/")[v] as int
    {
      Table1Rows(v);
    }
  }

  lemma Table1Rows(v: nat)
    requires v < 64
    ensures ("ABCDEFGHIJKLMNOPQRSTUVWXYZ" + "abcdefghijklmnopqrstuvwxyz" + "0123456789+/")[v] as int
         == if v < 26 then 65 + v else if v < 52 then 71 + v else if v < 62 then v - 4 else if v == 62 then 43 else 47
  {
    InRow("ABCDEFGHIJKLMNOPQRSTUVWXYZ", "abcdefghijklmnopqrstuvwxyz", "0123456789+/", v);
    if v < 26 {
      UpperRow(v);
    } else if v < 52 {
      LowerRow(v - 26);
    } else {
      LastRow(v - 52);
    }
  }

  lemma InRow(a: string, b: string, c: string, v: nat)
    requires v < |a| + |b| + |c|
    ensures (a + b + c)[v] == if v < |a| then a[v] else if v < |a| + |b| then b[v - |a|] else c[v - |a| - |b|]
  {
  }

  lemma UpperRow(v: nat)
    requires v < 26
    ensures "ABCDEFGHIJKLMNOPQRSTUVWXYZ"[v] as int == 65 + v
  {
  }

  lemma LowerRow(v: nat)
    requires v < 26
    ensures "abcdefghijklmnopqrstuvwxyz"[v] as int == 97 + v
  {
  }

  lemma LastRow(v: nat)
    requires v < 12
    ensures "0123456789+/"[v] as int == if v < 10 then 48 + v else if v == 10 then 43 else 47
  {
  }

  /** The strict decoder accepts exactly the texts of section 4 of RFC 4648, over its Table 1, and
      recovers their data. */
  lemma DecodeIffRfc4648(text: seq<byte>, data: seq<byte>)
    ensures Decode(text) == Some(data)
            <==> Rfc4648("ABCDEFGHIJKLMNOPQRSTUVWXYZ" + "abcdefghijklmnopqrstuvwxyz" + "0123456789+/", data, text)
  {
    AlphabetIsTable1();
    DecodeIffEncode(text, data);
    EncodeIffRfc("ABCDEFGHIJKLMNOPQRSTUVWXYZ" + "abcdefghijklmnopqrstuvwxyz" + "0123456789+/", data, text);
  }

  /** Every octet of an encoding is in the alphabet or is padding. */
  lemma {:induction false} EncodeOctets(data: seq<byte>, i: nat)
    requires i < |Encode(data)|
    ensures InAlphabet(Encode(data)[i]) || Encode(data)[i] == PAD
  {
    if |data| > 2 && i >= 4 {
      EncodeOctets(data[3..], i - 4);
    }
  }
}
