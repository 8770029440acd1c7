/** UTF-8, section 3 of RFC 3629. */
module Utf8 {
  import opened Bytes

  function Char(c: char): (r: seq<byte>)
    ensures 1 <= |r| <= 4
  {
    var n := c as int;
    if n < 0x80 then [n]
    else if n < 0x800 then [0xC0 + n / 64, 0x80 + n % 64]
    else if n < 0x10000 then [0xE0 + n / 4096, 0x80 + n / 64 % 64, 0x80 + n % 64]
    else [0xF0 + n / 262144, 0x80 + n / 4096 % 64, 0x80 + n / 64 % 64, 0x80 + n % 64]
  }

  function Text(s: string): seq<byte> {
    if s == "" then [] else Char(s[0]) + Text(s[1..])
  }

  lemma {:induction false} TextAppend(a: string, b: string)
    ensures Text(a + b) == Text(a) + Text(b)
  {
    if a == "" {
      assert a + b == b;
    } else {
      assert (a + b)[1..] == a[1..] + b;
      TextAppend(a[1..], b);
    }
  }

  lemma TextSnoc(a: string, c: char)
    ensures Text(a + [c]) == Text(a) + Char(c)
  {
    TextAppend(a, [c]);
    assert [c][1..] == "" && Text([c]) == Char(c);
  }

  lemma {:induction false} TextOfAscii(s: string)
    requires forall i :: 0 <= i < |s| ==> s[i] < 128 as char
    ensures Text(s) == Ascii(s)
  {
    if s != "" {
      TextOfAscii(s[1..]);
      assert Ascii(s) == [s[0] as int] + Ascii(s[1..]);
    }
  }
}
