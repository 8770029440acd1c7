/** SHA-256 content hashes and their hexadecimal `Display`. */
module ContentHash {
  import opened Bytes

  type Digest = d: seq<byte> | |d| == 32 witness seq(32, _ => 0)

  const DIGITS: string := "0123456789abcdef"

  /** `{byte:02x}` */
  function Hex(b: byte): (s: string)
    ensures |s| == 2
  {
    [DIGITS[b / 16], DIGITS[b % 16]]
  }

  function HexAll(bytes: seq<byte>): (s: string)
    ensures |s| == 2 * |bytes|
  {
    if bytes == [] then "" else HexAll(bytes[..|bytes| - 1]) + Hex(bytes[|bytes| - 1])
  }

  /** The `Display` loop: one pair of digits per byte, appended to the formatter. */
  method Display(hash: Digest) returns (out: string)
    ensures out == HexAll(hash)
    ensures |out| == 64
    ensures forall i :: 0 <= i < 64 ==> IsLowerHex(out[i])
    ensures forall i :: 0 <= i < 32 ==>
              out[2 * i] == "0123456789abcdef"[hash[i] / 16] && out[2 * i + 1] == "0123456789abcdef"[hash[i] % 16]
    ensures Unhex(out) == Some(hash)
  {
    out := "";
    for i := 0 to 32
      invariant out == HexAll(hash[..i])
      invariant forall k :: 0 <= k < i ==> out[2 * k] == Hex(hash[k])[0] && out[2 * k + 1] == Hex(hash[k])[1]
    {
      assert hash[..i + 1][..i] == hash[..i];
      out := out + Hex(hash[i]);
    }
    assert hash[..32] == hash;
    UnhexOfHex(hash);
    HexIsLower(hash);
  }

  predicate IsLowerHex(c: char) {
    '0' <= c <= '9' || 'a' <= c <= 'f'
  }

  /** Section 8 of RFC 4648, restricted to lower case. */
  function Nibble(c: char): (r: Option<int>)
    ensures r.Some? <==> IsLowerHex(c)
    ensures r.Some? ==> 0 <= r.value < 16
  {
    if '0' <= c <= '9' then Some(c as int - '0' as int)
    else if 'a' <= c <= 'f' then Some(c as int - 'a' as int + 10)
    else None
  }

  function Unhex(s: string): (r: Option<seq<byte>>)
  {
    if s == "" then Some([])
    else if |s| == 1 then None
    else
      match (Nibble(s[0]), Nibble(s[1]), Unhex(s[2..]))
      case (Some(hi), Some(lo), Some(rest)) => Some([hi * 16 + lo] + rest)
      case _ => None
  }

  lemma NibbleOfDigit(v: int)
    requires 0 <= v < 16
    ensures Nibble(DIGITS[v]) == Some(v)
  {
  }

  lemma {:induction false} UnhexAppend(s: string, b: byte, bytes: seq<byte>)
    requires Unhex(s) == Some(bytes)
    ensures Unhex(s + Hex(b)) == Some(bytes + [b])
  {
    if s == "" {
      NibbleOfDigit(b / 16);
      NibbleOfDigit(b % 16);
      assert s + Hex(b) == Hex(b) && Hex(b)[2..] == "" && Unhex(Hex(b)[2..]) == Some([]);
      assert bytes + [b] == [b] + [] && b / 16 * 16 + b % 16 == b;
    } else {
      assert bytes[0] == Nibble(s[0]).value * 16 + Nibble(s[1]).value && Unhex(s[2..]) == Some(bytes[1..]);
      UnhexAppend(s[2..], b, bytes[1..]);
      assert (s + Hex(b))[2..] == s[2..] + Hex(b);
      assert bytes + [b] == [bytes[0]] + (bytes[1..] + [b]);
    }
  }

  /** Reading the digits back gives the bytes. */
  lemma {:induction false} UnhexOfHex(bytes: seq<byte>)
    ensures Unhex(HexAll(bytes)) == Some(bytes)
  {
    if bytes != [] {
      UnhexOfHex(bytes[..|bytes| - 1]);
      UnhexAppend(HexAll(bytes[..|bytes| - 1]), bytes[|bytes| - 1], bytes[..|bytes| - 1]);
      assert bytes == bytes[..|bytes| - 1] + [bytes[|bytes| - 1]];
    }
  }

  lemma {:induction false} HexIsLower(bytes: seq<byte>)
    ensures forall i :: 0 <= i < |HexAll(bytes)| ==> IsLowerHex(HexAll(bytes)[i])
  {
    if bytes != [] {
      HexIsLower(bytes[..|bytes| - 1]);
      NibbleOfDigit(bytes[|bytes| - 1] / 16);
      NibbleOfDigit(bytes[|bytes| - 1] % 16);
    }
  }

  /** Distinct hashes are displayed differently. */
  lemma DisplayInjective(x: Digest, y: Digest)
    ensures HexAll(x) == HexAll(y) <==> x == y
  {
    UnhexOfHex(x);
    UnhexOfHex(y);
  }
}
