/** The `application/x-www-form-urlencoded` serializer of the WHATWG URL
    Standard (section 5.2), which `URLSearchParams.toString()` applies: each
    name and value is UTF-8 encoded, then every byte becomes `+` (the space
    0x20), itself (ASCII alphanumerics and `*-._`), or `%XX` with upper-case
    hex digits; pairs are written `name=value` and joined by `&`. */
module FormUrlEncoding {
  import opened Common

  predicate IsByte(b: int)
  {
    0 <= b < 256
  }

  predicate AllBytes(bs: seq<int>)
  {
    forall i :: 0 <= i < |bs| ==> IsByte(bs[i])
  }

  /** The UTF-8 encoding of one Unicode scalar value. */
  function Utf8(c: char): (bs: seq<int>)
    ensures 1 <= |bs| <= 4 && AllBytes(bs)
    ensures |bs| == 1 <==> (c as int) < 0x80
    ensures |bs| == 1 ==> bs[0] == c as int
    ensures |bs| > 1 ==> forall i :: 0 <= i < |bs| ==> bs[i] >= 0x80
  {
    var cp := c as int;
    if cp < 0x80 then [cp]
    else if cp < 0x800 then [0xC0 + cp / 64, 0x80 + cp % 64]
    else if cp < 0x10000 then [0xE0 + cp / 4096, 0x80 + (cp / 64) % 64, 0x80 + cp % 64]
    else [0xF0 + cp / 262144, 0x80 + (cp / 4096) % 64, 0x80 + (cp / 64) % 64, 0x80 + cp % 64]
  }

  function Utf8Encode(s: string): (bs: seq<int>)
    ensures AllBytes(bs)
    ensures |bs| >= |s|
  {
    if s == [] then [] else Utf8(s[0]) + Utf8Encode(s[1..])
  }

  /** The bytes the serializer leaves as they are: `*`, `-`, `.`, digits,
      upper-case letters, `_` and lower-case letters. */
  predicate KeptByte(b: int)
  {
    b == 0x2A || b == 0x2D || b == 0x2E || (0x30 <= b <= 0x39)
    || (0x41 <= b <= 0x5A) || b == 0x5F || (0x61 <= b <= 0x7A)
  }

  function HexDigit(n: int): (c: char)
    requires 0 <= n < 16
    ensures IsHexDigit(c) && HexValue(c) == n
  {
    if n < 10 then ('0' as int + n) as char else ('A' as int + n - 10) as char
  }

  predicate IsHexDigit(c: char)
  {
    ('0' <= c <= '9') || ('A' <= c <= 'F')
  }

  function HexValue(c: char): int
    requires IsHexDigit(c)
  {
    if '0' <= c <= '9' then c as int - '0' as int else c as int - 'A' as int + 10
  }

  /** The characters a serialized string can contain. */
  predicate SafeChar(c: char)
  {
    c == '+' || c == '%' || IsHexDigit(c) || KeptByte(c as int)
  }

  function SerializeByte(b: int): (r: string)
    requires IsByte(b)
    ensures forall i :: 0 <= i < |r| ==> SafeChar(r[i])
    ensures r != [] && r[0] != '%' ==> |r| == 1
  {
    if b == 0x20 then "+"
    else if KeptByte(b) then [b as char]
    else ['%', HexDigit(b / 16), HexDigit(b % 16)]
  }

  function SerializeBytes(bs: seq<int>): (r: string)
    requires AllBytes(bs)
    ensures forall i :: 0 <= i < |r| ==> SafeChar(r[i])
    ensures r == [] <==> bs == []
  {
    if bs == [] then "" else SerializeByte(bs[0]) + SerializeBytes(bs[1..])
  }

  /** The serialization of one name or value. */
  function Encode(s: string): (r: string)
    ensures forall i :: 0 <= i < |r| ==> SafeChar(r[i])
    ensures r == [] <==> s == []
  {
    SerializeBytes(Utf8Encode(s))
  }

  /** The inverse of `SerializeBytes`: the bytes a serialized string stands
      for, or `None` when it is not one. */
  function ParseBytes(r: string): (bs: Option<seq<int>>)
    decreases |r|
  {
    if r == [] then Some([])
    else if r[0] == '+' then Prepend(0x20, ParseBytes(r[1..]))
    else if r[0] == '%' then
      if |r| >= 3 && IsHexDigit(r[1]) && IsHexDigit(r[2])
      then Prepend(16 * HexValue(r[1]) + HexValue(r[2]), ParseBytes(r[3..]))
      else None
    else if KeptByte(r[0] as int) then Prepend(r[0] as int, ParseBytes(r[1..]))
    else None
  }

  function Prepend(b: int, rest: Option<seq<int>>): Option<seq<int>>
  {
    match rest
    case None => None
    case Some(bs) => Some([b] + bs)
  }

  lemma ParseSerializedByte(b: int, rest: string)
    requires IsByte(b)
    ensures ParseBytes(SerializeByte(b) + rest) == Prepend(b, ParseBytes(rest))
  {
    var r := SerializeByte(b) + rest;
    if b == 0x20 {
      assert r[1..] == rest;
    } else if KeptByte(b) {
      assert r[1..] == rest;
    } else {
      assert r[3..] == rest;
    }
  }

  /** Serializing then parsing gives the bytes back: the serializer loses
      nothing. */
  lemma {:induction false} ParseSerialize(bs: seq<int>)
    requires AllBytes(bs)
    ensures ParseBytes(SerializeBytes(bs)) == Some(bs)
  {
    if bs != [] {
      ParseSerialize(bs[1..]);
      ParseSerializedByte(bs[0], SerializeBytes(bs[1..]));
      assert [bs[0]] + bs[1..] == bs;
    }
  }

  /** Two byte strings with the same serialization are equal. */
  lemma SerializeInjective(a: seq<int>, b: seq<int>)
    requires AllBytes(a) && AllBytes(b)
    requires SerializeBytes(a) == SerializeBytes(b)
    ensures a == b
  {
    ParseSerialize(a);
    ParseSerialize(b);
  }

  /** A string made only of the kept ASCII characters is its own encoding. */
  lemma {:induction false} KeptCharsUnchanged(s: string)
    requires forall i :: 0 <= i < |s| ==> KeptByte(s[i] as int)
    ensures Encode(s) == s
  {
    if s != [] {
      KeptCharsUnchanged(s[1..]);
      assert Utf8Encode(s) == [s[0] as int] + Utf8Encode(s[1..]);
    }
  }

  /** `name=value` pairs joined by `&`. */
  function SerializePairs(pairs: seq<(string, string)>): (r: string)
    ensures pairs == [] <==> r == []
  {
    if pairs == [] then ""
    else
      var first := Encode(pairs[0].0) + "=" + Encode(pairs[0].1);
      if |pairs| == 1 then first else first + "&" + SerializePairs(pairs[1..])
  }

  /** An encoded name or value never contains the separators `&`, `=`, `?`
      or `#`, so the query splits back into exactly the pairs written. */
  lemma NoSeparators(s: string, i: int)
    requires 0 <= i < |Encode(s)|
    ensures Encode(s)[i] !in {'&', '=', '?', '#'}
  {
    assert SafeChar(Encode(s)[i]);
  }
}
