/** UTF-8 (RFC 3629) as `str.encode` and strict `bytes.decode` use it. */
module Utf8 {
  import opened Texts
  import opened JsonStrings

  type Bytes = seq<byte>

  function EncodeChar(c: CodePoint): (b: Bytes)
    ensures |b| > 0
  {
    if c < 0x80 then [c]
    else if c < 0x800 then [0xC0 + c / 64, 0x80 + c % 64]
    else if c < 0x10000 then [0xE0 + c / 4096, 0x80 + c / 64 % 64, 0x80 + c % 64]
    else [0xF0 + c / 262144, 0x80 + c / 4096 % 64, 0x80 + c / 64 % 64, 0x80 + c % 64]
  }

  /** `t.encode("utf-8")`; a surrogate cannot be encoded. */
  function Encode(t: Text): (b: Option<Bytes>) {
    if t == [] then Some([])
    else if High(t[0]) || Low(t[0]) || Encode(t[1..]).None? then None
    else Some(EncodeChar(t[0]) + Encode(t[1..]).value)
  }

  predicate Continues(b: byte) {
    0x80 <= b < 0xC0
  }

  /** The character at the head of some bytes and the number of bytes it takes. */
  function DecodeChar(b: Bytes): (r: Option<(CodePoint, nat)>)
    ensures r.Some? ==> 0 < r.value.1 <= |b| && !High(r.value.0) && !Low(r.value.0)
  {
    var n: int := |b|;
    var b0: int := if n > 0 then b[0] else 0xFF;
    var b1: int := if n > 1 && Continues(b[1]) then b[1] - 0x80 else -1;
    var b2: int := if n > 2 && Continues(b[2]) then b[2] - 0x80 else -1;
    var b3: int := if n > 3 && Continues(b[3]) then b[3] - 0x80 else -1;
    if b0 < 0x80 then Some((b0, 1))
    else if 0xC2 <= b0 < 0xE0 && b1 >= 0 then Some(((b0 - 0xC0) * 64 + b1, 2))
    else if 0xE0 <= b0 < 0xF0 && b1 >= 0 && b2 >= 0 then
      var c := (b0 - 0xE0) * 4096 + b1 * 64 + b2;
      if c < 0x800 || 0xD800 <= c < 0xE000 then None else Some((c, 3))
    else if 0xF0 <= b0 < 0xF5 && b1 >= 0 && b2 >= 0 && b3 >= 0 then
      var c := (b0 - 0xF0) * 262144 + b1 * 4096 + b2 * 64 + b3;
      if c < 0x10000 || c >= 0x110000 then None else Some((c, 4))
    else None
  }

  /** `b.decode("utf-8")` */
  function Decode(b: Bytes): (t: Option<Text>)
    ensures t.Some? ==> NoSurrogates(t.value)
  {
    if b == [] then Some([])
    else
      var c := DecodeChar(b);
      if c.None? then None
      else
        var more := Decode(b[c.value.1..]);
        if more.None? then None else Some([c.value.0] + more.value)
  }

  lemma SmallCharRoundTrip(c: CodePoint, rest: Bytes)
    requires c < 0x10000 && !High(c) && !Low(c)
    ensures DecodeChar(EncodeChar(c) + rest) == Some((c, |EncodeChar(c)|))
  {
  }

  lemma LargeParts(c: CodePoint)
    requires 0x10000 <= c
    ensures c == c / 262144 * 262144 + c / 4096 % 64 * 4096 + c / 64 % 64 * 64 + c % 64
    ensures c / 262144 < 5
  {
    assert c / 64 / 64 == c / 4096 && c / 4096 / 64 == c / 262144;
  }

  lemma LargeCharRoundTrip(c: CodePoint, rest: Bytes)
    requires 0x10000 <= c
    ensures DecodeChar(EncodeChar(c) + rest) == Some((c, |EncodeChar(c)|))
  {
    LargeParts(c);
    var b := EncodeChar(c) + rest;
    assert b[0] == 0xF0 + c / 262144 && b[1] == 0x80 + c / 4096 % 64 && b[2] == 0x80 + c / 64 % 64 && b[3] == 0x80 + c % 64;
  }

  lemma DecodeHead(c: CodePoint, rest: Bytes)
    requires DecodeChar(EncodeChar(c) + rest) == Some((c, |EncodeChar(c)|)) && Decode(rest).Some?
    ensures Decode(EncodeChar(c) + rest) == Some([c] + Decode(rest).value)
  {
    hide DecodeChar, EncodeChar;
    assert (EncodeChar(c) + rest)[|EncodeChar(c)|..] == rest;
  }

  /** Decoding undoes encoding for every text without surrogates, and only those can be encoded. */
  lemma {:induction false} EncodeRoundTrip(t: Text)
    ensures Encode(t).Some? <==> NoSurrogates(t)
    ensures Encode(t).Some? ==> Decode(Encode(t).value) == Some(t)
  {
    hide EncodeChar, DecodeChar;
    if t != [] {
      EncodeRoundTrip(t[1..]);
      assert NoSurrogates(t) <==> !High(t[0]) && !Low(t[0]) && NoSurrogates(t[1..]);
      if Encode(t).Some? {
        var head, rest := EncodeChar(t[0]), Encode(t[1..]).value;
        if t[0] < 0x10000 {
          SmallCharRoundTrip(t[0], rest);
        } else {
          LargeCharRoundTrip(t[0], rest);
        }
        DecodeHead(t[0], rest);
        assert Encode(t).value == head + rest && t == [t[0]] + t[1..];
      }
    }
  }
}
