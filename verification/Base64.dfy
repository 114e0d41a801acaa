/** URL-safe base64 (section 5 of RFC 4648), written with or without padding and read leniently. */
module Base64 {
  import opened Texts
  import opened JsonFacts
  import opened Utf8

  const PAD: CodePoint := 61

  function Letter(n: nat): (c: CodePoint)
    requires n < 64
    ensures IsBase64Letter(c)
  {
    if n < 26 then 65 + n
    else if n < 52 then 71 + n
    else if n < 62 then n - 4
    else if n == 62 then 45
    else 95
  }

  /** The letters the encoder uses. */
  predicate IsBase64Letter(c: CodePoint) {
    65 <= c <= 90 || 97 <= c <= 122 || IsDigit(c) || c == 45 || c == 95
  }

  /** The decoder takes `+` and `/` as well as `-` and `_`. */
  function LetterValue(c: CodePoint): (v: Option<nat>)
    ensures v.Some? ==> v.value < 64
    ensures forall n: nat | n < 64 :: c == Letter(n) ==> v == Some(n)
  {
    if 65 <= c <= 90 then Some(c - 65)
    else if 97 <= c <= 122 then Some(c - 71)
    else if IsDigit(c) then Some(c + 4)
    else if c == 43 || c == 45 then Some(62)
    else if c == 47 || c == 95 then Some(63)
    else None
  }

  predicate Base64Text(t: Text) {
    forall i :: 0 <= i < |t| ==> IsBase64Letter(t[i])
  }

  /** `_b64url_encode`: the encoding without its padding. */
  function EncodeUnpadded(data: Bytes): (t: Text)
    ensures Base64Text(t)
  {
    if data == [] then []
    else if |data| == 1 then [Letter(data[0] / 4), Letter(data[0] % 4 * 16)]
    else if |data| == 2 then
      [Letter(data[0] / 4), Letter(data[0] % 4 * 16 + data[1] / 16), Letter(data[1] % 16 * 4)]
    else
      [Letter(data[0] / 4), Letter(data[0] % 4 * 16 + data[1] / 16),
       Letter(data[1] % 16 * 4 + data[2] / 64), Letter(data[2] % 64)]
      + EncodeUnpadded(data[3..])
  }

  /** As many `=` as bring a length to a multiple of four. */
  function Padding(n: nat): (t: Text) {
    seq((4 - n % 4) % 4, _ => PAD)
  }

  /** `base64.urlsafe_b64encode` */
  function EncodePadded(data: Bytes): Text {
    EncodeUnpadded(data) + Padding(|EncodeUnpadded(data)|)
  }

  function Emit(b: byte, r: Option<Bytes>): Option<Bytes> {
    if r.None? then None else Some([b] + r.value)
  }

  /**
   `binascii.a2b_base64` without strict mode, from a position in a group of four: `left` holds the bits
   not yet emitted, `pads` counts padding since the last letter. Other characters are skipped.
   */
  function Scan(t: Text, quad: nat, left: nat, pads: nat): (r: Option<Bytes>)
    requires quad < 4 && left < (if quad == 1 then 64 else if quad == 2 then 16 else if quad == 3 then 4 else 1)
  {
    if t == [] then (if quad == 0 then Some([]) else None)
    else if t[0] == PAD then
      if quad >= 2 && quad + pads + 1 >= 4 then Some([])
      else Scan(t[1..], quad, left, if quad >= 2 then pads + 1 else pads)
    else
      var v := LetterValue(t[0]);
      if v.None? then Scan(t[1..], quad, left, pads)
      else if quad == 0 then Scan(t[1..], 1, v.value, 0)
      else if quad == 1 then Emit(left * 4 + v.value / 16, Scan(t[1..], 2, v.value % 16, 0))
      else if quad == 2 then Emit(left * 16 + v.value / 4, Scan(t[1..], 3, v.value % 4, 0))
      else Emit(left * 64 + v.value, Scan(t[1..], 0, 0, 0))
  }

  /** `base64.urlsafe_b64decode`; text outside ASCII is refused. */
  function DecodeText(t: Text): (r: Option<Bytes>) {
    if Ascii(t) then Scan(t, 0, 0, 0) else None
  }

  /** `_b64url_decode`: the padding is put back first. */
  function DecodeUnpadded(t: Text): (r: Option<Bytes>) {
    DecodeText(t + Padding(|t|))
  }

  // --- Decoding undoes encoding

  lemma ScanLetter(n: nat, rest: Text, quad: nat, left: nat)
    requires n < 64
    requires quad < 4 && left < (if quad == 1 then 64 else if quad == 2 then 16 else if quad == 3 then 4 else 1)
    ensures Scan([Letter(n)] + rest, quad, left, 0) ==
            if quad == 0 then Scan(rest, 1, n, 0)
            else if quad == 1 then Emit(left * 4 + n / 16, Scan(rest, 2, n % 16, 0))
            else if quad == 2 then Emit(left * 16 + n / 4, Scan(rest, 3, n % 4, 0))
            else Emit(left * 64 + n, Scan(rest, 0, 0, 0))
  {
    assert ([Letter(n)] + rest)[1..] == rest;
  }

  lemma ScanGroup(a: byte, b: byte, c: byte, rest: Text)
    ensures Scan([Letter(a / 4), Letter(a % 4 * 16 + b / 16), Letter(b % 16 * 4 + c / 64), Letter(c % 64)] + rest, 0, 0, 0) ==
            Emit(a, Emit(b, Emit(c, Scan(rest, 0, 0, 0))))
  {
    hide Scan, Letter;
    var x, y, z, w := a / 4, a % 4 * 16 + b / 16, b % 16 * 4 + c / 64, c % 64;
    assert [Letter(x), Letter(y), Letter(z), Letter(w)] + rest == [Letter(x)] + ([Letter(y)] + ([Letter(z)] + ([Letter(w)] + rest)));
    ScanLetter(x, [Letter(y)] + ([Letter(z)] + ([Letter(w)] + rest)), 0, 0);
    ScanLetter(y, [Letter(z)] + ([Letter(w)] + rest), 1, x);
    ScanLetter(z, [Letter(w)] + rest, 2, y % 16);
    ScanLetter(w, rest, 3, z % 4);
  }

  lemma ScanPads(left: nat)
    ensures left < 16 ==> Scan([PAD, PAD], 2, left, 0) == Some([])
    ensures left < 4 ==> Scan([PAD], 3, left, 0) == Some([])
  {
    assert [PAD, PAD][1..] == [PAD];
  }

  lemma ScanOne(a: byte)
    ensures Scan([Letter(a / 4), Letter(a % 4 * 16)] + [PAD, PAD], 0, 0, 0) == Some([a])
  {
    hide Scan, Letter;
    var x, y := a / 4, a % 4 * 16;
    assert [Letter(x), Letter(y)] + [PAD, PAD] == [Letter(x)] + ([Letter(y)] + [PAD, PAD]);
    ScanLetter(x, [Letter(y)] + [PAD, PAD], 0, 0);
    ScanLetter(y, [PAD, PAD], 1, x);
    ScanPads(y % 16);
    var none: Bytes := [];
    assert [a] + none == [a];
  }

  lemma ScanTwo(a: byte, b: byte)
    ensures Scan([Letter(a / 4), Letter(a % 4 * 16 + b / 16), Letter(b % 16 * 4)] + [PAD], 0, 0, 0) == Some([a, b])
  {
    hide Scan, Letter;
    var x, y, z := a / 4, a % 4 * 16 + b / 16, b % 16 * 4;
    assert [Letter(x), Letter(y), Letter(z)] + [PAD] == [Letter(x)] + ([Letter(y)] + ([Letter(z)] + [PAD]));
    ScanLetter(x, [Letter(y)] + ([Letter(z)] + [PAD]), 0, 0);
    ScanLetter(y, [Letter(z)] + [PAD], 1, x);
    ScanLetter(z, [PAD], 2, y % 16);
    ScanPads(z % 4);
    var none: Bytes := [];
    assert [b] + none == [b] && [a] + [b] == [a, b];
  }

  lemma EncodedGroup(data: Bytes)
    requires |data| >= 3
    ensures EncodePadded(data) ==
            [Letter(data[0] / 4), Letter(data[0] % 4 * 16 + data[1] / 16),
             Letter(data[1] % 16 * 4 + data[2] / 64), Letter(data[2] % 64)] + EncodePadded(data[3..])
  {
    hide Letter;
    var more := EncodeUnpadded(data[3..]);
    assert |EncodeUnpadded(data)| == 4 + |more|;
    assert Padding(4 + |more|) == Padding(|more|);
  }

  lemma {:induction false} ScanEncoded(data: Bytes)
    ensures Scan(EncodePadded(data), 0, 0, 0) == Some(data)
    decreases |data|
  {
    hide Letter, Scan, Padding;
    if data == [] {
      ScanNothing();
    } else if |data| <= 2 {
      ScanShort(data);
    } else {
      EncodedGroup(data);
      ScanGroup(data[0], data[1], data[2], EncodePadded(data[3..]));
      ScanEncoded(data[3..]);
      assert data == [data[0]] + ([data[1]] + ([data[2]] + data[3..]));
    }
  }

  lemma ScanShort(data: Bytes)
    requires 1 <= |data| <= 2
    ensures Scan(EncodePadded(data), 0, 0, 0) == Some(data)
  {
    hide Letter, Scan;
    if |data| == 1 {
      ScanOne(data[0]);
      assert Padding(2) == [PAD, PAD] && data == [data[0]];
    } else {
      ScanTwo(data[0], data[1]);
      assert Padding(3) == [PAD] && data == [data[0], data[1]];
    }
  }

  lemma ScanNothing()
    ensures Scan(EncodePadded([]), 0, 0, 0) == Some([])
  {
    assert EncodePadded([]) == [];
  }

  /** Decoding undoes encoding for every byte string, padded or not. */
  lemma DecodeEncode(data: Bytes)
    ensures DecodeText(EncodePadded(data)) == Some(data)
    ensures DecodeUnpadded(EncodeUnpadded(data)) == Some(data)
  {
    hide Scan;
    ScanEncoded(data);
  }
}
