/** JSON strings (section 7 of RFC 8259) as Python writes them with `ensure_ascii` and reads them back. */
module JsonStrings {
  import opened Texts

  const QUOTE: CodePoint := 34
  const BACKSLASH: CodePoint := 92
  const LETTER_U: CodePoint := 117

  predicate High(c: CodePoint) {
    0xD800 <= c < 0xDC00
  }

  predicate Low(c: CodePoint) {
    0xDC00 <= c < 0xE000
  }

  function Combined(h: CodePoint, l: CodePoint): (c: CodePoint)
    requires High(h) && Low(l)
    ensures c >= 0x10000
  {
    0x10000 + (h - 0xD800) * 0x400 + (l - 0xDC00)
  }

  /** Printable ASCII that stands for itself between quotes. */
  predicate PlainChar(c: CodePoint) {
    32 <= c < 127 && c != QUOTE && c != BACKSLASH
  }

  predicate Plain(s: Text) {
    forall i :: 0 <= i < |s| ==> PlainChar(s[i])
  }

  /** The letter of a two-character escape, if the character has one. */
  function ShortEscape(c: CodePoint): (e: Option<CodePoint>) {
    if c == QUOTE then Some(QUOTE)
    else if c == BACKSLASH then Some(BACKSLASH)
    else if c == 10 then Some(110)
    else if c == 13 then Some(114)
    else if c == 9 then Some(116)
    else if c == 12 then Some(102)
    else if c == 8 then Some(98)
    else None
  }

  function Unit(c: CodePoint): (t: Text)
    requires c < 0x10000
    ensures |t| == 6 && Printable(t)
  {
    [BACKSLASH, LETTER_U] + HexDigits(c, 4)
  }

  /** One character of a string, escaped. */
  function Escape(c: CodePoint): (t: Text)
    ensures |t| > 0 && Printable(t)
    ensures t[0] != QUOTE
  {
    if ShortEscape(c).Some? then [BACKSLASH, ShortEscape(c).value]
    else if 32 <= c < 127 then [c]
    else if c < 0x10000 then Unit(c)
    else Unit(0xD800 + (c - 0x10000) / 0x400) + Unit(0xDC00 + (c - 0x10000) % 0x400)
  }

  function PrintChars(s: Text): (t: Text)
    ensures Printable(t)
  {
    if s == [] then [] else Escape(s[0]) + PrintChars(s[1..])
  }

  function PrintString(s: Text): (t: Text)
    ensures Printable(t) && |t| >= 2 && t[0] == QUOTE
  {
    [QUOTE] + PrintChars(s) + [QUOTE]
  }

  /** The character a two-character escape stands for. */
  function Unescape(e: CodePoint): (c: Option<CodePoint>) {
    if e == QUOTE || e == BACKSLASH || e == 47 then Some(e)
    else if e == 110 then Some(10)
    else if e == 114 then Some(13)
    else if e == 116 then Some(9)
    else if e == 102 then Some(12)
    else if e == 98 then Some(8)
    else None
  }

  /** Four hexadecimal digits at the head of a text. */
  function ParseHex4(t: Text): (n: Option<CodePoint>)
    ensures n.Some? ==> |t| >= 4 && n.value < 0x10000
  {
    if |t| < 4 || HexValue(t[0]).None? || HexValue(t[1]).None? || HexValue(t[2]).None? || HexValue(t[3]).None? then None
    else Some(HexValue(t[0]).value * 4096 + HexValue(t[1]).value * 256 + HexValue(t[2]).value * 16 + HexValue(t[3]).value)
  }

  predicate StartsUnit(t: Text) {
    |t| >= 2 && t[0] == BACKSLASH && t[1] == LETTER_U
  }

  function Prepend(c: CodePoint, r: Option<(Text, Text)>): Option<(Text, Text)> {
    if r.None? then None else Some(([c] + r.value.0, r.value.1))
  }

  /** The characters up to the closing quote, and what follows it. */
  function ParseChars(t: Text): (r: Option<(Text, Text)>)
    ensures r.Some? ==> |r.value.1| < |t| && r.value.1 == t[|t| - |r.value.1|..]
  {
    if t == [] then None
    else if t[0] == QUOTE then Some(([], t[1..]))
    else if t[0] < 32 then None
    else if t[0] != BACKSLASH then Prepend(t[0], ParseChars(t[1..]))
    else if |t| < 2 then None
    else if t[1] != LETTER_U then
      if Unescape(t[1]).None? then None else Prepend(Unescape(t[1]).value, ParseChars(t[2..]))
    else
      var h := ParseHex4(t[2..]);
      if h.None? then None
      else if High(h.value) && StartsUnit(t[6..]) then
        var l := ParseHex4(t[8..]);
        if l.None? then None
        else if Low(l.value) then Prepend(Combined(h.value, l.value), ParseChars(t[12..]))
        else Prepend(h.value, ParseChars(t[6..]))
      else Prepend(h.value, ParseChars(t[6..]))
  }

  /** The text with every high surrogate directly before a low one merged with it. */
  function Joined(s: Text): (j: Text) {
    if s == [] then []
    else if |s| >= 2 && High(s[0]) && Low(s[1]) then [Combined(s[0], s[1])] + Joined(s[2..])
    else [s[0]] + Joined(s[1..])
  }

  /** No high surrogate stands directly before a low one. */
  predicate PairFree(s: Text) {
    forall i :: 0 <= i < |s| - 1 ==> !(High(s[i]) && Low(s[i + 1]))
  }

  lemma {:induction false} JoinedLength(s: Text)
    ensures |Joined(s)| <= |s|
    ensures |Joined(s)| == |s| ==> PairFree(s) && Joined(s) == s
  {
    if s == [] {
    } else if |s| >= 2 && High(s[0]) && Low(s[1]) {
      JoinedLength(s[2..]);
    } else {
      JoinedLength(s[1..]);
      if |Joined(s)| == |s| {
        forall i | 0 <= i < |s| - 1
          ensures !(High(s[i]) && Low(s[i + 1]))
        {
          if i > 0 {
            assert s[1..][i - 1] == s[i] && s[1..][i] == s[i + 1];
          }
        }
      }
    }
  }

  lemma {:induction false} PairFreeIsJoined(s: Text)
    requires PairFree(s)
    ensures Joined(s) == s
  {
    if s != [] {
      assert |s| >= 2 ==> !(High(s[0]) && Low(s[0 + 1]));
      var tail := s[1..];
      forall i | 0 <= i < |tail| - 1
        ensures !(High(tail[i]) && Low(tail[i + 1]))
      {
        assert tail[i] == s[i + 1] && tail[i + 1] == s[i + 1 + 1];
      }
      PairFreeIsJoined(tail);
    }
  }

  /** Joining leaves a text alone exactly when no surrogate pair stands in it. */
  lemma JoinedExactly(s: Text)
    ensures Joined(s) == s <==> PairFree(s)
  {
    JoinedLength(s);
    if PairFree(s) {
      PairFreeIsJoined(s);
    }
  }

  lemma Hex4Expansion(a: nat, b: nat, c: nat, d: nat)
    requires b == a / 16 && c == b / 16 && d == c / 16
    ensures HexDigits(a, 4) == [HexDigit(d % 16), HexDigit(c % 16), HexDigit(b % 16), HexDigit(a % 16)]
  {
    assert HexDigits(d / 16, 0) == [];
    assert HexDigits(d, 1) == [HexDigit(d % 16)];
    assert HexDigits(c, 2) == [HexDigit(d % 16), HexDigit(c % 16)];
    assert HexDigits(b, 3) == [HexDigit(d % 16), HexDigit(c % 16), HexDigit(b % 16)];
  }

  lemma ParseHex4Of(a: nat, b: nat, c: nat, d: nat, t: Text)
    requires a < 16 && b < 16 && c < 16 && d < 16
    requires |t| >= 4 && t[0] == HexDigit(d) && t[1] == HexDigit(c) && t[2] == HexDigit(b) && t[3] == HexDigit(a)
    ensures ParseHex4(t) == Some(d * 4096 + c * 256 + b * 16 + a)
  {
  }

  lemma Hex4Value(n: nat, b: nat, c: nat, d: nat)
    requires n < 0x10000 && b == n / 16 && c == b / 16 && d == c / 16
    ensures d < 16 && n == d % 16 * 4096 + c % 16 * 256 + b % 16 * 16 + n % 16
  {
  }

  lemma Hex4RoundTrip(n: CodePoint, rest: Text)
    requires n < 0x10000
    ensures ParseHex4(HexDigits(n, 4) + rest) == Some(n)
  {
    var b := n / 16;
    var c := b / 16;
    var d := c / 16;
    Hex4Value(n, b, c, d);
    Hex4Expansion(n, b, c, d);
    var ds: Text := [HexDigit(d % 16), HexDigit(c % 16), HexDigit(b % 16), HexDigit(n % 16)];
    ParseHex4Of(n % 16, b % 16, c % 16, d % 16, ds + rest);
  }

  lemma UnitHead(c: CodePoint, rest: Text)
    requires c < 0x10000
    ensures var t := Unit(c) + rest;
            t[0] == BACKSLASH && t[1] == LETTER_U && ParseHex4(t[2..]) == Some(c) && t[6..] == rest
  {
    var t := Unit(c) + rest;
    assert t[2..] == HexDigits(c, 4) + rest;
    Hex4RoundTrip(c, rest);
  }

  lemma AstralStep(c: CodePoint, rest: Text)
    requires 0x10000 <= c
    ensures ParseChars(Escape(c) + rest) == Prepend(c, ParseChars(rest))
  {
    hide ParseHex4, HexDigits;
    var h, l := 0xD800 + (c - 0x10000) / 0x400, 0xDC00 + (c - 0x10000) % 0x400;
    var t := Escape(c) + rest;
    assert t == Unit(h) + (Unit(l) + rest);
    UnitHead(h, Unit(l) + rest);
    UnitHead(l, rest);
    assert t[8..] == t[6..][2..] && t[12..] == t[6..][6..];
    assert Combined(h, l) == c;
  }

  /** After a character whose escape is not a lone high surrogate, reading continues behind it. */
  lemma EscapeStep(c: CodePoint, rest: Text)
    requires !High(c)
    ensures ParseChars(Escape(c) + rest) == Prepend(c, ParseChars(rest))
  {
    hide ParseHex4, HexDigits;
    var t := Escape(c) + rest;
    if ShortEscape(c).Some? {
      assert t[2..] == rest;
    } else if 32 <= c < 127 {
      assert t[1..] == rest;
    } else if c < 0x10000 {
      UnitHead(c, rest);
    } else {
      AstralStep(c, rest);
    }
  }

  /** What a reader sees behind a high surrogate: whether a unit follows, and which. */
  lemma NextUnit(c: CodePoint, after: Text)
    ensures var tail := Escape(c) + after;
            && (StartsUnit(tail) ==> ParseHex4(tail[2..]).Some?)
            && (StartsUnit(tail) && Low(ParseHex4(tail[2..]).value) <==> Low(c))
            && (Low(c) ==> ParseHex4(tail[2..]) == Some(c) && tail[6..] == after)
  {
    hide ParseHex4, HexDigits;
    if ShortEscape(c).None? && !(32 <= c < 127) {
      if c < 0x10000 {
        UnitHead(c, after);
      } else {
        var u, l := 0xD800 + (c - 0x10000) / 0x400, 0xDC00 + (c - 0x10000) % 0x400;
        assert Escape(c) + after == Unit(u) + (Unit(l) + after);
        UnitHead(u, Unit(l) + after);
      }
    }
  }

  lemma HighBefore(h: CodePoint, tail: Text)
    requires High(h)
    requires StartsUnit(tail) ==> ParseHex4(tail[2..]).Some?
    ensures ParseChars(Unit(h) + tail) ==
            if StartsUnit(tail) && Low(ParseHex4(tail[2..]).value)
            then Prepend(Combined(h, ParseHex4(tail[2..]).value), ParseChars(tail[6..]))
            else Prepend(h, ParseChars(tail))
  {
    hide ParseHex4, HexDigits;
    var t := Unit(h) + tail;
    UnitHead(h, tail);
    assert t[6..] == tail;
    if StartsUnit(tail) {
      assert t[8..] == tail[2..] && t[12..] == tail[6..];
    }
  }

  /** A high surrogate is read together with a low one behind it, and alone before anything else. */
  lemma HighStep(h: CodePoint, more: Text, rest: Text)
    requires High(h)
    ensures ParseChars(Unit(h) + (PrintChars(more) + [QUOTE] + rest)) ==
            if more != [] && Low(more[0])
            then Prepend(Combined(h, more[0]), ParseChars(PrintChars(more[1..]) + [QUOTE] + rest))
            else Prepend(h, ParseChars(PrintChars(more) + [QUOTE] + rest))
  {
    hide ParseHex4, HexDigits, ParseChars, Escape, Unit;
    var tail := PrintChars(more) + [QUOTE] + rest;
    if more == [] {
      assert !StartsUnit(tail);
    } else {
      var after := PrintChars(more[1..]) + [QUOTE] + rest;
      assert tail == Escape(more[0]) + after;
      NextUnit(more[0], after);
    }
    HighBefore(h, tail);
  }

  /** Reading printed characters gives the text back, with its surrogate pairs merged. */
  lemma {:induction false} CharsRoundTrip(s: Text, rest: Text)
    ensures ParseChars(PrintChars(s) + [QUOTE] + rest) == Some((Joined(s), rest))
    decreases |s|
  {
    var t := PrintChars(s) + [QUOTE] + rest;
    if s == [] {
      assert t[1..] == rest;
    } else {
      var after := PrintChars(s[1..]) + [QUOTE] + rest;
      assert t == Escape(s[0]) + after;
      if High(s[0]) {
        HighStep(s[0], s[1..], rest);
        if |s| >= 2 && Low(s[1]) {
          assert s[1..][1..] == s[2..];
          CharsRoundTrip(s[2..], rest);
        } else {
          CharsRoundTrip(s[1..], rest);
        }
      } else {
        EscapeStep(s[0], after);
        CharsRoundTrip(s[1..], rest);
      }
    }
  }

  lemma StringRoundTrip(s: Text, rest: Text)
    ensures PrintString(s) + rest == [QUOTE] + (PrintChars(s) + [QUOTE] + rest)
    ensures ParseChars((PrintString(s) + rest)[1..]) == Some((Joined(s), rest))
  {
    hide ParseChars, PrintChars, Joined;
    CharsRoundTrip(s, rest);
    assert (PrintString(s) + rest)[1..] == PrintChars(s) + [QUOTE] + rest;
  }

  lemma {:induction false} PlainPrintsItself(s: Text)
    requires Plain(s)
    ensures PrintChars(s) == s
  {
    if s != [] {
      PlainPrintsItself(s[1..]);
    }
  }

  /** A text decoded from UTF-8 holds no surrogate. */
  predicate NoSurrogates(t: Text) {
    forall i :: 0 <= i < |t| ==> !High(t[i]) && !Low(t[i])
  }

  /** A low surrogate can only come first from an escape that says so. */
  lemma LowFirst(t: Text)
    requires NoSurrogates(t) && ParseChars(t).Some?
    requires ParseChars(t).value.0 != [] && Low(ParseChars(t).value.0[0])
    ensures StartsUnit(t) && ParseHex4(t[2..]).Some? && Low(ParseHex4(t[2..]).value)
  {
  }

  lemma PrependPairFree(c: CodePoint, s: Text)
    requires PairFree(s) && (High(c) && s != [] ==> !Low(s[0]))
    ensures PairFree([c] + s)
  {
    var whole := [c] + s;
    forall i | 0 <= i < |whole| - 1
      ensures !(High(whole[i]) && Low(whole[i + 1]))
    {
      if i > 0 {
        assert whole[i] == s[i - 1] && whole[i + 1] == s[i - 1 + 1];
      }
    }
  }

  /** Whatever JSON text is read, its strings hold no surrogate pair. */
  lemma {:induction false} ParsedPairFree(t: Text)
    requires NoSurrogates(t) && ParseChars(t).Some?
    ensures PairFree(ParseChars(t).value.0)
    decreases |t|
  {
    if t[0] == QUOTE {
    } else if t[0] != BACKSLASH {
      ParsedPairFree(t[1..]);
      PrependPairFree(t[0], ParseChars(t[1..]).value.0);
    } else if t[1] != LETTER_U {
      ParsedPairFree(t[2..]);
      PrependPairFree(Unescape(t[1]).value, ParseChars(t[2..]).value.0);
    } else {
      var h := ParseHex4(t[2..]).value;
      if High(h) && StartsUnit(t[6..]) && Low(ParseHex4(t[8..]).value) {
        ParsedPairFree(t[12..]);
        PrependPairFree(Combined(h, ParseHex4(t[8..]).value), ParseChars(t[12..]).value.0);
      } else {
        ParsedPairFree(t[6..]);
        var s := ParseChars(t[6..]).value.0;
        assert |t| >= 8 ==> t[6..][2..] == t[8..];
        if High(h) && s != [] && Low(s[0]) {
          LowFirst(t[6..]);
          assert false;
        }
        PrependPairFree(h, s);
      }
    }
  }
}
