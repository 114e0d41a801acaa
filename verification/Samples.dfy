/** Texts and bytes with known forms: the encodings are the standard ones, not merely some that can be undone. */
module Samples {
  import opened Texts
  import opened JsonNumbers
  import opened JsonStrings
  import opened Json
  import opened Utf8
  import opened Base64

  /** Examples of section 10 of RFC 4648, without padding. */
  lemma Base64Samples()
    ensures EncodeUnpadded([]) == Lit("")
    ensures EncodeUnpadded([102]) == Lit("Zg")
    ensures EncodeUnpadded([102, 111]) == Lit("Zm8")
  {
  }

  /** Another, and the two letters of the URL alphabet. */
  lemma UrlAlphabetSamples()
    ensures EncodeUnpadded([102, 111, 111]) == Lit("Zm9v")
    ensures EncodeUnpadded([251, 255]) == Lit("-_8")
  {
    var foo: Bytes := [102, 111, 111];
    assert foo[3..] == [];
  }

  /** The dollar, cent, euro and hwair signs. */
  lemma Utf8Samples()
    ensures EncodeChar(0x24) == [0x24]
    ensures EncodeChar(0xA2) == [0xC2, 0xA2]
    ensures EncodeChar(0x20AC) == [0xE2, 0x82, 0xAC]
    ensures EncodeChar(0x10348) == [0xF0, 0x90, 0x8D, 0x88]
  {
  }

  /** A list of two, in any layout. */
  lemma ListForm(a: Value, b: Value, lay: Layout)
    ensures Dumps(Arr([a, b]), lay) ==
            [91] + Edge(lay, 1) + Print(a, lay, 1) + ([44] + Gap(lay, 1) + (Print(b, lay, 1) + (Edge(lay, 0) + [93])))
  {
    hide Edge, Gap;
    assert [a, b][1..] == [b];
    assert PrintItems([b], lay, 0) == Print(b, lay, 1) + (Edge(lay, 0) + [93]);
    assert PrintItems([a, b], lay, 0) == Print(a, lay, 1) + ([44] + Gap(lay, 1) + PrintItems([b], lay, 0));
    assert Dumps(Arr([a, b]), lay) == [91] + Edge(lay, 1) + PrintItems([a, b], lay, 0);
  }

  lemma ObjectForm(a: Value, b: Value, k: Text, l: Text, lay: Layout)
    ensures Dumps(Obj([Member(k, a), Member(l, b)]), lay) ==
            [123] + Edge(lay, 1)
            + (PrintString(k) + [58] + AfterColon(lay) + Print(a, lay, 1)
               + ([44] + Gap(lay, 1)
                  + (PrintString(l) + [58] + AfterColon(lay) + Print(b, lay, 1) + (Edge(lay, 0) + [125]))))
  {
    hide Edge, Gap, AfterColon, PrintString;
    var ms := [Member(k, a), Member(l, b)];
    assert ms[1..] == [Member(l, b)];
    assert PrintMembers([Member(l, b)], lay, 0) ==
           PrintString(l) + [58] + AfterColon(lay) + Print(b, lay, 1) + (Edge(lay, 0) + [125]);
    assert PrintMembers(ms, lay, 0) ==
           PrintString(k) + [58] + AfterColon(lay) + Print(a, lay, 1) + ([44] + Gap(lay, 1) + PrintMembers([Member(l, b)], lay, 0));
    assert Dumps(Obj(ms), lay) == [123] + Edge(lay, 1) + PrintMembers(ms, lay, 0);
  }

  /** Lists of two in the three layouts of `json.dumps`: given separators, default ones, indented. */
  lemma ListSamples(a: Value, b: Value)
    ensures Dumps(Arr([a, b]), Compact) == [91] + Print(a, Compact, 1) + [44] + Print(b, Compact, 1) + [93]
    ensures Dumps(Arr([a, b]), Spaced) == [91] + Print(a, Spaced, 1) + [44, 32] + Print(b, Spaced, 1) + [93]
    ensures Dumps(Arr([a, b]), Indented) ==
            [91, 10, 32, 32] + Print(a, Indented, 1) + [44, 10, 32, 32] + Print(b, Indented, 1) + [10, 93]
  {
    hide Print, Dumps;
    ListForm(a, b, Compact);
    ListForm(a, b, Spaced);
    ListForm(a, b, Indented);
  }

  /** Objects of two. */
  lemma ObjectSamples(a: Value, b: Value, k: Text, l: Text)
    ensures Dumps(Obj([Member(k, a), Member(l, b)]), Compact) ==
            [123] + PrintString(k) + [58] + Print(a, Compact, 1) + [44] + PrintString(l) + [58] + Print(b, Compact, 1)
            + [125]
    ensures Dumps(Obj([Member(k, a), Member(l, b)]), Spaced) ==
            [123] + PrintString(k) + [58, 32] + Print(a, Spaced, 1) + [44, 32] + PrintString(l) + [58, 32]
            + Print(b, Spaced, 1) + [125]
  {
    hide Print, Dumps, PrintString;
    ObjectForm(a, b, k, l, Compact);
    ObjectForm(a, b, k, l, Spaced);
  }

  lemma FourDigits(n: nat)
    requires n < 0x10000
    ensures HexDigits(n, 4) ==
            [HexDigit(n / 4096 % 16), HexDigit(n / 256 % 16), HexDigit(n / 16 % 16), HexDigit(n % 16)]
  {
    assert HexDigits(n / 4096, 1) == [] + [HexDigit(n / 4096 % 16)] by {
      assert HexDigits(n / 4096 / 16, 0) == [];
    }
    assert n / 16 / 16 == n / 256 && n / 256 / 16 == n / 4096;
    assert HexDigits(n / 256, 2) == HexDigits(n / 4096, 1) + [HexDigit(n / 256 % 16)];
    assert HexDigits(n / 16, 3) == HexDigits(n / 256, 2) + [HexDigit(n / 16 % 16)];
  }

  /** A quote, a line break, a letter beyond ASCII. */
  lemma EscapeSamples()
    ensures Escape(34) == [92, 34] && Escape(10) == [92, 110]
    ensures Escape(0xE9) == [92, 117, 48, 48, 101, 57]
  {
    hide HexDigits;
    FourDigits(0xE9);
  }

  lemma HighUnit()
    ensures Unit(0xD83D) == [92, 117, 100, 56, 51, 100]
  {
    hide HexDigits;
    FourDigits(0xD83D);
  }

  lemma LowUnit()
    ensures Unit(0xDE00) == [92, 117, 100, 101, 48, 48]
  {
    hide HexDigits;
    FourDigits(0xDE00);
  }

  /** A character beyond the basic plane, as two escapes. */
  lemma PairSample()
    ensures Escape(0x1F600) == [92, 117, 100, 56, 51, 100] + [92, 117, 100, 101, 48, 48]
  {
    hide Unit;
    HighUnit();
    LowUnit();
  }
}
