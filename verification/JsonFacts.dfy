/** What follows from the JSON round trip: when it is exact, what text it uses, and what it contains. */
module JsonFacts {
  import opened Texts
  import opened JsonNumbers
  import opened JsonStrings
  import opened Json

  /** No string of the value, keys included, holds a surrogate pair. */
  predicate PairFreeValue(v: Value)
    decreases v
  {
    match v
    case Str(s) => PairFree(s)
    case Arr(items) => forall x :: x in items ==> PairFreeValue(x)
    case Obj(members) => forall m :: m in members ==> PairFree(m.key) && PairFreeValue(m.value)
    case _ => true
  }

  predicate PairFreeItems(items: seq<Value>) {
    forall x :: x in items ==> PairFreeValue(x)
  }

  predicate PairFreeMember(m: Member) {
    PairFree(m.key) && PairFreeValue(m.value)
  }

  predicate PairFreeMembers(members: seq<Member>) {
    forall m :: m in members ==> PairFreeMember(m)
  }

  lemma {:induction false} JoinedItemsExactly(items: seq<Value>)
    ensures JoinedItems(items) == items <==> PairFreeItems(items)
    decreases items, 0
  {
    if items != [] {
      JoinedValueExactly(items[0]);
      JoinedItemsExactly(items[1..]);
      assert items == [items[0]] + items[1..];
    }
  }

  lemma {:induction false} JoinedMembersExactly(members: seq<Member>)
    ensures JoinedMembers(members) == members <==> PairFreeMembers(members)
    decreases members, 0
  {
    if members != [] {
      JoinedExactly(members[0].key);
      JoinedValueExactly(members[0].value);
      JoinedMembersExactly(members[1..]);
      assert members == [members[0]] + members[1..];
      assert JoinedMembers(members)[1..] == JoinedMembers(members[1..]);
      assert JoinedMembers(members)[0] == members[0] <==> PairFreeMember(members[0]);
    }
  }

  /** Merging leaves a value alone exactly when it holds no surrogate pair. */
  lemma {:induction false} JoinedValueExactly(v: Value)
    ensures JoinedValue(v) == v <==> PairFreeValue(v)
    decreases v, 1
  {
    match v
    case Str(s) => JoinedExactly(s);
    case Arr(items) =>
      JoinedItemsExactly(items);
      assert PairFreeValue(v) <==> PairFreeItems(items);
    case Obj(members) =>
      JoinedMembersExactly(members);
      assert PairFreeValue(v) <==> PairFreeMembers(members);
    case _ =>
  }

  /** Writing and reading gives a value back exactly when none of its strings holds a surrogate pair. */
  lemma RoundTripExactly(v: Value, lay: Layout, tail: Text)
    requires Blank(tail)
    ensures Loads(Dumps(v, lay) + tail) == Some(v) <==> PairFreeValue(v)
  {
    LoadsDumps(v, lay, tail);
    JoinedValueExactly(v);
  }

  /** Values without surrogate pairs that are written alike are alike. */
  lemma DumpsInjective(v: Value, w: Value, lay: Layout)
    requires PairFreeValue(v) && PairFreeValue(w)
    requires Dumps(v, lay) == Dumps(w, lay)
    ensures v == w
  {
    RoundTripExactly(v, lay, []);
    RoundTripExactly(w, lay, []);
  }

  // --- What has been read holds no surrogate pair

  lemma NoSurrogatesTail(t: Text, r: Text)
    requires NoSurrogates(t) && |r| <= |t| && r == t[|t| - |r|..]
    ensures NoSurrogates(r)
  {
  }

  predicate Suffix(r: Text, t: Text) {
    |r| <= |t| && r == t[|t| - |r|..]
  }

  lemma SuffixTransitive(q: Text, r: Text, t: Text)
    requires Suffix(q, r) && Suffix(r, t)
    ensures Suffix(q, t)
  {
  }

  lemma WordSuffix(t: Text, w: Text, v: Value)
    requires w != []
    ensures Word(t, w, v).Some? ==> Suffix(Word(t, w, v).value.1, t)
  {
  }

  lemma NumberSuffix(t: Text)
    requires ParseNumber(t).Some?
    ensures Suffix(ParseNumber(t).value.1, t)
  {
    hide WholeRun, FractionRun, ExponentMark, DigitRun, DigitsValue, Normalized;
    var u := if t[0] == MINUS then t[1..] else t;
    assert Suffix(u, t);
    var afterWhole := u[WholeRun(u)..];
    assert Suffix(afterWhole, u);
    var afterFraction := afterWhole[FractionRun(afterWhole)..];
    assert Suffix(afterFraction, afterWhole);
    SuffixTransitive(afterWhole, u, t);
    SuffixTransitive(afterFraction, afterWhole, t);
    var m := ExponentMark(afterFraction);
    if m > 0 {
      var ds := afterFraction[m..];
      assert Suffix(ds, afterFraction);
      SuffixTransitive(ds, afterFraction, t);
      assert Suffix(ds[DigitRun(ds)..], ds);
      SuffixTransitive(ds[DigitRun(ds)..], ds, t);
    }
  }

  lemma DelimiterSuffix(t: Text, close: CodePoint)
    requires Delimiter(t, close).Some?
    ensures Suffix(Delimiter(t, close).value.1, t)
  {
    var u := SkipBlanks(t);
    assert Suffix(u[1..], t);
    SuffixTransitive(SkipBlanks(u[1..]), u[1..], t);
  }

  lemma ColonSuffix(t: Text)
    requires SkipColon(t).Some?
    ensures Suffix(SkipColon(t).value, t)
  {
    var u := SkipBlanks(t);
    assert Suffix(u[1..], t);
    SuffixTransitive(SkipBlanks(u[1..]), u[1..], t);
  }

  /** The value and rest of a parse, for what it is worth to the texts around it. */
  predicate PairFreeParse(r: Option<(Value, Text)>, t: Text) {
    r.Some? ==> PairFreeValue(r.value.0) && Suffix(r.value.1, t)
  }

  lemma PairFreeAtoms()
    ensures PairFreeValue(Null) && PairFreeValue(Bool(true)) && PairFreeValue(Bool(false))
    ensures PairFreeValue(Arr([])) && PairFreeValue(Obj([]))
  {
  }

  lemma ParsedAtom(t: Text)
    requires NoSurrogates(t) && t != [] && t[0] != LBRACKET && t[0] != LBRACE
    ensures PairFreeParse(Parse(t), t)
  {
    hide ParseChars, ParseNumber, Word, PairFree, NoSurrogates;
    assert Suffix(t[1..], t);
    PairFreeAtoms();
    if t[0] == QUOTE {
      NoSurrogatesTail(t, t[1..]);
      if ParseChars(t[1..]).Some? {
        ParsedPairFree(t[1..]);
        SuffixTransitive(ParseChars(t[1..]).value.1, t[1..], t);
      }
    } else if t[0] == 110 {
      WordSuffix(t, Lit("null"), Null);
    } else if t[0] == 116 {
      WordSuffix(t, Lit("true"), Bool(true));
    } else if t[0] == 102 {
      WordSuffix(t, Lit("false"), Bool(false));
    } else if ParseNumber(t).Some? {
      NumberSuffix(t);
    }
  }

  /** Reading a text without surrogates gives a value without surrogate pairs and leaves a suffix. */
  lemma {:induction false} ParsedValue(t: Text)
    requires NoSurrogates(t)
    ensures PairFreeParse(Parse(t), t)
    decreases |t|, 0
  {
    hide ParseItems, ParseMembers, PairFree, PairFreeValue, NoSurrogates, Suffix;
    if t != [] && t[0] != LBRACKET && t[0] != LBRACE {
      ParsedAtom(t);
    } else if t != [] {
      PairFreeAtoms();
      var u := SkipBlanks(t[1..]);
      BracketSuffix(t);
      NoSurrogatesTail(t, u);
      if Parse(t).Some? && t[0] == LBRACKET && !(u != [] && u[0] == RBRACKET) {
        ParsedItems(u);
        PairFreeArr(ParseItems(u).value.0);
        SuffixTransitive(ParseItems(u).value.1, u, t);
      }
      if Parse(t).Some? && t[0] == LBRACE && !(u != [] && u[0] == RBRACE) {
        ParsedMembers(u);
        PairFreeObj(ParseMembers(u).value.0);
        SuffixTransitive(ParseMembers(u).value.1, u, t);
      }
    }
  }

  lemma BracketSuffix(t: Text)
    requires t != []
    ensures var u := SkipBlanks(t[1..]);
            |u| <= |t| && u == t[|t| - |u|..] && Suffix(u, t) && (u != [] ==> Suffix(u[1..], t))
  {
    var u := SkipBlanks(t[1..]);
    assert Suffix(t[1..], t);
    SuffixTransitive(u, t[1..], t);
    if u != [] {
      SuffixTransitive(u[1..], u, t);
    }
  }

  lemma PairFreeArr(items: seq<Value>)
    requires PairFreeItems(items)
    ensures PairFreeValue(Arr(items))
  {
  }

  lemma PairFreeObj(members: seq<Member>)
    requires PairFreeMembers(members)
    ensures PairFreeValue(Obj(members))
  {
  }

  lemma {:induction false} ParsedItems(t: Text)
    requires NoSurrogates(t) && ParseItems(t).Some?
    ensures PairFreeItems(ParseItems(t).value.0) && Suffix(ParseItems(t).value.1, t)
    decreases |t|, 1
  {
    hide Parse, Delimiter, PairFreeValue;
    ParsedValue(t);
    var after := Parse(t).value.1;
    DelimiterSuffix(after, RBRACKET);
    var d := Delimiter(after, RBRACKET).value;
    SuffixTransitive(d.1, after, t);
    if d.0 {
      NoSurrogatesTail(t, d.1);
      ParsedItems(d.1);
      SuffixTransitive(ParseItems(d.1).value.1, d.1, t);
    }
  }

  lemma {:induction false} ParsedMember(t: Text)
    requires NoSurrogates(t) && ParseMember(t).Some?
    ensures PairFreeMember(ParseMember(t).value.0) && Suffix(ParseMember(t).value.1, t)
    decreases |t|, 1
  {
    hide Parse, ParseChars, SkipColon, PairFreeValue, PairFree;
    assert Suffix(t[1..], t);
    NoSurrogatesTail(t, t[1..]);
    ParsedPairFree(t[1..]);
    var afterKey := ParseChars(t[1..]).value.1;
    SuffixTransitive(afterKey, t[1..], t);
    ColonSuffix(afterKey);
    var printed := SkipColon(afterKey).value;
    SuffixTransitive(printed, afterKey, t);
    NoSurrogatesTail(t, printed);
    ParsedValue(printed);
    SuffixTransitive(Parse(printed).value.1, printed, t);
  }

  lemma {:induction false} ParsedMembers(t: Text)
    requires NoSurrogates(t) && ParseMembers(t).Some?
    ensures PairFreeMembers(ParseMembers(t).value.0) && Suffix(ParseMembers(t).value.1, t)
    decreases |t|, 2
  {
    hide ParseMember, Delimiter, PairFreeMember;
    ParsedMember(t);
    var after := ParseMember(t).value.1;
    DelimiterSuffix(after, RBRACE);
    var d := Delimiter(after, RBRACE).value;
    SuffixTransitive(d.1, after, t);
    if d.0 {
      NoSurrogatesTail(t, d.1);
      ParsedMembers(d.1);
      SuffixTransitive(ParseMembers(d.1).value.1, d.1, t);
    }
  }

  /** Every value read from a decoded text survives being written and read again. */
  lemma LoadedValuesRoundTrip(t: Text, lay: Layout, tail: Text)
    requires NoSurrogates(t) && Loads(t).Some? && Blank(tail)
    ensures PairFreeValue(Loads(t).value)
    ensures Loads(Dumps(Loads(t).value, lay) + tail) == Loads(t)
  {
    NoSurrogatesTail(t, SkipBlanks(t));
    ParsedValue(SkipBlanks(t));
    RoundTripExactly(Loads(t).value, lay, tail);
  }

  // --- The characters and strings of a written value

  predicate Ascii(t: Text) {
    forall i :: 0 <= i < |t| ==> t[i] < 128
  }

  lemma PrintableParts(a: Text, b: Text, c: Text)
    requires Printable(a) && Printable(b) && Printable(c)
    ensures Printable(a + b) && Printable(a + b + c)
  {
  }

  lemma MagnitudePrintable(d: Float)
    ensures Printable(PrintMagnitude(d))
  {
    hide ExponentDigits, WholeDigits, FractionDigits, ExponentText;
    if -4 < d.point <= 16 {
      PrintableParts([DOT], FractionDigits(d), []);
      PrintableParts(WholeDigits(d), [DOT] + FractionDigits(d), []);
    } else {
      var e := ExponentText(d.point - 1);
      ExponentPrintable(d.point - 1);
      PrintableParts([DOT], d.digits[1..], e);
      PrintableParts(d.digits[..1], [DOT] + d.digits[1..] + e, []);
      PrintableParts(d.digits[..1], e, []);
    }
  }

  lemma ExponentPrintable(e: int)
    ensures Printable(ExponentText(e))
  {
    hide ExponentDigits;
  }

  lemma NumberPrintable(n: Number)
    ensures Printable(PrintNumber(n))
  {
    hide PrintMagnitude, Decimal10;
    if n.Real? {
      MagnitudePrintable(n.d);
    }
  }

  /** Fit for a layout: ASCII, and on one line of printable characters unless the layout indents. */
  predicate Fit(t: Text, lay: Layout) {
    Ascii(t) && (!lay.Indented? ==> Printable(t))
  }

  lemma FitParts(a: Text, b: Text, c: Text, lay: Layout)
    requires Fit(a, lay) && Fit(b, lay) && Fit(c, lay)
    ensures Fit(a + b, lay) && Fit(a + b + c, lay)
  {
  }

  lemma FitPads(lay: Layout, level: nat)
    ensures Fit(Edge(lay, level), lay) && Fit(Gap(lay, level), lay) && Fit(AfterColon(lay), lay)
  {
  }

  /** A written value is ASCII, and printable on one line unless the layout indents. */
  lemma {:induction false} PrintFit(v: Value, lay: Layout, level: nat)
    ensures Fit(Print(v, lay, level), lay)
    decreases v, 1
  {
    hide PrintNumber, PrintString, PrintItems, PrintMembers, Edge;
    FitPads(lay, level + 1);
    match v
    case Num(n) => NumberPrintable(n);
    case Arr(items) =>
      if items != [] {
        ItemsFit(items, lay, level);
        FitParts([LBRACKET], Edge(lay, level + 1), PrintItems(items, lay, level), lay);
      }
    case Obj(members) =>
      if members != [] {
        MembersFit(members, lay, level);
        FitParts([LBRACE], Edge(lay, level + 1), PrintMembers(members, lay, level), lay);
      }
    case _ =>
  }

  lemma {:induction false} ItemsFit(items: seq<Value>, lay: Layout, level: nat)
    requires items != []
    ensures Fit(PrintItems(items, lay, level), lay)
    decreases items, 0
  {
    hide Print, Edge, Gap, Fit;
    var first := Print(items[0], lay, level + 1);
    PrintFit(items[0], lay, level + 1);
    FitPads(lay, level);
    FitPads(lay, level + 1);
    BracketsFit(lay);
    if |items| == 1 {
      FitParts(Edge(lay, level), [RBRACKET], [], lay);
      FitParts(first, Edge(lay, level) + [RBRACKET], [], lay);
    } else {
      ItemsFit(items[1..], lay, level);
      FitParts([COMMA], Gap(lay, level + 1), PrintItems(items[1..], lay, level), lay);
      FitParts(first, [COMMA] + Gap(lay, level + 1) + PrintItems(items[1..], lay, level), [], lay);
    }
  }

  lemma BracketsFit(lay: Layout)
    ensures Fit([], lay) && Fit([COMMA], lay) && Fit([COLON], lay)
    ensures Fit([RBRACKET], lay) && Fit([RBRACE], lay)
  {
  }

  lemma MemberFit(m: Member, lay: Layout, level: nat)
    requires Fit(Print(m.value, lay, level), lay)
    ensures Fit(PrintString(m.key) + [COLON] + AfterColon(lay) + Print(m.value, lay, level), lay)
  {
    hide Print, Edge, PrintString, AfterColon;
    BracketsFit(lay);
    FitPads(lay, level);
    FitParts(PrintString(m.key), [COLON], AfterColon(lay), lay);
    FitParts(PrintString(m.key) + [COLON] + AfterColon(lay), Print(m.value, lay, level), [], lay);
  }

  lemma {:induction false} MembersFit(members: seq<Member>, lay: Layout, level: nat)
    requires members != []
    ensures Fit(PrintMembers(members, lay, level), lay)
    decreases members, 0
  {
    hide Print, PrintString, Edge, Gap, Fit, AfterColon;
    var m := members[0];
    var first := PrintString(m.key) + [COLON] + AfterColon(lay) + Print(m.value, lay, level + 1);
    PrintFit(m.value, lay, level + 1);
    MemberFit(m, lay, level + 1);
    FitPads(lay, level);
    FitPads(lay, level + 1);
    BracketsFit(lay);
    if |members| == 1 {
      FitParts(Edge(lay, level), [RBRACE], [], lay);
      FitParts(first, Edge(lay, level) + [RBRACE], [], lay);
    } else {
      MembersFit(members[1..], lay, level);
      FitParts([COMMA], Gap(lay, level + 1), PrintMembers(members[1..], lay, level), lay);
      FitParts(first, [COMMA] + Gap(lay, level + 1) + PrintMembers(members[1..], lay, level), [], lay);
    }
  }

  /** The string occurs somewhere in the value, as a value and not as a key. */
  predicate HasString(v: Value, s: Text)
    decreases v
  {
    match v
    case Str(x) => x == s
    case Arr(items) => exists x :: x in items && HasString(x, s)
    case Obj(members) => exists m :: m in members && HasString(m.value, s)
    case _ => false
  }

  /** A plain string of a value can be found in what is written for the value. */
  lemma {:induction false} WrittenStrings(v: Value, lay: Layout, level: nat, s: Text)
    requires Plain(s) && HasString(v, s)
    ensures Contains(Print(v, lay, level), s)
    decreases v, 1
  {
    match v
    case Str(x) =>
      PlainPrintsItself(s);
      assert s <= s;
      ContainsWithin([QUOTE], s, [QUOTE], s);
    case Arr(items) =>
      WrittenInItems(items, lay, level, s);
      ContainsAfter([LBRACKET] + Edge(lay, level + 1), PrintItems(items, lay, level), s);
    case Obj(members) =>
      WrittenInMembers(members, lay, level, s);
      ContainsAfter([LBRACE] + Edge(lay, level + 1), PrintMembers(members, lay, level), s);
  }

  lemma {:induction false} WrittenInItems(items: seq<Value>, lay: Layout, level: nat, s: Text)
    requires Plain(s) && exists x :: x in items && HasString(x, s)
    ensures Contains(PrintItems(items, lay, level), s)
    decreases items, 0
  {
    hide Print, Contains;
    var t := PrintItems(items, lay, level);
    var first := Print(items[0], lay, level + 1);
    if HasString(items[0], s) {
      WrittenStrings(items[0], lay, level + 1, s);
      ContainsBefore(first, t[|first|..], s);
      assert t == first + t[|first|..];
    } else {
      var x :| x in items && HasString(x, s);
      assert x in items[1..];
      WrittenInItems(items[1..], lay, level, s);
      ContainsAfter(first + ([COMMA] + Gap(lay, level + 1)), PrintItems(items[1..], lay, level), s);
      assert t == first + ([COMMA] + Gap(lay, level + 1)) + PrintItems(items[1..], lay, level);
    }
  }

  lemma {:induction false} WrittenInMembers(members: seq<Member>, lay: Layout, level: nat, s: Text)
    requires Plain(s) && exists m :: m in members && HasString(m.value, s)
    ensures Contains(PrintMembers(members, lay, level), s)
    decreases members, 0
  {
    hide Print, Contains, PrintString;
    var t := PrintMembers(members, lay, level);
    var head := PrintString(members[0].key) + [COLON] + AfterColon(lay);
    var first := Print(members[0].value, lay, level + 1);
    if HasString(members[0].value, s) {
      WrittenStrings(members[0].value, lay, level + 1, s);
      var post := t[|head + first|..];
      ContainsWithin(head, first, post, s);
      assert t == head + first + post;
    } else {
      var m :| m in members && HasString(m.value, s);
      assert m in members[1..];
      WrittenInMembers(members[1..], lay, level, s);
      var pre := head + first + ([COMMA] + Gap(lay, level + 1));
      ContainsAfter(pre, PrintMembers(members[1..], lay, level), s);
      assert t == pre + PrintMembers(members[1..], lay, level);
    }
  }

  // --- Looking up the members of an object

  /** `payload.get(key)` on the dictionary read from the members: the last one with the key wins. */
  function Get(members: seq<Member>, key: Text): (v: Option<Value>) {
    if members == [] then None
    else if members[|members| - 1].key == key then Some(members[|members| - 1].value)
    else Get(members[..|members| - 1], key)
  }

  lemma {:induction false} GetAt(members: seq<Member>, i: nat)
    requires i < |members| && forall j :: i < j < |members| ==> members[j].key != members[i].key
    ensures Get(members, members[i].key) == Some(members[i].value)
  {
    if i < |members| - 1 {
      GetAt(members[..|members| - 1], i);
    }
  }

  /** A member that is written only when there is a value for it. */
  function Optional(key: Text, v: Option<Value>): seq<Member> {
    if v.None? then [] else [Member(key, v.value)]
  }

  lemma GetOptional(key: Text, v: Option<Value>, k: Text)
    ensures Get(Optional(key, v), k) == if k == key then v else None
  {
    if v.Some? {
      assert Optional(key, v)[..0] == [];
    }
  }

  lemma {:induction false} GetAppend(a: seq<Member>, b: seq<Member>, key: Text)
    ensures Get(a + b, key) == if Get(b, key).Some? then Get(b, key) else Get(a, key)
  {
    if b == [] {
      assert a + b == a;
    } else {
      assert (a + b)[..|a + b| - 1] == a + b[..|b| - 1];
      GetAppend(a, b[..|b| - 1], key);
    }
  }

  lemma AsciiPairFree(t: Text)
    requires Ascii(t)
    ensures PairFree(t)
  {
  }

  lemma NamedMember(key: Text, v: Value)
    requires Ascii(key) && PairFreeValue(v)
    ensures PairFreeMember(Member(key, v))
  {
    AsciiPairFree(key);
  }

  lemma TextMember(key: Text, s: Text)
    requires Ascii(key) && Ascii(s)
    ensures PairFreeMember(Member(key, Str(s)))
  {
    AsciiPairFree(key);
    AsciiPairFree(s);
  }
}
