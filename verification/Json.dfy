/**
 JSON as the program writes it (`json.dumps` with `ensure_ascii` in three layouts) and reads it back
 (`json.loads`), with the theorem that reading undoes writing.
 */
module Json {
  import opened Texts
  import opened JsonNumbers
  import opened JsonStrings

  /** A value; the members of an object stand in the order they are written or read. */
  datatype Value =
    | Null
    | Bool(b: bool)
    | Num(n: Number)
    | Str(s: Text)
    | Arr(items: seq<Value>)
    | Obj(members: seq<Member>)

  datatype Member = Member(key: Text, value: Value)

  /** `separators=(",", ":")`, the default separators, and `indent=2`. */
  datatype Layout = Compact | Spaced | Indented

  const COMMA: CodePoint := 44
  const COLON: CodePoint := 58
  const LBRACKET: CodePoint := 91
  const RBRACKET: CodePoint := 93
  const LBRACE: CodePoint := 123
  const RBRACE: CodePoint := 125

  predicate IsBlank(c: CodePoint) {
    c == 32 || c == 9 || c == 10 || c == 13
  }

  predicate Blank(t: Text) {
    forall i :: 0 <= i < |t| ==> IsBlank(t[i])
  }

  /** A line break and the indentation of a nesting level, in the indented layout. */
  function Edge(lay: Layout, level: nat): (t: Text)
    ensures Blank(t)
  {
    if lay.Indented? then [10] + seq(2 * level, _ => 32) else []
  }

  function Gap(lay: Layout, level: nat): (t: Text)
    ensures Blank(t)
  {
    if lay.Spaced? then [32] else Edge(lay, level)
  }

  function AfterColon(lay: Layout): (t: Text)
    ensures Blank(t)
  {
    if lay.Compact? then [] else [32]
  }

  function Print(v: Value, lay: Layout, level: nat): (t: Text)
    decreases v, 1
  {
    match v
    case Null => Lit("null")
    case Bool(b) => if b then Lit("true") else Lit("false")
    case Num(n) => PrintNumber(n)
    case Str(s) => PrintString(s)
    case Arr(items) =>
      if items == [] then [LBRACKET, RBRACKET]
      else [LBRACKET] + Edge(lay, level + 1) + PrintItems(items, lay, level)
    case Obj(members) =>
      if members == [] then [LBRACE, RBRACE]
      else [LBRACE] + Edge(lay, level + 1) + PrintMembers(members, lay, level)
  }

  /** The items of an array with the separators between them, up to and with the closing bracket. */
  function PrintItems(items: seq<Value>, lay: Layout, level: nat): (t: Text)
    requires items != []
    decreases items, 0
  {
    Print(items[0], lay, level + 1) +
    if |items| == 1 then Edge(lay, level) + [RBRACKET]
    else [COMMA] + Gap(lay, level + 1) + PrintItems(items[1..], lay, level)
  }

  function PrintMembers(members: seq<Member>, lay: Layout, level: nat): (t: Text)
    requires members != []
    decreases members, 0
  {
    PrintString(members[0].key) + [COLON] + AfterColon(lay) + Print(members[0].value, lay, level + 1) +
    if |members| == 1 then Edge(lay, level) + [RBRACE]
    else [COMMA] + Gap(lay, level + 1) + PrintMembers(members[1..], lay, level)
  }

  /** `json.dumps` */
  function Dumps(v: Value, lay: Layout): Text
  {
    Print(v, lay, 0)
  }

  function SkipBlanks(t: Text): (r: Text)
    ensures |r| <= |t|
    ensures r != [] ==> !IsBlank(r[0])
    ensures r == t[|t| - |r|..]
  {
    if t != [] && IsBlank(t[0]) then SkipBlanks(t[1..]) else t
  }

  function Word(t: Text, w: Text, v: Value): (r: Option<(Value, Text)>)
    requires w != []
    ensures r.Some? ==> |r.value.1| < |t| && r.value.0 == v
  {
    if w <= t then Some((v, t[|w|..])) else None
  }

  /** One value at the head of a text, and what follows it. */
  function Parse(t: Text): (r: Option<(Value, Text)>)
    ensures r.Some? ==> |r.value.1| < |t|
    decreases |t|, 0
  {
    if t == [] then None
    else if t[0] == QUOTE then
      var r := ParseChars(t[1..]);
      if r.None? then None else Some((Str(r.value.0), r.value.1))
    else if t[0] == LBRACKET then
      var u := SkipBlanks(t[1..]);
      if u != [] && u[0] == RBRACKET then Some((Arr([]), u[1..]))
      else
        var r := ParseItems(u);
        if r.None? then None else Some((Arr(r.value.0), r.value.1))
    else if t[0] == LBRACE then
      var u := SkipBlanks(t[1..]);
      if u != [] && u[0] == RBRACE then Some((Obj([]), u[1..]))
      else
        var r := ParseMembers(u);
        if r.None? then None else Some((Obj(r.value.0), r.value.1))
    else if t[0] == 110 then Word(t, Lit("null"), Null)
    else if t[0] == 116 then Word(t, Lit("true"), Bool(true))
    else if t[0] == 102 then Word(t, Lit("false"), Bool(false))
    else
      var r := ParseNumber(t);
      if r.None? then None else Some((Num(r.value.0), r.value.1))
  }

  /** After an element: whether another one follows, and the text from there; the closing bracket ends them. */
  function Delimiter(t: Text, close: CodePoint): (r: Option<(bool, Text)>)
    ensures r.Some? ==> |r.value.1| < |t|
  {
    var u := SkipBlanks(t);
    if u == [] then None
    else if u[0] == close then Some((false, u[1..]))
    else if u[0] == COMMA then Some((true, SkipBlanks(u[1..])))
    else None
  }

  function ConsItem(v: Value, r: Option<(seq<Value>, Text)>): (all: Option<(seq<Value>, Text)>) {
    if r.None? then None else Some(([v] + r.value.0, r.value.1))
  }

  function ConsMember(m: Member, r: Option<(seq<Member>, Text)>): (all: Option<(seq<Member>, Text)>) {
    if r.None? then None else Some(([m] + r.value.0, r.value.1))
  }

  function ParseItems(t: Text): (r: Option<(seq<Value>, Text)>)
    ensures r.Some? ==> |r.value.1| < |t|
    decreases |t|, 1
  {
    var first := Parse(t);
    if first.None? then None
    else
      var d := Delimiter(first.value.1, RBRACKET);
      if d.None? then None
      else if !d.value.0 then Some(([first.value.0], d.value.1))
      else
        ConsItem(first.value.0, ParseItems(d.value.1))
  }

  /** A colon with blanks around it. */
  function SkipColon(t: Text): (r: Option<Text>)
    ensures r.Some? ==> |r.value| < |t|
  {
    var u := SkipBlanks(t);
    if u == [] || u[0] != COLON then None else Some(SkipBlanks(u[1..]))
  }

  /** A key, its colon and its value. */
  function ParseMember(t: Text): (r: Option<(Member, Text)>)
    ensures r.Some? ==> |r.value.1| < |t|
    decreases |t|, 1
  {
    if t == [] || t[0] != QUOTE then None
    else
      var key := ParseChars(t[1..]);
      if key.None? || SkipColon(key.value.1).None? then None
      else
        var v := Parse(SkipColon(key.value.1).value);
        if v.None? then None else Some((Member(key.value.0, v.value.0), v.value.1))
  }

  function ParseMembers(t: Text): (r: Option<(seq<Member>, Text)>)
    ensures r.Some? ==> |r.value.1| < |t|
    decreases |t|, 2
  {
    var first := ParseMember(t);
    if first.None? then None
    else
      var d := Delimiter(first.value.1, RBRACE);
      if d.None? then None
      else if !d.value.0 then Some(([first.value.0], d.value.1))
      else
        ConsMember(first.value.0, ParseMembers(d.value.1))
  }

  /** `json.loads`: one value with blanks around it and nothing else. */
  function Loads(t: Text): (r: Option<Value>)
  {
    var r := Parse(SkipBlanks(t));
    if r.Some? && SkipBlanks(r.value.1) == [] then Some(r.value.0) else None
  }

  /** The value with the surrogate pairs of all its strings merged. */
  function JoinedValue(v: Value): (j: Value)
    decreases v, 1
  {
    match v
    case Str(s) => Str(Joined(s))
    case Arr(items) => Arr(JoinedItems(items))
    case Obj(members) => Obj(JoinedMembers(members))
    case _ => v
  }

  function JoinedItems(items: seq<Value>): (j: seq<Value>)
    ensures |j| == |items|
    decreases items, 0
  {
    if items == [] then [] else [JoinedValue(items[0])] + JoinedItems(items[1..])
  }

  function JoinedMembers(members: seq<Member>): (j: seq<Member>)
    ensures |j| == |members|
    decreases members, 0
  {
    if members == [] then []
    else [Member(Joined(members[0].key), JoinedValue(members[0].value))] + JoinedMembers(members[1..])
  }

  // --- Reading undoes writing

  predicate EndsValue(rest: Text) {
    rest == [] || IsBlank(rest[0]) || rest[0] == COMMA || rest[0] == RBRACKET || rest[0] == RBRACE
  }

  /** The first character of a value: neither a blank nor a closing bracket. */
  predicate StartsValue(t: Text) {
    t != [] && !IsBlank(t[0]) && t[0] != RBRACKET && t[0] != RBRACE
  }

  lemma {:induction false} SkipBlanksOver(b: Text, rest: Text)
    requires Blank(b) && (rest == [] || !IsBlank(rest[0]))
    ensures SkipBlanks(b + rest) == rest
  {
    if b == [] {
      assert b + rest == rest;
    } else {
      assert (b + rest)[1..] == b[1..] + rest;
      SkipBlanksOver(b[1..], rest);
    }
  }

  lemma PrintStarts(v: Value, lay: Layout, level: nat)
    ensures StartsValue(Print(v, lay, level))
  {
  }

  lemma ItemsStart(items: seq<Value>, lay: Layout, level: nat)
    requires items != []
    ensures StartsValue(PrintItems(items, lay, level))
  {
    PrintStarts(items[0], lay, level + 1);
  }

  lemma MembersStart(members: seq<Member>, lay: Layout, level: nat)
    requires members != []
    ensures StartsValue(PrintMembers(members, lay, level))
    ensures PrintMembers(members, lay, level)[0] == QUOTE
  {
  }

  lemma WordRoundTrip(w: Text, v: Value, rest: Text)
    requires w != []
    ensures Word(w + rest, w, v) == Some((v, rest))
  {
    assert (w + rest)[|w|..] == rest;
  }

  lemma WordsRoundTrip(v: Value, rest: Text)
    requires v.Null? || v.Bool?
    ensures Parse(Print(v, Compact, 0) + rest) == Some((v, rest))
  {
    hide ParseItems, ParseMembers, ParseNumber, ParseChars, Word;
    WordRoundTrip(Lit("null"), Null, rest);
    WordRoundTrip(Lit("true"), Bool(true), rest);
    WordRoundTrip(Lit("false"), Bool(false), rest);
  }

  lemma ParseStr(t: Text)
    requires t != [] && t[0] == QUOTE && ParseChars(t[1..]).Some?
    ensures Parse(t) == Some((Str(ParseChars(t[1..]).value.0), ParseChars(t[1..]).value.1))
  {
    hide ParseItems, ParseMembers, ParseNumber, ParseChars, Word;
  }

  lemma ParseNum(t: Text)
    requires t != [] && (t[0] == MINUS || IsDigit(t[0])) && ParseNumber(t).Some?
    ensures Parse(t) == Some((Num(ParseNumber(t).value.0), ParseNumber(t).value.1))
  {
    hide ParseItems, ParseMembers, ParseNumber, ParseChars, Word;
  }

  lemma AtomRoundTrip(v: Value, rest: Text)
    requires EndsValue(rest) && (v.Null? || v.Bool? || v.Num? || v.Str?)
    ensures Parse(Print(v, Compact, 0) + rest) == Some((JoinedValue(v), rest))
  {
    var t := Print(v, Compact, 0) + rest;
    match v
    case Null => WordsRoundTrip(v, rest);
    case Bool(b) => WordsRoundTrip(v, rest);
    case Num(n) =>
      NumberRoundTrip(n, rest);
      ParseNum(t);
    case Str(s) =>
      StringRoundTrip(s, rest);
      ParseStr(t);
  }

  lemma ParseArr(pad: Text, body: Text)
    requires Blank(pad) && StartsValue(body) && ParseItems(body).Some?
    ensures Parse([LBRACKET] + pad + body) == Some((Arr(ParseItems(body).value.0), ParseItems(body).value.1))
  {
    hide ParseItems, ParseMembers, ParseNumber, ParseChars, Word;
    assert ([LBRACKET] + pad + body)[1..] == pad + body;
    SkipBlanksOver(pad, body);
  }

  lemma ParseObj(pad: Text, body: Text)
    requires Blank(pad) && StartsValue(body) && ParseMembers(body).Some?
    ensures Parse([LBRACE] + pad + body) == Some((Obj(ParseMembers(body).value.0), ParseMembers(body).value.1))
  {
    hide ParseItems, ParseMembers, ParseNumber, ParseChars, Word;
    assert ([LBRACE] + pad + body)[1..] == pad + body;
    SkipBlanksOver(pad, body);
  }

  lemma ParseEmptyArr(rest: Text)
    ensures Parse([LBRACKET, RBRACKET] + rest) == Some((Arr([]), rest))
  {
    hide ParseItems, ParseMembers, ParseNumber, ParseChars, Word;
    var t := [LBRACKET, RBRACKET] + rest;
    var u := [RBRACKET] + rest;
    assert t[1..] == u && u[1..] == rest;
    assert SkipBlanks(u) == u;
  }

  lemma ParseEmptyObj(rest: Text)
    ensures Parse([LBRACE, RBRACE] + rest) == Some((Obj([]), rest))
  {
    hide ParseItems, ParseMembers, ParseNumber, ParseChars, Word;
    var t := [LBRACE, RBRACE] + rest;
    var u := [RBRACE] + rest;
    assert t[1..] == u && u[1..] == rest;
    assert SkipBlanks(u) == u;
  }

  lemma DelimiterClose(pad: Text, close: CodePoint, rest: Text)
    requires Blank(pad) && !IsBlank(close)
    ensures Delimiter(pad + ([close] + rest), close) == Some((false, rest))
  {
    SkipBlanksOver(pad, [close] + rest);
    assert ([close] + rest)[1..] == rest;
  }

  lemma DelimiterComma(pad: Text, close: CodePoint, more: Text)
    requires Blank(pad) && StartsValue(more) && close != COMMA
    ensures Delimiter([COMMA] + (pad + more), close) == Some((true, more))
  {
    var after := [COMMA] + (pad + more);
    assert SkipBlanks(after) == after;
    assert after[1..] == pad + more;
    SkipBlanksOver(pad, more);
  }

  lemma LastItem(t: Text, v: Value, pad: Text, rest: Text)
    requires Blank(pad) && Parse(t) == Some((v, pad + ([RBRACKET] + rest)))
    ensures ParseItems(t) == Some(([v], rest))
  {
    hide Parse, Delimiter;
    DelimiterClose(pad, RBRACKET, rest);
  }

  lemma NextItem(t: Text, v: Value, pad: Text, more: Text)
    requires Blank(pad) && StartsValue(more)
    requires Parse(t) == Some((v, [COMMA] + (pad + more)))
    requires ParseItems(more).Some?
    ensures ParseItems(t) == Some(([v] + ParseItems(more).value.0, ParseItems(more).value.1))
  {
    hide Parse, Delimiter;
    DelimiterComma(pad, RBRACKET, more);
  }

  lemma LastMember(t: Text, m: Member, pad: Text, rest: Text)
    requires Blank(pad) && ParseMember(t) == Some((m, pad + ([RBRACE] + rest)))
    ensures ParseMembers(t) == Some(([m], rest))
  {
    hide ParseMember, Delimiter;
    DelimiterClose(pad, RBRACE, rest);
  }

  lemma NextMember(t: Text, m: Member, pad: Text, more: Text)
    requires Blank(pad) && StartsValue(more)
    requires ParseMember(t) == Some((m, [COMMA] + (pad + more)))
    requires ParseMembers(more).Some?
    ensures ParseMembers(t) == Some(([m] + ParseMembers(more).value.0, ParseMembers(more).value.1))
  {
    hide ParseMember, Delimiter;
    DelimiterComma(pad, RBRACE, more);
  }

  lemma SkipColonOver(pad: Text, printed: Text)
    requires Blank(pad) && StartsValue(printed)
    ensures SkipColon([COLON] + (pad + printed)) == Some(printed)
  {
    var colon := [COLON] + (pad + printed);
    assert SkipBlanks(colon) == colon;
    assert colon[1..] == pad + printed;
    SkipBlanksOver(pad, printed);
  }

  lemma KeyAndValue(t: Text, key: Text, pad: Text, printed: Text)
    requires t != [] && t[0] == QUOTE
    requires ParseChars(t[1..]) == Some((key, [COLON] + (pad + printed)))
    requires Blank(pad) && StartsValue(printed) && Parse(printed).Some?
    ensures ParseMember(t) == Some((Member(key, Parse(printed).value.0), Parse(printed).value.1))
  {
    hide Parse, ParseChars, SkipColon;
    SkipColonOver(pad, printed);
  }

  /** Reading a printed value gives that value, its surrogate pairs merged, and leaves what follows. */
  lemma {:induction false} ValueRoundTrip(v: Value, lay: Layout, level: nat, rest: Text)
    requires EndsValue(rest)
    ensures Parse(Print(v, lay, level) + rest) == Some((JoinedValue(v), rest))
    decreases v, 1
  {
    hide Parse, ParseItems, ParseMembers, PrintItems, PrintMembers, Edge;
    match v
    case Arr(items) =>
      if items == [] {
        ParseEmptyArr(rest);
      } else {
        var pad, body := Edge(lay, level + 1), PrintItems(items, lay, level) + rest;
        ItemsStart(items, lay, level);
        ItemsRoundTrip(items, lay, level, rest);
        ParseArr(pad, body);
        assert Print(v, lay, level) + rest == [LBRACKET] + pad + body;
      }
    case Obj(members) =>
      if members == [] {
        ParseEmptyObj(rest);
      } else {
        var pad, body := Edge(lay, level + 1), PrintMembers(members, lay, level) + rest;
        MembersStart(members, lay, level);
        MembersRoundTrip(members, lay, level, rest);
        ParseObj(pad, body);
        assert Print(v, lay, level) + rest == [LBRACE] + pad + body;
      }
    case _ => AtomRoundTrip(v, rest);
  }

  lemma {:induction false} ItemsRoundTrip(items: seq<Value>, lay: Layout, level: nat, rest: Text)
    requires items != []
    requires EndsValue(rest)
    ensures ParseItems(PrintItems(items, lay, level) + rest) == Some((JoinedItems(items), rest))
    decreases items, 0
  {
    hide Parse, ParseItems, Print, JoinedValue, Edge, Gap;
    var t := PrintItems(items, lay, level) + rest;
    var first := Print(items[0], lay, level + 1);
    if |items| == 1 {
      var after := Edge(lay, level) + ([RBRACKET] + rest);
      assert t == first + after;
      ValueRoundTrip(items[0], lay, level + 1, after);
      LastItem(t, JoinedValue(items[0]), Edge(lay, level), rest);
      assert JoinedItems(items[1..]) == [];
      assert [JoinedValue(items[0])] + [] == [JoinedValue(items[0])];
    } else {
      var more := PrintItems(items[1..], lay, level) + rest;
      var after := [COMMA] + (Gap(lay, level + 1) + more);
      assert t == first + after;
      ValueRoundTrip(items[0], lay, level + 1, after);
      ItemsStart(items[1..], lay, level);
      ItemsRoundTrip(items[1..], lay, level, rest);
      NextItem(t, JoinedValue(items[0]), Gap(lay, level + 1), more);
    }
  }

  lemma {:induction false} MemberRoundTrip(m: Member, lay: Layout, level: nat, after: Text)
    requires EndsValue(after)
    ensures ParseMember(PrintString(m.key) + [COLON] + AfterColon(lay) + Print(m.value, lay, level) + after) ==
            Some((Member(Joined(m.key), JoinedValue(m.value)), after))
    decreases m, 2
  {
    hide Parse, ParseMember, Print, JoinedValue, PrintString, ParseChars;
    var printed := Print(m.value, lay, level) + after;
    var colon := [COLON] + (AfterColon(lay) + printed);
    var t := PrintString(m.key) + colon;
    assert t == PrintString(m.key) + [COLON] + AfterColon(lay) + Print(m.value, lay, level) + after;
    StringRoundTrip(m.key, colon);
    PrintStarts(m.value, lay, level);
    ValueRoundTrip(m.value, lay, level, after);
    KeyAndValue(t, Joined(m.key), AfterColon(lay), printed);
  }

  lemma {:induction false} MembersRoundTrip(members: seq<Member>, lay: Layout, level: nat, rest: Text)
    requires members != []
    requires EndsValue(rest)
    ensures ParseMembers(PrintMembers(members, lay, level) + rest) == Some((JoinedMembers(members), rest))
    decreases members, 0
  {
    hide ParseMember, ParseMembers, Print, JoinedValue, Joined, PrintString, Edge, Gap;
    var t := PrintMembers(members, lay, level) + rest;
    var m := members[0];
    var head := PrintString(m.key) + [COLON] + AfterColon(lay) + Print(m.value, lay, level + 1);
    var joined := Member(Joined(m.key), JoinedValue(m.value));
    if |members| == 1 {
      var after := Edge(lay, level) + ([RBRACE] + rest);
      assert t == head + after;
      MemberRoundTrip(m, lay, level + 1, after);
      LastMember(t, joined, Edge(lay, level), rest);
      assert JoinedMembers(members[1..]) == [];
      assert [joined] + [] == [joined];
    } else {
      var more := PrintMembers(members[1..], lay, level) + rest;
      var after := [COMMA] + (Gap(lay, level + 1) + more);
      assert t == head + after;
      MemberRoundTrip(m, lay, level + 1, after);
      MembersStart(members[1..], lay, level);
      MembersRoundTrip(members[1..], lay, level, rest);
      NextMember(t, joined, Gap(lay, level + 1), more);
    }
  }

  /** `json.loads` undoes `json.dumps` in every layout, blanks behind the text included. */
  lemma LoadsDumps(v: Value, lay: Layout, tail: Text)
    requires Blank(tail)
    ensures Loads(Dumps(v, lay) + tail) == Some(JoinedValue(v))
  {
    hide Parse, Print, JoinedValue;
    var t := Dumps(v, lay) + tail;
    PrintStarts(v, lay, 0);
    SkipBlanksOver([], t);
    assert [] + t == t;
    ValueRoundTrip(v, lay, 0, tail);
    SkipBlanksOver(tail, []);
    assert tail + [] == tail;
  }
}
