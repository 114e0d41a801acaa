/** Canonical training JSONL: written at ingest, read back by the worker. */
module JsonLines {
  import opened Texts
  import opened JsonNumbers
  import opened JsonStrings
  import opened Json
  import opened JsonFacts
  import opened Utf8
  import opened Contracts

  datatype Row = Row(input: Text, instruction: Text, output: Text)

  const LF: CodePoint := 10

  /** A row as `json.dumps(..., sort_keys=True)` sees it. */
  function RowJson(r: Row): Value {
    Obj([Member(Lit("input"), Str(r.input)),
         Member(Lit("instruction"), Str(r.instruction)),
         Member(Lit("output"), Str(r.output))])
  }

  function RowLine(r: Row): Text {
    Dumps(RowJson(r), Compact)
  }

  /** The lines of a list of rows, each with its line break. */
  function JoinedLines(rows: seq<Row>): Text {
    if rows == [] then [] else RowLine(rows[0]) + [LF] + JoinedLines(rows[1..])
  }

  /** `canonical_train_jsonl_bytes`; an empty list of rows is refused. */
  function CanonicalBytes(rows: seq<Row>): (r: Result<Bytes>) {
    if rows == [] then Err(ValidationError)
    else
      var b := Encode(JoinedLines(rows));
      if b.None? then Err(InternalError) else Ok(b.value)
  }

  // --- Reading

  /** The characters at which `str.splitlines` breaks a line. */
  predicate IsLineBreak(c: CodePoint) {
    10 <= c <= 13 || 28 <= c <= 30 || c == 0x85 || c == 0x2028 || c == 0x2029
  }

  /** Universal newlines: `read_text` turns CR LF and CR into LF. */
  function UniversalNewlines(t: Text): Text {
    if t == [] then []
    else if t[0] == 13 && |t| > 1 && t[1] == LF then [LF] + UniversalNewlines(t[2..])
    else if t[0] == 13 then [LF] + UniversalNewlines(t[1..])
    else [t[0]] + UniversalNewlines(t[1..])
  }

  function LineLength(t: Text): (k: nat)
    ensures k <= |t| && (k < |t| ==> IsLineBreak(t[k]))
  {
    if t == [] || IsLineBreak(t[0]) then 0 else 1 + LineLength(t[1..])
  }

  /** `str.splitlines` */
  function SplitLines(t: Text): (lines: seq<Text>)
    decreases |t|
  {
    if t == [] then []
    else
      var k := LineLength(t);
      var next := if k < |t| - 1 && t[k] == 13 && t[k + 1] == LF then k + 2 else k + 1;
      [t[..k]] + if next >= |t| then [] else SplitLines(t[next..])
  }

  /** The rows on some lines: blank lines are skipped, anything but an object is refused. */
  function RowsOfLines(lines: seq<Text>): (r: Result<seq<Value>>) {
    if lines == [] then Ok([])
    else
      var before := RowsOfLines(lines[..|lines| - 1]);
      var line := Strip(lines[|lines| - 1]);
      if before.Err? || line == [] then before
      else if Loads(line).None? || !Loads(line).value.Obj? then Err(InternalError)
      else Ok(before.value + [Loads(line).value])
  }

  /** What `load_train_jsonl` finds in a file: its rows, or an error when it is unreadable or has none. */
  function LoadedRows(file: Option<Bytes>): (r: Result<seq<Value>>) {
    if file.None? || Decode(file.value).None? then Err(InternalError)
    else
      var rows := RowsOfLines(SplitLines(UniversalNewlines(Decode(file.value).value)));
      if rows.Ok? && rows.value == [] then Err(InternalError) else rows
  }

  lemma {:induction false} RowsOfLinesFails(lines: seq<Text>, k: nat)
    requires k <= |lines| && RowsOfLines(lines[..k]).Err?
    ensures RowsOfLines(lines) == RowsOfLines(lines[..k])
    decreases |lines|
  {
    if k == |lines| {
      assert lines[..k] == lines;
    } else {
      assert lines[..|lines| - 1][..k] == lines[..k];
      RowsOfLinesFails(lines[..|lines| - 1], k);
    }
  }

  /** `load_train_jsonl` */
  method LoadTrainJsonl(file: Option<Bytes>) returns (r: Result<seq<Value>>)
    ensures r == LoadedRows(file)
  {
    hide Decode, Loads, Strip, SplitLines, UniversalNewlines;
    if file.None? {
      return Err(InternalError);
    }
    var text := Decode(file.value);
    if text.None? {
      return Err(InternalError);
    }
    var lines := SplitLines(UniversalNewlines(text.value));
    var rows: seq<Value> := [];
    for i := 0 to |lines|
      invariant RowsOfLines(lines[..i]) == Ok(rows)
    {
      assert lines[..i + 1][..i] == lines[..i];
      var line := Strip(lines[i]);
      if line == [] {
        continue;
      }
      var parsed := Loads(line);
      if parsed.None? || !parsed.value.Obj? {
        RowsOfLinesFails(lines, i + 1);
        return Err(InternalError);
      }
      rows := rows + [parsed.value];
    }
    assert lines[..|lines|] == lines;
    if rows == [] {
      return Err(InternalError);
    }
    return Ok(rows);
  }

  // --- Accepting rows

  const MAX_FIELD: int := 16_384
  const MAX_ROWS: int := 10_000

  /** A field of a row: a bounded string free of the forbidden patterns. */
  function ReadField(forbidden: Text -> bool, ms: seq<Member>, key: Text): (t: Option<Text>) {
    var t := GetText(ms, key);
    if t.None? || |t.value| > MAX_FIELD || forbidden(t.value) then None else t
  }

  /** `validate_training_row` */
  function ReadRow(forbidden: Text -> bool, v: Value): (r: Result<Row>) {
    if !v.Obj? then Err(ValidationError)
    else if exists m :: m in v.members && m.key != Lit("input") && m.key != Lit("instruction") && m.key != Lit("output") then Err(ValidationError)
    else
      var input := ReadField(forbidden, v.members, Lit("input"));
      var instruction := ReadField(forbidden, v.members, Lit("instruction"));
      var output := ReadField(forbidden, v.members, Lit("output"));
      if input.None? || instruction.None? || output.None? then Err(ValidationError)
      else Ok(Row(input.value, instruction.value, output.value))
  }

  function ReadRows(forbidden: Text -> bool, items: seq<Value>): (r: Result<seq<Row>>)
    ensures r.Ok? ==> |r.value| == |items|
  {
    if items == [] then Ok([])
    else
      var first := ReadRow(forbidden, items[0]);
      if first.Err? then Err(first.code)
      else
        var more := ReadRows(forbidden, items[1..]);
        if more.Err? then more else Ok([first.value] + more.value)
  }

  /** The rows of `parse_package_ingest_request`: at least one, bounded, and as many as declared. */
  function IngestRows(forbidden: Text -> bool, payload: seq<Member>): (r: Result<seq<Row>>)
    ensures r.Ok? ==> 1 <= |r.value| <= MAX_ROWS
  {
    var items := Get(payload, Lit("rows"));
    var declared := Get(payload, Lit("rowCount"));
    if items.None? || !items.value.Arr? || items.value.items == [] then Err(ValidationError)
    else
      var rows := ReadRows(forbidden, items.value.items);
      if rows.Err? then rows
      else if |rows.value| > MAX_ROWS then Err(ValidationError)
      else if declared.Some? && !declared.value.Null? && declared.value != Num(Int(|rows.value|)) then Err(ValidationError)
      else rows
  }

  // --- The worker reads what ingest wrote

  /** What a reader makes of a row: its surrogate pairs are merged. */
  function JoinedRow(r: Row): Row {
    Row(Joined(r.input), Joined(r.instruction), Joined(r.output))
  }

  predicate PairFreeRow(r: Row) {
    PairFree(r.input) && PairFree(r.instruction) && PairFree(r.output)
  }

  function RowValues(rows: seq<Row>): (vs: seq<Value>)
    ensures |vs| == |rows| && forall i :: 0 <= i < |rows| ==> vs[i] == RowJson(rows[i])
  {
    seq(|rows|, i requires 0 <= i < |rows| => RowJson(rows[i]))
  }

  lemma RowKeysPairFree()
    ensures Joined(Lit("input")) == Lit("input")
    ensures Joined(Lit("instruction")) == Lit("instruction")
    ensures Joined(Lit("output")) == Lit("output")
  {
    AsciiPairFree(Lit("input"));
    AsciiPairFree(Lit("instruction"));
    AsciiPairFree(Lit("output"));
    PairFreeIsJoined(Lit("input"));
    PairFreeIsJoined(Lit("instruction"));
    PairFreeIsJoined(Lit("output"));
  }

  lemma JoinedThree(a: Member, b: Member, c: Member)
    ensures JoinedMembers([a, b, c]) ==
            [Member(Joined(a.key), JoinedValue(a.value)),
             Member(Joined(b.key), JoinedValue(b.value)),
             Member(Joined(c.key), JoinedValue(c.value))]
  {
    hide Joined, JoinedValue;
    assert JoinedMembers([]) == [];
    assert [c][1..] == [];
    assert JoinedMembers([c]) == [Member(Joined(c.key), JoinedValue(c.value))];
    assert [b, c][1..] == [c];
    assert [a, b, c][1..] == [b, c];
  }

  lemma JoinedRowJson(r: Row)
    ensures JoinedValue(RowJson(r)) == RowJson(JoinedRow(r))
  {
    hide Joined, JoinedMembers;
    RowKeysPairFree();
    var ms := RowJson(r).members;
    JoinedThree(ms[0], ms[1], ms[2]);
  }

  lemma RowLineShape(r: Row)
    ensures Printable(RowLine(r)) && |RowLine(r)| >= 2
    ensures RowLine(r)[0] == LBRACE && RowLine(r)[|RowLine(r)| - 1] == RBRACE
  {
    PrintFit(RowJson(r), Compact, 0);
    ObjectShape(RowJson(r).members, Compact);
  }

  lemma ObjectShape(members: seq<Member>, lay: Layout)
    requires members != []
    ensures var t := Dumps(Obj(members), lay); |t| >= 2 && t[0] == LBRACE && t[|t| - 1] == RBRACE
  {
    hide PrintMembers, Edge;
    MembersEnd(members, lay, 0);
  }

  lemma {:induction false} MembersEnd(members: seq<Member>, lay: Layout, level: nat)
    requires members != []
    ensures var t := PrintMembers(members, lay, level); |t| >= 1 && t[|t| - 1] == RBRACE
    decreases |members|
  {
    hide Print, PrintString;
    if |members| > 1 {
      MembersEnd(members[1..], lay, level);
    }
  }

  lemma {:induction false} JoinedLinesAscii(rows: seq<Row>)
    ensures forall i :: 0 <= i < |JoinedLines(rows)| ==>
              JoinedLines(rows)[i] == LF || 32 <= JoinedLines(rows)[i] < 127
  {
    hide RowLine;
    if rows != [] {
      RowLineShape(rows[0]);
      JoinedLinesAscii(rows[1..]);
    }
  }

  lemma {:induction false} NoCarriageReturns(t: Text)
    requires forall i :: 0 <= i < |t| ==> t[i] != 13
    ensures UniversalNewlines(t) == t
  {
    if t != [] {
      NoCarriageReturns(t[1..]);
    }
  }

  lemma {:induction false} LineLengthOf(line: Text, rest: Text)
    requires forall i :: 0 <= i < |line| ==> !IsLineBreak(line[i])
    ensures LineLength(line + [LF] + rest) == |line|
  {
    if line == [] {
    } else {
      assert (line + [LF] + rest)[1..] == line[1..] + [LF] + rest;
      LineLengthOf(line[1..], rest);
    }
  }

  lemma SplitFirst(line: Text, rest: Text)
    requires forall i :: 0 <= i < |line| ==> !IsLineBreak(line[i])
    ensures SplitLines(line + [LF] + rest) == [line] + SplitLines(rest)
  {
    hide LineLength;
    var t := line + [LF] + rest;
    LineLengthOf(line, rest);
    assert t[..|line|] == line;
    assert t[|line| + 1..] == rest;
    assert rest == [] ==> SplitLines(rest) == [];
  }

  function RowLines(rows: seq<Row>): (lines: seq<Text>)
    ensures |lines| == |rows| && forall i :: 0 <= i < |rows| ==> lines[i] == RowLine(rows[i])
  {
    seq(|rows|, i requires 0 <= i < |rows| => RowLine(rows[i]))
  }

  lemma {:induction false} SplitJoinedLines(rows: seq<Row>)
    ensures SplitLines(JoinedLines(rows)) == RowLines(rows)
  {
    hide RowLine, SplitLines;
    if rows == [] {
      EmptySplit();
    } else {
      RowLineShape(rows[0]);
      SplitFirst(RowLine(rows[0]), JoinedLines(rows[1..]));
      SplitJoinedLines(rows[1..]);
      assert RowLines(rows) == [RowLine(rows[0])] + RowLines(rows[1..]);
    }
  }

  lemma EmptySplit()
    ensures SplitLines([]) == []
  {
  }

  lemma RowLineLoads(r: Row)
    ensures Loads(RowLine(r)) == Some(JoinedValue(RowJson(r)))
  {
    LoadsDumps(RowJson(r), Compact, []);
    assert RowLine(r) + [] == RowLine(r);
  }

  lemma RowLineReads(r: Row)
    ensures Strip(RowLine(r)) == RowLine(r)
    ensures Loads(RowLine(r)) == Some(RowJson(JoinedRow(r)))
  {
    hide RowLine, JoinedRow, Loads, Strip, RowJson, JoinedValue;
    RowLineShape(r);
    StripNothing(RowLine(r));
    RowLineLoads(r);
    JoinedRowJson(r);
  }

  function JoinedRows(rows: seq<Row>): (j: seq<Row>)
    ensures |j| == |rows| && forall i :: 0 <= i < |rows| ==> j[i] == JoinedRow(rows[i])
  {
    seq(|rows|, i requires 0 <= i < |rows| => JoinedRow(rows[i]))
  }

  lemma {:induction false} RowLinesRead(rows: seq<Row>)
    ensures RowsOfLines(RowLines(rows)) == Ok(RowValues(JoinedRows(rows)))
    decreases |rows|
  {
    hide RowLine, JoinedRow, Strip, Loads, RowJson;
    if rows != [] {
      var init, last := rows[..|rows| - 1], rows[|rows| - 1];
      RowLinesRead(init);
      assert RowLines(rows)[..|rows| - 1] == RowLines(init);
      RowLineReads(last);
      RowLineShape(last);
      RowIsObject(JoinedRow(last));
      assert RowValues(JoinedRows(rows)) == RowValues(JoinedRows(init)) + [RowJson(JoinedRow(last))];
    }
  }

  lemma RowIsObject(r: Row)
    ensures RowJson(r).Obj?
  {
  }

  /** The worker loads the canonical bytes of any rows as those rows, their surrogate pairs merged. */
  lemma JsonlRoundTrip(rows: seq<Row>)
    requires rows != []
    ensures CanonicalBytes(rows).Ok?
    ensures LoadedRows(Some(CanonicalBytes(rows).value)) == Ok(RowValues(JoinedRows(rows)))
  {
    hide RowsOfLines, SplitLines, JoinedLines, UniversalNewlines, Encode, Decode, RowValues, JoinedRows;
    var t := JoinedLines(rows);
    JoinedLinesAscii(rows);
    EncodeRoundTrip(t);
    NoCarriageReturns(t);
    SplitJoinedLines(rows);
    RowLinesRead(rows);
  }

  lemma RowJsonInjective(r: Row, q: Row)
    requires RowJson(r) == RowJson(q)
    ensures r == q
  {
    assert RowJson(r).members[0] == RowJson(q).members[0];
    assert RowJson(r).members[1] == RowJson(q).members[1];
    assert RowJson(r).members[2] == RowJson(q).members[2];
  }

  /** The rows come back unchanged exactly when no field holds a high surrogate right before a low one. */
  lemma JsonlExactly(rows: seq<Row>)
    requires rows != []
    ensures CanonicalBytes(rows).Ok?
    ensures LoadedRows(Some(CanonicalBytes(rows).value)) == Ok(RowValues(rows)) <==> forall r :: r in rows ==> PairFreeRow(r)
  {
    JsonlRoundTrip(rows);
    var back := JoinedRows(rows);
    forall i | 0 <= i < |rows|
      ensures RowJson(rows[i]) == RowJson(back[i]) <==> PairFreeRow(rows[i])
    {
      JoinedExactly(rows[i].input);
      JoinedExactly(rows[i].instruction);
      JoinedExactly(rows[i].output);
      if RowJson(rows[i]) == RowJson(back[i]) {
        RowJsonInjective(rows[i], back[i]);
      }
    }
    if RowValues(back) == RowValues(rows) {
      forall i | 0 <= i < |rows|
        ensures PairFreeRow(rows[i])
      {
        assert RowValues(back)[i] == RowValues(rows)[i];
      }
    }
    if forall r :: r in rows ==> PairFreeRow(r) {
      assert RowValues(back) == RowValues(rows);
    }
  }

  /** The canonical bytes tell rows without surrogate pairs apart. */
  lemma CanonicalBytesInjective(rows: seq<Row>, others: seq<Row>)
    requires rows != [] && others != []
    requires forall r :: r in rows ==> PairFreeRow(r)
    requires forall r :: r in others ==> PairFreeRow(r)
    requires CanonicalBytes(rows) == CanonicalBytes(others)
    ensures rows == others
  {
    JsonlExactly(rows);
    JsonlExactly(others);
    assert RowValues(rows) == RowValues(others);
    forall i | 0 <= i < |rows|
      ensures |rows| == |others| && rows[i] == others[i]
    {
      assert RowValues(rows)[i] == RowValues(others)[i];
      RowJsonInjective(rows[i], others[i]);
    }
  }

  lemma {:induction false} GetPairFree(ms: seq<Member>, key: Text)
    requires PairFreeMembers(ms)
    ensures Get(ms, key).Some? ==> PairFreeValue(Get(ms, key).value)
  {
    if ms != [] {
      assert PairFreeMember(ms[|ms| - 1]);
      GetPairFree(ms[..|ms| - 1], key);
    }
  }

  lemma ReadRowPairFree(forbidden: Text -> bool, v: Value)
    requires PairFreeValue(v) && ReadRow(forbidden, v).Ok?
    ensures PairFreeRow(ReadRow(forbidden, v).value)
  {
    assert PairFreeMembers(v.members);
    GetPairFree(v.members, Lit("input"));
    GetPairFree(v.members, Lit("instruction"));
    GetPairFree(v.members, Lit("output"));
  }

  lemma {:induction false} ReadRowsPairFree(forbidden: Text -> bool, items: seq<Value>)
    requires PairFreeItems(items) && ReadRows(forbidden, items).Ok?
    ensures forall r :: r in ReadRows(forbidden, items).value ==> PairFreeRow(r)
  {
    hide ReadRow, PairFreeRow, PairFreeValue;
    if items != [] {
      ReadRowPairFree(forbidden, items[0]);
      ReadRowsPairFree(forbidden, items[1..]);
    }
  }

  /** Rows accepted from a request body come back from the worker's loader exactly as they were sent. */
  lemma IngestedRowsRoundTrip(forbidden: Text -> bool, body: Bytes)
    requires Decode(body).Some? && Loads(Decode(body).value).Some?
    requires Loads(Decode(body).value).value.Obj?
    requires IngestRows(forbidden, Loads(Decode(body).value).value.members).Ok?
    ensures var rows := IngestRows(forbidden, Loads(Decode(body).value).value.members).value;
            CanonicalBytes(rows).Ok? && LoadedRows(Some(CanonicalBytes(rows).value)) == Ok(RowValues(rows))
  {
    hide Decode, Loads, CanonicalBytes, LoadedRows, RowValues, Get, ReadRows, PairFreeRow;
    var v := Loads(Decode(body).value).value;
    LoadedValuesRoundTrip(Decode(body).value, Compact, []);
    assert PairFreeMembers(v.members);
    GetPairFree(v.members, Lit("rows"));
    var items := Get(v.members, Lit("rows")).value.items;
    assert PairFreeItems(items);
    ReadRowsPairFree(forbidden, items);
    JsonlExactly(IngestRows(forbidden, v.members).value);
  }
}
