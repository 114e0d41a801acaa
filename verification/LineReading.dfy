/** How the worker reads any file of lines, canonical or not: piece by piece, whatever the pieces are. */
module LineReading {
  import opened Texts
  import opened JsonNumbers
  import opened JsonStrings
  import opened Json
  import opened JsonFacts
  import opened Utf8
  import opened Contracts
  import opened JsonLines

  predicate Unbroken(line: Text) {
    forall i :: 0 <= i < |line| ==> !IsLineBreak(line[i])
  }

  lemma {:induction false} LengthOf(line: Text, c: CodePoint, rest: Text)
    requires Unbroken(line) && IsLineBreak(c)
    ensures LineLength(line + [c] + rest) == |line| && LineLength(line) == |line|
  {
    if line != [] {
      assert (line + [c] + rest)[1..] == line[1..] + [c] + rest;
      LengthOf(line[1..], c, rest);
    }
  }

  /** A line ends at each break; carriage return and line feed together are one break; the last line needs none. */
  lemma LinesBreak(line: Text, c: CodePoint, rest: Text)
    requires Unbroken(line) && IsLineBreak(c)
    ensures SplitLines(line) == if line == [] then [] else [line]
    ensures !(c == 13 && rest != [] && rest[0] == LF) ==> SplitLines(line + [c] + rest) == [line] + SplitLines(rest)
    ensures SplitLines(line + [13] + ([LF] + rest)) == [line] + SplitLines(rest)
  {
    hide LineLength, IsLineBreak;
    LengthOf(line, c, rest);
    BreaksAre();
    LengthOf(line, 13, [LF] + rest);
    var t, u := line + [c] + rest, line + [13] + ([LF] + rest);
    assert t[..|line|] == line && t[|line| + 1..] == rest;
    assert u[..|line|] == line && u[|line| + 2..] == rest;
    assert line[..|line|] == line;
    assert rest == [] ==> SplitLines(rest) == [];
  }

  lemma BreaksAre()
    ensures IsLineBreak(13) && IsLineBreak(LF)
  {
  }

  /** In a text file every carriage return, with a line feed behind it or not, reads as a line feed. */
  lemma {:induction false} NewlinesAreUniversal(t: Text, rest: Text)
    requires forall i :: 0 <= i < |t| ==> t[i] != 13
    ensures rest == [] || rest[0] != LF ==> UniversalNewlines(t + [13] + rest) == t + [LF] + UniversalNewlines(rest)
    ensures UniversalNewlines(t + [13, LF] + rest) == t + [LF] + UniversalNewlines(rest)
  {
    if t == [] {
      assert [] + [13] + rest == [13] + rest && ([13] + rest)[1..] == rest;
      assert [] + [13, LF] + rest == [13, LF] + rest && ([13, LF] + rest)[2..] == rest;
    } else {
      assert (t + [13] + rest)[1..] == t[1..] + [13] + rest;
      assert (t + [13, LF] + rest)[1..] == t[1..] + [13, LF] + rest;
      NewlinesAreUniversal(t[1..], rest);
    }
  }

  /** One line: nothing when blank, its object, or an error. */
  lemma OneLine(line: Text)
    ensures Strip(line) == [] ==> RowsOfLines([line]) == Ok([])
    ensures Strip(line) != [] ==>
              var v := Loads(Strip(line));
              RowsOfLines([line]) == if v.Some? && v.value.Obj? then Ok([v.value]) else Err(InternalError)
  {
    hide Strip, Loads;
    var none: seq<Text>, nothing: seq<Value> := [], [];
    assert [line][..0] == none && RowsOfLines(none) == Ok(nothing);
    if Loads(Strip(line)).Some? {
      assert nothing + [Loads(Strip(line)).value] == [Loads(Strip(line)).value];
    }
  }

  /** The rows of some lines are those of the first of them and then those of the others; any error is the whole's. */
  lemma {:induction false} LinesCompose(a: seq<Text>, b: seq<Text>)
    ensures RowsOfLines(a + b) ==
            if RowsOfLines(a).Err? || RowsOfLines(b).Err? then Err(InternalError)
            else Ok(RowsOfLines(a).value + RowsOfLines(b).value)
    decreases |b|
  {
    hide Strip, Loads;
    if b == [] {
      var nothing: seq<Value> := [];
      assert a + b == a && RowsOfLines(b) == Ok(nothing);
      assert RowsOfLines(a).Ok? ==> RowsOfLines(a).value + nothing == RowsOfLines(a).value;
      ErrorsAre(a);
    } else {
      var n := |b| - 1;
      LinesCompose(a, b[..n]);
      assert (a + b)[..|a + b| - 1] == a + b[..n] && (a + b)[|a + b| - 1] == b[n];
      ErrorsAre(b[..n]);
      ErrorsAre(a);
      if RowsOfLines(a).Ok? && RowsOfLines(b).Ok? && RowsOfLines(b) != RowsOfLines(b[..n]) {
        var last := RowsOfLines(b).value[|RowsOfLines(b).value| - 1];
        assert RowsOfLines(a).value + (RowsOfLines(b[..n]).value + [last])
            == RowsOfLines(a).value + RowsOfLines(b[..n]).value + [last];
      }
    }
  }

  lemma {:induction false} ErrorsAre(lines: seq<Text>)
    ensures RowsOfLines(lines).Err? ==> RowsOfLines(lines).code == InternalError
  {
    hide Strip, Loads;
    if lines != [] {
      ErrorsAre(lines[..|lines| - 1]);
    }
  }
}
