/** `verify_hash_absence`: what it means when the store says that hashes are gone. */
module HashAbsence {
  import opened Texts
  import opened JsonNumbers
  import opened JsonStrings
  import opened Json
  import opened JsonFacts
  import opened Contracts
  import opened StateMachine
  import opened Jobs
  import opened Sorting
  import opened Persistence
  import opened Restarts

  /** `ArtifactMetadata.to_dict`: with the object key. */
  function FullArtifactFields(cal: Calendar, a: Artifact): (fs: seq<Field>)
    ensures |fs| == 9
  {
    ArtifactFields(cal, a) + [Field(Lit("storageKey"), OptionalText(a.storageKey))]
  }

  function FullArtifactsJson(cal: Calendar, artifacts: seq<Artifact>): (vs: seq<Value>)
    ensures |vs| == |artifacts|
    ensures forall i :: 0 <= i < |vs| ==> vs[i] == Obj(Members(FullArtifactFields(cal, artifacts[i])))
  {
    seq(|artifacts|, i requires 0 <= i < |artifacts| => Obj(Members(FullArtifactFields(cal, artifacts[i]))))
  }

  /** The artifacts of every record under its id. */
  function ArtifactsById(cal: Calendar, s: Jobs): (ms: seq<Member>) {
    if s == [] then []
    else ArtifactsById(cal, s[..|s| - 1]) + [Member(s[|s| - 1].id, Arr(FullArtifactsJson(cal, s[|s| - 1].artifacts)))]
  }

  /** The provenance of every record that has one, under its id. */
  function ProvenanceById(cal: Calendar, s: Jobs): (ms: seq<Member>) {
    if s == [] then []
    else
      var r := s[|s| - 1];
      ProvenanceById(cal, s[..|s| - 1])
      + Optional(r.id, if r.provenance.None? then None else Some(ProvenanceJson(cal, r.provenance.value)))
  }

  function PublicJsons(cal: Calendar, s: Jobs): (r: Result<seq<Value>>) {
    if s == [] then Ok([])
    else
      var before := PublicJsons(cal, s[..|s| - 1]);
      var last := PublicJson(cal, s[|s| - 1]);
      if before.Err? then before else if last.Err? then Err(last.code) else Ok(before.value + [last.value])
  }

  /** Everything the store could tell, as one value. */
  function Dump(cal: Calendar, s: Jobs): (r: Result<Value>) {
    var t := SortById(s);
    var views, records := PublicJsons(cal, t), RecordsJson(cal, t);
    if views.Err? then Err(views.code)
    else if records.Err? then Err(records.code)
    else
      Ok(Obj([Member(Lit("artifacts"), Obj(ArtifactsById(cal, t))),
              Member(Lit("jobs"), Arr(views.value)),
              Member(Lit("persisted"), Arr(records.value)),
              Member(Lit("provenance"), Obj(ProvenanceById(cal, t)))]))
  }

  /** `verify_hash_absence`; no hash at all is no evidence. */
  function VerifyAbsence(cal: Calendar, s: Jobs, hashes: seq<Text>): (r: Result<bool>) {
    if forall h :: h in hashes ==> h == [] then Ok(false)
    else
      var dump := Dump(cal, s);
      if dump.Err? then Err(dump.code)
      else
        var output := Dumps(dump.value, Spaced);
        Ok(forall h :: h in hashes && h != [] ==> !Contains(output, h))
  }

  // --- Every hash field is somewhere in the dump

  lemma {:induction false} MemberThere(fs: seq<Field>, i: nat)
    requires i < |fs| && fs[i].value.Some?
    ensures Member(fs[i].key, fs[i].value.value) in Members(fs)
  {
    if i < |fs| - 1 {
      MemberThere(fs[..|fs| - 1], i);
    }
  }

  lemma FieldString(fs: seq<Field>, i: nat, h: Text)
    requires i < |fs| && fs[i].value == TextValue(h)
    ensures HasString(Obj(Members(fs)), h)
  {
    MemberThere(fs, i);
  }

  /** The hash is the dataset or the artifact hash of an artifact, or one of the hashes of the provenance. */
  predicate HoldsHash(r: Record, h: Text) {
    || (exists a :: a in r.artifacts && (a.datasetHash == h || a.artifactHash == h))
    || (r.provenance.Some? && (r.provenance.value.datasetHash == h || r.provenance.value.artifactHash == h
                               || r.provenance.value.trainingConfigHash == h))
  }

  lemma {:induction false} ArtifactsOf(cal: Calendar, s: Jobs, i: nat)
    requires i < |s|
    ensures Member(s[i].id, Arr(FullArtifactsJson(cal, s[i].artifacts))) in ArtifactsById(cal, s)
  {
    if i < |s| - 1 {
      ArtifactsOf(cal, s[..|s| - 1], i);
    }
  }

  lemma {:induction false} ProvenanceOf(cal: Calendar, s: Jobs, i: nat)
    requires i < |s| && s[i].provenance.Some?
    ensures Member(s[i].id, ProvenanceJson(cal, s[i].provenance.value)) in ProvenanceById(cal, s)
  {
    if i < |s| - 1 {
      ProvenanceOf(cal, s[..|s| - 1], i);
    }
  }

  lemma ArtifactHashWritten(cal: Calendar, artifacts: seq<Artifact>, i: nat, h: Text)
    requires i < |artifacts| && (artifacts[i].datasetHash == h || artifacts[i].artifactHash == h)
    ensures HasString(Arr(FullArtifactsJson(cal, artifacts)), h)
  {
    hide Members, HasString;
    var fs := FullArtifactFields(cal, artifacts[i]);
    if artifacts[i].artifactHash == h {
      FieldString(fs, 0, h);
    } else {
      FieldString(fs, 2, h);
    }
    ItemString(FullArtifactsJson(cal, artifacts), i, h);
  }

  lemma ItemString(items: seq<Value>, i: nat, h: Text)
    requires i < |items| && HasString(items[i], h)
    ensures HasString(Arr(items), h)
  {
    assert items[i] in items;
  }

  lemma MemberString(ms: seq<Member>, m: Member, h: Text)
    requires m in ms && HasString(m.value, h)
    ensures HasString(Obj(ms), h)
  {
  }

  lemma ProvenanceHashWritten(cal: Calendar, p: Provenance, h: Text)
    requires p.datasetHash == h || p.artifactHash == h || p.trainingConfigHash == h
    ensures HasString(ProvenanceJson(cal, p), h)
  {
    hide Members, HasString;
    var fs := ProvenanceFields(cal, p);
    if p.artifactHash == h {
      FieldString(fs, 0, h);
    } else if p.datasetHash == h {
      FieldString(fs, 3, h);
    } else {
      FieldString(fs, 6, h);
    }
  }

  lemma HeldHashIsDumped(cal: Calendar, s: Jobs, r: Record, h: Text)
    requires UniqueIds(s) && r in s && HoldsHash(r, h) && Dump(cal, s).Ok?
    ensures HasString(Dump(cal, s).value, h)
  {
    hide SortById, HasString, ArtifactsById, ProvenanceById, FullArtifactsJson, ProvenanceFields, Members,
      PublicJsons, RecordsJson;
    var t := SortById(s);
    SortByIdSorts(s);
    var i: nat :| i < |t| && t[i] == r;
    var ms := Dump(cal, s).value.members;
    if a :| a in r.artifacts && (a.datasetHash == h || a.artifactHash == h) {
      var k: nat :| k < |r.artifacts| && r.artifacts[k] == a;
      ArtifactHashWritten(cal, r.artifacts, k, h);
      ArtifactsOf(cal, t, i);
      MemberString(ArtifactsById(cal, t), Member(r.id, Arr(FullArtifactsJson(cal, r.artifacts))), h);
      MemberString(ms, ms[0], h);
    } else {
      ProvenanceHashWritten(cal, r.provenance.value, h);
      ProvenanceOf(cal, t, i);
      MemberString(ProvenanceById(cal, t), Member(r.id, ProvenanceJson(cal, r.provenance.value)), h);
      MemberString(ms, ms[3], h);
    }
  }

  /**
   Verified deletion is sound: when the store reports the given hashes absent, no record holds any of the
   digests among them in an artifact or provenance field.
   */
  lemma AbsenceIsSound(cal: Calendar, s: Jobs, hashes: seq<Text>, r: Record, h: Text)
    requires UniqueIds(s) && VerifyAbsence(cal, s, hashes) == Ok(true)
    requires r in s && h in hashes && IsHash(h)
    ensures !HoldsHash(r, h)
  {
    hide Dump, Print, Contains, HoldsHash, HasString;
    if HoldsHash(r, h) {
      HeldHashIsDumped(cal, s, r, h);
      WrittenStrings(Dump(cal, s).value, Spaced, 0, h);
    }
  }

  /** The digests are what makes it sound: a text with any character beyond ASCII always counts as absent. */
  lemma AbsenceOfOthersIsVacuous(cal: Calendar, s: Jobs, h: Text)
    requires Dump(cal, s).Ok? && exists c :: c in h && c >= 128
    ensures VerifyAbsence(cal, s, [h]) == Ok(true)
  {
    hide Dump, Print, Contains;
    var c :| c in h && c >= 128;
    var output := Dumps(Dump(cal, s).value, Spaced);
    PrintFit(Dump(cal, s).value, Spaced, 0);
    if Contains(output, h) {
      ContainsOnlyItsLetters(output, h, c);
    }
    assert h in [h];
  }

  // --- Exactly when a digest is reported absent

  lemma {:induction false} ContainsAround(a: Text, c: CodePoint, b: Text, h: Text)
    requires h != [] && c !in h
    ensures Contains(a + [c] + b, h) <==> Contains(a, h) || Contains(b, h)
  {
    var t := a + [c] + b;
    if Contains(a, h) {
      ContainsBefore(a, [c] + b, h);
      assert a + ([c] + b) == t;
    }
    if Contains(b, h) {
      ContainsAfter(a + [c], b, h);
    }
    if Contains(t, h) {
      if a == [] {
        assert t[1..] == b;
        assert !(h <= t) by {
          assert t[0] == c;
        }
      } else if h <= t {
        assert t[|a|] == c;
        assert forall i :: 0 <= i < |h| ==> t[i] == h[i] != c;
        assert h <= a;
      } else {
        assert t[1..] == a[1..] + [c] + b;
        ContainsAround(a[1..], c, b, h);
      }
    }
  }

  lemma NotInNothing(h: Text)
    requires h != []
    ensures !Contains([], h)
  {
  }

  lemma ContainsBehind(c: CodePoint, b: Text, h: Text)
    requires h != [] && c !in h
    ensures Contains([c] + b, h) <==> Contains(b, h)
  {
    hide Contains;
    NotInNothing(h);
    ContainsAround([], c, b, h);
    assert [] + [c] + b == [c] + b;
  }

  lemma ContainsAhead(a: Text, c: CodePoint, h: Text)
    requires h != [] && c !in h
    ensures Contains(a + [c], h) <==> Contains(a, h)
  {
    hide Contains;
    NotInNothing(h);
    ContainsAround(a, c, [], h);
    assert a + [c] + [] == a + [c];
  }

  /** Some string, key or number of the value shows the text when written. */
  predicate Shows(v: Value, h: Text)
    decreases v
  {
    match v
    case Num(n) => Contains(PrintNumber(n), h)
    case Str(s) => Contains(PrintChars(s), h)
    case Arr(items) => exists x :: x in items && Shows(x, h)
    case Obj(members) => exists m :: m in members && (Contains(PrintChars(m.key), h) || Shows(m.value, h))
    case _ => false
  }

  lemma DigestLetters(h: Text)
    requires IsHash(h)
    ensures h != [] && QUOTE !in h && COMMA !in h && COLON !in h && 32 !in h
    ensures LBRACKET !in h && RBRACKET !in h && LBRACE !in h && RBRACE !in h
  {
  }

  lemma {:induction false} TooShort(t: Text, h: Text)
    requires |t| < |h|
    ensures !Contains(t, h)
  {
    if t != [] {
      TooShort(t[1..], h);
    }
  }

  lemma StringShown(s: Text, h: Text)
    requires IsHash(h)
    ensures Contains(PrintString(s), h) <==> Contains(PrintChars(s), h)
  {
    hide Contains, IsHash, PrintChars;
    DigestLetters(h);
    ContainsAhead([QUOTE] + PrintChars(s), QUOTE, h);
    ContainsBehind(QUOTE, PrintChars(s), h);
  }

  /** A digest is somewhere in what is written for a value exactly when a string, key or number of it shows it. */
  lemma {:induction false} ShownExactly(v: Value, level: nat, h: Text)
    requires IsHash(h)
    ensures Contains(Print(v, Spaced, level), h) <==> Shows(v, h)
    decreases v, 1
  {
    hide Contains, IsHash, PrintNumber, PrintString, PrintItems, PrintMembers;
    DigestLetters(h);
    HashLength(h);
    match v
    case Null => TooShort(Lit("null"), h);
    case Bool(b) =>
      TooShort(Lit("true"), h);
      TooShort(Lit("false"), h);
    case Num(n) =>
    case Str(s) => StringShown(s, h);
    case Arr(items) =>
      if items == [] {
        TooShort([LBRACKET, RBRACKET], h);
      } else {
        ItemsShown(items, level, h);
        ContainsBehind(LBRACKET, PrintItems(items, Spaced, level), h);
        assert [LBRACKET] + Edge(Spaced, level + 1) + PrintItems(items, Spaced, level) == [LBRACKET] + PrintItems(items, Spaced, level);
      }
    case Obj(members) =>
      if members == [] {
        TooShort([LBRACE, RBRACE], h);
      } else {
        MembersShown(members, level, h);
        ContainsBehind(LBRACE, PrintMembers(members, Spaced, level), h);
        assert [LBRACE] + Edge(Spaced, level + 1) + PrintMembers(members, Spaced, level) == [LBRACE] + PrintMembers(members, Spaced, level);
      }
  }

  lemma HashLength(h: Text)
    requires IsHash(h)
    ensures |h| == 64
  {
  }

  /** What follows an element: the end, or a comma, a blank and the other elements. */
  lemma TailShown(first: Text, close: CodePoint, rest: Text, h: Text)
    requires h != [] && close !in h && COMMA !in h && 32 !in h
    ensures Contains(first + [close], h) <==> Contains(first, h)
    ensures Contains(first + ([COMMA] + [32] + rest), h) <==> Contains(first, h) || Contains(rest, h)
  {
    hide Contains;
    ContainsAhead(first, close, h);
    ContainsAround(first, COMMA, [32] + rest, h);
    ContainsBehind(32, rest, h);
    assert first + ([COMMA] + [32] + rest) == first + [COMMA] + ([32] + rest);
  }

  lemma {:induction false} ItemsShown(items: seq<Value>, level: nat, h: Text)
    requires IsHash(h) && items != []
    ensures Contains(PrintItems(items, Spaced, level), h) <==> exists x :: x in items && Shows(x, h)
    decreases items, 0
  {
    hide Contains, IsHash, Print, Shows;
    DigestLetters(h);
    var first := Print(items[0], Spaced, level + 1);
    ShownExactly(items[0], level + 1, h);
    assert items == [items[0]] + items[1..];
    if |items| == 1 {
      TailShown(first, RBRACKET, [], h);
      assert first + (Edge(Spaced, level) + [RBRACKET]) == first + [RBRACKET];
    } else {
      ItemsShown(items[1..], level, h);
      TailShown(first, RBRACKET, PrintItems(items[1..], Spaced, level), h);
      assert Gap(Spaced, level + 1) == [32];
    }
  }

  lemma MemberShown(m: Member, printed: Text, h: Text)
    requires IsHash(h)
    ensures Contains(PrintString(m.key) + [COLON] + AfterColon(Spaced) + printed, h) <==>
            Contains(PrintChars(m.key), h) || Contains(printed, h)
  {
    hide Contains, IsHash, PrintString, PrintChars;
    DigestLetters(h);
    StringShown(m.key, h);
    ContainsAround(PrintString(m.key), COLON, [32] + printed, h);
    ContainsBehind(32, printed, h);
    assert PrintString(m.key) + [COLON] + AfterColon(Spaced) + printed == PrintString(m.key) + [COLON] + ([32] + printed);
  }

  lemma {:induction false} MembersShown(members: seq<Member>, level: nat, h: Text)
    requires IsHash(h) && members != []
    ensures Contains(PrintMembers(members, Spaced, level), h) <==>
            exists m :: m in members && (Contains(PrintChars(m.key), h) || Shows(m.value, h))
    decreases members, 0
  {
    hide Contains, IsHash, Print, Shows, PrintString, PrintChars, AfterColon;
    DigestLetters(h);
    var m := members[0];
    var first := PrintString(m.key) + [COLON] + AfterColon(Spaced) + Print(m.value, Spaced, level + 1);
    ShownExactly(m.value, level + 1, h);
    MemberShown(m, Print(m.value, Spaced, level + 1), h);
    assert members == [m] + members[1..];
    if |members| == 1 {
      TailShown(first, RBRACE, [], h);
      assert PrintMembers(members, Spaced, level) == first + [RBRACE];
    } else {
      MembersShown(members[1..], level, h);
      TailShown(first, RBRACE, PrintMembers(members[1..], Spaced, level), h);
      assert Gap(Spaced, level + 1) == [32];
      assert PrintMembers(members, Spaced, level) == first + ([COMMA] + [32] + PrintMembers(members[1..], Spaced, level));
    }
  }

  /** Digests are reported absent exactly when there is one and no string, key or number of the dump shows any of them. */
  lemma AbsenceExactly(cal: Calendar, s: Jobs, hashes: seq<Text>)
    requires Dump(cal, s).Ok? && forall h :: h in hashes ==> IsHash(h)
    ensures VerifyAbsence(cal, s, hashes) == Ok(true) <==>
            hashes != [] && forall h :: h in hashes ==> !Shows(Dump(cal, s).value, h)
  {
    hide Dump, Print, Contains, Shows, IsHash;
    forall h | h in hashes
      ensures h != [] && (Contains(Dumps(Dump(cal, s).value, Spaced), h) <==> Shows(Dump(cal, s).value, h))
    {
      DigestLetters(h);
      ShownExactly(Dump(cal, s).value, 0, h);
    }
    if hashes != [] {
      assert hashes[0] in hashes;
    }
  }

  /** While any record holds one of the digests, they are not reported absent. */
  lemma PresenceIsReported(cal: Calendar, s: Jobs, hashes: seq<Text>, r: Record, h: Text)
    requires UniqueIds(s) && Dump(cal, s).Ok? && r in s && HoldsHash(r, h) && h in hashes && IsHash(h)
    ensures VerifyAbsence(cal, s, hashes) == Ok(false)
  {
    hide Dump, Print, Contains, HoldsHash, IsHash;
    DigestLetters(h);
    if VerifyAbsence(cal, s, hashes) == Ok(true) {
      AbsenceIsSound(cal, s, hashes, r, h);
    }
  }
}
