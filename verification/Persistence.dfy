/** The store file: what `_save` writes, what `_load` makes of it, and that the one undoes the other. */
module Persistence {
  import opened Texts
  import opened JsonNumbers
  import opened JsonStrings
  import opened Json
  import opened JsonFacts
  import opened Contracts
  import opened StateMachine
  import opened Jobs
  import opened JobInvariants
  import opened Sorting
  import opened Tokens

  /** How instants are written and read. */
  datatype Calendar = Calendar(show: int -> Text, parse: Text -> Option<int>)

  /** The first second of the year 1 and the last one of the year 9999, counted from 1970. */
  const FIRST_INSTANT := -62_135_596_800
  const LAST_INSTANT := 253_402_300_799

  predicate InCalendar(t: int) {
    FIRST_INSTANT <= t <= LAST_INSTANT
  }

  /** Instants of the calendar are written in ASCII and read back as themselves. */
  ghost predicate Faithful(cal: Calendar) {
    forall t: int :: InCalendar(t) ==> Ascii(cal.show(t)) && cal.parse(cal.show(t)) == Some(t)
  }

  predicate DatedArtifact(a: Artifact) {
    InCalendar(a.createdAt) && InCalendar(a.createdAt + a.retention.ttl)
  }

  /** Every instant written for the record is in the calendar. */
  predicate Dated(r: Record) {
    && InCalendar(r.createdAt)
    && InCalendar(r.updatedAt)
    && (r.deletedAt.Some? ==> InCalendar(r.deletedAt.value))
    && (r.provenance.Some? ==> InCalendar(r.provenance.value.createdAt))
    && forall i :: 0 <= i < |r.artifacts| ==> DatedArtifact(r.artifacts[i])
  }

  predicate AllDated(s: Jobs) {
    forall i :: 0 <= i < |s| ==> Dated(s[i])
  }

  // --- Objects with optional members

  datatype Field = Field(key: Text, value: Option<Value>)

  /** The members of the fields that have a value. */
  function Members(fs: seq<Field>): (ms: seq<Member>) {
    if fs == [] then [] else Members(fs[..|fs| - 1]) + Optional(fs[|fs| - 1].key, fs[|fs| - 1].value)
  }

  predicate DistinctKeys(fs: seq<Field>) {
    forall i, j :: 0 <= i < j < |fs| ==> fs[i].key != fs[j].key
  }

  lemma {:induction false} NoField(fs: seq<Field>, key: Text)
    requires forall j :: 0 <= j < |fs| ==> fs[j].key != key
    ensures Get(Members(fs), key).None?
  {
    if fs != [] {
      NoField(fs[..|fs| - 1], key);
      GetAppend(Members(fs[..|fs| - 1]), Optional(fs[|fs| - 1].key, fs[|fs| - 1].value), key);
      GetOptional(fs[|fs| - 1].key, fs[|fs| - 1].value, key);
    }
  }

  /** Looking a field up finds its value, if it has one. */
  lemma {:induction false} FieldValue(fs: seq<Field>, i: nat)
    requires DistinctKeys(fs) && i < |fs|
    ensures Get(Members(fs), fs[i].key) == fs[i].value
  {
    hide Get, Optional;
    var n := |fs| - 1;
    GetAppend(Members(fs[..n]), Optional(fs[n].key, fs[n].value), fs[i].key);
    GetOptional(fs[n].key, fs[n].value, fs[i].key);
    if i < n {
      FieldValue(fs[..n], i);
    } else {
      NoField(fs[..n], fs[n].key);
    }
  }

  lemma {:induction false} MembersOf(fs: seq<Field>)
    ensures forall m :: m in Members(fs) ==> exists i :: 0 <= i < |fs| && fs[i].key == m.key && fs[i].value == Some(m.value)
  {
    if fs != [] {
      MembersOf(fs[..|fs| - 1]);
      forall m | m in Members(fs)
        ensures exists i :: 0 <= i < |fs| && fs[i].key == m.key && fs[i].value == Some(m.value)
      {
        if m in Members(fs[..|fs| - 1]) {
          var i :| 0 <= i < |fs| - 1 && fs[..|fs| - 1][i].key == m.key && fs[..|fs| - 1][i].value == Some(m.value);
          assert fs[i].key == m.key;
        }
      }
    }
  }

  predicate PairFreeField(f: Field) {
    Ascii(f.key) && (f.value.Some? ==> PairFreeValue(f.value.value))
  }

  lemma FieldsPairFree(fs: seq<Field>)
    requires forall i :: 0 <= i < |fs| ==> PairFreeField(fs[i])
    ensures PairFreeValue(Obj(Members(fs)))
  {
    MembersOf(fs);
    forall m | m in Members(fs)
      ensures PairFreeMember(m)
    {
      var i :| 0 <= i < |fs| && fs[i].key == m.key && fs[i].value == Some(m.value);
      assert PairFreeField(fs[i]);
      NamedMember(m.key, m.value);
    }
    PairFreeObj(Members(fs));
  }

  /** A member that is always there. */
  function TextValue(t: Text): Option<Value> {
    Some(Str(t))
  }

  /** A member that is there when the text is. */
  function OptionalText(t: Option<Text>): Option<Value> {
    if t.None? then None else Some(Str(t.value))
  }

  lemma TextField(key: Text, t: Text)
    requires Ascii(key) && Ascii(t)
    ensures PairFreeField(Field(key, TextValue(t)))
  {
    AsciiPairFree(t);
  }

  /** A member that must be a text. */
  function ReadText(ms: seq<Member>, key: Text): (r: Result<Text>) {
    var v := Get(ms, key);
    if v.Some? && v.value.Str? then Ok(v.value.s) else Err(InternalError)
  }

  /** A member that may be absent or null. */
  function ReadOptional(ms: seq<Member>, key: Text): (r: Result<Option<Text>>) {
    var v := Get(ms, key);
    if v.None? || v.value.Null? then Ok(None) else if v.value.Str? then Ok(Some(v.value.s)) else Err(InternalError)
  }

  function ReadInstant(cal: Calendar, ms: seq<Member>, key: Text): (r: Result<int>) {
    var t := ReadText(ms, key);
    if t.Err? || cal.parse(t.value).None? then Err(InternalError) else Ok(cal.parse(t.value).value)
  }

  // --- Provenance

  function ProvenanceFields(cal: Calendar, p: Provenance): (fs: seq<Field>)
    ensures |fs| == 7
  {
    [Field(Lit("artifactHash"), TextValue(p.artifactHash)),
     Field(Lit("baseModelId"), TextValue(p.baseModelId)),
     Field(Lit("createdAt"), TextValue(cal.show(p.createdAt))),
     Field(Lit("datasetHash"), TextValue(p.datasetHash)),
     Field(Lit("jobId"), TextValue(p.jobId)),
     Field(Lit("schemaVersion"), TextValue(p.schemaVersion)),
     Field(Lit("trainingConfigHash"), TextValue(p.trainingConfigHash))]
  }

  /** `ProvenanceRecord.to_dict` */
  function ProvenanceJson(cal: Calendar, p: Provenance): Value {
    Obj(Members(ProvenanceFields(cal, p)))
  }

  predicate ProvenanceKey(k: Text) {
    || k == Lit("artifactHash") || k == Lit("baseModelId") || k == Lit("createdAt") || k == Lit("datasetHash")
    || k == Lit("jobId") || k == Lit("schemaVersion") || k == Lit("trainingConfigHash")
  }

  /** `ProvenanceRecord.from_mapping` */
  function ReadProvenance(cal: Calendar, ms: seq<Member>): (r: Result<Provenance>)
    ensures r.Ok? ==> ValidProvenance(r.value)
  {
    var jobId := GetText(ms, Lit("jobId"));
    var datasetHash := GetText(ms, Lit("datasetHash"));
    var artifactHash := GetText(ms, Lit("artifactHash"));
    var baseModelId := GetText(ms, Lit("baseModelId"));
    var configHash := GetText(ms, Lit("trainingConfigHash"));
    var createdAt := GetText(ms, Lit("createdAt"));
    var schemaVersion := GetText(ms, Lit("schemaVersion"));
    if exists m :: m in ms && !ProvenanceKey(m.key) then Err(ValidationError)
    else if jobId.None? || datasetHash.None? || artifactHash.None? || baseModelId.None? || configHash.None?
            || createdAt.None? || schemaVersion.None? then Err(ValidationError)
    else if cal.parse(createdAt.value).None? then Err(ValidationError)
    else
      var p := Provenance(jobId.value, datasetHash.value, artifactHash.value, baseModelId.value, configHash.value,
                          cal.parse(createdAt.value).value, schemaVersion.value);
      if ValidProvenance(p) then Ok(p) else Err(ValidationError)
  }

  lemma ProvenanceLookup(cal: Calendar, p: Provenance)
    ensures var ms := Members(ProvenanceFields(cal, p));
            && GetText(ms, Lit("artifactHash")) == Some(p.artifactHash)
            && GetText(ms, Lit("baseModelId")) == Some(p.baseModelId)
            && GetText(ms, Lit("createdAt")) == Some(cal.show(p.createdAt))
            && GetText(ms, Lit("datasetHash")) == Some(p.datasetHash)
            && GetText(ms, Lit("jobId")) == Some(p.jobId)
            && GetText(ms, Lit("schemaVersion")) == Some(p.schemaVersion)
            && GetText(ms, Lit("trainingConfigHash")) == Some(p.trainingConfigHash)
            && forall m :: m in ms ==> ProvenanceKey(m.key)
  {
    hide Get, Members;
    var fs := ProvenanceFields(cal, p);
    assert DistinctKeys(fs);
    FieldValue(fs, 0);
    FieldValue(fs, 1);
    FieldValue(fs, 2);
    FieldValue(fs, 3);
    FieldValue(fs, 4);
    FieldValue(fs, 5);
    FieldValue(fs, 6);
    MembersOf(fs);
    assert forall i :: 0 <= i < |fs| ==> ProvenanceKey(fs[i].key);
  }

  /** Valid provenance reads back as itself. */
  lemma ProvenanceRoundTrip(cal: Calendar, p: Provenance)
    requires Faithful(cal) && ValidProvenance(p) && InCalendar(p.createdAt)
    ensures ReadProvenance(cal, Members(ProvenanceFields(cal, p))) == Ok(p)
  {
    hide Members, ProvenanceFields, GetText, ValidProvenance, ProvenanceKey;
    ProvenanceLookup(cal, p);
  }

  // --- Artifacts

  function ArtifactFields(cal: Calendar, a: Artifact): (fs: seq<Field>)
    ensures |fs| == 8
  {
    [Field(Lit("artifactHash"), TextValue(a.artifactHash)),
     Field(Lit("createdAt"), TextValue(cal.show(a.createdAt))),
     Field(Lit("datasetHash"), TextValue(a.datasetHash)),
     Field(Lit("expiresAt"), TextValue(cal.show(a.createdAt + a.retention.ttl))),
     Field(Lit("id"), TextValue(a.id)),
     Field(Lit("jobId"), TextValue(a.jobId)),
     Field(Lit("provenanceRecordId"), TextValue(a.provenanceId)),
     Field(Lit("retentionPolicy"), Some(RetentionJson(a.retention)))]
  }

  /** `to_public_dict`: the object key is not shown. */
  function ArtifactJson(cal: Calendar, a: Artifact): Value {
    Obj(Members(ArtifactFields(cal, a)))
  }

  /** `ArtifactMetadata.from_dict` */
  function ReadArtifact(cal: Calendar, ms: seq<Member>): (r: Result<Artifact>) {
    var id := ReadText(ms, Lit("id"));
    var jobId := ReadText(ms, Lit("jobId"));
    var datasetHash := ReadText(ms, Lit("datasetHash"));
    var artifactHash := ReadText(ms, Lit("artifactHash"));
    var createdAt := ReadInstant(cal, ms, Lit("createdAt"));
    var provenanceId := ReadText(ms, Lit("provenanceRecordId"));
    var storageKey := ReadOptional(ms, Lit("storageKey"));
    if id.Err? || jobId.Err? || datasetHash.Err? || artifactHash.Err? || createdAt.Err? || provenanceId.Err?
       || storageKey.Err? || Get(ms, Lit("retentionPolicy")).None? then Err(InternalError)
    else
      var retention := ReadRetention(Get(ms, Lit("retentionPolicy")));
      if retention.Err? then Err(retention.code)
      else Ok(Artifact(id.value, jobId.value, datasetHash.value, artifactHash.value, createdAt.value,
                       provenanceId.value, retention.value, storageKey.value))
  }

  function Keyless(a: Artifact): Artifact {
    a.(storageKey := None)
  }

  lemma ArtifactLookup(cal: Calendar, a: Artifact)
    ensures var ms := Members(ArtifactFields(cal, a));
            && ReadText(ms, Lit("artifactHash")) == Ok(a.artifactHash)
            && ReadText(ms, Lit("createdAt")) == Ok(cal.show(a.createdAt))
            && ReadText(ms, Lit("datasetHash")) == Ok(a.datasetHash)
            && ReadText(ms, Lit("id")) == Ok(a.id)
            && ReadText(ms, Lit("jobId")) == Ok(a.jobId)
            && ReadText(ms, Lit("provenanceRecordId")) == Ok(a.provenanceId)
            && Get(ms, Lit("retentionPolicy")) == Some(RetentionJson(a.retention))
            && Get(ms, Lit("storageKey")).None?
  {
    hide Get, Members, RetentionJson;
    var fs := ArtifactFields(cal, a);
    assert DistinctKeys(fs);
    FieldValue(fs, 0);
    FieldValue(fs, 1);
    FieldValue(fs, 2);
    FieldValue(fs, 4);
    FieldValue(fs, 5);
    FieldValue(fs, 6);
    FieldValue(fs, 7);
    NoField(fs, Lit("storageKey"));
  }

  /** An artifact reads back as itself, but for its object key. */
  lemma ArtifactRoundTrip(cal: Calendar, a: Artifact)
    requires Faithful(cal) && ValidRetention(a.retention) && DatedArtifact(a)
    ensures ReadArtifact(cal, Members(ArtifactFields(cal, a))) == Ok(Keyless(a))
  {
    hide Members, ArtifactFields, ReadText, ReadRetention, RetentionJson, ValidRetention, Get;
    ArtifactLookup(cal, a);
    RetentionRoundTrip(a.retention);
  }

  function ArtifactsJson(cal: Calendar, artifacts: seq<Artifact>): (vs: seq<Value>)
    ensures |vs| == |artifacts| && forall i :: 0 <= i < |vs| ==> vs[i] == ArtifactJson(cal, artifacts[i])
  {
    seq(|artifacts|, i requires 0 <= i < |artifacts| => ArtifactJson(cal, artifacts[i]))
  }

  /** The artifacts among some values; what is no object is skipped. */
  function ReadArtifacts(cal: Calendar, vs: seq<Value>): (r: Result<seq<Artifact>>) {
    if vs == [] then Ok([])
    else
      var before := ReadArtifacts(cal, vs[..|vs| - 1]);
      var v := vs[|vs| - 1];
      if before.Err? || !v.Obj? then before
      else
        var a := ReadArtifact(cal, v.members);
        if a.Err? then Err(a.code) else Ok(before.value + [a.value])
  }

  function KeylessAll(artifacts: seq<Artifact>): (t: seq<Artifact>)
    ensures |t| == |artifacts| && forall i :: 0 <= i < |t| ==> t[i] == Keyless(artifacts[i])
  {
    seq(|artifacts|, i requires 0 <= i < |artifacts| => Keyless(artifacts[i]))
  }

  lemma {:induction false} ArtifactsRoundTrip(cal: Calendar, artifacts: seq<Artifact>)
    requires Faithful(cal)
    requires forall i :: 0 <= i < |artifacts| ==> ValidRetention(artifacts[i].retention) && DatedArtifact(artifacts[i])
    ensures ReadArtifacts(cal, ArtifactsJson(cal, artifacts)) == Ok(KeylessAll(artifacts))
  {
    hide ReadArtifact, ArtifactFields, Members, ValidRetention;
    if artifacts != [] {
      var n := |artifacts| - 1;
      ArtifactsRoundTrip(cal, artifacts[..n]);
      ArtifactRoundTrip(cal, artifacts[n]);
      assert ArtifactsJson(cal, artifacts)[..n] == ArtifactsJson(cal, artifacts[..n]);
      assert KeylessAll(artifacts) == KeylessAll(artifacts[..n]) + [Keyless(artifacts[n])];
    } else {
      assert KeylessAll(artifacts) == [];
    }
  }

  // --- Records

  function StatusName(s: Status): Text {
    match s
    case Queued => Lit("queued")
    case Running => Lit("running")
    case Succeeded => Lit("succeeded")
    case Failed => Lit("failed")
    case Cancelled => Lit("cancelled")
    case Deleted => Lit("deleted")
  }

  function StatusNamed(t: Text): (s: Option<Status>)
    ensures forall k: Status :: StatusName(k) == t ==> s == Some(k)
  {
    if t == Lit("queued") then Some(Queued)
    else if t == Lit("running") then Some(Running)
    else if t == Lit("succeeded") then Some(Succeeded)
    else if t == Lit("failed") then Some(Failed)
    else if t == Lit("cancelled") then Some(Cancelled)
    else if t == Lit("deleted") then Some(Deleted)
    else None
  }

  function TombstoneFields(cal: Calendar, r: Record): (fs: seq<Field>)
    ensures |fs| == 7
  {
    [Field(Lit("createdAt"), TextValue(cal.show(r.createdAt))),
     Field(Lit("deletedAt"), if r.deletedAt.None? then None else TextValue(cal.show(r.deletedAt.value))),
     Field(Lit("id"), TextValue(r.id)),
     Field(Lit("provenance"), if r.provenance.None? then None else Some(ProvenanceJson(cal, r.provenance.value))),
     Field(Lit("retryOfJobId"), OptionalText(r.retryOf)),
     Field(Lit("status"), TextValue(StatusName(r.status))),
     Field(Lit("updatedAt"), TextValue(cal.show(r.updatedAt)))]
  }

  function LiveFields(cal: Calendar, r: Record): (fs: seq<Field>)
    requires r.request.Some?
    ensures |fs| == 8
  {
    [Field(Lit("artifacts"), Some(Arr(ArtifactsJson(cal, r.artifacts)))),
     Field(Lit("createdAt"), TextValue(cal.show(r.createdAt))),
     Field(Lit("id"), TextValue(r.id)),
     Field(Lit("provenance"), Some(if r.provenance.None? then Null else ProvenanceJson(cal, r.provenance.value))),
     Field(Lit("request"), Some(RequestJson(r.request.value))),
     Field(Lit("retryOfJobId"), OptionalText(r.retryOf)),
     Field(Lit("status"), TextValue(StatusName(r.status))),
     Field(Lit("updatedAt"), TextValue(cal.show(r.updatedAt)))]
  }

  /** `to_persisted_dict`; only a record that is no tombstone and has no request cannot be written. */
  function RecordJson(cal: Calendar, r: Record): (v: Result<Value>) {
    if r.status == Deleted then Ok(Obj(Members(TombstoneFields(cal, r))))
    else if r.request.None? then Err(InternalError)
    else Ok(Obj(Members(LiveFields(cal, r))))
  }

  function ReadOptionalProvenance(cal: Calendar, ms: seq<Member>): (r: Result<Option<Provenance>>) {
    var v := Get(ms, Lit("provenance"));
    if v.None? || v.value.Null? then Ok(None)
    else if !v.value.Obj? then Err(InternalError)
    else
      var p := ReadProvenance(cal, v.value.members);
      if p.Err? then Err(p.code) else Ok(Some(p.value))
  }

  /** `from_persisted_dict` */
  function ReadRecord(cal: Calendar, ms: seq<Member>): (r: Result<Record>) {
    var status := ReadText(ms, Lit("status"));
    var id := ReadText(ms, Lit("id"));
    var createdAt := ReadInstant(cal, ms, Lit("createdAt"));
    var updatedAt := ReadInstant(cal, ms, Lit("updatedAt"));
    var retryOf := ReadOptional(ms, Lit("retryOfJobId"));
    var provenance := ReadOptionalProvenance(cal, ms);
    if status.Err? || StatusNamed(status.value).None? then Err(InternalError)
    else if provenance.Err? then Err(provenance.code)
    else if id.Err? || createdAt.Err? || updatedAt.Err? || retryOf.Err? then Err(InternalError)
    else if StatusNamed(status.value).value == Deleted then
      var deletedAt := ReadOptional(ms, Lit("deletedAt"));
      if deletedAt.Err? || (deletedAt.value.Some? && cal.parse(deletedAt.value.value).None?) then Err(InternalError)
      else
        Ok(Record(id.value, None, Deleted, createdAt.value, updatedAt.value, [], provenance.value,
                  if deletedAt.value.None? then None else cal.parse(deletedAt.value.value), retryOf.value))
    else
      var artifacts := Get(ms, Lit("artifacts"));
      if artifacts.Some? && !artifacts.value.Arr? then Err(InternalError)
      else
        var request := Get(ms, Lit("request"));
        if request.None? || !request.value.Obj? then Err(InternalError)
        else
          var q := FromMapping(request.value.members);
          var all := ReadArtifacts(cal, if artifacts.None? then [] else artifacts.value.items);
          if q.Err? then Err(q.code)
          else if all.Err? then Err(all.code)
          else Ok(Record(id.value, Some(q.value), StatusNamed(status.value).value, createdAt.value, updatedAt.value,
                         all.value, provenance.value, None, retryOf.value))
  }

  /** What a restart makes of a record: object keys are lost, and a tombstone has no artifacts. */
  function Restarted(r: Record): Record {
    r.(artifacts := if r.status == Deleted then [] else KeylessAll(r.artifacts))
  }

  lemma TombstoneLookup(cal: Calendar, r: Record)
    ensures var ms := Members(TombstoneFields(cal, r));
            && ReadText(ms, Lit("createdAt")) == Ok(cal.show(r.createdAt))
            && ReadText(ms, Lit("updatedAt")) == Ok(cal.show(r.updatedAt))
            && ReadText(ms, Lit("id")) == Ok(r.id)
            && ReadText(ms, Lit("status")) == Ok(StatusName(r.status))
            && ReadOptional(ms, Lit("retryOfJobId")) == Ok(r.retryOf)
            && ReadOptional(ms, Lit("deletedAt")) == Ok(if r.deletedAt.None? then None else Some(cal.show(r.deletedAt.value)))
            && Get(ms, Lit("provenance")) == if r.provenance.None? then None else Some(ProvenanceJson(cal, r.provenance.value))
  {
    hide Get, Members, ProvenanceJson, StatusName;
    var fs := TombstoneFields(cal, r);
    assert DistinctKeys(fs);
    FieldValue(fs, 0);
    FieldValue(fs, 1);
    FieldValue(fs, 2);
    FieldValue(fs, 3);
    FieldValue(fs, 4);
    FieldValue(fs, 5);
    FieldValue(fs, 6);
  }

  lemma LiveLookup(cal: Calendar, r: Record)
    requires r.request.Some?
    ensures var ms := Members(LiveFields(cal, r));
            && ReadText(ms, Lit("createdAt")) == Ok(cal.show(r.createdAt))
            && ReadText(ms, Lit("updatedAt")) == Ok(cal.show(r.updatedAt))
            && ReadText(ms, Lit("id")) == Ok(r.id)
            && ReadText(ms, Lit("status")) == Ok(StatusName(r.status))
            && ReadOptional(ms, Lit("retryOfJobId")) == Ok(r.retryOf)
            && Get(ms, Lit("artifacts")) == Some(Arr(ArtifactsJson(cal, r.artifacts)))
            && Get(ms, Lit("request")) == Some(RequestJson(r.request.value))
            && Get(ms, Lit("provenance")) == Some(if r.provenance.None? then Null else ProvenanceJson(cal, r.provenance.value))
  {
    hide Get, Members, ProvenanceJson, StatusName, ArtifactsJson, RequestJson;
    var fs := LiveFields(cal, r);
    assert DistinctKeys(fs);
    FieldValue(fs, 0);
    FieldValue(fs, 1);
    FieldValue(fs, 2);
    FieldValue(fs, 3);
    FieldValue(fs, 4);
    FieldValue(fs, 5);
    FieldValue(fs, 6);
    FieldValue(fs, 7);
  }

  lemma OptionalProvenanceRoundTrip(cal: Calendar, p: Option<Provenance>, ms: seq<Member>)
    requires Faithful(cal) && (p.Some? ==> ValidProvenance(p.value) && InCalendar(p.value.createdAt))
    requires Get(ms, Lit("provenance")) ==
             (if p.None? then None else Some(ProvenanceJson(cal, p.value)))
          || Get(ms, Lit("provenance")) == Some(if p.None? then Null else ProvenanceJson(cal, p.value))
    ensures ReadOptionalProvenance(cal, ms) == Ok(p)
  {
    hide Get, Members, ProvenanceFields, ReadProvenance, ValidProvenance;
    if p.Some? {
      ProvenanceRoundTrip(cal, p.value);
    }
  }

  lemma TombstoneRoundTrip(cal: Calendar, r: Record)
    requires Faithful(cal) && RecordOk(r) && Dated(r) && r.status == Deleted
    ensures ReadRecord(cal, Members(TombstoneFields(cal, r))) == Ok(Restarted(r))
  {
    hide Members, TombstoneFields, ReadText, ReadOptional, Get, StatusName, ProvenanceJson, ValidProvenance,
      ReadOptionalProvenance, ArtifactOk, IsJobId, ProvenanceMatches, DistinctArtifacts;
    TombstoneLookup(cal, r);
    OptionalProvenanceRoundTrip(cal, r.provenance, Members(TombstoneFields(cal, r)));
    var t := r.deletedAt.value;
    assert cal.parse(cal.show(t)) == Some(t);
  }

  lemma LiveRoundTrip(cal: Calendar, r: Record)
    requires Faithful(cal) && RecordOk(r) && Dated(r) && r.status != Deleted
    ensures ReadRecord(cal, Members(LiveFields(cal, r))) == Ok(Restarted(r))
  {
    hide Members, LiveFields, ReadText, ReadOptional, Get, StatusName, ProvenanceJson, ValidProvenance,
      ReadOptionalProvenance, ArtifactOk, IsJobId, ProvenanceMatches, DistinctArtifacts, ReadArtifacts, ArtifactsJson,
      RequestMembers, FromMapping, ValidRequest;
    LiveLookup(cal, r);
    OptionalProvenanceRoundTrip(cal, r.provenance, Members(LiveFields(cal, r)));
    RetentionsOk(r);
    ArtifactsRoundTrip(cal, r.artifacts);
    RequestRoundTrip(r.request.value);
  }

  lemma RetentionsOk(r: Record)
    requires RecordOk(r)
    ensures forall i :: 0 <= i < |r.artifacts| ==> ValidRetention(r.artifacts[i].retention)
  {
    forall i | 0 <= i < |r.artifacts|
      ensures ValidRetention(r.artifacts[i].retention)
    {
      assert r.artifacts[i] in r.artifacts && ArtifactOk(r.artifacts[i], r.id);
    }
  }

  /** A record reads back as what a restart makes of it. */
  lemma RecordRoundTrip(cal: Calendar, r: Record)
    requires Faithful(cal) && RecordOk(r) && Dated(r)
    ensures RecordJson(cal, r).Ok? && RecordJson(cal, r).value.Obj?
    ensures ReadRecord(cal, RecordJson(cal, r).value.members) == Ok(Restarted(r))
  {
    hide Members, TombstoneFields, LiveFields, ReadRecord, ArtifactOk, ProvenanceMatches, DistinctArtifacts,
      ValidRequest, ValidProvenance, Restarted;
    if r.status == Deleted {
      TombstoneRoundTrip(cal, r);
    } else {
      LiveRoundTrip(cal, r);
    }
  }

  // --- The file

  function RecordsJson(cal: Calendar, s: Jobs): (r: Result<seq<Value>>) {
    if s == [] then Ok([])
    else
      var before := RecordsJson(cal, s[..|s| - 1]);
      var last := RecordJson(cal, s[|s| - 1]);
      if before.Err? then before else if last.Err? then Err(last.code) else Ok(before.value + [last.value])
  }

  /** `_save`: the text of the store file, or an error and no file. */
  function SavedText(cal: Calendar, s: Jobs): (r: Result<Text>) {
    var records := RecordsJson(cal, SortById(s));
    if records.Err? then Err(records.code)
    else Ok(Dumps(Obj([Member(Lit("jobs"), Arr(records.value))]), Indented) + [10])
  }

  /** `jobs[record.id] = record` */
  function PutRecord(s: Jobs, r: Record): Jobs {
    var i := Find(s, r.id);
    if i.None? then s + [r] else s[i.value := r]
  }

  /** The dictionary of the records among some values; what is no object is skipped, and the last of an id wins. */
  function ReadRecords(cal: Calendar, vs: seq<Value>): (r: Result<Jobs>) {
    if vs == [] then Ok([])
    else
      var before := ReadRecords(cal, vs[..|vs| - 1]);
      var v := vs[|vs| - 1];
      if before.Err? || !v.Obj? then before
      else
        var last := ReadRecord(cal, v.members);
        if last.Err? then Err(last.code) else Ok(PutRecord(before.value, last.value))
  }

  /** `_load` */
  function LoadedJobs(cal: Calendar, file: Text): (r: Result<Jobs>) {
    var v := Loads(file);
    if v.None? || !v.value.Obj? then Err(InternalError)
    else
      var jobs := Get(v.value.members, Lit("jobs"));
      if jobs.None? then Ok([])
      else if !jobs.value.Arr? then Err(InternalError)
      else ReadRecords(cal, jobs.value.items)
  }

  function RestartedAll(s: Jobs): (t: Jobs)
    ensures |t| == |s| && forall i :: 0 <= i < |t| ==> t[i] == Restarted(s[i])
  {
    seq(|s|, i requires 0 <= i < |s| => Restarted(s[i]))
  }

  lemma {:induction false} RecordsRoundTrip(cal: Calendar, s: Jobs)
    requires Faithful(cal) && UniqueIds(s) && AllDated(s) && forall i :: 0 <= i < |s| ==> RecordOk(s[i])
    ensures RecordsJson(cal, s).Ok? && |RecordsJson(cal, s).value| == |s|
    ensures ReadRecords(cal, RecordsJson(cal, s).value) == Ok(RestartedAll(s))
  {
    hide RecordOk, RecordJson, ReadRecord, Restarted;
    if s != [] {
      var n := |s| - 1;
      RecordsRoundTrip(cal, s[..n]);
      RecordRoundTrip(cal, s[n]);
      var vs := RecordsJson(cal, s).value;
      assert vs[..n] == RecordsJson(cal, s[..n]).value;
      NewId(s);
      assert RestartedAll(s) == RestartedAll(s[..n]) + [Restarted(s[n])];
      RestartKeepsId(s[n]);
    } else {
      assert RestartedAll(s) == [];
    }
  }

  lemma RestartKeepsId(r: Record)
    ensures Restarted(r).id == r.id
  {
  }

  lemma NewId(s: Jobs)
    requires UniqueIds(s) && s != []
    ensures Find(RestartedAll(s[..|s| - 1]), s[|s| - 1].id).None?
  {
    hide Find;
    var t := RestartedAll(s[..|s| - 1]);
    forall k | 0 <= k < |t|
      ensures t[k].id != s[|s| - 1].id
    {
      assert t[k].id == s[k].id;
    }
    Absent(t, s[|s| - 1].id);
  }

  lemma {:induction false} Absent(s: Jobs, id: Text)
    requires forall k :: 0 <= k < |s| ==> s[k].id != id
    ensures Find(s, id).None?
  {
    if s != [] {
      Absent(s[..|s| - 1], id);
    }
  }

  // --- What is written holds no surrogate pair

  lemma HashKeys()
    ensures Ascii(Lit("artifactHash")) && Ascii(Lit("createdAt")) && Ascii(Lit("datasetHash")) && Ascii(Lit("jobId"))
  {
  }

  lemma ProvenanceKeys()
    ensures Ascii(Lit("baseModelId")) && Ascii(Lit("schemaVersion")) && Ascii(Lit("trainingConfigHash"))
  {
  }

  lemma ArtifactKeys()
    ensures Ascii(Lit("expiresAt")) && Ascii(Lit("id")) && Ascii(Lit("provenanceRecordId")) && Ascii(Lit("retentionPolicy"))
  {
  }

  lemma RecordKeys()
    ensures Ascii(Lit("createdAt")) && Ascii(Lit("id")) && Ascii(Lit("provenance"))
    ensures Ascii(Lit("retryOfJobId")) && Ascii(Lit("status")) && Ascii(Lit("updatedAt"))
  {
  }

  lemma ContentKeys()
    ensures Ascii(Lit("deletedAt")) && Ascii(Lit("artifacts")) && Ascii(Lit("request")) && Ascii(Lit("jobs"))
  {
  }

  lemma HashAscii(t: Text)
    requires IsHash(t)
    ensures Ascii(t)
  {
  }

  lemma JobIdAscii(t: Text)
    requires IsJobId(t)
    ensures Ascii(t)
  {
    assert t == t[..4] + t[4..];
  }

  lemma ArtifactIdAscii(t: Text)
    requires IsArtifactId(t)
    ensures Ascii(t)
  {
    assert t == t[..9] + t[9..];
  }

  lemma ModelIdAscii(t: Text)
    requires SafeIdentifier(t)
    ensures Ascii(t)
  {
  }

  lemma SchemaAscii()
    ensures Ascii(SchemaVersion())
  {
  }

  lemma ProvenancePairFree(cal: Calendar, p: Provenance)
    requires Faithful(cal) && ValidProvenance(p) && InCalendar(p.createdAt)
    ensures PairFreeValue(ProvenanceJson(cal, p))
  {
    hide Members, PairFreeValue, IsHash, IsJobId, SafeIdentifier, Ascii, PairFreeField;
    HashKeys();
    ProvenanceKeys();
    HashAscii(p.artifactHash);
    HashAscii(p.datasetHash);
    HashAscii(p.trainingConfigHash);
    JobIdAscii(p.jobId);
    ModelIdAscii(p.baseModelId);
    SchemaAscii();
    TextField(Lit("artifactHash"), p.artifactHash);
    TextField(Lit("baseModelId"), p.baseModelId);
    TextField(Lit("createdAt"), cal.show(p.createdAt));
    TextField(Lit("datasetHash"), p.datasetHash);
    TextField(Lit("jobId"), p.jobId);
    TextField(Lit("schemaVersion"), p.schemaVersion);
    TextField(Lit("trainingConfigHash"), p.trainingConfigHash);
    FieldsPairFree(ProvenanceFields(cal, p));
  }

  lemma ProvenanceIdAscii(jobId: Text)
    requires IsJobId(jobId)
    ensures Ascii(Lit("provenance_") + jobId)
  {
    JobIdAscii(jobId);
  }

  lemma ValueField(key: Text, v: Value)
    requires Ascii(key) && PairFreeValue(v)
    ensures PairFreeField(Field(key, Some(v)))
  {
  }

  lemma NothingField(key: Text)
    requires Ascii(key)
    ensures PairFreeField(Field(key, None))
  {
  }

  lemma ArtifactPairFree(cal: Calendar, a: Artifact, jobId: Text)
    requires Faithful(cal) && ArtifactOk(a, jobId) && IsJobId(jobId) && DatedArtifact(a)
    ensures PairFreeValue(ArtifactJson(cal, a))
  {
    hide Members, PairFreeValue, IsHash, IsJobId, IsArtifactId, Ascii, PairFreeField, RetentionJson, ValidRetention,
      StorageKey;
    HashKeys();
    ArtifactKeys();
    HashAscii(a.artifactHash);
    HashAscii(a.datasetHash);
    JobIdAscii(a.jobId);
    ArtifactIdAscii(a.id);
    ProvenanceIdAscii(jobId);
    RetentionPairFree(a.retention);
    TextField(Lit("artifactHash"), a.artifactHash);
    TextField(Lit("createdAt"), cal.show(a.createdAt));
    TextField(Lit("datasetHash"), a.datasetHash);
    TextField(Lit("expiresAt"), cal.show(a.createdAt + a.retention.ttl));
    TextField(Lit("id"), a.id);
    TextField(Lit("jobId"), a.jobId);
    TextField(Lit("provenanceRecordId"), a.provenanceId);
    ValueField(Lit("retentionPolicy"), RetentionJson(a.retention));
    FieldsPairFree(ArtifactFields(cal, a));
  }

  lemma ArtifactsPairFree(cal: Calendar, r: Record)
    requires Faithful(cal) && RecordOk(r) && Dated(r)
    ensures PairFreeValue(Arr(ArtifactsJson(cal, r.artifacts)))
  {
    hide ArtifactOk, ArtifactFields, Members, ValidRequest, ValidProvenance, IsJobId;
    var vs := ArtifactsJson(cal, r.artifacts);
    forall v | v in vs
      ensures PairFreeValue(v)
    {
      var i :| 0 <= i < |vs| && vs[i] == v;
      assert r.artifacts[i] in r.artifacts;
      ArtifactPairFree(cal, r.artifacts[i], r.id);
    }
  }

  lemma StatusAscii(s: Status)
    ensures Ascii(StatusName(s))
  {
  }

  /** The members all records have. */
  lemma CommonFields(cal: Calendar, r: Record)
    requires Faithful(cal) && RecordOk(r) && Dated(r)
    ensures PairFreeField(Field(Lit("createdAt"), TextValue(cal.show(r.createdAt))))
    ensures PairFreeField(Field(Lit("updatedAt"), TextValue(cal.show(r.updatedAt))))
    ensures PairFreeField(Field(Lit("id"), TextValue(r.id)))
    ensures PairFreeField(Field(Lit("status"), TextValue(StatusName(r.status))))
    ensures PairFreeField(Field(Lit("retryOfJobId"), OptionalText(r.retryOf)))
    ensures PairFreeField(Field(Lit("provenance"), if r.provenance.None? then None else Some(ProvenanceJson(cal, r.provenance.value))))
    ensures PairFreeField(Field(Lit("provenance"), Some(if r.provenance.None? then Null else ProvenanceJson(cal, r.provenance.value))))
  {
    hide PairFreeField, IsJobId, Ascii, ValidProvenance, ValidRequest, StatusName, ArtifactOk, DistinctArtifacts,
      ProvenanceMatches, ProvenanceFields, Members;
    RecordKeys();
    JobIdAscii(r.id);
    StatusAscii(r.status);
    TextField(Lit("createdAt"), cal.show(r.createdAt));
    TextField(Lit("updatedAt"), cal.show(r.updatedAt));
    TextField(Lit("id"), r.id);
    TextField(Lit("status"), StatusName(r.status));
    if r.retryOf.Some? {
      JobIdAscii(r.retryOf.value);
      TextField(Lit("retryOfJobId"), r.retryOf.value);
    } else {
      NothingField(Lit("retryOfJobId"));
    }
    if r.provenance.Some? {
      ProvenancePairFree(cal, r.provenance.value);
      ValueField(Lit("provenance"), ProvenanceJson(cal, r.provenance.value));
    } else {
      NothingField(Lit("provenance"));
      ValueField(Lit("provenance"), Null);
    }
  }

  lemma RecordPairFree(cal: Calendar, r: Record)
    requires Faithful(cal) && RecordOk(r) && Dated(r)
    ensures RecordJson(cal, r).Ok? && PairFreeValue(RecordJson(cal, r).value)
  {
    hide PairFreeField, PairFreeValue, IsJobId, Ascii, ValidProvenance, ValidRequest, StatusName, ArtifactOk,
      DistinctArtifacts, ProvenanceMatches, ProvenanceJson, ArtifactsJson, RequestJson, Members;
    ContentKeys();
    CommonFields(cal, r);
    if r.status == Deleted {
      var t := r.deletedAt.value;
      TextField(Lit("deletedAt"), cal.show(t));
      FieldsPairFree(TombstoneFields(cal, r));
    } else {
      ArtifactsPairFree(cal, r);
      ValueField(Lit("artifacts"), Arr(ArtifactsJson(cal, r.artifacts)));
      RequestPairFree(r.request.value);
      ValueField(Lit("request"), RequestJson(r.request.value));
      FieldsPairFree(LiveFields(cal, r));
    }
  }

  lemma {:induction false} RecordsPairFree(cal: Calendar, s: Jobs)
    requires Faithful(cal) && AllDated(s) && forall i :: 0 <= i < |s| ==> RecordOk(s[i])
    ensures RecordsJson(cal, s).Ok? && forall v :: v in RecordsJson(cal, s).value ==> PairFreeValue(v)
  {
    hide RecordOk, RecordJson, PairFreeValue;
    if s != [] {
      RecordsPairFree(cal, s[..|s| - 1]);
      RecordPairFree(cal, s[|s| - 1]);
    }
  }

  lemma FilePairFree(vs: seq<Value>)
    requires forall v :: v in vs ==> PairFreeValue(v)
    ensures PairFreeValue(Obj([Member(Lit("jobs"), Arr(vs))]))
  {
    ContentKeys();
    PairFreeArr(vs);
    NamedMember(Lit("jobs"), Arr(vs));
    PairFreeObj([Member(Lit("jobs"), Arr(vs))]);
  }

  // --- Restarts

  /**
   Every store in order can be saved, and loading the file gives its records by ascending id, each as a restart
   leaves it: without object keys, and tombstones without artifacts.
   */
  lemma LoadUndoesSave(cal: Calendar, s: Jobs)
    requires Faithful(cal) && JobsOk(s) && AllDated(s)
    ensures SavedText(cal, s).Ok?
    ensures LoadedJobs(cal, SavedText(cal, s).value) == Ok(RestartedAll(SortById(s)))
  {
    hide RecordOk, Dated, RecordsJson, ReadRecords, SortById, PairFreeValue, Loads, Dumps;
    var t := SortById(s);
    SortByIdSorts(s);
    forall i | 0 <= i < |t|
      ensures RecordOk(t[i]) && Dated(t[i])
    {
      assert t[i] in s;
      var k :| 0 <= k < |s| && s[k] == t[i];
    }
    RecordsRoundTrip(cal, t);
    RecordsPairFree(cal, t);
    var vs := RecordsJson(cal, t).value;
    var v := Obj([Member(Lit("jobs"), Arr(vs))]);
    FilePairFree(vs);
    RoundTripExactly(v, Indented, [10]);
    GetAt(v.members, 0);
  }
}
