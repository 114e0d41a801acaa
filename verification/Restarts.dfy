/** What a client sees of the store, and that a restart does not change it. */
module Restarts {
  import opened Texts
  import opened JsonNumbers
  import opened Json
  import opened JsonFacts
  import opened Contracts
  import opened StateMachine
  import opened Jobs
  import opened JobFacts
  import opened JobInvariants
  import opened Sorting
  import opened Persistence

  // --- Views

  /** `TrainingJobRequest.to_public_dict`: without the idempotency key. */
  function PublicRequestJson(q: Request): Value {
    Obj([Member(Lit("datasetId"), Str(q.datasetId)),
         Member(Lit("modelId"), Str(q.modelId)),
         Member(Lit("requestedBy"), Str(q.requestedBy)),
         Member(Lit("retentionPolicy"), RetentionJson(q.retention)),
         Member(Lit("trainingParameters"), ParamsJson(q.params))])
  }

  function PublicFields(cal: Calendar, r: Record): (fs: seq<Field>)
    requires r.status == Deleted || r.request.Some?
    ensures |fs| == 7
  {
    var deletedAt := if r.status != Deleted || r.deletedAt.None? then None else TextValue(cal.show(r.deletedAt.value));
    [Field(Lit("createdAt"), TextValue(cal.show(r.createdAt))),
     Field(Lit("deletedAt"), deletedAt),
     Field(Lit("id"), TextValue(r.id)),
     Field(Lit("request"), if r.status == Deleted then None else Some(PublicRequestJson(r.request.value))),
     Field(Lit("retryOfJobId"), OptionalText(r.retryOf)),
     Field(Lit("status"), TextValue(StatusName(r.status))),
     Field(Lit("updatedAt"), TextValue(cal.show(r.updatedAt)))]
  }

  /** `TrainingJobRecord.to_public_dict` */
  function PublicJson(cal: Calendar, r: Record): (v: Result<Value>) {
    if r.status != Deleted && r.request.None? then Err(InternalError) else Ok(Obj(Members(PublicFields(cal, r))))
  }

  function JobView(cal: Calendar, s: Jobs, id: Text): (v: Result<Value>) {
    if Holds(s, id) then PublicJson(cal, s[Find(s, id).value]) else Err(NotFound)
  }

  /** `list_artifacts` */
  function ArtifactsView(cal: Calendar, s: Jobs, id: Text): (v: Result<seq<Value>>) {
    if !IsJobId(id) then Err(ValidationError)
    else if !Holds(s, id) then Err(NotFound)
    else if s[Find(s, id).value].status == Deleted then Ok([])
    else Ok(ArtifactsJson(cal, s[Find(s, id).value].artifacts))
  }

  /** `get_provenance` */
  function ProvenanceView(s: Jobs, id: Text): (p: Result<Provenance>) {
    if !IsJobId(id) then Err(ValidationError)
    else if !Holds(s, id) || s[Find(s, id).value].provenance.None? then Err(NotFound)
    else Ok(s[Find(s, id).value].provenance.value)
  }

  datatype QueueState = QueueState(active: nat, maxRunning: int, limit: int, queued: nat, running: nat)

  /** `queue_state` */
  function QueueView(cfg: Config, s: Jobs): QueueState {
    QueueState(Count(s, Queued) + Count(s, Running), cfg.maxRunning, cfg.queueLimit, Count(s, Queued), Count(s, Running))
  }

  // --- The restarted store

  /** The store after its file is saved and a new process loads it. */
  function AfterRestart(s: Jobs): (t: Jobs)
    ensures |t| == |s|
  {
    RestartedAll(SortById(s))
  }

  lemma FindIn(s: Jobs, r: Record)
    requires UniqueIds(s) && r in s
    ensures Holds(s, r.id) && s[Find(s, r.id).value] == r
  {
    var i: nat :| i < |s| && s[i] == r;
    FindAt(s, i);
  }

  lemma RestartedOk(r: Record)
    requires RecordOk(r)
    ensures RecordOk(Restarted(r))
  {
    hide ValidRequest, ValidProvenance, IsJobId, IsHash, IsArtifactId, ValidRetention;
    var t := Restarted(r);
    if r.status != Deleted {
      forall a | a in t.artifacts
        ensures ArtifactOk(a, t.id)
      {
        var i :| 0 <= i < |t.artifacts| && t.artifacts[i] == a;
        assert r.artifacts[i] in r.artifacts;
      }
    }
  }

  /** The restarted store is in order again, and holds a job exactly when the store did, as a restart leaves it. */
  lemma RestartKeepsJobs(s: Jobs, id: Text)
    requires JobsOk(s)
    ensures var t := AfterRestart(s);
            && JobsOk(t)
            && (Holds(t, id) <==> Holds(s, id))
            && (Holds(s, id) ==> t[Find(t, id).value] == Restarted(s[Find(s, id).value]))
  {
    hide RecordOk, SortById, Restarted;
    var u, t := SortById(s), AfterRestart(s);
    SortByIdSorts(s);
    forall i | 0 <= i < |t|
      ensures RecordOk(t[i]) && t[i].id == u[i].id
    {
      assert u[i] in s;
      RestartedOk(u[i]);
      RestartKeepsId(u[i]);
    }
    assert UniqueIds(t);
    if Holds(s, id) {
      var r := s[Find(s, id).value];
      assert r in s && r in u;
      var i: nat :| i < |u| && u[i] == r;
      assert t[i] in t;
      FindIn(t, t[i]);
    }
    forall i | 0 <= i < |t| && t[i].id == id
      ensures Holds(s, id)
    {
      assert u[i] in s;
      FindIn(s, u[i]);
    }
  }

  lemma {:induction false} RestartCounts(s: Jobs, status: Status)
    ensures Count(RestartedAll(s), status) == Count(s, status)
  {
    if s != [] {
      RestartCounts(s[..|s| - 1], status);
      assert RestartedAll(s)[..|s| - 1] == RestartedAll(s[..|s| - 1]);
    }
  }

  lemma {:induction false} SameArtifactViews(cal: Calendar, artifacts: seq<Artifact>)
    ensures ArtifactsJson(cal, KeylessAll(artifacts)) == ArtifactsJson(cal, artifacts)
  {
    hide Members;
    assert forall i :: 0 <= i < |artifacts| ==> ArtifactFields(cal, Keyless(artifacts[i])) == ArtifactFields(cal, artifacts[i]);
  }

  /**
   A restart is invisible. The file can be loaded, and every job, its artifacts and its provenance are shown as
   before, as are the queue counts; whatever the store did not hold it still does not hold.
   */
  lemma RestartIsTransparent(cal: Calendar, cfg: Config, s: Jobs, id: Text)
    requires Faithful(cal) && JobsOk(s) && AllDated(s)
    ensures SavedText(cal, s).Ok?
    ensures var t := LoadedJobs(cal, SavedText(cal, s).value);
            && t.Ok?
            && JobView(cal, t.value, id) == JobView(cal, s, id)
            && ArtifactsView(cal, t.value, id) == ArtifactsView(cal, s, id)
            && ProvenanceView(t.value, id) == ProvenanceView(s, id)
            && QueueView(cfg, t.value) == QueueView(cfg, s)
  {
    hide SavedText, LoadedJobs, JobsOk, SortById, Count, PublicJson, ArtifactsJson, IsJobId, KeylessAll;
    LoadUndoesSave(cal, s);
    RestartKeepsJobs(s, id);
    RestartCounts(SortById(s), Queued);
    RestartCounts(SortById(s), Running);
    CountSorted(s, Queued);
    CountSorted(s, Running);
    if Holds(s, id) {
      var r := s[Find(s, id).value];
      SamePublicJson(cal, r);
      SameArtifactViews(cal, r.artifacts);
    }
  }

  lemma SamePublicJson(cal: Calendar, r: Record)
    ensures PublicJson(cal, Restarted(r)) == PublicJson(cal, r)
  {
    hide Members, RetentionJson, ParamsJson, KeylessAll;
  }

  // --- Saving again

  ghost predicate Ascending(s: Jobs) {
    forall j, k :: 0 <= j < k < |s| ==> TextLess(s[j].id, s[k].id)
  }

  lemma FirstsEqual(a: Jobs, b: Jobs)
    requires Ascending(a) && Ascending(b) && a != [] && b != []
    requires a[0] in b && b[0] in a
    ensures a[0] == b[0]
  {
    var k :| 0 <= k < |b| && b[k] == a[0];
    var j :| 0 <= j < |a| && a[j] == b[0];
    if k > 0 && j > 0 {
      TextLessTransitive(a[0].id, b[0].id, a[0].id);
      TextLessIrreflexive(a[0].id);
    }
  }

  lemma InTail(a: Jobs, r: Record)
    requires Ascending(a) && a != []
    ensures r in a[1..] <==> r in a && r != a[0]
  {
    NotAgain(a);
    assert a == [a[0]] + a[1..];
  }

  lemma {:induction false} AscendingIsUnique(a: Jobs, b: Jobs)
    requires Ascending(a) && Ascending(b) && |a| == |b|
    requires forall r :: r in a <==> r in b
    ensures a == b
  {
    if a != [] {
      assert a[0] in a && b[0] in b;
      FirstsEqual(a, b);
      forall r
        ensures r in a[1..] <==> r in b[1..]
      {
        InTail(a, r);
        InTail(b, r);
      }
      AscendingIsUnique(a[1..], b[1..]);
      assert a == [a[0]] + a[1..] && b == [b[0]] + b[1..];
    }
  }

  lemma NotAgain(a: Jobs)
    requires Ascending(a) && a != []
    ensures a[0] !in a[1..]
  {
    if a[0] in a[1..] {
      var k :| 0 < k < |a| && a[k] == a[0];
      TextLessIrreflexive(a[0].id);
    }
  }

  lemma AscendingUniqueIds(s: Jobs)
    requires Ascending(s)
    ensures UniqueIds(s)
  {
    forall j, k | 0 <= j < k < |s|
      ensures s[j].id != s[k].id
    {
      TextLessIrreflexive(s[j].id);
    }
  }

  lemma SortedStays(s: Jobs)
    requires Ascending(s)
    ensures SortById(s) == s
  {
    hide SortById;
    AscendingUniqueIds(s);
    SortByIdSorts(s);
    AscendingIsUnique(SortById(s), s);
  }

  lemma RestartAscends(s: Jobs)
    requires UniqueIds(s)
    ensures Ascending(AfterRestart(s))
  {
    hide SortById, TextLess, KeylessAll;
    SortByIdSorts(s);
  }

  lemma SameRecordJson(cal: Calendar, r: Record)
    ensures RecordJson(cal, Restarted(r)) == RecordJson(cal, r)
  {
    hide Members, ArtifactsJson, ProvenanceJson, RequestJson, KeylessAll;
    SameArtifactViews(cal, r.artifacts);
  }

  lemma {:induction false} SameRecordsJson(cal: Calendar, s: Jobs)
    ensures RecordsJson(cal, RestartedAll(s)) == RecordsJson(cal, s)
  {
    hide RecordJson;
    if s != [] {
      SameRecordsJson(cal, s[..|s| - 1]);
      SameRecordJson(cal, s[|s| - 1]);
      assert RestartedAll(s)[..|s| - 1] == RestartedAll(s[..|s| - 1]);
    }
  }

  /** The first save after a restart writes the same file. */
  lemma SavedAgain(cal: Calendar, s: Jobs)
    requires UniqueIds(s)
    ensures SavedText(cal, AfterRestart(s)) == SavedText(cal, s)
  {
    hide SortById, RecordsJson, Dumps, UniqueIds;
    RestartAscends(s);
    SortedStays(AfterRestart(s));
    SameRecordsJson(cal, SortById(s));
  }

  /** Nothing a restart would drop: no object keys, and no artifacts on tombstones. */
  predicate Durable(r: Record) {
    && (forall i :: 0 <= i < |r.artifacts| ==> r.artifacts[i].storageKey.None?)
    && (r.status == Deleted ==> r.artifacts == [])
  }

  lemma DurableExactly(r: Record)
    ensures Restarted(r) == r <==> Durable(r)
  {
    if Durable(r) && r.status != Deleted {
      assert KeylessAll(r.artifacts) == r.artifacts;
    }
    if Restarted(r) == r && r.status != Deleted {
      assert forall i :: 0 <= i < |r.artifacts| ==> Keyless(r.artifacts[i]) == r.artifacts[i];
    }
  }

  /** A restart gives back the very same store exactly when it is in order of ids and has nothing to drop. */
  lemma RestartIsExact(cal: Calendar, s: Jobs)
    requires Faithful(cal) && JobsOk(s) && AllDated(s)
    ensures SavedText(cal, s).Ok?
    ensures LoadedJobs(cal, SavedText(cal, s).value) == Ok(s) <==>
            Ascending(s) && forall i :: 0 <= i < |s| ==> Durable(s[i])
  {
    hide SavedText, LoadedJobs, SortById, Durable, RecordOk, Restarted, TextLess;
    LoadUndoesSave(cal, s);
    if Ascending(s) {
      SortedStays(s);
      forall i | 0 <= i < |s|
        ensures RestartedAll(s)[i] == s[i] <==> Durable(s[i])
      {
        DurableExactly(s[i]);
      }
      assert (forall i :: 0 <= i < |s| ==> RestartedAll(s)[i] == s[i]) <==> RestartedAll(s) == s;
    } else {
      RestartAscends(s);
    }
  }
}
