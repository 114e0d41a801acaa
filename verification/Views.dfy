/** What a client reads off the answers of the service, and what it never sees there. */
module Views {
  import opened Texts
  import opened JsonNumbers
  import opened Json
  import opened JsonFacts
  import opened Contracts
  import opened StateMachine
  import opened Jobs
  import opened JobInvariants
  import opened Persistence
  import opened Restarts
  import opened RequestForms
  import opened Outcomes

  // --- Requests

  /** The public form of a request tells all of it but the idempotency key. */
  predicate ShowsRequest(v: Value, q: Request) {
    && v.Obj?
    && Get(v.members, Lit("idempotencyKey")) == None
    && Get(v.members, Lit("datasetId")) == Some(Str(q.datasetId))
    && Get(v.members, Lit("modelId")) == Some(Str(q.modelId))
    && Get(v.members, Lit("requestedBy")) == Some(Str(q.requestedBy))
    && PolicySays(Get(v.members, Lit("retentionPolicy")), q.retention)
    && ParamsSay(Get(v.members, Lit("trainingParameters")), q.modelId == GpuModel(), OwnDatasetId(q.datasetId), q.params)
  }

  lemma RequestShown(q: Request)
    requires ValidRequest(q)
    ensures ShowsRequest(PublicRequestJson(q), q)
  {
    hide PolicySays, ParamsSay, RetentionJson, ParamsJson, Get, SafeIdentifier, TrainingDatasetId, OwnDatasetId,
      Requester, ReadRetention, ReadParams, ValidParams, ValidRetention;
    PublicLookup(q);
    RetentionRoundTrip(q.retention);
    PolicyExactly(Some(RetentionJson(q.retention)), q.retention);
    ParamsRoundTrip(q.params, q.modelId == GpuModel(), OwnDatasetId(q.datasetId));
    ParamsExactly(Some(ParamsJson(q.params)), q.modelId == GpuModel(), OwnDatasetId(q.datasetId), q.params);
  }

  lemma PublicLookup(q: Request)
    ensures var ms := PublicRequestJson(q).members;
            && Get(ms, Lit("idempotencyKey")) == None
            && Get(ms, Lit("datasetId")) == Some(Str(q.datasetId))
            && Get(ms, Lit("modelId")) == Some(Str(q.modelId))
            && Get(ms, Lit("requestedBy")) == Some(Str(q.requestedBy))
            && Get(ms, Lit("retentionPolicy")) == Some(RetentionJson(q.retention))
            && Get(ms, Lit("trainingParameters")) == Some(ParamsJson(q.params))
  {
    hide RetentionJson, ParamsJson, Get;
    var ms := PublicRequestJson(q).members;
    GetAt(ms, 0);
    GetAt(ms, 1);
    GetAt(ms, 2);
    GetAt(ms, 3);
    GetAt(ms, 4);
    GetNothing(ms, Lit("idempotencyKey"));
  }

  lemma {:induction false} GetNothing(ms: seq<Member>, key: Text)
    requires forall i :: 0 <= i < |ms| ==> ms[i].key != key
    ensures Get(ms, key) == None
  {
    if ms != [] {
      GetNothing(ms[..|ms| - 1], key);
    }
  }

  // --- Jobs

  /** Under the key stands the instant, as the calendar reads it. */
  predicate ShowsInstant(cal: Calendar, v: Option<Value>, t: int) {
    v.Some? && v.value.Str? && cal.parse(v.value.s) == Some(t)
  }

  predicate ShowsStatus(v: Option<Value>, status: Status) {
    match status
    case Queued => v == Some(Str(Lit("queued")))
    case Running => v == Some(Str(Lit("running")))
    case Succeeded => v == Some(Str(Lit("succeeded")))
    case Failed => v == Some(Str(Lit("failed")))
    case Cancelled => v == Some(Str(Lit("cancelled")))
    case Deleted => v == Some(Str(Lit("deleted")))
  }

  /** The job as it is: identity, state, instants and link, and its request unless it is a tombstone. */
  predicate ShowsJob(cal: Calendar, v: Value, r: Record) {
    && v.Obj?
    && Get(v.members, Lit("id")) == Some(Str(r.id))
    && ShowsStatus(Get(v.members, Lit("status")), r.status)
    && ShowsInstant(cal, Get(v.members, Lit("createdAt")), r.createdAt)
    && ShowsInstant(cal, Get(v.members, Lit("updatedAt")), r.updatedAt)
    && (if r.status == Deleted && r.deletedAt.Some?
        then ShowsInstant(cal, Get(v.members, Lit("deletedAt")), r.deletedAt.value)
        else Get(v.members, Lit("deletedAt")) == None)
    && (if r.retryOf.Some? then Get(v.members, Lit("retryOfJobId")) == Some(Str(r.retryOf.value))
        else Get(v.members, Lit("retryOfJobId")) == None)
    && if r.status == Deleted then Get(v.members, Lit("request")) == None
       else
         && r.request.Some? && Get(v.members, Lit("request")).Some?
         && ShowsRequest(Get(v.members, Lit("request")).value, r.request.value)
  }

  lemma FieldsLookup(cal: Calendar, r: Record)
    requires r.status == Deleted || r.request.Some?
    ensures var fs, ms := PublicFields(cal, r), Members(PublicFields(cal, r));
            && Get(ms, Lit("createdAt")) == fs[0].value && Get(ms, Lit("deletedAt")) == fs[1].value
            && Get(ms, Lit("id")) == fs[2].value && Get(ms, Lit("request")) == fs[3].value
            && Get(ms, Lit("retryOfJobId")) == fs[4].value && Get(ms, Lit("status")) == fs[5].value
            && Get(ms, Lit("updatedAt")) == fs[6].value
  {
    hide Get, Members, PublicRequestJson, StatusName;
    var fs := PublicFields(cal, r);
    assert DistinctKeys(fs);
    FieldValue(fs, 0);
    FieldValue(fs, 1);
    FieldValue(fs, 2);
    FieldValue(fs, 3);
    FieldValue(fs, 4);
    FieldValue(fs, 5);
    FieldValue(fs, 6);
  }

  /** The view of a stored job shows it as it is; there is none of any other id. */
  lemma JobIsShown(cal: Calendar, s: Jobs, id: Text)
    requires Faithful(cal) && JobsOk(s) && AllDated(s)
    ensures var v := JobView(cal, s, id);
            if exists i :: 0 <= i < |s| && s[i].id == id then
              && v.Ok?
              && exists i :: 0 <= i < |s| && s[i].id == id && ShowsJob(cal, v.value, s[i])
            else v == Err(NotFound)
  {
    hide Get, Members, PublicRequestJson, ShowsRequest, PublicFields, Faithful, Dated, RecordOk;
    if Holds(s, id) {
      var i := Find(s, id).value;
      assert s[i] in s;
      RecordIsShown(cal, s[i]);
    }
  }

  lemma RecordIsShown(cal: Calendar, r: Record)
    requires Faithful(cal) && RecordOk(r) && Dated(r)
    ensures PublicJson(cal, r).Ok? && ShowsJob(cal, PublicJson(cal, r).value, r)
  {
    hide Get, Members, PublicRequestJson, ShowsRequest, ValidRequest, ValidProvenance, ArtifactOk, DistinctArtifacts,
      ProvenanceMatches, IsJobId, DatedArtifact;
    FieldsLookup(cal, r);
    if r.request.Some? {
      RequestShown(r.request.value);
    }
  }

  // --- Artifacts

  /** The artifact as it is, the object key aside, and the instant from which it counts as expired. */
  predicate ShowsArtifact(cal: Calendar, v: Value, a: Artifact) {
    && v.Obj?
    && Get(v.members, Lit("storageKey")) == None
    && Get(v.members, Lit("id")) == Some(Str(a.id)) && Get(v.members, Lit("jobId")) == Some(Str(a.jobId))
    && Get(v.members, Lit("datasetHash")) == Some(Str(a.datasetHash))
    && Get(v.members, Lit("artifactHash")) == Some(Str(a.artifactHash))
    && Get(v.members, Lit("provenanceRecordId")) == Some(Str(a.provenanceId))
    && PolicySays(Get(v.members, Lit("retentionPolicy")), a.retention)
    && ShowsInstant(cal, Get(v.members, Lit("createdAt")), a.createdAt)
    && ShowsInstant(cal, Get(v.members, Lit("expiresAt")), a.createdAt + a.retention.ttl)
  }

  lemma ArtifactShown(cal: Calendar, a: Artifact)
    requires Faithful(cal) && ValidRetention(a.retention) && DatedArtifact(a)
    ensures ShowsArtifact(cal, ArtifactJson(cal, a), a)
  {
    hide Get, Members, RetentionJson, ReadRetention, ValidRetention, PolicySays;
    var fs := ArtifactFields(cal, a);
    assert DistinctKeys(fs);
    ArtifactLookup(cal, a);
    FieldValue(fs, 3);
    RetentionRoundTrip(a.retention);
    PolicyExactly(Some(RetentionJson(a.retention)), a.retention);
  }

  /** The instant that the view of an artifact gives for its end is the one from which every read and sweep buries the job. */
  lemma ShownExpiryIsActedOn(cal: Calendar, r: Record, now: int, stamp: int, shown: int)
    requires Faithful(cal) && RecordOk(r) && Dated(r) && r.status == Succeeded && |r.artifacts| == 1
    requires ShowsInstant(cal, Get(ArtifactJson(cal, r.artifacts[0]).members, Lit("expiresAt")), shown)
    ensures Expire(r, now, stamp) == (if now >= shown then Tombstone(r, stamp, true) else r)
  {
    hide Get, Members, RetentionJson, PolicySays, ValidRequest, ValidProvenance, ArtifactFields, IsJobId, Tombstone;
    var a := r.artifacts[0];
    assert a in r.artifacts && r.artifacts == [a] && ArtifactOk(a, r.id);
    ArtifactShown(cal, a);
    assert FirstExpired([a][1..], now).None?;
  }

  /** The list of artifacts shows each artifact of a live job, in order. */
  lemma ArtifactsAreShown(cal: Calendar, s: Jobs, i: nat)
    requires Faithful(cal) && JobsOk(s) && AllDated(s) && i < |s| && Find(s, s[i].id) == Some(i)
    ensures var v := ArtifactsView(cal, s, s[i].id);
            && v.Ok?
            && (s[i].status == Deleted ==> v.value == [])
            && (s[i].status != Deleted ==>
                  && |v.value| == |s[i].artifacts|
                  && forall k :: 0 <= k < |v.value| ==> ShowsArtifact(cal, v.value[k], s[i].artifacts[k]))
  {
    hide Faithful, ShowsArtifact, ArtifactJson, Find;
    assert s[i] in s && RecordOk(s[i]) && Dated(s[i]);
    forall k | 0 <= k < |s[i].artifacts|
      ensures ShowsArtifact(cal, ArtifactJson(cal, s[i].artifacts[k]), s[i].artifacts[k])
    {
      assert s[i].artifacts[k] in s[i].artifacts && ArtifactOk(s[i].artifacts[k], s[i].id);
      ArtifactShown(cal, s[i].artifacts[k]);
    }
  }

  // --- The queue

  /** The queue view gives the numbers of jobs and the limits. */
  lemma QueueIsShown(cfg: Config, s: Jobs)
    ensures var v := QueueView(cfg, s);
            && v.queued == |WithStatus(s, Queued)| && v.running == |WithStatus(s, Running)|
            && v.active == |Occupying(s)| && v.maxRunning == cfg.maxRunning && v.limit == cfg.queueLimit
  {
    hide Count, WithStatus, Occupying;
    CountIsSize(s, Queued);
    CountIsSize(s, Running);
    ActiveIsSize(s);
  }
}
